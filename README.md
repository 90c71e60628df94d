# Sensitivity-parameter engine of OUTDOOR, modelled in Dafny

This project models the parameter-sensitivity engine of the OUTDOOR
process-design optimizer, `change_params.py`. The engine has four parts:

- **Sweep expansion** (`calculate_sensitive_parameters`). It turns parameter-range
  records into a dictionary. Each value holds a `linspace` sample list and a
  four-field metadata slice. Records are read first in the spreadsheet ("rich")
  field naming. If any record raises, a second loop reads every record in the
  interface ("compact") naming and writes into the same dictionary.
- **Label resolution and dispatch** (`change_parameter`, `error_func`). This is a
  fixed, ordered table of twenty decorated labels. A raw label containing
  `electricity_price` resolves to `Electricity price (delta_ut)`. Otherwise it
  resolves to the first table label that is a substring of it. The routine found
  under the resolved label is invoked on the model instance. An unknown label
  raises `ValueError` through `error_func`.
- **Mutability preparation** (`prepare_mutable_parameters` and its inner
  `set_mutable`). This sets the `_mutable` flag of model coefficients, record by
  record:
  - two labels flag a coordinated group;
  - the exact alias flags `delta_ut`;
  - every other label flags the coefficient named by its bracketed tag.
- **Bracket extraction** (`extract_string_between_brackets`). This is the regular
  expression `\((.*?)\)` searched in a label: the text between the leftmost
  matching `(` and the first `)` after it.

Modules:

- `Wrappers`: `Option` and `Result`.
- `Text`: Python `in` on strings, `str(int)` and `int(str)`.
- `Values`: record values and field lookup, with `int()` and slicing.
- `Samples`: numpy `linspace` over exact reals.
- `Sweep`: the two loops of `calculate_sensitive_parameters`.
- `Brackets`: the regex search.
- `Instance`: the model instance, a class holding a coefficient map and the
  invocations made on it.
- `Dispatch`: the table and `change_parameter`.
- `Mutability`: `prepare_mutable_parameters`.

The three looping functions of the source are Dafny methods with `while` loops:
- `CalculateSensitiveParameters` renders the two loops of `calculate_sensitive_parameters`.
- `ChangeParameter` renders the first-match loop of `change_parameter`.
- `PrepareMutableParameters` renders the record loop of `prepare_mutable_parameters`.

Each is proved equal to a specification function (`Sweep`, `Dispatch`,
`Prepare`), and the source's promises are proved as lemmas about those
functions.

Behaviour of the code worth knowing:

- A step count of 0 gives an empty sample list and no error (`ZeroStepsGiveNoSamples`).
- A lower bound above the upper bound is not rejected. The samples then decrease.
- The compact naming is chosen by catching any exception of the rich loop, not
  by detecting the naming up front. A record that fits neither naming surfaces
  the compact loop's error.
- A missing coefficient is Python's `AttributeError`. Flags set for earlier
  records, and for earlier names of the same group, stay set.
- The grouped heating-demand label `Heating demand (tau_h)` differs from the
  table's `Heating demand 1 (tau_h)` and `Heating demand 2 (tau_h)`. Those two
  take the generic bracket branch (`NumberedHeatingDemandFlagsOne`).
- `change_parameter` matches the alias as a substring. `prepare_mutable_parameters`
  matches it only as the whole label (`AliasedRun` versus `EmbeddedAliasRaises`).

## Model

| member | source | states |
|---|---|---|
| Values.Get | src/outdoor/outdoor_core/optimizers/customs/change_params.py:43-49 | `record[name]`: succeeds exactly when a field has that name, returns that field's value, and otherwise raises `KeyError(name)` |
| Values.GetFirst | src/outdoor/outdoor_core/optimizers/customs/change_params.py:43-49 | `record[name]` is the value of the first field carrying that name |
| Values.Metadata | src/outdoor/outdoor_core/optimizers/customs/change_params.py:50 | `iloc[1:5]`: the fields at positions 1 to 4 (fewer for a short record), in order |
| Values.Truncate | src/outdoor/outdoor_core/optimizers/customs/change_params.py:64 | `int()` of a float rounds toward zero: the result lies within one of the argument, on the side of zero |
| Values.PyIntOfText | src/outdoor/outdoor_core/optimizers/customs/change_params.py:64 | `int(str(n)) == n`: a step count given as text converts back to the same number |
| Values.TextPrefix | src/outdoor/outdoor_core/optimizers/customs/change_params.py:59 | `unitUid[0:3]` succeeds exactly on a string and yields its first three characters (all of a shorter one) |
| Text.Contains | src/outdoor/outdoor_core/optimizers/customs/change_params.py:131-135 | Python's `p in s` on strings: some position of `s` starts an occurrence of `p`; `Infix` and `ContainsSelf` show that a string contains every infix of itself, including itself |
| Text.NatToString | src/outdoor/outdoor_core/optimizers/customs/change_params.py:60 | `str(n)` for a natural; `NatToStringRoundTrip` and `NatToStringInjective` prove that it is a digit string denoting `n`, different for different `n` |
| Text.IntToString | src/outdoor/outdoor_core/optimizers/customs/change_params.py:46 | `str(i)` for any integer; `IntToStringRoundTrip` proves that `ParseInt` gives `i` back |
| Text.ParseInt | src/outdoor/outdoor_core/optimizers/customs/change_params.py:64 | `int(t)` on text: an optional sign and ASCII digits; `IntToStringRoundTrip` proves that it inverts `str` |
| Values.PyInt | src/outdoor/outdoor_core/optimizers/customs/change_params.py:64 | `int(v)`: an int is kept, a float truncated toward zero (`Truncate`), text parsed (`PyIntOfText`), None raises `TypeError` |
| Text.NatToStringRoundTrip | src/outdoor/outdoor_core/optimizers/customs/change_params.py:60 | `str(n)` of a natural is a non-empty run of decimal digits whose value is `n` |
| Text.IntToStringRoundTrip | src/outdoor/outdoor_core/optimizers/customs/change_params.py:46 | parsing `str(i)` gives back `i`, for negative numbers too |
| Text.NatToStringInjective | src/outdoor/outdoor_core/optimizers/customs/change_params.py:60 | different indices have different decimal strings |
| Text.SuffixAfterLastUnderscore | src/outdoor/outdoor_core/optimizers/customs/change_params.py:60 | two keys `a + "_" + d1` and `b + "_" + d2` that are equal, with no `_` in `d1` or `d2`, have `d1 == d2` |
| Samples.LinearSamples | src/outdoor/outdoor_core/optimizers/customs/change_params.py:51 | `linspace(lo, hi, num)` has exactly `num` elements |
| Samples.Endpoints | src/outdoor/outdoor_core/optimizers/customs/change_params.py:51 | with at least one sample the first is the lower bound; with at least two, the last is the upper bound |
| Samples.UniformSpacing | src/outdoor/outdoor_core/optimizers/customs/change_params.py:51 | neighbouring samples are exactly `(hi - lo) / (num - 1)` apart |
| Samples.NonDecreasing | src/outdoor/outdoor_core/optimizers/customs/change_params.py:51 | for `lo <= hi` the samples never decrease |
| Samples.YieldFactorSamples | src/outdoor/outdoor_core/optimizers/customs/change_params.py:51 | `linspace(0.5, 0.9, 3)` is `[0.5, 0.7, 0.9]` |
| Samples.AsReal | src/outdoor/outdoor_core/optimizers/customs/change_params.py:51 | a bound converts exactly when it is a number, to that number |
| Samples.Linspace | src/outdoor/outdoor_core/optimizers/customs/change_params.py:51 | succeeds exactly for an int, non-negative count and numeric bounds; a non-int count raises `TypeError`, a negative one `ValueError`; on success it is `LinearSamples` of the converted bounds, has the requested length and both endpoints, and is non-decreasing for ordered bounds |
| Sweep.RichKey | src/outdoor/outdoor_core/optimizers/customs/change_params.py:43-46 | the rich key: label, `"_"` and `str(unit)` for an int unit (raising `TypeError` for a non-string label), the bare label otherwise; stated in `RichEntryMeaning` |
| Sweep.RichRecordKey | src/outdoor/outdoor_core/optimizers/customs/change_params.py:43-46 | the rich `paramName` of a record, computed before any bound is read; stated in `RichEntryMeaning` |
| Sweep.RichRecordEntry | src/outdoor/outdoor_core/optimizers/customs/change_params.py:47-51 | the rich dictionary value: `linspace` over the bounds and step count, with the `iloc[1:5]` slice; stated in `RichEntryMeaning` and `RichEntrySamples` |
| Sweep.RichEntry | src/outdoor/outdoor_core/optimizers/customs/change_params.py:43-51 | one rich iteration; `RichEntryMeaning` and `RichEntrySamples` characterise when it succeeds and what key and samples it yields |
| Sweep.CompactKey | src/outdoor/outdoor_core/optimizers/customs/change_params.py:60 | label, `"_"` and the decimal index; `CompactKeyIndex` proves that the index is recoverable from the key |
| Sweep.CompactRecordKey | src/outdoor/outdoor_core/optimizers/customs/change_params.py:58-60 | the compact key of a record, after the `unitUid[0:3]` check; stated in `CompactEntrySucceeds` and `CompactEntryKey` |
| Sweep.CompactRecordEntry | src/outdoor/outdoor_core/optimizers/customs/change_params.py:62-80 | the compact samples and renamed metadata; stated in `CompactEntrySucceeds` and `CompactEntryContents` |
| Sweep.CompactEntry | src/outdoor/outdoor_core/optimizers/customs/change_params.py:58-80 | one compact iteration; `CompactEntrySucceeds`, `CompactEntryContents` and `CompactEntryKey` characterise it |
| Sweep.CanonicalName | src/outdoor/outdoor_core/optimizers/customs/change_params.py:72-77 | the rename of one field name; `CanonicalNameRenamesFour` states exactly which names change and to what |
| Sweep.RenameFields | src/outdoor/outdoor_core/optimizers/customs/change_params.py:72-77 | `metadata.rename(...)`; `RenameKeepsValues` proves that positions and values are kept |
| Sweep.Fill | src/outdoor/outdoor_core/optimizers/customs/change_params.py:42-57 | one loop writing into `value_dic`: keys are never removed, and it raises exactly when some record raises; `FillStopsAtFirstRaise` and `FillLastWins` give the rest |
| Sweep.Sweep | src/outdoor/outdoor_core/optimizers/customs/change_params.py:36-82 | the whole function as a value; `SweepWithoutFallback` and `SweepFallback` characterise it |
| Sweep.CalculateSensitiveParameters | src/outdoor/outdoor_core/optimizers/customs/change_params.py:36-82 | the two in-place loops, with the fallback from the first to the second, compute exactly `Sweep(data)` |
| Sweep.RichEntryMeaning | src/outdoor/outdoor_core/optimizers/customs/change_params.py:43-51 | a rich record succeeds exactly when its five fields are present, an int unit comes with a string label, the bounds are numbers and the step count is a non-negative int; its key is `label + "_" + str(unit)` for an int unit and the bare label otherwise; its samples are `linspace(lower, upper, steps)`, as many as steps, from the lower to the upper bound; its metadata is the `iloc[1:5]` slice |
| Sweep.RichEntrySucceeds | src/outdoor/outdoor_core/optimizers/customs/change_params.py:43-51 | the success condition of a rich record, as in `RichEntryMeaning` |
| Sweep.RichEntryFields | src/outdoor/outdoor_core/optimizers/customs/change_params.py:43-51 | the key, samples and metadata of a successful rich record, as in `RichEntryMeaning` |
| Sweep.RichEntrySamples | src/outdoor/outdoor_core/optimizers/customs/change_params.py:47-51 | a rich record's samples are `linspace`'s values for its bounds and step count, and never decrease when the lower bound is at most the upper one |
| Sweep.ZeroStepsGiveNoSamples | src/outdoor/outdoor_core/optimizers/customs/change_params.py:49-51 | a step count of 0 is accepted and yields no samples |
| Sweep.CompactEntrySucceeds | src/outdoor/outdoor_core/optimizers/customs/change_params.py:58-64 | a compact record succeeds exactly when its fields are present, label and unit are strings, `int(steps)` succeeds and is non-negative, and the bounds are numbers |
| Sweep.CompactEntryContents | src/outdoor/outdoor_core/optimizers/customs/change_params.py:62-80 | a compact entry holds `linspace(lower, upper, int(steps))` and the renamed `iloc[1:5]` slice |
| Sweep.CompactEntryKey | src/outdoor/outdoor_core/optimizers/customs/change_params.py:58-60 | a compact entry is keyed by its string label, `"_"` and the decimal index of the record |
| Sweep.CompactKeyIndex | src/outdoor/outdoor_core/optimizers/customs/change_params.py:60 | two compact records with the same key have the same index |
| Sweep.CompactKeysDistinct | src/outdoor/outdoor_core/optimizers/customs/change_params.py:57-80 | in the compact loop no two records share a key, so each gets its own entry |
| Sweep.CanonicalNameRenamesFour | src/outdoor/outdoor_core/optimizers/customs/change_params.py:72-77 | the rename changes exactly `unitUid`, `targetUnitProcess`, `componentName` and `reactionUid`, to `Unit_Number`, `Target_Unit`, `Component` and `Reaction_Number` |
| Sweep.RenameKeepsValues | src/outdoor/outdoor_core/optimizers/customs/change_params.py:72-77 | the rename keeps the metadata's length, order and values; only field names change |
| Sweep.FillStopsAtFirstRaise | src/outdoor/outdoor_core/optimizers/customs/change_params.py:42-57 | a loop raises exactly at its first failing record, with that record's error, and with the dictionary that the records before it built |
| Sweep.FillLastWins | src/outdoor/outdoor_core/optimizers/customs/change_params.py:51 | in a loop where nothing raises, the keys are the old keys plus the written ones; a key holds the entry of its last write; untouched keys keep their values |
| Sweep.SweepWithoutFallback | src/outdoor/outdoor_core/optimizers/customs/change_params.py:40-52 | if no rich record raises, the result is the rich dictionary and the compact loop never runs |
| Sweep.SweepFallback | src/outdoor/outdoor_core/optimizers/customs/change_params.py:40-82 | if a rich record raises, the compact loop runs over every record into the partial rich dictionary; the result is an error exactly when a compact record raises; otherwise the rich entries stay unless overwritten and every record has its own compact entry |
| Sweep.YieldFactorRowKey | src/outdoor/outdoor_core/optimizers/customs/change_params.py:45-46 | label "Yield factor (xi)" on unit 7 gives the key "Yield factor (xi)_7" |
| Sweep.YieldFactorRowEntry | src/outdoor/outdoor_core/optimizers/customs/change_params.py:43-51 | the row ("Yield factor (xi)", 7, 0.5, 0.9, 3) expands to that key with samples `[0.5, 0.7, 0.9]` |
| Sweep.YieldFactorExample | src/outdoor/outdoor_core/optimizers/customs/change_params.py:36-52 | the sweep of that single row is the one-entry dictionary above |
| Brackets.CloseFrom | src/outdoor/outdoor_core/optimizers/customs/change_params.py:180-182 | the lazy group's end: a position at or after the start holding `)`; `CloseFromMeaning` proves it is the first `)` with no newline before it |
| Brackets.SearchFrom | src/outdoor/outdoor_core/optimizers/customs/change_params.py:180-182 | the scan over start positions: a `(` before a `)`, both within the label; `SearchFromMeaning` proves the scan takes the first start that matches |
| Brackets.ExtractBetweenBrackets | src/outdoor/outdoor_core/optimizers/customs/change_params.py:178-184 | `None` exactly when no start position matches; otherwise a tag with no `)` and no newline in it |
| Brackets.MatchSpan | src/outdoor/outdoor_core/optimizers/customs/change_params.py:182 | `re.search(r'\((.*?)\)', s)`: the positions of the match's brackets; `MatchSpanLeftmost` characterises it as the leftmost successful attempt |
| Brackets.MatchSpanLeftmost | src/outdoor/outdoor_core/optimizers/customs/change_params.py:180-182 | `re.search` finds no match exactly when no start position matches, and otherwise the leftmost matching `(` with the first `)` after it |
| Brackets.ExtractMeaning | src/outdoor/outdoor_core/optimizers/customs/change_params.py:178-184 | the extraction is `None` exactly when no `(` is followed by a `)` (without a newline between); otherwise it is the text between the leftmost such `(` and the first `)` after it, and holds no `)` |
| Brackets.NewlineFreeAttempt | src/outdoor/outdoor_core/optimizers/customs/change_params.py:180-182 | in a newline-free label, the pattern matches at a position exactly when it holds `(` and some `)` follows |
| Brackets.TagOfLabel | src/outdoor/outdoor_core/optimizers/customs/change_params.py:178-184 | a label `prefix (tag) suffix` with no `(` in the prefix yields `tag` |
| Brackets.NoOpenBracket | src/outdoor/outdoor_core/optimizers/customs/change_params.py:184 | a label without `(` yields `None` |
| Brackets.YieldFactorTag | src/outdoor/outdoor_core/optimizers/customs/change_params.py:178-184 | "Yield factor (xi)" yields "xi" |
| Instance.ModelInstance.SetMutable | src/outdoor/outdoor_core/optimizers/customs/change_params.py:164-166 | `getattr(instance, name)._mutable = True`: sets that one flag, or raises `AttributeError(name)` and changes nothing |
| Instance.ModelInstance.Apply | src/outdoor/outdoor_core/optimizers/customs/change_params.py:139 | an update routine's invocation is recorded with its five arguments; coefficients are not touched (the routines' effects are not modelled) |
| Dispatch.TableGet | src/outdoor/outdoor_core/optimizers/customs/change_params.py:139 | `function_dictionary.get`: a routine exactly when some table entry has the label, and then that entry's |
| Dispatch.ResolveLabel | src/outdoor/outdoor_core/optimizers/customs/change_params.py:131-137 | the alias resolves to "Electricity price (delta_ut)"; otherwise the resolved label occurs in the raw label; if it differs from the raw label it is a table label |
| Dispatch.Dispatch | src/outdoor/outdoor_core/optimizers/customs/change_params.py:131-139 | a success is always a table entry (routine with its label), a failure always a `ValueError` |
| Dispatch.LookupFrom | src/outdoor/outdoor_core/optimizers/customs/change_params.py:139 | `dict.get`: finds a routine exactly when an entry has the label, and then the routine is that of an entry with the label |
| Dispatch.FirstMatchFrom | src/outdoor/outdoor_core/optimizers/customs/change_params.py:134-137 | the loop's match is a table label contained in the raw label with no earlier one contained; no match means no table label is contained |
| Dispatch.ErrorFunc | src/outdoor/outdoor_core/optimizers/customs/change_params.py:85-86 | `error_func` raises `ValueError` with the label it is given inside the message |
| Dispatch.KeysDistinct | src/outdoor/outdoor_core/optimizers/customs/change_params.py:93-126 | the twenty table labels are pairwise different |
| Dispatch.TableGetKey | src/outdoor/outdoor_core/optimizers/customs/change_params.py:139 | looking up a table label yields the routine stored under it |
| Dispatch.ChangeParameter | src/outdoor/outdoor_core/optimizers/customs/change_params.py:89-141 | resolves the label in the first-match loop; on success invokes exactly one routine, the resolved one, with `(value, metadata, superstructure, canonical label)` and returns the same instance; on failure raises the `error_func` error and invokes nothing; coefficients are unchanged (the routines' effects are not modelled) |
| Dispatch.AliasShortCircuit | src/outdoor/outdoor_core/optimizers/customs/change_params.py:131-132 | any label containing `electricity_price` dispatches to the electricity-price routine under "Electricity price (delta_ut)", whatever table labels it also contains |
| Dispatch.FirstMatchResolution | src/outdoor/outdoor_core/optimizers/customs/change_params.py:133-139 | without the alias, a label containing table label `i` dispatches to the entry of the first table label it contains, at index `i` or earlier |
| Dispatch.DispatchFirstMatch | src/outdoor/outdoor_core/optimizers/customs/change_params.py:134-139 | without the alias, dispatch goes to the entry at the loop's first match |
| Dispatch.UnknownLabel | src/outdoor/outdoor_core/optimizers/customs/change_params.py:85-139 | dispatch fails exactly when the label contains neither the alias nor any table label, and then raises the `error_func` error naming the raw label |
| Dispatch.ElectricityOverChilling | src/outdoor/outdoor_core/optimizers/customs/change_params.py:100-137 | a label containing both the electricity and the chilling price labels (and not the alias) never dispatches under the chilling label; if no earlier table label occurs in it, it dispatches under the electricity label |
| Dispatch.ExactLabelResolves | src/outdoor/outdoor_core/optimizers/customs/change_params.py:131-139 | a table label containing neither the alias nor an earlier table label dispatches to its own entry |
| Dispatch.YieldFactorResolves | src/outdoor/outdoor_core/optimizers/customs/change_params.py:98-139 | "Yield factor (xi)" dispatches to the yield-factor routine under its own label |
| Dispatch.AliasedRun | src/outdoor/outdoor_core/optimizers/customs/change_params.py:131-132 | "sens_electricity_price_3" dispatches to the electricity-price routine |
| Dispatch.UnknownShortLabel | src/outdoor/outdoor_core/optimizers/customs/change_params.py:85-139 | "bogus_param" raises the `ValueError` naming "bogus_param" |
| Mutability.GroupTargets | src/outdoor/outdoor_core/optimizers/customs/change_params.py:145-153 | `set_mutable` flags nothing for a label other than the two grouped labels |
| Mutability.FlagNames | src/outdoor/outdoor_core/optimizers/customs/change_params.py:147-153 | flagging names one after the other keeps the coefficient names and values and never clears a flag; it succeeds exactly when all names exist, having then set all of them and no other; otherwise it raises `AttributeError` for the first missing name in order, with every name before it flagged and every other coefficient, the names after the stop included, keeping its old flag |
| Mutability.Targets | src/outdoor/outdoor_core/optimizers/customs/change_params.py:156-170 | an empty record raises `IndexError`, a non-string label `TypeError`; a successful record names one to three coefficients |
| Mutability.Prepare | src/outdoor/outdoor_core/optimizers/customs/change_params.py:155-173 | the loop over records keeps the set of coefficient names |
| Mutability.SetMutableGroup | src/outdoor/outdoor_core/optimizers/customs/change_params.py:145-153 | `set_mutable` flags the group's names one after the other, stopping at the first missing one, exactly as `FlagNames` |
| Mutability.FlagRecord | src/outdoor/outdoor_core/optimizers/customs/change_params.py:156-173 | one loop iteration raises the record's own error with no change, or flags the record's names as `FlagNames` does |
| Mutability.PrepareMutableParameters | src/outdoor/outdoor_core/optimizers/customs/change_params.py:144-175 | the loop leaves exactly the flags `Prepare` computes and returns the same instance, or raises `Prepare`'s error; no routine is invoked |
| Mutability.PrepareFrame | src/outdoor/outdoor_core/optimizers/customs/change_params.py:155-173 | whether the loop completes or raises, coefficient names and values are unchanged, flags are only ever set, and no coefficient outside the records' names is flagged |
| Mutability.PrepareSucceeds | src/outdoor/outdoor_core/optimizers/customs/change_params.py:155-173 | the loop completes exactly when every record names its coefficients and all of them exist; it then leaves flagged exactly the previously flagged coefficients and those named |
| Mutability.PrepareAppend | src/outdoor/outdoor_core/optimizers/customs/change_params.py:155-173 | records `a + b` are handled as `a`, then `b` from where `a` left off; if `a` raises, `b` is never looked at |
| Mutability.EarlierFlagsSurvive | src/outdoor/outdoor_core/optimizers/customs/change_params.py:155-173 | the flags of records handled completely stay set, whatever later records do, including raising |
| Mutability.CapitalCostsFlagsTwo | src/outdoor/outdoor_core/optimizers/customs/change_params.py:147-160 | "Reference Capital costs (C_Ref)" flags exactly `lin_CAPEX_x` and `lin_CAPEX_y` |
| Mutability.HeatingDemandStopsAtTauC | src/outdoor/outdoor_core/optimizers/customs/change_params.py:150-160 | with `tau_c` missing, "Heating demand (tau_h)" flags `tau_h`, raises `AttributeError` for `tau_c` and leaves `tau`'s flag unchanged |
| Mutability.TaggedLabelTargets | src/outdoor/outdoor_core/optimizers/customs/change_params.py:168-171 | a label `prefix(tag)suffix` that is none of the grouped or aliased labels, with no `(` in the prefix and no `)` or newline in the tag, names just `tag` |
| Mutability.HeatingDemandFlagsThree | src/outdoor/outdoor_core/optimizers/customs/change_params.py:150-160 | "Heating demand (tau_h)" flags exactly `tau_h`, `tau_c` and `tau` |
| Mutability.AliasFlagsDeltaUt | src/outdoor/outdoor_core/optimizers/customs/change_params.py:162-166 | a label equal to `electricity_price` flags exactly `delta_ut` |
| Mutability.OtherLabelFlagsTag | src/outdoor/outdoor_core/optimizers/customs/change_params.py:168-171 | any other string label names just its bracket tag, the text between the leftmost matching `(` and the first `)` after it; a label with no such pair raises `TypeError` |
| Mutability.NumberedHeatingDemandFlagsOne | src/outdoor/outdoor_core/optimizers/customs/change_params.py:168-173 | "Heating demand 1 (tau_h)" flags exactly `tau_h` |
| Mutability.MissingCoefficient | src/outdoor/outdoor_core/optimizers/customs/change_params.py:151-173 | a record naming a coefficient the model lacks raises `AttributeError` for its first missing name in order, with the names before it flagged, every other flag as it was, and no later record is handled |
| Mutability.EmbeddedAliasRaises | src/outdoor/outdoor_core/optimizers/customs/change_params.py:162-171 | a label that only contains `electricity_price` (here "sens_electricity_price_3") takes the bracket branch and raises `TypeError` |

## Left out

- The bodies of the twenty update routines. They come from `parameter_changer_functions`, which is not part of this model. An invocation is recorded and nothing else changes. So the routines' idempotence, and their touching only their own coefficient, are neither modelled nor proved.
- The timer: `time_printer` and the `printTimer` argument of `change_parameter`. These only log.
- Pyomo reflection. `getattr` on the model is a lookup in a map from coefficient name to coefficient. An attribute that exists but is not a coefficient is not modelled.
- Floating point. `linspace` is computed over exact reals, so rounding is not modelled. So are NaN and infinities, together with what `int()` raises on them (`ValueError` for NaN, `OverflowError` for an infinity).
- Python booleans. `isinstance(True, int)` holds in Python, but the value type has no booleans. numpy integer types are not modelled either.
- Pandas. A record is a sequence of named fields, and a lookup finds the first field with that name. Duplicate labels returning a Series are not modelled. `iloc[1:5]` is positions 1 to 4.
- `int()` of a string accepts only an optional sign followed by ASCII digits. Surrounding whitespace, `_` separators and non-ASCII digits are not modelled.
- `change_parameter` and the bracket extraction take string labels. The `TypeError` for a non-string label at `in` is not modelled, and neither are bytes labels of `re.search`.
- Exception kinds that carry no data here: `TypeError` and `IndexError` carry no message, `KeyError` and `AttributeError` only the name. The bare `except` in `calculate_sensitive_parameters` swallows every `Exception`. Interrupts are not modelled.
- The `ValueError` message of `int()` on text quotes the text as written, between single quotes. Python uses the text's `repr` cut at 200 characters, so a text with a single quote, an escape such as a newline, or more than 200 characters gets a different message.
- Dispatch.ExactLabelResolves: the hypothesis that no earlier table label and not the alias occur in the label holds for all twenty table labels. It is discharged in the proof only for "Yield factor (xi)" (`YieldFactorResolves`), because proving literal non-containment for all 190 label pairs is too costly for the verifier.
- The order of `value_dic`. The dictionary is a map, so its insertion order is not modelled. That is the order in which the sweep driver receives the entries, and a rewritten key keeps its first position.
- Python's numeric key identity in `value_dic`. Python treats `1` and `1.0` as one key, but the model keeps `Int(1)` and `Float(1.0)` apart. Two rich records labelled `1` and `1.0`, with a unit number that is not an int, give one entry in Python and two in the model.
- The user-interface files (`GeneralSystemDataTab.py`, `MethodLCADialog.py`, `LcaButton.py`). They are Qt form and dialog plumbing with no engine logic.
