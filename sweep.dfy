/** `calculate_sensitive_parameters`: expands parameter-range records into a
    dictionary from a synthesized key to (samples, metadata). A "rich" pass over
    the spreadsheet field names runs first; if it raises anything, a "compact"
    pass over the interface field names runs into the same dictionary. */
module Sweep {
  import opened Wrappers
  import opened Text
  import opened Values
  import opened Samples

  /** A dictionary value: the sample list and the record's metadata slice. */
  datatype Entry = Entry(samples: seq<real>, metadata: Record)

  /** One `value_dic[paramName] = ...` assignment. */
  datatype KeyedEntry = KeyedEntry(key: Value, entry: Entry)

  type ValueDic = map<Value, Entry>

  /** The rich pass's `paramName`: the label suffixed with `"_" + str(unit)` when
      `Unit_Number` is an int (a non-string label then raises), the bare label otherwise. */
  function RichKey(paramType: Value, unitNumber: Value): Result<Value, Error> {
    if unitNumber.Int? then
      if paramType.Str? then Ok(Str(paramType.s + "_" + IntToString(unitNumber.i)))
      else Err(TypeError)
    else Ok(paramType)
  }

  /** The rich loop's `paramName` for a record. */
  function RichRecordKey(rec: Record): Result<Value, Error> {
    var paramType :- Get(rec, "Parameter_Type");
    var unitNumber :- Get(rec, "Unit_Number");
    RichKey(paramType, unitNumber)
  }

  /** The rich loop's dictionary value for a record: `linspace` and the metadata slice. */
  function RichRecordEntry(rec: Record): Result<Entry, Error> {
    var start :- Get(rec, "Lower_Bound");
    var stop :- Get(rec, "Upper_Bound");
    var steps :- Get(rec, "Number_of_steps");
    var samples :- Linspace(start, stop, steps);
    Ok(Entry(samples, Metadata(rec)))
  }

  /** The body of the rich loop for one record. */
  function RichEntry(rec: Record): Result<KeyedEntry, Error> {
    var key :- RichRecordKey(rec);
    var entry :- RichRecordEntry(rec);
    Ok(KeyedEntry(key, entry))
  }

  /** The compact pass's key for the record at index `n`. */
  function CompactKey(paramType: string, n: nat): string {
    paramType + "_" + NatToString(n)
  }

  /** The rename applied to the compact metadata's field names. */
  function CanonicalName(name: string): string {
    if name == "unitUid" then "Unit_Number"
    else if name == "targetUnitProcess" then "Target_Unit"
    else if name == "componentName" then "Component"
    else if name == "reactionUid" then "Reaction_Number"
    else name
  }

  /** `metadata.rename({...})`. */
  function RenameFields(metadata: Record): Record {
    seq(|metadata|, k requires 0 <= k < |metadata| => Field(CanonicalName(metadata[k].name), metadata[k].value))
  }

  /** The compact loop's `paramName` for the record at index `n`, after its
      `unitUid[0:3]` (whose value is unused) has been taken. */
  function CompactRecordKey(rec: Record, n: nat): Result<Value, Error> {
    var paramType :- Get(rec, "parameterType");
    var unitUid :- Get(rec, "unitUid");
    var unitPrefix :- TextPrefix(unitUid, 3);
    if paramType.Str? then Ok(Str(CompactKey(paramType.s, n))) else Err(TypeError)
  }

  /** The compact loop's dictionary value for a record: `linspace` over `int(steps)`
      and the renamed metadata slice. */
  function CompactRecordEntry(rec: Record): Result<Entry, Error> {
    var start :- Get(rec, "lowerBound");
    var stop :- Get(rec, "upperBound");
    var stepsField :- Get(rec, "steps");
    var steps :- PyInt(stepsField);
    var samples :- Linspace(start, stop, Int(steps));
    Ok(Entry(samples, RenameFields(Metadata(rec))))
  }

  /** The body of the compact loop for the record at index `n`. */
  function CompactEntry(rec: Record, n: nat): Result<KeyedEntry, Error> {
    var key :- CompactRecordKey(rec, n);
    var entry :- CompactRecordEntry(rec);
    Ok(KeyedEntry(key, entry))
  }

  /** Where one of the two loops leaves `value_dic`: it ran to the end, or a
      record raised `error` after the earlier assignments had been made. */
  datatype FillOutcome = Filled(dic: ValueDic) | Raised(dic: ValueDic, error: Error)

  /** One of the loops of `calculate_sensitive_parameters`: the records'
      assignments `writes`, made into `acc` in order; the first record that
      raises ends the loop. */
  function Fill(acc: ValueDic, writes: seq<Result<KeyedEntry, Error>>): (f: FillOutcome)
    ensures acc.Keys <= f.dic.Keys
    ensures f.Raised? <==> exists i | 0 <= i < |writes| :: writes[i].Err?
    decreases |writes|
  {
    if writes == [] then Filled(acc)
    else
      match writes[0]
      case Err(e) => Raised(acc, e)
      case Ok(w) =>
        assert forall i | 0 < i < |writes| :: writes[i] == writes[1..][i - 1];
        Fill(acc[w.key := w.entry], writes[1..])
  }

  /** What each record contributes to the rich loop. */
  function RichWrites(data: seq<Record>): (ws: seq<Result<KeyedEntry, Error>>)
    ensures |ws| == |data|
  {
    seq(|data|, j requires 0 <= j < |data| => RichEntry(data[j]))
  }

  /** What each record contributes to the compact loop; the record's index goes into its key. */
  function CompactWrites(data: seq<Record>): (ws: seq<Result<KeyedEntry, Error>>)
    ensures |ws| == |data|
  {
    seq(|data|, j requires 0 <= j < |data| => CompactEntry(data[j], j))
  }

  /** The whole of `calculate_sensitive_parameters`: the rich loop; if a record
      raises in it, the compact loop over all records into the same dictionary,
      whose errors propagate. */
  function Sweep(data: seq<Record>): Result<ValueDic, Error> {
    match Fill(map[], RichWrites(data))
    case Filled(d) => Ok(d)
    case Raised(partial, _) => Propagated(Fill(partial, CompactWrites(data)))
  }

  /** A loop whose exception is not caught: its dictionary, or its error. */
  function Propagated(f: FillOutcome): Result<ValueDic, Error> {
    if f.Filled? then Ok(f.dic) else Err(f.error)
  }

  lemma FillStep(acc: ValueDic, writes: seq<Result<KeyedEntry, Error>>, i: nat)
    requires i < |writes|
    ensures Fill(acc, writes[i..]) ==
              if writes[i].Err? then Raised(acc, writes[i].error)
              else Fill(acc[writes[i].value.key := writes[i].value.entry], writes[i + 1..])
  {
    assert writes[i..][1..] == writes[i + 1..];
  }

  /** `calculate_sensitive_parameters(data_input)`, filling `value_dic` in place. */
  method CalculateSensitiveParameters(dataInput: seq<Record>) returns (r: Result<ValueDic, Error>)
    ensures r == Sweep(dataInput)
  {
    ghost var rich := RichWrites(dataInput);
    var valueDic: ValueDic := map[];
    var i := 0;
    while i < |dataInput|
      invariant 0 <= i <= |dataInput|
      invariant Fill(map[], rich) == Fill(valueDic, rich[i..])
    {
      var e := RichEntry(dataInput[i]);
      FillStep(valueDic, rich, i);
      if e.Err? {
        break;
      }
      valueDic := valueDic[e.value.key := e.value.entry];
      i := i + 1;
    }
    if i == |dataInput| {
      return Ok(valueDic);
    }
    // a record raised: the compact loop starts over, into the partial dictionary
    ghost var compact := CompactWrites(dataInput);
    ghost var partial := valueDic;
    var n := 0;
    while n < |dataInput|
      invariant 0 <= n <= |dataInput|
      invariant Fill(partial, compact) == Fill(valueDic, compact[n..])
    {
      var e := CompactEntry(dataInput[n], n);
      FillStep(valueDic, compact, n);
      if e.Err? {
        return Err(e.error);
      }
      valueDic := valueDic[e.value.key := e.value.entry];
      n := n + 1;
    }
    return Ok(valueDic);
  }

  // ----- one record -----

  /** What one rich record contributes: it succeeds exactly when its fields are
      present, the step count is a non-negative int, the bounds are numbers and a
      label that gets a unit suffix is a string; the key is the label, suffixed
      with `"_" + str(unit)` when `Unit_Number` is an int; the samples are
      `linspace`'s, as many as steps, running from the lower to the upper bound. */
  lemma RichEntryMeaning(rec: Record)
    ensures RichEntry(rec).Ok? <==>
              && Get(rec, "Parameter_Type").Ok? && Get(rec, "Unit_Number").Ok?
              && (Get(rec, "Unit_Number").value.Int? ==> Get(rec, "Parameter_Type").value.Str?)
              && Get(rec, "Lower_Bound").Ok? && AsReal(Get(rec, "Lower_Bound").value).Ok?
              && Get(rec, "Upper_Bound").Ok? && AsReal(Get(rec, "Upper_Bound").value).Ok?
              && Get(rec, "Number_of_steps").Ok? && Get(rec, "Number_of_steps").value.Int?
              && Get(rec, "Number_of_steps").value.i >= 0
    ensures RichEntry(rec).Ok? ==>
              var e := RichEntry(rec).value;
              var paramType := Get(rec, "Parameter_Type").value;
              var unit := Get(rec, "Unit_Number").value;
              var steps := Get(rec, "Number_of_steps").value.i;
              var lo := AsReal(Get(rec, "Lower_Bound").value).value;
              var hi := AsReal(Get(rec, "Upper_Bound").value).value;
              && e.key == (if unit.Int? then Str(paramType.s + "_" + IntToString(unit.i)) else paramType)
              && e.entry.samples == LinearSamples(lo, hi, steps)
              && |e.entry.samples| == steps
              && (steps >= 1 ==> e.entry.samples[0] == lo)
              && (steps >= 2 ==> e.entry.samples[steps - 1] == hi)
              && e.entry.metadata == Metadata(rec)
  {
    RichEntrySucceeds(rec);
    if RichEntry(rec).Ok? {
      RichEntryFields(rec);
    }
  }

  /** The success condition of `RichEntryMeaning`. */
  lemma RichEntrySucceeds(rec: Record)
    ensures RichEntry(rec).Ok? <==>
              && Get(rec, "Parameter_Type").Ok? && Get(rec, "Unit_Number").Ok?
              && (Get(rec, "Unit_Number").value.Int? ==> Get(rec, "Parameter_Type").value.Str?)
              && Get(rec, "Lower_Bound").Ok? && AsReal(Get(rec, "Lower_Bound").value).Ok?
              && Get(rec, "Upper_Bound").Ok? && AsReal(Get(rec, "Upper_Bound").value).Ok?
              && Get(rec, "Number_of_steps").Ok? && Get(rec, "Number_of_steps").value.Int?
              && Get(rec, "Number_of_steps").value.i >= 0
  {
  }

  /** The key and entry of `RichEntryMeaning`, for a record that succeeds. */
  lemma RichEntryFields(rec: Record)
    requires RichEntry(rec).Ok?
    ensures RichRecordKey(rec).Ok? && RichRecordEntry(rec).Ok?
    ensures
              var e := RichEntry(rec).value;
              var paramType := Get(rec, "Parameter_Type").value;
              var unit := Get(rec, "Unit_Number").value;
              var steps := Get(rec, "Number_of_steps").value.i;
              var lo := AsReal(Get(rec, "Lower_Bound").value).value;
              var hi := AsReal(Get(rec, "Upper_Bound").value).value;
              && e.key == (if unit.Int? then Str(paramType.s + "_" + IntToString(unit.i)) else paramType)
              && e.entry.samples == LinearSamples(lo, hi, steps)
              && |e.entry.samples| == steps
              && (steps >= 1 ==> e.entry.samples[0] == lo)
              && (steps >= 2 ==> e.entry.samples[steps - 1] == hi)
              && e.entry.metadata == Metadata(rec)
  {
  }

  /** The samples of a rich record are `linspace`'s values for its bounds and step
      count, and they never decrease when the lower bound is at most the upper one. */
  lemma RichEntrySamples(rec: Record, lower: Value, upper: Value, steps: Value)
    requires Get(rec, "Lower_Bound") == Ok(lower) && Get(rec, "Upper_Bound") == Ok(upper)
    requires Get(rec, "Number_of_steps") == Ok(steps) && RichEntry(rec).Ok?
    ensures AsReal(lower).Ok? && AsReal(upper).Ok? && steps.Int? && steps.i >= 0
    ensures var samples := RichEntry(rec).value.entry.samples;
            var lo, hi := AsReal(lower).value, AsReal(upper).value;
            && samples == LinearSamples(lo, hi, steps.i)
            && (lo <= hi ==> forall a, b :: 0 <= a <= b < |samples| ==> samples[a] <= samples[b])
  {
    var paramType := Get(rec, "Parameter_Type").value;
    var unit := Get(rec, "Unit_Number").value;
    assert RichKey(paramType, unit).Ok? && Linspace(lower, upper, steps).Ok?;
    assert RichEntry(rec).value.entry.samples == Linspace(lower, upper, steps).value;
  }

  /** A step count of zero is not rejected: the record yields an empty sample list. */
  lemma ZeroStepsGiveNoSamples(rec: Record)
    requires RichEntry(rec).Ok? && Get(rec, "Number_of_steps").value == Int(0)
    ensures RichEntry(rec).value.entry.samples == []
  {
  }

  /** A compact record succeeds exactly when its fields are present, the label and
      the unit are strings, the step count converts to a non-negative int and the
      bounds are numbers. */
  lemma CompactEntrySucceeds(rec: Record, n: nat)
    ensures CompactEntry(rec, n).Ok? <==>
              && Get(rec, "parameterType").Ok? && Get(rec, "parameterType").value.Str?
              && Get(rec, "unitUid").Ok? && Get(rec, "unitUid").value.Str?
              && Get(rec, "lowerBound").Ok? && AsReal(Get(rec, "lowerBound").value).Ok?
              && Get(rec, "upperBound").Ok? && AsReal(Get(rec, "upperBound").value).Ok?
              && Get(rec, "steps").Ok? && PyInt(Get(rec, "steps").value).Ok?
              && PyInt(Get(rec, "steps").value).value >= 0
  {
  }

  /** A compact entry holds `linspace` of its bounds over its step count, as
      converted by `int`, and the renamed metadata slice. */
  lemma CompactEntryContents(rec: Record, n: nat, lower: Value, upper: Value, steps: Value)
    requires Get(rec, "lowerBound") == Ok(lower) && Get(rec, "upperBound") == Ok(upper)
    requires Get(rec, "steps") == Ok(steps)
    requires CompactEntry(rec, n).Ok?
    ensures AsReal(lower).Ok? && AsReal(upper).Ok? && PyInt(steps).Ok? && PyInt(steps).value >= 0
    ensures CompactEntry(rec, n).value.entry ==
              Entry(LinearSamples(AsReal(lower).value, AsReal(upper).value, PyInt(steps).value),
                    RenameFields(Metadata(rec)))
  {
    assert CompactRecordEntry(rec).Ok? && CompactEntry(rec, n).value.entry == CompactRecordEntry(rec).value;
  }

  /** A compact entry is keyed by its string `parameterType` and its index. */
  lemma CompactEntryKey(rec: Record, n: nat)
    requires CompactEntry(rec, n).Ok?
    ensures Get(rec, "parameterType").Ok? && Get(rec, "parameterType").value.Str?
    ensures CompactEntry(rec, n).value.key == Str(CompactKey(Get(rec, "parameterType").value.s, n))
  {
  }

  /** The compact key ends in `"_" + str(n)`, so two records with the same key have the same index. */
  lemma CompactKeyIndex(rec1: Record, n1: nat, rec2: Record, n2: nat)
    requires CompactEntry(rec1, n1).Ok? && CompactEntry(rec2, n2).Ok?
    requires CompactEntry(rec1, n1).value.key == CompactEntry(rec2, n2).value.key
    ensures n1 == n2
  {
    CompactEntryKey(rec1, n1);
    CompactEntryKey(rec2, n2);
    var p1 := Get(rec1, "parameterType").value.s;
    var p2 := Get(rec2, "parameterType").value.s;
    assert CompactKey(p1, n1) == CompactKey(p2, n2);
    NatToStringRoundTrip(n1);
    NatToStringRoundTrip(n2);
    DigitsHaveNoUnderscore(NatToString(n1));
    DigitsHaveNoUnderscore(NatToString(n2));
    SuffixAfterLastUnderscore(p1, NatToString(n1), p2, NatToString(n2));
    NatToStringInjective(n1, n2);
  }

  /** The rename changes exactly the four interface names, each to its spreadsheet name. */
  lemma CanonicalNameRenamesFour(name: string)
    ensures CanonicalName(name) != name <==>
              name in {"unitUid", "targetUnitProcess", "componentName", "reactionUid"}
    ensures name == "unitUid" ==> CanonicalName(name) == "Unit_Number"
    ensures name == "targetUnitProcess" ==> CanonicalName(name) == "Target_Unit"
    ensures name == "componentName" ==> CanonicalName(name) == "Component"
    ensures name == "reactionUid" ==> CanonicalName(name) == "Reaction_Number"
  {
  }

  /** The rename keeps the metadata's values and their order; only names change. */
  lemma RenameKeepsValues(metadata: Record)
    ensures |RenameFields(metadata)| == |metadata|
    ensures forall k :: 0 <= k < |metadata| ==>
              RenameFields(metadata)[k].value == metadata[k].value &&
              RenameFields(metadata)[k].name == CanonicalName(metadata[k].name)
  {
  }

  // ----- one loop -----

  /** The index of the first record that raises, or `|writes|` if none does. */
  function FirstRaise(writes: seq<Result<KeyedEntry, Error>>): (f: nat)
    ensures f <= |writes|
    ensures forall j :: 0 <= j < f ==> writes[j].Ok?
    ensures f < |writes| ==> writes[f].Err?
    decreases |writes|
  {
    if writes == [] || writes[0].Err? then 0 else 1 + FirstRaise(writes[1..])
  }

  /** A loop raises exactly at the first record that raises, with that record's
      error, leaving what the records before it wrote. */
  lemma {:induction false} FillStopsAtFirstRaise(acc: ValueDic, writes: seq<Result<KeyedEntry, Error>>)
    ensures var f := FirstRaise(writes);
            Fill(acc, writes) ==
              if f == |writes| then Filled(Fill(acc, writes).dic)
              else Raised(Fill(acc, writes[..f]).dic, writes[f].error)
    ensures Fill(acc, writes[..FirstRaise(writes)]).Filled?
    decreases |writes|
  {
    if writes != [] && writes[0].Ok? {
      var w := writes[0].value;
      FillStopsAtFirstRaise(acc[w.key := w.entry], writes[1..]);
      var f := FirstRaise(writes);
      assert writes[..f][1..] == writes[1..][..f - 1];
    } else if writes != [] {
      assert writes[..0] == [];
    }
  }

  /** The keys a run of successful writes assigns. */
  ghost function WrittenKeys(writes: seq<Result<KeyedEntry, Error>>): set<Value> {
    set j | 0 <= j < |writes| && writes[j].Ok? :: writes[j].value.key
  }

  /** A loop in which no record raises: a key's value is the entry of the LAST
      record with that key, the keys are those of `acc` and of the records, and
      `acc`'s other entries survive. */
  lemma {:induction false} FillLastWins(acc: ValueDic, writes: seq<Result<KeyedEntry, Error>>)
    requires forall j :: 0 <= j < |writes| ==> writes[j].Ok?
    ensures Fill(acc, writes).Filled?
    ensures Fill(acc, writes).dic.Keys == acc.Keys + WrittenKeys(writes)
    ensures forall j | 0 <= j < |writes| &&
                (forall j' | j < j' < |writes| :: writes[j'].value.key != writes[j].value.key) ::
              Fill(acc, writes).dic[writes[j].value.key] == writes[j].value.entry
    ensures forall k | k in acc && k !in WrittenKeys(writes) :: Fill(acc, writes).dic[k] == acc[k]
    decreases |writes|
  {
    if writes != [] {
      var w := writes[0].value;
      var rest := writes[1..];
      FillLastWins(acc[w.key := w.entry], rest);
      assert WrittenKeys(writes) == {w.key} + WrittenKeys(rest) by {
        forall k | k in WrittenKeys(writes) ensures k in {w.key} + WrittenKeys(rest) {
          var j :| 0 <= j < |writes| && writes[j].Ok? && writes[j].value.key == k;
          if j > 0 {
            assert rest[j - 1] == writes[j];
          }
        }
        forall k | k in WrittenKeys(rest) ensures k in WrittenKeys(writes) {
          var j :| 0 <= j < |rest| && rest[j].Ok? && rest[j].value.key == k;
          assert rest[j] == writes[j + 1];
        }
      }
      forall j | 0 <= j < |writes| &&
          (forall j' | j < j' < |writes| :: writes[j'].value.key != writes[j].value.key)
        ensures Fill(acc, writes).dic[writes[j].value.key] == writes[j].value.entry
      {
        if j == 0 {
          assert w.key !in WrittenKeys(rest) by {
            forall i | 0 <= i < |rest| ensures rest[i].value.key != w.key {
              assert rest[i] == writes[i + 1];
            }
          }
        } else {
          assert rest[j - 1] == writes[j];
          forall i | j - 1 < i < |rest| ensures rest[i].value.key != rest[j - 1].value.key {
            assert rest[i] == writes[i + 1];
          }
        }
      }
    }
  }

  /** In the compact loop no two records share a key. */
  lemma CompactKeysDistinct(data: seq<Record>)
    ensures forall i, j | 0 <= i < j < |data| && CompactWrites(data)[i].Ok? && CompactWrites(data)[j].Ok? ::
              CompactWrites(data)[i].value.key != CompactWrites(data)[j].value.key
  {
    var ws := CompactWrites(data);
    forall i, j | 0 <= i < j < |data| && ws[i].Ok? && ws[j].Ok?
      ensures ws[i].value.key != ws[j].value.key
    {
      if ws[i].value.key == ws[j].value.key {
        CompactKeyIndex(data[i], i, data[j], j);
      }
    }
  }

  // ----- the two loops together -----

  /** If no record raises in the rich loop, its dictionary is the result and the compact loop never runs. */
  lemma SweepWithoutFallback(data: seq<Record>)
    requires forall j :: 0 <= j < |data| ==> RichEntry(data[j]).Ok?
    ensures Sweep(data) == Ok(Fill(map[], RichWrites(data)).dic)
  {
    var ws := RichWrites(data);
    assert forall j :: 0 <= j < |ws| ==> ws[j].Ok?;
    FillLastWins(map[], ws);
  }

  /** If a record raises in the rich loop, the result is the compact loop over
      every record, into what the rich loop wrote before the failure: those
      entries stay unless a compact key overwrites them, each record gets its
      own compact entry, and the result is an error exactly when a record
      raises in the compact loop. */
  lemma SweepFallback(data: seq<Record>)
    requires exists j :: 0 <= j < |data| && RichEntry(data[j]).Err?
    ensures
      var rich := RichWrites(data);
      var partial := Fill(map[], rich[..FirstRaise(rich)]).dic;
      var compact := CompactWrites(data);
      && Sweep(data) == Propagated(Fill(partial, compact))
      && (Sweep(data).Err? <==> exists j :: 0 <= j < |data| && compact[j].Err?)
      && (Sweep(data).Ok? ==>
            && Sweep(data).value.Keys == partial.Keys + WrittenKeys(compact)
            && (forall k | k in partial && k !in WrittenKeys(compact) :: Sweep(data).value[k] == partial[k])
            && (forall j | 0 <= j < |data| :: Sweep(data).value[compact[j].value.key] == compact[j].value.entry))
  {
    var rich := RichWrites(data);
    var compact := CompactWrites(data);
    var j :| 0 <= j < |data| && RichEntry(data[j]).Err?;
    assert rich[j].Err?;
    FillStopsAtFirstRaise(map[], rich);
    var partial := Fill(map[], rich[..FirstRaise(rich)]).dic;
    FillStopsAtFirstRaise(partial, compact);
    if forall j :: 0 <= j < |data| ==> compact[j].Ok? {
      FillLastWins(partial, compact);
      CompactKeysDistinct(data);
    }
  }

  /** A spreadsheet row: "Yield factor (xi)" on unit 7, from 0.5 to 0.9 in 3 steps. */
  const YieldFactorRow: Record :=
    [Field("Parameter_Type", Str("Yield factor (xi)")), Field("Unit_Number", Int(7)),
     Field("Target_Unit", Null), Field("Component", Null), Field("Reaction_Number", Null),
     Field("Lower_Bound", Float(0.5)), Field("Upper_Bound", Float(0.9)),
     Field("Number_of_steps", Int(3))]

  lemma YieldFactorRowFields()
    ensures Get(YieldFactorRow, "Parameter_Type") == Ok(Str("Yield factor (xi)"))
    ensures Get(YieldFactorRow, "Unit_Number") == Ok(Int(7))
    ensures Get(YieldFactorRow, "Lower_Bound") == Ok(Float(0.5))
    ensures Get(YieldFactorRow, "Upper_Bound") == Ok(Float(0.9))
    ensures Get(YieldFactorRow, "Number_of_steps") == Ok(Int(3))
  {
    GetFirst(YieldFactorRow, "Parameter_Type", 0);
    GetFirst(YieldFactorRow, "Unit_Number", 1);
    YieldFactorRowBound("Lower_Bound", 5);
    YieldFactorRowBound("Upper_Bound", 6);
    YieldFactorRowBound("Number_of_steps", 7);
  }

  lemma YieldFactorRowBound(name: string, i: nat)
    requires 5 <= i < 8 && name == YieldFactorRow[i].name
    ensures Get(YieldFactorRow, name) == Ok(YieldFactorRow[i].value)
  {
    var row := YieldFactorRow;
    // Each bound is the first field of its name.
    if i == 5 {
      assert row[0].name != "Lower_Bound";
      assert row[1].name != "Lower_Bound";
      assert row[2].name != "Lower_Bound";
      assert row[3].name != "Lower_Bound";
      assert row[4].name != "Lower_Bound";
    } else if i == 6 {
      assert row[0].name != "Upper_Bound";
      assert row[1].name != "Upper_Bound";
      assert row[2].name != "Upper_Bound";
      assert row[3].name != "Upper_Bound";
      assert row[4].name != "Upper_Bound";
      assert row[5].name != "Upper_Bound";
    } else {
      assert row[0].name != "Number_of_steps";
      assert row[1].name != "Number_of_steps";
      assert row[2].name != "Number_of_steps";
      assert row[3].name != "Number_of_steps";
      assert row[4].name != "Number_of_steps";
      assert row[5].name != "Number_of_steps";
      assert row[6].name != "Number_of_steps";
    }
    GetFirst(row, name, i);
  }

  lemma YieldFactorRowKey()
    ensures RichKey(Str("Yield factor (xi)"), Int(7)) == Ok(Str("Yield factor (xi)_7"))
  {
    assert IntToString(7) == "7";
    assert "Yield factor (xi)" + "_" + "7" == "Yield factor (xi)_7";
  }

  lemma YieldFactorRowEntry()
    ensures RichEntry(YieldFactorRow) ==
              Ok(KeyedEntry(Str("Yield factor (xi)_7"), Entry([0.5, 0.7, 0.9], YieldFactorRow[1..5])))
  {
    YieldFactorRowFields();
    YieldFactorRowKey();
    YieldFactorSamples();
    assert Linspace(Float(0.5), Float(0.9), Int(3)) == Ok([0.5, 0.7, 0.9]);
  }

  /** The row expands to the single key "Yield factor (xi)_7" with samples
      [0.5, 0.7, 0.9] and the row's fields 1 to 4 as metadata. */
  lemma YieldFactorExample()
    ensures Sweep([YieldFactorRow]) ==
              Ok(map[Str("Yield factor (xi)_7") := Entry([0.5, 0.7, 0.9], YieldFactorRow[1..5])])
  {
    YieldFactorRowEntry();
    var w := KeyedEntry(Str("Yield factor (xi)_7"), Entry([0.5, 0.7, 0.9], YieldFactorRow[1..5]));
    assert RichWrites([YieldFactorRow]) == [Ok(w)];
    assert Fill(map[], [Ok(w)]) == Fill(map[w.key := w.entry], []);
  }
}
