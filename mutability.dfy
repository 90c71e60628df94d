/** `prepare_mutable_parameters` and its inner `set_mutable`: for every record,
    the label in its first position selects the model coefficients whose
    `_mutable` flag is switched on — a coordinated group for two labels,
    `delta_ut` for the exact alias, and otherwise the coefficient named by the
    label's bracketed tag. A missing coefficient raises at once; flags already
    set stay set. */
module Mutability {
  import opened Wrappers
  import opened Values
  import opened Brackets
  import opened Instance
  import opened Dispatch

  /** The label whose capital-cost parameters change together. */
  const CapitalCosts := "Reference Capital costs (C_Ref)"

  /** The label whose heating-demand parameters change together. Note that the
      dispatch table spells its heating-demand labels with a number, so those do
      not take this branch. */
  const HeatingDemand := "Heating demand (tau_h)"

  /** The coefficients `set_mutable` flags for a label, in the order it flags them. */
  function GroupTargets(parameter: string): (r: seq<string>)
    ensures parameter != CapitalCosts && parameter != HeatingDemand ==> r == []
  {
    if parameter == CapitalCosts then ["lin_CAPEX_x", "lin_CAPEX_y"]
    else if parameter == HeatingDemand then ["tau_h", "tau_c", "tau"]
    else []
  }

  /** What flagging a sequence of coefficient names leaves: the coefficients, and
      the error that stopped it, if any. */
  datatype Flagged = Flagged(coeffs: map<string, Coefficient>, error: Option<Error>)

  /** `names[p]` is the first of `names` missing from `c`, every name before it is a
      coefficient flagged in `coeffs`, and `coeffs` flags exactly what `c` flagged
      and the names before `p`: none of the names after the stop is touched. */
  predicate StopsAt(c: map<string, Coefficient>, names: seq<string>, coeffs: map<string, Coefficient>, p: int) {
    && 0 <= p < |names|
    && names[p] !in c
    && (forall q | 0 <= q < p :: names[q] in c && names[q] in coeffs && coeffs[names[q]].mutable)
    && (forall k | k in c :: k in coeffs && (coeffs[k].mutable <==> c[k].mutable || k in names[..p]))
  }

  /** Flags `names` one after the other; the first name the model lacks raises
      `AttributeError`, leaving the flags set before it. */
  function FlagNames(c: map<string, Coefficient>, names: seq<string>): (f: Flagged)
    ensures f.coeffs.Keys == c.Keys
    ensures f.error.None? <==> forall n | n in names :: n in c
    ensures f.error.Some? ==>
              exists p :: StopsAt(c, names, f.coeffs, p) && f.error == Some(AttributeError(names[p]))
    ensures forall k | k in c :: f.coeffs[k].value == c[k].value
    ensures forall k | k in c :: f.coeffs[k].mutable ==> c[k].mutable || k in names
    ensures forall k | k in c :: c[k].mutable ==> f.coeffs[k].mutable
    ensures f.error.None? ==> forall k | k in names :: f.coeffs[k].mutable
    decreases |names|
  {
    if |names| == 0 then Flagged(c, None)
    else if names[0] !in c then
      assert StopsAt(c, names, c, 0);
      Flagged(c, Some(AttributeError(names[0])))
    else
      var f := FlagNames(c[names[0] := c[names[0]].(mutable := true)], names[1..]);
      assert forall n | n in names[1..] :: n in names;
      assert forall n | n in names :: n == names[0] || n in names[1..];
      if f.error.Some? then
        var p :| StopsAt(c[names[0] := c[names[0]].(mutable := true)], names[1..], f.coeffs, p) &&
                 f.error == Some(AttributeError(names[1..][p]));
        StopsAtShift(c, names, f.coeffs, p);
        f
      else
        f
  }

  /** A stop in the names after a flagged first name is a stop one position later. */
  lemma StopsAtShift(c: map<string, Coefficient>, names: seq<string>, coeffs: map<string, Coefficient>, p: int)
    requires |names| > 0 && names[0] in c
    requires StopsAt(c[names[0] := c[names[0]].(mutable := true)], names[1..], coeffs, p)
    ensures StopsAt(c, names, coeffs, p + 1)
  {
    var c1 := c[names[0] := c[names[0]].(mutable := true)];
    assert names[0] in coeffs && coeffs[names[0]].mutable by {
      assert names[0] in c1 && c1[names[0]].mutable;
    }
    forall q | 0 <= q < p + 1 ensures names[q] in c && names[q] in coeffs && coeffs[names[q]].mutable {
      if q > 0 {
        assert names[q] == names[1..][q - 1];
      }
    }
    assert names[..p + 1] == [names[0]] + names[1..][..p];
    forall k | k in c ensures k in coeffs && (coeffs[k].mutable <==> c[k].mutable || k in names[..p + 1]) {
      assert k in c1;
      assert c1[k].mutable <==> c[k].mutable || k == names[0];
    }
  }

  /** The coefficients one record asks to flag, or the error raised before any flag
      is set: an empty record has no position 0, and a label that is not a string,
      or has no bracketed tag, is not an attribute name. */
  function Targets(rec: Record): (r: Result<seq<string>, Error>)
    ensures |rec| == 0 ==> r == Err(IndexError)
    ensures |rec| > 0 && !rec[0].value.Str? ==> r == Err(TypeError)
    ensures r.Ok? ==> |rec| > 0 && rec[0].value.Str? && 1 <= |r.value| <= 3
  {
    if |rec| == 0 then Err(IndexError)
    else
      var paramName := rec[0].value;
      if paramName == Str(CapitalCosts) || paramName == Str(HeatingDemand) then Ok(GroupTargets(paramName.s))
      else if paramName == Str(ElectricityAlias) then Ok(["delta_ut"])
      else if !paramName.Str? then Err(TypeError)
      else
        var paramId := ExtractBetweenBrackets(paramName.s);
        if paramId.None? then Err(TypeError) else Ok([paramId.value])
  }

  /** The loop of `prepare_mutable_parameters` over `recs`, starting from the coefficients `c`. */
  function Prepare(c: map<string, Coefficient>, recs: seq<Record>): (f: Flagged)
    ensures f.coeffs.Keys == c.Keys
    decreases |recs|
  {
    if |recs| == 0 then Flagged(c, None)
    else
      var t := Targets(recs[0]);
      if t.Err? then Flagged(c, Some(t.error))
      else
        var f := FlagNames(c, t.value);
        if f.error.Some? then f else Prepare(f.coeffs, recs[1..])
  }

  /** Every coefficient name the records ask to flag. */
  ghost function TargetsOf(recs: seq<Record>): set<string> {
    set r, n | r in recs && Targets(r).Ok? && n in Targets(r).value :: n
  }

  /** `set_mutable(instance, parameter)`: flags the coordinated group of the label,
      one coefficient after the other, and does nothing for any other label. */
  method SetMutableGroup(inst: ModelInstance, parameter: string) returns (error: Option<Error>)
    modifies inst
    ensures Flagged(inst.coefficients, error) == FlagNames(old(inst.coefficients), GroupTargets(parameter))
    ensures inst.calls == old(inst.calls)
  {
    var names := GroupTargets(parameter);
    var i := 0;
    error := None;
    while i < |names|
      invariant 0 <= i <= |names|
      invariant inst.calls == old(inst.calls)
      invariant error == None
      invariant FlagNames(old(inst.coefficients), names) == FlagNames(inst.coefficients, names[i..])
    {
      assert names[i..][0] == names[i] && names[i..][1..] == names[i + 1..];
      error := inst.SetMutable(names[i]);
      if error.Some? {
        return;
      }
      i := i + 1;
    }
  }

  /** The body of the loop of `prepare_mutable_parameters` for one record: the
      flags it sets, and the error it raises, if any. */
  method FlagRecord(inst: ModelInstance, rec: Record) returns (error: Option<Error>)
    modifies inst
    ensures Targets(rec).Err? ==> error == Some(Targets(rec).error) && inst.coefficients == old(inst.coefficients)
    ensures Targets(rec).Ok? ==> Flagged(inst.coefficients, error) == FlagNames(old(inst.coefficients), Targets(rec).value)
    ensures inst.calls == old(inst.calls)
  {
    if |rec| == 0 {
      return Some(IndexError);
    }
    var paramName := rec[0].value;
    if paramName == Str(CapitalCosts) || paramName == Str(HeatingDemand) {
      error := SetMutableGroup(inst, paramName.s);
    } else if paramName == Str(ElectricityAlias) {
      error := inst.SetMutable("delta_ut");
    } else if !paramName.Str? {
      error := Some(TypeError);
    } else {
      var paramId := ExtractBetweenBrackets(paramName.s);
      if paramId.None? {
        return Some(TypeError);
      }
      error := inst.SetMutable(paramId.value);
    }
  }

  /** `prepare_mutable_parameters(ModelInstance, input_data)`: returns the same
      instance with the flags of every record set, or raises at the first record
      that cannot be handled, with the flags of the records before it set. */
  method PrepareMutableParameters(inst: ModelInstance, inputData: seq<Record>)
    returns (r: Result<ModelInstance, Error>)
    modifies inst
    ensures inst.coefficients == Prepare(old(inst.coefficients), inputData).coeffs
    ensures Prepare(old(inst.coefficients), inputData).error.None? ==> r == Ok(inst)
    ensures Prepare(old(inst.coefficients), inputData).error.Some? ==>
              r == Err(Prepare(old(inst.coefficients), inputData).error.value)
    ensures inst.calls == old(inst.calls)
  {
    var i := 0;
    while i < |inputData|
      invariant 0 <= i <= |inputData|
      invariant inst.calls == old(inst.calls)
      invariant Prepare(old(inst.coefficients), inputData) == Prepare(inst.coefficients, inputData[i..])
    {
      assert inputData[i..][0] == inputData[i] && inputData[i..][1..] == inputData[i + 1..];
      var error := FlagRecord(inst, inputData[i]);
      if error.Some? {
        return Err(error.value);
      }
      i := i + 1;
    }
    return Ok(inst);
  }

  /** The names one record asks to flag (none when it raises before flagging). */
  function NamesOf(rec: Record): set<string> {
    if Targets(rec).Ok? then set n | n in Targets(rec).value else {}
  }

  lemma TargetsOfCons(recs: seq<Record>)
    requires |recs| > 0
    ensures TargetsOf(recs) == NamesOf(recs[0]) + TargetsOf(recs[1..])
  {
    forall n | n in TargetsOf(recs) ensures n in NamesOf(recs[0]) + TargetsOf(recs[1..]) {
      var r :| r in recs && Targets(r).Ok? && n in Targets(r).value;
      if r != recs[0] {
        assert r in recs[1..];
      }
    }
    forall n | n in TargetsOf(recs[1..]) ensures n in TargetsOf(recs) {
      var r :| r in recs[1..] && Targets(r).Ok? && n in Targets(r).value;
      assert r in recs;
    }
  }

  /** The loop changes nothing but flags, only ever sets them, and sets no flag of a
      coefficient that no record names — whether it completes or raises. */
  lemma {:induction false} PrepareFrame(c: map<string, Coefficient>, recs: seq<Record>)
    ensures Prepare(c, recs).coeffs.Keys == c.Keys
    ensures forall k | k in c :: Prepare(c, recs).coeffs[k].value == c[k].value
    ensures forall k | k in c :: c[k].mutable ==> Prepare(c, recs).coeffs[k].mutable
    ensures forall k | k in c :: Prepare(c, recs).coeffs[k].mutable ==> c[k].mutable || k in TargetsOf(recs)
    decreases |recs|
  {
    if |recs| > 0 && Targets(recs[0]).Ok? {
      var f := FlagNames(c, Targets(recs[0]).value);
      TargetsOfCons(recs);
      if f.error.None? {
        PrepareFrame(f.coeffs, recs[1..]);
      }
    }
  }

  /** The loop completes exactly when every record names its coefficients and the model
      has all of them; it then leaves flagged exactly the coefficients flagged before
      and those the records name. */
  lemma {:induction false} PrepareSucceeds(c: map<string, Coefficient>, recs: seq<Record>)
    ensures Prepare(c, recs).error.None? <==>
              (forall r | r in recs :: Targets(r).Ok?) && TargetsOf(recs) <= c.Keys
    ensures Prepare(c, recs).error.None? ==>
              forall k | k in c :: Prepare(c, recs).coeffs[k].mutable <==> c[k].mutable || k in TargetsOf(recs)
    decreases |recs|
  {
    PrepareFrame(c, recs);
    if |recs| > 0 {
      TargetsOfCons(recs);
      if Targets(recs[0]).Ok? {
        var f := FlagNames(c, Targets(recs[0]).value);
        if f.error.None? {
          PrepareSucceeds(f.coeffs, recs[1..]);
          PrepareFrame(f.coeffs, recs[1..]);
          assert forall r | r in recs :: r == recs[0] || r in recs[1..];
        } else {
          assert !(NamesOf(recs[0]) <= c.Keys);
        }
      } else {
        assert recs[0] in recs;
      }
    }
  }

  /** Handling `a` then `b` is handling `a` and, if that completes, continuing with `b`
      from the flags `a` left; if `a` raises, `b` is never looked at. */
  lemma {:induction false} PrepareAppend(c: map<string, Coefficient>, a: seq<Record>, b: seq<Record>)
    ensures Prepare(c, a).error.None? ==> Prepare(c, a + b) == Prepare(Prepare(c, a).coeffs, b)
    ensures Prepare(c, a).error.Some? ==> Prepare(c, a + b) == Prepare(c, a)
    decreases |a|
  {
    if |a| == 0 {
      assert a + b == b;
    } else {
      assert (a + b)[0] == a[0] && (a + b)[1..] == a[1..] + b;
      var t := Targets(a[0]);
      if t.Ok? && FlagNames(c, t.value).error.None? {
        PrepareAppend(FlagNames(c, t.value).coeffs, a[1..], b);
      }
    }
  }

  /** Flags set for records that were handled completely stay set, whatever the
      records after them do, including raising. */
  lemma EarlierFlagsSurvive(c: map<string, Coefficient>, a: seq<Record>, b: seq<Record>)
    requires Prepare(c, a).error.None?
    ensures forall k | k in TargetsOf(a) :: k in c && Prepare(c, a + b).coeffs[k].mutable
  {
    var fa := Prepare(c, a).coeffs;
    PrepareSucceeds(c, a);
    PrepareAppend(c, a, b);
    assert Prepare(c, a + b) == Prepare(fa, b);
    PrepareFrame(fa, b);
    forall k | k in TargetsOf(a) ensures k in c && Prepare(c, a + b).coeffs[k].mutable {
      assert k in c && fa[k].mutable;
    }
  }

  /** The capital-cost label flags exactly `lin_CAPEX_x` and `lin_CAPEX_y`. */
  lemma CapitalCostsFlagsTwo(c: map<string, Coefficient>, rec: Record)
    requires |rec| > 0 && rec[0].value == Str(CapitalCosts)
    requires "lin_CAPEX_x" in c && "lin_CAPEX_y" in c
    ensures Prepare(c, [rec]) ==
              Flagged(c["lin_CAPEX_x" := c["lin_CAPEX_x"].(mutable := true)]
                       ["lin_CAPEX_y" := c["lin_CAPEX_y"].(mutable := true)], None)
  {
    assert Targets(rec) == Ok(["lin_CAPEX_x", "lin_CAPEX_y"]);
    var c1 := c["lin_CAPEX_x" := c["lin_CAPEX_x"].(mutable := true)];
    assert c1["lin_CAPEX_y"] == c["lin_CAPEX_y"];
    assert FlagNames(c, ["lin_CAPEX_x", "lin_CAPEX_y"]) == FlagNames(c1, ["lin_CAPEX_y"]);
  }

  /** The grouped heating-demand label flags exactly `tau_h`, `tau_c` and `tau`. */
  lemma HeatingDemandFlagsThree(c: map<string, Coefficient>, rec: Record)
    requires |rec| > 0 && rec[0].value == Str(HeatingDemand)
    requires "tau_h" in c && "tau_c" in c && "tau" in c
    ensures Prepare(c, [rec]) ==
              Flagged(c["tau_h" := c["tau_h"].(mutable := true)]
                       ["tau_c" := c["tau_c"].(mutable := true)]
                       ["tau" := c["tau"].(mutable := true)], None)
  {
    assert Targets(rec) == Ok(["tau_h", "tau_c", "tau"]);
    var c1 := c["tau_h" := c["tau_h"].(mutable := true)];
    var c2 := c1["tau_c" := c["tau_c"].(mutable := true)];
    assert c1["tau_c"] == c["tau_c"] && c2["tau"] == c["tau"];
    assert FlagNames(c, ["tau_h", "tau_c", "tau"]) == FlagNames(c1, ["tau_c", "tau"]);
    assert FlagNames(c1, ["tau_c", "tau"]) == FlagNames(c2, ["tau"]);
  }

  /** With `tau_c` missing, the grouped heating-demand label flags `tau_h`, raises
      for `tau_c` and leaves `tau` as it was. */
  lemma HeatingDemandStopsAtTauC(c: map<string, Coefficient>, rec: Record)
    requires |rec| > 0 && rec[0].value == Str(HeatingDemand)
    requires "tau_h" in c && "tau_c" !in c && "tau" in c
    ensures Prepare(c, [rec]) ==
              Flagged(c["tau_h" := c["tau_h"].(mutable := true)], Some(AttributeError("tau_c")))
  {
    assert Targets(rec) == Ok(["tau_h", "tau_c", "tau"]);
    var c1 := c["tau_h" := c["tau_h"].(mutable := true)];
    assert FlagNames(c, ["tau_h", "tau_c", "tau"]) == FlagNames(c1, ["tau_c", "tau"]);
    assert FlagNames(c1, ["tau_c", "tau"]) == Flagged(c1, Some(AttributeError("tau_c")));
    PrepareOne(c, rec);
  }

  /** A label equal to the alias flags `delta_ut` only. */
  lemma AliasFlagsDeltaUt(c: map<string, Coefficient>, rec: Record)
    requires |rec| > 0 && rec[0].value == Str(ElectricityAlias)
    requires "delta_ut" in c
    ensures Prepare(c, [rec]) == Flagged(c["delta_ut" := c["delta_ut"].(mutable := true)], None)
  {
    assert Targets(rec) == Ok(["delta_ut"]);
  }

  /** Any other string label flags just the coefficient named by its bracketed tag:
      the text between the leftmost `(` that has a `)` later (without a newline
      before it) and the first such `)`; a label with no such pair raises `TypeError`. */
  lemma OtherLabelFlagsTag(rec: Record, name: string)
    requires |rec| > 0 && rec[0].value == Str(name)
    requires name != CapitalCosts && name != HeatingDemand && name != ElectricityAlias
    ensures Targets(rec).Err? <==> forall a: nat :: !MatchesAt(name, a)
    ensures Targets(rec).Err? ==> Targets(rec).error == TypeError
    ensures Targets(rec).Ok? ==>
              |Targets(rec).value| == 1 && ')' !in Targets(rec).value[0] &&
              exists a: nat, b: nat ::
                GroupAt(name, a, b) && Targets(rec).value[0] == name[a + 1..b] &&
                forall a': nat :: a' < a ==> !MatchesAt(name, a')
  {
    ExtractMeaning(name);
  }

  /** "Heating demand 1 (tau_h)", the table's spelling, is not the grouped label and
      flags only `tau_h`. */
  lemma NumberedHeatingDemandFlagsOne(c: map<string, Coefficient>, rec: Record)
    requires |rec| > 0 && rec[0].value == Str("Heating demand 1 (tau_h)")
    requires "tau_h" in c
    ensures Prepare(c, [rec]) == Flagged(c["tau_h" := c["tau_h"].(mutable := true)], None)
  {
    NumberedHeatingDemandTargets(rec);
    PrepareOne(c, rec);
    FlagOne(c, "tau_h");
  }

  lemma NumberedHeatingDemandTargets(rec: Record)
    requires |rec| > 0 && rec[0].value == Str("Heating demand 1 (tau_h)")
    ensures Targets(rec) == Ok(["tau_h"])
  {
    var name := "Heating demand 1 (tau_h)";
    assert name == "Heating demand 1 " + "(" + "tau_h" + ")" + "";
    assert name != CapitalCosts && name != HeatingDemand && name != ElectricityAlias by {
      assert |name| == 24 && |CapitalCosts| == 31 && |HeatingDemand| == 22 && |ElectricityAlias| == 17;
    }
    TaggedLabelTargets(rec, "Heating demand 1 ", "tau_h", "");
  }

  /** A label `prefix (tag) suffix` other than the three grouped or aliased labels,
      whose prefix has no `(`, flags just its tag. */
  lemma TaggedLabelTargets(rec: Record, prefix: string, tag: string, suffix: string)
    requires |rec| > 0 && rec[0].value == Str(prefix + "(" + tag + ")" + suffix)
    requires rec[0].value.s != CapitalCosts && rec[0].value.s != HeatingDemand
    requires rec[0].value.s != ElectricityAlias
    requires '(' !in prefix && ')' !in tag && '\n' !in tag
    ensures Targets(rec) == Ok([tag])
  {
    TagOfLabel(prefix, tag, suffix);
  }

  /** The loop over one record that names its coefficients flags them as `set_mutable` would. */
  lemma PrepareOne(c: map<string, Coefficient>, rec: Record)
    requires Targets(rec).Ok?
    ensures Prepare(c, [rec]) == FlagNames(c, Targets(rec).value)
  {
    var f := FlagNames(c, Targets(rec).value);
    if f.error.None? {
      assert [rec][1..] == [];
    }
  }

  /** Flagging one present name sets exactly its flag. */
  lemma FlagOne(c: map<string, Coefficient>, n: string)
    requires n in c
    ensures FlagNames(c, [n]) == Flagged(c[n := c[n].(mutable := true)], None)
  {
    assert [n][1..] == [];
  }

  /** A record naming a coefficient the model lacks raises `AttributeError` for the
      first missing one of its names, in order, with the flags of its names before
      that one set; no later record is handled. */
  lemma MissingCoefficient(c: map<string, Coefficient>, rec: Record, rest: seq<Record>)
    requires Targets(rec).Ok? && exists n | n in Targets(rec).value :: n !in c
    ensures Prepare(c, [rec] + rest) == FlagNames(c, Targets(rec).value)
    ensures var names, f := Targets(rec).value, Prepare(c, [rec] + rest);
            exists p :: StopsAt(c, names, f.coeffs, p) && f.error == Some(AttributeError(names[p]))
  {
    assert ([rec] + rest)[0] == rec;
  }

  /** The alias counts here only as the whole label: a label that merely contains
      it, which dispatch would send to the electricity price, has no bracketed tag
      and raises `TypeError`. */
  lemma EmbeddedAliasRaises()
    ensures Targets([Field("Parameter_Type", Str("sens_electricity_price_3"))]) == Err(TypeError)
  {
    NoOpenBracket("sens_electricity_price_3");
  }
}
