/** `change_parameter` and `error_func`: a fixed, insertion-ordered table from
    decorated labels to update routines; a raw label is resolved to a table
    label (by the electricity-price alias, else by the first table label that is
    a substring of it), and the routine found under the resolved label is invoked. */
module Dispatch {
  import opened Wrappers
  import opened Text
  import opened Values
  import opened Instance

  /** One entry of `function_dictionary`. */
  datatype Changer = Changer(key: string, routine: Routine)

  /** The snake-case alias that short-circuits resolution. */
  const ElectricityAlias := "electricity_price"

  /** The table label the alias resolves to. */
  const ElectricityPrice := "Electricity price (delta_ut)"

  /** The table label that shares its tag with the electricity price. */
  const ChillingPrice := "Chilling price (delta_ut)"

  /** `function_dictionary`, in declaration order. */
  const FunctionDictionary: seq<Changer> := [
    Changer("Split factors (myu)", ChangeMyuParameter),
    Changer("Feed Composition (phi)", ChangePhiParameter),
    Changer("Conversion factor (theta)", ChangeThetaParameter),
    Changer("Stoichiometric factor (gamma)", ChangeStoichParameter),
    Changer("Yield factor (xi)", ChangeXiParameter),
    Changer("Costs (materialcosts)", ChangeMaterialCosts),
    Changer("Price (ProductPrice)", ChangeProductPrice),
    Changer(ElectricityPrice, ChangeUtilityCosts),
    Changer(ChillingPrice, ChangeUtilityCosts),
    Changer("Heating price super (delta_q)", ChangeHeatCosts),
    Changer("Heating price high (delta_q)", ChangeHeatCosts),
    Changer("Heating price medium (delta_q)", ChangeHeatCosts),
    Changer("Heating price low (delta_q)", ChangeHeatCosts),
    Changer("Heating demand 1 (tau_h)", ChangeHeatingDemand),
    Changer("Heating demand 2 (tau_h)", ChangeHeatingDemand),
    Changer("Electricity demand (tau)", ChangeUtilityDemand),
    Changer("Chilling demand (tau)", ChangeUtilityDemand),
    Changer("Component concentration (conc)", ChangeConcentrationDemand),
    Changer("Reference Capital costs (C_Ref)", ChangeCapitalCosts),
    Changer("Operating and maintenance (K_OM)", ChangeOpexFactor)
  ]

  /** `table.get(key)` over the entries of an insertion-ordered table from index `i` on. */
  function LookupFrom(table: seq<Changer>, key: string, i: nat): (r: Option<Routine>)
    ensures r.Some? <==> exists j | i <= j < |table| :: table[j].key == key
    ensures r.Some? ==> exists j | i <= j < |table| :: table[j] == Changer(key, r.value)
    decreases |table| - i
  {
    if i >= |table| then None
    else if table[i].key == key then Some(table[i].routine)
    else LookupFrom(table, key, i + 1)
  }

  /** `function_dictionary.get(key)`. */
  function TableGet(key: string): (r: Option<Routine>)
    ensures r.Some? <==> exists j | 0 <= j < |FunctionDictionary| :: FunctionDictionary[j].key == key
    ensures r.Some? ==> exists j | 0 <= j < |FunctionDictionary| :: FunctionDictionary[j] == Changer(key, r.value)
  {
    LookupFrom(FunctionDictionary, key, 0)
  }

  /** The first index of `table` from `i` on whose label is a substring of `raw`. */
  function FirstMatchFrom(table: seq<Changer>, raw: string, i: nat): (r: Option<nat>)
    ensures r.Some? ==>
              i <= r.value < |table| && Contains(raw, table[r.value].key) &&
              forall j | i <= j < r.value :: !Contains(raw, table[j].key)
    ensures r.None? ==> forall j | i <= j < |table| :: !Contains(raw, table[j].key)
    decreases |table| - i
  {
    if i >= |table| then None
    else if Contains(raw, table[i].key) then Some(i)
    else FirstMatchFrom(table, raw, i + 1)
  }

  /** What `parameter` holds after the resolution step: the alias target, the
      first table label contained in `raw`, or `raw` itself when none is. */
  function ResolveLabel(raw: string): (r: string)
    ensures Contains(raw, ElectricityAlias) ==> r == ElectricityPrice
    ensures !Contains(raw, ElectricityAlias) ==> Contains(raw, r)
    ensures r != raw ==> exists j | 0 <= j < |FunctionDictionary| :: FunctionDictionary[j].key == r
  {
    if Contains(raw, ElectricityAlias) then
      assert FunctionDictionary[7].key == ElectricityPrice;
      ElectricityPrice
    else match FirstMatchFrom(FunctionDictionary, raw, 0)
      case Some(i) => FunctionDictionary[i].key
      case None => ContainsSelf(raw); raw
  }

  /** `error_func(*args)`: the `ValueError` naming its last argument. */
  function ErrorFunc(parameter: string): (e: Error)
    ensures e.ValueError? && Contains(e.message, parameter)
  {
    var message := "Parameter " + parameter + " not in Variation Parameter set defining all changer functions";
    Infix("Parameter ", parameter, " not in Variation Parameter set defining all changer functions");
    ValueError(message)
  }

  /** The routine `change_parameter` calls, with its canonical label, or the error `error_func` raises. */
  function Dispatch(raw: string): (r: Result<Changer, Error>)
    ensures r.Ok? ==> exists j | 0 <= j < |FunctionDictionary| :: FunctionDictionary[j] == r.value
    ensures r.Err? ==> r.error.ValueError?
  {
    var parameter := ResolveLabel(raw);
    match TableGet(parameter)
    case Some(routine) => Ok(Changer(parameter, routine))
    case None => Err(ErrorFunc(parameter))
  }

  /** `change_parameter(Instance, parameter, value, metadata, superstructure)`:
      resolves the label in a first-match loop, then invokes the routine found
      under it on the instance and returns the same instance, or raises through
      `error_func` without touching the instance. */
  method ChangeParameter(inst: ModelInstance, parameter: string, value: real,
                         metadata: Option<Record>, superstructure: Option<nat>)
    returns (r: Result<ModelInstance, Error>)
    modifies inst
    ensures inst.coefficients == old(inst.coefficients)
    ensures Dispatch(parameter).Ok? ==>
              r == Ok(inst) &&
              inst.calls == old(inst.calls) +
                [Call(Dispatch(parameter).value.routine, value, metadata, superstructure, Dispatch(parameter).value.key)]
    ensures Dispatch(parameter).Err? ==> r == Err(Dispatch(parameter).error) && inst.calls == old(inst.calls)
  {
    var resolved := parameter;
    if Contains(parameter, ElectricityAlias) {
      resolved := ElectricityPrice;
    } else {
      var i := 0;
      while i < |FunctionDictionary|
        invariant 0 <= i <= |FunctionDictionary|
        invariant resolved == parameter
        invariant FirstMatchFrom(FunctionDictionary, parameter, 0) == FirstMatchFrom(FunctionDictionary, parameter, i)
      {
        if Contains(parameter, FunctionDictionary[i].key) {
          resolved := FunctionDictionary[i].key;
          break;
        }
        i := i + 1;
      }
    }
    assert resolved == ResolveLabel(parameter);
    var routine := TableGet(resolved);
    if routine.None? {
      return Err(ErrorFunc(resolved));
    }
    inst.Apply(routine.value, value, metadata, superstructure, resolved);
    return Ok(inst);
  }

  /** A Python dict literal keeps one entry per key, and these twenty labels differ. */
  lemma KeysDistinct()
    ensures forall a, b | 0 <= a < b < |FunctionDictionary| :: FunctionDictionary[a].key != FunctionDictionary[b].key
  {
  }

  lemma {:induction false} LookupFromFinds(table: seq<Changer>, i: nat, j: nat)
    requires i <= j < |table|
    requires forall m | i <= m < j :: table[m].key != table[j].key
    ensures LookupFrom(table, table[j].key, i) == Some(table[j].routine)
    decreases j - i
  {
    if i < j {
      LookupFromFinds(table, i + 1, j);
    }
  }

  /** Looking up a table label yields the routine stored under it. */
  lemma TableGetKey(j: nat)
    requires j < |FunctionDictionary|
    ensures TableGet(FunctionDictionary[j].key) == Some(FunctionDictionary[j].routine)
  {
    KeysDistinct();
    LookupFromFinds(FunctionDictionary, 0, j);
  }

  /** A raw label containing `electricity_price` dispatches to the electricity-price
      routine under the label "Electricity price (delta_ut)", whatever table labels it also contains. */
  lemma AliasShortCircuit(raw: string)
    requires Contains(raw, ElectricityAlias)
    ensures Dispatch(raw) == Ok(Changer(ElectricityPrice, ChangeUtilityCosts))
  {
    PriceEntries();
    TableGetKey(7);
  }

  /** Without the alias, a raw label containing the table label at index `i` dispatches
      to the entry of the first table label, in declaration order, that it contains;
      that entry is at index `i` or earlier. */
  lemma FirstMatchResolution(raw: string, i: nat)
    requires !Contains(raw, ElectricityAlias)
    requires i < |FunctionDictionary| && Contains(raw, FunctionDictionary[i].key)
    ensures exists j | 0 <= j <= i ::
              Dispatch(raw) == Ok(FunctionDictionary[j]) && Contains(raw, FunctionDictionary[j].key) &&
              forall k | 0 <= k < j :: !Contains(raw, FunctionDictionary[k].key)
  {
    DispatchFirstMatch(raw);
  }

  /** Without the alias, dispatch goes to the entry of the first label contained. */
  lemma DispatchFirstMatch(raw: string)
    requires !Contains(raw, ElectricityAlias) && FirstMatchFrom(FunctionDictionary, raw, 0).Some?
    ensures Dispatch(raw) == Ok(FunctionDictionary[FirstMatchFrom(FunctionDictionary, raw, 0).value])
  {
    TableGetKey(FirstMatchFrom(FunctionDictionary, raw, 0).value);
  }

  /** The two entries the alias lemmas name. */
  lemma PriceEntries()
    ensures FunctionDictionary[7] == Changer(ElectricityPrice, ChangeUtilityCosts)
    ensures FunctionDictionary[8] == Changer(ChillingPrice, ChangeUtilityCosts)
  {
  }

  /** Resolution fails exactly when the label contains neither the alias nor any table
      label; `error_func` then raises its `ValueError` naming the raw label, since
      resolution left it unchanged. */
  lemma UnknownLabel(raw: string)
    ensures Dispatch(raw).Err? <==>
              !Contains(raw, ElectricityAlias) &&
              forall k | 0 <= k < |FunctionDictionary| :: !Contains(raw, FunctionDictionary[k].key)
    ensures Dispatch(raw).Err? ==> Dispatch(raw).error == ErrorFunc(raw)
  {
    if Contains(raw, ElectricityAlias) {
      AliasShortCircuit(raw);
    } else if FirstMatchFrom(FunctionDictionary, raw, 0).Some? {
      TableGetKey(FirstMatchFrom(FunctionDictionary, raw, 0).value);
    } else if TableGet(raw).Some? {
      var j :| 0 <= j < |FunctionDictionary| && FunctionDictionary[j].key == raw;
      ContainsSelf(raw);
    }
  }

  /** A label containing both the electricity and the chilling price labels, and not the
      alias, never dispatches under the chilling label, because the electricity label
      comes first in the table; with no earlier label present it dispatches under the
      electricity label. */
  lemma ElectricityOverChilling(raw: string)
    requires !Contains(raw, ElectricityAlias)
    requires Contains(raw, ElectricityPrice) && Contains(raw, ChillingPrice)
    ensures Dispatch(raw).Ok? && Dispatch(raw).value.key != ChillingPrice
    ensures (forall k | 0 <= k < 7 :: !Contains(raw, FunctionDictionary[k].key)) ==>
              Dispatch(raw) == Ok(Changer(ElectricityPrice, ChangeUtilityCosts))
  {
    PriceEntries();
    var j := FirstMatchFrom(FunctionDictionary, raw, 0).value;
    DispatchFirstMatch(raw);
    assert FunctionDictionary[j].key != FunctionDictionary[8].key by { KeysDistinct(); }
  }

  /** A table label that contains neither the alias nor any earlier table label
      dispatches to its own entry. */
  lemma ExactLabelResolves(i: nat)
    requires i < |FunctionDictionary|
    requires !Contains(FunctionDictionary[i].key, ElectricityAlias)
    requires forall k | 0 <= k < i :: !Contains(FunctionDictionary[i].key, FunctionDictionary[k].key)
    ensures Dispatch(FunctionDictionary[i].key) == Ok(FunctionDictionary[i])
  {
    ContainsSelf(FunctionDictionary[i].key);
    FirstMatchResolution(FunctionDictionary[i].key, i);
  }

  /** "Yield factor (xi)" dispatches to the yield-factor routine under its own label. */
  lemma YieldFactorResolves()
    ensures Dispatch("Yield factor (xi)") == Ok(Changer("Yield factor (xi)", ChangeXiParameter))
  {
    var key := FunctionDictionary[4].key;
    assert key == "Yield factor (xi)";
    MissingChar(key, ElectricityAlias, 'y');
    forall k | 0 <= k < 4 ensures !Contains(key, FunctionDictionary[k].key) {
      TooLong(key, FunctionDictionary[k].key);
    }
    ExactLabelResolves(4);
  }

  /** A label with the alias embedded dispatches to the electricity-price routine. */
  lemma AliasedRun()
    ensures Dispatch("sens_electricity_price_3") == Ok(Changer(ElectricityPrice, ChangeUtilityCosts))
  {
    assert "sens_electricity_price_3" == "sens_" + ElectricityAlias + "_3";
    Infix("sens_", ElectricityAlias, "_3");
    AliasShortCircuit("sens_electricity_price_3");
  }

  /** A label shorter than every table label and the alias fails with the message naming it. */
  lemma UnknownShortLabel()
    ensures Dispatch("bogus_param") == Err(ErrorFunc("bogus_param"))
  {
    TooLong("bogus_param", ElectricityAlias);
    forall k | 0 <= k < |FunctionDictionary| ensures !Contains("bogus_param", FunctionDictionary[k].key) {
      TooLong("bogus_param", FunctionDictionary[k].key);
    }
    UnknownLabel("bogus_param");
  }
}
