/** The optimization-model instance the engine mutates: its coefficients by
    name (Pyomo parameters, each with a `_mutable` flag), and the record of the
    update routines invoked on it. */
module Instance {
  import opened Wrappers
  import opened Values

  /** A model coefficient: its `_mutable` flag and its current value. */
  datatype Coefficient = Coefficient(mutable: bool, value: real)

  /** The update routines of the parameter-changer library, one per coefficient family. */
  datatype Routine =
    | ChangeMyuParameter | ChangePhiParameter | ChangeThetaParameter | ChangeStoichParameter
    | ChangeXiParameter | ChangeMaterialCosts | ChangeProductPrice | ChangeUtilityCosts
    | ChangeHeatCosts | ChangeHeatingDemand | ChangeUtilityDemand | ChangeConcentrationDemand
    | ChangeCapitalCosts | ChangeOpexFactor

  /** One invocation `routine(Instance, value, metadata, superstructure, parameter)`;
      the superstructure object is an opaque handle forwarded unchanged. */
  datatype Call = Call(routine: Routine, value: real, metadata: Option<Record>,
                       superstructure: Option<nat>, parameter: string)

  class ModelInstance {
    var coefficients: map<string, Coefficient>
    var calls: seq<Call>

    constructor (coefficients: map<string, Coefficient>)
      ensures this.coefficients == coefficients && calls == []
    {
      this.coefficients := coefficients;
      calls := [];
    }

    /** `getattr(instance, name)._mutable = True`: flags the named coefficient,
        or raises `AttributeError` when the model has no such coefficient. */
    method SetMutable(name: string) returns (error: Option<Error>)
      modifies this
      ensures calls == old(calls)
      ensures name in old(coefficients) ==>
                error == None && coefficients == old(coefficients)[name := old(coefficients)[name].(mutable := true)]
      ensures name !in old(coefficients) ==>
                error == Some(AttributeError(name)) && coefficients == old(coefficients)
    {
      if name in coefficients {
        coefficients := coefficients[name := coefficients[name].(mutable := true)];
        error := None;
      } else {
        error := Some(AttributeError(name));
      }
    }

    /** An update routine applied to this instance. The routines' bodies are
        not part of this model: an invocation is recorded, and nothing else changes. */
    method Apply(routine: Routine, value: real, metadata: Option<Record>,
                 superstructure: Option<nat>, parameter: string)
      modifies this
      ensures calls == old(calls) + [Call(routine, value, metadata, superstructure, parameter)]
      ensures coefficients == old(coefficients)
    {
      calls := calls + [Call(routine, value, metadata, superstructure, parameter)];
    }
  }
}
