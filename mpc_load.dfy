/**
 * The MPC load builder of src/control/mpc_model/component/load_demand.py:
 * the load forecast enters the optimisation as one solver parameter per
 * forecast timestamp.
 */
module MpcLoad {
  import opened Wrappers
  import opened Timeseries
  import opened OptimisationScalar
  import opened OptimisationTimeIndex
  import opened OptimisationEngine

  /** `ControlLoadDemandData`. */
  datatype ControlLoadDemandData = ControlLoadDemandData(
    name: string, timestamps: Timestamps, powerForecast: TimeseriesModel, bounds: Bounds)

  /** `LoadDemand`. */
  class LoadDemand {
    const data: ControlLoadDemandData
    const power: TimeIndexParameter

    /** What `_generate_variables` leaves behind: the parameter family `{name}_power` over the forecast. */
    ghost predicate Valid()
    {
      power.Valid() && power.name == data.name + "_power" && power.parameterValue == data.powerForecast
    }

    constructor Init(data: ControlLoadDemandData, power: TimeIndexParameter)
      ensures this.data == data && this.power == power
    {
      this.data, this.power := data, power;
    }

    /**
     * `extend_optimisation_model`: register the forecast series as a
     * time-indexed parameter and bind element i to the i-th handed-out value.
     */
    method ExtendOptimisationModel(engine: Engine) returns (o: Outcome)
      requires Valid()
      modifies engine, power, power.elements
      ensures o.Pass? <==> old(engine.Admits(ParameterKind, power.name))
      ensures o.Fail? ==> o.error == DuplicateEngineValue && engine.next == old(engine.next)
      ensures o.Fail? ==> engine.parameters == old(engine.parameters) && power.handle == old(power.handle)
      ensures o.Pass? ==> engine.parameters == old(engine.parameters) + [power.name]
      ensures o.Pass? ==> power.handle == Some(IndexHandle(old(engine.next), |power.elements|))
      ensures o.Pass? ==> engine.next == old(engine.next) + |power.elements|
      ensures o.Pass? ==> forall i :: 0 <= i < |power.elements| ==> power.elements[i].handle == Some(Handle(old(engine.next) + i))
      ensures engine.variables == old(engine.variables) && engine.constraints == old(engine.constraints)
    {
      var h := engine.AddTimeIndexParameter(power.name, power.parameterValue);
      if h.Err? {
        return Fail(h.error);
      }
      assert |power.elements| == |power.parameterValue.timestamps.values|;
      o := power.SetOptimisationValue(h.value);
    }
  }

  /**
   * The constructor: one parameter per forecast timestamp, none bound yet,
   * so reading the family's value fails with "not created". A forecast
   * that cannot answer at one of its own timestamps raises that lookup's
   * error.
   */
  method NewLoadDemand(data: ControlLoadDemandData) returns (r: Result<LoadDemand>)
    ensures r.Ok? <==> forall t :: t in data.powerForecast.timestamps.values ==> GetValue(data.powerForecast, t).Ok?
    ensures r.Ok? ==> fresh(r.value) && r.value.Valid() && r.value.data == data
    ensures r.Ok? ==> r.value.power.OptimisationValue() == Err(NotCreated)
    ensures r.Ok? ==> forall i :: 0 <= i < |r.value.power.elements| ==> r.value.power.elements[i].handle == None
  {
    var ts := data.powerForecast.timestamps.values;
    if forall t :: t in ts ==> GetValue(data.powerForecast, t).Ok? {
      ParameterSpecsTotal(data.name + "_power", data.powerForecast, ts);
    } else {
      var t :| t in ts && GetValue(data.powerForecast, t).Err?;
      var k :| 0 <= k < |ts| && ts[k] == t;
      ParameterSpecsFailAt(data.name + "_power", data.powerForecast, ts, k);
    }
    var pv := NewTimeIndexParameter(data.name + "_power", data.powerForecast);
    if pv.Err? {
      return Err(pv.error);
    }
    var load := new LoadDemand.Init(data, pv.value);
    return Ok(load);
  }

  /**
   * Over a well-formed forecast the family holds one parameter per forecast
   * timestamp, the i-th named `{name}_power_{t_i}` and carrying the forecast
   * value at `t_i`.
   */
  lemma LoadParameters(l: LoadDemand, i: nat)
    requires l.Valid() && WellFormedSeries(l.data.powerForecast) && i < |l.power.elements|
    ensures |l.power.elements| == |l.data.powerForecast.timestamps.values|
    ensures l.power.elements[i].name == ElementName(l.data.name + "_power", l.data.powerForecast.timestamps.values[i])
    ensures GetValue(l.data.powerForecast, l.data.powerForecast.timestamps.values[i]) == Ok(l.power.elements[i].initial)
  {
    ParameterFamilyShape(l.power, i);
    GetValueAtIndex(l.data.powerForecast, i);
  }

  /**
   * Before `extend_optimisation_model` evaluating the load fails with "not
   * created"; once every element is bound it yields one solver value per
   * forecast timestamp.
   */
  lemma LoadEvaluation(l: LoadDemand, sol: Handle -> real)
    requires l.Valid()
    ensures l.power.handle == None && |l.power.elements| > 0 && l.power.elements[0].handle == None ==>
      l.power.OptimisationValue() == Err(NotCreated) && l.power.Evaluate(sol) == Err(NotCreated)
    ensures (forall i :: 0 <= i < |l.power.elements| ==> l.power.elements[i].handle.Some?) ==>
      l.power.Evaluate(sol).Ok? && |l.power.Evaluate(sol).value| == |l.data.powerForecast.timestamps.values|
  {
    assert |ParameterSpecsOf(l.power.elements)| == |l.power.elements|;
  }
}
