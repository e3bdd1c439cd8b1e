/**
 * The MPC renewable builder of
 * src/control/mpc_model/component/renewable_unit.py: a power variable per
 * timestamp, bounded by the unit's power bounds, and the availability cap
 * `power[i] <= forecast(t_i)` at every timestamp.
 */
module MpcRenewable {
  import opened Wrappers
  import opened Timeseries
  import opened OptimisationScalar
  import opened OptimisationTimeIndex
  import opened OptimisationEngine

  /** `ControlRenewableUnitData`. */
  datatype ControlRenewableUnitData = ControlRenewableUnitData(
    name: string, timestamps: Timestamps, powerForecast: TimeseriesModel, powerBounds: Bounds)

  /**
   * The forecast looked up at every timestamp, in order; the first lookup
   * that fails aborts the comprehension with its error.
   */
  function ForecastValues(forecast: TimeseriesModel, ts: seq<int>): (r: Result<seq<real>>)
    ensures r.Ok? ==> |r.value| == |ts|
  {
    if |ts| == 0 then Ok([])
    else
      match GetValue(forecast, ts[0])
      case Err(e) => Err(e)
      case Ok(f) =>
        match ForecastValues(forecast, ts[1..])
        case Err(e) => Err(e)
        case Ok(rest) => Ok([f] + rest)
  }

  /**
   * The lookups succeed exactly when the forecast answers at every
   * timestamp, and then value i is the forecast at `t_i`.
   */
  lemma {:induction false} ForecastValuesAt(forecast: TimeseriesModel, ts: seq<int>)
    ensures ForecastValues(forecast, ts).Ok? <==> forall i :: 0 <= i < |ts| ==> GetValue(forecast, ts[i]).Ok?
    ensures ForecastValues(forecast, ts).Ok? ==>
      forall i :: 0 <= i < |ts| ==> ForecastValues(forecast, ts).value[i] == GetValue(forecast, ts[i]).value
  {
    if |ts| > 0 {
      ForecastValuesAt(forecast, ts[1..]);
      assert forall i :: 1 <= i < |ts| ==> ts[1..][i - 1] == ts[i];
    }
  }

  /** A forecast over the same timestamps as a well-formed series answers at every one of them. */
  lemma ForecastCovers(forecast: TimeseriesModel, ts: Timestamps)
    requires WellFormedSeries(forecast) && forecast.timestamps == ts
    ensures ForecastValues(forecast, ts.values).Ok?
    ensures ForecastValues(forecast, ts.values).value == Values(forecast)
  {
    ForecastValuesAt(forecast, ts.values);
    forall i | 0 <= i < |ts.values|
      ensures GetValue(forecast, ts.values[i]) == Ok(Values(forecast)[i])
    {
      GetValueAtIndex(forecast, i);
    }
  }

  /** `power.get_value_index(i) <= cap_i` for every i. */
  function AvailabilityLimits(power: seq<Variable>, caps: seq<real>): (r: seq<Expr>)
    requires |power| == |caps|
    ensures |r| == |caps|
  {
    seq(|caps|, i requires 0 <= i < |caps| => Binary(Le, VarLeaf(power[i]), Const(caps[i])))
  }

  /** The series of one constant over the unit's timestamps. */
  function Flat(ts: Timestamps, c: real): TimeseriesModel
  {
    ConstantTimeseriesData(ts, c)
  }

  /** `RenewablePowerUnit`. */
  class RenewablePowerUnit {
    const data: ControlRenewableUnitData
    const power: TimeIndexVariable
    const powerConstraint: TimeIndexConstraint

    /** What `_generate_variables` and `_generate_constraint` leave behind. */
    ghost predicate Valid()
    {
      ValidTimestamps(data.timestamps) && power.Valid() && powerConstraint.Valid() && Wired()
    }

    /** What registration relies on: a bindable family and list, named and sized as construction leaves them. */
    ghost predicate Registrable()
    {
      power.Bindable() && powerConstraint.Bindable() &&
      power.name == data.name + "_power" && powerConstraint.name == data.name + "_available_power_limit" &&
      |power.elements| == |data.timestamps.values| && |powerConstraint.elements| == |data.timestamps.values|
    }

    /** How the variable and the cap list are named, sized and tied to the forecast. */
    ghost predicate Wired()
    {
      var ts := data.timestamps;
      power.name == data.name + "_power" &&
      power.bounds == BoundTimeseries(Flat(ts, data.powerBounds.min), Flat(ts, data.powerBounds.max)) &&
      power.initialValue == Flat(ts, 0.0) &&
      |power.elements| == |ts.values| &&
      powerConstraint.name == data.name + "_available_power_limit" &&
      powerConstraint.timestamps == ts &&
      ForecastValues(data.powerForecast, ts.values).Ok? &&
      powerConstraint.expressions == AvailabilityLimits(power.elements, ForecastValues(data.powerForecast, ts.values).value) &&
      |powerConstraint.elements| == |ts.values|
    }

    /** Every variable and every cap has its solver handle. */
    predicate Bound()
      reads power.elements, powerConstraint.elements
    {
      (forall i :: 0 <= i < |power.elements| ==> power.elements[i].handle.Some?) &&
      (forall i :: 0 <= i < |powerConstraint.elements| ==> powerConstraint.elements[i].handle.Some?)
    }

    /** Whether an engine accepts both names this builder registers. */
    predicate Admitted(engine: Engine)
      reads engine
    {
      engine.Admits(VariableKind, power.name) && engine.Admits(ConstraintKind, powerConstraint.name)
    }

    constructor Init(data: ControlRenewableUnitData, power: TimeIndexVariable, powerConstraint: TimeIndexConstraint)
      ensures this.data == data && this.power == power && this.powerConstraint == powerConstraint
    {
      this.data, this.power, this.powerConstraint := data, power, powerConstraint;
    }

    /**
     * `extend_optimisation_model`: register and bind the power variable,
     * then the cap list. A refused name stops the sequence where it happens.
     */
    method ExtendOptimisationModel(engine: Engine) returns (o: Outcome)
      requires Registrable()
      modifies engine, power, power.elements, powerConstraint, powerConstraint.elements
      ensures o.Pass? <==> old(Admitted(engine))
      ensures o.Fail? ==> o.error == DuplicateEngineValue
      ensures o.Pass? ==> Bound()
      ensures o.Pass? ==> engine.next == old(engine.next) + 2 * |data.timestamps.values|
      ensures o.Pass? ==> power.handle == Some(IndexHandle(old(engine.next), |data.timestamps.values|))
      ensures o.Pass? ==>
        powerConstraint.handle == Some(IndexHandle(old(engine.next) + |data.timestamps.values|, |data.timestamps.values|))
      ensures engine.parameters == old(engine.parameters)
      ensures o.Pass? ==> engine.variables == old(engine.variables) + [power.name]
      ensures o.Pass? ==> engine.constraints == old(engine.constraints) + [powerConstraint.name]
      ensures o.Fail? ==> engine.constraints == old(engine.constraints)
      ensures o.Fail? ==> engine.variables == old(engine.variables) +
                            if old(engine.Admits(VariableKind, power.name)) then [power.name] else []
    {
      assert |power.name| == |data.name| + 6;
      var h1 := engine.AddTimeIndexVariable(power.name, power.bounds, power.initialValue);
      if h1.Err? {
        return Fail(h1.error);
      }
      var o1 := power.SetOptimisationValue(h1.value);
      var exprs := powerConstraint.ElementExpressions();
      var h2 := engine.AddIndexConstraint(powerConstraint.name, exprs);
      if h2.Err? {
        return Fail(h2.error);
      }
      var o2 := powerConstraint.SetOptimisationValue(h2.value);
      return Pass;
    }
  }

  /**
   * The constructor: the bound series and the power variable, then one cap
   * per timestamp from the forecast. Equal or inverted bounds over a
   * non-empty horizon raise `AssertionError`; a forecast that does not
   * answer at some timestamp raises the error of the first failed lookup.
   */
  method NewRenewablePowerUnit(data: ControlRenewableUnitData) returns (r: Result<RenewablePowerUnit>)
    requires ValidTimestamps(data.timestamps)
    ensures r.Ok? <==>
      (|data.timestamps.values| == 0 || data.powerBounds.min < data.powerBounds.max) &&
      forall i :: 0 <= i < |data.timestamps.values| ==> GetValue(data.powerForecast, data.timestamps.values[i]).Ok?
    ensures r.Err? && !(|data.timestamps.values| == 0 || data.powerBounds.min < data.powerBounds.max) ==>
      r.error == AssertionError
    ensures r.Err? && (|data.timestamps.values| == 0 || data.powerBounds.min < data.powerBounds.max) ==>
      ForecastValues(data.powerForecast, data.timestamps.values).Err? &&
      r.error == ForecastValues(data.powerForecast, data.timestamps.values).error
    ensures r.Ok? ==> fresh(r.value) && r.value.Valid() && r.value.Registrable() && r.value.data == data
    ensures r.Ok? ==> r.value.power.handle == None && r.value.powerConstraint.handle == None
  {
    var ts := data.timestamps;
    ForecastValuesAt(data.powerForecast, ts.values);
    var pv := NewConstantBoundVariable(data.name + "_power", ts, data.powerBounds.min, data.powerBounds.max);
    if pv.Err? {
      return Err(pv.error);
    }
    var power := pv.value;
    var caps := ForecastValues(data.powerForecast, ts.values);
    if caps.Err? {
      return Err(caps.error);
    }
    var cv := NewTimeIndexConstraint(data.name + "_available_power_limit", ts, AvailabilityLimits(power.elements, caps.value));
    var unit := new RenewablePowerUnit.Init(data, power, cv.value);
    return Ok(unit);
  }

  /** Once bound, cap i holds exactly when the power at `t_i` is at most the forecast there. */
  lemma AvailabilityMeaning(u: RenewablePowerUnit, sol: Handle -> real, i: nat)
    requires u.Wired() && i < |u.data.timestamps.values| && u.power.elements[i].handle.Some?
    ensures GetValue(u.data.powerForecast, u.data.timestamps.values[i]).Ok?
    ensures Eval(u.powerConstraint.expressions[i], sol) == Ok(Truth(
      SolValue(u.power.elements[i], sol) <= GetValue(u.data.powerForecast, u.data.timestamps.values[i]).value))
  {
    ForecastValuesAt(u.data.powerForecast, u.data.timestamps.values);
  }

  /**
   * A solution that keeps the power variable within its bounds and
   * satisfies the cap at `t_i` never exceeds the smaller of the forecast and
   * the maximum power.
   */
  lemma FeasibleBelowCap(u: RenewablePowerUnit, sol: Handle -> real, i: nat)
    requires u.Valid() && i < |u.data.timestamps.values| && u.power.elements[i].handle.Some?
    requires SolValue(u.power.elements[i], sol) <= u.power.elements[i].bounds.1
    requires Eval(u.powerConstraint.expressions[i], sol) == Ok(Truth(true))
    ensures GetValue(u.data.powerForecast, u.data.timestamps.values[i]).Ok?
    ensures SolValue(u.power.elements[i], sol) <= GetValue(u.data.powerForecast, u.data.timestamps.values[i]).value
    ensures SolValue(u.power.elements[i], sol) <= u.data.powerBounds.max
  {
    AvailabilityMeaning(u, sol, i);
    var ts := u.data.timestamps.values;
    VariableSpecsAt(u.power.name, u.power.bounds, u.power.initialValue, ts, i);
    assert VariableSpecsOf(u.power.elements)[i] ==
      VariableSpec(u.power.elements[i].name, u.power.elements[i].bounds, u.power.elements[i].initialValue);
    TimestampIndexUnique(u.data.timestamps, ts[i], i);
  }

  /** With a forecast of 5 at `t_i`, power 5 meets the cap and power 6 breaks it. */
  lemma AvailabilityExample(u: RenewablePowerUnit, sol: Handle -> real, i: nat)
    requires u.Wired() && i < |u.data.timestamps.values| && u.power.elements[i].handle.Some?
    requires GetValue(u.data.powerForecast, u.data.timestamps.values[i]) == Ok(5.0)
    ensures SolValue(u.power.elements[i], sol) == 5.0 ==> Eval(u.powerConstraint.expressions[i], sol) == Ok(Truth(true))
    ensures SolValue(u.power.elements[i], sol) == 6.0 ==> Eval(u.powerConstraint.expressions[i], sol) == Ok(Truth(false))
  {
    AvailabilityMeaning(u, sol, i);
  }
}
