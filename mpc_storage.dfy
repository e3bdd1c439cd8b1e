/**
 * The MPC storage builder of src/control/mpc_model/component/storage_unit.py:
 * a power and an energy variable per timestamp, the energy dynamics between
 * neighbouring timestamps, and the initial-energy constraint.
 */
module MpcStorage {
  import opened Wrappers
  import opened Timeseries
  import opened OptimisationScalar
  import opened OptimisationTimeIndex
  import opened OptimisationEngine

  /** `ControlStoragePowerPlantData`. */
  datatype ControlStoragePowerPlantData = ControlStoragePowerPlantData(
    name: string, timestamps: Timestamps, powerBounds: Bounds, energyBounds: Bounds, currentEnergy: real)

  /** The series of one constant over the storage timestamps. */
  function Flat(ts: Timestamps, c: real): TimeseriesModel
  {
    ConstantTimeseriesData(ts, c)
  }

  /** The bound series `BoundTimeseries(min=Constant(ts, b.min), max=Constant(ts, b.max))`. */
  function FlatBounds(ts: Timestamps, b: Bounds): BoundTimeseries
  {
    BoundTimeseries(Flat(ts, b.min), Flat(ts, b.max))
  }

  /**
   * Dynamics constraint i: `energy[i+1] == energy[i] - d * power[i] / 3600`
   * with `d = t[i+1] - t[i]`. The product `d * power[i]` is built by
   * `power[i].__rmul__(d)`, which keeps the variable on the left.
   */
  function DynamicsExpression(energy: seq<Variable>, power: seq<Variable>, ts: seq<int>, i: nat): Expr
    requires i + 1 < |ts| && |energy| == |ts| && |power| == |ts|
  {
    Binary(Eq, VarLeaf(energy[i + 1]),
      Binary(Sub, VarLeaf(energy[i]),
        Binary(Div, Reflected(Mul, (ts[i + 1] - ts[i]) as real, VarLeaf(power[i])), Const(3600.0))))
  }

  /** The comprehension over `enumerate(np.diff(timestamps))`: one constraint per neighbouring pair. */
  function DynamicsExpressions(energy: seq<Variable>, power: seq<Variable>, ts: seq<int>): (r: seq<Expr>)
    requires |energy| == |ts| && |power| == |ts|
    ensures |r| == if |ts| == 0 then 0 else |ts| - 1
  {
    if |ts| == 0 then []
    else seq(|ts| - 1, i requires 0 <= i < |ts| - 1 => DynamicsExpression(energy, power, ts, i))
  }

  /** `energy[0] == current_energy`. */
  function InitialEnergyExpression(energy: seq<Variable>, currentEnergy: real): Expr
    requires |energy| > 0
  {
    Binary(Eq, VarLeaf(energy[0]), Const(currentEnergy))
  }

  /** `ControlStoragePowerPlant`. */
  class ControlStoragePowerPlant {
    const data: ControlStoragePowerPlantData
    const power: TimeIndexVariable
    const energy: TimeIndexVariable
    const dynamics: TimeIndexConstraint
    const initialEnergy: Constraint

    /** What `_generate_variables` and `_generate_constraint` leave behind. */
    ghost predicate Valid()
    {
      ValidTimestamps(data.timestamps) && power.Valid() && energy.Valid() && dynamics.Valid() && Wired()
    }

    /** What registration relies on: bindable families and list, wired as construction leaves them. */
    ghost predicate Registrable()
    {
      power.Bindable() && energy.Bindable() && dynamics.Bindable() && Wired()
    }

    /** How the four parts are named, sized and tied together. */
    ghost predicate Wired()
    {
      var ts := data.timestamps.values;
      |ts| > 0 &&
      power.name == data.name + "_power" && energy.name == data.name + "_energy" &&
      power.bounds == FlatBounds(data.timestamps, data.powerBounds) &&
      energy.bounds == FlatBounds(data.timestamps, data.energyBounds) &&
      power.initialValue == Flat(data.timestamps, 0.0) && energy.initialValue == Flat(data.timestamps, 0.0) &&
      |power.elements| == |ts| && |energy.elements| == |ts| &&
      dynamics.name == data.name + "_dynamic_constraint" &&
      dynamics.timestamps == Timestamps(ts[..|ts| - 1]) &&
      dynamics.expressions == DynamicsExpressions(energy.elements, power.elements, ts) &&
      |dynamics.elements| == |ts| - 1 &&
      initialEnergy.name == data.name + "_initial_energy" &&
      initialEnergy.expression == InitialEnergyExpression(energy.elements, data.currentEnergy) &&
      (forall i, j :: 0 <= i < |ts| && 0 <= j < |ts| ==> power.elements[i] != energy.elements[j]) &&
      initialEnergy !in dynamics.elements
    }

    /** Every owned object has its solver handle. */
    predicate Bound()
      reads power.elements, energy.elements, dynamics.elements, initialEnergy
    {
      (forall i :: 0 <= i < |power.elements| ==> power.elements[i].handle.Some?) &&
      (forall i :: 0 <= i < |energy.elements| ==> energy.elements[i].handle.Some?) &&
      (forall i :: 0 <= i < |dynamics.elements| ==> dynamics.elements[i].handle.Some?) &&
      initialEnergy.handle.Some?
    }

    /** Whether an engine accepts all four names this builder registers. */
    predicate Admitted(engine: Engine)
      reads engine
    {
      engine.Admits(VariableKind, power.name) && engine.Admits(VariableKind, energy.name) &&
      engine.Admits(ConstraintKind, dynamics.name) && engine.Admits(ConstraintKind, initialEnergy.name)
    }

    constructor Init(data: ControlStoragePowerPlantData, power: TimeIndexVariable, energy: TimeIndexVariable,
                     dynamics: TimeIndexConstraint, initialEnergy: Constraint)
      ensures this.data == data && this.power == power && this.energy == energy
      ensures this.dynamics == dynamics && this.initialEnergy == initialEnergy
    {
      this.data, this.power, this.energy := data, power, energy;
      this.dynamics, this.initialEnergy := dynamics, initialEnergy;
    }

    /** The variable names in registration order. */
    function VariableNames(): seq<string>
    {
      [power.name, energy.name]
    }

    /** The constraint names in registration order. */
    function ConstraintNames(): seq<string>
    {
      [dynamics.name, initialEnergy.name]
    }

    /** The first half of `extend_optimisation_model`: register and bind power, then energy. */
    method ExtendVariables(engine: Engine) returns (o: Outcome)
      requires Registrable()
      modifies engine, power, power.elements, energy, energy.elements
      ensures o.Pass? <==> old(engine.Admits(VariableKind, power.name) && engine.Admits(VariableKind, energy.name))
      ensures o.Fail? ==> o.error == DuplicateEngineValue
      ensures engine.constraints == old(engine.constraints)
      ensures o.Pass? ==> engine.next == old(engine.next) + 2 * |data.timestamps.values|
      ensures o.Pass? ==> power.handle == Some(IndexHandle(old(engine.next), |data.timestamps.values|))
      ensures o.Pass? ==>
        energy.handle == Some(IndexHandle(old(engine.next) + |data.timestamps.values|, |data.timestamps.values|))
      ensures o.Pass? ==> forall i :: 0 <= i < |power.elements| ==> power.elements[i].handle.Some?
      ensures o.Pass? ==> forall i :: 0 <= i < |energy.elements| ==> energy.elements[i].handle.Some?
      ensures o.Pass? <==> Accepted(engine.rejectDuplicates, old(engine.variables), VariableNames()) == 2
      ensures engine.variables == old(engine.variables) +
        VariableNames()[..Accepted(engine.rejectDuplicates, old(engine.variables), VariableNames())]
      ensures engine.parameters == old(engine.parameters)
    {
      var n := |data.timestamps.values|;
      assert |power.name| == |data.name| + 6 && |energy.name| == |data.name| + 7;
      ghost var names, held := VariableNames(), engine.variables;
      assert names[..0] == [];
      AcceptedNext(engine.rejectDuplicates, held, names, 0);
      var h1 := engine.AddTimeIndexVariable(power.name, power.bounds, power.initialValue);
      if h1.Err? {
        return Fail(h1.error);
      }
      assert names[..1] == [power.name];
      AcceptedNext(engine.rejectDuplicates, held, names, 1);
      assert names[..2] == names;
      var o1 := power.SetOptimisationValue(h1.value);
      assert forall i :: 0 <= i < n ==> power.elements[i] !in energy.elements;
      var h2 := engine.AddTimeIndexVariable(energy.name, energy.bounds, energy.initialValue);
      if h2.Err? {
        return Fail(h2.error);
      }
      var o2 := energy.SetOptimisationValue(h2.value);
      return Pass;
    }

    /** The second half: register and bind the dynamics list, then the initial-energy constraint. */
    method ExtendConstraints(engine: Engine) returns (o: Outcome)
      requires Registrable()
      modifies engine, dynamics, dynamics.elements, initialEnergy
      ensures o.Pass? <==>
        old(engine.Admits(ConstraintKind, dynamics.name) && engine.Admits(ConstraintKind, initialEnergy.name))
      ensures o.Fail? ==> o.error == DuplicateEngineValue
      ensures o.Pass? ==> engine.next == old(engine.next) + |data.timestamps.values|
      ensures o.Pass? ==> forall i :: 0 <= i < |dynamics.elements| ==> dynamics.elements[i].handle.Some?
      ensures o.Pass? ==> initialEnergy.handle.Some?
      ensures o.Pass? <==> Accepted(engine.rejectDuplicates, old(engine.constraints), ConstraintNames()) == 2
      ensures engine.constraints == old(engine.constraints) +
        ConstraintNames()[..Accepted(engine.rejectDuplicates, old(engine.constraints), ConstraintNames())]
      ensures engine.variables == old(engine.variables) && engine.parameters == old(engine.parameters)
    {
      assert |dynamics.name| == |data.name| + 19 && |initialEnergy.name| == |data.name| + 15;
      ghost var names, held := ConstraintNames(), engine.constraints;
      assert names[..0] == [];
      AcceptedNext(engine.rejectDuplicates, held, names, 0);
      var exprs := dynamics.ElementExpressions();
      var h3 := engine.AddIndexConstraint(dynamics.name, exprs);
      if h3.Err? {
        return Fail(h3.error);
      }
      assert names[..1] == [dynamics.name];
      AcceptedNext(engine.rejectDuplicates, held, names, 1);
      assert names[..2] == names;
      var o3 := dynamics.SetOptimisationValue(h3.value);
      assert initialEnergy !in dynamics.elements;
      var h4 := engine.AddConstraint(initialEnergy.name, initialEnergy.expression);
      if h4.Err? {
        return Fail(h4.error);
      }
      initialEnergy.Bind(h4.value);
      return Pass;
    }

    /**
     * `extend_optimisation_model`: register and bind the power variable, the
     * energy variable, the dynamics list and the initial-energy constraint, in
     * that order. A refused name stops the sequence where it happens.
     */
    method ExtendOptimisationModel(engine: Engine) returns (o: Outcome)
      requires Registrable()
      modifies engine, power, power.elements, energy, energy.elements, dynamics, dynamics.elements, initialEnergy
      ensures o.Pass? <==> old(Admitted(engine))
      ensures o.Fail? ==> o.error == DuplicateEngineValue
      ensures o.Pass? ==> Bound()
      ensures o.Pass? ==> engine.next == old(engine.next) + 3 * |data.timestamps.values|
      ensures o.Pass? ==> power.handle == Some(IndexHandle(old(engine.next), |data.timestamps.values|))
      ensures o.Pass? ==>
        energy.handle == Some(IndexHandle(old(engine.next) + |data.timestamps.values|, |data.timestamps.values|))
      ensures engine.parameters == old(engine.parameters)
      ensures engine.variables == old(engine.variables) +
        VariableNames()[..Accepted(engine.rejectDuplicates, old(engine.variables), VariableNames())]
      ensures engine.constraints == old(engine.constraints) +
        if Accepted(engine.rejectDuplicates, old(engine.variables), VariableNames()) < 2 then []
        else ConstraintNames()[..Accepted(engine.rejectDuplicates, old(engine.constraints), ConstraintNames())]
    {
      o := ExtendVariables(engine);
      if o.Fail? {
        return;
      }
      o := ExtendConstraints(engine);
    }
  }

  /**
   * The constructor: bound series and variables for power, then energy,
   * then the dynamics over `timestamps.slice(0, n - 1)`, then
   * `energy[0] == current_energy`. Equal or inverted bounds over a
   * non-empty horizon raise `AssertionError`; an empty horizon reaches
   * `energy[0]` and raises `IndexError`.
   */
  method NewControlStoragePowerPlant(data: ControlStoragePowerPlantData) returns (r: Result<ControlStoragePowerPlant>)
    requires ValidTimestamps(data.timestamps)
    ensures r.Ok? <==>
      |data.timestamps.values| > 0 && data.powerBounds.min < data.powerBounds.max &&
      data.energyBounds.min < data.energyBounds.max
    ensures r.Err? ==> r.error == (if |data.timestamps.values| == 0 then IndexError else AssertionError)
    ensures r.Ok? ==> fresh(r.value) && r.value.Valid() && r.value.Registrable() && r.value.data == data
  {
    var ts := data.timestamps;
    var n := |ts.values|;
    var pv := NewConstantBoundVariable(data.name + "_power", ts, data.powerBounds.min, data.powerBounds.max);
    if pv.Err? {
      return Err(pv.error);
    }
    var power := pv.value;
    var ev := NewConstantBoundVariable(data.name + "_energy", ts, data.energyBounds.min, data.energyBounds.max);
    if ev.Err? {
      return Err(ev.error);
    }
    var energy := ev.value;
    var exprs := DynamicsExpressions(energy.elements, power.elements, ts.values);
    SlicePositiveStepValid(ts, 0, n - 1, 1);
    var sliced := Slice(ts, 0, n - 1, 1).value;
    if n > 0 {
      SliceUnitStep(ts.values, 0, n - 1);
    }
    var dv := NewTimeIndexConstraint(data.name + "_dynamic_constraint", sliced, exprs);
    var dynamics := dv.value;
    if n == 0 {
      return Err(IndexError);
    }
    var initial := new Constraint(data.name + "_initial_energy", InitialEnergyExpression(energy.elements, data.currentEnergy));
    var plant := new ControlStoragePowerPlant.Init(data, power, energy, dynamics, initial);
    return Ok(plant);
  }

  /** A node over two operands that evaluate to numbers applies its operator to them. */
  lemma EvalNumNode(op: Op, a: Expr, b: Expr, sol: Handle -> real, x: real, y: real)
    requires Eval(a, sol).Ok? && Eval(a, sol).value == Num(x) && Eval(b, sol).Ok? && Eval(b, sol).value == Num(y)
    ensures Eval(Node(op, a, b), sol) == Apply(op, Num(x), Num(y))
  {
  }

  /** Evaluating one dynamics expression over bound variables, one node at a time. */
  lemma DynamicsEval(e: seq<Variable>, p: seq<Variable>, ts: seq<int>, i: nat, sol: Handle -> real)
    requires i + 1 < |ts| && |e| == |ts| && |p| == |ts|
    requires e[i].handle.Some? && e[i + 1].handle.Some? && p[i].handle.Some?
    ensures Eval(DynamicsExpression(e, p, ts, i), sol).Ok?
    ensures Eval(DynamicsExpression(e, p, ts, i), sol).value == Truth(
      SolValue(e[i + 1], sol) == SolValue(e[i], sol) - SolValue(p[i], sol) * (ts[i + 1] - ts[i]) as real / 3600.0)
  {
    var x, d := SolValue(p[i], sol), (ts[i + 1] - ts[i]) as real;
    var now, next := SolValue(e[i], sol), SolValue(e[i + 1], sol);
    var pd := Node(Mul, VarLeaf(p[i]), Const(d));
    EvalNumNode(Mul, VarLeaf(p[i]), Const(d), sol, x, d);
    assert Apply(Mul, Num(x), Num(d)).value == Num(x * d);
    var q := Node(Div, pd, Const(3600.0));
    EvalNumNode(Div, pd, Const(3600.0), sol, x * d, 3600.0);
    assert Apply(Div, Num(x * d), Num(3600.0)).value == Num(x * d / 3600.0);
    var rhs := Node(Sub, VarLeaf(e[i]), q);
    EvalNumNode(Sub, VarLeaf(e[i]), q, sol, now, x * d / 3600.0);
    assert Apply(Sub, Num(now), Num(x * d / 3600.0)).value == Num(now - x * d / 3600.0);
    EvalNumNode(Eq, VarLeaf(e[i + 1]), rhs, sol, next, now - x * d / 3600.0);
    assert DynamicsExpression(e, p, ts, i) == Node(Eq, VarLeaf(e[i + 1]), rhs);
  }

  /**
   * Once bound, dynamics constraint i holds exactly when
   * `E[i+1] = E[i] - (t[i+1] - t[i]) · P[i] / 3600`: positive power drains
   * the store.
   */
  lemma DynamicsMeaning(s: ControlStoragePowerPlant, sol: Handle -> real, i: nat)
    requires s.Wired() && s.Bound() && i + 1 < |s.data.timestamps.values|
    ensures Eval(s.dynamics.expressions[i], sol).Ok?
    ensures Eval(s.dynamics.expressions[i], sol).value == Truth(
      SolValue(s.energy.elements[i + 1], sol) ==
      SolValue(s.energy.elements[i], sol) -
      SolValue(s.power.elements[i], sol) * (s.data.timestamps.values[i + 1] - s.data.timestamps.values[i]) as real / 3600.0)
  {
    var e, p, ts := s.energy.elements, s.power.elements, s.data.timestamps.values;
    assert e[i].handle.Some? && e[i + 1].handle.Some? && p[i].handle.Some?;
    assert s.dynamics.expressions[i] == DynamicsExpression(e, p, ts, i);
    DynamicsEval(e, p, ts, i, sol);
    var v := Eval(DynamicsExpression(e, p, ts, i), sol);
    assert v.Ok?;
    assert Eval(s.dynamics.expressions[i], sol) == v;
  }

  /** Power 6 over a 360-second step lowers the energy by 0.6 in a satisfied dynamics constraint. */
  lemma DynamicsExample(s: ControlStoragePowerPlant, sol: Handle -> real, i: nat)
    requires s.Wired() && s.Bound() && i + 1 < |s.data.timestamps.values|
    requires s.data.timestamps.values[i + 1] - s.data.timestamps.values[i] == 360
    requires SolValue(s.power.elements[i], sol) == 6.0
    requires Eval(s.dynamics.expressions[i], sol) == Ok(Truth(true))
    ensures SolValue(s.energy.elements[i + 1], sol) == SolValue(s.energy.elements[i], sol) - 0.6
  {
    DynamicsMeaning(s, sol, i);
  }

  /** Once bound, the initial-energy constraint holds exactly when `E[0]` is the measured energy. */
  lemma InitialEnergyMeaning(s: ControlStoragePowerPlant, sol: Handle -> real)
    requires s.Wired() && s.Bound()
    ensures Eval(s.initialEnergy.expression, sol) ==
      Ok(Truth(SolValue(s.energy.elements[0], sol) == s.data.currentEnergy))
  {
  }

  /** The dynamics constraints sit on the first `n - 1` timestamps, one per neighbouring pair. */
  lemma DynamicsShape(s: ControlStoragePowerPlant, k: nat)
    requires s.Valid() && k + 1 < |s.data.timestamps.values|
    ensures |s.dynamics.elements| == |s.data.timestamps.values| - 1
    ensures s.dynamics.elements[k].name == ElementName(s.dynamics.name, s.data.timestamps.values[k])
    ensures s.dynamics.elements[k].expression == DynamicsExpression(s.energy.elements, s.power.elements, s.data.timestamps.values, k)
  {
    assert ConstraintSpecsOf(s.dynamics.elements)[k] == ConstraintSpec(s.dynamics.elements[k].name, s.dynamics.elements[k].expression);
  }
}
