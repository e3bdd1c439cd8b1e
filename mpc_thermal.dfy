/**
 * The MPC thermal-generator builder of
 * src/control/mpc_model/component/thermal_unit.py: a power variable, two
 * auxiliary bound variables and a 0/1 switch per timestamp, tied together
 * by four constraint lists so that the power is either zero (switch off) or
 * within the power bounds (switch on).
 *
 * As written, the builder names three of its constraint lists
 * `<name>_ub_constraint` and registers the last two lists under the names
 * of the first two, so an engine that refuses duplicate names always
 * refuses the generator. `ownNames` selects the evidently intended naming
 * (`_power_lb_constraint`, `_power_ub_constraint`), and
 * `ExtendWithOwnNames` the registration of each list under its own name.
 */
module MpcThermal {
  import opened Wrappers
  import opened Timeseries
  import opened OptimisationScalar
  import opened OptimisationTimeIndex
  import opened OptimisationEngine

  /** `ControlThermalGeneratorData`; `current_switch_state` is carried but no constraint reads it. */
  datatype ControlThermalGeneratorData = ControlThermalGeneratorData(
    name: string, timestamps: Timestamps, powerBounds: Bounds, currentSwitchState: bool)

  /** The zero series over the timestamps, every variable's initial value. */
  function Zero(ts: Timestamps): TimeseriesModel
  {
    ConstantTimeseriesData(ts, 0.0)
  }

  /** `BoundTimeseries.constant_bound_timeseries(timestamps, 0, hi)` once it has passed its check. */
  function FromZero(ts: Timestamps, hi: real): BoundTimeseries
  {
    BoundTimeseries(Zero(ts), ConstantTimeseriesData(ts, hi))
  }

  /** `bound[t] == switch_state[t] * c`, with `Variable.__mul__` keeping the variable on the left. */
  function SwitchedBound(bound: Variable, switch: Variable, c: real): Expr
  {
    Binary(Eq, VarLeaf(bound), Binary(Mul, VarLeaf(switch), Const(c)))
  }

  /** One `SwitchedBound` per timestamp. */
  function SwitchedBounds(bound: seq<Variable>, switch: seq<Variable>, c: real): (r: seq<Expr>)
    requires |bound| == |switch|
    ensures |r| == |bound|
  {
    seq(|bound|, k requires 0 <= k < |bound| => SwitchedBound(bound[k], switch[k], c))
  }

  /** `power[t] >= power_lb[t]` for every timestamp. */
  function AtLeast(power: seq<Variable>, lb: seq<Variable>): (r: seq<Expr>)
    requires |power| == |lb|
    ensures |r| == |power|
  {
    seq(|power|, k requires 0 <= k < |power| => Binary(Ge, VarLeaf(power[k]), VarLeaf(lb[k])))
  }

  /** `power[t] <= power_ub[t]` for every timestamp. */
  function AtMost(power: seq<Variable>, ub: seq<Variable>): (r: seq<Expr>)
    requires |power| == |ub|
    ensures |r| == |power|
  {
    seq(|power|, k requires 0 <= k < |power| => Binary(Le, VarLeaf(power[k]), VarLeaf(ub[k])))
  }

  /** No object sits in both lists. */
  ghost predicate Apart<T>(a: seq<T>, b: seq<T>)
  {
    forall x :: x in a ==> x !in b
  }

  /** The suffix of the third list's name: as written, or as evidently intended. */
  function PowerLbSuffix(ownNames: bool): string
  {
    if ownNames then "_power_lb_constraint" else "_ub_constraint"
  }

  /** The suffix of the fourth list's name: as written, or as evidently intended. */
  function PowerUbSuffix(ownNames: bool): string
  {
    if ownNames then "_power_ub_constraint" else "_ub_constraint"
  }

  /**
   * Register one variable family (as a binary one when `binary`) and bind
   * it; a refused name leaves the family unbound.
   */
  method RegisterVariable(engine: Engine, x: TimeIndexVariable, binary: bool) returns (o: Outcome)
    requires x.Bindable()
    modifies engine, x, x.elements
    ensures o.Pass? <==> old(engine.Admits(VariableKind, x.name))
    ensures o.Fail? ==> o.error == DuplicateEngineValue && engine.next == old(engine.next)
    ensures o.Pass? ==> engine.variables == old(engine.variables) + [x.name]
    ensures o.Fail? ==> engine.variables == old(engine.variables)
    ensures o.Pass? ==> engine.next == old(engine.next) + |x.elements|
    ensures o.Pass? ==> x.handle == Some(IndexHandle(old(engine.next), |x.elements|))
    ensures o.Pass? ==> forall i :: 0 <= i < |x.elements| ==> x.elements[i].handle.Some?
    ensures engine.parameters == old(engine.parameters) && engine.constraints == old(engine.constraints)
    ensures engine.hasBinaryVariable == (old(engine.hasBinaryVariable) || binary)
  {
    var h;
    if binary {
      h := engine.AddTimeIndexBinaryVariable(x.name, x.initialValue);
    } else {
      h := engine.AddTimeIndexVariable(x.name, x.bounds, x.initialValue);
    }
    if h.Err? {
      return Fail(h.error);
    }
    o := x.SetOptimisationValue(h.value);
  }

  /** Register one constraint list under `name` and bind it; a refused name leaves the list unbound. */
  method RegisterConstraints(engine: Engine, x: TimeIndexConstraint, name: string) returns (o: Outcome)
    requires x.Bindable()
    modifies engine, x, x.elements
    ensures o.Pass? <==> old(engine.Admits(ConstraintKind, name))
    ensures o.Fail? ==> o.error == DuplicateEngineValue && engine.next == old(engine.next)
    ensures o.Pass? ==> engine.constraints == old(engine.constraints) + [name]
    ensures o.Fail? ==> engine.constraints == old(engine.constraints)
    ensures o.Pass? ==> engine.next == old(engine.next) + |x.elements|
    ensures o.Pass? ==> forall i :: 0 <= i < |x.elements| ==> x.elements[i].handle.Some?
    ensures engine.parameters == old(engine.parameters) && engine.variables == old(engine.variables)
    ensures engine.hasBinaryVariable == old(engine.hasBinaryVariable)
  {
    var h := engine.AddIndexConstraint(name, x.ElementExpressions());
    if h.Err? {
      return Fail(h.error);
    }
    o := x.SetOptimisationValue(h.value);
  }

  /** Bound handles on every element of a variable family. */
  predicate VariablesAllBound(xs: seq<Variable>)
    reads xs
  {
    forall i :: 0 <= i < |xs| ==> xs[i].handle.Some?
  }

  /** Bound handles on every element of a constraint list. */
  predicate ConstraintsAllBound(xs: seq<Constraint>)
    reads xs
  {
    forall i :: 0 <= i < |xs| ==> xs[i].handle.Some?
  }

  /** Four pairwise different names. */
  predicate Distinct4(a: string, b: string, c: string, d: string)
  {
    a != b && a != c && a != d && b != c && b != d && c != d
  }

  /** Four bindable variable families under different names, sharing no element. */
  ghost predicate VariableFamiliesReady(a: TimeIndexVariable, b: TimeIndexVariable, c: TimeIndexVariable, d: TimeIndexVariable)
  {
    a.Bindable() && b.Bindable() && c.Bindable() && d.Bindable() &&
    Distinct4(a.name, b.name, c.name, d.name) &&
    Apart(a.elements, b.elements) && Apart(a.elements, c.elements) && Apart(a.elements, d.elements) &&
    Apart(b.elements, c.elements) && Apart(b.elements, d.elements) && Apart(c.elements, d.elements)
  }

  /** Four bindable, different constraint lists sharing no element. */
  ghost predicate ConstraintListsReady(a: TimeIndexConstraint, b: TimeIndexConstraint, c: TimeIndexConstraint, d: TimeIndexConstraint)
  {
    a.Bindable() && b.Bindable() && c.Bindable() && d.Bindable() &&
    a != b && a != c && a != d && b != c && b != d && c != d &&
    Apart(a.elements, b.elements) && Apart(a.elements, c.elements) && Apart(a.elements, d.elements) &&
    Apart(b.elements, c.elements) && Apart(b.elements, d.elements) && Apart(c.elements, d.elements)
  }

  /** Two variable families registered and bound in turn, the second as a binary family when `binary`. */
  method RegisterVariablePair(engine: Engine, a: TimeIndexVariable, b: TimeIndexVariable, binary: bool)
    returns (o: Outcome)
    requires a.Bindable() && b.Bindable()
    requires a.name != b.name && Apart(a.elements, b.elements)
    modifies engine, a, a.elements, b, b.elements
    ensures o.Pass? <==> old(engine.Admits(VariableKind, a.name) && engine.Admits(VariableKind, b.name))
    ensures o.Fail? ==> o.error == DuplicateEngineValue
    ensures o.Pass? <==> Accepted(engine.rejectDuplicates, old(engine.variables), [a.name, b.name]) == 2
    ensures engine.variables == old(engine.variables) +
      [a.name, b.name][..Accepted(engine.rejectDuplicates, old(engine.variables), [a.name, b.name])]
    ensures engine.constraints == old(engine.constraints) && engine.parameters == old(engine.parameters)
    ensures o.Pass? ==> VariablesAllBound(a.elements) && VariablesAllBound(b.elements)
    ensures o.Pass? ==> engine.hasBinaryVariable == (old(engine.hasBinaryVariable) || binary)
    ensures o.Pass? ==> engine.next == old(engine.next) + |a.elements| + |b.elements|
  {
    ghost var names, held := [a.name, b.name], engine.variables;
    assert names[..0] == [];
    AcceptedNext(engine.rejectDuplicates, held, names, 0);
    o := RegisterVariable(engine, a, false);
    if o.Fail? {
      return;
    }
    assert names[..1] == [a.name];
    AcceptedNext(engine.rejectDuplicates, held, names, 1);
    o := RegisterVariable(engine, b, binary);
    assert names[..2] == names;
  }

  /**
   * Four variable families registered and bound in turn, the last as a
   * binary family; the first refused name stops the sequence.
   */
  method RegisterVariables(engine: Engine, a: TimeIndexVariable, b: TimeIndexVariable,
                           c: TimeIndexVariable, d: TimeIndexVariable) returns (o: Outcome)
    requires VariableFamiliesReady(a, b, c, d)
    modifies engine, a, a.elements, b, b.elements, c, c.elements, d, d.elements
    ensures o.Pass? <==> old(engine.Admits(VariableKind, a.name) && engine.Admits(VariableKind, b.name) &&
                            engine.Admits(VariableKind, c.name) && engine.Admits(VariableKind, d.name))
    ensures o.Fail? ==> o.error == DuplicateEngineValue
    ensures o.Pass? <==> Accepted(engine.rejectDuplicates, old(engine.variables), [a.name, b.name, c.name, d.name]) == 4
    ensures engine.variables == old(engine.variables) +
      [a.name, b.name, c.name, d.name][..Accepted(engine.rejectDuplicates, old(engine.variables), [a.name, b.name, c.name, d.name])]
    ensures engine.constraints == old(engine.constraints) && engine.parameters == old(engine.parameters)
    ensures o.Pass? ==> VariablesAllBound(a.elements) && VariablesAllBound(b.elements) && VariablesAllBound(c.elements) && VariablesAllBound(d.elements)
    ensures o.Pass? ==> engine.hasBinaryVariable
    ensures o.Pass? ==> engine.next == old(engine.next) + |a.elements| + |b.elements| + |c.elements| + |d.elements|
  {
    ghost var held := engine.variables;
    AcceptedAppend(engine.rejectDuplicates, held, [a.name, b.name], [c.name, d.name]);
    assert [a.name, b.name] + [c.name, d.name] == [a.name, b.name, c.name, d.name];
    o := RegisterVariablePair(engine, a, b, false);
    if o.Fail? {
      assert [a.name, b.name, c.name, d.name][..Accepted(engine.rejectDuplicates, held, [a.name, b.name])]
        == [a.name, b.name][..Accepted(engine.rejectDuplicates, held, [a.name, b.name])];
      return;
    }
    o := RegisterVariablePair(engine, c, d, true);
    ghost var k := Accepted(engine.rejectDuplicates, held + [a.name, b.name], [c.name, d.name]);
    assert [a.name, b.name, c.name, d.name][..2 + k] == [a.name, b.name] + [c.name, d.name][..k];
  }

  /** Four names registered in turn are all taken iff none is refused: each is new, and they differ pairwise when duplicates are refused. */
  lemma AcceptedFour(rejectDuplicates: bool, held: seq<string>, a: string, b: string, c: string, d: string)
    ensures Accepted(rejectDuplicates, held, [a, b, c, d]) == 4 <==>
      !rejectDuplicates || (Distinct4(a, b, c, d) && a !in held && b !in held && c !in held && d !in held)
  {
    var names := [a, b, c, d];
    AcceptedAllIff(rejectDuplicates, held, names);
    if rejectDuplicates && Accepted(rejectDuplicates, held, names) == 4 {
      assert names[0] != names[1] && names[0] != names[2] && names[0] != names[3];
      assert names[1] != names[2] && names[1] != names[3] && names[2] != names[3];
    }
  }

  /** Two constraint lists registered under `na` and `nb` and bound in turn. */
  method RegisterConstraintPair(engine: Engine, a: TimeIndexConstraint, b: TimeIndexConstraint, na: string, nb: string)
    returns (o: Outcome)
    requires a.Bindable() && b.Bindable() && a != b && Apart(a.elements, b.elements)
    modifies engine, a, a.elements, b, b.elements
    ensures o.Fail? ==> o.error == DuplicateEngineValue
    ensures o.Pass? <==> Accepted(engine.rejectDuplicates, old(engine.constraints), [na, nb]) == 2
    ensures engine.constraints == old(engine.constraints) +
      [na, nb][..Accepted(engine.rejectDuplicates, old(engine.constraints), [na, nb])]
    ensures engine.variables == old(engine.variables) && engine.parameters == old(engine.parameters)
    ensures engine.hasBinaryVariable == old(engine.hasBinaryVariable)
    ensures o.Pass? ==> ConstraintsAllBound(a.elements) && ConstraintsAllBound(b.elements)
    ensures o.Pass? ==> engine.next == old(engine.next) + |a.elements| + |b.elements|
  {
    ghost var names, held := [na, nb], engine.constraints;
    assert names[..0] == [];
    AcceptedNext(engine.rejectDuplicates, held, names, 0);
    o := RegisterConstraints(engine, a, na);
    if o.Fail? {
      return;
    }
    assert names[..1] == [na];
    AcceptedNext(engine.rejectDuplicates, held, names, 1);
    o := RegisterConstraints(engine, b, nb);
    assert names[..2] == names;
  }

  /**
   * Four constraint lists registered under the names `na` … `nd` and bound in
   * turn; the first refused name stops the sequence. A duplicate-refusing
   * engine takes all four only under four distinct names.
   */
  method RegisterConstraintLists(engine: Engine, a: TimeIndexConstraint, b: TimeIndexConstraint,
                                 c: TimeIndexConstraint, d: TimeIndexConstraint,
                                 na: string, nb: string, nc: string, nd: string) returns (o: Outcome)
    requires ConstraintListsReady(a, b, c, d)
    modifies engine, a, a.elements, b, b.elements, c, c.elements, d, d.elements
    ensures o.Fail? ==> o.error == DuplicateEngineValue
    ensures o.Pass? ==> old(engine.Admits(ConstraintKind, na) && engine.Admits(ConstraintKind, nb) &&
                            engine.Admits(ConstraintKind, nc) && engine.Admits(ConstraintKind, nd))
    ensures o.Pass? && engine.rejectDuplicates ==> Distinct4(na, nb, nc, nd)
    ensures !engine.rejectDuplicates ==> o.Pass?
    ensures (Distinct4(na, nb, nc, nd) && old(engine.Admits(ConstraintKind, na) && engine.Admits(ConstraintKind, nb) &&
      engine.Admits(ConstraintKind, nc) && engine.Admits(ConstraintKind, nd))) ==> o.Pass?
    ensures engine.hasBinaryVariable == old(engine.hasBinaryVariable)
    ensures o.Pass? ==> ConstraintsAllBound(a.elements) && ConstraintsAllBound(b.elements) &&
                        ConstraintsAllBound(c.elements) && ConstraintsAllBound(d.elements)
    ensures o.Pass? ==> engine.next == old(engine.next) + |a.elements| + |b.elements| + |c.elements| + |d.elements|
    ensures o.Pass? <==> Accepted(engine.rejectDuplicates, old(engine.constraints), [na, nb, nc, nd]) == 4
    ensures engine.constraints == old(engine.constraints) +
      [na, nb, nc, nd][..Accepted(engine.rejectDuplicates, old(engine.constraints), [na, nb, nc, nd])]
    ensures engine.variables == old(engine.variables) && engine.parameters == old(engine.parameters)
  {
    ghost var names, held := [na, nb, nc, nd], engine.constraints;
    AcceptedFour(engine.rejectDuplicates, held, na, nb, nc, nd);
    AcceptedAppend(engine.rejectDuplicates, held, [na, nb], [nc, nd]);
    assert [na, nb] + [nc, nd] == names;
    o := RegisterConstraintPair(engine, a, b, na, nb);
    if o.Fail? {
      assert names[..Accepted(engine.rejectDuplicates, held, [na, nb])]
        == [na, nb][..Accepted(engine.rejectDuplicates, held, [na, nb])];
      return;
    }
    o := RegisterConstraintPair(engine, c, d, nc, nd);
    ghost var k := Accepted(engine.rejectDuplicates, held + [na, nb], [nc, nd]);
    assert names[..2 + k] == [na, nb] + [nc, nd][..k];
  }

  /**
   * Four variable families and then four constraint lists, each under its
   * own name; the first refused name stops the sequence. With four distinct
   * list names the engine takes everything exactly when it accepts all
   * eight names.
   */
  method RegisterFamiliesAndLists(engine: Engine, a: TimeIndexVariable, b: TimeIndexVariable,
                                  c: TimeIndexVariable, d: TimeIndexVariable,
                                  ca: TimeIndexConstraint, cb: TimeIndexConstraint,
                                  cc: TimeIndexConstraint, cd: TimeIndexConstraint,
                                  na: string, nb: string, nc: string, nd: string) returns (o: Outcome)
    requires VariableFamiliesReady(a, b, c, d) && ConstraintListsReady(ca, cb, cc, cd)
    modifies engine, a, a.elements, b, b.elements, c, c.elements, d, d.elements
    modifies ca, ca.elements, cb, cb.elements, cc, cc.elements, cd, cd.elements
    ensures o.Pass? <==>
      Accepted(engine.rejectDuplicates, old(engine.variables), [a.name, b.name, c.name, d.name]) == 4 &&
      Accepted(engine.rejectDuplicates, old(engine.constraints), [na, nb, nc, nd]) == 4
    ensures Distinct4(na, nb, nc, nd) ==>
      (o.Pass? <==> old(engine.Admits(VariableKind, a.name) && engine.Admits(VariableKind, b.name) &&
                        engine.Admits(VariableKind, c.name) && engine.Admits(VariableKind, d.name) &&
                        engine.Admits(ConstraintKind, na) && engine.Admits(ConstraintKind, nb) &&
                        engine.Admits(ConstraintKind, nc) && engine.Admits(ConstraintKind, nd)))
    ensures o.Fail? ==> o.error == DuplicateEngineValue
    ensures o.Pass? ==> VariablesAllBound(a.elements) && VariablesAllBound(b.elements) &&
                        VariablesAllBound(c.elements) && VariablesAllBound(d.elements)
    ensures o.Pass? ==> ConstraintsAllBound(ca.elements) && ConstraintsAllBound(cb.elements) &&
                        ConstraintsAllBound(cc.elements) && ConstraintsAllBound(cd.elements)
    ensures o.Pass? ==> engine.hasBinaryVariable
    ensures o.Pass? ==> engine.next == old(engine.next) + |a.elements| + |b.elements| + |c.elements| + |d.elements|
                                       + |ca.elements| + |cb.elements| + |cc.elements| + |cd.elements|
    ensures engine.parameters == old(engine.parameters)
    ensures engine.variables == old(engine.variables) +
      [a.name, b.name, c.name, d.name][..Accepted(engine.rejectDuplicates, old(engine.variables), [a.name, b.name, c.name, d.name])]
    ensures engine.constraints == old(engine.constraints) +
      if Accepted(engine.rejectDuplicates, old(engine.variables), [a.name, b.name, c.name, d.name]) < 4 then []
      else [na, nb, nc, nd][..Accepted(engine.rejectDuplicates, old(engine.constraints), [na, nb, nc, nd])]
  {
    AcceptedFour(engine.rejectDuplicates, engine.variables, a.name, b.name, c.name, d.name);
    AcceptedFour(engine.rejectDuplicates, engine.constraints, na, nb, nc, nd);
    o := RegisterVariables(engine, a, b, c, d);
    if o.Fail? {
      return;
    }
    o := RegisterConstraintLists(engine, ca, cb, cc, cd, na, nb, nc, nd);
  }

  /** `ControlThermalGenerator`. */
  class ControlThermalGenerator {
    const data: ControlThermalGeneratorData
    const ownNames: bool
    const powerLb: TimeIndexVariable
    const powerUb: TimeIndexVariable
    const power: TimeIndexVariable
    const switchState: TimeIndexVariable
    const lbConstraint: TimeIndexConstraint
    const ubConstraint: TimeIndexConstraint
    const powerLbConstraint: TimeIndexConstraint
    const powerUbConstraint: TimeIndexConstraint

    /** What `_generate_variables` and `_generate_constraint` leave behind. */
    ghost predicate Valid()
    {
      ValidTimestamps(data.timestamps) && Named() && Shaped() && Linked() && Registrable() && PartsValid()
    }

    /** Each family and list matches its construction comprehension. */
    ghost predicate PartsValid()
    {
      power.Valid() && powerLb.Valid() && powerUb.Valid() && switchState.Valid() &&
      lbConstraint.Valid() && ubConstraint.Valid() && powerLbConstraint.Valid() && powerUbConstraint.Valid()
    }

    /** What registration relies on: well-formed, separate parts of one size, and distinct list names where meant. */
    ghost predicate Registrable()
    {
      VariableFamiliesReady(power, powerLb, powerUb, switchState) &&
      ConstraintListsReady(lbConstraint, ubConstraint, powerLbConstraint, powerUbConstraint) &&
      Sized() && lbConstraint.name != ubConstraint.name &&
      (ownNames ==> Distinct4(lbConstraint.name, ubConstraint.name, powerLbConstraint.name, powerUbConstraint.name))
    }

    /** One element per timestamp in every family and list. */
    predicate Sized()
    {
      var n := |data.timestamps.values|;
      |powerLb.elements| == n && |powerUb.elements| == n && |power.elements| == n && |switchState.elements| == n &&
      |lbConstraint.elements| == n && |ubConstraint.elements| == n &&
      |powerLbConstraint.elements| == n && |powerUbConstraint.elements| == n
    }

    /** The names `_generate_variables` and `_generate_constraint` give the parts. */
    ghost predicate Named()
    {
      powerLb.name == data.name + "_power_lb" && powerUb.name == data.name + "_power_ub" &&
      power.name == data.name + "_power" && switchState.name == data.name + "_switch_state" &&
      lbConstraint.name == data.name + "_lb_constraint" && ubConstraint.name == data.name + "_ub_constraint" &&
      powerLbConstraint.name == data.name + PowerLbSuffix(ownNames) &&
      powerUbConstraint.name == data.name + PowerUbSuffix(ownNames)
    }

    /** Every family and list spans the generator's timestamps, with bounds from zero and zero initial values. */
    ghost predicate Shaped()
    {
      var ts := data.timestamps;
      powerLb.bounds == FromZero(ts, data.powerBounds.min) && powerUb.bounds == FromZero(ts, data.powerBounds.max) &&
      power.bounds == FromZero(ts, data.powerBounds.max) && switchState.bounds == FromZero(ts, 1.0) &&
      powerLb.initialValue == Zero(ts) && powerUb.initialValue == Zero(ts) &&
      power.initialValue == Zero(ts) && switchState.initialValue == Zero(ts) &&
      lbConstraint.timestamps == ts && ubConstraint.timestamps == ts &&
      powerLbConstraint.timestamps == ts && powerUbConstraint.timestamps == ts
    }

    /** The four constraint lists over the variables, timestamp by timestamp. */
    ghost predicate Linked()
    {
      var n := |data.timestamps.values|;
      |powerLb.elements| == n && |powerUb.elements| == n && |power.elements| == n && |switchState.elements| == n &&
      lbConstraint.expressions == SwitchedBounds(powerLb.elements, switchState.elements, data.powerBounds.min) &&
      ubConstraint.expressions == SwitchedBounds(powerUb.elements, switchState.elements, data.powerBounds.max) &&
      powerLbConstraint.expressions == AtLeast(power.elements, powerLb.elements) &&
      powerUbConstraint.expressions == AtMost(power.elements, powerUb.elements)
    }

    /** Every variable of the four variable families has its solver handle. */
    predicate VariablesBound()
      reads powerLb.elements, powerUb.elements, power.elements, switchState.elements
    {
      VariablesAllBound(powerLb.elements) && VariablesAllBound(powerUb.elements) && VariablesAllBound(power.elements) && VariablesAllBound(switchState.elements)
    }

    /** Every constraint of the four constraint lists has its solver handle. */
    predicate ConstraintsBound()
      reads lbConstraint.elements, ubConstraint.elements, powerLbConstraint.elements, powerUbConstraint.elements
    {
      ConstraintsAllBound(lbConstraint.elements) && ConstraintsAllBound(ubConstraint.elements) &&
      ConstraintsAllBound(powerLbConstraint.elements) && ConstraintsAllBound(powerUbConstraint.elements)
    }

    /** The variable names in registration order. */
    function VariableNames(): seq<string>
    {
      [power.name, powerLb.name, powerUb.name, switchState.name]
    }

    /** The names the four lists are registered under as written: the first two names, twice. */
    function WrittenListNames(): seq<string>
    {
      [lbConstraint.name, ubConstraint.name, lbConstraint.name, ubConstraint.name]
    }

    /** Each list under its own name. */
    function OwnListNames(): seq<string>
    {
      [lbConstraint.name, ubConstraint.name, powerLbConstraint.name, powerUbConstraint.name]
    }

    /** Whether an engine accepts the four variable names. */
    predicate AdmitsVariables(engine: Engine)
      reads engine
    {
      engine.Admits(VariableKind, power.name) && engine.Admits(VariableKind, powerLb.name) &&
      engine.Admits(VariableKind, powerUb.name) && engine.Admits(VariableKind, switchState.name)
    }

    /** Whether an engine accepts the four list names. */
    predicate AdmitsListNames(engine: Engine)
      reads engine
    {
      engine.Admits(ConstraintKind, lbConstraint.name) && engine.Admits(ConstraintKind, ubConstraint.name) &&
      engine.Admits(ConstraintKind, powerLbConstraint.name) && engine.Admits(ConstraintKind, powerUbConstraint.name)
    }

    /** Whether an engine accepts every family and every list under its own name. */
    predicate AdmitsOwnNames(engine: Engine)
      reads engine
    {
      AdmitsVariables(engine) && AdmitsListNames(engine)
    }

    constructor Init(data: ControlThermalGeneratorData, ownNames: bool,
                     powerLb: TimeIndexVariable, powerUb: TimeIndexVariable,
                     power: TimeIndexVariable, switchState: TimeIndexVariable,
                     lbConstraint: TimeIndexConstraint, ubConstraint: TimeIndexConstraint,
                     powerLbConstraint: TimeIndexConstraint, powerUbConstraint: TimeIndexConstraint)
      ensures this.data == data && this.ownNames == ownNames
      ensures this.powerLb == powerLb && this.powerUb == powerUb && this.power == power && this.switchState == switchState
      ensures this.lbConstraint == lbConstraint && this.ubConstraint == ubConstraint
      ensures this.powerLbConstraint == powerLbConstraint && this.powerUbConstraint == powerUbConstraint
    {
      this.data, this.ownNames := data, ownNames;
      this.powerLb, this.powerUb, this.power, this.switchState := powerLb, powerUb, power, switchState;
      this.lbConstraint, this.ubConstraint := lbConstraint, ubConstraint;
      this.powerLbConstraint, this.powerUbConstraint := powerLbConstraint, powerUbConstraint;
    }

    /**
     * `extend_optimisation_model` as written: power, power_lb, power_ub and
     * the binary switch, then lb under its name, ub under its name, power_lb
     * under lb's name and power_ub under ub's name. A duplicate-refusing
     * engine therefore always refuses the generator; any other engine takes
     * all of it.
     */
    method ExtendOptimisationModel(engine: Engine) returns (o: Outcome)
      requires Registrable()
      modifies engine, power, power.elements, powerLb, powerLb.elements
      modifies powerUb, powerUb.elements, switchState, switchState.elements
      modifies lbConstraint, lbConstraint.elements, ubConstraint, ubConstraint.elements
      modifies powerLbConstraint, powerLbConstraint.elements, powerUbConstraint, powerUbConstraint.elements
      ensures engine.rejectDuplicates ==> o == Fail(DuplicateEngineValue)
      ensures !engine.rejectDuplicates ==> o.Pass? && VariablesBound() && ConstraintsBound() && engine.hasBinaryVariable
      ensures !engine.rejectDuplicates ==> engine.next == old(engine.next) + 8 * |data.timestamps.values|
      ensures engine.parameters == old(engine.parameters)
      ensures engine.variables == old(engine.variables) +
        VariableNames()[..Accepted(engine.rejectDuplicates, old(engine.variables), VariableNames())]
      ensures engine.constraints == old(engine.constraints) +
        if Accepted(engine.rejectDuplicates, old(engine.variables), VariableNames()) < 4 then []
        else WrittenListNames()[..Accepted(engine.rejectDuplicates, old(engine.constraints), WrittenListNames())]
    {
      AcceptedFour(engine.rejectDuplicates, engine.variables, power.name, powerLb.name, powerUb.name, switchState.name);
      AcceptedFour(engine.rejectDuplicates, engine.constraints,
        lbConstraint.name, ubConstraint.name, lbConstraint.name, ubConstraint.name);
      o := RegisterFamiliesAndLists(engine, power, powerLb, powerUb, switchState,
        lbConstraint, ubConstraint, powerLbConstraint, powerUbConstraint,
        lbConstraint.name, ubConstraint.name, lbConstraint.name, ubConstraint.name);
    }

    /**
     * The evidently intended `extend_optimisation_model`: every list under
     * its own name. With distinct names the generator is accepted exactly
     * when the engine accepts all eight names.
     */
    method ExtendWithOwnNames(engine: Engine) returns (o: Outcome)
      requires Registrable() && ownNames
      modifies engine, power, power.elements, powerLb, powerLb.elements
      modifies powerUb, powerUb.elements, switchState, switchState.elements
      modifies lbConstraint, lbConstraint.elements, ubConstraint, ubConstraint.elements
      modifies powerLbConstraint, powerLbConstraint.elements, powerUbConstraint, powerUbConstraint.elements
      ensures o.Pass? <==> old(AdmitsOwnNames(engine))
      ensures o.Fail? ==> o.error == DuplicateEngineValue
      ensures o.Pass? ==> VariablesBound() && ConstraintsBound() && engine.hasBinaryVariable
      ensures o.Pass? ==> engine.next == old(engine.next) + 8 * |data.timestamps.values|
      ensures engine.parameters == old(engine.parameters)
      ensures engine.variables == old(engine.variables) +
        VariableNames()[..Accepted(engine.rejectDuplicates, old(engine.variables), VariableNames())]
      ensures engine.constraints == old(engine.constraints) +
        if Accepted(engine.rejectDuplicates, old(engine.variables), VariableNames()) < 4 then []
        else OwnListNames()[..Accepted(engine.rejectDuplicates, old(engine.constraints), OwnListNames())]
    {
      o := RegisterFamiliesAndLists(engine, power, powerLb, powerUb, switchState,
        lbConstraint, ubConstraint, powerLbConstraint, powerUbConstraint,
        lbConstraint.name, ubConstraint.name, powerLbConstraint.name, powerUbConstraint.name);
    }
  }

  /**
   * The variable names differ from each other; the list names differ when
   * each list has its own name, and as written the third and fourth lists
   * are registered under the first two lists' names.
   */
  lemma NamesDistinct(g: ControlThermalGenerator)
    requires g.Named()
    ensures Distinct4(g.power.name, g.powerLb.name, g.powerUb.name, g.switchState.name)
    ensures g.lbConstraint.name != g.ubConstraint.name
    ensures g.ownNames ==>
      Distinct4(g.lbConstraint.name, g.ubConstraint.name, g.powerLbConstraint.name, g.powerUbConstraint.name)
  {
    var n := |g.data.name|;
    assert |g.power.name| == n + 6 && |g.switchState.name| == n + 13;
    assert |g.powerLb.name| == n + 9 && |g.powerUb.name| == n + 9;
    assert g.powerLb.name[n + 7] == 'l' && g.powerUb.name[n + 7] == 'u';
    assert g.lbConstraint.name[n + 1] == 'l' && g.ubConstraint.name[n + 1] == 'u';
    if g.ownNames {
      assert |g.lbConstraint.name| == n + 14 && |g.powerLbConstraint.name| == n + 20;
      assert |g.ubConstraint.name| == n + 14 && |g.powerUbConstraint.name| == n + 20;
      assert g.powerLbConstraint.name[n + 7] == 'l' && g.powerUbConstraint.name[n + 7] == 'u';
    }
  }

  /**
   * The constructor (`ownNames` false) and its evidently intended variant
   * (`ownNames` true): the four variables, each with bounds from zero, then
   * the four constraint lists over the same timestamps. Bounds from zero
   * to a non-positive minimum or maximum over a non-empty horizon raise
   * `AssertionError`, so a generator whose minimum power is 0 cannot be
   * built.
   */
  method NewControlThermalGenerator(data: ControlThermalGeneratorData, ownNames: bool)
    returns (r: Result<ControlThermalGenerator>)
    requires ValidTimestamps(data.timestamps)
    ensures r.Ok? <==> |data.timestamps.values| == 0 || (0.0 < data.powerBounds.min && 0.0 < data.powerBounds.max)
    ensures r.Err? ==> r.error == AssertionError
    ensures r.Ok? ==> fresh(r.value) && r.value.Valid() && r.value.data == data && r.value.ownNames == ownNames
  {
    var ts := data.timestamps;
    var lo, hi := data.powerBounds.min, data.powerBounds.max;
    var powerLb := NewConstantBoundVariable(data.name + "_power_lb", ts, 0.0, lo);
    if powerLb.Err? {
      return Err(powerLb.error);
    }
    var powerUb := NewConstantBoundVariable(data.name + "_power_ub", ts, 0.0, hi);
    if powerUb.Err? {
      return Err(powerUb.error);
    }
    var power := NewConstantBoundVariable(data.name + "_power", ts, 0.0, hi);
    var switchState := NewConstantBoundVariable(data.name + "_switch_state", ts, 0.0, 1.0);
    var lb, ub, p, sw := powerLb.value, powerUb.value, power.value, switchState.value;
    var lbC := NewTimeIndexConstraint(data.name + "_lb_constraint", ts, SwitchedBounds(lb.elements, sw.elements, lo));
    var ubC := NewTimeIndexConstraint(data.name + "_ub_constraint", ts, SwitchedBounds(ub.elements, sw.elements, hi));
    var plbC := NewTimeIndexConstraint(data.name + PowerLbSuffix(ownNames), ts, AtLeast(p.elements, lb.elements));
    var pubC := NewTimeIndexConstraint(data.name + PowerUbSuffix(ownNames), ts, AtMost(p.elements, ub.elements));
    var g := new ControlThermalGenerator.Init(data, ownNames, lb, ub, p, sw,
      lbC.value, ubC.value, plbC.value, pubC.value);
    NamesDistinct(g);
    return Ok(g);
  }

  /** Once bound, switched-bound constraint k holds exactly when `bound = switch · c` for the solver values at k. */
  lemma SwitchedBoundsEval(bound: seq<Variable>, switch: seq<Variable>, c: real, sol: Handle -> real, k: nat)
    requires |bound| == |switch| && k < |bound| && bound[k].handle.Some? && switch[k].handle.Some?
    ensures Eval(SwitchedBounds(bound, switch, c)[k], sol).Ok?
    ensures Eval(SwitchedBounds(bound, switch, c)[k], sol).value ==
      Truth(SolValue(bound[k], sol) == SolValue(switch[k], sol) * c)
  {
    assert SwitchedBounds(bound, switch, c)[k] == SwitchedBound(bound[k], switch[k], c);
    var m := Binary(Mul, VarLeaf(switch[k]), Const(c));
    assert Eval(m, sol).Ok? && Eval(m, sol).value == Num(SolValue(switch[k], sol) * c);
  }

  /** Once bound, constraint k of `AtLeast` holds exactly when `power >= lb` for the solver values at k. */
  lemma AtLeastEval(power: seq<Variable>, lb: seq<Variable>, sol: Handle -> real, k: nat)
    requires |power| == |lb| && k < |power| && power[k].handle.Some? && lb[k].handle.Some?
    ensures Eval(AtLeast(power, lb)[k], sol) == Ok(Truth(SolValue(power[k], sol) >= SolValue(lb[k], sol)))
  {
    assert AtLeast(power, lb)[k] == Binary(Ge, VarLeaf(power[k]), VarLeaf(lb[k]));
  }

  /** Once bound, constraint k of `AtMost` holds exactly when `power <= ub` for the solver values at k. */
  lemma AtMostEval(power: seq<Variable>, ub: seq<Variable>, sol: Handle -> real, k: nat)
    requires |power| == |ub| && k < |power| && power[k].handle.Some? && ub[k].handle.Some?
    ensures Eval(AtMost(power, ub)[k], sol) == Ok(Truth(SolValue(power[k], sol) <= SolValue(ub[k], sol)))
  {
    assert AtMost(power, ub)[k] == Binary(Le, VarLeaf(power[k]), VarLeaf(ub[k]));
  }

  /**
   * Unit commitment: when all four constraints at timestamp k hold and the
   * switch is 0 or 1, the power is 0 with the switch off and within
   * `[min, max]` with it on.
   */
  lemma Commitment(g: ControlThermalGenerator, sol: Handle -> real, k: nat)
    requires g.Linked() && g.VariablesBound() && k < |g.data.timestamps.values|
    requires Eval(g.lbConstraint.expressions[k], sol) == Ok(Truth(true))
    requires Eval(g.ubConstraint.expressions[k], sol) == Ok(Truth(true))
    requires Eval(g.powerLbConstraint.expressions[k], sol) == Ok(Truth(true))
    requires Eval(g.powerUbConstraint.expressions[k], sol) == Ok(Truth(true))
    ensures SolValue(g.switchState.elements[k], sol) == 0.0 ==> SolValue(g.power.elements[k], sol) == 0.0
    ensures SolValue(g.switchState.elements[k], sol) == 1.0 ==>
      g.data.powerBounds.min <= SolValue(g.power.elements[k], sol) <= g.data.powerBounds.max
  {
    var lb, ub, p, sw := g.powerLb.elements, g.powerUb.elements, g.power.elements, g.switchState.elements;
    SwitchedBoundsEval(lb, sw, g.data.powerBounds.min, sol, k);
    SwitchedBoundsEval(ub, sw, g.data.powerBounds.max, sol, k);
    AtLeastEval(p, lb, sol, k);
    AtMostEval(p, ub, sol, k);
  }

  /**
   * The lists are built through `get_value_timestamp(t)`: the constraint the
   * list holds for timestamp `t` ties the variables the families hold for `t`.
   */
  lemma ConstraintsAtTimestamp(g: ControlThermalGenerator, k: nat)
    requires g.Valid() && k < |g.data.timestamps.values|
    ensures var t := g.data.timestamps.values[k];
      g.powerLb.GetValueTimestamp(t).Ok? && g.powerUb.GetValueTimestamp(t).Ok? &&
      g.power.GetValueTimestamp(t).Ok? && g.switchState.GetValueTimestamp(t).Ok? &&
      g.lbConstraint.GetValueTimestamp(t).Ok? && g.ubConstraint.GetValueTimestamp(t).Ok? &&
      g.lbConstraint.GetValueTimestamp(t).value.expression == SwitchedBound(
        g.powerLb.GetValueTimestamp(t).value, g.switchState.GetValueTimestamp(t).value, g.data.powerBounds.min) &&
      g.ubConstraint.GetValueTimestamp(t).value.expression == SwitchedBound(
        g.powerUb.GetValueTimestamp(t).value, g.switchState.GetValueTimestamp(t).value, g.data.powerBounds.max)
  {
    var ts := g.data.timestamps;
    var t := ts.values[k];
    TimestampIndexUnique(ts, t, k);
    ConstraintAtTimestamp(g.lbConstraint, k);
    ConstraintAtTimestamp(g.ubConstraint, k);
  }
}
