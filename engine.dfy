/**
 * The optimisation engine as the model builders see it
 * (src/control/optimisation_engine/interface.py): every `add_*` call
 * registers a named value and hands back solver handles that no earlier
 * call handed out. The solver behind the handles is not modelled.
 *
 * `rejectDuplicates` selects the name check of the cvxpy engine
 * (`_add_optimisation_value` in
 * src/control/optimisation_engine/cvx_engine/cvx_engine.py), which refuses a
 * second parameter, variable or constraint under a name already listed for
 * that kind; an engine without it accepts every name.
 */
module OptimisationEngine {
  import opened Wrappers
  import opened Timeseries
  import opened OptimisationScalar

  /** The three lists the engine keeps names in. */
  datatype Kind = ParameterKind | VariableKind | ConstraintKind

  /** Handles `a` and `b` share no solver value. */
  predicate Disjoint(a: IndexHandle, b: IndexHandle)
  {
    a.base + a.size <= b.base || b.base + b.size <= a.base
  }

  /** Two index handles with disjoint ranges never give out the same handle. */
  lemma DisjointHandles(a: IndexHandle, b: IndexHandle, i: nat, j: nat)
    requires Disjoint(a, b) && i < a.size && j < b.size
    ensures a.At(i).Ok? && b.At(j).Ok? && a.At(i).value != b.At(j).value
  {
  }

  /**
   * How many of `names`, registered one after another under one kind with
   * `held` already listed, an engine takes before its first refusal; every
   * name it takes joins the list the later names are checked against.
   */
  function Accepted(rejectDuplicates: bool, held: seq<string>, names: seq<string>): (r: nat)
    ensures r <= |names|
    decreases |names|
  {
    if |names| == 0 then 0
    else if rejectDuplicates && names[0] in held then 0
    else 1 + Accepted(rejectDuplicates, held + [names[0]], names[1..])
  }

  /** Registering `a` and then `b` takes `a`'s run first, and `b`'s only if all of `a` was taken. */
  lemma {:induction false} AcceptedAppend(rejectDuplicates: bool, held: seq<string>, a: seq<string>, b: seq<string>)
    ensures Accepted(rejectDuplicates, held, a + b) ==
      if Accepted(rejectDuplicates, held, a) < |a| then Accepted(rejectDuplicates, held, a)
      else |a| + Accepted(rejectDuplicates, held + a, b)
    decreases |a|
  {
    if |a| > 0 {
      assert (a + b)[0] == a[0] && (a + b)[1..] == a[1..] + b;
      assert held + [a[0]] + a[1..] == held + a;
      AcceptedAppend(rejectDuplicates, held + [a[0]], a[1..], b);
    } else {
      assert a + b == b && held + a == held;
    }
  }

  /** After `k` names were taken, name `k` is taken iff the list as it now stands admits it. */
  lemma AcceptedNext(rejectDuplicates: bool, held: seq<string>, names: seq<string>, k: nat)
    requires k < |names| && Accepted(rejectDuplicates, held, names[..k]) == k
    ensures rejectDuplicates && names[k] in held + names[..k] ==> Accepted(rejectDuplicates, held, names) == k
    ensures !(rejectDuplicates && names[k] in held + names[..k]) ==> Accepted(rejectDuplicates, held, names[..k + 1]) == k + 1
  {
    assert names == names[..k] + names[k..];
    AcceptedAppend(rejectDuplicates, held, names[..k], names[k..]);
    assert names[..k + 1] == names[..k] + [names[k]];
    AcceptedAppend(rejectDuplicates, held, names[..k], [names[k]]);
    assert names[k..][0] == names[k];
  }

  /**
   * The whole run is taken exactly when the engine accepts every name, or
   * when it refuses duplicates and the names are pairwise different and
   * none is listed yet.
   */
  lemma {:induction false} AcceptedAllIff(rejectDuplicates: bool, held: seq<string>, names: seq<string>)
    ensures Accepted(rejectDuplicates, held, names) == |names| <==>
      !rejectDuplicates ||
      ((forall i :: 0 <= i < |names| ==> names[i] !in held) &&
       (forall i, j :: 0 <= i < j < |names| ==> names[i] != names[j]))
    decreases |names|
  {
    if |names| > 0 {
      var rest := names[1..];
      AcceptedAllIff(rejectDuplicates, held + [names[0]], rest);
      assert forall i :: 1 <= i < |names| ==> names[i] == rest[i - 1];
    }
  }

  class Engine {
    const rejectDuplicates: bool
    /** The first solver value id not yet handed out. */
    var next: nat
    var parameters: seq<string>
    var variables: seq<string>
    var constraints: seq<string>
    /** Set by the binary-variable calls, which select the mixed-integer solver. */
    var hasBinaryVariable: bool

    constructor (rejectDuplicates: bool)
      ensures this.rejectDuplicates == rejectDuplicates && next == 0
      ensures parameters == [] && variables == [] && constraints == [] && !hasBinaryVariable
    {
      this.rejectDuplicates := rejectDuplicates;
      next := 0;
      parameters, variables, constraints := [], [], [];
      hasBinaryVariable := false;
    }

    /** The names registered so far for one kind of value. */
    function Names(kind: Kind): seq<string>
      reads this
    {
      match kind
      case ParameterKind => parameters
      case VariableKind => variables
      case ConstraintKind => constraints
    }

    /** Whether the engine would accept `name` for `kind` now. */
    predicate Admits(kind: Kind, name: string)
      reads this
    {
      !rejectDuplicates || name !in Names(kind)
    }

    /**
     * Registration: refuse a duplicate name with
     * `DuplicateOptimisationEngineValue` (leaving everything as it was),
     * else append the name and hand out the next `size` solver values.
     */
    method Register(kind: Kind, name: string, size: nat) returns (r: Result<IndexHandle>)
      modifies this
      ensures r.Ok? <==> old(Admits(kind, name))
      ensures r.Err? ==> r.error == DuplicateEngineValue && next == old(next) && Names(kind) == old(Names(kind))
      ensures r.Ok? ==> r.value == IndexHandle(old(next), size) && next == old(next) + size
      ensures r.Ok? ==> Names(kind) == old(Names(kind)) + [name]
      ensures kind != ParameterKind ==> parameters == old(parameters)
      ensures kind != VariableKind ==> variables == old(variables)
      ensures kind != ConstraintKind ==> constraints == old(constraints)
      ensures hasBinaryVariable == old(hasBinaryVariable)
    {
      if rejectDuplicates && name in Names(kind) {
        return Err(DuplicateEngineValue);
      }
      match kind {
        case ParameterKind => parameters := parameters + [name];
        case VariableKind => variables := variables + [name];
        case ConstraintKind => constraints := constraints + [name];
      }
      r := Ok(IndexHandle(next, size));
      next := next + size;
    }

    /** `add_parameter`: one fresh solver parameter. */
    method AddParameter(name: string) returns (r: Result<Handle>)
      modifies this
      ensures r.Ok? <==> old(Admits(ParameterKind, name))
      ensures r.Err? ==> r.error == DuplicateEngineValue && next == old(next)
      ensures r.Ok? ==> r.value == Handle(old(next)) && next == old(next) + 1
      ensures r.Ok? ==> parameters == old(parameters) + [name]
      ensures r.Err? ==> parameters == old(parameters)
      ensures variables == old(variables) && constraints == old(constraints)
    {
      var h := Register(ParameterKind, name, 1);
      r := h.MapOk((x: IndexHandle) => Handle(x.base));
    }

    /** `add_variable`: one fresh continuous solver variable. */
    method AddVariable(name: string) returns (r: Result<Handle>)
      modifies this
      ensures r.Ok? <==> old(Admits(VariableKind, name))
      ensures r.Err? ==> r.error == DuplicateEngineValue && next == old(next)
      ensures r.Ok? ==> r.value == Handle(old(next)) && next == old(next) + 1
      ensures r.Ok? ==> variables == old(variables) + [name]
      ensures r.Err? ==> variables == old(variables)
      ensures parameters == old(parameters) && constraints == old(constraints)
      ensures hasBinaryVariable == old(hasBinaryVariable)
    {
      var h := Register(VariableKind, name, 1);
      r := h.MapOk((x: IndexHandle) => Handle(x.base));
    }

    /** `add_binary_variable`: marks the model as mixed-integer before the name check, then one fresh variable. */
    method AddBinaryVariable(name: string) returns (r: Result<Handle>)
      modifies this
      ensures hasBinaryVariable
      ensures r.Ok? <==> old(Admits(VariableKind, name))
      ensures r.Err? ==> r.error == DuplicateEngineValue && next == old(next)
      ensures r.Ok? ==> r.value == Handle(old(next)) && next == old(next) + 1
      ensures r.Ok? ==> variables == old(variables) + [name]
      ensures r.Err? ==> variables == old(variables)
      ensures parameters == old(parameters) && constraints == old(constraints)
    {
      hasBinaryVariable := true;
      var h := Register(VariableKind, name, 1);
      r := h.MapOk((x: IndexHandle) => Handle(x.base));
    }

    /** `add_constraint`: one fresh solver constraint. */
    method AddConstraint(name: string, expression: Expr) returns (r: Result<Handle>)
      modifies this
      ensures r.Ok? <==> old(Admits(ConstraintKind, name))
      ensures r.Err? ==> r.error == DuplicateEngineValue && next == old(next)
      ensures r.Ok? ==> r.value == Handle(old(next)) && next == old(next) + 1
      ensures r.Ok? ==> constraints == old(constraints) + [name]
      ensures r.Err? ==> constraints == old(constraints)
      ensures parameters == old(parameters) && variables == old(variables)
    {
      var h := Register(ConstraintKind, name, 1);
      r := h.MapOk((x: IndexHandle) => Handle(x.base));
    }

    /** `add_timeindex_parameter`: one solver parameter per timestamp of the series. */
    method AddTimeIndexParameter(name: string, value: TimeseriesModel) returns (r: Result<IndexHandle>)
      modifies this
      ensures r.Ok? <==> old(Admits(ParameterKind, name))
      ensures r.Err? ==> r.error == DuplicateEngineValue && next == old(next)
      ensures r.Ok? ==> r.value == IndexHandle(old(next), |value.timestamps.values|) && next == r.value.base + r.value.size
      ensures r.Ok? ==> parameters == old(parameters) + [name]
      ensures r.Err? ==> parameters == old(parameters)
      ensures variables == old(variables) && constraints == old(constraints)
    {
      r := Register(ParameterKind, name, |value.timestamps.values|);
    }

    /** `add_timeindex_variable`: one solver variable per timestamp of the bound series. */
    method AddTimeIndexVariable(name: string, bound: BoundTimeseries, initialValue: TimeseriesModel)
      returns (r: Result<IndexHandle>)
      modifies this
      ensures r.Ok? <==> old(Admits(VariableKind, name))
      ensures r.Err? ==> r.error == DuplicateEngineValue && next == old(next)
      ensures r.Ok? ==> r.value == IndexHandle(old(next), |bound.Timestamps().values|) && next == r.value.base + r.value.size
      ensures r.Ok? ==> variables == old(variables) + [name]
      ensures r.Err? ==> variables == old(variables)
      ensures parameters == old(parameters) && constraints == old(constraints)
      ensures hasBinaryVariable == old(hasBinaryVariable)
    {
      r := Register(VariableKind, name, |bound.Timestamps().values|);
    }

    /** `add_timeindex_binary_variable`: marks the model as mixed-integer, then one 0/1 variable per timestamp. */
    method AddTimeIndexBinaryVariable(name: string, initialValue: TimeseriesModel) returns (r: Result<IndexHandle>)
      modifies this
      ensures hasBinaryVariable
      ensures r.Ok? <==> old(Admits(VariableKind, name))
      ensures r.Err? ==> r.error == DuplicateEngineValue && next == old(next)
      ensures r.Ok? ==> r.value == IndexHandle(old(next), |initialValue.timestamps.values|) && next == r.value.base + r.value.size
      ensures r.Ok? ==> variables == old(variables) + [name]
      ensures r.Err? ==> variables == old(variables)
      ensures parameters == old(parameters) && constraints == old(constraints)
    {
      hasBinaryVariable := true;
      r := Register(VariableKind, name, |initialValue.timestamps.values|);
    }

    /** `add_index_constraint`: one solver constraint per listed expression. */
    method AddIndexConstraint(name: string, expressions: seq<Expr>) returns (r: Result<IndexHandle>)
      modifies this
      ensures r.Ok? <==> old(Admits(ConstraintKind, name))
      ensures r.Err? ==> r.error == DuplicateEngineValue && next == old(next)
      ensures r.Ok? ==> r.value == IndexHandle(old(next), |expressions|) && next == r.value.base + r.value.size
      ensures r.Ok? ==> constraints == old(constraints) + [name]
      ensures r.Err? ==> constraints == old(constraints)
      ensures parameters == old(parameters) && variables == old(variables)
      ensures hasBinaryVariable == old(hasBinaryVariable)
    {
      r := Register(ConstraintKind, name, |expressions|);
    }
  }

  /** Registering the same name twice under a rejecting engine fails the second time, and changes nothing then. */
  method DuplicateRejected(name: string) returns (first: Result<IndexHandle>, second: Result<IndexHandle>)
    ensures first.Ok? && second == Err(DuplicateEngineValue)
  {
    var e := new Engine(true);
    first := e.Register(ConstraintKind, name, 2);
    second := e.Register(ConstraintKind, name, 3);
  }

  /** Successive registrations hand out disjoint handle ranges. */
  method SuccessiveDisjoint(e: Engine, a: string, b: string, m: nat, n: nat) returns (x: Result<IndexHandle>, y: Result<IndexHandle>)
    modifies e
    ensures x.Ok? && y.Ok? ==> Disjoint(x.value, y.value)
  {
    x := e.Register(VariableKind, a, m);
    y := e.Register(ConstraintKind, b, n);
  }
}
