/**
 * The time-indexed expression nodes of
 * src/control/optimisation_engine/domain.py (`ITimeIndexBaseModel`
 * operators and `ITimeIndexExpression`): a node keeps the timestamps of
 * its left operand; its `value` unwraps both operands to one value per
 * timestamp (a number is broadcast), zips them and applies the operator
 * elementwise; `get_expression` zips the operands into one scalar node per
 * index instead.
 */
module TimeIndexExpression {
  import opened Wrappers
  import opened Timeseries
  import opened OptimisationScalar
  import opened OptimisationTimeIndex

  /** An operand of a time-indexed expression (`BaseTimeIndexModel`). */
  datatype TOperand =
    | TScalar(c: real)
    | TVar(v: TimeIndexVariable)
    | TParam(p: TimeIndexParameter)
    | TNode(op: Op, timestamps: Timestamps, left: TOperand, right: TOperand)

  /** The `timestamps` property of a family or a node. */
  function TimestampsOf(e: TOperand): Timestamps
    requires !e.TScalar?
  {
    match e
    case TVar(v) => v.Timestamps()
    case TParam(p) => p.Timestamps()
    case TNode(_, ts, _, _) => ts
  }

  /** The element objects an operand reaches. */
  function TObjects(e: TOperand): set<object>
  {
    match e
    case TScalar(_) => {}
    case TVar(v) => set x | x in v.elements :: x as object
    case TParam(p) => set x | x in p.elements :: x as object
    case TNode(_, _, a, b) => TObjects(a) + TObjects(b)
  }

  // ------------------------------------------------------------- operators

  /** `self OP other` for a family or node `self`: a node over `self`'s timestamps. */
  function TBinary(op: Op, self: TOperand, other: TOperand): TOperand
    requires !self.TScalar?
  {
    TNode(op, TimestampsOf(self), self, other)
  }

  /** `c OP self` for an arithmetic operator: `__rOP__` keeps `self` on the left, as in the scalar case. */
  function TReflected(op: Op, c: real, self: TOperand): TOperand
    requires !self.TScalar? && !IsComparison(op)
  {
    TNode(op, TimestampsOf(self), self, TScalar(c))
  }

  /** `__neg__`: multiplication by -1 over `self`'s timestamps. */
  function TNeg(self: TOperand): TOperand
    requires !self.TScalar?
  {
    TNode(Mul, TimestampsOf(self), self, TScalar(-1.0))
  }

  // ------------------------------------------------------------- values

  /** `[op(x, y) for x, y in zip(a, b)]`: truncates to the shorter list; the first division by zero raises. */
  function ZipApply(op: Op, a: seq<Value>, b: seq<Value>): (r: Result<seq<Value>>)
    ensures r.Ok? <==> forall i :: 0 <= i < |a| && i < |b| ==> Apply(op, a[i], b[i]).Ok?
    ensures r.Ok? ==> |r.value| == (if |a| < |b| then |a| else |b|)
    ensures r.Ok? ==> forall i :: 0 <= i < |r.value| ==> Ok(r.value[i]) == Apply(op, a[i], b[i])
    ensures r.Err? ==> r.error == ZeroDivisionError
  {
    if |a| == 0 || |b| == 0 then Ok([])
    else match Apply(op, a[0], b[0])
      case Err(e) => Err(e)
      case Ok(x) =>
        match ZipApply(op, a[1..], b[1..])
        case Err(e) => Err(e)
        case Ok(rest) =>
          assert forall i :: 1 <= i < |a| && i < |b| ==> a[i] == a[1..][i - 1] && b[i] == b[1..][i - 1];
          Ok([x] + rest)
  }

  /** Every element of a family is bound. */
  predicate VariablesBound(elems: seq<Variable>)
    reads elems
  {
    forall i :: 0 <= i < |elems| ==> elems[i].handle.Some?
  }

  predicate ParametersBound(elems: seq<Parameter>)
    reads elems
  {
    forall i :: 0 <= i < |elems| ==> elems[i].handle.Some?
  }

  /**
   * `_get_value` on an operand of a node over `n` timestamps: a number is
   * broadcast to `n` copies; a family or node of length `n` gives its
   * element values (`v.value.value` for a family, whose unbound element
   * raises "not created"); any other length gives `None`.
   */
  function Unwrap(e: TOperand, n: nat, sol: Handle -> real): (r: Result<Option<seq<Value>>>)
    reads TObjects(e)
    ensures r.Ok? && r.value.Some? ==> |r.value.value| == n
    decreases e, 1
  {
    match e
    case TScalar(c) => Ok(Some(seq(n, _ => Num(c))))
    case TVar(v) =>
      assert forall j :: 0 <= j < |v.elements| ==> v.elements[j] in v.elements;
      if |v.elements| != n then Ok(None)
      else if !VariablesBound(v.elements) then Err(NotCreated)
      else Ok(Some(seq(n, i requires 0 <= i < n && VariablesBound(v.elements) reads v.elements =>
                         Num(sol(v.elements[i].handle.value)))))
    case TParam(p) =>
      assert forall j :: 0 <= j < |p.elements| ==> p.elements[j] in p.elements;
      if |p.elements| != n then Ok(None)
      else if !ParametersBound(p.elements) then Err(NotCreated)
      else Ok(Some(seq(n, i requires 0 <= i < n && ParametersBound(p.elements) reads p.elements =>
                         Num(sol(p.elements[i].handle.value)))))
    case TNode(_, _, _, _) =>
      match TValue(e, sol)
      case Err(x) => Err(x)
      case Ok(xs) => if |xs| == n then Ok(Some(xs)) else Ok(None)
  }

  /**
   * The `value` of a node: left operand unwrapped first, then the right;
   * a `None` operand makes `zip` raise `TypeError`; otherwise the operator
   * is applied elementwise.
   */
  function TValue(e: TOperand, sol: Handle -> real): (r: Result<seq<Value>>)
    requires e.TNode?
    reads TObjects(e)
    ensures r.Ok? ==> |r.value| == |e.timestamps.values|
    decreases e, 0
  {
    var n := |e.timestamps.values|;
    match Unwrap(e.left, n, sol)
    case Err(x) => Err(x)
    case Ok(a) =>
      match Unwrap(e.right, n, sol)
      case Err(y) => Err(y)
      case Ok(b) =>
        if a.None? || b.None? then Err(TypeError)
        else ZipApply(e.op, a.value, b.value)
  }

  // ------------------------------------------------------------- get_expression

  /**
   * `_get_index_variable` followed by iteration: a number becomes one
   * constant per timestamp, a family yields its elements, and a node yields
   * the values of its current `value`.
   */
  function IndexedOperands(e: TOperand, n: nat, sol: Handle -> real): (r: Result<seq<Expr>>)
    reads TObjects(e)
  {
    match e
    case TScalar(c) => Ok(seq(n, _ => Const(c)))
    case TVar(v) => Ok(seq(|v.elements|, i requires 0 <= i < |v.elements| => VarLeaf(v.elements[i])))
    case TParam(p) => Ok(seq(|p.elements|, i requires 0 <= i < |p.elements| => ParamLeaf(p.elements[i])))
    case TNode(_, _, _, _) =>
      match TValue(e, sol)
      case Err(x) => Err(x)
      case Ok(xs) => Ok(seq(|xs|, i requires 0 <= i < |xs| => Const(Numeric(xs[i]))))
  }

  /**
   * `get_expression`: one scalar node per index, zipping the two indexed
   * operands; `zip` stops at the shorter one and never reads the right
   * operand when the left one is empty.
   */
  function GetExpression(e: TOperand, sol: Handle -> real): (r: Result<seq<Expr>>)
    requires e.TNode?
    reads TObjects(e)
  {
    var n := |e.timestamps.values|;
    match IndexedOperands(e.left, n, sol)
    case Err(x) => Err(x)
    case Ok(a) =>
      if |a| == 0 then Ok([])
      else match IndexedOperands(e.right, n, sol)
        case Err(y) => Err(y)
        case Ok(b) =>
          var m := if |a| < |b| then |a| else |b|;
          Ok(seq(m, i requires 0 <= i < m => Node(e.op, a[i], b[i])))
  }

  // ------------------------------------------------------------- properties

  /** `Apply` sees its operands only through their numeric view. */
  lemma ApplyNumeric(op: Op, a: Value, b: Value)
    ensures Apply(op, a, b) == Apply(op, Num(Numeric(a)), Num(Numeric(b)))
  {
  }

  /** An operand that unwraps to `n` values gives `n` scalar operands, each evaluating to the unwrapped value's number. */
  lemma OperandAgrees(e: TOperand, n: nat, sol: Handle -> real)
    requires Unwrap(e, n, sol).Ok? && Unwrap(e, n, sol).value.Some?
    ensures IndexedOperands(e, n, sol).Ok?
    ensures |IndexedOperands(e, n, sol).value| == n
    ensures forall i :: 0 <= i < n ==>
      Eval(IndexedOperands(e, n, sol).value[i], sol) == Ok(Num(Numeric(Unwrap(e, n, sol).value.value[i])))
  {
  }

  /** Scalar node i of `get_expression` evaluates to element i of the node's `value`. */
  lemma ElementAgrees(e: TOperand, sol: Handle -> real, i: nat)
    requires e.TNode? && TValue(e, sol).Ok? && i < |e.timestamps.values|
    ensures GetExpression(e, sol).Ok? && |GetExpression(e, sol).value| == |e.timestamps.values|
    ensures Eval(GetExpression(e, sol).value[i], sol) == Ok(TValue(e, sol).value[i])
  {
    var n := |e.timestamps.values|;
    OperandAgrees(e.left, n, sol);
    OperandAgrees(e.right, n, sol);
    var a := IndexedOperands(e.left, n, sol).value;
    var b := IndexedOperands(e.right, n, sol).value;
    var ua := Unwrap(e.left, n, sol).value.value;
    var ub := Unwrap(e.right, n, sol).value.value;
    assert GetExpression(e, sol).value[i] == Node(e.op, a[i], b[i]);
    assert Ok(TValue(e, sol).value[i]) == Apply(e.op, ua[i], ub[i]);
    ApplyNumeric(e.op, ua[i], ub[i]);
    assert Eval(Node(e.op, a[i], b[i]), sol) == Apply(e.op, Num(Numeric(ua[i])), Num(Numeric(ub[i])));
  }

  /**
   * The elementwise `value` of a node and its `get_expression` agree: when
   * the node evaluates, `get_expression` yields one scalar node per
   * timestamp, and node i evaluates to element i.
   */
  lemma GetExpressionAgrees(e: TOperand, sol: Handle -> real)
    requires e.TNode? && TValue(e, sol).Ok?
    ensures GetExpression(e, sol).Ok?
    ensures |GetExpression(e, sol).value| == |e.timestamps.values|
    ensures forall i :: 0 <= i < |e.timestamps.values| ==>
      Eval(GetExpression(e, sol).value[i], sol) == Ok(TValue(e, sol).value[i])
  {
    var n := |e.timestamps.values|;
    OperandAgrees(e.left, n, sol);
    OperandAgrees(e.right, n, sol);
    forall i | 0 <= i < n
      ensures Eval(GetExpression(e, sol).value[i], sol) == Ok(TValue(e, sol).value[i])
    {
      ElementAgrees(e, sol, i);
    }
  }

  /** A scalar operand is broadcast: `x + c` adds `c` at every timestamp. */
  lemma BroadcastScalar(x: TimeIndexVariable, c: real, sol: Handle -> real)
    requires |x.elements| == |x.Timestamps().values| && VariablesBound(x.elements)
    ensures TValue(TBinary(Add, TVar(x), TScalar(c)), sol).Ok?
    ensures forall i :: 0 <= i < |x.elements| ==>
      TValue(TBinary(Add, TVar(x), TScalar(c)), sol).value[i] == Num(sol(x.elements[i].handle.value) + c)
  {
  }

  /**
   * The time-indexed `__rsub__` and `__rtruediv__` repeat the scalar swap:
   * `c - x` subtracts `c` from every element of `x`, and `c / x` divides
   * every element by `c`.
   */
  lemma TReflectedSwapped(x: TimeIndexVariable, c: real, sol: Handle -> real)
    requires |x.elements| == |x.Timestamps().values| && VariablesBound(x.elements)
    ensures TValue(TReflected(Sub, c, TVar(x)), sol).Ok?
    ensures forall i :: 0 <= i < |x.elements| ==>
      TValue(TReflected(Sub, c, TVar(x)), sol).value[i] == Num(sol(x.elements[i].handle.value) - c)
    ensures c != 0.0 ==> TValue(TReflected(Div, c, TVar(x)), sol).Ok?
    ensures c != 0.0 ==> forall i :: 0 <= i < |x.elements| ==>
      TValue(TReflected(Div, c, TVar(x)), sol).value[i] == Num(sol(x.elements[i].handle.value) / c)
  {
  }

  /** An operand whose length differs from the node's timestamps unwraps to `None`, and `zip` then raises `TypeError`. */
  lemma WrongLengthIsTypeError(op: Op, ts: Timestamps, x: TimeIndexVariable, c: real, sol: Handle -> real)
    requires |x.elements| != |ts.values|
    ensures TValue(TNode(op, ts, TVar(x), TScalar(c)), sol) == Err(TypeError)
    ensures TValue(TNode(op, ts, TScalar(c), TVar(x)), sol) == Err(TypeError)
  {
  }

  /**
   * An unbound element inside a time-indexed node escapes as "not
   * created": unlike a scalar node, nothing renames it `UndefinedValueError`.
   */
  lemma UnboundElementNotCreated(op: Op, x: TimeIndexVariable, other: TOperand, sol: Handle -> real)
    requires |x.elements| == |x.Timestamps().values| && !VariablesBound(x.elements)
    ensures TValue(TBinary(op, TVar(x), other), sol) == Err(NotCreated)
  {
  }
}
