/**
 * The scalar half of the solver-independent optimisation layer
 * (src/control/optimisation_engine/domain.py and variable.py): the
 * declare-then-bind `Parameter`, `Variable`, `Constraint` and `Objective`
 * objects, the operator-overloaded expression tree built over them, and
 * its recursive evaluator.
 *
 * An engine handle (`IOptimisationVariable`) is an opaque `Handle`; what
 * the solver makes of it is given to the evaluator as an assignment
 * `sol: Handle -> real`, so that an expression denotes a number (or, for a
 * comparison, a truth value) once every leaf it mentions is bound.
 */
module OptimisationScalar {
  import opened Wrappers

  /** An engine-side scalar handle. */
  datatype Handle = Handle(id: nat)

  /** An engine-side index handle (`IOptimisationIndexVariable`): `size` handles with consecutive ids. */
  datatype IndexHandle = IndexHandle(base: nat, size: nat)
  {
    /** `handle[i]`: the i-th scalar handle, `IndexError` past the end. */
    function At(i: nat): (r: Result<Handle>)
      ensures r.Ok? <==> i < size
      ensures r.Ok? ==> r.value.id == base + i
      ensures r.Err? ==> r.error == IndexError
    {
      if i < size then Ok(Handle(base + i)) else Err(IndexError)
    }
  }

  /** What an evaluated expression holds: a number, or the truth value of a comparison. */
  datatype Value = Num(x: real) | Truth(b: bool)

  /** Python's numeric view of a value (`True` is 1, `False` is 0). */
  function Numeric(v: Value): real
  {
    match v
    case Num(x) => x
    case Truth(b) => if b then 1.0 else 0.0
  }

  /** The operators the expression classes implement. */
  datatype Op = Add | Sub | Mul | Div | Eq | Gt | Lt | Ge | Le

  predicate IsComparison(op: Op)
  {
    op == Eq || op == Gt || op == Lt || op == Ge || op == Le
  }

  /** One `value` property of an expression class, applied to its two operand values. */
  function Apply(op: Op, a: Value, b: Value): (r: Result<Value>)
    ensures r.Err? <==> op == Div && Numeric(b) == 0.0
    ensures r.Err? ==> r.error == ZeroDivisionError
    ensures r.Ok? ==> (r.value.Truth? <==> IsComparison(op))
  {
    var x, y := Numeric(a), Numeric(b);
    match op
    case Add => Ok(Num(x + y))
    case Sub => Ok(Num(x - y))
    case Mul => Ok(Num(x * y))
    case Div => if y == 0.0 then Err(ZeroDivisionError) else Ok(Num(x / y))
    case Eq => Ok(Truth(x == y))
    case Gt => Ok(Truth(x > y))
    case Lt => Ok(Truth(x < y))
    case Ge => Ok(Truth(x >= y))
    case Le => Ok(Truth(x <= y))
  }

  /** `Parameter`: a named number that the engine turns into a solver parameter. */
  class Parameter {
    const name: string
    const initial: real
    var handle: Option<Handle>

    constructor (name: string, value: real)
      ensures this.name == name && initial == value && handle == None
    {
      this.name, initial, handle := name, value, None;
    }

    /** The `value` property: the bound handle, else "parameter … is not created". */
    function Value(): (r: Result<Handle>)
      reads this
      ensures r.Ok? <==> handle.Some?
      ensures r.Ok? ==> r.value == handle.value
      ensures r.Err? ==> r.error == NotCreated
    {
      if handle.Some? then Ok(handle.value) else Err(NotCreated)
    }

    /** The `value` setter. */
    method Bind(h: Handle)
      modifies this
      ensures handle == Some(h)
    {
      handle := Some(h);
    }
  }

  /**
   * `Variable`: a named decision variable with a bound pair and an initial
   * value. Binding never touches the name, the bounds or the initial value
   * (they are constants here).
   */
  class Variable {
    const name: string
    const bounds: (real, real)
    const initialValue: real
    var handle: Option<Handle>

    constructor (name: string, bounds: (real, real), initialValue: real)
      ensures this.name == name && this.bounds == bounds && this.initialValue == initialValue
      ensures handle == None
    {
      this.name, this.bounds, this.initialValue, handle := name, bounds, initialValue, None;
    }

    /** The `value` property: the bound handle, else "Variable … is not created". */
    function Value(): (r: Result<Handle>)
      reads this
      ensures r.Ok? <==> handle.Some?
      ensures r.Ok? ==> r.value == handle.value
      ensures r.Err? ==> r.error == NotCreated
    {
      if handle.Some? then Ok(handle.value) else Err(NotCreated)
    }

    /** The `value` setter. */
    method Bind(h: Handle)
      modifies this
      ensures handle == Some(h)
    {
      handle := Some(h);
    }
  }

  /** `Objective`: a named objective expression, itself usable as an operand. */
  class Objective {
    const name: string
    const objective: Expr
    var handle: Option<Handle>

    constructor (name: string, objective: Expr)
      ensures this.name == name && this.objective == objective && handle == None
    {
      this.name, this.objective, handle := name, objective, None;
    }

    /** The `value` property: the bound handle, else "Objective … is not created". */
    function Value(): (r: Result<Handle>)
      reads this
      ensures r.Ok? <==> handle.Some?
      ensures r.Ok? ==> r.value == handle.value
      ensures r.Err? ==> r.error == NotCreated
    {
      if handle.Some? then Ok(handle.value) else Err(NotCreated)
    }

    /** The `value` setter. */
    method Bind(h: Handle)
      modifies this
      ensures handle == Some(h)
    {
      handle := Some(h);
    }
  }

  /** `Constraint`: a named comparison expression and its engine handle once registered. */
  class Constraint {
    const name: string
    const expression: Expr
    var handle: Option<Handle>

    constructor (name: string, expression: Expr)
      ensures this.name == name && this.expression == expression && handle == None
    {
      this.name, this.expression, handle := name, expression, None;
    }

    /** The `value` property: the bound handle, else "Constraint … is not created". */
    function Value(): (r: Result<Handle>)
      reads this
      ensures r.Ok? <==> handle.Some?
      ensures r.Ok? ==> r.value == handle.value
      ensures r.Err? ==> r.error == NotCreated
    {
      if handle.Some? then Ok(handle.value) else Err(NotCreated)
    }

    /** The `value` setter. */
    method Bind(h: Handle)
      modifies this
      ensures handle == Some(h)
    {
      handle := Some(h);
    }
  }

  /**
   * An operand or expression (`BaseVariable`): a number, one of the
   * bindable objects, or an expression node holding `(variable_1, variable_2)`.
   */
  datatype Expr =
    | Const(c: real)
    | ParamLeaf(p: Parameter)
    | VarLeaf(v: Variable)
    | ObjLeaf(o: Objective)
    | Node(op: Op, left: Expr, right: Expr)

  /** The bindable objects an expression mentions. */
  function Objects(e: Expr): set<object>
  {
    match e
    case Const(_) => {}
    case ParamLeaf(p) => {p}
    case VarLeaf(v) => {v}
    case ObjLeaf(o) => {o}
    case Node(_, a, b) => Objects(a) + Objects(b)
  }

  /** Every leaf object of the expression is bound. */
  predicate AllBound(e: Expr)
    reads Objects(e)
  {
    match e
    case Const(_) => true
    case ParamLeaf(p) => p.handle.Some?
    case VarLeaf(v) => v.handle.Some?
    case ObjLeaf(o) => o.handle.Some?
    case Node(_, a, b) => AllBound(a) && AllBound(b)
  }

  /** `_get_variable_values` turns the `NotImplementedError` of an unbound leaf into `UndefinedValueError`. */
  function Undefined(e: Error): Error
  {
    if e == NotCreated then UndefinedValue else e
  }

  /** The solver value of a bound variable. */
  function SolValue(v: Variable, sol: Handle -> real): real
    reads v
    requires v.handle.Some?
  {
    sol(v.handle.value)
  }

  /**
   * The `value` of an operand, unwrapped as `_get_value` does: a number
   * is itself, a bound object is its handle's solver value, an unbound
   * object raises "… is not created", and a node evaluates its left then
   * its right operand and applies its operator.
   */
  function Eval(e: Expr, sol: Handle -> real): (r: Result<Value>)
    reads Objects(e)
  {
    match e
    case Const(c) => Ok(Num(c))
    case ParamLeaf(p) => if p.handle.Some? then Ok(Num(sol(p.handle.value))) else Err(NotCreated)
    case VarLeaf(v) => if v.handle.Some? then Ok(Num(sol(v.handle.value))) else Err(NotCreated)
    case ObjLeaf(o) => if o.handle.Some? then Ok(Num(sol(o.handle.value))) else Err(NotCreated)
    case Node(op, a, b) =>
      match Eval(a, sol)
      case Err(x) => Err(Undefined(x))
      case Ok(va) =>
        match Eval(b, sol)
        case Err(y) => Err(Undefined(y))
        case Ok(vb) => Apply(op, va, vb)
  }

  // ------------------------------------------------------------- operators

  /** `self OP other` (`__add__`, `__sub__`, `__mul__`, `__truediv__`, `__eq__`, `__gt__`, …). */
  function Binary(op: Op, self: Expr, other: Expr): Expr
  {
    Node(op, self, other)
  }

  /**
   * `other OP self` with a number `other`, for an arithmetic operator:
   * Python falls back to `self.__radd__(other)` and the like, which build
   * `(self, other)` again, keeping `self` on the left.
   */
  function Reflected(op: Op, other: real, self: Expr): Expr
    requires !IsComparison(op)
  {
    Node(op, self, Const(other))
  }

  /** The comparison Python tries when the left operand is a number: `c < x` becomes `x > c`. */
  function Mirror(op: Op): Op
    requires IsComparison(op)
  {
    match op
    case Eq => Eq
    case Gt => Lt
    case Lt => Gt
    case Ge => Le
    case Le => Ge
  }

  /** `other OP self` with a number `other`, for a comparison: `self.__MIRROR__(other)`. */
  function ReflectedCompare(op: Op, other: real, self: Expr): Expr
    requires IsComparison(op)
  {
    Node(Mirror(op), self, Const(other))
  }

  /** `__neg__`: multiplication by -1. */
  function Neg(self: Expr): Expr
  {
    Node(Mul, self, Const(-1.0))
  }

  // ------------------------------------------------------------- properties

  /** Evaluation succeeds only when every leaf is bound. */
  lemma {:induction false} EvalOkOnlyIfBound(e: Expr, sol: Handle -> real)
    requires Eval(e, sol).Ok?
    ensures AllBound(e)
  {
    if e.Node? {
      EvalOkOnlyIfBound(e.left, sol);
      EvalOkOnlyIfBound(e.right, sol);
    }
  }

  /**
   * A node never lets "not created" escape: an unbound leaf anywhere below
   * surfaces as `UndefinedValueError`, and the only other failure is a
   * division by zero.
   */
  lemma {:induction false} NodeErrors(e: Expr, sol: Handle -> real)
    requires e.Node? && Eval(e, sol).Err?
    ensures Eval(e, sol).error == UndefinedValue || Eval(e, sol).error == ZeroDivisionError
  {
    if Eval(e.left, sol).Err? {
      if e.left.Node? {
        NodeErrors(e.left, sol);
      }
    } else if Eval(e.right, sol).Err? {
      if e.right.Node? {
        NodeErrors(e.right, sol);
      }
    }
  }

  /** With every leaf bound, the only possible failure is a division by zero. */
  lemma {:induction false} BoundEvalErrors(e: Expr, sol: Handle -> real)
    requires AllBound(e) && Eval(e, sol).Err?
    ensures Eval(e, sol).error == ZeroDivisionError
  {
    if Eval(e.left, sol).Err? {
      BoundEvalErrors(e.left, sol);
    } else if Eval(e.right, sol).Err? {
      BoundEvalErrors(e.right, sol);
    }
  }

  /** The expression with every bound leaf replaced by its solver value. */
  function Ground(e: Expr, sol: Handle -> real): (r: Expr)
    reads Objects(e)
    ensures AllBound(e) ==> Objects(r) == {}
  {
    match e
    case Const(c) => e
    case ParamLeaf(p) => if p.handle.Some? then Const(sol(p.handle.value)) else e
    case VarLeaf(v) => if v.handle.Some? then Const(sol(v.handle.value)) else e
    case ObjLeaf(o) => if o.handle.Some? then Const(sol(o.handle.value)) else e
    case Node(op, a, b) => Node(op, Ground(a, sol), Ground(b, sol))
  }

  /**
   * Evaluation of a fully bound expression depends on nothing but the
   * solver values of its handles: it equals the evaluation of the
   * constant tree obtained by substituting them, under any assignment.
   */
  lemma {:induction false} EvalGround(e: Expr, sol: Handle -> real, other: Handle -> real)
    requires AllBound(e)
    ensures Eval(e, sol) == Eval(Ground(e, sol), other)
  {
    if e.Node? {
      EvalGround(e.left, sol, other);
      EvalGround(e.right, sol, other);
    }
  }

  /** Reflected `+` and `*` are harmless: `c + x` and `c * x` evaluate as written. */
  lemma ReflectedCommutative(op: Op, c: real, x: Expr, sol: Handle -> real)
    requires op == Add || op == Mul
    ensures Eval(Reflected(op, c, x), sol) == Eval(Binary(op, Const(c), x), sol)
  {
  }

  /**
   * Reflected comparisons are mirrored by Python itself, so `c < x`
   * (and every other comparison with a number on the left) evaluates as written.
   */
  lemma ReflectedCompareFaithful(op: Op, c: real, x: Expr, sol: Handle -> real)
    requires IsComparison(op)
    ensures Eval(ReflectedCompare(op, c, x), sol) == Eval(Binary(op, Const(c), x), sol)
  {
  }

  /**
   * Reflected `-` keeps `self` on the left, so `c - x` evaluates to
   * `x - c`: the negation of the difference written.
   */
  lemma ReflectedSubSwapped(c: real, x: Expr, sol: Handle -> real)
    requires Eval(x, sol).Ok?
    ensures Eval(Reflected(Sub, c, x), sol) == Ok(Num(Numeric(Eval(x, sol).value) - c))
    ensures Eval(Binary(Sub, Const(c), x), sol) == Ok(Num(c - Numeric(Eval(x, sol).value)))
  {
  }

  /** Reflected `/` keeps `self` on the left too: `c / x` evaluates to `x / c`. */
  lemma ReflectedDivSwapped(c: real, x: Expr, sol: Handle -> real)
    requires Eval(x, sol).Ok? && c != 0.0 && Numeric(Eval(x, sol).value) != 0.0
    ensures Eval(Reflected(Div, c, x), sol) == Ok(Num(Numeric(Eval(x, sol).value) / c))
    ensures Eval(Binary(Div, Const(c), x), sol) == Ok(Num(c / Numeric(Eval(x, sol).value)))
  {
    var v := Eval(x, sol).value;
    assert Eval(Reflected(Div, c, x), sol) == Apply(Div, v, Num(c));
    assert Eval(Binary(Div, Const(c), x), sol) == Apply(Div, Num(c), v);
  }

  /** A concrete instance: `1 - x` with `x` evaluating to 3 yields 2, not -2; `1 / x` yields 3, not 1/3. */
  lemma ReflectedCounterexample(sol: Handle -> real)
    ensures Eval(Reflected(Sub, 1.0, Const(3.0)), sol) == Ok(Num(2.0))
    ensures Eval(Binary(Sub, Const(1.0), Const(3.0)), sol) == Ok(Num(-2.0))
    ensures Eval(Reflected(Div, 1.0, Const(3.0)), sol) == Ok(Num(3.0))
    ensures Eval(Binary(Div, Const(1.0), Const(3.0)), sol) == Ok(Num(1.0 / 3.0))
  {
  }

  /**
   * The reflected operators as evidently intended: `__rsub__(other)` and
   * the like build `(other, self)`, putting the number on the left.
   */
  function ReflectedIntended(op: Op, other: real, self: Expr): Expr
    requires !IsComparison(op)
  {
    Node(op, Const(other), self)
  }

  /**
   * The intended reflected operator evaluates `c OP x` as written for every
   * arithmetic operator, and agrees with the operator as written for the
   * commutative ones; for `-` the two are each other's negation.
   */
  lemma ReflectedIntendedFaithful(op: Op, c: real, x: Expr, sol: Handle -> real)
    requires !IsComparison(op) && Eval(x, sol).Ok?
    ensures Eval(ReflectedIntended(op, c, x), sol) == Apply(op, Num(c), Eval(x, sol).value)
    ensures op == Add || op == Mul ==> Eval(ReflectedIntended(op, c, x), sol) == Eval(Reflected(op, c, x), sol)
    ensures op == Sub ==>
      Eval(ReflectedIntended(op, c, x), sol) == Ok(Num(-Numeric(Eval(Reflected(op, c, x), sol).value)))
  {
    assert ReflectedIntended(op, c, x) == Binary(op, Const(c), x);
    if op == Add || op == Mul {
      ReflectedCommutative(op, c, x, sol);
    }
  }

  /** Unary minus is multiplication by -1: it negates a value and keeps every failure. */
  lemma NegNegates(x: Expr, sol: Handle -> real)
    ensures Eval(x, sol).Ok? ==> Eval(Neg(x), sol) == Ok(Num(-Numeric(Eval(x, sol).value)))
    ensures Eval(x, sol).Err? ==> Eval(Neg(x), sol) == Err(Undefined(Eval(x, sol).error))
  {
  }

  /** An unbound leaf read directly raises "not created"; as an operand it raises `UndefinedValueError`. */
  lemma UnboundOperand(v: Variable, op: Op, other: Expr, sol: Handle -> real)
    requires v.handle.None?
    ensures Eval(VarLeaf(v), sol) == Err(NotCreated)
    ensures Eval(Binary(op, VarLeaf(v), other), sol) == Err(UndefinedValue)
  {
  }
}
