/**
 * The time-indexed half of the optimisation layer
 * (src/control/optimisation_engine/variable.py and the time-index part of
 * src/control/optimisation_engine/domain.py): families of scalar
 * parameters, variables and constraints, one element per timestamp, bound
 * all at once to an engine index handle; and the elementwise expression
 * nodes built over them, with scalar broadcast, `zip` and `get_expression`.
 */
module OptimisationTimeIndex {
  import opened Wrappers
  import opened SeqUtil
  import opened Timeseries
  import opened OptimisationScalar

  /** The element name `f"{name}_{t}"`. */
  function ElementName(name: string, t: int): string
  {
    name + "_" + IntToString(t)
  }

  /** `_get_value_timestamp`: the element at the position of `t`; a miss becomes `UnknownTimestampError`. */
  function AtTimestamp<T>(ts: Timestamps, elements: seq<T>, t: int): (r: Result<T>)
    ensures r.Ok? <==> t in ts.values && GetTimestampIndex(ts, t).value < |elements|
    ensures r.Ok? ==> r.value == elements[GetTimestampIndex(ts, t).value]
    ensures r.Err? ==> r.error == UnknownTimestamp
  {
    match GetTimestampIndex(ts, t)
    case Err(_) => Err(UnknownTimestamp)
    case Ok(k) => if k < |elements| then Ok(elements[k]) else Err(UnknownTimestamp)
  }

  // ------------------------------------------------------------- element specifications

  /** What the comprehension of `TimeIndexVariable` gives each element. */
  datatype VariableSpec = VariableSpec(name: string, bounds: (real, real), initial: real)

  /** One element: `Variable(f"{name}_{t}", bounds.get_value(t), initial_value.get_value(t))`, bounds looked up first. */
  function VariableSpecAt(name: string, bounds: BoundTimeseries, initial: TimeseriesModel, t: int): (r: Result<VariableSpec>)
    ensures r.Ok? <==> BoundGetValue(bounds, t).Ok? && GetValue(initial, t).Ok?
    ensures r.Ok? ==> r.value == VariableSpec(ElementName(name, t), BoundGetValue(bounds, t).value, GetValue(initial, t).value)
  {
    match BoundGetValue(bounds, t)
    case Err(e) => Err(e)
    case Ok(b) =>
      match GetValue(initial, t)
      case Err(e) => Err(e)
      case Ok(x) => Ok(VariableSpec(ElementName(name, t), b, x))
  }

  /** A comprehension whose elements may raise: the first error, in order, aborts it. */
  function Collect<T>(rs: seq<Result<T>>): (r: Result<seq<T>>)
    ensures r.Ok? ==> |r.value| == |rs|
  {
    if |rs| == 0 then Ok([])
    else if rs[0].Err? then Err(rs[0].error)
    else
      var rest := Collect(rs[1..]);
      if rest.Err? then rest else Ok([rs[0].value] + rest.value)
  }

  /** A comprehension that completes produced every element, in order. */
  lemma {:induction false} CollectAt<T>(rs: seq<Result<T>>, i: nat)
    requires Collect(rs).Ok? && i < |rs|
    ensures rs[i].Ok? && Collect(rs).value[i] == rs[i].value
  {
    if i > 0 {
      CollectAt(rs[1..], i - 1);
    }
  }

  /** A comprehension with an element that raises does not complete. */
  lemma CollectFailAt<T>(rs: seq<Result<T>>, k: nat)
    requires k < |rs| && rs[k].Err?
    ensures Collect(rs).Err?
  {
    if Collect(rs).Ok? {
      CollectAt(rs, k);
    }
  }

  /** A comprehension none of whose elements raises completes. */
  lemma {:induction false} CollectTotal<T>(rs: seq<Result<T>>)
    requires forall i :: 0 <= i < |rs| ==> rs[i].Ok?
    ensures Collect(rs).Ok?
  {
    if |rs| > 0 {
      CollectTotal(rs[1..]);
    }
  }

  /** The element of every timestamp, each possibly raising. */
  function VariableSpecResults(name: string, bounds: BoundTimeseries, initial: TimeseriesModel, ts: seq<int>)
    : (r: seq<Result<VariableSpec>>)
    ensures |r| == |ts|
  {
    seq(|ts|, i requires 0 <= i < |ts| => VariableSpecAt(name, bounds, initial, ts[i]))
  }

  /** `[Variable(f"{name}_{t}", bounds.get_value(t), initial_value.get_value(t)) for t in ts]`. */
  function VariableSpecs(name: string, bounds: BoundTimeseries, initial: TimeseriesModel, ts: seq<int>)
    : (r: Result<seq<VariableSpec>>)
    ensures r.Ok? ==> |r.value| == |ts|
  {
    Collect(VariableSpecResults(name, bounds, initial, ts))
  }

  /** Element i of a successful construction belongs to timestamp i, with that timestamp's bound pair and initial value. */
  lemma VariableSpecsAt(name: string, bounds: BoundTimeseries, initial: TimeseriesModel, ts: seq<int>, i: nat)
    requires VariableSpecs(name, bounds, initial, ts).Ok? && i < |ts|
    ensures VariableSpecAt(name, bounds, initial, ts[i]).Ok?
    ensures VariableSpecs(name, bounds, initial, ts).value[i] == VariableSpecAt(name, bounds, initial, ts[i]).value
  {
    CollectAt(VariableSpecResults(name, bounds, initial, ts), i);
  }

  /** Construction succeeds whenever every timestamp is known to both the bounds and the initial series. */
  lemma VariableSpecsTotal(name: string, bounds: BoundTimeseries, initial: TimeseriesModel, ts: seq<int>)
    requires forall t :: t in ts ==> BoundGetValue(bounds, t).Ok? && GetValue(initial, t).Ok?
    ensures VariableSpecs(name, bounds, initial, ts).Ok?
  {
    var rs := VariableSpecResults(name, bounds, initial, ts);
    forall i | 0 <= i < |rs|
      ensures rs[i].Ok?
    {
      assert ts[i] in ts;
    }
    CollectTotal(rs);
  }

  /** What the comprehension of `TimeIndexParameter` gives each element. */
  datatype ParameterSpec = ParameterSpec(name: string, value: real)

  /** One element: `Parameter(f"{name}_{t}", value.get_value(t))`. */
  function ParameterSpecAt(name: string, value: TimeseriesModel, t: int): (r: Result<ParameterSpec>)
    ensures r.Ok? <==> GetValue(value, t).Ok?
    ensures r.Ok? ==> r.value == ParameterSpec(ElementName(name, t), GetValue(value, t).value)
  {
    match GetValue(value, t)
    case Err(e) => Err(e)
    case Ok(x) => Ok(ParameterSpec(ElementName(name, t), x))
  }

  /** The element of every timestamp, each possibly raising. */
  function ParameterSpecResults(name: string, value: TimeseriesModel, ts: seq<int>): (r: seq<Result<ParameterSpec>>)
    ensures |r| == |ts|
  {
    seq(|ts|, i requires 0 <= i < |ts| => ParameterSpecAt(name, value, ts[i]))
  }

  /** `[Parameter(f"{name}_{t}", value.get_value(t)) for t in ts]`. */
  function ParameterSpecs(name: string, value: TimeseriesModel, ts: seq<int>): (r: Result<seq<ParameterSpec>>)
    ensures r.Ok? ==> |r.value| == |ts|
  {
    Collect(ParameterSpecResults(name, value, ts))
  }

  /** Element i of a successful construction is timestamp i's name and series value. */
  lemma ParameterSpecsAt(name: string, value: TimeseriesModel, ts: seq<int>, i: nat)
    requires ParameterSpecs(name, value, ts).Ok? && i < |ts|
    ensures ParameterSpecAt(name, value, ts[i]).Ok?
    ensures ParameterSpecs(name, value, ts).value[i] == ParameterSpecAt(name, value, ts[i]).value
  {
    CollectAt(ParameterSpecResults(name, value, ts), i);
  }

  /** Construction succeeds whenever every timestamp is known to the series. */
  lemma ParameterSpecsTotal(name: string, value: TimeseriesModel, ts: seq<int>)
    requires forall t :: t in ts ==> GetValue(value, t).Ok?
    ensures ParameterSpecs(name, value, ts).Ok?
  {
    var rs := ParameterSpecResults(name, value, ts);
    forall i | 0 <= i < |rs|
      ensures rs[i].Ok?
    {
      assert ts[i] in ts;
    }
    CollectTotal(rs);
  }

  /** A lookup that fails at any timestamp makes the whole comprehension fail. */
  lemma ParameterSpecsFailAt(name: string, value: TimeseriesModel, ts: seq<int>, k: nat)
    requires k < |ts| && GetValue(value, ts[k]).Err?
    ensures ParameterSpecs(name, value, ts).Err?
  {
    CollectFailAt(ParameterSpecResults(name, value, ts), k);
  }

  /** What `TimeIndexConstraint` gives each element. */
  datatype ConstraintSpec = ConstraintSpec(name: string, expression: Expr)

  /**
   * `[Constraint(f"{name}_{t}", constraint_expression[i]) for i, t in enumerate(ts)]`:
   * expression i goes with timestamp i, and a list shorter than the
   * timestamps raises `IndexError`.
   */
  function ConstraintSpecs(name: string, ts: seq<int>, expressions: seq<Expr>): (r: Result<seq<ConstraintSpec>>)
    ensures r.Ok? <==> |ts| <= |expressions|
    ensures r.Ok? ==> |r.value| == |ts|
    ensures r.Ok? ==> forall i :: 0 <= i < |ts| ==> r.value[i] == ConstraintSpec(ElementName(name, ts[i]), expressions[i])
    ensures r.Err? ==> r.error == IndexError
  {
    if |expressions| < |ts| then Err(IndexError)
    else Ok(seq(|ts|, i requires 0 <= i < |ts| => ConstraintSpec(ElementName(name, ts[i]), expressions[i])))
  }

  function VariableSpecsOf(vs: seq<Variable>): seq<VariableSpec>
  {
    seq(|vs|, i requires 0 <= i < |vs| => VariableSpec(vs[i].name, vs[i].bounds, vs[i].initialValue))
  }

  function ParameterSpecsOf(ps: seq<Parameter>): seq<ParameterSpec>
  {
    seq(|ps|, i requires 0 <= i < |ps| => ParameterSpec(ps[i].name, ps[i].initial))
  }

  function ConstraintSpecsOf(cs: seq<Constraint>): seq<ConstraintSpec>
  {
    seq(|cs|, i requires 0 <= i < |cs| => ConstraintSpec(cs[i].name, cs[i].expression))
  }

  // ------------------------------------------------------------- families

  /** `TimeIndexVariable`: one `Variable` per timestamp of the initial-value series. */
  class TimeIndexVariable {
    const name: string
    const bounds: BoundTimeseries
    const initialValue: TimeseriesModel
    const elements: seq<Variable>
    var handle: Option<IndexHandle>

    /** The elements are distinct objects matching the construction comprehension. */
    ghost predicate Valid()
    {
      NoDuplicates(elements) &&
      VariableSpecs(name, bounds, initialValue, initialValue.timestamps.values) == Ok(VariableSpecsOf(elements))
    }

    function Timestamps(): Timestamps
    {
      initialValue.timestamps
    }

    /** What registering and binding the family relies on: distinct elements, one per timestamp of both series. */
    predicate Bindable()
    {
      NoDuplicates(elements) && |elements| == |initialValue.timestamps.values| && bounds.Timestamps() == initialValue.timestamps
    }

    constructor Init(name: string, bounds: BoundTimeseries, initialValue: TimeseriesModel, elements: seq<Variable>)
      ensures this.name == name && this.bounds == bounds && this.initialValue == initialValue
      ensures this.elements == elements && handle == None
    {
      this.name, this.bounds, this.initialValue, this.elements := name, bounds, initialValue, elements;
      handle := None;
    }

    /** The `optimisation_value` property: the bound index handle, else "variable … is not created". */
    function OptimisationValue(): (r: Result<IndexHandle>)
      reads this
      ensures r.Ok? <==> handle.Some?
      ensures r.Ok? ==> r.value == handle.value
      ensures r.Err? ==> r.error == NotCreated
    {
      if handle.Some? then Ok(handle.value) else Err(NotCreated)
    }

    /**
     * The `optimisation_value` setter: stores the handle, then binds element
     * i to `handle[i]` in order; a handle shorter than the family raises
     * `IndexError` with the leading elements already bound.
     */
    method SetOptimisationValue(h: IndexHandle) returns (o: Outcome)
      requires NoDuplicates(elements)
      modifies this, elements
      ensures handle == Some(h)
      ensures o.Pass? <==> |elements| <= h.size
      ensures o.Fail? ==> o.error == IndexError
      ensures forall i :: 0 <= i < |elements| ==>
        elements[i].handle == (if i < h.size then Some(Handle(h.base + i)) else old(elements[i].handle))
    {
      handle := Some(h);
      var i := 0;
      while i < |elements|
        invariant i <= |elements| && i <= h.size
        invariant handle == Some(h)
        invariant forall j :: 0 <= j < i ==> elements[j].handle == Some(Handle(h.base + j))
        invariant forall j :: i <= j < |elements| ==> elements[j].handle == old(elements[j].handle)
      {
        match h.At(i) {
          case Err(e) =>
            return Fail(e);
          case Ok(x) =>
            elements[i].Bind(x);
        }
        i := i + 1;
      }
      return Pass;
    }

    /** `get_value_timestamp`. */
    function GetValueTimestamp(t: int): (r: Result<Variable>)
    {
      AtTimestamp(Timestamps(), elements, t)
    }

    /** `get_value_index`: list indexing, negative indices allowed; a miss becomes `UnknownTimestampError`. */
    function GetValueIndex(i: int): (r: Result<Variable>)
      ensures r.Ok? <==> -|elements| <= i < |elements|
      ensures r.Ok? ==> r.value == PyIndex(elements, i).value
      ensures r.Err? ==> r.error == UnknownTimestamp
    {
      match PyIndex(elements, i)
      case Ok(v) => Ok(v)
      case Err(_) => Err(UnknownTimestamp)
    }

    /** `evaluate`: the solver value of every element, "not created" while any is unbound. */
    function Evaluate(sol: Handle -> real): (r: Result<seq<real>>)
      reads elements
      ensures r.Ok? <==> forall i :: 0 <= i < |elements| ==> elements[i].handle.Some?
      ensures r.Ok? ==> |r.value| == |elements|
      ensures r.Ok? ==> forall i :: 0 <= i < |elements| ==> r.value[i] == sol(elements[i].handle.value)
      ensures r.Err? ==> r.error == NotCreated
    {
      if forall i :: 0 <= i < |elements| ==> elements[i].handle.Some? then
        Ok(seq(|elements|, i requires 0 <= i < |elements| && elements[i].handle.Some? reads elements => sol(elements[i].handle.value)))
      else Err(NotCreated)
    }
  }

  /** The comprehension that builds one fresh, unbound variable per spec, in order. */
  method NewVariables(specs: seq<VariableSpec>) returns (elems: seq<Variable>)
    ensures VariableSpecsOf(elems) == specs && NoDuplicates(elems)
    ensures forall j :: 0 <= j < |elems| ==> fresh(elems[j]) && elems[j].handle == None
  {
    elems := [];
    for i := 0 to |specs|
      invariant |elems| == i
      invariant VariableSpecsOf(elems) == specs[..i]
      invariant NoDuplicates(elems)
      invariant forall j :: 0 <= j < i ==> fresh(elems[j]) && elems[j].handle == None
    {
      var v := new Variable(specs[i].name, specs[i].bounds, specs[i].initial);
      elems := elems + [v];
    }
    assert specs[..|specs|] == specs;
  }

  /**
   * The factory behind the `TimeIndexVariable` constructor: fresh, distinct,
   * unbound elements exactly as the comprehension specifies, or the error
   * of its first failing lookup.
   */
  method NewTimeIndexVariable(name: string, bounds: BoundTimeseries, initialValue: TimeseriesModel)
    returns (r: Result<TimeIndexVariable>)
    ensures r.Err? <==> VariableSpecs(name, bounds, initialValue, initialValue.timestamps.values).Err?
    ensures r.Err? ==> r.error == VariableSpecs(name, bounds, initialValue, initialValue.timestamps.values).error
    ensures r.Ok? ==> fresh(r.value) && r.value.Valid() && r.value.handle == None
    ensures r.Ok? ==> r.value.name == name && r.value.bounds == bounds && r.value.initialValue == initialValue
    ensures r.Ok? ==> forall i :: 0 <= i < |r.value.elements| ==>
      fresh(r.value.elements[i]) && r.value.elements[i].handle == None
  {
    var specs := VariableSpecs(name, bounds, initialValue, initialValue.timestamps.values);
    if specs.Err? {
      return Err(specs.error);
    }
    var elems := NewVariables(specs.value);
    var family := new TimeIndexVariable.Init(name, bounds, initialValue, elems);
    return Ok(family);
  }

  /**
   * `TimeIndexVariable(name, BoundTimeseries.constant_bound_timeseries(ts, lo, hi), initial)`
   * with the zero series as initial value, the way the MPC builders create
   * their variables: the bound check raises `AssertionError` unless the
   * horizon is empty or `lo < hi`.
   */
  method NewConstantBoundVariable(name: string, ts: Timestamps, lo: real, hi: real) returns (r: Result<TimeIndexVariable>)
    requires ValidTimestamps(ts)
    ensures r.Ok? <==> |ts.values| == 0 || lo < hi
    ensures r.Err? ==> r.error == AssertionError
    ensures r.Ok? ==> fresh(r.value) && r.value.Valid() && r.value.Bindable() && r.value.handle == None
    ensures r.Ok? ==> r.value.name == name && r.value.initialValue == ConstantTimeseriesData(ts, 0.0)
    ensures r.Ok? ==> r.value.bounds == BoundTimeseries(ConstantTimeseriesData(ts, lo), ConstantTimeseriesData(ts, hi))
    ensures r.Ok? ==> |r.value.elements| == |ts.values|
    ensures r.Ok? ==> forall i :: 0 <= i < |r.value.elements| ==>
      fresh(r.value.elements[i]) && r.value.elements[i].handle == None
  {
    ConstantBoundTimeseriesOk(ts, lo, hi);
    PointwiseBelowConstant(ts, lo, hi, ts.values);
    var b := ConstantBoundTimeseries(ts, lo, hi);
    if b.Err? {
      return Err(b.error);
    }
    VariableSpecsTotal(name, b.value, ConstantTimeseriesData(ts, 0.0), ts.values);
    var v := NewTimeIndexVariable(name, b.value, ConstantTimeseriesData(ts, 0.0));
    return Ok(v.value);
  }

  /** A constructed family holds, at each known timestamp `t`, the variable `{name}_{t}` with `t`'s bound pair and initial value. */
  lemma VariableAtTimestamp(x: TimeIndexVariable, t: int)
    requires x.Valid()
    ensures x.GetValueTimestamp(t).Ok? <==> t in x.Timestamps().values
    ensures x.GetValueTimestamp(t).Ok? ==>
      var v := x.GetValueTimestamp(t).value;
      v.name == ElementName(x.name, t) &&
      BoundGetValue(x.bounds, t) == Ok(v.bounds) &&
      GetValue(x.initialValue, t) == Ok(v.initialValue)
  {
    var ts := x.Timestamps().values;
    if t in ts {
      var k := GetTimestampIndex(x.Timestamps(), t).value;
      VariableSpecsAt(x.name, x.bounds, x.initialValue, ts, k);
      assert VariableSpecsOf(x.elements)[k] == VariableSpec(x.elements[k].name, x.elements[k].bounds, x.elements[k].initialValue);
    }
  }

  /** `TimeIndexParameter`: one `Parameter` per timestamp of the value series. */
  class TimeIndexParameter {
    const name: string
    const parameterValue: TimeseriesModel
    const elements: seq<Parameter>
    var handle: Option<IndexHandle>

    ghost predicate Valid()
    {
      NoDuplicates(elements) &&
      ParameterSpecs(name, parameterValue, parameterValue.timestamps.values) == Ok(ParameterSpecsOf(elements))
    }

    function Timestamps(): Timestamps
    {
      parameterValue.timestamps
    }

    constructor Init(name: string, parameterValue: TimeseriesModel, elements: seq<Parameter>)
      ensures this.name == name && this.parameterValue == parameterValue
      ensures this.elements == elements && handle == None
    {
      this.name, this.parameterValue, this.elements := name, parameterValue, elements;
      handle := None;
    }

    /** The `optimisation_value` property. */
    function OptimisationValue(): (r: Result<IndexHandle>)
      reads this
      ensures r.Ok? <==> handle.Some?
      ensures r.Ok? ==> r.value == handle.value
      ensures r.Err? ==> r.error == NotCreated
    {
      if handle.Some? then Ok(handle.value) else Err(NotCreated)
    }

    /** The `optimisation_value` setter: element i is bound to `handle[i]`. */
    method SetOptimisationValue(h: IndexHandle) returns (o: Outcome)
      requires NoDuplicates(elements)
      modifies this, elements
      ensures handle == Some(h)
      ensures o.Pass? <==> |elements| <= h.size
      ensures o.Fail? ==> o.error == IndexError
      ensures forall i :: 0 <= i < |elements| ==>
        elements[i].handle == (if i < h.size then Some(Handle(h.base + i)) else old(elements[i].handle))
    {
      handle := Some(h);
      var i := 0;
      while i < |elements|
        invariant i <= |elements| && i <= h.size
        invariant handle == Some(h)
        invariant forall j :: 0 <= j < i ==> elements[j].handle == Some(Handle(h.base + j))
        invariant forall j :: i <= j < |elements| ==> elements[j].handle == old(elements[j].handle)
      {
        match h.At(i) {
          case Err(e) =>
            return Fail(e);
          case Ok(x) =>
            elements[i].Bind(x);
        }
        i := i + 1;
      }
      return Pass;
    }

    /** `get_value_timestamp`. */
    function GetValueTimestamp(t: int): (r: Result<Parameter>)
    {
      AtTimestamp(Timestamps(), elements, t)
    }

    /** `get_value_index`, which hands the index to the timestamp lookup. */
    function GetValueIndex(i: int): (r: Result<Parameter>)
    {
      GetValueTimestamp(i)
    }

    /** `evaluate`: the solver value of every element, "not created" while any is unbound. */
    function Evaluate(sol: Handle -> real): (r: Result<seq<real>>)
      reads elements
      ensures r.Ok? <==> forall i :: 0 <= i < |elements| ==> elements[i].handle.Some?
      ensures r.Ok? ==> |r.value| == |elements|
      ensures r.Ok? ==> forall i :: 0 <= i < |elements| ==> r.value[i] == sol(elements[i].handle.value)
      ensures r.Err? ==> r.error == NotCreated
    {
      if forall i :: 0 <= i < |elements| ==> elements[i].handle.Some? then
        Ok(seq(|elements|, i requires 0 <= i < |elements| && elements[i].handle.Some? reads elements => sol(elements[i].handle.value)))
      else Err(NotCreated)
    }
  }

  /** The comprehension that builds one fresh, unbound parameter per spec, in order. */
  method NewParameters(specs: seq<ParameterSpec>) returns (elems: seq<Parameter>)
    ensures ParameterSpecsOf(elems) == specs && NoDuplicates(elems)
    ensures forall j :: 0 <= j < |elems| ==> fresh(elems[j]) && elems[j].handle == None
  {
    elems := [];
    for i := 0 to |specs|
      invariant |elems| == i
      invariant ParameterSpecsOf(elems) == specs[..i]
      invariant NoDuplicates(elems)
      invariant forall j :: 0 <= j < i ==> fresh(elems[j]) && elems[j].handle == None
    {
      var p := new Parameter(specs[i].name, specs[i].value);
      elems := elems + [p];
    }
    assert specs[..|specs|] == specs;
  }

  /** The factory behind the `TimeIndexParameter` constructor. */
  method NewTimeIndexParameter(name: string, parameterValue: TimeseriesModel)
    returns (r: Result<TimeIndexParameter>)
    ensures r.Err? <==> ParameterSpecs(name, parameterValue, parameterValue.timestamps.values).Err?
    ensures r.Ok? ==> fresh(r.value) && r.value.Valid() && r.value.handle == None
    ensures r.Ok? ==> r.value.name == name && r.value.parameterValue == parameterValue
    ensures r.Ok? ==> forall i :: 0 <= i < |r.value.elements| ==>
      fresh(r.value.elements[i]) && r.value.elements[i].handle == None
  {
    var specs := ParameterSpecs(name, parameterValue, parameterValue.timestamps.values);
    if specs.Err? {
      return Err(specs.error);
    }
    var elems := NewParameters(specs.value);
    var family := new TimeIndexParameter.Init(name, parameterValue, elems);
    return Ok(family);
  }

  /**
   * A family over a well-formed series holds one parameter per timestamp,
   * the i-th named `{name}_{t_i}` with the series value at `t_i`.
   */
  lemma ParameterFamilyShape(x: TimeIndexParameter, i: nat)
    requires x.Valid() && WellFormedSeries(x.parameterValue) && i < |x.elements|
    ensures |x.elements| == |x.Timestamps().values|
    ensures x.elements[i].name == ElementName(x.name, x.Timestamps().values[i])
    ensures x.elements[i].initial == Values(x.parameterValue)[i]
  {
    var ts := x.Timestamps().values;
    ParameterSpecsAt(x.name, x.parameterValue, ts, i);
    GetValueAtIndex(x.parameterValue, i);
    assert ParameterSpecsOf(x.elements)[i] == ParameterSpec(x.elements[i].name, x.elements[i].initial);
  }

  /**
   * `get_value_index(i)` looks `i` up as a timestamp: on the timestamps
   * 10, 20 index 0 is unknown, although the family has an element 0.
   */
  lemma ParameterIndexIsTimestamp(x: TimeIndexParameter)
    requires x.Valid() && x.Timestamps().values == [10, 20]
    ensures |x.elements| == 2
    ensures x.GetValueIndex(0) == Err(UnknownTimestamp)
    ensures x.GetValueIndex(10) == Ok(x.elements[0])
  {
  }

  /** `TimeIndexConstraint`: one `Constraint` per timestamp, expression i with timestamp i. */
  class TimeIndexConstraint {
    const name: string
    const timestamps: Timestamps
    const expressions: seq<Expr>
    const elements: seq<Constraint>
    var handle: Option<IndexHandle>

    ghost predicate Valid()
    {
      NoDuplicates(elements) &&
      ConstraintSpecs(name, timestamps.values, expressions) == Ok(ConstraintSpecsOf(elements))
    }

    /** What registering and binding the list relies on: distinct elements, one per timestamp. */
    predicate Bindable()
    {
      NoDuplicates(elements) && |elements| == |timestamps.values|
    }

    constructor Init(name: string, timestamps: Timestamps, expressions: seq<Expr>, elements: seq<Constraint>)
      ensures this.name == name && this.timestamps == timestamps && this.expressions == expressions
      ensures this.elements == elements && handle == None
    {
      this.name, this.timestamps, this.expressions, this.elements := name, timestamps, expressions, elements;
      handle := None;
    }

    /** The `optimisation_value` property. */
    function OptimisationValue(): (r: Result<IndexHandle>)
      reads this
      ensures r.Ok? <==> handle.Some?
      ensures r.Ok? ==> r.value == handle.value
      ensures r.Err? ==> r.error == NotCreated
    {
      if handle.Some? then Ok(handle.value) else Err(NotCreated)
    }

    /** The `optimisation_value` setter: element i is bound to `handle[i]`. */
    method SetOptimisationValue(h: IndexHandle) returns (o: Outcome)
      requires NoDuplicates(elements)
      modifies this, elements
      ensures handle == Some(h)
      ensures o.Pass? <==> |elements| <= h.size
      ensures o.Fail? ==> o.error == IndexError
      ensures forall i :: 0 <= i < |elements| ==>
        elements[i].handle == (if i < h.size then Some(Handle(h.base + i)) else old(elements[i].handle))
    {
      handle := Some(h);
      var i := 0;
      while i < |elements|
        invariant i <= |elements| && i <= h.size
        invariant handle == Some(h)
        invariant forall j :: 0 <= j < i ==> elements[j].handle == Some(Handle(h.base + j))
        invariant forall j :: i <= j < |elements| ==> elements[j].handle == old(elements[j].handle)
      {
        match h.At(i) {
          case Err(e) =>
            return Fail(e);
          case Ok(x) =>
            elements[i].Bind(x);
        }
        i := i + 1;
      }
      return Pass;
    }

    /** `get_value_timestamp`, through `get_timestamp_index`. */
    function GetValueTimestamp(t: int): (r: Result<Constraint>)
    {
      AtTimestamp(timestamps, elements, t)
    }

    /** The expressions of the elements, as handed to `add_index_constraint`. */
    function ElementExpressions(): (r: seq<Expr>)
      ensures |r| == |elements| && forall i :: 0 <= i < |elements| ==> r[i] == elements[i].expression
      ensures Valid() ==> |r| == |timestamps.values| && r == expressions[..|timestamps.values|]
    {
      assert forall i :: 0 <= i < |elements| ==> ConstraintSpecsOf(elements)[i].expression == elements[i].expression;
      seq(|elements|, i requires 0 <= i < |elements| => elements[i].expression)
    }
  }

  /** The comprehension that builds one fresh, unbound constraint per spec, in order. */
  method NewConstraints(specs: seq<ConstraintSpec>) returns (elems: seq<Constraint>)
    ensures ConstraintSpecsOf(elems) == specs && NoDuplicates(elems)
    ensures forall j :: 0 <= j < |elems| ==> fresh(elems[j]) && elems[j].handle == None
  {
    elems := [];
    for i := 0 to |specs|
      invariant |elems| == i
      invariant ConstraintSpecsOf(elems) == specs[..i]
      invariant NoDuplicates(elems)
      invariant forall j :: 0 <= j < i ==> fresh(elems[j]) && elems[j].handle == None
    {
      var c := new Constraint(specs[i].name, specs[i].expression);
      elems := elems + [c];
    }
    assert specs[..|specs|] == specs;
  }

  /** The factory behind the `TimeIndexConstraint` constructor: `IndexError` when there are fewer expressions than timestamps. */
  method NewTimeIndexConstraint(name: string, timestamps: Timestamps, expressions: seq<Expr>)
    returns (r: Result<TimeIndexConstraint>)
    ensures r.Ok? <==> |timestamps.values| <= |expressions|
    ensures r.Err? ==> r.error == IndexError
    ensures r.Ok? ==> fresh(r.value) && r.value.Valid() && r.value.handle == None
    ensures r.Ok? ==> r.value.name == name && r.value.timestamps == timestamps && r.value.expressions == expressions
    ensures r.Ok? ==> forall i :: 0 <= i < |r.value.elements| ==>
      fresh(r.value.elements[i]) && r.value.elements[i].handle == None
  {
    var specs := ConstraintSpecs(name, timestamps.values, expressions);
    if specs.Err? {
      return Err(specs.error);
    }
    var elems := NewConstraints(specs.value);
    var family := new TimeIndexConstraint.Init(name, timestamps, expressions, elems);
    return Ok(family);
  }

  /** A constructed constraint family answers at timestamp `t_i` with the constraint `{name}_{t_i}` over expression i. */
  lemma ConstraintAtTimestamp(x: TimeIndexConstraint, k: nat)
    requires x.Valid() && ValidTimestamps(x.timestamps) && k < |x.timestamps.values|
    ensures x.GetValueTimestamp(x.timestamps.values[k]).Ok?
    ensures x.GetValueTimestamp(x.timestamps.values[k]).value.name == ElementName(x.name, x.timestamps.values[k])
    ensures x.GetValueTimestamp(x.timestamps.values[k]).value.expression == x.expressions[k]
  {
    TimestampIndexUnique(x.timestamps, x.timestamps.values[k], k);
    assert ConstraintSpecsOf(x.elements)[k] == ConstraintSpec(x.elements[k].name, x.elements[k].expression);
  }

  /**
   * `TimeIndexObjective`: its objective list is never assigned, so every
   * read of its `value` fails with "objective … is not created".
   */
  datatype TimeIndexObjective = TimeIndexObjective(name: string, timestamps: Timestamps)
  {
    /** The `value` property. */
    function Value(): (r: Result<seq<Expr>>)
    {
      Err(NotCreated)
    }

    /** `get_value_timestamp`: reads `value` before looking `t` up. */
    function GetValueTimestamp(t: int): (r: Result<Expr>)
    {
      match Value()
      case Err(e) => Err(e)
      case Ok(v) => AtTimestamp(timestamps, v, t)
    }

    /** `get_value_index`: hands the index to the timestamp lookup. */
    function GetValueIndex(i: int): (r: Result<Expr>)
    {
      GetValueTimestamp(i)
    }
  }

  /** No lookup on a time-index objective ever succeeds, whatever the timestamps. */
  lemma ObjectiveNeverCreated(x: TimeIndexObjective, t: int)
    ensures x.GetValueTimestamp(t) == Err(NotCreated)
    ensures x.GetValueIndex(t) == Err(NotCreated)
  {
  }
}
