/**
 * Time-series value types of src/common/timeseries/domain.py: validated
 * timestamp lists with exact-match lookup and a restartable iteration cursor,
 * sampled and constant series, bounds and bound series.
 *
 * Timestamps are integers (seconds); values are exact reals.
 */
module Timeseries {
  import opened Wrappers
  import opened SeqUtil

  // ---------------------------------------------------------------- Timestamps

  datatype Timestamps = Timestamps(values: seq<int>)

  /** The construction check: each value strictly above its predecessor, all non-negative. */
  predicate IncreasingNonNegative(v: seq<int>)
  {
    AdjacentIncreasing(v) && (forall i :: 0 <= i < |v| ==> v[i] >= 0)
  }

  /** Every difference of neighbours is positive (`np.diff(v) > 0`). */
  predicate AdjacentIncreasing(v: seq<int>)
  {
    forall i :: 0 <= i < |v| - 1 ==> v[i + 1] - v[i] > 0
  }

  /** Pairwise strict order, the form most proofs use. */
  predicate StrictlySorted(v: seq<int>)
  {
    forall i, j :: 0 <= i < j < |v| ==> v[i] < v[j]
  }

  predicate ValidTimestamps(ts: Timestamps)
  {
    IncreasingNonNegative(ts.values)
  }

  /** Constructing `Timestamps`: `AssertionError` unless the values are increasing and non-negative. */
  function MakeTimestamps(v: seq<int>): (r: Result<Timestamps>)
    ensures r.Ok? <==> IncreasingNonNegative(v)
    ensures r.Ok? ==> r.value.values == v
    ensures r.Err? ==> r.error == AssertionError
  {
    if IncreasingNonNegative(v) then Ok(Timestamps(v)) else Err(AssertionError)
  }

  /** Positive neighbour differences (what the constructor checks) and a pairwise strict order are the same thing. */
  lemma {:induction false} AdjacentIsSorted(v: seq<int>)
    ensures AdjacentIncreasing(v) <==> StrictlySorted(v)
  {
    if AdjacentIncreasing(v) {
      forall i, j | 0 <= i < j < |v| ensures v[i] < v[j] {
        var k := i;
        while k < j
          invariant i <= k <= j
          invariant v[i] <= v[k]
          invariant k > i ==> v[i] < v[k]
        {
          assert v[k + 1] - v[k] > 0;
          k := k + 1;
        }
      }
    }
  }

  /** The empty and every one-element list of non-negative values are accepted. */
  lemma ShortTimestampsAccepted(v: seq<int>)
    requires |v| <= 1 && forall i :: 0 <= i < |v| ==> v[i] >= 0
    ensures MakeTimestamps(v).Ok?
  {
  }

  /** `get_timestamp_index`: first exact match, else `UnknownTimestampError`. */
  function GetTimestampIndex(ts: Timestamps, t: int): (r: Result<nat>)
    ensures r.Ok? <==> t in ts.values
    ensures r.Ok? ==> r.value < |ts.values| && ts.values[r.value] == t
    ensures r.Err? ==> r.error == UnknownTimestamp
  {
    match IndexOf(ts.values, t)
    case Ok(k) => Ok(k)
    case Err(_) => Err(UnknownTimestamp)
  }

  /** On valid timestamps the position found is the only one holding `t`. */
  lemma TimestampIndexUnique(ts: Timestamps, t: int, k: nat)
    requires ValidTimestamps(ts)
    requires k < |ts.values| && ts.values[k] == t
    ensures GetTimestampIndex(ts, t) == Ok(k)
  {
    AdjacentIsSorted(ts.values);
  }

  // ------------------------------------------------------------- slicing

  /** Python's normalisation of a slice bound for a positive step. */
  function ClampUp(i: int, n: nat): (r: nat)
    ensures r <= n
    ensures 0 <= i <= n ==> r == i
    ensures i < 0 && i + n >= 0 ==> r == i + n
  {
    if i < 0 then (if i + n < 0 then 0 else i + n) else if i > n then n else i
  }

  /** Python's normalisation of a slice bound for a negative step (may give -1). */
  function ClampDown(i: int, n: nat): (r: int)
    ensures -1 <= r < n || (n == 0 && r == -1)
  {
    if i < 0 then (if i + n < 0 then -1 else i + n) else if i >= n then n - 1 else i
  }

  /** Elements `v[a], v[a+d], …` strictly below position `b`. */
  function SliceUp(v: seq<int>, a: nat, b: nat, d: nat): (r: seq<int>)
    requires b <= |v| && d > 0
    decreases b - a
  {
    if a < b then [v[a]] + SliceUp(v, a + d, b, d) else []
  }

  /** Elements `v[a], v[a-d], …` strictly above position `b`. */
  function SliceDown(v: seq<int>, a: int, b: int, d: nat): (r: seq<int>)
    requires a < |v| && -1 <= b && d > 0
    decreases a - b
  {
    if a > b && a >= 0 then [v[a]] + SliceDown(v, a - d, b, d) else []
  }

  /** `values[from:to:delta]` as Python evaluates it; a zero step raises `ValueError`. */
  function SliceValues(v: seq<int>, from: int, to: int, delta: int): (r: Result<seq<int>>)
    ensures r.Err? <==> delta == 0
    ensures r.Err? ==> r.error == ValueError
  {
    if delta == 0 then Err(ValueError)
    else if delta > 0 then Ok(SliceUp(v, ClampUp(from, |v|), ClampUp(to, |v|), delta))
    else Ok(SliceDown(v, ClampDown(from, |v|), ClampDown(to, |v|), -delta))
  }

  /** `Timestamps.slice`: slice the values, then run the constructor check on them. */
  function Slice(ts: Timestamps, from: int, to: int, delta: int): Result<Timestamps>
  {
    match SliceValues(ts.values, from, to, delta)
    case Ok(v) => MakeTimestamps(v)
    case Err(e) => Err(e)
  }

  lemma {:induction false} SliceUpAt(v: seq<int>, a: nat, b: nat, d: nat, k: nat)
    requires b <= |v| && d > 0 && k < |SliceUp(v, a, b, d)|
    ensures a + k * d < b && SliceUp(v, a, b, d)[k] == v[a + k * d]
    decreases k
  {
    if k > 0 {
      SliceUpAt(v, a + d, b, d, k - 1);
      assert a + d + (k - 1) * d == a + k * d;
    }
  }

  /** With a positive step, a slice of valid timestamps always passes validation. */
  lemma SlicePositiveStepValid(ts: Timestamps, from: int, to: int, delta: int)
    requires ValidTimestamps(ts) && delta > 0
    ensures Slice(ts, from, to, delta).Ok?
    ensures Slice(ts, from, to, delta).value.values
            == SliceUp(ts.values, ClampUp(from, |ts.values|), ClampUp(to, |ts.values|), delta)
  {
    var v := ts.values;
    var a, b := ClampUp(from, |v|), ClampUp(to, |v|);
    var s := SliceUp(v, a, b, delta);
    AdjacentIsSorted(v);
    forall i | 0 <= i < |s| - 1 ensures s[i + 1] - s[i] > 0 {
      SliceUpAt(v, a, b, delta, i);
      SliceUpAt(v, a, b, delta, i + 1);
      assert a + (i + 1) * delta == a + i * delta + delta;
    }
    forall i | 0 <= i < |s| ensures s[i] >= 0 {
      SliceUpAt(v, a, b, delta, i);
    }
  }

  /** With step 1 a slice is the plain subsequence `v[a:b]`. */
  lemma {:induction false} SliceUnitStep(v: seq<int>, a: nat, b: nat)
    requires a <= b <= |v|
    ensures SliceUp(v, a, b, 1) == v[a..b]
    decreases b - a
  {
    if a < b {
      SliceUnitStep(v, a + 1, b);
    }
  }

  /** A negative step reverses the order, so any slice of two or more valid timestamps is rejected. */
  lemma SliceNegativeStepRejected(ts: Timestamps, from: int, to: int, delta: int)
    requires ValidTimestamps(ts) && delta < 0
    requires |SliceDown(ts.values, ClampDown(from, |ts.values|), ClampDown(to, |ts.values|), -delta)| >= 2
    ensures Slice(ts, from, to, delta) == Err(AssertionError)
  {
    var v := ts.values;
    var a := ClampDown(from, |v|);
    var s := SliceDown(v, a, ClampDown(to, |v|), -delta);
    AdjacentIsSorted(v);
    assert s[0] == v[a];
    assert s[1] == v[a - (-delta)];
    assert s[1] - s[0] <= 0;
  }

  // ------------------------------------------------------------- iteration

  /**
   * The `_iter` cursor that `Timestamps` keeps for `__iter__`/`__next__`.
   * `__iter__` returns the object itself, so every loop over the same
   * timestamps shares this cursor.
   */
  class TimestampsIterator {
    const values: seq<int>
    var cursor: nat

    predicate Valid()
      reads this
    {
      cursor <= |values|
    }

    /** Construction leaves the cursor at rest. */
    constructor (ts: Timestamps)
      ensures Valid() && values == ts.values && cursor == 0
    {
      values := ts.values;
      cursor := 0;
    }

    /** `__next__`: the next value, or `None` (StopIteration) after resetting the cursor to 0. */
    method Next() returns (r: Option<int>)
      requires Valid()
      modifies this
      ensures Valid()
      ensures old(cursor) < |values| ==> r == Some(values[old(cursor)]) && cursor == old(cursor) + 1
      ensures old(cursor) == |values| ==> r == None && cursor == 0
    {
      cursor := cursor + 1;
      if cursor <= |values| {
        r := Some(values[cursor - 1]);
      } else {
        cursor := 0;
        r := None;
      }
    }

    /**
     * A `for t in timestamps` loop run to the end: it yields the values from
     * the current cursor on, and the final `__next__` puts the cursor back at 0.
     */
    method Drain() returns (out: seq<int>)
      requires Valid()
      modifies this
      ensures Valid() && cursor == 0
      ensures out == values[old(cursor)..]
    {
      out := [];
      var done := false;
      ghost var start := cursor;
      while !done
        invariant Valid()
        invariant !done ==> start <= cursor && out == values[start..cursor]
        invariant done ==> cursor == 0 && out == values[start..]
        decreases (if done then 0 else 1), |values| - cursor
      {
        var r := Next();
        match r {
          case Some(t) => out := out + [t];
          case None => done := true;
        }
      }
    }

    /** A loop abandoned after `k` items leaves the shared cursor at `k` positions further. */
    method Take(k: nat) returns (out: seq<int>)
      requires Valid() && cursor + k <= |values|
      modifies this
      ensures Valid() && cursor == old(cursor) + k
      ensures out == values[old(cursor)..old(cursor) + k]
    {
      out := [];
      var i := 0;
      while i < k
        invariant Valid() && 0 <= i <= k
        invariant cursor == old(cursor) + i
        invariant out == values[old(cursor)..cursor]
      {
        var r := Next();
        out := out + [r.value];
        i := i + 1;
      }
    }
  }

  // ------------------------------------------------------------- series

  /** `TimeseriesModel`: a sampled `TimeseriesData` or a `ConstantTimeseriesData`. */
  datatype TimeseriesModel =
    | TimeseriesData(timestamps: Timestamps, values: seq<real>)
    | ConstantTimeseriesData(timestamps: Timestamps, value: real)

  /** `TimeseriesData` construction: `AssertionError` unless one value per timestamp. */
  function MakeTimeseriesData(ts: Timestamps, values: seq<real>): (r: Result<TimeseriesModel>)
    ensures r.Ok? <==> |values| == |ts.values|
    ensures r.Ok? ==> r.value == TimeseriesData(ts, values)
    ensures r.Err? ==> r.error == AssertionError
  {
    if |values| == |ts.values| then Ok(TimeseriesData(ts, values)) else Err(AssertionError)
  }

  predicate WellFormedSeries(m: TimeseriesModel)
  {
    ValidTimestamps(m.timestamps) &&
    (m.TimeseriesData? ==> |m.values| == |m.timestamps.values|)
  }

  /** `get_value`: exact timestamp lookup, then the value stored for it. */
  function GetValue(m: TimeseriesModel, t: int): (r: Result<real>)
    ensures t !in m.timestamps.values ==> r == Err(UnknownTimestamp)
  {
    match GetTimestampIndex(m.timestamps, t)
    case Err(e) => Err(e)
    case Ok(k) =>
      match m
      case TimeseriesData(_, values) => if k < |values| then Ok(values[k]) else Err(IndexError)
      case ConstantTimeseriesData(_, c) => Ok(c)
  }

  /** The `values` property: a constant series has one copy of its value per timestamp. */
  function Values(m: TimeseriesModel): (r: seq<real>)
    ensures m.ConstantTimeseriesData? ==>
      |r| == |m.timestamps.values| && forall i :: 0 <= i < |r| ==> r[i] == m.value
  {
    match m
    case TimeseriesData(_, values) => values
    case ConstantTimeseriesData(ts, c) => seq(|ts.values|, _ => c)
  }

  /** On a well-formed series, `get_value(t)` is the value at `t`'s position, and succeeds exactly for known `t`. */
  lemma GetValueAtIndex(m: TimeseriesModel, k: nat)
    requires WellFormedSeries(m) && k < |m.timestamps.values|
    ensures GetValue(m, m.timestamps.values[k]) == Ok(Values(m)[k])
  {
    TimestampIndexUnique(m.timestamps, m.timestamps.values[k], k);
  }

  /** A constant series answers exactly like the sampled series of its `values`. */
  lemma ConstantAsSampled(ts: Timestamps, c: real, t: int)
    ensures GetValue(ConstantTimeseriesData(ts, c), t)
         == GetValue(TimeseriesData(ts, Values(ConstantTimeseriesData(ts, c))), t)
  {
  }

  // ------------------------------------------------------------- bounds

  datatype Bounds = Bounds(min: real, max: real)

  /** `Bounds` construction: `ValueError` when `min > max`; `min == max` is accepted. */
  function MakeBounds(min: real, max: real): (r: Result<Bounds>)
    ensures r.Ok? <==> min <= max
    ensures r.Ok? ==> r.value == Bounds(min, max)
    ensures r.Err? ==> r.error == ValueError
  {
    if min > max then Err(ValueError) else Ok(Bounds(min, max))
  }

  datatype BoundTimeseries = BoundTimeseries(min: TimeseriesModel, max: TimeseriesModel)
  {
    /** The `timestamps` property: those of the lower series. */
    function Timestamps(): Timestamps
    {
      min.timestamps
    }
  }

  /**
   * The list `[min.get_value(t) < max.get_value(t) for t in ts]` followed by
   * `all`: every lookup runs first (min before max), so a failing lookup
   * escapes before the comparison is judged.
   */
  function PointwiseBelow(min: TimeseriesModel, max: TimeseriesModel, ts: seq<int>): Result<bool>
  {
    if |ts| == 0 then Ok(true)
    else match GetValue(min, ts[0])
      case Err(e) => Err(e)
      case Ok(lo) =>
        match GetValue(max, ts[0])
        case Err(e) => Err(e)
        case Ok(hi) =>
          match PointwiseBelow(min, max, ts[1..])
          case Err(e) => Err(e)
          case Ok(rest) => Ok(lo < hi && rest)
  }

  lemma {:induction false} PointwiseBelowMeans(min: TimeseriesModel, max: TimeseriesModel, ts: seq<int>, t: int)
    requires PointwiseBelow(min, max, ts) == Ok(true) && t in ts
    ensures GetValue(min, t).Ok? && GetValue(max, t).Ok?
    ensures GetValue(min, t).value < GetValue(max, t).value
  {
    if ts[0] != t {
      PointwiseBelowMeans(min, max, ts[1..], t);
    }
  }

  /** `BoundTimeseries` construction (equal lengths, identical timestamps, pointwise `min < max`). */
  function MakeBoundTimeseries(min: TimeseriesModel, max: TimeseriesModel): (r: Result<BoundTimeseries>)
    ensures r.Ok? ==> r.value == BoundTimeseries(min, max)
    ensures r.Ok? ==> min.timestamps == max.timestamps
    ensures r.Ok? <==>
      min.timestamps.values == max.timestamps.values && PointwiseBelow(min, max, min.timestamps.values) == Ok(true)
    ensures min.timestamps.values != max.timestamps.values ==> r == Err(AssertionError)
    ensures min.timestamps.values == max.timestamps.values && PointwiseBelow(min, max, min.timestamps.values).Err? ==>
      r == Err(PointwiseBelow(min, max, min.timestamps.values).error)
  {
    if |min.timestamps.values| != |max.timestamps.values| then Err(AssertionError)
    else if min.timestamps.values != max.timestamps.values then Err(AssertionError)
    else match PointwiseBelow(min, max, min.timestamps.values)
      case Err(e) => Err(e)
      case Ok(false) => Err(AssertionError)
      case Ok(true) => Ok(BoundTimeseries(min, max))
  }

  /** Every lookup answering with `min < max` makes the pointwise check pass. */
  lemma {:induction false} PointwiseBelowAll(min: TimeseriesModel, max: TimeseriesModel, ts: seq<int>)
    requires forall t :: t in ts ==> GetValue(min, t).Ok? && GetValue(max, t).Ok?
    requires forall t :: t in ts ==> GetValue(min, t).value < GetValue(max, t).value
    ensures PointwiseBelow(min, max, ts) == Ok(true)
  {
    if |ts| > 0 {
      assert forall t :: t in ts[1..] ==> t in ts;
      PointwiseBelowAll(min, max, ts[1..]);
    }
  }

  /**
   * A bound series is built exactly when both series share their timestamps
   * and at every one of them both lookups answer with `min < max`.
   */
  lemma BoundTimeseriesIff(min: TimeseriesModel, max: TimeseriesModel)
    ensures MakeBoundTimeseries(min, max).Ok? <==>
      min.timestamps.values == max.timestamps.values &&
      forall t :: t in min.timestamps.values ==>
        GetValue(min, t).Ok? && GetValue(max, t).Ok? && GetValue(min, t).value < GetValue(max, t).value
  {
    var ts := min.timestamps.values;
    if MakeBoundTimeseries(min, max).Ok? {
      forall t | t in ts
        ensures GetValue(min, t).Ok? && GetValue(max, t).Ok? && GetValue(min, t).value < GetValue(max, t).value
      {
        PointwiseBelowMeans(min, max, ts, t);
      }
    } else if ts == max.timestamps.values &&
      forall t :: t in ts ==> GetValue(min, t).Ok? && GetValue(max, t).Ok? && GetValue(min, t).value < GetValue(max, t).value
    {
      PointwiseBelowAll(min, max, ts);
    }
  }

  /** `constant_bound_timeseries`. */
  function ConstantBoundTimeseries(ts: Timestamps, lo: real, hi: real): Result<BoundTimeseries>
  {
    MakeBoundTimeseries(ConstantTimeseriesData(ts, lo), ConstantTimeseriesData(ts, hi))
  }

  lemma {:induction false} PointwiseBelowConstant(ts: Timestamps, lo: real, hi: real, s: seq<int>)
    requires forall t :: t in s ==> t in ts.values
    ensures PointwiseBelow(ConstantTimeseriesData(ts, lo), ConstantTimeseriesData(ts, hi), s)
            == Ok(|s| == 0 || lo < hi)
  {
    if |s| > 0 {
      PointwiseBelowConstant(ts, lo, hi, s[1..]);
    }
  }

  /** A constant bound series exists iff the timestamps are empty or `lo < hi` (strict). */
  lemma ConstantBoundTimeseriesOk(ts: Timestamps, lo: real, hi: real)
    ensures ConstantBoundTimeseries(ts, lo, hi).Ok? <==> (|ts.values| == 0 || lo < hi)
  {
    PointwiseBelowConstant(ts, lo, hi, ts.values);
  }

  /** `get_value`: the pair (min(t), max(t)). */
  function BoundGetValue(b: BoundTimeseries, t: int): Result<(real, real)>
  {
    match GetValue(b.min, t)
    case Err(e) => Err(e)
    case Ok(lo) =>
      match GetValue(b.max, t)
      case Err(e) => Err(e)
      case Ok(hi) => Ok((lo, hi))
  }

  /** `get_value_as_bound`: the pair as a `Bounds`, which runs the `Bounds` check again. */
  function GetValueAsBound(b: BoundTimeseries, t: int): Result<Bounds>
  {
    match BoundGetValue(b, t)
    case Err(e) => Err(e)
    case Ok(p) => MakeBounds(p.0, p.1)
  }

  /**
   * On a constructed bound series every known timestamp yields a `Bounds`
   * with `min < max`, equal to the pair `get_value` returns; unknown
   * timestamps raise `UnknownTimestampError`.
   */
  lemma BoundAtKnownTimestamp(min: TimeseriesModel, max: TimeseriesModel, t: int)
    requires MakeBoundTimeseries(min, max).Ok?
    ensures var b := MakeBoundTimeseries(min, max).value;
      if t in b.Timestamps().values then
        BoundGetValue(b, t).Ok? &&
        GetValueAsBound(b, t) == Ok(Bounds(BoundGetValue(b, t).value.0, BoundGetValue(b, t).value.1)) &&
        BoundGetValue(b, t).value.0 < BoundGetValue(b, t).value.1
      else GetValueAsBound(b, t) == Err(UnknownTimestamp)
  {
    if t in min.timestamps.values {
      PointwiseBelowMeans(min, max, min.timestamps.values, t);
    }
  }
}
