/**
 * The MPC horizon of src/control/mpc_model/domain.py: a window
 * `[since, until)` sampled every `sampling_time` seconds.
 */
module MpcHorizon {
  import opened Wrappers
  import opened Timeseries

  /** `Horizon(since, until, sampling_time)` with its derived `timestamps`. */
  datatype Horizon = Horizon(since: int, until: int, samplingTime: int, timestamps: Timestamps)

  /** `[t for t in range(since, until, step)]` for a positive step. */
  function RangeValues(since: int, until: int, step: nat): (r: seq<int>)
    requires step > 0
    decreases until - since
  {
    if since < until then [since] + RangeValues(since + step, until, step) else []
  }

  /** The asserted conditions: all three numbers non-negative and `until >= since`. */
  predicate Asserted(since: int, until: int, samplingTime: int)
  {
    since >= 0 && until >= 0 && samplingTime >= 0 && until - since >= 0
  }

  /**
   * `Horizon.__post_init__`: a failed assertion is re-raised as
   * `AssertionError`; a zero step passes the assertions, and `range`
   * then raises `ValueError`, which the handler does not catch.
   */
  function MakeHorizon(since: int, until: int, samplingTime: int): (r: Result<Horizon>)
    ensures r.Ok? <==> Asserted(since, until, samplingTime) && samplingTime > 0
    ensures !Asserted(since, until, samplingTime) ==> r == Err(AssertionError)
    ensures Asserted(since, until, samplingTime) && samplingTime == 0 ==> r == Err(ValueError)
    ensures r.Ok? ==> r.value.since == since && r.value.until == until && r.value.samplingTime == samplingTime
  {
    if !Asserted(since, until, samplingTime) then Err(AssertionError)
    else if samplingTime == 0 then Err(ValueError)
    else
      RangeValid(since, until, samplingTime);
      match MakeTimestamps(RangeValues(since, until, samplingTime))
      case Err(_) => Err(AssertionError)
      case Ok(ts) => Ok(Horizon(since, until, samplingTime, ts))
  }

  /** Position `k` of the range holds `since + k·step`, and exists exactly while that is below `until`. */
  lemma {:induction false} RangeAt(since: int, until: int, step: nat, k: nat)
    requires step > 0
    ensures k < |RangeValues(since, until, step)| <==> since + k * step < until
    ensures k < |RangeValues(since, until, step)| ==> RangeValues(since, until, step)[k] == since + k * step
    decreases k
  {
    if k > 0 && since < until {
      RangeAt(since + step, until, step, k - 1);
      assert since + step + (k - 1) * step == since + k * step;
    } else if k > 0 {
      assert since + k * step >= since;
    }
  }

  /** From a non-negative start, the range is strictly increasing and non-negative. */
  lemma RangeValid(since: int, until: int, step: nat)
    requires step > 0 && since >= 0
    ensures IncreasingNonNegative(RangeValues(since, until, step))
  {
    var v := RangeValues(since, until, step);
    forall i | 0 <= i < |v| - 1
      ensures v[i + 1] - v[i] > 0
    {
      RangeAt(since, until, step, i);
      RangeAt(since, until, step, i + 1);
      assert since + (i + 1) * step == since + i * step + step;
    }
    forall i | 0 <= i < |v|
      ensures v[i] >= 0
    {
      RangeAt(since, until, step, i);
    }
  }

  /**
   * A horizon that passes its checks holds the timestamps `since,
   * since + step, …`, every one below `until` and none left out, and they
   * always pass the `Timestamps` validation.
   */
  lemma HorizonTimestamps(since: int, until: int, samplingTime: int)
    requires Asserted(since, until, samplingTime) && samplingTime > 0
    ensures MakeHorizon(since, until, samplingTime).Ok?
    ensures var ts := MakeHorizon(since, until, samplingTime).value.timestamps.values;
      ValidTimestamps(Timestamps(ts)) &&
      (forall k :: 0 <= k < |ts| ==> ts[k] == since + k * samplingTime && ts[k] < until) &&
      (forall k: nat :: since + k * samplingTime < until ==> k < |ts|)
  {
    RangeValid(since, until, samplingTime);
    var ts := RangeValues(since, until, samplingTime);
    forall k | 0 <= k < |ts|
      ensures ts[k] == since + k * samplingTime && ts[k] < until
    {
      RangeAt(since, until, samplingTime, k);
    }
    forall k: nat | since + k * samplingTime < until
      ensures k < |ts|
    {
      RangeAt(since, until, samplingTime, k);
    }
  }

  /** An empty window gives no timestamps; a non-empty one starts at `since`. */
  lemma HorizonStart(since: int, until: int, samplingTime: int)
    requires Asserted(since, until, samplingTime) && samplingTime > 0
    ensures var ts := MakeHorizon(since, until, samplingTime).value.timestamps.values;
      (|ts| == 0 <==> since == until) && (since < until ==> ts[0] == since)
  {
  }

  /** A one-hour window sampled every 15 minutes holds four timestamps. */
  lemma HorizonExample()
    ensures MakeHorizon(0, 3600, 900) == Ok(Horizon(0, 3600, 900, Timestamps([0, 900, 1800, 2700])))
  {
    assert RangeValues(3600, 3600, 900) == [];
    assert RangeValues(2700, 3600, 900) == [2700];
    assert RangeValues(1800, 3600, 900) == [1800, 2700];
    assert RangeValues(900, 3600, 900) == [900, 1800, 2700];
    assert RangeValues(0, 3600, 900) == [0, 900, 1800, 2700];
    RangeValid(0, 3600, 900);
  }
}
