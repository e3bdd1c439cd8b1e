/**
 * The shared stepping protocol of `IComponent`
 * (src/microgrid/model/component_interface.py): a component may only step
 * to a strictly later timestamp. Every component class of the model applies
 * this check at the start of its `Step`.
 */
module ComponentInterface {
  import opened Wrappers
  import opened Timeseries

  /** `_check_step_timestamp`: the new current timestamp, or `StepPreviousTimestamp` for `t <= current`. */
  function CheckStepTimestamp(current: int, t: int): (r: Result<int>)
    ensures r.Ok? <==> t > current
    ensures r.Ok? ==> r.value == t
    ensures r.Err? ==> r.error == StepPreviousTimestamp
  {
    if t <= current then Err(StepPreviousTimestamp) else Ok(t)
  }

  /** The current timestamp after requesting steps to `ts` in order, stopping at the first rejection. */
  function StepAll(current: int, ts: seq<int>): Result<int>
    decreases |ts|
  {
    if |ts| == 0 then Ok(current)
    else match CheckStepTimestamp(current, ts[0])
      case Err(e) => Err(e)
      case Ok(next) => StepAll(next, ts[1..])
  }

  /** Successive successful steps have strictly increasing timestamps, starting above the initial one. */
  lemma {:induction false} StepAllIncreasing(current: int, ts: seq<int>)
    ensures StepAll(current, ts).Ok? <==> StrictlySorted([current] + ts)
    ensures StepAll(current, ts).Ok? && |ts| > 0 ==> StepAll(current, ts).value == ts[|ts| - 1]
    decreases |ts|
  {
    ConsSorted(current, ts);
    if |ts| > 0 {
      StepAllIncreasing(ts[0], ts[1..]);
      assert [ts[0]] + ts[1..] == ts;
      if |ts| > 1 {
        assert ts[|ts| - 1] == ts[1..][|ts[1..]| - 1];
      }
    }
  }

  /** A list with a new head is strictly increasing iff the head is below the old head and the rest is. */
  lemma ConsSorted(x: int, ts: seq<int>)
    ensures StrictlySorted([x] + ts) <==> (|ts| == 0 || x < ts[0]) && StrictlySorted(ts)
  {
    var s := [x] + ts;
    if (|ts| == 0 || x < ts[0]) && StrictlySorted(ts) {
      forall i, j | 0 <= i < j < |s| ensures s[i] < s[j] {
        if i > 0 {
          assert s[i] == ts[i - 1] && s[j] == ts[j - 1];
        } else if j > 1 {
          assert ts[0] < ts[j - 1];
        }
      }
    }
    if StrictlySorted(s) {
      if |ts| > 0 {
        assert s[0] < s[1];
      }
      forall i, j | 0 <= i < j < |ts| ensures ts[i] < ts[j] {
        assert s[i + 1] == ts[i] && s[j + 1] == ts[j];
      }
    }
  }
}
