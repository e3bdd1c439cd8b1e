/**
 * The append-only simulation log of src/microgrid/utils/memory_storage.py:
 * `HistoricalData` (timestamps kept strictly increasing by `add_data`) and
 * `MemoryDataStorage`, whose `add_simulation_data` appends without any check.
 */
module MemoryStorage {
  import opened Wrappers
  import opened Timeseries

  /** A value in a component's snapshot: a number, the thermal switch state, or a vector of line flows. */
  datatype SimValue = Number(x: real) | Switch(on: bool) | Vector(xs: seq<real>)

  /** `ComponentSimulationData`: the component's name and its named values. */
  datatype ComponentSimulationData = ComponentSimulationData(name: string, values: map<string, SimValue>)

  /**
   * The `HistoricalData.__post_init__` check. No timestamps: accepted whatever
   * the data. One timestamp: `np.diff` is empty and its `min()` raises numpy's
   * `ValueError`. Otherwise the differences must be positive and the lengths equal.
   */
  function CheckHistoricalData(timestamps: seq<int>, dataLength: nat): (r: Outcome)
    ensures |timestamps| == 0 ==> r == Pass
    ensures |timestamps| == 1 ==> r == Fail(ValueError)
    ensures |timestamps| >= 2 ==> (r.Pass? <==> StrictlySorted(timestamps) && |timestamps| == dataLength)
    ensures |timestamps| >= 2 && r.Fail? ==> r.error == SimulationTimeseries
  {
    AdjacentIsSorted(timestamps);
    if |timestamps| == 0 then Pass
    else if |timestamps| == 1 then Fail(ValueError)
    else if !AdjacentIncreasing(timestamps) || |timestamps| != dataLength then Fail(SimulationTimeseries)
    else Pass
  }

  class HistoricalData {
    var timestamps: seq<int>
    var data: seq<ComponentSimulationData>

    /** The log's invariant: timestamps strictly increasing. */
    predicate Valid()
      reads this
    {
      StrictlySorted(timestamps)
    }

    constructor (timestamps: seq<int>, data: seq<ComponentSimulationData>)
      requires CheckHistoricalData(timestamps, |data|).Pass?
      ensures this.timestamps == timestamps && this.data == data && Valid()
    {
      this.timestamps := timestamps;
      this.data := data;
    }

    /** `add_data`: `t` must exceed the last timestamp; a rejected call changes neither list. */
    method AddData(t: int, d: ComponentSimulationData) returns (o: Outcome)
      requires Valid()
      modifies this
      ensures o.Fail? <==> |old(timestamps)| > 0 && t <= old(timestamps)[|old(timestamps)| - 1]
      ensures o.Fail? ==> o.error == SimulationTimeseries && timestamps == old(timestamps) && data == old(data)
      ensures o.Pass? ==> timestamps == old(timestamps) + [t] && data == old(data) + [d]
      ensures Valid()
    {
      if |timestamps| > 0 && t <= timestamps[|timestamps| - 1] {
        return Fail(SimulationTimeseries);
      }
      timestamps := timestamps + [t];
      data := data + [d];
      return Pass;
    }
  }

  /** `HistoricalData(...)`: the construction check decides between a log and an error. */
  method NewHistoricalData(timestamps: seq<int>, data: seq<ComponentSimulationData>) returns (r: Result<HistoricalData>)
    ensures r.Err? <==> CheckHistoricalData(timestamps, |data|).Fail?
    ensures r.Err? ==> r.error == CheckHistoricalData(timestamps, |data|).error
    ensures r.Ok? ==> fresh(r.value) && r.value.timestamps == timestamps && r.value.data == data && r.value.Valid()
  {
    var check := CheckHistoricalData(timestamps, |data|);
    if check.Fail? {
      return Err(check.error);
    }
    var h := new HistoricalData(timestamps, data);
    return Ok(h);
  }

  /** Appending a later timestamp keeps a strictly increasing list strictly increasing. */
  lemma AppendLaterSorted(ts: seq<int>, t: int)
    requires StrictlySorted(ts)
    requires |ts| == 0 || ts[|ts| - 1] < t
    ensures StrictlySorted(ts + [t])
  {
  }

  class MemoryDataStorage {
    const initialTimestamp: int
    var currentTimestamp: int
    const historicalData: HistoricalData

    constructor (initialTimestamp: int)
      ensures this.initialTimestamp == initialTimestamp && currentTimestamp == initialTimestamp
      ensures fresh(historicalData) && historicalData.timestamps == [] && historicalData.data == []
    {
      this.initialTimestamp := initialTimestamp;
      currentTimestamp := initialTimestamp;
      historicalData := new HistoricalData([], []);
    }

    /** `add_simulation_data`: appends to both lists with no ordering check and moves the current timestamp. */
    method AddSimulationData(t: int, d: ComponentSimulationData)
      modifies this, historicalData
      ensures currentTimestamp == t
      ensures historicalData.timestamps == old(historicalData.timestamps) + [t]
      ensures historicalData.data == old(historicalData.data) + [d]
    {
      currentTimestamp := t;
      historicalData.timestamps := historicalData.timestamps + [t];
      historicalData.data := historicalData.data + [d];
    }
  }

  /**
   * Two components storing at the same tick append the same timestamp twice,
   * so the shared log is no longer strictly increasing.
   */
  lemma SameTickBreaksOrder(ts: seq<int>, t: int)
    ensures !StrictlySorted(ts + [t] + [t])
  {
    var s := ts + [t] + [t];
    assert s[|s| - 2] == s[|s| - 1];
  }
}
