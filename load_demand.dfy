/**
 * `LoadDemand` (src/microgrid/model/component/load_demand.py): a component
 * whose step reads the demand from its loader.
 */
module LoadDemandUnit {
  import opened Wrappers
  import opened Component
  import opened ComponentInterface
  import opened UnitLoaders
  import opened MemoryStorage

  class LoadDemand {
    const name: string
    const loader: LoadDemandDataLoader
    /** Never set by `LoadDemand`, so it keeps the `IComponent` default `Unknown`. */
    const componentType: ComponentType
    var currentPower: real
    var currentTimestamp: int

    /** A new load: power 0 at the loader's initial timestamp. */
    constructor (name: string, loader: LoadDemandDataLoader)
      ensures this.name == name && this.loader == loader && componentType == Unknown
      ensures currentPower == 0.0 && currentTimestamp == loader.initialTimestamp
    {
      this.name := name;
      this.loader := loader;
      componentType := Unknown;
      currentPower := 0.0;
      currentTimestamp := loader.initialTimestamp;
    }

    /** `current_simulation_data`: the current power only. */
    function CurrentSimulationData(): (d: ComponentSimulationData)
      reads this
      ensures d.name == name && d.values.Keys == {"current_power"}
      ensures d.values["current_power"] == Number(currentPower)
    {
      ComponentSimulationData(name, map["current_power" := Number(currentPower)])
    }

    /** `step`: the timestamp check, then the demand at `t`, as the loader gives it. */
    method Step(t: int) returns (o: Outcome)
      modifies this
      ensures o.Fail? <==> CheckStepTimestamp(old(currentTimestamp), t).Err?
      ensures o.Fail? ==> o.error == StepPreviousTimestamp
      ensures o.Fail? ==> currentTimestamp == old(currentTimestamp) && currentPower == old(currentPower)
      ensures o.Pass? ==> currentTimestamp == t && currentPower == loader.GetData(t)
    {
      match CheckStepTimestamp(currentTimestamp, t) {
        case Err(e) => return Fail(e);
        case Ok(next) => currentTimestamp := next;
      }
      currentPower := loader.GetData(t);
      return Pass;
    }

    /** `add_simulation_data`: stores the snapshot, stamped with the current timestamp. */
    method AddSimulationData(storage: MemoryDataStorage)
      modifies storage, storage.historicalData
      ensures storage.historicalData.timestamps == old(storage.historicalData.timestamps) + [currentTimestamp]
      ensures storage.historicalData.data == old(storage.historicalData.data) + [CurrentSimulationData()]
    {
      storage.AddSimulationData(currentTimestamp, CurrentSimulationData());
    }
  }
}
