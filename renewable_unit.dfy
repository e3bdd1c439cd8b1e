/**
 * `RenewablePowerUnit` (src/microgrid/model/component/renewable_unit.py): a
 * generator whose output is its setpoint clipped to the available power.
 */
module RenewableUnit {
  import opened Wrappers
  import opened Component
  import opened ComponentInterface
  import opened GeneratorInterface
  import opened UnitLoaders
  import opened MemoryStorage

  /** `min(available, setpoint)`. */
  function ClippedPower(available: real, setpoint: real): (r: real)
    ensures r <= available && r <= setpoint
    ensures r == available || r == setpoint
  {
    if available <= setpoint then available else setpoint
  }

  class RenewablePowerUnit {
    const name: string
    const loader: RenewableUnitDataLoader
    const componentType: ComponentType
    const isGridFormingUnit: bool
    var currentPower: real
    var currentTimestamp: int
    var powerSetpoint: real
    var powerSharing: real
    var availablePower: real

    /** A new unit: power, setpoint, sharing and availability 0; grid-forming as its loader says. */
    constructor (name: string, loader: RenewableUnitDataLoader)
      ensures this.name == name && this.loader == loader && componentType == Renewable
      ensures isGridFormingUnit == loader.base.gridFormingUnitFlag
      ensures currentPower == 0.0 && currentTimestamp == loader.base.initialTimestamp
      ensures powerSetpoint == 0.0 && powerSharing == 0.0 && availablePower == 0.0
    {
      this.name := name;
      this.loader := loader;
      componentType := Renewable;
      isGridFormingUnit := loader.base.gridFormingUnitFlag;
      currentPower := 0.0;
      currentTimestamp := loader.base.initialTimestamp;
      powerSetpoint := 0.0;
      powerSharing := 0.0;
      availablePower := 0.0;
    }

    function DroopGainInverse(): real
    {
      GeneratorInterface.DroopGainInverse(loader.base.droopGain)
    }

    /** The inherited setter: only a setpoint within the power bounds is taken. */
    method SetPowerSetpoint(v: real) returns (o: Outcome)
      modifies this
      ensures o == CheckSetpoint(loader.base.powerBounds, v)
      ensures powerSetpoint == if o.Pass? then v else old(powerSetpoint)
      ensures currentPower == old(currentPower) && currentTimestamp == old(currentTimestamp)
      ensures powerSharing == old(powerSharing) && availablePower == old(availablePower)
    {
      o := CheckSetpoint(loader.base.powerBounds, v);
      if o.Pass? {
        powerSetpoint := v;
      }
    }

    /** The inherited `participate_power_sharing`: only `power_sharing` changes. */
    method ParticipatePowerSharing(deltaFrequency: real)
      modifies this
      ensures powerSharing == PowerSharing(DroopGainInverse(), deltaFrequency)
      ensures currentPower == old(currentPower) && currentTimestamp == old(currentTimestamp)
      ensures powerSetpoint == old(powerSetpoint) && availablePower == old(availablePower)
    {
      powerSharing := PowerSharing(DroopGainInverse(), deltaFrequency);
    }

    /**
     * `step`: the timestamp check, which moves the timestamp, then the
     * available power at `t` and the clipped output. A sample point outside
     * the power table raises `ValueError` once the timestamp has moved, and
     * both powers keep their old values.
     */
    method Step(t: int) returns (o: Outcome)
      modifies this
      ensures o.Fail? <==> CheckStepTimestamp(old(currentTimestamp), t).Err? || loader.GetData(t).Err?
      ensures CheckStepTimestamp(old(currentTimestamp), t).Err? ==>
                o == Fail(StepPreviousTimestamp) && currentTimestamp == old(currentTimestamp)
      ensures CheckStepTimestamp(old(currentTimestamp), t).Ok? ==> currentTimestamp == t
      ensures CheckStepTimestamp(old(currentTimestamp), t).Ok? && loader.GetData(t).Err? ==> o == Fail(ValueError)
      ensures o.Fail? ==> currentPower == old(currentPower) && availablePower == old(availablePower)
      ensures o.Pass? ==> availablePower == loader.GetData(t).value &&
                          currentPower == ClippedPower(availablePower, powerSetpoint)
      ensures powerSetpoint == old(powerSetpoint) && powerSharing == old(powerSharing)
    {
      match CheckStepTimestamp(currentTimestamp, t) {
        case Err(e) => return Fail(e);
        case Ok(next) => currentTimestamp := next;
      }
      var available := loader.GetData(t);
      if available.Err? {
        return Fail(available.error);
      }
      availablePower := available.value;
      currentPower := ClippedPower(availablePower, powerSetpoint);
      return Pass;
    }

    /** `current_simulation_data`: current, available and setpoint power. */
    function CurrentSimulationData(): (d: ComponentSimulationData)
      reads this
      ensures d.name == name && d.values.Keys == {"current_power", "available_power", "power_setpoint"}
      ensures d.values["current_power"] == Number(currentPower)
      ensures d.values["available_power"] == Number(availablePower)
      ensures d.values["power_setpoint"] == Number(powerSetpoint)
    {
      ComponentSimulationData(name, map["current_power" := Number(currentPower),
                                        "available_power" := Number(availablePower),
                                        "power_setpoint" := Number(powerSetpoint)])
    }

    method AddSimulationData(storage: MemoryDataStorage)
      modifies storage, storage.historicalData
      ensures storage.historicalData.timestamps == old(storage.historicalData.timestamps) + [currentTimestamp]
      ensures storage.historicalData.data == old(storage.historicalData.data) + [CurrentSimulationData()]
    {
      storage.AddSimulationData(currentTimestamp, CurrentSimulationData());
    }
  }

  /** The unit-test values: availability 5 clips a setpoint of 6 to 5 and leaves a setpoint of 2 at 2. */
  lemma ClippingExamples()
    ensures ClippedPower(5.0, 6.0) == 5.0 && ClippedPower(5.0, 2.0) == 2.0
  {
  }
}
