/**
 * The grid-forming units of src/microgrid/model/component/grid_forming_unit.py:
 * `StoragePowerPlant` (energy bookkeeping with charge and discharge
 * efficiencies) and `ThermalGenerator` (on/off setpoint policy).
 *
 * `ThermalGenerator` defines `__init` instead of `__init__`, so its own
 * initialisation never runs: the unit is built by the generic generator
 * initialiser, its component type stays `Unknown`, and `switch_state` does
 * not exist (here `None`) until a setpoint is first assigned.
 */
module GridFormingUnit {
  import opened Wrappers
  import opened Timeseries
  import opened Component
  import opened ComponentInterface
  import opened GeneratorInterface
  import opened UnitLoaders
  import opened MemoryStorage

  /** Seconds to hours. */
  const SecToHourFactor: real := 1.0 / 3600.0

  /**
   * The storage energy update for power `p` over `hours`: discharging
   * (`p >= 0`) draws `p / η_d`, charging stores `η_c·|p|`.
   */
  function EnergyAfter(energy: real, p: real, hours: real, chargeEfficiency: real, dischargeEfficiency: real): real
    requires dischargeEfficiency > 0.0
  {
    if p >= 0.0 then energy - hours * (1.0 / dischargeEfficiency) * p
    else energy - hours * chargeEfficiency * p
  }

  /** Over a non-negative time, discharging never adds energy and charging never removes it. */
  lemma EnergyDirection(energy: real, p: real, hours: real, ce: real, de: real)
    requires ValidEfficiency(ce) && ValidEfficiency(de) && hours >= 0.0
    ensures p >= 0.0 ==> EnergyAfter(energy, p, hours, ce, de) <= energy
    ensures p <= 0.0 ==> EnergyAfter(energy, p, hours, ce, de) >= energy
  {
    if p >= 0.0 {
      assert 1.0 / de > 0.0;
      assert hours * (1.0 / de) >= 0.0;
      assert hours * (1.0 / de) * p >= 0.0;
    } else {
      assert hours * ce >= 0.0;
      assert hours * ce * p <= 0.0;
    }
  }

  /**
   * Discharging at `p` and then charging at `−p` for the same time never ends
   * above the start; with both efficiencies 1 it ends exactly at the start.
   */
  lemma RoundTripNoGain(energy: real, p: real, hours: real, ce: real, de: real)
    requires ValidEfficiency(ce) && ValidEfficiency(de) && hours >= 0.0 && p > 0.0
    ensures EnergyAfter(EnergyAfter(energy, p, hours, ce, de), -p, hours, ce, de) <= energy
    ensures ce == 1.0 && de == 1.0 ==> EnergyAfter(EnergyAfter(energy, p, hours, ce, de), -p, hours, ce, de) == energy
  {
    var e1 := EnergyAfter(energy, p, hours, ce, de);
    assert e1 == energy - hours * (1.0 / de) * p;
    var e2 := EnergyAfter(e1, -p, hours, ce, de);
    assert e2 == e1 + hours * ce * p;
    assert 1.0 / de >= 1.0 by {
      assert (1.0 / de) * de == 1.0;
    }
    assert hours * p >= 0.0;
    assert e2 == energy - (hours * p) * (1.0 / de - ce);
    assert (hours * p) * (1.0 / de - ce) >= 0.0;
  }

  /**
   * The unit-test values with both efficiencies 1: setpoint +2 then −2 over
   * 900 s each moves 2 → 1.5 → 2.0; a sharing of −1 over 900 s from 0 gives 0.25.
   */
  lemma StorageTestValues()
    ensures EnergyAfter(2.0, 2.0, 900.0 * SecToHourFactor, 1.0, 1.0) == 1.5
    ensures EnergyAfter(1.5, -2.0, 900.0 * SecToHourFactor, 1.0, 1.0) == 2.0
    ensures PowerSharing(DroopGainInverse(0.5), 0.5) == -1.0
    ensures EnergyAfter(0.0, 0.0 + PowerSharing(DroopGainInverse(0.5), 0.5), 900.0 * SecToHourFactor, 1.0, 1.0) == 0.25
  {
    assert 900.0 * SecToHourFactor == 0.25;
    assert DroopGainInverse(0.5) == 2.0;
  }

  class StoragePowerPlant {
    const name: string
    const loader: StoragePowerPlantDataLoader
    const componentType: ComponentType
    const isGridFormingUnit: bool
    var currentPower: real
    var currentTimestamp: int
    var powerSetpoint: real
    var powerSharing: real
    var currentEnergy: real

    /** The loader's efficiencies are valid (checked when the loader was built). */
    predicate Valid()
    {
      ValidEfficiency(loader.chargeEfficiency) && ValidEfficiency(loader.dischargeEfficiency)
    }

    /** A new storage plant: grid-forming, type `Storage`, energy at the loader's initial energy. */
    constructor (name: string, loader: StoragePowerPlantDataLoader)
      requires loader.Valid()
      ensures this.name == name && this.loader == loader && componentType == Storage && isGridFormingUnit
      ensures currentPower == 0.0 && currentTimestamp == loader.base.initialTimestamp
      ensures powerSetpoint == 0.0 && powerSharing == 0.0 && currentEnergy == loader.initialEnergy
      ensures Valid()
    {
      this.name := name;
      this.loader := loader;
      componentType := Storage;
      isGridFormingUnit := true;
      currentPower := 0.0;
      currentTimestamp := loader.base.initialTimestamp;
      powerSetpoint := 0.0;
      powerSharing := 0.0;
      currentEnergy := loader.initialEnergy;
    }

    function DroopGainInverse(): real
    {
      GeneratorInterface.DroopGainInverse(loader.base.droopGain)
    }

    /** The inherited setter: only a setpoint within the power bounds is taken. */
    method SetPowerSetpoint(v: real) returns (o: Outcome)
      modifies this
      ensures o == CheckSetpoint(loader.base.powerBounds, v)
      ensures powerSetpoint == if o.Pass? then v else old(powerSetpoint)
      ensures currentPower == old(currentPower) && currentTimestamp == old(currentTimestamp)
      ensures powerSharing == old(powerSharing) && currentEnergy == old(currentEnergy)
    {
      o := CheckSetpoint(loader.base.powerBounds, v);
      if o.Pass? {
        powerSetpoint := v;
      }
    }

    /** The inherited `participate_power_sharing`: only `power_sharing` changes. */
    method ParticipatePowerSharing(deltaFrequency: real)
      modifies this
      ensures powerSharing == PowerSharing(DroopGainInverse(), deltaFrequency)
      ensures currentPower == old(currentPower) && currentTimestamp == old(currentTimestamp)
      ensures powerSetpoint == old(powerSetpoint) && currentEnergy == old(currentEnergy)
    {
      powerSharing := PowerSharing(DroopGainInverse(), deltaFrequency);
    }

    /**
     * `step`: the timestamp check first (a rejected step changes nothing),
     * then output `setpoint + sharing` and the energy update over the elapsed
     * hours. An energy outside the bounds is only reported (`outOfBounds`)
     * and is stored all the same.
     */
    method Step(t: int) returns (o: Outcome, outOfBounds: bool)
      requires Valid()
      modifies this
      ensures o.Fail? <==> CheckStepTimestamp(old(currentTimestamp), t).Err?
      ensures o.Fail? ==> o.error == StepPreviousTimestamp && !outOfBounds
      ensures o.Fail? ==> currentTimestamp == old(currentTimestamp) && currentPower == old(currentPower) &&
                          currentEnergy == old(currentEnergy)
      ensures o.Pass? ==> currentTimestamp == t && currentPower == powerSetpoint + powerSharing
      ensures o.Pass? ==> currentEnergy == EnergyAfter(old(currentEnergy), currentPower,
                                                        (t - old(currentTimestamp)) as real * SecToHourFactor,
                                                        loader.chargeEfficiency, loader.dischargeEfficiency)
      ensures o.Pass? ==> outOfBounds == !WithinBounds(loader.energyBounds, currentEnergy)
      ensures powerSetpoint == old(powerSetpoint) && powerSharing == old(powerSharing)
    {
      var previous := currentTimestamp;
      match CheckStepTimestamp(currentTimestamp, t) {
        case Err(e) => return Fail(e), false;
        case Ok(next) => currentTimestamp := next;
      }
      var hours := (t - previous) as real * SecToHourFactor;
      currentPower := powerSetpoint + powerSharing;
      var energy := EnergyAfter(currentEnergy, currentPower, hours, loader.chargeEfficiency, loader.dischargeEfficiency);
      outOfBounds := energy < loader.energyBounds.min || energy > loader.energyBounds.max;
      currentEnergy := energy;
      o := Pass;
    }

    /** `current_simulation_data`: energy, sharing, setpoint and current power. */
    function CurrentSimulationData(): (d: ComponentSimulationData)
      reads this
      ensures d.name == name && d.values.Keys == {"current_energy", "power_sharing", "power_setpoint", "current_power"}
      ensures d.values["current_energy"] == Number(currentEnergy) && d.values["current_power"] == Number(currentPower)
    {
      ComponentSimulationData(name, map["current_energy" := Number(currentEnergy),
                                        "power_sharing" := Number(powerSharing),
                                        "power_setpoint" := Number(powerSetpoint),
                                        "current_power" := Number(currentPower)])
    }

    method AddSimulationData(storage: MemoryDataStorage)
      modifies storage, storage.historicalData
      ensures storage.historicalData.timestamps == old(storage.historicalData.timestamps) + [currentTimestamp]
      ensures storage.historicalData.data == old(storage.historicalData.data) + [CurrentSimulationData()]
    {
      storage.AddSimulationData(currentTimestamp, CurrentSimulationData());
    }
  }

  // ------------------------------------------------------------ thermal

  /**
   * The thermal setter's policy as (new setpoint, new switch state): a value
   * within the bounds is taken and switches the unit on (this branch wins
   * even for 0); otherwise 0 switches it off; anything else is a `ValueError`.
   */
  function ThermalSetpoint(bounds: Bounds, v: real): Result<(real, bool)>
  {
    if bounds.min <= v <= bounds.max then Ok((v, true))
    else if v == 0.0 then Ok((0.0, false))
    else Err(ValueError)
  }

  /** After a successful assignment the setpoint is 0 or within the bounds, and the unit is on iff it is within them. */
  lemma ThermalSetpointMeaning(bounds: Bounds, v: real)
    ensures ThermalSetpoint(bounds, v).Ok? <==> WithinBounds(bounds, v) || v == 0.0
    ensures ThermalSetpoint(bounds, v).Ok? ==>
              var (sp, on) := ThermalSetpoint(bounds, v).value;
              sp == v && (on <==> WithinBounds(bounds, v)) && (sp == 0.0 || WithinBounds(bounds, sp))
    ensures ThermalSetpoint(bounds, v).Err? ==> ThermalSetpoint(bounds, v).error == ValueError
  {
  }

  /**
   * The thermal `droop_gain_inverse`: reading the never-assigned switch state
   * raises `AttributeError`; an off unit has inverse 0; an on unit divides by
   * the droop gain (`ZeroDivisionError` for gain 0).
   */
  function ThermalDroopGainInverse(switchState: Option<bool>, droopGain: real): (r: Result<real>)
    ensures switchState == Some(false) ==> r == Ok(0.0)
    ensures switchState.None? ==> r == Err(AttributeError)
    ensures switchState == Some(true) ==> (r.Ok? <==> droopGain != 0.0)
    ensures switchState == Some(true) && r.Ok? ==> r.value * droopGain == 1.0
    ensures droopGain >= 0.0 && r.Ok? ==> r.value >= 0.0
  {
    match switchState
    case None => Err(AttributeError)
    case Some(on) =>
      if !on then Ok(0.0)
      else if droopGain == 0.0 then Err(ZeroDivisionError)
      else Ok(1.0 / droopGain)
  }

  class ThermalGenerator {
    const name: string
    const loader: ThermalGeneratorDataLoader
    const componentType: ComponentType
    const isGridFormingUnit: bool
    var currentPower: real
    var currentTimestamp: int
    var powerSetpoint: real
    var powerSharing: real
    var switchState: Option<bool>

    /**
     * What the generic initialiser leaves: grid-forming, setpoint and sharing
     * 0, type `Unknown`, no switch state; the loader's `switch_state` is never read.
     */
    constructor (name: string, loader: ThermalGeneratorDataLoader)
      ensures this.name == name && this.loader == loader && componentType == Unknown && isGridFormingUnit
      ensures currentPower == 0.0 && currentTimestamp == loader.base.initialTimestamp
      ensures powerSetpoint == 0.0 && powerSharing == 0.0 && switchState == None
    {
      this.name := name;
      this.loader := loader;
      componentType := Unknown;
      isGridFormingUnit := true;
      currentPower := 0.0;
      currentTimestamp := loader.base.initialTimestamp;
      powerSetpoint := 0.0;
      powerSharing := 0.0;
      switchState := None;
    }

    function DroopGainInverse(): Result<real>
      reads this
    {
      ThermalDroopGainInverse(switchState, loader.base.droopGain)
    }

    /** The thermal `power_setpoint` setter: applies `ThermalSetpoint`; a rejected value changes nothing. */
    method SetPowerSetpoint(v: real) returns (o: Outcome)
      modifies this
      ensures o.Fail? <==> ThermalSetpoint(loader.base.powerBounds, v).Err?
      ensures o.Fail? ==> o.error == ValueError && powerSetpoint == old(powerSetpoint) && switchState == old(switchState)
      ensures o.Pass? ==> powerSetpoint == ThermalSetpoint(loader.base.powerBounds, v).value.0 &&
                          switchState == Some(ThermalSetpoint(loader.base.powerBounds, v).value.1)
      ensures currentPower == old(currentPower) && currentTimestamp == old(currentTimestamp) && powerSharing == old(powerSharing)
    {
      match ThermalSetpoint(loader.base.powerBounds, v) {
        case Err(e) => return Fail(e);
        case Ok((sp, on)) =>
          powerSetpoint := sp;
          switchState := Some(on);
          return Pass;
      }
    }

    /**
     * `participate_power_sharing` with the thermal inverse: an error of the
     * inverse escapes; an off unit gets sharing 0.
     */
    method ParticipatePowerSharing(deltaFrequency: real) returns (o: Outcome)
      modifies this
      ensures o.Fail? <==> DroopGainInverse().Err?
      ensures o.Fail? ==> o.error == DroopGainInverse().error && powerSharing == old(powerSharing)
      ensures o.Pass? ==> powerSharing == PowerSharing(DroopGainInverse().value, deltaFrequency)
      ensures switchState == Some(false) ==> o.Pass? && powerSharing == 0.0
      ensures currentPower == old(currentPower) && currentTimestamp == old(currentTimestamp)
      ensures powerSetpoint == old(powerSetpoint) && switchState == old(switchState)
    {
      match DroopGainInverse() {
        case Err(e) => return Fail(e);
        case Ok(inverse) =>
          powerSharing := PowerSharing(inverse, deltaFrequency);
          return Pass;
      }
    }

    /** `step`: the timestamp check, then output `sharing + setpoint`. */
    method Step(t: int) returns (o: Outcome)
      modifies this
      ensures o.Fail? <==> CheckStepTimestamp(old(currentTimestamp), t).Err?
      ensures o.Fail? ==> o.error == StepPreviousTimestamp
      ensures o.Fail? ==> currentTimestamp == old(currentTimestamp) && currentPower == old(currentPower)
      ensures o.Pass? ==> currentTimestamp == t && currentPower == powerSharing + powerSetpoint
      ensures powerSetpoint == old(powerSetpoint) && powerSharing == old(powerSharing) && switchState == old(switchState)
    {
      match CheckStepTimestamp(currentTimestamp, t) {
        case Err(e) => return Fail(e);
        case Ok(next) => currentTimestamp := next;
      }
      currentPower := powerSharing + powerSetpoint;
      return Pass;
    }

    /**
     * `current_simulation_data`: setpoint, sharing, current power and switch
     * state. Before the first setpoint the switch state was never assigned,
     * so reading it raises `AttributeError`.
     */
    function CurrentSimulationData(): (r: Result<ComponentSimulationData>)
      reads this
      ensures r.Err? <==> switchState.None?
      ensures r.Err? ==> r.error == AttributeError
      ensures r.Ok? ==> r.value.name == name
      ensures r.Ok? ==> r.value.values.Keys == {"power_setpoint", "power_sharing", "current_power", "switch_state"}
      ensures r.Ok? ==> r.value.values["switch_state"] == Switch(switchState.value)
      ensures r.Ok? ==> r.value.values["current_power"] == Number(currentPower)
      ensures r.Ok? ==> r.value.values["power_setpoint"] == Number(powerSetpoint)
      ensures r.Ok? ==> r.value.values["power_sharing"] == Number(powerSharing)
    {
      match switchState
      case None => Err(AttributeError)
      case Some(on) =>
        Ok(ComponentSimulationData(name, map["power_setpoint" := Number(powerSetpoint),
                                             "power_sharing" := Number(powerSharing),
                                             "current_power" := Number(currentPower),
                                             "switch_state" := Switch(on)]))
    }

    /** `add_simulation_data`: the snapshot's `AttributeError` escapes before anything is stored. */
    method AddSimulationData(storage: MemoryDataStorage) returns (o: Outcome)
      modifies storage, storage.historicalData
      ensures o.Fail? <==> switchState.None?
      ensures o.Fail? ==> o.error == AttributeError && storage.currentTimestamp == old(storage.currentTimestamp)
      ensures o.Fail? ==> storage.historicalData.timestamps == old(storage.historicalData.timestamps)
      ensures o.Fail? ==> storage.historicalData.data == old(storage.historicalData.data)
      ensures o.Pass? ==> storage.historicalData.timestamps == old(storage.historicalData.timestamps) + [currentTimestamp]
      ensures o.Pass? ==> storage.historicalData.data == old(storage.historicalData.data) + [CurrentSimulationData().value]
    {
      var d := CurrentSimulationData();
      if d.Err? {
        return Fail(d.error);
      }
      storage.AddSimulationData(currentTimestamp, d.value);
      return Pass;
    }
  }
}
