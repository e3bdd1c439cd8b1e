/**
 * The `IGeneratorComponent` polymorphism of the microgrid: a generator is a
 * storage plant, a thermal generator or a renewable unit, and the microgrid
 * calls the same protocol on each (step, setpoint, droop inverse, power
 * sharing). `GeneratorRef` names one generator object and dispatches.
 */
module Generators {
  import opened Wrappers
  import opened Timeseries
  import opened ComponentInterface
  import opened GeneratorInterface
  import opened GridFormingUnit
  import opened RenewableUnit

  datatype GeneratorRef =
    | StorageRef(storage: StoragePowerPlant)
    | ThermalRef(thermal: ThermalGenerator)
    | RenewableRef(renewable: RenewablePowerUnit)
  {
    function Obj(): object
    {
      match this
      case StorageRef(s) => s
      case ThermalRef(g) => g
      case RenewableRef(u) => u
    }

    function Name(): string
    {
      match this
      case StorageRef(s) => s.name
      case ThermalRef(g) => g.name
      case RenewableRef(u) => u.name
    }

    /** `is_grid_forming_unit()`. */
    predicate Forming()
    {
      match this
      case StorageRef(s) => s.isGridFormingUnit
      case ThermalRef(g) => g.isGridFormingUnit
      case RenewableRef(u) => u.isGridFormingUnit
    }

    function PowerBounds(): Bounds
    {
      match this
      case StorageRef(s) => s.loader.base.powerBounds
      case ThermalRef(g) => g.loader.base.powerBounds
      case RenewableRef(u) => u.loader.base.powerBounds
    }

    /** The unit's object invariant (only the storage plant has one). */
    predicate Valid()
    {
      match this
      case StorageRef(s) => s.Valid()
      case ThermalRef(_) => true
      case RenewableRef(_) => true
    }

    function Power(): real
      reads Obj()
    {
      match this
      case StorageRef(s) => s.currentPower
      case ThermalRef(g) => g.currentPower
      case RenewableRef(u) => u.currentPower
    }

    function Timestamp(): int
      reads Obj()
    {
      match this
      case StorageRef(s) => s.currentTimestamp
      case ThermalRef(g) => g.currentTimestamp
      case RenewableRef(u) => u.currentTimestamp
    }

    function Setpoint(): real
      reads Obj()
    {
      match this
      case StorageRef(s) => s.powerSetpoint
      case ThermalRef(g) => g.powerSetpoint
      case RenewableRef(u) => u.powerSetpoint
    }

    function Sharing(): real
      reads Obj()
    {
      match this
      case StorageRef(s) => s.powerSharing
      case ThermalRef(g) => g.powerSharing
      case RenewableRef(u) => u.powerSharing
    }

    /** `droop_gain_inverse()`: only the thermal generator's can fail. */
    function Inverse(): (r: Result<real>)
      reads Obj()
      ensures !ThermalRef? ==> r.Ok?
    {
      match this
      case StorageRef(s) => Ok(s.DroopGainInverse())
      case ThermalRef(g) => g.DroopGainInverse()
      case RenewableRef(u) => Ok(u.DroopGainInverse())
    }

    /**
     * Whether the unit's `power_setpoint` setter accepts `v`: within the power
     * bounds, or (thermal only) exactly 0, which switches the unit off.
     */
    predicate AcceptsSetpoint(v: real)
    {
      match this
      case ThermalRef(_) => ThermalSetpoint(PowerBounds(), v).Ok?
      case _ => CheckSetpoint(PowerBounds(), v).Pass?
    }

    /**
     * Whether the unit has data for `t`: only a renewable unit's loader can
     * fail, on a sample point outside its power table.
     */
    predicate DataAt(t: int)
    {
      match this
      case RenewableRef(u) => u.loader.GetData(t).Ok?
      case _ => true
    }

    /**
     * The output the unit holds after a `step(t)` that passes the timestamp
     * check: setpoint plus sharing for storage and thermal units, the
     * clipped availability for a renewable unit, whose output stays as it
     * is when its data at `t` is missing.
     */
    function PowerAfterStep(t: int): real
      reads Obj()
    {
      match this
      case StorageRef(s) => s.powerSetpoint + s.powerSharing
      case ThermalRef(g) => g.powerSharing + g.powerSetpoint
      case RenewableRef(u) =>
        match u.loader.GetData(t)
        case Ok(available) => ClippedPower(available, u.powerSetpoint)
        case Err(_) => u.currentPower
    }
  }

  /** Storage and thermal units output setpoint plus sharing when they step. */
  lemma PowerAfterStepGridForming(g: GeneratorRef, t: int)
    requires !g.RenewableRef?
    ensures g.PowerAfterStep(t) == g.Setpoint() + g.Sharing()
  {
  }

  /** `unit.step(t)` on whichever generator `g` names. */
  method StepGenerator(g: GeneratorRef, t: int) returns (o: Outcome)
    requires g.Valid()
    modifies g.Obj()
    ensures o.Fail? <==> t <= old(g.Timestamp()) || !g.DataAt(t)
    ensures t <= old(g.Timestamp()) ==> o == Fail(StepPreviousTimestamp) && g.Timestamp() == old(g.Timestamp())
    ensures old(g.Timestamp()) < t ==> g.Timestamp() == t
    ensures old(g.Timestamp()) < t && !g.DataAt(t) ==> o == Fail(ValueError)
    ensures o.Fail? ==> g.Power() == old(g.Power())
    ensures o.Pass? ==> g.Power() == old(g.PowerAfterStep(t))
    ensures g.Setpoint() == old(g.Setpoint()) && g.Sharing() == old(g.Sharing()) && g.Inverse() == old(g.Inverse())
    ensures g.PowerAfterStep(t) == old(g.PowerAfterStep(t))
  {
    match g
    case StorageRef(s) =>
      var outOfBounds;
      o, outOfBounds := s.Step(t);
    case ThermalRef(th) =>
      o := th.Step(t);
    case RenewableRef(u) =>
      o := u.Step(t);
  }

  /** `unit.participate_power_sharing(Δf)`: fails only where the droop inverse does. */
  method ParticipateGenerator(g: GeneratorRef, deltaFrequency: real) returns (o: Outcome)
    modifies g.Obj()
    ensures o.Fail? <==> old(g.Inverse()).Err?
    ensures o.Fail? ==> o.error == old(g.Inverse()).error && g.Sharing() == old(g.Sharing())
    ensures o.Pass? ==> g.Sharing() == PowerSharing(old(g.Inverse()).value, deltaFrequency)
    ensures g.Setpoint() == old(g.Setpoint()) && g.Power() == old(g.Power()) && g.Timestamp() == old(g.Timestamp())
    ensures g.Inverse() == old(g.Inverse())
  {
    match g
    case StorageRef(s) =>
      s.ParticipatePowerSharing(deltaFrequency);
      o := Pass;
    case ThermalRef(th) =>
      o := th.ParticipatePowerSharing(deltaFrequency);
    case RenewableRef(u) =>
      u.ParticipatePowerSharing(deltaFrequency);
      o := Pass;
  }

  /**
   * `unit.power_setpoint = v`: the generic bounded setter for storage and
   * renewable units, the on/off policy for thermal generators.
   */
  method SetGeneratorSetpoint(g: GeneratorRef, v: real) returns (o: Outcome)
    modifies g.Obj()
    ensures o.Pass? <==> g.AcceptsSetpoint(v)
    ensures o.Fail? ==> o.error == ValueError && g.Setpoint() == old(g.Setpoint())
    ensures o.Pass? ==> g.Setpoint() == v
    ensures g.Power() == old(g.Power()) && g.Timestamp() == old(g.Timestamp()) && g.Sharing() == old(g.Sharing())
  {
    match g
    case StorageRef(s) =>
      o := s.SetPowerSetpoint(v);
    case ThermalRef(th) =>
      ThermalSetpointMeaning(th.loader.base.powerBounds, v);
      o := th.SetPowerSetpoint(v);
    case RenewableRef(u) =>
      o := u.SetPowerSetpoint(v);
  }
}
