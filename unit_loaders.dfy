/**
 * The validating unit data loaders: storage and thermal
 * (src/microgrid/data_loader/component/grid_forming_unit.py), load demand
 * (src/microgrid/data_loader/component/load_demand.py) and renewable
 * (src/data_loader/component/renewable_unit.py).
 *
 * Interpolation is foreign: a simulation series carries its `resample`
 * function and a power table its `lookup` function, both taken as given.
 * The table's range check, which refuses to extrapolate, is modelled.
 */
module UnitLoaders {
  import opened Wrappers
  import opened SeqUtil
  import opened Timeseries

  /** The fields every generator loader has (`IGeneratorDataLoader`). */
  datatype GeneratorLoaderData = GeneratorLoaderData(
    initialTimestamp: int, powerBounds: Bounds, droopGain: real, gridFormingUnitFlag: bool)

  predicate WithinBounds(b: Bounds, x: real)
  {
    b.min <= x <= b.max
  }

  predicate ValidEfficiency(e: real)
  {
    0.0 < e <= 1.0
  }

  /** The `StoragePowerPlantDataLoader` construction checks, each raising `UnitDataLoaderError`. */
  predicate StorageLoaderAccepts(droopGain: real, energyBounds: Bounds, initialEnergy: real,
                                 chargeEfficiency: real, dischargeEfficiency: real)
  {
    droopGain >= 0.0 && WithinBounds(energyBounds, initialEnergy) &&
    ValidEfficiency(chargeEfficiency) && ValidEfficiency(dischargeEfficiency)
  }

  class StoragePowerPlantDataLoader {
    const base: GeneratorLoaderData
    const energyBounds: Bounds
    const chargeEfficiency: real
    const dischargeEfficiency: real
    var initialEnergy: real

    /** What construction established: always grid-forming, and the checks hold. */
    predicate Valid()
      reads this
    {
      base.gridFormingUnitFlag &&
      StorageLoaderAccepts(base.droopGain, energyBounds, initialEnergy, chargeEfficiency, dischargeEfficiency)
    }

    constructor (initialTimestamp: int, powerBounds: Bounds, droopGain: real, energyBounds: Bounds,
                 initialEnergy: real, chargeEfficiency: real, dischargeEfficiency: real)
      requires StorageLoaderAccepts(droopGain, energyBounds, initialEnergy, chargeEfficiency, dischargeEfficiency)
      ensures base == GeneratorLoaderData(initialTimestamp, powerBounds, droopGain, true)
      ensures this.energyBounds == energyBounds && this.initialEnergy == initialEnergy
      ensures this.chargeEfficiency == chargeEfficiency && this.dischargeEfficiency == dischargeEfficiency
      ensures Valid()
    {
      base := GeneratorLoaderData(initialTimestamp, powerBounds, droopGain, true);
      this.energyBounds := energyBounds;
      this.initialEnergy := initialEnergy;
      this.chargeEfficiency := chargeEfficiency;
      this.dischargeEfficiency := dischargeEfficiency;
    }

    /** The `initial_energy` setter: takes `v` only within the energy bounds, else only warns. */
    method SetInitialEnergy(v: real) returns (accepted: bool)
      requires Valid()
      modifies this
      ensures accepted <==> WithinBounds(energyBounds, v)
      ensures initialEnergy == if accepted then v else old(initialEnergy)
      ensures Valid()
    {
      accepted := WithinBounds(energyBounds, v);
      if accepted {
        initialEnergy := v;
      }
    }
  }

  /** `StoragePowerPlantDataLoader(...)`: a loader, or `UnitDataLoaderError` when a check fails. */
  method NewStoragePowerPlantDataLoader(initialTimestamp: int, powerBounds: Bounds, droopGain: real,
                                        energyBounds: Bounds, initialEnergy: real,
                                        chargeEfficiency: real, dischargeEfficiency: real)
    returns (r: Result<StoragePowerPlantDataLoader>)
    ensures r.Err? <==> !StorageLoaderAccepts(droopGain, energyBounds, initialEnergy, chargeEfficiency, dischargeEfficiency)
    ensures r.Err? ==> r.error == UnitDataLoader
    ensures r.Ok? ==> fresh(r.value) && r.value.Valid() && r.value.initialEnergy == initialEnergy
    ensures r.Ok? ==> r.value.base == GeneratorLoaderData(initialTimestamp, powerBounds, droopGain, true)
  {
    if !StorageLoaderAccepts(droopGain, energyBounds, initialEnergy, chargeEfficiency, dischargeEfficiency) {
      return Err(UnitDataLoader);
    }
    var loader := new StoragePowerPlantDataLoader(initialTimestamp, powerBounds, droopGain, energyBounds,
                                                  initialEnergy, chargeEfficiency, dischargeEfficiency);
    return Ok(loader);
  }

  datatype ThermalGeneratorDataLoader = ThermalGeneratorDataLoader(base: GeneratorLoaderData, switchState: bool)

  /** `ThermalGeneratorDataLoader(...)`: rejects a negative droop gain; always grid-forming. */
  function MakeThermalGeneratorDataLoader(initialTimestamp: int, powerBounds: Bounds, droopGain: real,
                                          switchState: bool): (r: Result<ThermalGeneratorDataLoader>)
    ensures r.Err? <==> droopGain < 0.0
    ensures r.Err? ==> r.error == UnitDataLoader
    ensures r.Ok? ==> r.value.base.gridFormingUnitFlag && r.value.switchState == switchState
    ensures r.Ok? ==> r.value.base.droopGain == droopGain && r.value.base.powerBounds == powerBounds
  {
    if droopGain < 0.0 then Err(UnitDataLoader)
    else Ok(ThermalGeneratorDataLoader(GeneratorLoaderData(initialTimestamp, powerBounds, droopGain, true), switchState))
  }

  /** `SimulationTimeSeries`: its sample timestamps and the interpolating `resample`. */
  datatype SimulationTimeSeries = SimulationTimeSeries(timestamps: seq<int>, resample: int -> real)

  /** The data window `[min(timestamps), max(timestamps)]` of a series, `ValueError` when it has no timestamps. */
  function Window(series: SimulationTimeSeries): (r: Result<(int, int)>)
    ensures r.Err? <==> |series.timestamps| == 0
    ensures r.Err? ==> r.error == ValueError
    ensures r.Ok? ==> r.value.0 in series.timestamps && r.value.1 in series.timestamps
    ensures r.Ok? ==> forall t :: t in series.timestamps ==> r.value.0 <= t <= r.value.1
  {
    if |series.timestamps| == 0 then Err(ValueError)
    else Ok((MinInt(series.timestamps), MaxInt(series.timestamps)))
  }

  datatype LoadDemandDataLoader = LoadDemandDataLoader(
    initialTimestamp: int, series: SimulationTimeSeries, minTimestamp: int, maxTimestamp: int)
  {
    /** `get_data`: the resampled demand inside the window, 0 (with a warning) outside. */
    function GetData(t: int): (r: real)
      ensures minTimestamp <= t <= maxTimestamp ==> r == series.resample(t)
      ensures !(minTimestamp <= t <= maxTimestamp) ==> r == 0.0
    {
      if minTimestamp <= t <= maxTimestamp then series.resample(t) else 0.0
    }
  }

  /** `LoadDemandDataLoader(...)`: only an initial timestamp after the last sample is rejected. */
  function MakeLoadDemandDataLoader(initialTimestamp: int, series: SimulationTimeSeries): (r: Result<LoadDemandDataLoader>)
    ensures |series.timestamps| == 0 ==> r == Err(ValueError)
    ensures |series.timestamps| > 0 ==>
              (r.Ok? <==> exists u :: u in series.timestamps && initialTimestamp <= u)
    ensures r.Err? && |series.timestamps| > 0 ==> r.error == UnitDataLoader
    ensures r.Ok? ==> r.value.initialTimestamp == initialTimestamp && r.value.series == series
    ensures r.Ok? ==> (r.value.minTimestamp, r.value.maxTimestamp) == Window(series).value
  {
    match Window(series)
    case Err(e) => Err(e)
    case Ok(w) =>
      if initialTimestamp > w.1 then Err(UnitDataLoader)
      else Ok(LoadDemandDataLoader(initialTimestamp, series, w.0, w.1))
  }

  /** `SamplePointsToPowerTable`: sample points, the power at each, and the interpolating `lookup`. */
  datatype SamplePointsToPowerTable = SamplePointsToPowerTable(points: seq<real>, powerValues: seq<real>, lookup: real -> real)
  {
    /** The closed interval the interpolator covers: from the least to the greatest sample point. */
    predicate Covers(x: real)
    {
      |points| > 0 && MinReal(points) <= x <= MaxReal(points)
    }

    /**
     * `available_power_at_sample_point`: the interpolator refuses a point
     * outside the sample points' range, and the wrapper re-raises that as
     * `ValueError`; inside it the interpolated power.
     */
    function AvailablePowerAtSamplePoint(x: real): (r: Result<real>)
      ensures r.Ok? <==> |points| > 0 && (exists p :: p in points && p <= x) && (exists q :: q in points && x <= q)
      ensures r.Err? ==> r.error == ValueError
      ensures r.Ok? ==> r.value == lookup(x)
    {
      if Covers(x) then Ok(lookup(x)) else Err(ValueError)
    }
  }

  /**
   * The table's construction: both lists must start at 0 (an empty list
   * raises `IndexError`, a non-zero head `AssertionError`), then the
   * interpolator needs equally long lists of at least two entries (`ValueError`).
   */
  function MakePowerTable(points: seq<real>, powerValues: seq<real>, lookup: real -> real): (r: Result<SamplePointsToPowerTable>)
    ensures r.Ok? <==> |points| >= 2 && |points| == |powerValues| && points[0] == 0.0 && powerValues[0] == 0.0
    ensures r.Ok? ==> r.value == SamplePointsToPowerTable(points, powerValues, lookup)
    ensures |points| == 0 ==> r == Err(IndexError)
  {
    if |points| == 0 then Err(IndexError)
    else if points[0] != 0.0 then Err(AssertionError)
    else if |powerValues| == 0 then Err(IndexError)
    else if powerValues[0] != 0.0 then Err(AssertionError)
    else if |points| != |powerValues| || |points| < 2 then Err(ValueError)
    else Ok(SamplePointsToPowerTable(points, powerValues, lookup))
  }

  datatype RenewableUnitDataLoader = RenewableUnitDataLoader(
    base: GeneratorLoaderData, table: SamplePointsToPowerTable, series: SimulationTimeSeries,
    minTimestamp: int, maxTimestamp: int)
  {
    /**
     * `get_data`: the table's power at the resampled point inside the
     * window, where a point outside the table escapes as `ValueError`;
     * 0 outside the window.
     */
    function GetData(t: int): (r: Result<real>)
      ensures r.Err? <==> minTimestamp <= t <= maxTimestamp && !table.Covers(series.resample(t))
      ensures r.Err? ==> r.error == ValueError
      ensures r.Ok? && minTimestamp <= t <= maxTimestamp ==> r.value == table.lookup(series.resample(t))
      ensures !(minTimestamp <= t <= maxTimestamp) ==> r == Ok(0.0)
    {
      if minTimestamp <= t <= maxTimestamp then table.AvailablePowerAtSamplePoint(series.resample(t)) else Ok(0.0)
    }
  }

  /**
   * `RenewableUnitDataLoader(...)`: power bounds are the least and greatest
   * table power; droop gain 0 and not grid-forming (the base defaults); an
   * initial timestamp after the last sample is rejected.
   */
  function MakeRenewableUnitDataLoader(initialTimestamp: int, table: SamplePointsToPowerTable,
                                       series: SimulationTimeSeries): (r: Result<RenewableUnitDataLoader>)
    requires |table.powerValues| > 0
    ensures |series.timestamps| == 0 ==> r == Err(ValueError)
    ensures |series.timestamps| > 0 ==> (r.Ok? <==> exists u :: u in series.timestamps && initialTimestamp <= u)
    ensures r.Err? && |series.timestamps| > 0 ==> r.error == UnitDataLoader
    ensures r.Ok? ==> r.value.base.droopGain == 0.0 && !r.value.base.gridFormingUnitFlag
    ensures r.Ok? ==> r.value.base.initialTimestamp == initialTimestamp && r.value.table == table && r.value.series == series
    ensures r.Ok? ==> (r.value.minTimestamp, r.value.maxTimestamp) == Window(series).value
    ensures r.Ok? ==> r.value.base.powerBounds.min in table.powerValues && r.value.base.powerBounds.max in table.powerValues
    ensures r.Ok? ==> forall p :: p in table.powerValues ==> r.value.base.powerBounds.min <= p <= r.value.base.powerBounds.max
  {
    var bounds := Bounds(MinReal(table.powerValues), MaxReal(table.powerValues));
    match Window(series)
    case Err(e) => Err(e)
    case Ok(w) =>
      if initialTimestamp > w.1 then Err(UnitDataLoader)
      else Ok(RenewableUnitDataLoader(GeneratorLoaderData(initialTimestamp, bounds, 0.0, false), table, series, w.0, w.1))
  }

  /**
   * At every sample timestamp both loaders consult their data, never the
   * out-of-window 0: the demand is the resampled series, and the renewable
   * power is the table's answer at the resampled point, which is
   * `ValueError` exactly when that point lies outside the table.
   */
  lemma SampleTimesInWindow(load: LoadDemandDataLoader, renewable: RenewableUnitDataLoader, t: int)
    requires Window(load.series) == Ok((load.minTimestamp, load.maxTimestamp))
    requires Window(renewable.series) == Ok((renewable.minTimestamp, renewable.maxTimestamp))
    ensures t in load.series.timestamps ==> load.GetData(t) == load.series.resample(t)
    ensures t in renewable.series.timestamps ==>
              renewable.GetData(t) == renewable.table.AvailablePowerAtSamplePoint(renewable.series.resample(t))
    ensures t in renewable.series.timestamps ==>
              (renewable.GetData(t).Err? <==> !renewable.table.Covers(renewable.series.resample(t)))
  {
  }

  /** The unit-test table (points 0..4, powers 0..40): point 2 gives the interpolated power, point 6 `ValueError`. */
  lemma PowerTableExample(lookup: real -> real)
    ensures MakePowerTable([0.0, 1.0, 2.0, 3.0, 4.0], [0.0, 10.0, 20.0, 30.0, 40.0], lookup).Ok?
    ensures MakePowerTable([0.0, 1.0, 2.0, 3.0, 4.0], [0.0, 10.0, 20.0, 30.0, 40.0], lookup).value.AvailablePowerAtSamplePoint(6.0) == Err(ValueError)
    ensures MakePowerTable([0.0, 1.0, 2.0, 3.0, 4.0], [0.0, 10.0, 20.0, 30.0, 40.0], lookup).value.AvailablePowerAtSamplePoint(2.0) == Ok(lookup(2.0))
  {
    var table := SamplePointsToPowerTable([0.0, 1.0, 2.0, 3.0, 4.0], [0.0, 10.0, 20.0, 30.0, 40.0], lookup);
    assert 0.0 in table.points && 4.0 in table.points && 2.0 in table.points;
    assert !table.Covers(6.0);
  }
}
