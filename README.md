# A verified model of the microgrid simulator and its MPC layer

This project models the core of a Python microgrid code base in Dafny and proves properties of that model. The code base simulates a small electrical microgrid tick by tick and builds model-predictive-control optimisation problems over the same units. The model covers six parts.

- **Time-series value types.** `Timestamps` is a strictly increasing, non-negative list with exact-match lookup, slicing and a restartable iteration cursor. `TimeseriesData`, `ConstantTimeseriesData`, `Bounds` and `BoundTimeseries` are records checked when they are built. `GridLine` compares as an undirected edge.
- **Grid topology and DC power flow.**
  - The incremental bus-set partition decides whether the lines connect every bus.
  - The admittance (Laplacian) matrix and the pinned DC matrix are filled into arrays.
  - The simulated grid keeps a per-bus injection buffer and checks that it balances to exactly zero.
  - Line flows are `y·(θ_from − θ_to)` with `θ = M·p` and the first bus pinned to angle 0.
- **The component stepping protocol.**
  - Every component steps only to a strictly later timestamp.
  - Generators have an inclusive setpoint check and the droop law: sharing is `−Δf·(1/gain)` for a positive gain, and 0 otherwise.
  - Storage keeps energy accounts with charge and discharge efficiencies.
  - Thermal generators follow an on/off setpoint policy.
  - Renewable output is clipped to the available power, and loads read their demand. A renewable sample point outside the power table raises `ValueError`, which escapes the unit's step and the tick.
  - The unit data loaders validate their input.
- **The microgrid tick.** It validates the aggregate data and builds the unit-to-bus incidence matrix. Units step in a fixed order, sharing one frequency deviation Δf, and their powers are aggregated per bus. Units are registered through a builder that rejects repeated names. The headline result: under the droop conditions the tick hands the grid an exactly balanced bus-power vector.
- **The append-only historical log**, whose timestamps stay strictly increasing.
- **The solver-independent optimisation layer.**
  - Declare-then-bind parameters, variables and constraints, scalar and time-indexed.
  - An operator-overloaded expression tree with a recursive evaluator, elementwise broadcast and `zip`.
  - Column-major array and matrix algebra, and the MPC horizon.
  - The per-unit MPC constraint builders: storage dynamics, thermal unit commitment, renewable availability cap and the load parameter.
  - The optimisation engine, modelled as a registry that hands out fresh solver handles.

Objects whose fields the code updates in place are Dafny classes with `modifies` frames. Frozen records and pure computations are datatypes and functions. Exceptions are `Result`/`Outcome` values carrying the exception kind. Numbers are exact reals; timestamps are integers (seconds).

Several quirks of the code are modelled as written:

- **Stale merge index.** The connectivity merge pops one set before indexing the other with an index computed earlier (`GridConnectivity.StaleMergeIndexError`, `GridConnectivity.StaleMergeWrongVerdict`).
- **Reshape, not transpose.** `VariableMatrix.T` reshapes the storage instead of transposing it (`Operation.TransposeIsReshape`).
- **`ThermalGenerator.__init` is misspelled.** The unit never gets its own initialisation, so its switch state does not exist before the first setpoint.
- **Cached droop-inverse sum.** The sum of droop-gain inverses is computed once and cached.
- **The tick is not atomic.** A failure leaves the units stepped before it in their new state.
- **`add_grid_model` branches are inverted.** The first call raises `IndexError`.
- **Thermal MPC bounds start at zero.** Each bound runs from zero, so a minimum power of 0 is refused with `AssertionError`.
- **Reflected operators and thermal list names are wrong.** Both are listed under Findings, together with their corrected versions.

## Model

| member | source | states |
|---|---|---|
| Component.MakeGridLine | src/common/model/component.py:42-44 | a line is built exactly when its two buses differ, else `ValueError` |
| Component.LineEqIff | src/common/model/component.py:29-40 | for constructed lines, `==` holds iff they join the same unordered bus pair with the same admittance |
| Component.LineEqSymmetric | src/common/model/component.py:29-44 | line equality is symmetric among constructed lines |
| Component.LineEqAsymmetricForSelfLoop | src/common/model/component.py:29-38 | without the construction check the comparison is not symmetric (self-loop against a proper line) |
| Component.ConnectedIffEndpoint | src/common/model/component.py:46-47 | a line touches exactly its two endpoints, and equal lines touch the same buses |
| Component.MakeControlComponentData | src/common/model/component.py:68-70 | a storage description without energy bounds is refused with `ValueError`; every other one is accepted |
| Timeseries.MakeTimestamps | src/common/timeseries/domain.py:14-21 | construction succeeds iff the values are strictly increasing and non-negative, else `AssertionError` |
| Timeseries.AdjacentIsSorted | src/common/timeseries/domain.py:16-17 | positive neighbour differences are the same as a pairwise strict order |
| Timeseries.ShortTimestampsAccepted | src/common/timeseries/domain.py:14-18 | the empty list and every single non-negative value are accepted |
| Timeseries.GetTimestampIndex | src/common/timeseries/domain.py:23-27 | the first position holding `t`, or `UnknownTimestampError` when `t` is absent |
| Timeseries.TimestampIndexUnique | src/common/timeseries/domain.py:23-25 | on valid timestamps the found position is the only one holding `t` |
| Timeseries.ClampUp | src/common/timeseries/domain.py:43-44 | a slice bound is normalised into `[0, n]` for a positive step |
| Timeseries.ClampDown | src/common/timeseries/domain.py:43-44 | a slice bound is normalised into `[-1, n-1]` for a negative step |
| Timeseries.SliceValues | src/common/timeseries/domain.py:43-44 | slicing follows Python's rules; a zero step is `ValueError` |
| Timeseries.SliceUpAt | src/common/timeseries/domain.py:43-44 | element k of a forward slice is `v[a + k·d]`, at a position below `b` |
| Timeseries.SlicePositiveStepValid | src/common/timeseries/domain.py:43-44 | a forward slice of valid timestamps always passes validation |
| Timeseries.SliceUnitStep | src/common/timeseries/domain.py:43-44 | a step-1 slice is the plain subsequence `v[a:b]` |
| Timeseries.SliceNegativeStepRejected | src/common/timeseries/domain.py:43-44 | a backward slice of two or more valid timestamps is refused with `AssertionError` |
| Timeseries.TimestampsIterator.constructor | src/common/timeseries/domain.py:14-19 | a new iterator has its cursor at 0 over the given values |
| Timeseries.TimestampsIterator.Next | src/common/timeseries/domain.py:29-35 | yields the next value and advances, or signals the end and resets the cursor to 0 |
| Timeseries.TimestampsIterator.Drain | src/common/timeseries/domain.py:29-38 | a loop run to the end yields the values from the cursor on and leaves the cursor at 0 |
| Timeseries.TimestampsIterator.Take | src/common/timeseries/domain.py:29-38 | a loop abandoned after k items leaves the shared cursor k positions further |
| Timeseries.MakeTimeseriesData | src/common/timeseries/domain.py:52-56 | a sampled series is built iff it has one value per timestamp, else `AssertionError` |
| Timeseries.GetValue | src/common/timeseries/domain.py:58-70 | an unknown timestamp raises `UnknownTimestampError` |
| Timeseries.Values | src/common/timeseries/domain.py:72-74 | a constant series has one copy of its value per timestamp |
| Timeseries.GetValueAtIndex | src/common/timeseries/domain.py:58-74 | on a well-formed series the value at `t_k` is entry k of its values |
| Timeseries.ConstantAsSampled | src/common/timeseries/domain.py:63-74 | a constant series answers every lookup like the sampled series of its values |
| Timeseries.MakeBounds | src/common/timeseries/domain.py:82-84 | `ValueError` exactly when `min > max`; equal bounds are accepted |
| Timeseries.PointwiseBelowMeans | src/common/timeseries/domain.py:100-101 | when the pointwise check passes, both series answer at every listed timestamp with `min < max` |
| Timeseries.MakeBoundTimeseries | src/common/timeseries/domain.py:95-104 | a bound series is built iff the timestamps agree and the pointwise check passes; differing timestamps raise `AssertionError`, a failed lookup raises that lookup's error |
| Timeseries.PointwiseBelowAll | src/common/timeseries/domain.py:100-101 | when both series answer at every listed timestamp with `min < max`, the pointwise check passes |
| Timeseries.BoundTimeseriesIff | src/common/timeseries/domain.py:95-104 | a bound series is built iff the timestamps agree and both series answer at every timestamp with `min < max` |
| Timeseries.PointwiseBelowConstant | src/common/timeseries/domain.py:100-110 | for constant series the pointwise check passes iff there are no timestamps or `lo < hi` |
| Timeseries.ConstantBoundTimeseriesOk | src/common/timeseries/domain.py:106-110 | a constant bound series exists iff the timestamps are empty or `lo < hi`, strictly |
| Timeseries.BoundAtKnownTimestamp | src/common/timeseries/domain.py:113-117 | on a built bound series every known timestamp gives a `Bounds` with `min < max`, equal to the pair `get_value` gives; unknown ones raise |
| GridConnectivity.Flags | src/common/model/grid_network_util.py:78-79 | one flag per set, true iff the bus is in that set |
| GridConnectivity.CheckGridNetworkConnected | src/common/model/grid_network_util.py:62-71 | the loop's verdict equals feeding the lines to the partition one by one: true iff exactly one set remains, with an escaping `IndexError` kept |
| GridConnectivity.ErrPersists | src/common/model/grid_network_util.py:64-66 | once the partition fails on a prefix, the whole run fails with the same error |
| GridConnectivity.Locate | src/common/model/grid_network_util.py:78-94 | in a disjoint partition a bus is in no set or in exactly one, the one `index(True)` finds |
| GridConnectivity.MergeConnected | src/common/model/grid_network_util.py:92-99 | joining two internally connected, disjoint sets by a line between them gives an internally connected set |
| GridConnectivity.StepEmpty | src/common/model/grid_network_util.py:75-76 | the first line gives a single set holding both endpoints, and the invariant holds |
| GridConnectivity.StepNew | src/common/model/grid_network_util.py:84-85 | a line with both endpoints unseen appends the set `[to, from]` and keeps the invariant |
| GridConnectivity.StepExtend | src/common/model/grid_network_util.py:86-91 | a line with exactly one endpoint seen adds the other endpoint to that set and keeps the invariant |
| GridConnectivity.StepSame | src/common/model/grid_network_util.py:92-96 | a line inside one set changes nothing and keeps the invariant |
| GridConnectivity.MergedShape | src/common/model/grid_network_util.py:98-99 | after `pop` and the concatenation, each set comes from the old list as the index shift dictates |
| GridConnectivity.StepMerge | src/common/model/grid_network_util.py:92-99 | with the target below the popped index, two sets merge and the invariant holds |
| GridConnectivity.Step | src/common/model/grid_network_util.py:73-101 | one `_update_bus_set` call off the hazard path keeps the partition invariant (disjoint, covering the endpoints seen, lines inside, sets connected) |
| GridConnectivity.PartitionInvariant | src/common/model/grid_network_util.py:63-66 | on a hazard-free run of constructed lines the partition exists and satisfies the invariant |
| GridConnectivity.OneSetIffConnected | src/common/model/grid_network_util.py:68-71 | a partition meeting the invariant has one set iff the lines form a connected network |
| GridConnectivity.ConnectedVerdictCorrect | src/common/model/grid_network_util.py:62-71 | off the hazard path the verdict is returned without error and is true iff the network is connected; no lines gives false |
| GridConnectivity.NoLinesNotConnected | src/common/model/grid_network_util.py:64-71 | an empty line list is judged not connected |
| GridConnectivity.PartitionOf3 | src/common/model/grid_network_util.py:64-66 | the partition of three lines, step by step |
| GridConnectivity.DisconnectedExample | src/common/model/grid_network_util.py:62-71 | lines 0-1, 1-2, 3-4 leave two sets, so the verdict is false |
| GridConnectivity.ConnectedExample | src/common/model/grid_network_util.py:62-71 | lines 0-1, 1-2, 3-1 leave one set, so the verdict is true |
| GridConnectivity.StaleMergeIndexError | src/common/model/grid_network_util.py:98-99 | the merge index computed before `pop` can run past the end of the shortened list (`IndexError`) |
| GridConnectivity.WrongVerdictMerge | src/common/model/grid_network_util.py:98-99 | with the target above the popped index, the popped set is appended to the wrong set |
| GridConnectivity.StaleMergeWrongVerdict | src/common/model/grid_network_util.py:62-101 | the stale index makes the verdict true for a network that is not connected |
| GridConnectivity.WrongVerdictNotConnected | src/common/model/grid_network_util.py:62-71 | the network of that example has a part that no line leaves |
| GridNetworkUtil.CheckLines | src/common/model/grid_network_util.py:15-18 | the per-line assertions pass iff every line joins two different listed buses, else `AssertionError` |
| GridNetworkUtil.CheckBusGridLines | src/common/model/grid_network_util.py:10-22 | true for no lines and one bus; otherwise true iff every line joins two different listed buses, else an escaping `AssertionError` |
| GridNetworkUtil.Incident | src/common/model/grid_network_util.py:24-26 | exactly the lines touching the bus, in list order |
| GridNetworkUtil.CalculateAdmittanceMatrix | src/common/model/grid_network_util.py:28-45 | the check's error escapes; otherwise an n×n matrix whose entries are the filled values plus the balancing diagonal |
| GridNetworkUtil.FillRows | src/common/model/grid_network_util.py:31-40 | starting from zeros, the per-bus loop leaves every entry at its filled off-diagonal value |
| GridNetworkUtil.AddDiagonal | src/common/model/grid_network_util.py:42-44 | adding the negated row sums on the diagonal turns the filled matrix into the admittance matrix |
| GridNetworkUtil.FillRow | src/common/model/grid_network_util.py:33-40 | each incident line writes `−admittance` at its other end's column; the last write wins |
| GridNetworkUtil.RowSum | src/common/model/grid_network_util.py:43 | the loop over a matrix row returns the sum of that row |
| GridNetworkUtil.RowSums | src/common/model/grid_network_util.py:42-44 | one row sum per bus |
| GridNetworkUtil.LastJoiningSymmetric | src/common/model/grid_network_util.py:32-40 | the last line joining a and b is the last line joining b and a |
| GridNetworkUtil.OtherEndColumn | src/common/model/grid_network_util.py:35-40 | a line at bus i writes column j exactly when it joins buses i and j |
| GridNetworkUtil.FilledIsLastJoining | src/common/model/grid_network_util.py:32-40 | off the diagonal the filled value is that of the last line joining the two buses |
| GridNetworkUtil.AdmittanceOffDiagonal | src/common/model/grid_network_util.py:29-45 | off the diagonal, entry [u, v] is `−admittance` of the last listed line joining u and v (parallel lines overwrite), 0 when none does |
| GridNetworkUtil.AdmittanceSymmetric | src/common/model/grid_network_util.py:29-45 | the admittance matrix is symmetric |
| GridNetworkUtil.AdmittanceRowSumZero | src/common/model/grid_network_util.py:42-44 | every row of the admittance matrix sums to zero |
| GridNetworkUtil.VerdictNeedsLines | src/common/model/grid_network_util.py:62-71 | a network judged connected has at least one line |
| GridNetworkUtil.PinFirstBus | src/common/model/grid_network_util.py:54-56 | row 0 and column 0 are zero except `[0, 0] = 1`; every other entry is kept |
| GridNetworkUtil.CalculatePinnedMatrix | src/common/model/grid_network_util.py:47-60 | nothing unless the lines are connected and pass the bus check; otherwise the admittance matrix with the first bus pinned; connectivity errors escape |
| GridLoader.SingleBusGridLoader.Snapshot | src/data_loader/component/grid_model.py:13-31 | the single-bus loader reports the bus `slack`, no lines, valid and connected |
| GridLoader.SingleBusOverridesPartition | src/data_loader/component/grid_model.py:27-31 | the loader's own "connected" answer differs from what the partition would say for no lines |
| GridLoader.CheckDuplicateGridLines | src/data_loader/component/grid_model.py:52-59 | true iff no line equals a line listed after it |
| GridLoader.EndpointSeq | src/data_loader/component/grid_model.py:76-80 | the endpoints in loop order, `to_bus` before `from_bus` |
| GridLoader.BusesOfSpec | src/data_loader/component/grid_model.py:74-81 | every endpoint is listed exactly once, and nothing else |
| GridLoader.BusesOfFront | src/data_loader/component/grid_model.py:74-81 | the first line's `to_bus` comes first, then its `from_bus` |
| GridLoader.GridNetworkDataLoader.constructor | src/data_loader/component/grid_model.py:35-40 | stores the given lines |
| GridLoader.GridNetworkDataLoader.ValidateGridLineData | src/data_loader/component/grid_model.py:46-50 | true for no lines, otherwise iff every line has distinct endpoints |
| GridLoader.GridNetworkDataLoader.ValidateGridLine | src/data_loader/component/grid_model.py:68-72 | a line may be added iff no equal line is listed |
| GridLoader.GridNetworkDataLoader.AddGridLine | src/data_loader/component/grid_model.py:61-66 | appends the line iff no equal line is listed, otherwise leaves the list unchanged; keeps the no-duplicates invariant |
| GridLoader.GridNetworkDataLoader.Buses | src/data_loader/component/grid_model.py:74-81 | the loop's result lists every endpoint once in first-appearance order |
| GridLoader.GridNetworkDataLoader.CheckGridNetworkConnected | src/data_loader/component/grid_model.py:83-122 | the same verdict as the shared partition algorithm, hazard included |
| GridLoader.GridNetworkDataLoader.Snapshot | src/data_loader/component/grid_model.py:42-91 | what a grid model built now reads: the lines, the buses and both verdicts |
| GridLoader.NewGridNetworkDataLoader | src/data_loader/component/grid_model.py:35-40 | `DuplicateGridModelError` iff two listed lines are equal; otherwise a valid loader over those lines |
| GridLoader.SnapshotLinesWithin | src/data_loader/component/grid_model.py:74-81 | every line of a loader joins two of its buses |
| GridNetworkModel.PhaseAngles | src/microgrid/model/component/grid_model.py:100-101 | one angle per bus: `θ[0] = 0` (the reference bus) and `θ[i] = (M·p)[i]` for the others |
| GridNetworkModel.LineFlows | src/microgrid/model/component/grid_model.py:103-107 | one flow per line, in line order |
| GridNetworkModel.LineFlowReversed | src/microgrid/model/component/grid_model.py:106 | reversing a line's direction negates its flow |
| GridNetworkModel.LineFlowZeroAtEqualAngles | src/microgrid/model/component/grid_model.py:106 | two buses at equal angles exchange no power |
| GridNetworkModel.FromLoaderLinesWithin | src/microgrid/model/component/grid_model.py:46-51 | what a loader hands over lists distinct buses and only lines between them |
| GridNetworkModel.GridNetwork.constructor | src/microgrid/model/component/grid_model.py:22-39 | the network starts with the given name, timestamp, buses, lines, flag, matrices and buffers, typed as a grid |
| GridNetworkModel.GridNetwork.SetBusPower | src/microgrid/model/component/grid_model.py:76-80 | writes exactly the entry at the bus's index; an unknown bus or an empty buffer is `UnknownComponentError` with the buffer unchanged |
| GridNetworkModel.GridNetwork.CalculateLinePower | src/microgrid/model/component/grid_model.py:95-109 | no lines gives no flows; otherwise the DC flows from the angles `θ = M·p` with `θ[0] = 0` |
| GridNetworkModel.GridNetwork.Step | src/microgrid/model/component/grid_model.py:111-118 | the timestamp check runs first and stays applied; an unbalanced buffer or invalid network is `SimulationGridError`; otherwise the line flows are recomputed |
| GridNetworkModel.GridNetwork.GetBusNeighbours | src/microgrid/model/component/grid_model.py:82-90 | the set of opposite endpoints of the lines touching the bus |
| GridNetworkModel.GridNetwork.GetBusGridLine | src/microgrid/model/component/grid_model.py:92-93 | exactly the lines touching the bus |
| GridNetworkModel.GridNetwork.CurrentSimulationData | src/microgrid/model/component/grid_model.py:120-122 | the snapshot holds exactly the line flows and the bus buffer |
| GridNetworkModel.NeighbourMeaning | src/microgrid/model/component/grid_model.py:82-90 | for constructed lines the neighbours are exactly the buses sharing a line with the bus, never the bus itself |
| GridNetworkModel.NewGridNetwork | src/microgrid/model/component/grid_model.py:22-39 | a connectivity error escapes; a disconnected network is invalid with an empty buffer; a connected one gets a zero buffer per bus and a zero flow per line |
| GridNetworkModel.ChainFlows | src/microgrid/model/component/grid_model.py:95-107 | the chain 0-1-2 with admittance 20 and injections −3, 5, −2 lists buses [1, 0, 2] and gives flows −3 and 2 |
| GridNetworkModel.SingleBusBalanced | src/microgrid/model/component/grid_model.py:95-118 | the single-bus network balances with a zero injection and has no line flows |
| MemoryStorage.CheckHistoricalData | src/microgrid/utils/memory_storage.py:16-19 | no timestamps are always accepted; one timestamp raises numpy's `ValueError`; otherwise accepted iff strictly increasing with one datum per timestamp, else `SimulationTimeseriesError` |
| MemoryStorage.HistoricalData.constructor | src/microgrid/utils/memory_storage.py:11-14 | the log holds the given timestamps and data |
| MemoryStorage.HistoricalData.AddData | src/microgrid/utils/memory_storage.py:21-30 | appends to both lists iff the timestamp is later than the last one (or the log is empty); a rejected call changes nothing; strict increase is kept |
| MemoryStorage.NewHistoricalData | src/microgrid/utils/memory_storage.py:16-19 | the construction check decides between a valid log and its error |
| MemoryStorage.AppendLaterSorted | src/microgrid/utils/memory_storage.py:22-27 | appending a later timestamp keeps a strictly increasing list strictly increasing |
| MemoryStorage.MemoryDataStorage.constructor | src/microgrid/utils/memory_storage.py:34-37 | initial and current timestamps are the given one, over an empty log |
| MemoryStorage.MemoryDataStorage.AddSimulationData | src/microgrid/utils/memory_storage.py:47-50 | appends to both lists with no ordering check and moves the current timestamp |
| MemoryStorage.SameTickBreaksOrder | src/microgrid/utils/memory_storage.py:47-50 | two stores at the same tick leave the log not strictly increasing |
| ComponentInterface.CheckStepTimestamp | src/microgrid/model/component_interface.py:53-56 | the new timestamp iff it is later than the current one, else `StepPreviousTimestamp` |
| ComponentInterface.StepAllIncreasing | src/microgrid/model/component_interface.py:53-56 | successive accepted steps have strictly increasing timestamps, all above the initial one |
| ComponentInterface.ConsSorted | src/microgrid/model/component_interface.py:53-56 | a list with a new head is strictly increasing iff the head is below the old head and the rest is |
| GeneratorInterface.CheckSetpoint | src/model/generator_interface.py:37-43 | a setpoint is accepted iff `min <= v <= max`, else `ValueError` |
| GeneratorInterface.DroopGainInverse | src/model/generator_interface.py:27-31 | 0 for a zero gain, else a value whose product with the gain is 1; non-negative for a non-negative gain |
| GeneratorInterface.PowerSharing | src/model/generator_interface.py:45-49 | a non-negative inverse gives sharing `−Δf·inverse`, a non-positive one gives 0 (the two agree at 0) |
| Generators.GeneratorRef.Inverse | src/model/generator_interface.py:27-31 | the droop gain inverse of a storage plant or renewable unit always exists; only a thermal generator's can fail |
| Generators.PowerAfterStepGridForming | src/microgrid/model/component/grid_forming_unit.py:103-105 | a storage plant or thermal generator outputs setpoint plus power sharing after a step |
| Generators.StepGenerator | src/microgrid/model/microgrid_model.py:127-136 | stepping any generator fails iff the time does not advance (`StepPreviousTimestamp`, timestamp kept) or a renewable unit's data at `t` is missing (`ValueError`, timestamp already `t`); a failure keeps the power; a pass leaves the generator at `t` with its unit-specific output; setpoint, sharing and droop inverse are unchanged |
| Generators.ParticipateGenerator | src/microgrid/model/microgrid_model.py:133-135 | power sharing fails exactly when the droop inverse cannot be read, with that error; otherwise sharing becomes `PowerSharing(inverse, Δf)`; setpoint, power and timestamp are untouched |
| Generators.SetGeneratorSetpoint | src/microgrid/model/microgrid_model.py:86-90 | a setpoint is stored iff the unit's setter accepts it, else `ValueError` and the old setpoint stays; power, timestamp and sharing are untouched |
| GridFormingUnit.EnergyDirection | src/microgrid/model/component/grid_forming_unit.py:44-49 | discharging (power ≥ 0) never raises the stored energy and charging (power ≤ 0) never lowers it |
| GridFormingUnit.RoundTripNoGain | src/microgrid/model/component/grid_forming_unit.py:44-49 | discharging then charging at the same power for the same time never ends above the start energy, and returns to it exactly with both efficiencies 1 |
| GridFormingUnit.StorageTestValues | src/microgrid/model/component/grid_forming_unit.py:37-55 | 900 s at 2 kW from 2 kWh leaves 1.5 kWh and charging back restores 2 kWh; droop gain 0.5 at Δf 0.5 shares −1 |
| GridFormingUnit.StoragePowerPlant.constructor | src/microgrid/model/component/grid_forming_unit.py:18-23 | a new storage plant is a grid-forming storage unit at the loader's initial timestamp and energy, with zero power, setpoint and sharing |
| GridFormingUnit.StoragePowerPlant.SetPowerSetpoint | src/model/generator_interface.py:37-43 | the setpoint changes to `v` iff `min <= v <= max`, else `ValueError` and nothing changes |
| GridFormingUnit.StoragePowerPlant.ParticipatePowerSharing | src/model/generator_interface.py:45-49 | sharing becomes `PowerSharing(droop inverse, Δf)`; everything else is unchanged |
| GridFormingUnit.StoragePowerPlant.Step | src/microgrid/model/component/grid_forming_unit.py:37-55 | a non-advancing timestamp fails with `StepPreviousTimestamp` and changes nothing; otherwise power is setpoint plus sharing, energy follows the efficiency-weighted update over the elapsed hours, and the out-of-bounds flag is set iff the new energy leaves the energy bounds |
| GridFormingUnit.StoragePowerPlant.CurrentSimulationData | src/microgrid/model/component/grid_forming_unit.py:57-63 | the record holds exactly energy, sharing, setpoint and power, under the unit's name |
| GridFormingUnit.StoragePowerPlant.AddSimulationData | src/microgrid/model/component_interface.py:47-51 | the storage gains one entry: the current timestamp with the current simulation data |
| GridFormingUnit.ThermalSetpointMeaning | src/microgrid/model/component/grid_forming_unit.py:83-95 | the thermal setter accepts exactly values within the bounds or 0; the setpoint becomes `v`, the unit is on iff `v` is within the bounds, and otherwise the error is `ValueError` |
| GridFormingUnit.ThermalDroopGainInverse | src/microgrid/model/component/grid_forming_unit.py:97-101 | an off unit has inverse 0; an on unit's inverse times the gain is 1 and fails only for gain 0; an unset switch state raises `AttributeError` |
| GridFormingUnit.ThermalGenerator.constructor | src/microgrid/model/component/grid_forming_unit.py:66-73 | because the thermal initialiser is misspelt, only the base initialiser runs: the component type stays unknown and the switch state is never set |
| GridFormingUnit.ThermalGenerator.SetPowerSetpoint | src/microgrid/model/component/grid_forming_unit.py:83-95 | the setter fails with `ValueError` exactly when the thermal policy refuses `v`, leaving setpoint and switch; otherwise both take the policy's values |
| GridFormingUnit.ThermalGenerator.ParticipatePowerSharing | src/model/generator_interface.py:45-49 | sharing fails iff the thermal droop inverse fails, with its error; an off unit always shares 0 |
| GridFormingUnit.ThermalGenerator.Step | src/microgrid/model/component/grid_forming_unit.py:103-105 | a non-advancing timestamp fails and changes nothing; otherwise power is sharing plus setpoint |
| GridFormingUnit.ThermalGenerator.CurrentSimulationData | src/microgrid/model/component/grid_forming_unit.py:107-113 | before the first setpoint the switch state does not exist and reading the record raises `AttributeError`; otherwise the record holds exactly setpoint, sharing, power and switch state |
| GridFormingUnit.ThermalGenerator.AddSimulationData | src/microgrid/model/component_interface.py:47-51 | fails with `AttributeError` iff the switch state does not exist yet, and the storage is then unchanged; otherwise the storage gains the current timestamp with the current simulation data |
| RenewableUnit.ClippedPower | src/microgrid/model/component/renewable_unit.py:33 | the output is the smaller of available power and setpoint: below both and equal to one |
| RenewableUnit.RenewablePowerUnit.constructor | src/microgrid/model/component/renewable_unit.py:13-18 | a new renewable unit takes its grid-forming flag from the loader and starts with zero power, setpoint, sharing and available power |
| RenewableUnit.RenewablePowerUnit.SetPowerSetpoint | src/model/generator_interface.py:37-43 | the setpoint changes to `v` iff it is within the power bounds, else `ValueError` |
| RenewableUnit.RenewablePowerUnit.ParticipatePowerSharing | src/model/generator_interface.py:45-49 | sharing becomes `PowerSharing(droop inverse, Δf)`, nothing else changes |
| RenewableUnit.RenewablePowerUnit.Step | src/microgrid/model/component/renewable_unit.py:30-33 | a non-advancing timestamp fails and changes nothing; otherwise the timestamp becomes `t`, and a loader `ValueError` escapes with both powers unchanged; on a pass available power is the loader's data at `t` and power is that clipped by the setpoint |
| RenewableUnit.RenewablePowerUnit.CurrentSimulationData | src/microgrid/model/component/renewable_unit.py:35-38 | the record holds exactly power, available power and setpoint |
| RenewableUnit.RenewablePowerUnit.AddSimulationData | src/microgrid/model/component_interface.py:47-51 | the storage gains the current timestamp with the current simulation data |
| RenewableUnit.ClippingExamples | src/microgrid/model/component/renewable_unit.py:33 | available 5 with setpoint 6 gives 5; with setpoint 2 gives 2 |
| LoadDemandUnit.LoadDemand.constructor | src/microgrid/model/component/load_demand.py:11-14 | a new load is at the loader's initial timestamp with zero power |
| LoadDemandUnit.LoadDemand.CurrentSimulationData | src/microgrid/model/component/load_demand.py:16-18 | the record holds exactly the current power |
| LoadDemandUnit.LoadDemand.Step | src/microgrid/model/component/load_demand.py:20-22 | a non-advancing timestamp fails and changes nothing; otherwise power is the loader's demand at `t` |
| LoadDemandUnit.LoadDemand.AddSimulationData | src/microgrid/model/component_interface.py:47-51 | the storage gains the current timestamp with the current simulation data |
| UnitLoaders.StoragePowerPlantDataLoader.constructor | src/microgrid/data_loader/component/grid_forming_unit.py:19-45 | for accepted parameters the loader is grid-forming and keeps them all |
| UnitLoaders.StoragePowerPlantDataLoader.SetInitialEnergy | src/microgrid/data_loader/component/grid_forming_unit.py:63-68 | the initial energy changes iff the value is within the energy bounds, and the loader stays valid |
| UnitLoaders.NewStoragePowerPlantDataLoader | src/microgrid/data_loader/component/grid_forming_unit.py:19-45 | construction fails with `UnitDataLoaderError` iff the droop gain is negative, the initial energy is outside the bounds, or an efficiency is outside (0, 1] |
| UnitLoaders.MakeThermalGeneratorDataLoader | src/microgrid/data_loader/component/grid_forming_unit.py:71-81 | construction fails iff the droop gain is negative; otherwise the loader is grid-forming with the given bounds, gain and switch state |
| UnitLoaders.Window | src/microgrid/data_loader/component/load_demand.py:14-15 | the window is the least and greatest timestamp of the series; an empty series raises `ValueError` |
| UnitLoaders.LoadDemandDataLoader.GetData | src/microgrid/data_loader/component/load_demand.py:20-25 | inside the window the demand is the resampled series, outside it 0 |
| UnitLoaders.MakeLoadDemandDataLoader | src/microgrid/data_loader/component/load_demand.py:11-18 | an empty series raises `ValueError`; otherwise construction fails iff the initial timestamp is past the last sample, and keeps the series' window |
| UnitLoaders.MakePowerTable | src/data_loader/domain.py:8-16 | a power table is built iff both lists have equal length of at least two and start at 0 |
| UnitLoaders.SamplePointsToPowerTable.AvailablePowerAtSamplePoint | src/data_loader/domain.py:24-28 | a point has a power iff it lies between the least and greatest sample point, and the power is the table's interpolated value; otherwise `ValueError` (no extrapolation) |
| UnitLoaders.PowerTableExample | src/data_loader/domain.py:8-28 | on the table 0..4 the point 6 is refused with `ValueError` and the point 2 is looked up |
| UnitLoaders.RenewableUnitDataLoader.GetData | src/data_loader/component/renewable_unit.py:30-36 | outside the window the available power is 0; inside it the table's answer at the resampled sample point, which is `ValueError` exactly when that point is outside the table |
| UnitLoaders.MakeRenewableUnitDataLoader | src/data_loader/component/renewable_unit.py:11-28 | the power bounds are the least and greatest table power; an empty series raises `ValueError`; construction fails iff no sample is at or after the initial timestamp |
| UnitLoaders.SampleTimesInWindow | src/data_loader/component/renewable_unit.py:30-36 | at every sample timestamp both loaders consult the series, never the 0 fallback; the renewable loader raises `ValueError` there exactly when the sample point is outside its power table |
| MicrogridDomain.ComputeModelBusIds | src/microgrid/model/domain.py:24-30 | the model buses list every unit bus exactly once, and nothing else |
| MicrogridDomain.UniqueNamesDistinctObjects | src/microgrid/model/domain.py:46-48 | when names are unique, no generator object and no load object appears twice |
| MicrogridDomain.UnitBusMatrix | src/microgrid/model/domain.py:50-64 | the (units × model buses) matrix has a 1 exactly where the column is the unit's bus, generators first and then loads |
| MicrogridDomain.UnitBusRow | src/microgrid/model/domain.py:50-64 | each row of the incidence matrix has its single 1 in the column of the unit's bus, so it sums to 1 |
| MicrogridDomain.BusPowersSum | src/microgrid/model/domain.py:50-64 | summing unit powers per bus conserves power: the bus powers add up to the unit powers |
| MicrogridSimulation.InverseSumMeaning | src/microgrid/model/microgrid_model.py:100-103 | the droop-inverse sum succeeds iff every generator's inverse does, and is then their sum; a failure carries some generator's error |
| MicrogridSimulation.InverseSumErrPersists | src/microgrid/model/microgrid_model.py:100-103 | once an inverse fails, every longer prefix fails with that same first error |
| MicrogridSimulation.DeltaFrequency | src/microgrid/model/microgrid_model.py:116-120 | Δf fails exactly when the inverse sum does, with its error, and is 0 when the sum is not positive |
| MicrogridSimulation.SharedSum | src/model/generator_interface.py:45-49 | after grid-forming units share Δf, generator outputs total the contributions minus Δf times the inverse sum |
| MicrogridSimulation.DroopBalance | src/microgrid/model/microgrid_model.py:105-136 | a Δf with `Δf·S` equal to the imbalance makes loads plus shared outputs sum to zero |
| MicrogridSimulation.DeltaFrequencySolves | src/microgrid/model/microgrid_model.py:116-117 | for a positive inverse sum S the returned Δf solves `Δf·S = ΔP` |
| MicrogridSimulation.DroopDeltaFrequency | src/microgrid/model/microgrid_model.py:100-120 | under the droop conditions the Δf computed from the generators' inverse sum solves `Δf·Σinverse = ΔP` |
| MicrogridSimulation.TickDeltaContributions | src/microgrid/model/microgrid_model.py:105-114 | the tick's Δf depends on the generators only through setpoints of grid-forming units and outputs of the rest |
| MicrogridSimulation.TickBalances | src/microgrid/model/microgrid_model.py:122-136 | under the droop conditions, the Δf computed from the imbalance, shared by every grid-forming unit, leaves loads and generators summing to zero |
| MicrogridSimulation.SameDroopInverseSum | src/microgrid/model/microgrid_model.py:100-103 | generators with the same flags and inverses have the same inverse sum |
| MicrogridSimulation.SameDroopConditions | src/microgrid/model/microgrid_model.py:100-120 | the droop conditions depend only on flags and inverses |
| MicrogridSimulation.KeptBalanceConditions | src/microgrid/model/microgrid_model.py:100-103 | a tick keeps the balance conditions, and at most fills the empty cache with the inverse sum |
| MicrogridSimulation.FollowersKeepFormersReady | src/microgrid/model/microgrid_model.py:127-136 | stepping the generators that do not form the grid leaves every grid-forming unit ready to share and step |
| MicrogridSimulation.TickStepsCompose | src/microgrid/model/microgrid_model.py:122-136 | after both generator phases every generator stood before `t` and now stands at `t` with its step output, grid-forming units hold their share of Δf, and contributions are unchanged |
| MicrogridSimulation.TickBusBalance | src/microgrid/model/microgrid_model.py:122-136 | after sharing and stepping with the Δf computed before sharing, generator outputs and load powers sum to exactly zero |
| MicrogridSimulation.ReorderBusPowers | src/microgrid/model/microgrid_model.py:140-141 | re-listing per-bus sums in the grid's bus order gives the per-bus sums over that order |
| MicrogridSimulation.MicrogridModel.UnitPowers | src/microgrid/model/microgrid_model.py:45-57 | the unit power vector lists the generator outputs in order, then the load powers |
| MicrogridSimulation.MicrogridModel.CurrentPower | src/microgrid/model/microgrid_model.py:45-57 | the filled vector has generator outputs first and then load powers |
| MicrogridSimulation.MicrogridModel.SetPowerSetpoint | src/microgrid/model/microgrid_model.py:86-90 | an unknown id raises `ValueError` and changes nothing; otherwise that generator's setter decides, and no other generator changes |
| MicrogridSimulation.MicrogridModel.SetPowerSetpoints | src/microgrid/model/microgrid_model.py:92-98 | a list of the wrong length is only warned about; otherwise every generator takes its setpoint, or the first refused one raises `ValueError`, with earlier generators already set and later ones untouched |
| MicrogridSimulation.MicrogridModel.SumInverseDroopGain | src/microgrid/model/microgrid_model.py:100-103 | the first successful read caches the inverse sum and later reads return the cached value; a failure is not cached |
| MicrogridSimulation.MicrogridModel.AddInverses | src/microgrid/model/microgrid_model.py:102-103 | the loop adds the generators' droop-gain inverses in order; the first failing inverse escapes |
| MicrogridSimulation.MicrogridModel.CalculateDeltaFrequency | src/microgrid/model/microgrid_model.py:105-120 | Δf fails iff the inverse sum does, and warns iff the sum is not positive; units are unchanged |
| MicrogridSimulation.MicrogridModel.PowerImbalance | src/microgrid/model/microgrid_model.py:106-114 | the power imbalance is the sum of load powers plus, per generator, its setpoint if it forms the grid and its current power otherwise |
| MicrogridSimulation.MicrogridModel.StepLoads | src/microgrid/model/microgrid_model.py:124-125 | the loads step iff all stand before `t`; the first rejected load raises `StepPreviousTimestamp` and the earlier ones stay stepped |
| MicrogridSimulation.MicrogridModel.StepGeneratorAt | src/microgrid/model/microgrid_model.py:127-129 | stepping generator `i` passes iff its time advances and its data at `t` exists; a stale time is `StepPreviousTimestamp`, missing data `ValueError`, and a failure keeps its power; no other generator changes |
| MicrogridSimulation.MicrogridModel.StepNonForming | src/microgrid/model/microgrid_model.py:127-129 | every generator that does not form the grid steps to `t` iff all stood before `t` and all have data at `t`; otherwise `StepPreviousTimestamp` or `ValueError` |
| MicrogridSimulation.MicrogridModel.ShareAndStepAt | src/microgrid/model/microgrid_model.py:133-136 | generator `i` shares and steps iff its inverse exists, its time advances and its data at `t` exists; the error is the inverse's, `StepPreviousTimestamp` or `ValueError`; no other generator changes |
| MicrogridSimulation.MicrogridModel.ShareAndStepForming | src/microgrid/model/microgrid_model.py:133-136 | every grid-forming unit shares the one Δf and steps iff all of them are ready and have data at `t`; otherwise an inverse error, `StepPreviousTimestamp` or `ValueError` |
| MicrogridSimulation.MicrogridModel.PushBusPower | src/microgrid/model/microgrid_model.py:140-141 | every grid bus receives the power computed for it, whatever order the grid lists its buses in |
| MicrogridSimulation.MicrogridModel.StepFollowers | src/microgrid/model/microgrid_model.py:124-129 | loads and then the other generators step iff all stood before `t` and the generators have data at `t`; otherwise `StepPreviousTimestamp` or `ValueError` |
| MicrogridSimulation.MicrogridModel.DroopStep | src/microgrid/model/microgrid_model.py:131-136 | one Δf is computed and shared by every grid-forming unit; it passes iff Δf exists and every former is ready with data at `t`; under the balance conditions the unit powers then sum to zero |
| MicrogridSimulation.MicrogridModel.StepUnits | src/microgrid/model/microgrid_model.py:122-136 | under the balance conditions only a rejected timestamp or missing renewable data (`ValueError`) can stop the unit phase; when every unit stands before `t` with its data it passes, and the unit powers sum to zero |
| MicrogridSimulation.MicrogridModel.Step | src/microgrid/model/microgrid_model.py:122-148 | the tick keeps the model valid and the balance conditions; under them it fails only on a stale timestamp or missing renewable data (`ValueError`) and, when every unit and the grid stand before `t` and every renewable point at `t` is inside its table, it passes with a balanced grid whose bus powers are the per-bus sums of unit powers |
| MicrogridSimulation.MicrogridModel.FinishTick | src/microgrid/model/microgrid_model.py:138-143 | the grid receives the per-bus sums and passes iff its time advances and the unit powers sum to zero |
| MicrogridSimulation.MicrogridModel.AggregateBusPower | src/microgrid/model/microgrid_model.py:138-141 | the grid's bus powers are the per-bus sums of unit powers, with the same total |
| MicrogridSimulation.MicrogridModel.UnitBusesListed | src/microgrid/model/domain.py:32-44 | a valid model's grid lists each bus once and contains every unit's bus |
| MicrogridSimulation.MicrogridModel.ConvertUnitPowerBusPower | src/microgrid/model/microgrid_model.py:80-84 | a vector of the wrong length raises `UnknownComponentError`; otherwise there is one value per model bus |
| MicrogridSimulation.MicrogridModel.ColumnDotIsUnitSum | src/microgrid/model/microgrid_model.py:80-84 | column `j` of `unit_to_bus.T @ p` is the sum of the powers of the units on bus `j` |
| MicrogridSimulation.MicrogridModel.ConvertIsBusPowers | src/microgrid/model/microgrid_model.py:80-84 | converting unit powers gives, for each model bus, the sum of the powers of its units |
| MicrogridSimulation.MicrogridModel.constructor | src/microgrid/model/microgrid_model.py:16-24 | a model built from valid data is valid, stores the incidence matrix and starts with no cached inverse sum |
| MicrogridSimulation.NewMicrogridModel | src/microgrid/model/microgrid_model.py:16-27 | construction fails with `MicrogirdModellingError` iff the data is not valid |
| MicrogridLoader.PickPositions | src/data_loader/microgrid_model.py:104-105 | picking generators at a kind's recorded positions lists exactly the generators of that kind, in order |
| MicrogridLoader.PositionsAppend | src/data_loader/microgrid_model.py:76-92 | registering a generator appends the old generator count to its own kind's positions and leaves the other kinds alone |
| MicrogridLoader.PositionsPartition | src/data_loader/microgrid_model.py:76-92 | every generator index lies in the index list of its own kind and of no other |
| MicrogridLoader.IndexListsAppend | src/data_loader/microgrid_model.py:76-92 | appending a generator and its index to its kind's list keeps every index list exact |
| MicrogridLoader.RegistryAddLoad | src/data_loader/microgrid_model.py:50-61 | adding a load under an unused name keeps names unique and the mapper holding exactly the unit names |
| MicrogridLoader.RegistryAddGenerator | src/data_loader/microgrid_model.py:63-74 | adding a generator under an unused name keeps names unique and the mapper holding exactly the unit names |
| MicrogridLoader.MicrogridModelDataLoader.constructor | src/data_loader/microgrid_model.py:25-37 | a new loader has no units, no grid, no references and satisfies the registration invariant |
| MicrogridLoader.MicrogridModelDataLoader.AddDemandUnit | src/data_loader/microgrid_model.py:50-61 | a used name raises `DuplicateUnitNameError` and changes nothing; otherwise the load, its bus, its mapper entry and its reference are appended; generators and grid are untouched |
| MicrogridLoader.MicrogridModelDataLoader.AddGenerator | src/data_loader/microgrid_model.py:63-92 | a used name raises `DuplicateUnitNameError` and changes nothing; otherwise the generator, its bus, mapper entry and reference are appended and its kind's index list gains the old generator count |
| MicrogridLoader.MicrogridModelDataLoader.AddThermalPowerPlant | src/data_loader/microgrid_model.py:76-80 | a thermal generator is appended and its index recorded iff its name is unused |
| MicrogridLoader.MicrogridModelDataLoader.AddStoragePowerPlant | src/data_loader/microgrid_model.py:82-86 | a storage plant is appended and its index recorded iff its name is unused |
| MicrogridLoader.MicrogridModelDataLoader.AddRenewableUnit | src/data_loader/microgrid_model.py:88-92 | a renewable unit is appended and its index recorded iff its name is unused |
| MicrogridLoader.MicrogridModelDataLoader.AddGridModel | src/data_loader/microgrid_model.py:94-102 | the grid is always set; replacing a grid appends the reference to the generator references, and a first grid writes grid reference 0, raising `IndexError` when that list is empty |
| MicrogridLoader.MicrogridModelDataLoader.ModelData | src/data_loader/microgrid_model.py:40-48 | the record carries the loader's name, units, bus ids and grid; without a grid the code returns a record holding `None`, whose first grid access (`valid_data`, src/microgrid/model/domain.py:34) raises `AttributeError`, and the model reports that error here, iff no grid was added |
| MicrogridLoader.MicrogridModelDataLoader.ThermalGenerators | src/data_loader/microgrid_model.py:104-105 | exactly the thermal generators, in registration order |
| MicrogridLoader.MicrogridModelDataLoader.StoragePowerPlants | src/data_loader/microgrid_model.py:114-115 | exactly the storage plants, in registration order |
| MicrogridLoader.MicrogridModelDataLoader.RenewableUnits | src/data_loader/microgrid_model.py:121-122 | exactly the renewable units, in registration order |
| MicrogridLoader.MicrogridModelDataLoader.KindReferences | src/data_loader/microgrid_model.py:110-126 | one reference per generator of the kind, each the reference recorded at that generator's position |
| MicrogridLoader.MicrogridModelDataLoader.ComponentBusId | src/data_loader/microgrid_model.py:137-147 | a generator name gives that generator's bus, else a load name gives the load's bus, and the result is `None` iff the name is neither |
| MicrogridLoader.OfKindHasKind | src/data_loader/microgrid_model.py:104-122 | every generator listed for a kind has that kind |
| MicrogridLoader.NameUsedIffRegistered | src/data_loader/microgrid_model.py:50-74 | the add methods refuse a name exactly when some load or generator already carries it: loads and generators share one name space |
| OptimisationScalar.IndexHandle.At | src/control/optimisation_engine/domain.py:36-37 | element `i` of an index handle exists iff `i` is below its size and is then the `i`-th consecutive id; past the end it is `IndexError` |
| OptimisationScalar.Apply | src/control/optimisation_engine/domain.py:150-240 | an operator fails only for division by a zero divisor (`ZeroDivisionError`), and yields a truth value exactly for the comparisons |
| OptimisationScalar.Parameter.constructor | src/control/optimisation_engine/variable.py:22-26 | a new parameter carries its name and value and is not yet created |
| OptimisationScalar.Parameter.Value | src/control/optimisation_engine/variable.py:32-37 | reading the value succeeds iff the parameter is bound and then gives its handle, else "not created" |
| OptimisationScalar.Parameter.Bind | src/control/optimisation_engine/variable.py:39-41 | after binding, the parameter holds the given handle |
| OptimisationScalar.Variable.constructor | src/control/optimisation_engine/variable.py:47-52 | a new variable carries its name, bounds and initial value and is not yet created |
| OptimisationScalar.Variable.Value | src/control/optimisation_engine/variable.py:66-71 | reading the value succeeds iff the variable is bound and then gives its handle, else "not created" |
| OptimisationScalar.Variable.Bind | src/control/optimisation_engine/variable.py:73-75 | after binding, the variable holds the given handle |
| OptimisationScalar.Objective.constructor | src/control/optimisation_engine/variable.py:110-114 | a new objective carries its name and expression and is not yet created |
| OptimisationScalar.Objective.Value | src/control/optimisation_engine/variable.py:120-125 | reading the value succeeds iff the objective is bound, else "not created" |
| OptimisationScalar.Objective.Bind | src/control/optimisation_engine/variable.py:127-129 | after binding, the objective holds the given handle |
| OptimisationScalar.Constraint.constructor | src/control/optimisation_engine/variable.py:81-85 | a new constraint carries its name and expression and is not yet created |
| OptimisationScalar.Constraint.Value | src/control/optimisation_engine/variable.py:95-100 | reading the value succeeds iff the constraint is bound, else "not created" |
| OptimisationScalar.Constraint.Bind | src/control/optimisation_engine/variable.py:102-104 | after binding, the constraint holds the given handle |
| OptimisationScalar.EvalOkOnlyIfBound | src/control/optimisation_engine/domain.py:122-147 | an expression evaluates only when every leaf it mentions is bound |
| OptimisationScalar.NodeErrors | src/control/optimisation_engine/domain.py:133-140 | an operator node never lets "not created" escape: an unbound leaf becomes `UndefinedValueError`, and the only other failure is a division by zero |
| OptimisationScalar.BoundEvalErrors | src/control/optimisation_engine/domain.py:122-147 | with every leaf bound, the only possible failure is a division by zero |
| OptimisationScalar.Ground | src/control/optimisation_engine/domain.py:122-127 | substituting solver values for a fully bound expression leaves no bindable object behind |
| OptimisationScalar.EvalGround | src/control/optimisation_engine/domain.py:122-147 | a fully bound expression evaluates to the same result as its constant tree, whatever other assignment is used for it |
| OptimisationScalar.ReflectedCommutative | src/control/optimisation_engine/domain.py:74-87 | `c + x` and `c * x` with a number on the left evaluate as written |
| OptimisationScalar.ReflectedCompareFaithful | src/control/optimisation_engine/domain.py:95-108 | a comparison with a number on the left evaluates as written, because Python mirrors it |
| OptimisationScalar.ReflectedSubSwapped | src/control/optimisation_engine/domain.py:80-81 | `c - x` as built evaluates to `x - c`, while the expression written means `c - x` |
| OptimisationScalar.ReflectedDivSwapped | src/control/optimisation_engine/domain.py:92-93 | `c / x` as built evaluates to `x / c`, while the expression written means `c / x` |
| OptimisationScalar.ReflectedCounterexample | src/control/optimisation_engine/domain.py:80-93 | `1 - x` with `x` = 3 yields 2 instead of −2, and `1 / x` yields 3 instead of 1/3 |
| OptimisationScalar.ReflectedIntendedFaithful | src/control/optimisation_engine/domain.py:74-93 | with the number kept on the left, `c OP x` evaluates as written for every arithmetic operator; it agrees with the code for `+` and `*` and negates it for `-` |
| OptimisationScalar.NegNegates | src/control/optimisation_engine/domain.py:110-111 | unary minus negates the value and keeps every failure, with "not created" renamed `UndefinedValueError` |
| OptimisationScalar.UnboundOperand | src/control/optimisation_engine/domain.py:133-140 | an unbound variable read directly raises "not created"; as an operand it raises `UndefinedValueError` |
| OptimisationTimeIndex.AtTimestamp | src/control/optimisation_engine/domain.py:270-274 | a timestamp lookup succeeds iff the timestamp is known and its position holds an element, which it returns; otherwise `UnknownTimestampError` |
| OptimisationTimeIndex.VariableSpecAt | src/control/optimisation_engine/variable.py:189-191 | one element exists iff both the bounds and the initial series answer at `t`, and is then named `{name}_{t}` with those values |
| OptimisationTimeIndex.VariableSpecs | src/control/optimisation_engine/variable.py:189-191 | a successful construction has one element per timestamp |
| OptimisationTimeIndex.VariableSpecsAt | src/control/optimisation_engine/variable.py:189-191 | element `i` of a successful construction is the element built for timestamp `i` |
| OptimisationTimeIndex.VariableSpecsTotal | src/control/optimisation_engine/variable.py:189-191 | construction succeeds whenever both series answer at every timestamp |
| OptimisationTimeIndex.ParameterSpecAt | src/control/optimisation_engine/variable.py:139-141 | one parameter exists iff the series answers at `t`, and is named `{name}_{t}` with that value |
| OptimisationTimeIndex.ParameterSpecs | src/control/optimisation_engine/variable.py:139-141 | a successful construction has one parameter per timestamp |
| OptimisationTimeIndex.ParameterSpecsAt | src/control/optimisation_engine/variable.py:139-141 | parameter `i` of a successful construction carries the series value at timestamp `i` |
| OptimisationTimeIndex.ParameterSpecsTotal | src/control/optimisation_engine/variable.py:139-141 | construction succeeds whenever the series answers at every timestamp |
| OptimisationTimeIndex.ParameterSpecsFailAt | src/control/optimisation_engine/variable.py:139-141 | one failed series lookup makes the whole family construction fail |
| OptimisationTimeIndex.ConstraintSpecs | src/control/optimisation_engine/variable.py:246-248 | constraints exist iff there are at least as many expressions as timestamps (else `IndexError`); constraint `i` is `{name}_{t_i}` over expression `i` |
| OptimisationTimeIndex.TimeIndexVariable.Init | src/control/optimisation_engine/variable.py:184-192 | the family stores its name, bounds, initial series and elements, with no handle |
| OptimisationTimeIndex.TimeIndexVariable.OptimisationValue | src/control/optimisation_engine/variable.py:214-219 | the family's handle when set, else "not created" |
| OptimisationTimeIndex.TimeIndexVariable.SetOptimisationValue | src/control/optimisation_engine/variable.py:221-225 | the handle is stored and elements are bound in order to consecutive handles; a handle shorter than the family raises `IndexError` after binding the elements it covers |
| OptimisationTimeIndex.TimeIndexVariable.GetValueIndex | src/control/optimisation_engine/domain.py:276-280 | Python indexing including negative indices; out of range gives `UnknownTimestampError` |
| OptimisationTimeIndex.TimeIndexVariable.Evaluate | src/control/optimisation_engine/variable.py:227-228 | evaluation succeeds iff every element is bound and then lists each element's solver value in order |
| OptimisationTimeIndex.NewTimeIndexVariable | src/control/optimisation_engine/variable.py:184-192 | construction fails iff some element cannot be built, with the first such error; otherwise fresh distinct unbound elements exactly as specified |
| OptimisationTimeIndex.VariableAtTimestamp | src/control/optimisation_engine/variable.py:230-231 | a constructed family answers exactly at its timestamps, with the variable `{name}_{t}` carrying `t`'s bounds and initial value |
| OptimisationTimeIndex.TimeIndexParameter.Init | src/control/optimisation_engine/variable.py:136-142 | the family stores its name, series and elements, with no handle |
| OptimisationTimeIndex.TimeIndexParameter.OptimisationValue | src/control/optimisation_engine/variable.py:160-165 | the family's handle when set, else "not created" |
| OptimisationTimeIndex.TimeIndexParameter.SetOptimisationValue | src/control/optimisation_engine/variable.py:167-171 | the handle is stored and parameter `i` is bound to handle `i`; a short handle raises `IndexError` |
| OptimisationTimeIndex.TimeIndexParameter.Evaluate | src/control/optimisation_engine/variable.py:173-174 | evaluation succeeds iff every parameter is bound, then lists their solver values |
| OptimisationTimeIndex.NewTimeIndexParameter | src/control/optimisation_engine/variable.py:136-142 | construction fails iff some lookup fails; otherwise fresh unbound parameters exactly as specified |
| OptimisationTimeIndex.ParameterFamilyShape | src/control/optimisation_engine/variable.py:139-141 | over a well-formed series there is one parameter per timestamp, the `i`-th named `{name}_{t_i}` with the series value at `t_i` |
| OptimisationTimeIndex.ParameterIndexIsTimestamp | src/control/optimisation_engine/variable.py:179-180 | `get_value_index` looks its argument up as a timestamp: on timestamps 10, 20 index 0 is unknown while 10 finds element 0 |
| OptimisationTimeIndex.TimeIndexConstraint.Init | src/control/optimisation_engine/variable.py:238-250 | the family stores its name, timestamps, expressions and elements, with no handle |
| OptimisationTimeIndex.TimeIndexConstraint.OptimisationValue | src/control/optimisation_engine/variable.py:268-273 | the family's handle when set, else "not created" |
| OptimisationTimeIndex.TimeIndexConstraint.SetOptimisationValue | src/control/optimisation_engine/variable.py:275-279 | the handle is stored and constraint `i` is bound to handle `i`; a short handle raises `IndexError` |
| OptimisationTimeIndex.TimeIndexConstraint.ElementExpressions | src/control/optimisation_engine/variable.py:246-248 | the expressions handed to the engine are the first one per timestamp |
| OptimisationTimeIndex.NewTimeIndexConstraint | src/control/optimisation_engine/variable.py:238-250 | construction succeeds iff there are at least as many expressions as timestamps, else `IndexError` |
| OptimisationTimeIndex.ConstraintAtTimestamp | src/control/optimisation_engine/variable.py:281-285 | at timestamp `t_i` the family answers with the constraint `{name}_{t_i}` over expression `i` |
| OptimisationTimeIndex.ObjectiveNeverCreated | src/control/optimisation_engine/variable.py:294-322 | since nothing ever sets the objective list, every timestamp or index lookup raises "not created" |
| TimeIndexExpression.ZipApply | src/control/optimisation_engine/domain.py:410-415 | the elementwise result succeeds iff every paired application does, has the length of the shorter list, and holds each pair's result |
| TimeIndexExpression.Unwrap | src/control/optimisation_engine/domain.py:355-385 | a successfully unwrapped operand has exactly one value per timestamp |
| TimeIndexExpression.TValue | src/control/optimisation_engine/domain.py:410-415 | a node's value has one entry per timestamp of the node |
| TimeIndexExpression.ApplyNumeric | src/control/optimisation_engine/domain.py:150-240 | operators see their operands only through their numeric view |
| TimeIndexExpression.OperandAgrees | src/control/optimisation_engine/domain.py:390-400 | an operand that unwraps to `n` values gives `n` scalar operands, each evaluating to that value |
| TimeIndexExpression.ElementAgrees | src/control/optimisation_engine/domain.py:417-420 | scalar node `i` of `get_expression` evaluates to element `i` of the node's value |
| TimeIndexExpression.GetExpressionAgrees | src/control/optimisation_engine/domain.py:410-420 | when a node evaluates, `get_expression` gives one scalar node per timestamp, each evaluating to the matching element |
| TimeIndexExpression.BroadcastScalar | src/control/optimisation_engine/domain.py:380-381 | `x + c` adds `c` at every timestamp |
| TimeIndexExpression.TReflectedSwapped | src/control/optimisation_engine/domain.py:303-316 | the time-indexed `c - x` and `c / x` keep `x` on the left as the scalar ones do: each element becomes `x[i] - c` and `x[i] / c` |
| TimeIndexExpression.WrongLengthIsTypeError | src/control/optimisation_engine/domain.py:355-415 | an operand whose length differs from the node's timestamps makes the evaluation raise `TypeError` |
| TimeIndexExpression.UnboundElementNotCreated | src/control/optimisation_engine/domain.py:355-366 | an unbound element inside a time-indexed node raises "not created", which, unlike in scalar nodes, is not renamed |
| Operation.VariableArray.Shape | src/control/optimisation_engine/operation.py:32-36 | a row array has shape `(n, 1)` and a column array `(1, n)` |
| Operation.VariableArray.T | src/control/optimisation_engine/operation.py:22-27 | transposing keeps the entries and switches the shape type |
| Operation.Elementwise | src/control/optimisation_engine/operation.py:39-62 | an elementwise operation succeeds iff the array is empty or `other` is indexable and long enough, with entry `i` combining `e_i` and `other[i]`; otherwise `TypeError` or `IndexError` |
| Operation.Pairwise | src/control/optimisation_engine/operation.py:64-68 | the products `other[i] · e_i`, one per array entry |
| Operation.Mul | src/control/optimisation_engine/operation.py:64-82 | by a list long enough, one summed product; by a shorter list `IndexError`; by a number, each entry scaled; by another array `None` |
| Operation.VariableMatrix.T | src/control/optimisation_engine/operation.py:105-107 | `.T` keeps the storage and swaps the dimensions |
| Operation.MakeMatrix | src/control/optimisation_engine/operation.py:95-100 | a matrix exists iff it stores exactly rows × cols entries, else `AssertionError` |
| Operation.ColumnMajor | src/control/optimisation_engine/operation.py:109-112 | cell `[i, j]` is stored column-major at `j · rows + i` |
| Operation.ColumnMajorExample | src/control/optimisation_engine/operation.py:109-112 | the 3×2 matrix over 0..5 reads back 0..5 column by column |
| Operation.TransposeIsReshape | src/control/optimisation_engine/operation.py:105-112 | `.T` is a reshape rather than a transpose: on the 3×2 matrix over 0..5, `T[0, 1]` is 2 while the transpose holds 1 there |
| Operation.TransposeCell | src/control/optimisation_engine/operation.py:105-112 | `.T` reads cell `[i, j]` from storage index `i · cols + j` |
| Operation.Matmul | src/control/optimisation_engine/operation.py:115-118 | a matrix whose column count differs from the array's first shape entry raises `AssertionError` |
| Operation.Products | src/control/optimisation_engine/operation.py:120 | the products `M[i, j] · v[j]` over the first `k` columns |
| Operation.ProductRows | src/control/optimisation_engine/operation.py:120-121 | the first `k` entries of the mathematical product `M · v` |
| Operation.ProductCell | src/control/optimisation_engine/operation.py:120 | an in-range `mat_var[i, j] * array_var[j]` is the product of the two entries |
| Operation.RowSumSpec | src/control/optimisation_engine/operation.py:120 | the row sum over the first `k` columns equals the mathematical dot product |
| Operation.RowsSpec | src/control/optimisation_engine/operation.py:120-121 | all rows together equal the first rows of `M · v` |
| Operation.MatmulSpec | src/control/optimisation_engine/operation.py:115-123 | on a well-shaped matrix and a row array as long as it has columns, `matmul` returns the row array `r[i] = Σ_j M[i, j] · v[j]` |
| Operation.MatmulExample | src/control/optimisation_engine/operation.py:115-123 | the 3×2 matrix `[[0, 3], [1, 4], [2, 5]]` times `[1, 2]` is `[6, 9, 12]` |
| Operation.TransposeArray | src/control/optimisation_engine/operation.py:22-36 | transposing an array swaps its shape and twice gives the array back |
| Operation.AddThenSub | src/control/optimisation_engine/operation.py:39-56 | subtracting what was added gives back the original entries |
| Operation.RSubNegatesSub | src/control/optimisation_engine/operation.py:52-62 | the reflected difference is the negated difference entry by entry |
| Operation.DotIsMatmul | src/control/optimisation_engine/operation.py:64-68 | multiplying by a list is the product of the one-row matrix of that list with the array |
| Operation.ScaleByOne | src/control/optimisation_engine/operation.py:69-70 | scaling by 1 keeps the entries |
| MpcHorizon.MakeHorizon | src/control/mpc_model/domain.py:14-21 | a horizon exists iff all three numbers are non-negative, `until >= since` and the step is positive; a failed check is `AssertionError`, a zero step `ValueError` |
| MpcHorizon.RangeAt | src/control/mpc_model/domain.py:18-19 | position `k` of the range is `since + k·step`, and exists exactly while that is below `until` |
| MpcHorizon.RangeValid | src/control/mpc_model/domain.py:18-19 | from a non-negative start the range is strictly increasing and non-negative |
| MpcHorizon.HorizonTimestamps | src/control/mpc_model/domain.py:14-21 | a horizon holds `since, since + step, …`, all below `until` and none left out, and they pass the timestamp validation |
| MpcHorizon.HorizonStart | src/control/mpc_model/domain.py:18-19 | an empty window gives no timestamps; a non-empty one starts at `since` |
| MpcHorizon.HorizonExample | src/control/mpc_model/domain.py:14-21 | a one-hour window sampled every 15 minutes holds four timestamps |
| OptimisationEngine.DisjointHandles | src/control/optimisation_engine/cvx_engine/cvx_engine.py:153-184 | two handle ranges that do not overlap never give out the same solver value |
| OptimisationEngine.Engine.constructor | src/control/optimisation_engine/cvx_engine/cvx_engine.py:54-64 | a new engine has no parameters, variables or constraints and no binary variable |
| OptimisationEngine.Engine.Register | src/control/optimisation_engine/cvx_engine/cvx_engine.py:82-89 | a name already registered for the same kind is refused with `DuplicateOptimisationEngineValue` and nothing changes; otherwise the name is appended to that kind only, and the next `size` solver values are handed out |
| OptimisationEngine.Engine.AddParameter | src/control/optimisation_engine/cvx_engine/cvx_engine.py:121-124 | accepted iff the name is new among parameters; then one fresh handle and the name appended to the parameters only |
| OptimisationEngine.Engine.AddVariable | src/control/optimisation_engine/cvx_engine/cvx_engine.py:126-129 | accepted iff the name is new among variables; then one fresh handle and the name appended to the variables only |
| OptimisationEngine.Engine.AddBinaryVariable | src/control/optimisation_engine/cvx_engine/cvx_engine.py:131-135 | the model is marked mixed-integer even when the name is then refused; otherwise as `add_variable` |
| OptimisationEngine.Engine.AddConstraint | src/control/optimisation_engine/cvx_engine/cvx_engine.py:137-140 | accepted iff the name is new among constraints; then one fresh handle and the name appended to the constraints only |
| OptimisationEngine.Engine.AddTimeIndexParameter | src/control/optimisation_engine/cvx_engine/cvx_engine.py:153-157 | accepted iff the name is new among parameters; then one fresh handle per timestamp of the series |
| OptimisationEngine.Engine.AddTimeIndexVariable | src/control/optimisation_engine/cvx_engine/cvx_engine.py:159-166 | accepted iff the name is new among variables; then one fresh handle per timestamp of the bound series |
| OptimisationEngine.Engine.AddTimeIndexBinaryVariable | src/control/optimisation_engine/cvx_engine/cvx_engine.py:168-179 | the model is marked mixed-integer; accepted iff the name is new, then one fresh handle per timestamp |
| OptimisationEngine.Engine.AddIndexConstraint | src/control/optimisation_engine/cvx_engine/cvx_engine.py:181-184 | accepted iff the name is new among constraints; then one fresh handle per listed expression |
| OptimisationEngine.Accepted | src/control/optimisation_engine/cvx_engine/cvx_engine.py:82-89 | of names registered one after another, the engine takes at most all of them, stopping at the first refusal |
| OptimisationEngine.AcceptedAppend | src/control/optimisation_engine/cvx_engine/cvx_engine.py:82-89 | registering `a` then `b` takes all of `a` and then what `b` gets against the grown list, or stops inside `a` |
| OptimisationEngine.AcceptedNext | src/control/optimisation_engine/cvx_engine/cvx_engine.py:82-89 | once the first `k` names were taken, name `k` is taken iff the list as it now stands admits it |
| OptimisationEngine.AcceptedAllIff | src/control/optimisation_engine/cvx_engine/cvx_engine.py:82-89 | every name is taken iff the engine allows duplicates, or no name is already held and the names are pairwise different |
| OptimisationEngine.DuplicateRejected | src/control/optimisation_engine/cvx_engine/cvx_engine.py:82-89 | registering one name twice with the cvx engine succeeds the first time and raises `DuplicateOptimisationEngineValue` the second |
| OptimisationEngine.SuccessiveDisjoint | src/control/optimisation_engine/cvx_engine/cvx_engine.py:82-89 | two successful registrations receive disjoint handle ranges |
| MpcStorage.DynamicsExpressions | src/control/mpc_model/component/storage_unit.py:73-77 | one dynamics constraint per pair of neighbouring timestamps, none for an empty horizon |
| MpcStorage.ControlStoragePowerPlant.Init | src/control/mpc_model/component/storage_unit.py:22-27 | the plant holds its data, both variable families, the dynamics list and the initial-energy constraint |
| MpcStorage.ControlStoragePowerPlant.ExtendVariables | src/control/mpc_model/component/storage_unit.py:88-94 | power and energy are accepted iff the engine admits both names; they then get consecutive handle ranges and every element is bound; the engine's variable names gain exactly the names it accepted, in order, and its parameters do not change |
| MpcStorage.ControlStoragePowerPlant.ExtendConstraints | src/control/mpc_model/component/storage_unit.py:96-104 | the dynamics list and the initial-energy constraint are accepted iff the engine admits both names, and are then all bound; the engine's constraint names gain exactly the names it accepted, in order; variables and parameters do not change |
| MpcStorage.ControlStoragePowerPlant.ExtendOptimisationModel | src/control/mpc_model/component/storage_unit.py:87-104 | the plant is accepted iff the engine admits its four names; power, energy and constraints then take `3n` handles in that order and everything is bound; a refusal raises `DuplicateOptimisationEngineValue`; the engine's variable names gain the accepted variable names, its constraint names gain the accepted constraint names only once both variables were accepted, and its parameters do not change |
| MpcStorage.NewControlStoragePowerPlant | src/control/mpc_model/component/storage_unit.py:22-85 | a plant is built iff the horizon is non-empty and both bounds have `min < max`; an empty horizon raises `IndexError` (at `energy[0]`), bad bounds `AssertionError` |
| MpcStorage.DynamicsEval | src/control/mpc_model/component/storage_unit.py:74-75 | a dynamics expression over bound variables evaluates to the truth of `E[i+1] = E[i] − d·P[i]/3600` |
| MpcStorage.DynamicsMeaning | src/control/mpc_model/component/storage_unit.py:73-82 | once bound, dynamics constraint `i` holds exactly when the stored energy falls by `(t[i+1] − t[i]) · P[i] / 3600` |
| MpcStorage.DynamicsExample | src/control/mpc_model/component/storage_unit.py:73-82 | discharging 6 over 360 seconds lowers the stored energy by 0.6 |
| MpcStorage.InitialEnergyMeaning | src/control/mpc_model/component/storage_unit.py:83-85 | once bound, the initial-energy constraint holds exactly when `E[0]` equals the measured energy |
| MpcStorage.DynamicsShape | src/control/mpc_model/component/storage_unit.py:73-82 | there are `n − 1` dynamics constraints; constraint `k` is named after timestamp `t_k` and ties `E[k]`, `E[k+1]` and `P[k]` |
| MpcThermal.SwitchedBounds | src/control/mpc_model/component/thermal_unit.py:62-79 | one switched-bound equation per timestamp |
| MpcThermal.AtLeast | src/control/mpc_model/component/thermal_unit.py:80-86 | one `power ≥ power_lb` constraint per timestamp |
| MpcThermal.AtMost | src/control/mpc_model/component/thermal_unit.py:87-93 | one `power ≤ power_ub` constraint per timestamp |
| MpcThermal.RegisterVariable | src/control/mpc_model/component/thermal_unit.py:96-108 | a family is accepted iff its name is new among variables; it then gets the next handle range and every element is bound; a binary family marks the model mixed-integer; a refusal leaves the variable names unchanged |
| MpcThermal.RegisterConstraints | src/control/mpc_model/component/thermal_unit.py:111-127 | a list is accepted iff the name it is registered under is new among constraints; every element is then bound; a refusal leaves the constraint names unchanged |
| MpcThermal.RegisterVariablePair | src/control/mpc_model/component/thermal_unit.py:96-108 | two families with different names are accepted iff both names are new, and both are then bound; the variable names gain exactly the prefix of the two that was accepted |
| MpcThermal.RegisterVariables | src/control/mpc_model/component/thermal_unit.py:96-108 | the four families are accepted iff all four names are new; the switch family makes the model mixed-integer; the variable names gain exactly the accepted prefix of the four |
| MpcThermal.RegisterConstraintLists | src/control/mpc_model/component/thermal_unit.py:111-127 | with a duplicate-refusing engine four lists are accepted only under four different names; four different new names are always accepted; the constraint names gain exactly the accepted prefix of the four names, and variables and parameters do not change |
| MpcThermal.RegisterConstraintPair | src/control/mpc_model/component/thermal_unit.py:111-118 | two lists are accepted iff the engine takes both names in turn; the constraint names gain exactly the accepted prefix, and both lists are then bound |
| MpcThermal.AcceptedFour | src/control/mpc_model/component/thermal_unit.py:96-127 | four registrations in a row all succeed iff the engine allows duplicates, or the four names are different and none is already held |
| MpcThermal.RegisterFamiliesAndLists | src/control/mpc_model/component/thermal_unit.py:96-127 | the eight registrations succeed iff all four variable names and then all four list names are accepted in turn, which for four different list names means the engine admits every name; everything is then bound; the variable names gain the accepted variable prefix, the constraint names gain the accepted list prefix only once all four variables were accepted, and the parameters do not change |
| MpcThermal.ControlThermalGenerator.Init | src/control/mpc_model/component/thermal_unit.py:10-15 | the generator holds its data, its four variable families and its four constraint lists |
| MpcThermal.ControlThermalGenerator.ExtendOptimisationModel | src/control/mpc_model/component/thermal_unit.py:95-127 | as written, a duplicate-refusing engine always refuses the generator with `DuplicateOptimisationEngineValue`; an engine that allows duplicates binds all eight parts and takes `8n` handles; in every case the variable names gain the accepted variable prefix, the constraint names gain the accepted prefix of `lb, ub, lb, ub` once all variables were accepted, and the parameters do not change |
| MpcThermal.ControlThermalGenerator.ExtendWithOwnNames | src/control/mpc_model/component/thermal_unit.py:95-127 | with every list under its own name, the generator is accepted iff the engine admits all eight names; everything is then bound and `8n` handles are taken; the engine's name lists change as for the code as written, with the own list names |
| MpcThermal.NamesDistinct | src/control/mpc_model/component/thermal_unit.py:37-93 | the four variable names differ and `lb`/`ub` list names differ; only with their own names do the last two lists differ from the first two |
| MpcThermal.NewControlThermalGenerator | src/control/mpc_model/component/thermal_unit.py:10-93 | a generator is built iff the horizon is empty or both the minimum and the maximum power are positive; otherwise the bounds from zero raise `AssertionError` |
| MpcThermal.SwitchedBoundsEval | src/control/mpc_model/component/thermal_unit.py:66-67 | once bound, switched-bound constraint `k` holds exactly when `bound = switch · c` |
| MpcThermal.AtLeastEval | src/control/mpc_model/component/thermal_unit.py:84 | once bound, constraint `k` holds exactly when `power ≥ power_lb` |
| MpcThermal.AtMostEval | src/control/mpc_model/component/thermal_unit.py:91 | once bound, constraint `k` holds exactly when `power ≤ power_ub` |
| MpcThermal.Commitment | src/control/mpc_model/component/thermal_unit.py:61-93 | unit commitment: when all four constraints hold, switch 0 forces zero power and switch 1 keeps power within `[min, max]` |
| MpcThermal.ConstraintsAtTimestamp | src/control/mpc_model/component/thermal_unit.py:62-79 | the constraint held for timestamp `t` ties the variables the families hold for `t` |
| MpcRenewable.ForecastValues | src/control/mpc_model/component/renewable_unit.py:43-45 | one forecast value per timestamp when every lookup succeeds |
| MpcRenewable.ForecastValuesAt | src/control/mpc_model/component/renewable_unit.py:43-45 | all lookups succeed iff the forecast answers at every timestamp, and value `i` is the forecast at `t_i` |
| MpcRenewable.ForecastCovers | src/control/mpc_model/component/renewable_unit.py:43-45 | a well-formed forecast over the unit's timestamps gives exactly its values |
| MpcRenewable.AvailabilityLimits | src/control/mpc_model/component/renewable_unit.py:42-46 | one cap per timestamp |
| MpcRenewable.RenewablePowerUnit.Init | src/control/mpc_model/component/renewable_unit.py:9-12 | the unit holds its data, its power family and its cap list |
| MpcRenewable.RenewablePowerUnit.ExtendOptimisationModel | src/control/mpc_model/component/renewable_unit.py:48-56 | accepted iff the engine admits both names; power then takes the first `n` handles and the caps the next `n`, all bound, and each name list gains its one name; a refusal raises `DuplicateOptimisationEngineValue`, adds no constraint name, and adds the variable name only if that name was accepted; parameters never change |
| MpcRenewable.NewRenewablePowerUnit | src/control/mpc_model/component/renewable_unit.py:9-46 | a unit is built iff the bounds have `min < max` (or the horizon is empty) and the forecast answers at every timestamp; bad bounds raise `AssertionError`, a failed lookup its own error |
| MpcRenewable.AvailabilityMeaning | src/control/mpc_model/component/renewable_unit.py:44 | once bound, cap `i` holds exactly when the power at `t_i` is at most the forecast there |
| MpcRenewable.FeasibleBelowCap | src/control/mpc_model/component/renewable_unit.py:30-46 | a solution within the power bounds that meets cap `i` stays at or below both the forecast and the maximum power |
| MpcRenewable.AvailabilityExample | src/control/mpc_model/component/renewable_unit.py:44 | with a forecast of 5, power 5 meets the cap and power 6 breaks it |
| MpcLoad.LoadDemand.Init | src/control/mpc_model/component/load_demand.py:8-11 | the load holds its data and its parameter family |
| MpcLoad.LoadDemand.ExtendOptimisationModel | src/control/mpc_model/component/load_demand.py:28-31 | accepted iff the engine admits the name; parameter `i` is then bound to handle `i` of a fresh range; a refusal raises `DuplicateOptimisationEngineValue` |
| MpcLoad.NewLoadDemand | src/control/mpc_model/component/load_demand.py:8-26 | a load is built iff the forecast answers at each of its timestamps; its parameters start unbound, so reading the family raises "not created" |
| MpcLoad.LoadParameters | src/control/mpc_model/component/load_demand.py:25-26 | over a well-formed forecast, parameter `i` is `{name}_power_{t_i}` and carries the forecast at `t_i` |
| MpcLoad.LoadEvaluation | src/control/mpc_model/component/load_demand.py:25-31 | before extension, evaluating the load raises "not created"; once bound it yields one value per forecast timestamp |

## Left out

- GridNetworkModel.GridNetwork: the network copies the loader's buses and lines when it is built, whereas the code reads them from the loader on every access (src/microgrid/model/component/grid_model.py:43-49). A loader changed after construction is therefore not seen, and this aliasing is not captured.
- GridNetworkModel.GridNetwork.Step: the balance check `buses_power.sum() == 0` (src/microgrid/model/component/grid_model.py:113) compares floats, so rounding can make a balanced tick fail with `SimulationGridError`. The model uses exact reals, and so does MicrogridSimulation.MicrogridModel.Step, whose balanced-grid result holds only in exact arithmetic.
- MpcStorage.ControlStoragePowerPlant.ExtendOptimisationModel (and its halves ExtendVariables and ExtendConstraints): after a refusal the contract states the error and the engine's name lists, not which of the plant's families were bound before the refusal.
- MpcThermal.ControlThermalGenerator.ExtendOptimisationModel and MpcThermal.ControlThermalGenerator.ExtendWithOwnNames: after a refusal the contracts state the error and the engine's name lists, not which families were bound or which handles were handed out before the refusal.
- MpcRenewable.RenewablePowerUnit.ExtendOptimisationModel: after a refusal the contract states the error and the engine's name lists, not whether the power family was bound before the refusal.
- The cvxpy engine's solver interaction is not modelled: `generate_optimisation_model`, `solve`, `add_objective`, `update_objective` and the cvx value objects. The engine is a registry of names that hands out fresh handles. What a solver assigns to a handle is an input `sol: Handle -> real` of the evaluator.
- Component.GridLine: the admittance is optional in the code (src/common/model/component.py:26, default `None`); the model makes it a number, so a line built without an admittance is not modelled.
- GridNetworkUtil.CalculateAdmittanceMatrix: the `TypeError` that `-line.admittance` raises for a line without an admittance (src/common/model/grid_network_util.py:37,40) is not modelled, since every modelled line has one.
- GridNetworkModel.GridNetwork.CalculateLinePower: the `TypeError` that a line without an admittance raises in the flow formula (src/microgrid/model/component/grid_model.py:106) is not modelled, for the same reason.
- Timeseries.MakeBoundTimeseries: series values are optional in the code (`List[Optional[float]]` and `Optional[float]`, src/common/timeseries/domain.py:50,66); the model makes them numbers, so the `TypeError` that a `None` value raises in the `min < max` comparison (domain.py:98), which escapes uncaught, is not modelled.
- Matrix inversion (`np.linalg.inv`) is floating-point numerics. The DC power-flow matrix `M` is supplied to the grid as a given input.
- Interpolation (`resample`, the sample-points-to-power table) is foreign float code. The interpolated value is a function-valued field of the loader records, taken as given; the table's refusal to extrapolate outside its least and greatest sample point is modelled.
- Logging: a warning is returned as a `warned`/`outOfBounds` flag where the code's behaviour depends on it. Elsewhere it is dropped.
- The configuration layer (import by string, dacite, pydantic) is not part of this model. A unit's configuration reference is kept as a plain string, only to be handed back.
- src/control/mpc_model/component/grid_model.py and src/control/mpc_model/mpc_controller.py are not part of this model. The control data records of control_data_model.py are the data datatypes of the four builder modules.
- Iteration over `Timestamps`: the cursor and its reset are modelled by `Timeseries.TimestampsIterator`. Elsewhere the model walks `.values` directly, as if the shared cursor were at rest. An abandoned loop's effect on later loops is therefore captured only by the iterator class itself.
- Array and matrix entries in module Operation are numbers. Arrays of symbolic optimisation expressions and the order in which a solver library combines them are not modelled.
- `__repr__`, the `name` properties and the `UnequalTimeIndexExpression` branch are not modelled. That branch cannot be reached, because nothing in the `try` raises `AssertionError`.
- The `bounds` field of `ControlLoadDemandData` and `current_switch_state` of `ControlThermalGeneratorData` are carried but never read, as in the code.
- `GeneratorInterface`, `GridFormingUnit`, `RenewableUnit` and `LoadDemandUnit`: there are no traits, so each generator class holds the base-class fields itself. The shared protocol pieces are single functions the classes apply. `Generators.GeneratorRef` does the dispatch the code does through inheritance.

## Findings

| source | as written | input that shows it | evidently intended | confidence | as-written member | corrected member |
|---|---|---|---|---|---|---|
| src/control/optimisation_engine/domain.py:80-81 | `__rsub__` and `__rtruediv__` build the node `(self, other)`, so a number on the left ends up on the right; the time-indexed versions at domain.py:303-304 and 315-316 do the same (`TimeIndexExpression.TReflectedSwapped`) | `1 - x` with `x` evaluating to 3 yields 2, and `1 / x` yields 3 | build `(other, self)`, so that `1 - x` is −2 and `1 / x` is 1/3 | high; not executed | OptimisationScalar.ReflectedCounterexample | OptimisationScalar.ReflectedIntendedFaithful |
| src/control/mpc_model/component/thermal_unit.py:120-127 | the third and fourth constraint lists are registered under the names of the first two lists | any generator with the duplicate-name-refusing cvx engine: the third registration is refused with `DuplicateOptimisationEngineValue` | register each list under its own name (`_power_lb_constraint`, `_power_ub_constraint`) | high; not executed | MpcThermal.ControlThermalGenerator.ExtendOptimisationModel | MpcThermal.ControlThermalGenerator.ExtendWithOwnNames |
