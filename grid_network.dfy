/**
 * The simulated grid of src/microgrid/model/component/grid_model.py: a
 * per-bus injection buffer written in place, an exact-zero balance check on
 * each step, and DC line flows `y·(θ_from − θ_to)` with `θ = M·p` and the
 * angle of the first bus pinned to 0.
 *
 * The matrix `M` is the inverse of the pinned admittance matrix of module
 * GridNetworkUtil; the inversion itself is not modelled and `M` is supplied
 * by the caller. The network reads its loader once, when it is built.
 */
module GridNetworkModel {
  import opened Wrappers
  import opened SeqUtil
  import opened Component
  import opened GridConnectivity
  import opened GridNetworkUtil
  import opened GridLoader
  import opened ComponentInterface
  import opened MemoryStorage

  /** `np.zeros(n)`. */
  function Zeros(n: nat): (r: seq<real>)
    ensures |r| == n && forall i :: 0 <= i < n ==> r[i] == 0.0
  {
    seq(n, _ => 0.0)
  }

  predicate SquareMatrix(m: seq<seq<real>>, n: nat)
  {
    |m| == n && forall i :: 0 <= i < n ==> |m[i]| == n
  }

  /** The inner product of two equally long vectors. */
  function Dot(a: seq<real>, b: seq<real>): real
    requires |a| == |b|
  {
    if |a| == 0 then 0.0 else Dot(a[..|a| - 1], b[..|b| - 1]) + a[|a| - 1] * b[|b| - 1]
  }

  /** `θ = M·p`, then `θ[0] := 0`: the first bus is the angle reference. */
  function PhaseAngles(m: seq<seq<real>>, p: seq<real>): (theta: seq<real>)
    requires SquareMatrix(m, |p|) && |p| > 0
    ensures |theta| == |p| && theta[0] == 0.0
    ensures forall i :: 0 < i < |p| ==> theta[i] == Dot(m[i], p)
  {
    seq(|p|, i requires 0 <= i < |p| => if i == 0 then 0.0 else Dot(m[i], p))
  }

  /** The flow on `l` from its `from` bus towards its `to` bus. */
  function LineFlow(buses: seq<BusId>, theta: seq<real>, l: GridLine): real
    requires |theta| == |buses| && l.fromBus in buses && l.toBus in buses
  {
    l.admittance * (theta[IndexOf(buses, l.fromBus).value] - theta[IndexOf(buses, l.toBus).value])
  }

  /** The flows of all lines, in line order. */
  function LineFlows(buses: seq<BusId>, lines: seq<GridLine>, m: seq<seq<real>>, p: seq<real>): (r: seq<real>)
    requires LinesWithin(buses, lines) && |p| == |buses| > 0 && SquareMatrix(m, |p|)
    ensures |r| == |lines|
  {
    var theta := PhaseAngles(m, p);
    seq(|lines|, k requires 0 <= k < |lines| => LineFlow(buses, theta, lines[k]))
  }

  /** Reversing a line's direction negates its flow. */
  lemma LineFlowReversed(buses: seq<BusId>, theta: seq<real>, l: GridLine)
    requires |theta| == |buses| && l.fromBus in buses && l.toBus in buses
    ensures LineFlow(buses, theta, GridLine(l.toBus, l.fromBus, l.admittance, l.bounds)) == -LineFlow(buses, theta, l)
  {
  }

  /** Two buses at the same angle exchange no power, whatever the admittance. */
  lemma LineFlowZeroAtEqualAngles(buses: seq<BusId>, theta: seq<real>, l: GridLine)
    requires |theta| == |buses| && l.fromBus in buses && l.toBus in buses
    requires theta[IndexOf(buses, l.fromBus).value] == theta[IndexOf(buses, l.toBus).value]
    ensures LineFlow(buses, theta, l) == 0.0
  {
  }

  /** What a grid loader hands over: the single-bus loader's fixed answer, or a checked line list. */
  predicate FromLoader(s: GridSnapshot)
  {
    s == GridSnapshot([SlackBusId], [], Ok(true)) ||
    (AllWellFormed(s.lines) && DistinctLines(s.lines) && s.buses == BusesOf(s.lines) &&
     s.connected == ConnectedVerdict(s.lines))
  }

  lemma FromLoaderLinesWithin(s: GridSnapshot)
    requires FromLoader(s)
    ensures LinesWithin(s.buses, s.lines) && NoDuplicates(s.buses)
  {
    if s != GridSnapshot([SlackBusId], [], Ok(true)) {
      SnapshotLinesWithin(s.lines);
      BusesOfSpec(s.lines);
    }
  }

  class GridNetwork {
    const name: string
    const componentType: ComponentType
    const buses: seq<BusId>
    const lines: seq<GridLine>
    const validateFlag: bool
    /** Only computed for a valid network (reading it otherwise is an `AttributeError`). */
    const admittanceMatrix: Option<array2<real>>
    /** The supplied inverse when the lines are connected, else empty. */
    const dcPowerFlowMatrix: seq<seq<real>>
    const busPower: array<real>
    var currentPower: seq<real>
    var currentTimestamp: int

    /**
     * A valid network has one buffer slot per bus and one flow per line, its
     * lines join listed buses, and the inverse has the bus count's shape
     * whenever there are lines.
     */
    predicate Valid()
      reads this
    {
      busPower.Length == (if validateFlag then |buses| else 0) &&
      NoDuplicates(buses) &&
      (validateFlag ==> |currentPower| == |lines| && LinesWithin(buses, lines) && |buses| > 0 &&
                        (|lines| > 0 ==> SquareMatrix(dcPowerFlowMatrix, |buses|)))
    }

    constructor (name: string, initialTimestamp: int, buses: seq<BusId>, lines: seq<GridLine>, validateFlag: bool,
                 admittanceMatrix: Option<array2<real>>, dcPowerFlowMatrix: seq<seq<real>>, busPower: array<real>,
                 currentPower: seq<real>)
      ensures this.name == name && componentType == Grid && currentTimestamp == initialTimestamp
      ensures this.buses == buses && this.lines == lines && this.validateFlag == validateFlag
      ensures this.admittanceMatrix == admittanceMatrix && this.dcPowerFlowMatrix == dcPowerFlowMatrix
      ensures this.busPower == busPower && this.currentPower == currentPower
    {
      this.name := name;
      componentType := Grid;
      this.buses := buses;
      this.lines := lines;
      this.validateFlag := validateFlag;
      this.admittanceMatrix := admittanceMatrix;
      this.dcPowerFlowMatrix := dcPowerFlowMatrix;
      this.busPower := busPower;
      this.currentPower := currentPower;
      currentTimestamp := initialTimestamp;
    }

    /** `validate_grid_model`. */
    function ValidateGridModel(): bool
    {
      validateFlag
    }

    /**
     * `set_bus_power`: writes exactly the entry at the bus's index; an unknown
     * bus or an index past the buffer is an `UnknownComponentError`.
     */
    method SetBusPower(bus: BusId, power: real) returns (o: Outcome)
      modifies busPower
      ensures o.Fail? <==> IndexOf(buses, bus).Err? || IndexOf(buses, bus).value >= busPower.Length
      ensures o.Fail? ==> o.error == UnknownComponent && busPower[..] == old(busPower[..])
      ensures o.Pass? ==> busPower[..] == old(busPower[..])[IndexOf(buses, bus).value := power]
    {
      match IndexOf(buses, bus) {
        case Err(_) => return Fail(UnknownComponent);
        case Ok(i) =>
          if i >= busPower.Length {
            return Fail(UnknownComponent);
          }
          busPower[i] := power;
          return Pass;
      }
    }

    /** The balance condition `step` demands: exactly zero net injection over a non-empty buffer of a valid network. */
    predicate Balanced()
      reads this, busPower
    {
      Sum(busPower[..]) == 0.0 && busPower.Length > 0 && validateFlag
    }

    /**
     * `calculate_line_power`: no lines gives no flows; otherwise the flows of
     * `LineFlows`. Without lines of a valid network the inverse was never
     * computed, and reading it is an `AttributeError`.
     */
    method CalculateLinePower() returns (r: Result<seq<real>>)
      requires Valid()
      ensures |lines| == 0 ==> r == Ok([])
      ensures |lines| > 0 && !validateFlag ==> r == Err(AttributeError)
      ensures |lines| > 0 && validateFlag ==> r == Ok(LineFlows(buses, lines, dcPowerFlowMatrix, busPower[..]))
    {
      if |lines| == 0 {
        return Ok([]);
      }
      if !validateFlag {
        return Err(AttributeError);
      }
      var theta := PhaseAngles(dcPowerFlowMatrix, busPower[..]);
      var flows := Zeros(|lines|);
      for k := 0 to |lines|
        invariant |flows| == |lines|
        invariant forall c :: 0 <= c < k ==> flows[c] == LineFlow(buses, theta, lines[c])
      {
        var l := lines[k];
        var toIndex := IndexOf(buses, l.toBus).value;
        var fromIndex := IndexOf(buses, l.fromBus).value;
        flows := flows[k := l.admittance * (theta[fromIndex] - theta[toIndex])];
      }
      ghost var spec := LineFlows(buses, lines, dcPowerFlowMatrix, busPower[..]);
      assert forall c :: 0 <= c < |lines| ==> spec[c] == LineFlow(buses, theta, lines[c]);
      assert flows == spec;
      return Ok(flows);
    }

    /**
     * `step`: the timestamp check first, which already advances the
     * timestamp; then an unbalanced buffer or an invalid network is a
     * `SimulationGridError` (the timestamp stays advanced), and a balanced
     * one replaces the line flows.
     */
    method Step(t: int) returns (o: Outcome)
      requires Valid()
      modifies this`currentTimestamp, this`currentPower
      ensures Valid()
      ensures CheckStepTimestamp(old(currentTimestamp), t).Err? ==>
                o == Fail(StepPreviousTimestamp) && currentTimestamp == old(currentTimestamp) && currentPower == old(currentPower)
      ensures CheckStepTimestamp(old(currentTimestamp), t).Ok? ==> currentTimestamp == t
      ensures CheckStepTimestamp(old(currentTimestamp), t).Ok? && !Balanced() ==>
                o == Fail(SimulationGrid) && currentPower == old(currentPower)
      ensures CheckStepTimestamp(old(currentTimestamp), t).Ok? && Balanced() ==>
                o == Pass && currentPower == (if |lines| == 0 then [] else LineFlows(buses, lines, dcPowerFlowMatrix, busPower[..]))
    {
      match CheckStepTimestamp(currentTimestamp, t) {
        case Err(e) => return Fail(e);
        case Ok(next) => currentTimestamp := next;
      }
      if Sum(busPower[..]) == 0.0 && busPower.Length > 0 && validateFlag {
        var flows := CalculateLinePower();
        currentPower := flows.value;
        return Pass;
      } else {
        return Fail(SimulationGrid);
      }
    }

    /** `get_bus_neighbours`: the distinct opposite endpoints of the lines touching `bus`. */
    method GetBusNeighbours(bus: BusId) returns (r: set<BusId>)
      ensures forall x :: x in r <==> exists k :: 0 <= k < |lines| && IsConnectedToBus(lines[k], bus) && OtherEnd(lines[k], bus) == x
    {
      r := {};
      for k := 0 to |lines|
        invariant forall x :: x in r <==> exists c :: 0 <= c < k && IsConnectedToBus(lines[c], bus) && OtherEnd(lines[c], bus) == x
      {
        var l := lines[k];
        if bus == l.toBus {
          r := r + {l.fromBus};
        } else if bus == l.fromBus {
          r := r + {l.toBus};
        }
      }
    }

    /** `get_bus_grid_line`: the lines touching `bus`, in line order. */
    function GetBusGridLine(bus: BusId): (r: seq<GridLine>)
      ensures forall l :: l in r <==> l in lines && IsConnectedToBus(l, bus)
    {
      Incident(bus, lines)
    }

    /** `current_simulation_data`: the line flows and the bus buffer. */
    function CurrentSimulationData(): (d: ComponentSimulationData)
      reads this, busPower
      ensures d.name == name && d.values.Keys == {"current_power", "bus_power"}
      ensures d.values["current_power"] == Vector(currentPower) && d.values["bus_power"] == Vector(busPower[..])
    {
      ComponentSimulationData(name, map["current_power" := Vector(currentPower), "bus_power" := Vector(busPower[..])])
    }
  }

  /** For well-formed lines the neighbours of a bus are exactly the buses sharing a line with it, never the bus itself. */
  lemma NeighbourMeaning(lines: seq<GridLine>, bus: BusId, x: BusId)
    requires AllWellFormed(lines)
    ensures (exists k :: 0 <= k < |lines| && IsConnectedToBus(lines[k], bus) && OtherEnd(lines[k], bus) == x) <==>
            (exists k :: 0 <= k < |lines| && Ends(lines[k]) == {bus, x} && x != bus)
  {
    if exists k :: 0 <= k < |lines| && IsConnectedToBus(lines[k], bus) && OtherEnd(lines[k], bus) == x {
      var k :| 0 <= k < |lines| && IsConnectedToBus(lines[k], bus) && OtherEnd(lines[k], bus) == x;
      assert lines[k] in lines;
      assert Ends(lines[k]) == {bus, x} && x != bus;
    }
    if exists k :: 0 <= k < |lines| && Ends(lines[k]) == {bus, x} && x != bus {
      var k :| 0 <= k < |lines| && Ends(lines[k]) == {bus, x} && x != bus;
      assert lines[k].toBus in Ends(lines[k]) && lines[k].fromBus in Ends(lines[k]);
      assert bus in Ends(lines[k]) && x in Ends(lines[k]);
      assert IsConnectedToBus(lines[k], bus) && OtherEnd(lines[k], bus) == x;
    }
  }

  /**
   * `GridNetwork(name, loader)`: an error of the loader's connectivity check
   * escapes; a disconnected network is built invalid with an empty buffer;
   * a connected one gets a zero buffer per bus, a zero flow per line, its
   * admittance matrix, and the inverse `m` if its lines are connected.
   */
  method NewGridNetwork(name: string, initialTimestamp: int, snap: GridSnapshot, m: seq<seq<real>>) returns (r: Result<GridNetwork>)
    requires FromLoader(snap)
    requires ConnectedVerdict(snap.lines) == Ok(true) ==> SquareMatrix(m, |snap.buses|)
    ensures r.Err? <==> snap.connected.Err?
    ensures r.Err? ==> r.error == snap.connected.error
    ensures r.Ok? ==> fresh(r.value) && fresh(r.value.busPower) && r.value.Valid()
    ensures r.Ok? ==> r.value.name == name && r.value.componentType == Grid && r.value.currentTimestamp == initialTimestamp
    ensures r.Ok? ==> r.value.buses == snap.buses && r.value.lines == snap.lines
    ensures r.Ok? ==> (r.value.validateFlag <==> snap.connected == Ok(true))
    ensures r.Ok? ==> r.value.dcPowerFlowMatrix == if ConnectedVerdict(snap.lines) == Ok(true) then m else []
    ensures r.Ok? && !r.value.validateFlag ==>
              r.value.busPower.Length == 0 && r.value.currentPower == [] && r.value.admittanceMatrix.None?
    ensures r.Ok? && r.value.validateFlag ==>
              r.value.busPower[..] == Zeros(|snap.buses|) && r.value.currentPower == Zeros(|snap.lines|)
    ensures r.Ok? && r.value.validateFlag ==>
              var a := r.value.admittanceMatrix;
              a.Some? && fresh(a.value) && a.value.Length0 == |snap.buses| && a.value.Length1 == |snap.buses| &&
              forall i, j :: 0 <= i < |snap.buses| && 0 <= j < |snap.buses| ==>
                a.value[i, j] == AdmittanceEntry(snap.buses, snap.lines, i, j)
  {
    FromLoaderLinesWithin(snap);
    NoLinesNotConnected();
    if snap.connected.Err? {
      return Err(snap.connected.error);
    }
    if !snap.connected.value {
      var empty := new real[0];
      var g := new GridNetwork(name, initialTimestamp, snap.buses, snap.lines, false, None, [], empty, []);
      return Ok(g);
    }
    var adm := CalculateAdmittanceMatrix(snap.buses, snap.lines);
    var verdict := GridConnectivity.CheckGridNetworkConnected(snap.lines);
    var dc := if verdict == Ok(true) then m else [];
    var zeros := new real[|snap.buses|](_ => 0.0);
    assert zeros[..] == Zeros(|snap.buses|);
    var g := new GridNetwork(name, initialTimestamp, snap.buses, snap.lines, true, Some(adm.value), dc, zeros,
                             Zeros(|snap.lines|));
    return Ok(g);
  }

  lemma Dot3(a: seq<real>, b: seq<real>)
    requires |a| == 3 && |b| == 3
    ensures Dot(a, b) == a[0] * b[0] + a[1] * b[1] + a[2] * b[2]
  {
    assert a[..2][..1][..0] == [] && b[..2][..1][..0] == [];
    assert Dot(a[..2][..1], b[..2][..1]) == a[0] * b[0];
  }

  /**
   * The chain of the unit tests: lines 0–1 and 1–2 of admittance 20 list the
   * buses as [bus_1, bus_0, bus_2]; with injections −3, 5, −2 at bus_0,
   * bus_1, bus_2 and `M = diag(1, 1/20, 1/20)` (the inverse of the pinned
   * matrix `diag(1, 20, 20)`) the flows are −3 and 2.
   */
  lemma ChainFlows()
    ensures BusesOf([L("bus_0", "bus_1"), L("bus_1", "bus_2")]) == ["bus_1", "bus_0", "bus_2"]
    ensures LineFlows(["bus_1", "bus_0", "bus_2"], [L("bus_0", "bus_1"), L("bus_1", "bus_2")],
                      [[1.0, 0.0, 0.0], [0.0, 1.0 / 20.0, 0.0], [0.0, 0.0, 1.0 / 20.0]], [5.0, -3.0, -2.0]) == [-3.0, 2.0]
  {
    ChainBuses();
    ChainLineFlows();
  }

  lemma ChainBuses()
    ensures BusesOf([L("bus_0", "bus_1"), L("bus_1", "bus_2")]) == ["bus_1", "bus_0", "bus_2"]
  {
    var lines := [L("bus_0", "bus_1"), L("bus_1", "bus_2")];
    var e := EndpointSeq(lines);
    assert e == ["bus_1", "bus_0", "bus_2", "bus_1"];
    assert e[..1] == ["bus_1"] && e[..2] == ["bus_1", "bus_0"] && e[..3] == ["bus_1", "bus_0", "bus_2"];
    assert e[..1][..0] == [] && e[..2][..1] == e[..1] && e[..3][..2] == e[..2] && e[..3] == e[..|e| - 1];
    assert Dedup(e[..1]) == ["bus_1"];
    assert Dedup(e[..2]) == ["bus_1", "bus_0"];
    assert Dedup(e[..3]) == ["bus_1", "bus_0", "bus_2"];
  }

  lemma ChainLineFlows()
    ensures LineFlows(["bus_1", "bus_0", "bus_2"], [L("bus_0", "bus_1"), L("bus_1", "bus_2")],
                      [[1.0, 0.0, 0.0], [0.0, 1.0 / 20.0, 0.0], [0.0, 0.0, 1.0 / 20.0]], [5.0, -3.0, -2.0]) == [-3.0, 2.0]
  {
    var lines := [L("bus_0", "bus_1"), L("bus_1", "bus_2")];
    var buses := ["bus_1", "bus_0", "bus_2"];
    var m := [[1.0, 0.0, 0.0], [0.0, 1.0 / 20.0, 0.0], [0.0, 0.0, 1.0 / 20.0]];
    var p := [5.0, -3.0, -2.0];
    var theta := ChainAngles();
    assert IndexOf(buses, "bus_0") == Ok(1);
    assert IndexOf(buses, "bus_1") == Ok(0);
    assert IndexOf(buses, "bus_2") == Ok(2);
    assert LineFlow(buses, theta, lines[0]) == -3.0;
    assert LineFlow(buses, theta, lines[1]) == 2.0;
  }

  lemma ChainAngles() returns (theta: seq<real>)
    ensures theta == PhaseAngles([[1.0, 0.0, 0.0], [0.0, 1.0 / 20.0, 0.0], [0.0, 0.0, 1.0 / 20.0]], [5.0, -3.0, -2.0])
    ensures theta == [0.0, -3.0 / 20.0, -2.0 / 20.0]
  {
    var m := [[1.0, 0.0, 0.0], [0.0, 1.0 / 20.0, 0.0], [0.0, 0.0, 1.0 / 20.0]];
    var p := [5.0, -3.0, -2.0];
    Dot3(m[0], p);
    Dot3(m[1], p);
    Dot3(m[2], p);
    theta := PhaseAngles(m, p);
  }

  /** The single-bus network: a zero injection at "slack" balances, and there are no flows. */
  lemma SingleBusBalanced()
    ensures LinesWithin([SlackBusId], []) && Sum([0.0]) == 0.0
    ensures FromLoader(GridSnapshot([SlackBusId], [], Ok(true)))
  {
    SumSingleton(0.0);
  }
}
