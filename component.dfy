/**
 * Shared component records of src/common/model/component.py: component
 * types, grid lines with undirected equality, and control component data.
 */
module Component {
  import opened Wrappers
  import opened Timeseries

  type BusId = string

  datatype ComponentType = Load | Renewable | PV | Wind | Storage | Thermal | Grid | Unknown

  /** A line between two buses; `bounds` is carried but never consulted by the modelled code. */
  datatype GridLine = GridLine(fromBus: BusId, toBus: BusId, admittance: real, bounds: Option<Bounds>)

  /** The construction check: a line must join two different buses. */
  predicate WellFormedLine(l: GridLine)
  {
    l.toBus != l.fromBus
  }

  /** `GridLine(...)`: `ValueError` for a self-loop. */
  function MakeGridLine(fromBus: BusId, toBus: BusId, admittance: real, bounds: Option<Bounds>): (r: Result<GridLine>)
    ensures r.Ok? <==> fromBus != toBus
    ensures r.Ok? ==> r.value == GridLine(fromBus, toBus, admittance, bounds) && WellFormedLine(r.value)
    ensures r.Err? ==> r.error == ValueError
  {
    if toBus == fromBus then Err(ValueError) else Ok(GridLine(fromBus, toBus, admittance, bounds))
  }

  /** `GridLine.__eq__` exactly as written: both of `other`'s endpoints among `self`'s, equal admittances. */
  predicate LineEq(self: GridLine, other: GridLine)
  {
    other.toBus in [self.toBus, self.fromBus] &&
    other.fromBus in [self.toBus, self.fromBus] &&
    self.admittance == other.admittance
  }

  function Ends(l: GridLine): set<BusId>
  {
    {l.toBus, l.fromBus}
  }

  /** For constructed lines, equality means: same unordered bus pair and same admittance (direction and bounds ignored). */
  lemma LineEqIff(a: GridLine, b: GridLine)
    requires WellFormedLine(a) && WellFormedLine(b)
    ensures LineEq(a, b) <==> (Ends(a) == Ends(b) && a.admittance == b.admittance)
  {
    if LineEq(a, b) {
      assert b.toBus == a.toBus || b.toBus == a.fromBus;
      assert b.fromBus == a.toBus || b.fromBus == a.fromBus;
      assert Ends(a) == Ends(b);
    }
  }

  /** Line equality is symmetric among constructed lines. */
  lemma LineEqSymmetric(a: GridLine, b: GridLine)
    requires WellFormedLine(a) && WellFormedLine(b)
    ensures LineEq(a, b) <==> LineEq(b, a)
  {
    LineEqIff(a, b);
    LineEqIff(b, a);
  }

  /** Without the construction check, equality is not symmetric: a self-loop at `x` against a line `x`–`y`. */
  lemma LineEqAsymmetricForSelfLoop()
    ensures var loop := GridLine("x", "x", 1.0, None);
            var line := GridLine("x", "y", 1.0, None);
            LineEq(line, loop) && !LineEq(loop, line)
  {
    var loop := GridLine("x", "x", 1.0, None);
    var line := GridLine("x", "y", 1.0, None);
    assert line.toBus !in [loop.toBus, loop.fromBus];
  }

  /** `is_connected_to_bus`. */
  predicate IsConnectedToBus(l: GridLine, bus: BusId)
  {
    bus == l.toBus || bus == l.fromBus
  }

  /** A line touches exactly its two endpoints, and two equal lines touch the same buses. */
  lemma ConnectedIffEndpoint(a: GridLine, b: GridLine, bus: BusId)
    requires WellFormedLine(a) && WellFormedLine(b) && LineEq(a, b)
    ensures IsConnectedToBus(a, bus) <==> bus in Ends(a)
    ensures IsConnectedToBus(a, bus) <==> IsConnectedToBus(b, bus)
  {
    LineEqIff(a, b);
  }

  datatype ControlComponentParameters = ControlComponentParameters(
    gridFormingFlag: bool, droopGain: real, chargingEfficiency: real, dischargingEfficiency: real)

  /** The defaults: not grid-forming, droop gain 0, both efficiencies 1. */
  const DefaultParameters := ControlComponentParameters(false, 0.0, 1.0, 1.0)

  datatype ControlComponentData = ControlComponentData(
    name: string, componentType: ComponentType, timestamp: int,
    powerBound: Option<Bounds>, parameters: ControlComponentParameters, energyBound: Option<Bounds>)

  /** `ControlComponentData` construction: a `Storage` without `energy_bound` raises `ValueError`. */
  function MakeControlComponentData(name: string, componentType: ComponentType, timestamp: int,
                                    powerBound: Option<Bounds>, parameters: ControlComponentParameters,
                                    energyBound: Option<Bounds>): (r: Result<ControlComponentData>)
    ensures r.Err? <==> componentType == Storage && energyBound.None?
    ensures r.Err? ==> r.error == ValueError
    ensures r.Ok? ==> r.value.componentType == componentType && r.value.energyBound == energyBound
  {
    if componentType == Storage && energyBound.None? then Err(ValueError)
    else Ok(ControlComponentData(name, componentType, timestamp, powerBound, parameters, energyBound))
  }
}
