/**
 * The grid data loaders of src/data_loader/component/grid_model.py: the
 * single-bus loader and `GridNetworkDataLoader`, whose line list grows in
 * place through `add_grid_line`. Line membership (`line in lines`) uses the
 * undirected `GridLine` equality of module Component.
 */
module GridLoader {
  import opened Wrappers
  import opened SeqUtil
  import opened Component
  import opened GridConnectivity
  import opened GridNetworkUtil

  const SlackBusId: BusId := "slack"

  /** What a grid model reads from its loader when it is built. */
  datatype GridSnapshot = GridSnapshot(buses: seq<BusId>, lines: seq<GridLine>, connected: Result<bool>)

  /** `SingleBusGridNetworkDataLoader`: one slack bus, no lines, always valid and connected. */
  datatype SingleBusGridLoader = SingleBusGridLoader(initialTimestamp: int)
  {
    function Snapshot(): (s: GridSnapshot)
      ensures s.buses == [SlackBusId] && s.lines == [] && s.connected == Ok(true)
    {
      GridSnapshot([SlackBusId], [], Ok(true))
    }
  }

  /**
   * The single-bus loader answers "connected" itself: the shared partition
   * would call an empty line list disconnected, and the bus/line check
   * accepts it only through its one-bus shortcut.
   */
  lemma SingleBusOverridesPartition(g: SingleBusGridLoader)
    ensures g.Snapshot().connected == Ok(true)
    ensures ConnectedVerdict(g.Snapshot().lines) == Ok(false)
    ensures LinesWithin(g.Snapshot().buses, g.Snapshot().lines)
  {
    assert PartitionOf([]) == Ok([]);
  }

  /** `line in lines`: some listed line compares equal to `l`. */
  predicate ContainsLine(lines: seq<GridLine>, l: GridLine)
  {
    exists i :: 0 <= i < |lines| && LineEq(l, lines[i])
  }

  /** No line compares equal to a later one. */
  predicate DistinctLines(lines: seq<GridLine>)
  {
    forall i, j :: 0 <= i < j < |lines| ==> !LineEq(lines[i], lines[j])
  }

  /** Every line passed the `GridLine` construction check. */
  predicate AllWellFormed(lines: seq<GridLine>)
  {
    forall l :: l in lines ==> WellFormedLine(l)
  }

  /** `_check_duplicate_grid_lines`: true iff no line equals one listed after it. */
  method CheckDuplicateGridLines(lines: seq<GridLine>) returns (ok: bool)
    ensures ok <==> DistinctLines(lines)
  {
    ok := true;
    if |lines| > 1 {
      for count := 0 to |lines| - 1
        invariant ok <==> forall i, j :: 0 <= i < count && i < j < |lines| ==> !LineEq(lines[i], lines[j])
      {
        if ContainsLine(lines[count + 1..], lines[count]) {
          var k :| 0 <= k < |lines[count + 1..]| && LineEq(lines[count], lines[count + 1..][k]);
          assert LineEq(lines[count], lines[count + 1 + k]);
          ok := false;
        } else {
          assert forall j :: count < j < |lines| ==> lines[j] == lines[count + 1..][j - count - 1];
        }
      }
    }
  }

  /** The endpoints in loop order: `to_bus` then `from_bus` of each line. */
  function EndpointSeq(lines: seq<GridLine>): (r: seq<BusId>)
    ensures |r| == 2 * |lines|
    ensures forall k :: 0 <= k < |lines| ==> r[2 * k] == lines[k].toBus && r[2 * k + 1] == lines[k].fromBus
  {
    if |lines| == 0 then []
    else EndpointSeq(lines[..|lines| - 1]) + [lines[|lines| - 1].toBus, lines[|lines| - 1].fromBus]
  }

  /** The bus list `buses()` returns. */
  function BusesOf(lines: seq<GridLine>): seq<BusId>
  {
    Dedup(EndpointSeq(lines))
  }

  /** `buses()` lists every endpoint exactly once and nothing else. */
  lemma BusesOfSpec(lines: seq<GridLine>)
    ensures NoDuplicates(BusesOf(lines))
    ensures forall b :: b in BusesOf(lines) <==> exists l :: l in lines && b in Ends(l)
  {
    var e := EndpointSeq(lines);
    DedupSpec(e);
    forall b | b in e
      ensures exists l :: l in lines && b in Ends(l)
    {
      var k :| 0 <= k < |e| && e[k] == b;
      assert lines[k / 2] in lines && b in Ends(lines[k / 2]);
    }
    forall b, l | l in lines && b in Ends(l)
      ensures b in e
    {
      var k :| 0 <= k < |lines| && lines[k] == l;
      assert e[2 * k] == l.toBus && e[2 * k + 1] == l.fromBus;
    }
  }

  /** First-appearance order puts the first line's `to_bus`, then its `from_bus`, at the front. */
  lemma {:induction false} BusesOfFront(lines: seq<GridLine>)
    requires |lines| > 0 && WellFormedLine(lines[0])
    ensures |BusesOf(lines)| >= 2
    ensures BusesOf(lines)[0] == lines[0].toBus && BusesOf(lines)[1] == lines[0].fromBus
  {
    var e := EndpointSeq(lines);
    if |lines| == 1 {
      assert e == [lines[0].toBus, lines[0].fromBus];
      assert Dedup(e[..1]) == [lines[0].toBus];
    } else {
      var pre := lines[..|lines| - 1];
      BusesOfFront(pre);
      var last := lines[|lines| - 1];
      assert e[..|e| - 1] == EndpointSeq(pre) + [last.toBus];
      assert (EndpointSeq(pre) + [last.toBus])[..|e| - 2] == EndpointSeq(pre);
      assert Dedup(e) == AppendUnique(AppendUnique(BusesOf(pre), last.toBus), last.fromBus);
    }
  }

  class GridNetworkDataLoader {
    const initialTimestamp: int
    var gridLines: seq<GridLine>

    /** Every line was constructed (so is not a self-loop) and no two lines are equal. */
    predicate Valid()
      reads this
    {
      AllWellFormed(gridLines) && DistinctLines(gridLines)
    }

    constructor (initialTimestamp: int, lines: seq<GridLine>)
      requires AllWellFormed(lines) && DistinctLines(lines)
      ensures this.initialTimestamp == initialTimestamp && gridLines == lines && Valid()
    {
      this.initialTimestamp := initialTimestamp;
      gridLines := lines;
    }

    /** `validate_grid_line_data`: true for no lines, else iff every line has distinct endpoints. */
    function ValidateGridLineData(): (r: bool)
      reads this
      ensures r <==> (|gridLines| == 0 || forall k :: 0 <= k < |gridLines| ==> gridLines[k].fromBus != gridLines[k].toBus)
      ensures Valid() ==> r
    {
      if |gridLines| > 0 then forall l :: l in gridLines ==> l.fromBus != l.toBus else true
    }

    /** `_validate_grid_line`: the line may be added iff no equal line is listed. */
    function ValidateGridLine(l: GridLine): (r: bool)
      reads this
      ensures r <==> forall k :: 0 <= k < |gridLines| ==> !LineEq(l, gridLines[k])
    {
      !ContainsLine(gridLines, l)
    }

    /** `add_grid_line`: appends unless an equal line is present (then only a warning). */
    method AddGridLine(l: GridLine) returns (added: bool)
      requires Valid() && WellFormedLine(l)
      modifies this
      ensures added <==> forall k :: 0 <= k < |old(gridLines)| ==> !LineEq(l, old(gridLines)[k])
      ensures gridLines == if added then old(gridLines) + [l] else old(gridLines)
      ensures Valid()
    {
      added := ValidateGridLine(l);
      if added {
        forall k | 0 <= k < |gridLines|
          ensures !LineEq(gridLines[k], l)
        {
          assert gridLines[k] in gridLines;
          LineEqSymmetric(gridLines[k], l);
        }
        gridLines := gridLines + [l];
      }
    }

    /** `buses()`: the loop appending each unseen `to_bus`, then each unseen `from_bus`. */
    method Buses() returns (bus: seq<BusId>)
      ensures bus == BusesOf(gridLines)
    {
      bus := [];
      for i := 0 to |gridLines|
        invariant bus == BusesOf(gridLines[..i])
      {
        var line := gridLines[i];
        var pre := EndpointSeq(gridLines[..i]);
        assert gridLines[..i + 1][..i] == gridLines[..i];
        var e := pre + [line.toBus, line.fromBus];
        assert EndpointSeq(gridLines[..i + 1]) == e;
        assert e[..|e| - 1] == pre + [line.toBus];
        assert (pre + [line.toBus])[..|pre|] == pre;
        assert Dedup(pre + [line.toBus]) == AppendUnique(Dedup(pre), line.toBus);
        assert Dedup(e) == AppendUnique(Dedup(pre + [line.toBus]), line.fromBus);
        if line.toBus !in bus {
          bus := bus + [line.toBus];
        }
        if line.fromBus !in bus {
          bus := bus + [line.fromBus];
        }
      }
      assert gridLines[..|gridLines|] == gridLines;
    }

    /** `check_grid_network_connected`: the same partition and merge as module GridConnectivity. */
    method CheckGridNetworkConnected() returns (r: Result<bool>)
      ensures r == ConnectedVerdict(gridLines)
    {
      r := GridConnectivity.CheckGridNetworkConnected(gridLines);
    }

    /** What a grid model built now reads. */
    method Snapshot() returns (s: GridSnapshot)
      ensures s == GridSnapshot(BusesOf(gridLines), gridLines, ConnectedVerdict(gridLines))
    {
      var b := Buses();
      var c := CheckGridNetworkConnected();
      s := GridSnapshot(b, gridLines, c);
    }
  }

  /** `GridNetworkDataLoader(...)`: `DuplicateGridModelError` iff two listed lines are equal. */
  method NewGridNetworkDataLoader(initialTimestamp: int, lines: seq<GridLine>) returns (r: Result<GridNetworkDataLoader>)
    requires AllWellFormed(lines)
    ensures r.Err? <==> !DistinctLines(lines)
    ensures r.Err? ==> r.error == DuplicateGridModel
    ensures r.Ok? ==> fresh(r.value) && r.value.gridLines == lines && r.value.initialTimestamp == initialTimestamp
  {
    var ok := CheckDuplicateGridLines(lines);
    if ok {
      var loader := new GridNetworkDataLoader(initialTimestamp, lines);
      r := Ok(loader);
    } else {
      r := Err(DuplicateGridModel);
    }
  }

  /** A loader's snapshot satisfies the bus/line check: every line joins two of its buses. */
  lemma SnapshotLinesWithin(lines: seq<GridLine>)
    requires AllWellFormed(lines)
    ensures LinesWithin(BusesOf(lines), lines)
  {
    BusesOfSpec(lines);
    forall l | l in lines
      ensures l.toBus in BusesOf(lines) && l.fromBus in BusesOf(lines)
    {
      assert l.toBus in Ends(l) && l.fromBus in Ends(l);
    }
  }
}
