/**
 * `GridNetworkUtils` of src/common/model/grid_network_util.py: the bus/line
 * consistency check, the admittance (Laplacian) matrix and the pinned DC
 * power-flow matrix, each filled into an array as the code fills its numpy
 * array. The matrix inversion that follows is numerics and not part of this
 * model; the connectivity test lives in module GridConnectivity.
 */
module GridNetworkUtil {
  import opened Wrappers
  import opened SeqUtil
  import opened Component
  import opened GridConnectivity

  // ------------------------------------------------------------ check_bus_grid_lines

  /** Every line joins two different listed buses. */
  predicate LinesWithin(buses: seq<BusId>, lines: seq<GridLine>)
  {
    forall l :: l in lines ==> l.toBus in buses && l.fromBus in buses && l.toBus != l.fromBus
  }

  /** The three assertions run line by line; the first failure escapes as `AssertionError`. */
  function CheckLines(buses: seq<BusId>, lines: seq<GridLine>): (r: Outcome)
    ensures r.Pass? <==> LinesWithin(buses, lines)
    ensures r.Fail? ==> r.error == AssertionError
  {
    if |lines| == 0 then Pass
    else
      var l := lines[0];
      if l.toBus in buses && l.fromBus in buses && l.toBus != l.fromBus then
        var rest := CheckLines(buses, lines[1..]);
        assert forall m :: m in lines ==> m == l || m in lines[1..];
        rest
      else Fail(AssertionError)
  }

  /**
   * `check_bus_grid_lines`: the shortcut for no lines and one bus, else the
   * per-line assertions. Only `AttributeError` is caught, so a violation is
   * an escaping `AssertionError`, never a `False` result.
   */
  function CheckBusGridLines(buses: seq<BusId>, lines: seq<GridLine>): (r: Outcome)
    ensures r.Pass? <==> LinesWithin(buses, lines)
    ensures r.Fail? ==> r.error == AssertionError
  {
    if |lines| == 0 && |buses| == 1 then Pass else CheckLines(buses, lines)
  }

  // ------------------------------------------------------------ admittance matrix

  /** `_get_bus_grid_line`: the lines touching `bus`, in list order. */
  function Incident(bus: BusId, lines: seq<GridLine>): (r: seq<GridLine>)
    ensures forall l :: l in r <==> l in lines && IsConnectedToBus(l, bus)
    ensures |r| <= |lines|
  {
    if |lines| == 0 then []
    else
      var last := lines[|lines| - 1];
      var pre := Incident(bus, lines[..|lines| - 1]);
      assert forall l :: l in lines <==> l in lines[..|lines| - 1] || l == last;
      pre + (if IsConnectedToBus(last, bus) then [last] else [])
  }

  /** The endpoint of `l` opposite `bus`, as the fill loop picks it. */
  function OtherEnd(l: GridLine, bus: BusId): BusId
  {
    if l.toBus == bus then l.fromBus else l.toBus
  }

  /** The value the fill loop leaves in column `j` of `bus`'s row after the lines `ls`: the last write wins. */
  function LastWrite(buses: seq<BusId>, ls: seq<GridLine>, bus: BusId, j: nat): real
  {
    if |ls| == 0 then 0.0
    else if IndexOf(buses, OtherEnd(ls[|ls| - 1], bus)) == Ok(j) then -ls[|ls| - 1].admittance
    else LastWrite(buses, ls[..|ls| - 1], bus, j)
  }

  /** Entry `[i, j]` after the fill loop, before the diagonal is added. */
  function Filled(buses: seq<BusId>, lines: seq<GridLine>, i: nat, j: nat): real
    requires i < |buses|
  {
    LastWrite(buses, Incident(buses[i], lines), buses[i], j)
  }

  function FilledRow(buses: seq<BusId>, lines: seq<GridLine>, i: nat): (r: seq<real>)
    requires i < |buses|
    ensures |r| == |buses| && forall j :: 0 <= j < |buses| ==> r[j] == Filled(buses, lines, i, j)
  {
    seq(|buses|, j requires 0 <= j < |buses| => Filled(buses, lines, i, j))
  }

  /** Entry `[i, j]` of the admittance matrix: the filled value, plus minus the filled row sum on the diagonal. */
  function AdmittanceEntry(buses: seq<BusId>, lines: seq<GridLine>, i: nat, j: nat): real
    requires i < |buses|
  {
    Filled(buses, lines, i, j) + (if i == j then -Sum(FilledRow(buses, lines, i)) else 0.0)
  }

  function AdmittanceRow(buses: seq<BusId>, lines: seq<GridLine>, i: nat): (r: seq<real>)
    requires i < |buses|
    ensures |r| == |buses| && forall j :: 0 <= j < |buses| ==> r[j] == AdmittanceEntry(buses, lines, i, j)
  {
    seq(|buses|, j requires 0 <= j < |buses| => AdmittanceEntry(buses, lines, i, j))
  }

  /** `calculate_admittance_matrix`: the check, the fill loop over each bus's lines, then the diagonal. */
  method CalculateAdmittanceMatrix(buses: seq<BusId>, lines: seq<GridLine>) returns (r: Result<array2<real>>)
    ensures r.Err? <==> !LinesWithin(buses, lines)
    ensures r.Err? ==> r.error == AssertionError
    ensures r.Ok? ==> fresh(r.value) && r.value.Length0 == |buses| && r.value.Length1 == |buses|
    ensures r.Ok? ==> forall i, j :: 0 <= i < |buses| && 0 <= j < |buses| ==>
                        r.value[i, j] == AdmittanceEntry(buses, lines, i, j)
  {
    if CheckBusGridLines(buses, lines).Fail? {
      return Err(AssertionError);
    }
    var n := |buses|;
    var m := new real[n, n]((i, j) => 0.0);
    FillRows(m, buses, lines);
    // the row sums are taken from the filled matrix before any diagonal entry changes
    var sums := RowSums(m, buses, lines);
    AddDiagonal(m, buses, lines, sums);
    return Ok(m);
  }

  /** The fill loop over every bus, on a zero matrix. */
  method FillRows(m: array2<real>, buses: seq<BusId>, lines: seq<GridLine>)
    requires m.Length0 == |buses| && m.Length1 == |buses| && LinesWithin(buses, lines)
    requires forall i, j :: 0 <= i < |buses| && 0 <= j < |buses| ==> m[i, j] == 0.0
    modifies m
    ensures forall i, j :: 0 <= i < |buses| && 0 <= j < |buses| ==> m[i, j] == Filled(buses, lines, i, j)
  {
    var n := |buses|;
    var count := 0;
    while count < n
      invariant 0 <= count <= n
      invariant forall i, j :: 0 <= i < count && 0 <= j < n ==> m[i, j] == Filled(buses, lines, i, j)
      invariant forall i, j :: count <= i < n && 0 <= j < n ==> m[i, j] == 0.0
    {
      FillRow(m, buses, lines, count);
      count := count + 1;
    }
  }

  /** `admittance_matrix[i, i] += -row_sum[i]` for every bus, over the filled matrix. */
  method AddDiagonal(m: array2<real>, buses: seq<BusId>, lines: seq<GridLine>, sums: seq<real>)
    requires m.Length0 == |buses| && m.Length1 == |buses| && |sums| == |buses|
    requires forall i, j :: 0 <= i < |buses| && 0 <= j < |buses| ==> m[i, j] == Filled(buses, lines, i, j)
    requires forall i :: 0 <= i < |buses| ==> sums[i] == Sum(FilledRow(buses, lines, i))
    modifies m
    ensures forall i, j :: 0 <= i < |buses| && 0 <= j < |buses| ==> m[i, j] == AdmittanceEntry(buses, lines, i, j)
  {
    var n := |buses|;
    var i := 0;
    while i < n
      invariant 0 <= i <= n
      invariant forall a, b :: 0 <= a < n && 0 <= b < n ==>
                  m[a, b] == if a == b && a < i then AdmittanceEntry(buses, lines, a, b) else Filled(buses, lines, a, b)
    {
      m[i, i] := m[i, i] + -sums[i];
      i := i + 1;
    }
  }

  /** The fill loop for one bus: each incident line writes `−admittance` at the column of its other end. */
  method FillRow(m: array2<real>, buses: seq<BusId>, lines: seq<GridLine>, count: nat)
    requires m.Length0 == |buses| && m.Length1 == |buses| && count < |buses| && LinesWithin(buses, lines)
    requires forall j :: 0 <= j < |buses| ==> m[count, j] == 0.0
    modifies m
    ensures forall j :: 0 <= j < |buses| ==> m[count, j] == Filled(buses, lines, count, j)
    ensures forall i, j :: 0 <= i < |buses| && i != count && 0 <= j < |buses| ==> m[i, j] == old(m[i, j])
  {
    var bus := buses[count];
    var inc := Incident(bus, lines);
    var t := 0;
    while t < |inc|
      invariant 0 <= t <= |inc|
      invariant forall i, j :: 0 <= i < |buses| && i != count && 0 <= j < |buses| ==> m[i, j] == old(m[i, j])
      invariant forall j :: 0 <= j < |buses| ==> m[count, j] == LastWrite(buses, inc[..t], bus, j)
    {
      var line := inc[t];
      assert line in lines;
      var col: nat;
      if line.toBus == bus {
        col := IndexOf(buses, line.fromBus).value;
      } else {
        col := IndexOf(buses, line.toBus).value;
      }
      m[count, col] := -line.admittance;
      assert inc[..t + 1][..t] == inc[..t];
      t := t + 1;
    }
    assert inc[..t] == inc;
  }

  /** `admittance_matrix[i, :].sum()`: row `i` added up left to right. */
  method RowSum(m: array2<real>, i: nat, ghost row: seq<real>) returns (s: real)
    requires i < m.Length0 && |row| == m.Length1
    requires forall k :: 0 <= k < |row| ==> m[i, k] == row[k]
    ensures s == Sum(row)
  {
    s := 0.0;
    var k := 0;
    while k < m.Length1
      invariant 0 <= k <= m.Length1
      invariant s == Sum(row[..k])
    {
      assert row[..k + 1][..k] == row[..k];
      s := s + m[i, k];
      k := k + 1;
    }
    assert row[..k] == row;
  }

  /** `[admittance_matrix[i, :].sum() for i in range(n)]` over the filled matrix. */
  method RowSums(m: array2<real>, buses: seq<BusId>, lines: seq<GridLine>) returns (sums: seq<real>)
    requires m.Length0 == |buses| && m.Length1 == |buses|
    requires forall i, j :: 0 <= i < |buses| && 0 <= j < |buses| ==> m[i, j] == Filled(buses, lines, i, j)
    ensures |sums| == |buses|
    ensures forall i :: 0 <= i < |buses| ==> sums[i] == Sum(FilledRow(buses, lines, i))
  {
    var n := |buses|;
    sums := [];
    var i := 0;
    while i < n
      invariant 0 <= i <= n && |sums| == i
      invariant forall a :: 0 <= a < i ==> sums[a] == Sum(FilledRow(buses, lines, a))
    {
      var s := RowSum(m, i, FilledRow(buses, lines, i));
      sums := sums + [s];
      i := i + 1;
    }
  }

  // ------------------------------------------------------------ admittance properties

  /** The last listed line joining buses `a` and `b` (either direction), as `−admittance`; 0 when none does. */
  function LastJoining(ls: seq<GridLine>, a: BusId, b: BusId): real
  {
    if |ls| == 0 then 0.0
    else if Ends(ls[|ls| - 1]) == {a, b} then -ls[|ls| - 1].admittance
    else LastJoining(ls[..|ls| - 1], a, b)
  }

  lemma {:induction false} LastJoiningSymmetric(ls: seq<GridLine>, a: BusId, b: BusId)
    ensures LastJoining(ls, a, b) == LastJoining(ls, b, a)
  {
    assert {a, b} == {b, a};
    if |ls| > 0 {
      LastJoiningSymmetric(ls[..|ls| - 1], a, b);
    }
  }

  /** For a line at bus `i`, its other end sits at column `j` exactly when the line joins buses `i` and `j`. */
  lemma OtherEndColumn(buses: seq<BusId>, l: GridLine, i: nat, j: nat)
    requires NoDuplicates(buses) && l.toBus in buses && l.fromBus in buses && l.toBus != l.fromBus
    requires i < |buses| && j < |buses| && i != j && IsConnectedToBus(l, buses[i])
    ensures IndexOf(buses, OtherEnd(l, buses[i])) == Ok(j) <==> Ends(l) == {buses[i], buses[j]}
  {
    var o := OtherEnd(l, buses[i]);
    var k :| 0 <= k < |buses| && buses[k] == o;
    IndexOfUnique(buses, k);
    assert IndexOf(buses, o) == Ok(j) <==> o == buses[j];
  }

  /** The fill loop's value at `[i, j]` (i ≠ j) is that of the last line joining the two buses. */
  lemma {:induction false} FilledIsLastJoining(buses: seq<BusId>, ls: seq<GridLine>, i: nat, j: nat)
    requires NoDuplicates(buses) && LinesWithin(buses, ls)
    requires i < |buses| && j < |buses| && i != j
    ensures LastWrite(buses, Incident(buses[i], ls), buses[i], j) == LastJoining(ls, buses[i], buses[j])
  {
    if |ls| > 0 {
      var pre, l := ls[..|ls| - 1], ls[|ls| - 1];
      assert l in ls;
      assert LinesWithin(buses, pre) by {
        assert forall m :: m in pre ==> m in ls;
      }
      FilledIsLastJoining(buses, pre, i, j);
      var inc := Incident(buses[i], pre);
      if IsConnectedToBus(l, buses[i]) {
        assert Incident(buses[i], ls) == inc + [l];
        assert (inc + [l])[..|inc|] == inc;
        OtherEndColumn(buses, l, i, j);
      } else {
        assert Incident(buses[i], ls) == inc;
        assert buses[i] !in Ends(l);
      }
    }
  }

  /**
   * Off the diagonal, entry `[u, v]` is `−admittance` of the LAST listed line
   * joining u and v: the fill loop assigns, so parallel lines overwrite
   * instead of adding up; buses with no line between them get 0.
   */
  lemma AdmittanceOffDiagonal(buses: seq<BusId>, lines: seq<GridLine>, i: nat, j: nat)
    requires NoDuplicates(buses) && LinesWithin(buses, lines)
    requires i < |buses| && j < |buses| && i != j
    ensures AdmittanceEntry(buses, lines, i, j) == LastJoining(lines, buses[i], buses[j])
  {
    FilledIsLastJoining(buses, lines, i, j);
  }

  /** The admittance matrix is symmetric. */
  lemma AdmittanceSymmetric(buses: seq<BusId>, lines: seq<GridLine>, i: nat, j: nat)
    requires NoDuplicates(buses) && LinesWithin(buses, lines)
    requires i < |buses| && j < |buses|
    ensures AdmittanceEntry(buses, lines, i, j) == AdmittanceEntry(buses, lines, j, i)
  {
    if i != j {
      AdmittanceOffDiagonal(buses, lines, i, j);
      AdmittanceOffDiagonal(buses, lines, j, i);
      LastJoiningSymmetric(lines, buses[i], buses[j]);
    }
  }

  /** Every row of the admittance matrix sums to zero (the diagonal balances the row). */
  lemma AdmittanceRowSumZero(buses: seq<BusId>, lines: seq<GridLine>, i: nat)
    requires i < |buses|
    ensures Sum(AdmittanceRow(buses, lines, i)) == 0.0
  {
    var filled, row := FilledRow(buses, lines, i), AdmittanceRow(buses, lines, i);
    SumUpdate(filled, i, -Sum(filled));
    var updated := filled[i := filled[i] + -Sum(filled)];
    forall j | 0 <= j < |row|
      ensures row[j] == updated[j]
    {
    }
    assert row == updated;
  }

  // ------------------------------------------------------------ DC power-flow matrix

  /** The matrix handed to the inversion: row 0 and column 0 zeroed, `[0, 0] = 1`. */
  function PinnedEntry(buses: seq<BusId>, lines: seq<GridLine>, i: nat, j: nat): real
    requires i < |buses|
  {
    if i == 0 && j == 0 then 1.0
    else if i == 0 || j == 0 then 0.0
    else AdmittanceEntry(buses, lines, i, j)
  }

  lemma VerdictNeedsLines(lines: seq<GridLine>)
    ensures ConnectedVerdict(lines) == Ok(true) ==> |lines| > 0
  {
    if |lines| == 0 {
      assert PartitionOf(lines) == Ok([]);
    }
  }

  /** Row 0 and column 0 of a square matrix set to 0, then `[0, 0]` to 1; every other entry kept. */
  method PinFirstBus(m: array2<real>)
    requires m.Length0 == m.Length1
    modifies m
    ensures forall i, j :: 0 <= i < m.Length0 && 0 <= j < m.Length1 ==>
              m[i, j] == if i == 0 && j == 0 then 1.0 else if i == 0 || j == 0 then 0.0 else old(m[i, j])
  {
    var k := 0;
    while k < m.Length0
      invariant 0 <= k <= m.Length0
      invariant forall i, j :: 0 <= i < m.Length0 && 0 <= j < m.Length1 ==>
        m[i, j] == if (i == 0 && j < k) || (j == 0 && i < k) then 0.0 else old(m[i, j])
    {
      m[0, k] := 0.0;
      m[k, 0] := 0.0;
      k := k + 1;
    }
    if m.Length0 > 0 {
      m[0, 0] := 1.0;
    }
  }

  /**
   * `calculate_dc_power_flow_matrix` up to the inversion: `None` (the empty
   * array) unless the lines are connected, otherwise the pinned admittance
   * matrix. A failing connectivity merge or bus check escapes as an error.
   */
  method CalculatePinnedMatrix(buses: seq<BusId>, lines: seq<GridLine>) returns (r: Result<Option<array2<real>>>)
    ensures ConnectedVerdict(lines).Err? ==> r == Err(ConnectedVerdict(lines).error)
    ensures ConnectedVerdict(lines) == Ok(false) ==> r == Ok(None)
    ensures ConnectedVerdict(lines) == Ok(true) && !LinesWithin(buses, lines) ==> r == Err(AssertionError)
    ensures ConnectedVerdict(lines) == Ok(true) && LinesWithin(buses, lines) ==>
      r.Ok? && r.value.Some? && fresh(r.value.value) &&
      r.value.value.Length0 == |buses| && r.value.value.Length1 == |buses| &&
      forall i, j :: 0 <= i < |buses| && 0 <= j < |buses| ==> r.value.value[i, j] == PinnedEntry(buses, lines, i, j)
  {
    var connected := CheckGridNetworkConnected(lines);
    if connected.Err? {
      return Err(connected.error);
    }
    if !connected.value {
      return Ok(None);
    }
    if CheckBusGridLines(buses, lines).Fail? {
      return Err(AssertionError);
    }
    VerdictNeedsLines(lines);
    assert lines[0] in lines;
    var adm := CalculateAdmittanceMatrix(buses, lines);
    var m := adm.value;
    PinFirstBus(m);
    return Ok(Some(m));
  }
}
