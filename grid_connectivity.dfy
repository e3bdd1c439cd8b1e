/**
 * The incremental bus-set partition that decides whether a list of grid
 * lines forms one connected network (`check_grid_network_connected` and
 * `_update_bus_set`, written twice in the code base with the same body:
 * src/common/model/grid_network_util.py and
 * src/data_loader/component/grid_model.py).
 *
 * The merge step pops the `from` set before indexing the `to` set with an
 * index computed before the pop. When the popped index is below the target
 * index the wrong set receives the merge, or the index runs off the end. This
 * is modelled as written; the correctness theorem below holds on runs where
 * that does not happen, and two concrete runs show what happens otherwise.
 */
module GridConnectivity {
  import opened Wrappers
  import opened SeqUtil
  import opened Component

  /** The `list_set_buses` list of lists. */
  type BusSets = seq<seq<BusId>>

  /** `[True if bus in s else False for s in list_set_buses]`. */
  function Flags(S: BusSets, x: BusId): (r: seq<bool>)
    ensures |r| == |S| && forall k :: 0 <= k < |S| ==> r[k] == (x in S[k])
  {
    seq(|S|, k requires 0 <= k < |S| => x in S[k])
  }

  /** `sum` of a list of booleans: the number of `True`s. */
  function CountTrue(b: seq<bool>): nat
  {
    if |b| == 0 then 0 else CountTrue(b[..|b| - 1]) + (if b[|b| - 1] then 1 else 0)
  }

  /** `_update_bus_set(line, list_set_buses)` as written, including the stale merge index. */
  function UpdateBusSet(l: GridLine, S: BusSets): Result<BusSets>
  {
    if |S| == 0 then Ok([[l.toBus, l.fromBus]])
    else
      var toFlags := Flags(S, l.toBus);
      var fromFlags := Flags(S, l.fromBus);
      var nt := CountTrue(toFlags);
      var nf := CountTrue(fromFlags);
      if nt == 0 && nf == 0 then Ok(S + [[l.toBus, l.fromBus]])
      else if nt == 1 && nf == 0 then
        match IndexOf(toFlags, true)
        case Err(e) => Err(e)
        case Ok(k) => Ok(S[k := S[k] + [l.fromBus]])
      else if nt == 0 && nf == 1 then
        match IndexOf(fromFlags, true)
        case Err(e) => Err(e)
        case Ok(k) => Ok(S[k := S[k] + [l.toBus]])
      else if nt == 1 && nf == 1 then
        match IndexOf(toFlags, true)
        case Err(e) => Err(e)
        case Ok(ti) =>
          match IndexOf(fromFlags, true)
          case Err(e) => Err(e)
          case Ok(fi) =>
            if ti == fi then Ok(S)
            else
              // pop(from_index) first, then index with the pre-pop to_index
              var popped := S[..fi] + S[fi + 1..];
              if ti < |popped| then Ok(popped[ti := popped[ti] + S[fi]]) else Err(IndexError)
      else Ok(S)
  }

  /** The partition after feeding `ls` in order, starting from the empty list. */
  function PartitionOf(ls: seq<GridLine>): Result<BusSets>
  {
    if |ls| == 0 then Ok([])
    else match PartitionOf(ls[..|ls| - 1])
      case Err(e) => Err(e)
      case Ok(S) => UpdateBusSet(ls[|ls| - 1], S)
  }

  /** The verdict: connected iff exactly one set remains; an `IndexError` of the merge escapes. */
  function ConnectedVerdict(ls: seq<GridLine>): Result<bool>
  {
    match PartitionOf(ls)
    case Err(e) => Err(e)
    case Ok(S) => Ok(|S| == 1)
  }

  /** `check_grid_network_connected`: the loop over the lines. */
  method CheckGridNetworkConnected(lines: seq<GridLine>) returns (r: Result<bool>)
    ensures r == ConnectedVerdict(lines)
  {
    var busSet: BusSets := [];
    var i := 0;
    while i < |lines|
      invariant 0 <= i <= |lines|
      invariant PartitionOf(lines[..i]) == Ok(busSet)
    {
      assert lines[..i + 1][..i] == lines[..i];
      match UpdateBusSet(lines[i], busSet) {
        case Err(e) =>
          assert PartitionOf(lines[..i + 1]) == Err(e);
          ErrPersists(lines, i + 1);
          return Err(e);
        case Ok(next) =>
          busSet := next;
      }
      i := i + 1;
    }
    assert lines[..i] == lines;
    r := Ok(|busSet| == 1);
  }

  /** Once the partition fails on a prefix, it fails with the same error on the whole list. */
  lemma {:induction false} ErrPersists(ls: seq<GridLine>, i: nat)
    requires i <= |ls| && PartitionOf(ls[..i]).Err?
    ensures PartitionOf(ls) == PartitionOf(ls[..i])
    decreases |ls| - i
  {
    if i == |ls| {
      assert ls[..i] == ls;
    } else {
      assert ls[..i + 1][..i] == ls[..i];
      ErrPersists(ls, i + 1);
    }
  }

  // ------------------------------------------------------------ hazard

  /** The merge case where `from_index < to_index`: the stale index then misses its set. */
  predicate Hazard(l: GridLine, S: BusSets)
  {
    |S| > 0 &&
    CountTrue(Flags(S, l.toBus)) == 1 && CountTrue(Flags(S, l.fromBus)) == 1 &&
    IndexOf(Flags(S, l.toBus), true).Ok? && IndexOf(Flags(S, l.fromBus), true).Ok? &&
    IndexOf(Flags(S, l.fromBus), true).value < IndexOf(Flags(S, l.toBus), true).value
  }

  /** No step of the run takes the hazardous merge path. */
  predicate HazardFree(ls: seq<GridLine>)
  {
    |ls| == 0 ||
    (HazardFree(ls[..|ls| - 1]) &&
     PartitionOf(ls[..|ls| - 1]).Ok? && !Hazard(ls[|ls| - 1], PartitionOf(ls[..|ls| - 1]).value))
  }

  // ------------------------------------------------------------ reference connectivity

  function Endpoints(ls: seq<GridLine>): set<BusId>
  {
    (set l | l in ls :: l.toBus) + (set l | l in ls :: l.fromBus)
  }

  /** A line crosses `X` when exactly one of its endpoints is in `X`. */
  predicate Crosses(l: GridLine, X: set<BusId>)
  {
    (l.toBus in X) != (l.fromBus in X)
  }

  predicate CutCrossed(ls: seq<GridLine>, X: set<BusId>)
  {
    exists l :: l in ls && Crosses(l, X)
  }

  /**
   * Reference definition of a connected network: there is at least one line,
   * and no proper, non-empty subset of the buses is cut off from the rest.
   */
  predicate Connected(ls: seq<GridLine>)
  {
    |ls| > 0 &&
    forall X :: X <= Endpoints(ls) && X != {} && X != Endpoints(ls) ==> CutCrossed(ls, X)
  }

  // ------------------------------------------------------------ partition invariant

  function Elems(s: seq<BusId>): set<BusId>
  {
    set x | x in s
  }

  function Union(S: BusSets): set<BusId>
  {
    set k, x | 0 <= k < |S| && x in S[k] :: x
  }

  predicate CrossedWithin(ls: seq<GridLine>, s: set<BusId>, X: set<BusId>)
  {
    exists l :: l in ls && l.toBus in s && l.fromBus in s && Crosses(l, X)
  }

  /** Every proper, non-empty part of `s` is left by some line lying inside `s`. */
  predicate InternallyConnected(ls: seq<GridLine>, s: set<BusId>)
  {
    forall X :: X <= s && X != {} && X != s ==> CrossedWithin(ls, s, X)
  }

  predicate Disjoint(S: BusSets)
  {
    forall k1, k2, x :: 0 <= k1 < |S| && 0 <= k2 < |S| && x in S[k1] && x in S[k2] ==> k1 == k2
  }

  predicate SameSet(S: BusSets, a: BusId, b: BusId)
  {
    exists k :: 0 <= k < |S| && a in S[k] && b in S[k]
  }

  /**
   * What the partition means after processing `ls`: non-empty, pairwise
   * disjoint sets covering exactly the endpoints seen, every line inside one
   * set, and every set internally connected.
   */
  predicate NonEmptySets(S: BusSets)
  {
    forall k :: 0 <= k < |S| ==> |S[k]| > 0
  }

  predicate LinesInside(S: BusSets, ls: seq<GridLine>)
  {
    forall l :: l in ls ==> SameSet(S, l.toBus, l.fromBus)
  }

  predicate SetsConnected(S: BusSets, ls: seq<GridLine>)
  {
    forall k :: 0 <= k < |S| ==> InternallyConnected(ls, Elems(S[k]))
  }

  predicate PartInv(S: BusSets, ls: seq<GridLine>)
  {
    NonEmptySets(S) && Disjoint(S) && Union(S) == Endpoints(ls) && LinesInside(S, ls) && SetsConnected(S, ls)
  }

  // ------------------------------------------------------------ counting lemmas

  lemma {:induction false} CountTrueZero(b: seq<bool>)
    ensures CountTrue(b) == 0 <==> forall i :: 0 <= i < |b| ==> !b[i]
  {
    if |b| > 0 {
      CountTrueZero(b[..|b| - 1]);
    }
  }

  lemma {:induction false} CountTrueAtMostOne(b: seq<bool>)
    requires forall i, j :: 0 <= i < j < |b| && b[i] ==> !b[j]
    ensures CountTrue(b) <= 1
  {
    if |b| > 0 {
      CountTrueAtMostOne(b[..|b| - 1]);
      if b[|b| - 1] {
        CountTrueZero(b[..|b| - 1]);
      }
    }
  }

  /** In a disjoint partition each bus is in no set or in exactly one, found by `index(True)`. */
  lemma Locate(S: BusSets, x: BusId)
    requires Disjoint(S)
    ensures CountTrue(Flags(S, x)) <= 1
    ensures CountTrue(Flags(S, x)) == 0 <==> x !in Union(S)
    ensures CountTrue(Flags(S, x)) == 1 ==>
      IndexOf(Flags(S, x), true).Ok? && x in S[IndexOf(Flags(S, x), true).value]
  {
    var b := Flags(S, x);
    CountTrueAtMostOne(b);
    CountTrueZero(b);
    if x in Union(S) {
      var k :| 0 <= k < |S| && x in S[k];
      assert b[k];
    }
  }

  // ------------------------------------------------------------ connectivity lemmas

  lemma InternallyConnectedGrow(ls: seq<GridLine>, l: GridLine, s: set<BusId>)
    requires InternallyConnected(ls, s)
    ensures InternallyConnected(ls + [l], s)
  {
    forall X | X <= s && X != {} && X != s ensures CrossedWithin(ls + [l], s, X) {
      var m :| m in ls && m.toBus in s && m.fromBus in s && Crosses(m, X);
      assert m in ls + [l];
    }
  }

  lemma SingletonConnected(ls: seq<GridLine>, x: BusId)
    ensures InternallyConnected(ls, {x})
  {
    forall X | X <= {x} && X != {} ensures X == {x} {
      var y :| y in X;
      assert y == x;
    }
  }

  /** Joining two internally connected, disjoint sets by a line between them gives an internally connected set. */
  lemma MergeConnected(ls: seq<GridLine>, A: set<BusId>, B: set<BusId>, l: GridLine)
    requires A !! B
    requires InternallyConnected(ls, A) && InternallyConnected(ls, B)
    requires l in ls && ((l.toBus in A && l.fromBus in B) || (l.toBus in B && l.fromBus in A))
    ensures InternallyConnected(ls, A + B)
  {
    forall X | X <= A + B && X != {} && X != A + B ensures CrossedWithin(ls, A + B, X) {
      var XA, XB := X * A, X * B;
      assert X == XA + XB;
      if XA != {} && XA != A {
        assert CrossedWithin(ls, A, XA);
        var m :| m in ls && m.toBus in A && m.fromBus in A && Crosses(m, XA);
        assert Crosses(m, X);
      } else if XB != {} && XB != B {
        assert CrossedWithin(ls, B, XB);
        var m :| m in ls && m.toBus in B && m.fromBus in B && Crosses(m, XB);
        assert Crosses(m, X);
      } else {
        assert XA == {} || XA == A;
        assert XB == {} || XB == B;
        assert (XA == A && XB == {}) || (XA == {} && XB == B);
        assert Crosses(l, X);
      }
    }
  }

  // ------------------------------------------------------------ one step

  lemma EndpointsEmpty(ls: seq<GridLine>)
    ensures Endpoints(ls) == {} <==> |ls| == 0
  {
    if |ls| > 0 {
      assert ls[0].toBus in Endpoints(ls);
    }
  }

  lemma EndpointsSnoc(ls: seq<GridLine>, l: GridLine)
    ensures Endpoints(ls + [l]) == Endpoints(ls) + {l.toBus, l.fromBus}
  {
    assert forall m :: m in ls + [l] <==> m in ls || m == l;
  }

  lemma SameSetGrow(S: BusSets, S': BusSets, a: BusId, b: BusId)
    requires SameSet(S, a, b)
    requires forall k :: 0 <= k < |S| ==> exists k' :: 0 <= k' < |S'| && Elems(S[k]) <= Elems(S'[k'])
    ensures SameSet(S', a, b)
  {
    var k :| 0 <= k < |S| && a in S[k] && b in S[k];
    var k' :| 0 <= k' < |S'| && Elems(S[k]) <= Elems(S'[k']);
    assert a in Elems(S[k]) && b in Elems(S[k]);
  }

  /** First line: a single set holding both endpoints. */
  lemma StepEmpty(l: GridLine, ls: seq<GridLine>)
    requires WellFormedLine(l) && PartInv([], ls)
    ensures UpdateBusSet(l, []) == Ok([[l.toBus, l.fromBus]])
    ensures PartInv([[l.toBus, l.fromBus]], ls + [l])
  {
    StepNew(l, [], ls);
  }

  /** Neither endpoint seen: a new set `[to, from]` is appended. */
  lemma StepNew(l: GridLine, S: BusSets, ls: seq<GridLine>)
    requires WellFormedLine(l) && PartInv(S, ls)
    requires l.toBus !in Union(S) && l.fromBus !in Union(S)
    ensures PartInv(S + [[l.toBus, l.fromBus]], ls + [l])
  {
    EndpointsSnoc(ls, l);
    NewUnion(S, l.toBus, l.fromBus);
    NewDisjoint(S, l.toBus, l.fromBus);
    NewInside(l, S, ls);
    NewConnected(l, S, ls);
  }

  lemma NewUnion(S: BusSets, a: BusId, b: BusId)
    ensures Union(S + [[a, b]]) == Union(S) + {a, b}
  {
    var S' := S + [[a, b]];
    forall x | x in Union(S') ensures x in Union(S) + {a, b} {
      var k :| 0 <= k < |S'| && x in S'[k];
      if k < |S| { assert S'[k] == S[k]; }
    }
    forall x | x in Union(S) ensures x in Union(S') {
      var k :| 0 <= k < |S| && x in S[k];
      assert S'[k] == S[k];
    }
    assert a in S'[|S|] && b in S'[|S|];
  }

  lemma NewDisjoint(S: BusSets, a: BusId, b: BusId)
    requires Disjoint(S) && a !in Union(S) && b !in Union(S)
    ensures Disjoint(S + [[a, b]])
  {
    var S' := S + [[a, b]];
    forall k1, k2, x | 0 <= k1 < |S'| && 0 <= k2 < |S'| && x in S'[k1] && x in S'[k2] ensures k1 == k2 {
      if k1 < |S| { assert x in S[k1]; }
      if k2 < |S| { assert x in S[k2]; }
    }
  }

  lemma NewInside(l: GridLine, S: BusSets, ls: seq<GridLine>)
    requires LinesInside(S, ls)
    ensures LinesInside(S + [[l.toBus, l.fromBus]], ls + [l])
  {
    var S' := S + [[l.toBus, l.fromBus]];
    forall m | m in ls + [l] ensures SameSet(S', m.toBus, m.fromBus) {
      if m in ls {
        var k :| 0 <= k < |S| && m.toBus in S[k] && m.fromBus in S[k];
        assert S'[k] == S[k];
      } else {
        assert S'[|S|] == [l.toBus, l.fromBus];
      }
    }
  }

  lemma NewConnected(l: GridLine, S: BusSets, ls: seq<GridLine>)
    requires WellFormedLine(l) && SetsConnected(S, ls)
    ensures SetsConnected(S + [[l.toBus, l.fromBus]], ls + [l])
  {
    var S' := S + [[l.toBus, l.fromBus]];
    var ls' := ls + [l];
    forall k | 0 <= k < |S'| ensures InternallyConnected(ls', Elems(S'[k])) {
      if k < |S| {
        assert S'[k] == S[k];
        InternallyConnectedGrow(ls, l, Elems(S[k]));
      } else {
        SingletonConnected(ls', l.toBus);
        SingletonConnected(ls', l.fromBus);
        MergeConnected(ls', {l.toBus}, {l.fromBus}, l);
        assert Elems(S'[k]) == {l.toBus} + {l.fromBus};
      }
    }
  }

  /** Exactly one endpoint seen (`seen`, in set `k`): the other one (`added`) is appended to that set. */
  lemma StepExtend(l: GridLine, S: BusSets, ls: seq<GridLine>, k: nat, seen: BusId, added: BusId)
    requires WellFormedLine(l) && PartInv(S, ls)
    requires (seen == l.toBus && added == l.fromBus) || (seen == l.fromBus && added == l.toBus)
    requires k < |S| && seen in S[k] && added !in Union(S)
    ensures PartInv(S[k := S[k] + [added]], ls + [l])
  {
    var S' := S[k := S[k] + [added]];
    EndpointsSnoc(ls, l);
    ExtendUnion(S, k, added);
    assert seen in Union(S);
    ExtendDisjoint(S, k, added);
    ExtendInside(l, S, ls, k);
    ExtendConnected(l, S, ls, k, added);
  }

  lemma ExtendUnion(S: BusSets, k: nat, added: BusId)
    requires k < |S|
    ensures Union(S[k := S[k] + [added]]) == Union(S) + {added}
  {
    var S' := S[k := S[k] + [added]];
    forall x | x in Union(S') ensures x in Union(S) + {added} {
      var j :| 0 <= j < |S'| && x in S'[j];
      if j != k { assert S'[j] == S[j]; }
    }
    forall x | x in Union(S) ensures x in Union(S') {
      var j :| 0 <= j < |S| && x in S[j];
      assert x in S'[j];
    }
    assert added in S'[k];
  }

  lemma ExtendDisjoint(S: BusSets, k: nat, added: BusId)
    requires k < |S| && Disjoint(S) && added !in Union(S)
    ensures Disjoint(S[k := S[k] + [added]])
  {
    var S' := S[k := S[k] + [added]];
    forall k1, k2, x | 0 <= k1 < |S'| && 0 <= k2 < |S'| && x in S'[k1] && x in S'[k2] ensures k1 == k2 {
      if x == added {
        assert forall j :: 0 <= j < |S| ==> x !in S[j];
      } else {
        assert x in S[k1] && x in S[k2];
      }
    }
  }

  lemma ExtendInside(l: GridLine, S: BusSets, ls: seq<GridLine>, k: nat)
    requires k < |S| && LinesInside(S, ls)
    requires l.toBus in S[k] || l.fromBus in S[k]
    ensures var added := if l.toBus in S[k] then l.fromBus else l.toBus;
      LinesInside(S[k := S[k] + [added]], ls + [l])
  {
    var added := if l.toBus in S[k] then l.fromBus else l.toBus;
    var S' := S[k := S[k] + [added]];
    forall m | m in ls + [l] ensures SameSet(S', m.toBus, m.fromBus) {
      if m in ls {
        var j :| 0 <= j < |S| && m.toBus in S[j] && m.fromBus in S[j];
        assert m.toBus in S'[j] && m.fromBus in S'[j];
      } else {
        assert m == l;
        assert l.toBus in S'[k] && l.fromBus in S'[k];
      }
    }
  }

  lemma ExtendConnected(l: GridLine, S: BusSets, ls: seq<GridLine>, k: nat, added: BusId)
    requires k < |S| && SetsConnected(S, ls)
    requires (l.toBus in S[k] && added == l.fromBus) || (l.fromBus in S[k] && added == l.toBus)
    requires added !in S[k]
    ensures SetsConnected(S[k := S[k] + [added]], ls + [l])
  {
    var S' := S[k := S[k] + [added]];
    var ls' := ls + [l];
    forall j | 0 <= j < |S'| ensures InternallyConnected(ls', Elems(S'[j])) {
      InternallyConnectedGrow(ls, l, Elems(S[j]));
      if j == k {
        SingletonConnected(ls', added);
        MergeConnected(ls', Elems(S[k]), {added}, l);
        assert Elems(S'[k]) == Elems(S[k]) + {added};
      } else {
        assert S'[j] == S[j];
      }
    }
  }

  /** Both endpoints already in one set: nothing changes. */
  lemma StepSame(l: GridLine, S: BusSets, ls: seq<GridLine>, k: nat)
    requires PartInv(S, ls)
    requires k < |S| && l.toBus in S[k] && l.fromBus in S[k]
    ensures PartInv(S, ls + [l])
  {
    var ls' := ls + [l];
    EndpointsSnoc(ls, l);
    assert l.toBus in Union(S) && l.fromBus in Union(S);
    forall m | m in ls' ensures SameSet(S, m.toBus, m.fromBus) {
      if m !in ls {
        assert m == l;
      }
    }
    forall j | 0 <= j < |S| ensures InternallyConnected(ls', Elems(S[j])) {
      InternallyConnectedGrow(ls, l, Elems(S[j]));
    }
  }

  /** The list after `pop(fi)` and the in-place concatenation at `ti`. */
  function Merged(S: BusSets, ti: nat, fi: nat): BusSets
    requires ti < fi < |S|
  {
    var popped := S[..fi] + S[fi + 1..];
    popped[ti := popped[ti] + S[fi]]
  }

  /** Where each set of `Merged` comes from. */
  lemma MergedShape(S: BusSets, ti: nat, fi: nat)
    requires ti < fi < |S|
    ensures |Merged(S, ti, fi)| == |S| - 1
    ensures Merged(S, ti, fi)[ti] == S[ti] + S[fi]
    ensures forall j :: 0 <= j < |S| - 1 && j != ti ==> Merged(S, ti, fi)[j] == S[if j < fi then j else j + 1]
  {
  }

  lemma MergeUnion(S: BusSets, ti: nat, fi: nat)
    requires ti < fi < |S|
    ensures Union(Merged(S, ti, fi)) == Union(S)
  {
    var S' := Merged(S, ti, fi);
    MergedShape(S, ti, fi);
    forall x | x in Union(S') ensures x in Union(S) {
      var j :| 0 <= j < |S'| && x in S'[j];
      if j == ti {
        if x in S[ti] { assert x in Union(S); } else { assert x in S[fi]; }
      } else {
        var o := if j < fi then j else j + 1;
        assert x in S[o];
      }
    }
    forall x | x in Union(S) ensures x in Union(S') {
      var j :| 0 <= j < |S| && x in S[j];
      if j == ti || j == fi {
        assert x in S'[ti];
      } else if j < fi {
        assert x in S'[j];
      } else {
        assert S'[j - 1] == S[j];
        assert x in S'[j - 1];
      }
    }
  }

  lemma MergeDisjoint(S: BusSets, ti: nat, fi: nat)
    requires ti < fi < |S| && Disjoint(S)
    ensures Disjoint(Merged(S, ti, fi))
  {
    var S' := Merged(S, ti, fi);
    MergedShape(S, ti, fi);
    forall k1, k2, x | 0 <= k1 < |S'| && 0 <= k2 < |S'| && x in S'[k1] && x in S'[k2] ensures k1 == k2 {
      var o1 := if k1 == ti then (if x in S[ti] then ti else fi) else if k1 < fi then k1 else k1 + 1;
      var o2 := if k2 == ti then (if x in S[ti] then ti else fi) else if k2 < fi then k2 else k2 + 1;
      assert x in S[o1] && x in S[o2];
    }
  }

  lemma MergeInside(l: GridLine, S: BusSets, ls: seq<GridLine>, ti: nat, fi: nat)
    requires ti < fi < |S| && LinesInside(S, ls)
    requires l.toBus in S[ti] && l.fromBus in S[fi]
    ensures LinesInside(Merged(S, ti, fi), ls + [l])
  {
    var S' := Merged(S, ti, fi);
    MergedShape(S, ti, fi);
    forall m | m in ls + [l] ensures SameSet(S', m.toBus, m.fromBus) {
      if m in ls {
        var j :| 0 <= j < |S| && m.toBus in S[j] && m.fromBus in S[j];
        if j == ti || j == fi {
          assert m.toBus in S'[ti] && m.fromBus in S'[ti];
        } else if j < fi {
          assert m.toBus in S'[j] && m.fromBus in S'[j];
        } else {
          assert S'[j - 1] == S[j];
          assert m.toBus in S'[j - 1] && m.fromBus in S'[j - 1];
        }
      } else {
        assert m == l;
        assert l.toBus in S'[ti] && l.fromBus in S'[ti];
      }
    }
  }

  lemma MergeSetsConnected(l: GridLine, S: BusSets, ls: seq<GridLine>, ti: nat, fi: nat)
    requires ti < fi < |S| && Disjoint(S) && SetsConnected(S, ls)
    requires l.toBus in S[ti] && l.fromBus in S[fi]
    ensures SetsConnected(Merged(S, ti, fi), ls + [l])
  {
    var S' := Merged(S, ti, fi);
    var ls' := ls + [l];
    MergedShape(S, ti, fi);
    forall j | 0 <= j < |S'| ensures InternallyConnected(ls', Elems(S'[j])) {
      if j == ti {
        InternallyConnectedGrow(ls, l, Elems(S[ti]));
        InternallyConnectedGrow(ls, l, Elems(S[fi]));
        assert Elems(S[ti]) !! Elems(S[fi]);
        MergeConnected(ls', Elems(S[ti]), Elems(S[fi]), l);
        assert Elems(S'[ti]) == Elems(S[ti]) + Elems(S[fi]);
      } else {
        var o := if j < fi then j else j + 1;
        InternallyConnectedGrow(ls, l, Elems(S[o]));
      }
    }
  }

  /** Endpoints in different sets with the target below the popped index: the two sets are merged. */
  lemma StepMerge(l: GridLine, S: BusSets, ls: seq<GridLine>, ti: nat, fi: nat)
    requires PartInv(S, ls)
    requires ti < fi < |S| && l.toBus in S[ti] && l.fromBus in S[fi]
    ensures PartInv(Merged(S, ti, fi), ls + [l])
  {
    EndpointsSnoc(ls, l);
    assert l.toBus in Union(S) && l.fromBus in Union(S);
    MergedShape(S, ti, fi);
    MergeUnion(S, ti, fi);
    MergeDisjoint(S, ti, fi);
    MergeInside(l, S, ls, ti, fi);
    MergeSetsConnected(l, S, ls, ti, fi);
  }

  /** One call of `_update_bus_set` off the hazard path keeps the invariant. */
  lemma Step(l: GridLine, S: BusSets, ls: seq<GridLine>)
    requires WellFormedLine(l) && PartInv(S, ls) && !Hazard(l, S)
    ensures UpdateBusSet(l, S).Ok?
    ensures PartInv(UpdateBusSet(l, S).value, ls + [l])
  {
    if |S| == 0 {
      StepEmpty(l, ls);
    } else {
      Locate(S, l.toBus);
      Locate(S, l.fromBus);
      var nt := CountTrue(Flags(S, l.toBus));
      var nf := CountTrue(Flags(S, l.fromBus));
      if nt == 0 && nf == 0 {
        StepNew(l, S, ls);
      } else if nt == 1 && nf == 0 {
        var k := IndexOf(Flags(S, l.toBus), true).value;
        StepExtend(l, S, ls, k, l.toBus, l.fromBus);
      } else if nt == 0 && nf == 1 {
        var k := IndexOf(Flags(S, l.fromBus), true).value;
        StepExtend(l, S, ls, k, l.fromBus, l.toBus);
      } else {
        var ti := IndexOf(Flags(S, l.toBus), true).value;
        var fi := IndexOf(Flags(S, l.fromBus), true).value;
        if ti == fi {
          StepSame(l, S, ls, ti);
        } else {
          StepMerge(l, S, ls, ti, fi);
        }
      }
    }
  }

  /** On a hazard-free run of constructed lines, the partition exists and satisfies the invariant. */
  lemma {:induction false} PartitionInvariant(ls: seq<GridLine>)
    requires forall l :: l in ls ==> WellFormedLine(l)
    requires HazardFree(ls)
    ensures PartitionOf(ls).Ok? && PartInv(PartitionOf(ls).value, ls)
  {
    if |ls| == 0 {
      assert Endpoints(ls) == {};
    } else {
      var pre := ls[..|ls| - 1];
      assert forall l :: l in pre ==> l in ls;
      PartitionInvariant(pre);
      Step(ls[|ls| - 1], PartitionOf(pre).value, pre);
      assert pre + [ls[|ls| - 1]] == ls;
    }
  }

  /** What the final partition says: one set iff the network is connected. */
  lemma OneSetIffConnected(S: BusSets, ls: seq<GridLine>)
    requires PartInv(S, ls)
    ensures |S| == 1 <==> Connected(ls)
  {
    if |S| == 1 {
      assert Elems(S[0]) == Union(S);
      assert S[0][0] in Union(S);
      assert ls != [];
    } else if |S| == 0 {
      EndpointsEmpty(ls);
    } else {
      var X := Elems(S[0]);
      var y := S[1][0];
      assert y !in X;
      assert y in S[1] && y in Union(S);
      assert S[0][0] in S[0] && S[0][0] in Union(S);
      assert X <= Union(S);
      forall m | m in ls ensures !Crosses(m, X) {
        var k :| 0 <= k < |S| && m.toBus in S[k] && m.fromBus in S[k];
      }
      assert !CutCrossed(ls, X);
    }
  }

  /**
   * Correctness of `check_grid_network_connected` off the hazard path: it
   * answers, without raising, exactly whether the lines form a connected
   * network; in particular an empty line list gives false.
   */
  lemma ConnectedVerdictCorrect(ls: seq<GridLine>)
    requires forall l :: l in ls ==> WellFormedLine(l)
    requires HazardFree(ls)
    ensures ConnectedVerdict(ls) == Ok(Connected(ls))
  {
    PartitionInvariant(ls);
    OneSetIffConnected(PartitionOf(ls).value, ls);
  }

  lemma NoLinesNotConnected()
    ensures ConnectedVerdict([]) == Ok(false)
  {
  }

  // ------------------------------------------------------------ concrete runs

  function L(from: BusId, to: BusId): GridLine
  {
    GridLine(from, to, 20.0, None)
  }

  lemma FlagsOf(S: BusSets, x: BusId, b: seq<bool>)
    requires |b| == |S| && forall k :: 0 <= k < |S| ==> b[k] == (x in S[k])
    ensures Flags(S, x) == b
  {
  }

  lemma SmallCounts()
    ensures CountTrue([false]) == 0 && CountTrue([true]) == 1
    ensures CountTrue([false, false]) == 0 && CountTrue([true, false]) == 1 && CountTrue([false, true]) == 1
    ensures CountTrue([false, true, false]) == 1 && CountTrue([true, false, false]) == 1
  {
    assert [false, true, false][..2] == [false, true];
    assert [true, false, false][..2] == [true, false];
    assert [false, true][..1] == [false];
    assert [true, false][..1] == [true];
    assert [false, false][..1] == [false];
    assert [false][..0] == [] && [true][..0] == [];
  }

  /** The partition of a three-element list, one step at a time. */
  lemma PartitionOf3(ls: seq<GridLine>, S1: BusSets, S2: BusSets)
    requires |ls| == 3
    requires UpdateBusSet(ls[0], []) == Ok(S1)
    requires UpdateBusSet(ls[1], S1) == Ok(S2)
    ensures PartitionOf(ls) == UpdateBusSet(ls[2], S2)
  {
    assert ls[..1] == [ls[0]] && ls[..1][..0] == [];
    assert PartitionOf(ls[..1]) == Ok(S1);
    assert ls[..2][..1] == ls[..1];
    assert PartitionOf(ls[..2]) == Ok(S2);
    assert ls[..3][..2] == ls[..2];
    assert ls[..3] == ls;
  }

  /** Lines 0-1, 1-2, 3-4: two sets remain, so the verdict is false. */
  lemma DisconnectedExample()
    ensures ConnectedVerdict([L("bus_0", "bus_1"), L("bus_1", "bus_2"), L("bus_3", "bus_4")]) == Ok(false)
  {
    SmallCounts();
    var S1 := [["bus_1", "bus_0"]];
    FlagsOf(S1, "bus_2", [false]);
    FlagsOf(S1, "bus_1", [true]);
    var S2 := [["bus_1", "bus_0", "bus_2"]];
    assert S1[0] + ["bus_2"] == S2[0];
    assert S1[0 := S2[0]] == S2;
    FlagsOf(S2, "bus_4", [false]);
    FlagsOf(S2, "bus_3", [false]);
    PartitionOf3([L("bus_0", "bus_1"), L("bus_1", "bus_2"), L("bus_3", "bus_4")], S1, S2);
  }

  /** Lines 0-1, 1-2 and then 3-1: one set, so the verdict is true. */
  lemma ConnectedExample()
    ensures ConnectedVerdict([L("bus_0", "bus_1"), L("bus_1", "bus_2"), L("bus_3", "bus_1")]) == Ok(true)
  {
    SmallCounts();
    var S1 := [["bus_1", "bus_0"]];
    FlagsOf(S1, "bus_2", [false]);
    FlagsOf(S1, "bus_1", [true]);
    var S2 := [["bus_1", "bus_0", "bus_2"]];
    assert S1[0] + ["bus_2"] == S2[0];
    assert S1[0 := S2[0]] == S2;
    FlagsOf(S2, "bus_1", [true]);
    FlagsOf(S2, "bus_3", [false]);
    PartitionOf3([L("bus_0", "bus_1"), L("bus_1", "bus_2"), L("bus_3", "bus_1")], S1, S2);
  }

  /** The stale merge index can run past the end of the popped list. */
  lemma StaleMergeIndexError()
    ensures ConnectedVerdict([L("b", "a"), L("d", "c"), L("a", "c")]) == Err(IndexError)
  {
    SmallCounts();
    var S1 := [["a", "b"]];
    FlagsOf(S1, "c", [false]);
    FlagsOf(S1, "d", [false]);
    var S2 := [["a", "b"], ["c", "d"]];
    assert S1 + [["c", "d"]] == S2;
    FlagsOf(S2, "c", [false, true]);
    FlagsOf(S2, "a", [true, false]);
    PartitionOf3([L("b", "a"), L("d", "c"), L("a", "c")], S1, S2);
  }

  function WrongVerdictLines(): seq<GridLine>
  {
    [L("b", "a"), L("d", "c"), L("f", "e"), L("a", "c"), L("b", "c")]
  }

  lemma WrongVerdictPrefix()
    ensures PartitionOf(WrongVerdictLines()[..3]) == Ok([["a", "b"], ["c", "d"], ["e", "f"]])
  {
    SmallCounts();
    var ls := WrongVerdictLines()[..3];
    assert ls == [L("b", "a"), L("d", "c"), L("f", "e")];
    var S1 := [["a", "b"]];
    FlagsOf(S1, "c", [false]);
    FlagsOf(S1, "d", [false]);
    var S2 := [["a", "b"], ["c", "d"]];
    assert S1 + [["c", "d"]] == S2;
    FlagsOf(S2, "e", [false, false]);
    FlagsOf(S2, "f", [false, false]);
    assert S2 + [["e", "f"]] == [["a", "b"], ["c", "d"], ["e", "f"]];
    PartitionOf3(ls, S1, S2);
  }

  /** Line a→c: `to` is in set 1, `from` in set 0; popping set 0 first sends {a,b} to {e,f}. */
  lemma WrongVerdictMerge()
    ensures UpdateBusSet(L("a", "c"), [["a", "b"], ["c", "d"], ["e", "f"]])
         == Ok([["c", "d"], ["e", "f", "a", "b"]])
  {
    SmallCounts();
    var S3 := [["a", "b"], ["c", "d"], ["e", "f"]];
    FlagsOf(S3, "c", [false, true, false]);
    FlagsOf(S3, "a", [true, false, false]);
    assert S3[..0] + S3[1..] == [["c", "d"], ["e", "f"]];
    assert ["e", "f"] + ["a", "b"] == ["e", "f", "a", "b"];
    assert [["c", "d"], ["e", "f"]][1 := ["e", "f", "a", "b"]] == [["c", "d"], ["e", "f", "a", "b"]];
  }

  lemma WrongVerdictLast()
    ensures UpdateBusSet(L("b", "c"), [["c", "d"], ["e", "f", "a", "b"]])
         == Ok([["c", "d", "e", "f", "a", "b"]])
  {
    SmallCounts();
    var S4 := [["c", "d"], ["e", "f", "a", "b"]];
    FlagsOf(S4, "c", [true, false]);
    FlagsOf(S4, "b", [false, true]);
    assert S4[..1] + S4[2..] == [["c", "d"]];
    assert ["c", "d"] + S4[1] == ["c", "d", "e", "f", "a", "b"];
    assert [["c", "d"]][0 := ["c", "d", "e", "f", "a", "b"]] == [["c", "d", "e", "f", "a", "b"]];
  }

  /**
   * The stale merge index gives a wrong verdict: after sets {a,b}, {c,d},
   * {e,f}, the line a→c merges {a,b} into {e,f} instead of {c,d}; the line
   * b→c then joins everything, although {e,f} touches no other bus.
   */
  lemma StaleMergeWrongVerdict()
    ensures ConnectedVerdict(WrongVerdictLines()) == Ok(true)
    ensures !Connected(WrongVerdictLines())
  {
    WrongVerdictIsTrue();
    WrongVerdictNotConnected();
  }

  lemma WrongVerdictIsTrue()
    ensures ConnectedVerdict(WrongVerdictLines()) == Ok(true)
  {
    var ls := WrongVerdictLines();
    var ls4 := ls[..4];
    WrongVerdictPrefix();
    WrongVerdictMerge();
    WrongVerdictLast();
    assert ls4[..3] == ls[..3] && ls4[3] == L("a", "c");
    PartitionSnoc(ls4, [["a", "b"], ["c", "d"], ["e", "f"]]);
    assert ls[..4] == ls4 && ls[4] == L("b", "c");
    PartitionSnoc(ls, [["c", "d"], ["e", "f", "a", "b"]]);
  }

  /** The partition of a non-empty list is one update away from that of its prefix. */
  lemma PartitionSnoc(ls: seq<GridLine>, S: BusSets)
    requires |ls| > 0 && PartitionOf(ls[..|ls| - 1]) == Ok(S)
    ensures PartitionOf(ls) == UpdateBusSet(ls[|ls| - 1], S)
  {
  }

  /** {e, f} is cut off from a, b, c and d: no line has exactly one end in it. */
  lemma WrongVerdictNotConnected()
    ensures !Connected(WrongVerdictLines())
  {
    var ls := WrongVerdictLines();
    var X := {"e", "f"};
    assert forall m :: m in ls ==> !Crosses(m, X);
    assert "a" in Endpoints(ls) && "a" !in X;
    assert X <= Endpoints(ls);
    assert !CutCrossed(ls, X);
  }
}
