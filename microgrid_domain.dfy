/**
 * `MicrogridModelData` (src/microgrid/model/domain.py): the frozen record
 * the microgrid is built from, its bus list, its validity check and the
 * unit-to-bus incidence matrix; and the bus aggregation that matrix performs.
 */
module MicrogridDomain {
  import opened Wrappers
  import opened SeqUtil
  import opened Component
  import opened LoadDemandUnit
  import opened GridNetworkModel
  import opened Generators

  function GeneratorNames(gens: seq<GeneratorRef>): (r: seq<string>)
    ensures |r| == |gens| && forall i :: 0 <= i < |gens| ==> r[i] == gens[i].Name()
  {
    seq(|gens|, i requires 0 <= i < |gens| => gens[i].Name())
  }

  function LoadNames(loads: seq<LoadDemand>): (r: seq<string>)
    ensures |r| == |loads| && forall i :: 0 <= i < |loads| ==> r[i] == loads[i].name
  {
    seq(|loads|, i requires 0 <= i < |loads| => loads[i].name)
  }

  datatype MicrogridModelData = MicrogridModelData(
    name: string, generators: seq<GeneratorRef>, loads: seq<LoadDemand>, grid: GridNetwork,
    generatorBusIds: seq<BusId>, loadBusIds: seq<BusId>)
  {
    /** The bus of every unit, generators first. */
    function UnitBusIds(): seq<BusId>
    {
      generatorBusIds + loadBusIds
    }

    /** `model_bus_ids`: the unit buses without repeats, in first-appearance order. */
    function ModelBusIds(): seq<BusId>
    {
      Dedup(UnitBusIds())
    }

    /**
     * `valid_data`: names unique among generators and among loads, one bus
     * id per unit, as many grid buses as model buses and each of them a
     * model bus, and a grid that reports itself valid.
     */
    predicate ValidData()
    {
      NoDuplicates(GeneratorNames(generators)) && NoDuplicates(LoadNames(loads)) &&
      |generators| == |generatorBusIds| && |loads| == |loadBusIds| &&
      |grid.buses| == |ModelBusIds()| && (forall b :: b in grid.buses ==> b in ModelBusIds()) &&
      grid.ValidateGridModel()
    }
  }

  /** The `model_bus_ids` loop. */
  method ComputeModelBusIds(data: MicrogridModelData) returns (unique: seq<BusId>)
    ensures unique == data.ModelBusIds()
    ensures NoDuplicates(unique) && forall b :: b in unique <==> b in data.UnitBusIds()
  {
    var all := data.UnitBusIds();
    unique := [];
    for i := 0 to |all|
      invariant unique == Dedup(all[..i])
    {
      assert all[..i + 1][..i] == all[..i];
      if all[i] !in unique {
        unique := unique + [all[i]];
      }
    }
    assert all[..|all|] == all;
    DedupSpec(all);
  }

  /**
   * With unique names no generator object and no load object is listed
   * twice (a repeated object would repeat its name).
   */
  lemma UniqueNamesDistinctObjects(data: MicrogridModelData)
    requires data.ValidData()
    ensures forall i, j :: 0 <= i < j < |data.generators| ==> data.generators[i].Obj() != data.generators[j].Obj()
    ensures forall i, j :: 0 <= i < j < |data.loads| ==> data.loads[i] != data.loads[j]
  {
    var names := GeneratorNames(data.generators);
    forall i, j | 0 <= i < j < |data.generators|
      ensures data.generators[i].Obj() != data.generators[j].Obj()
    {
      assert names[i] != names[j];
    }
    var loadNames := LoadNames(data.loads);
    forall i, j | 0 <= i < j < |data.loads|
      ensures data.loads[i] != data.loads[j]
    {
      assert loadNames[i] != loadNames[j];
    }
  }

  // ------------------------------------------------------------ bus sets

  lemma {:induction false} NoDuplicatesCard<T>(s: seq<T>)
    requires NoDuplicates(s)
    ensures |set x | x in s| == |s|
  {
    if |s| > 0 {
      var pre := s[..|s| - 1];
      NoDuplicatesCard(pre);
      assert (set x | x in s) == (set x | x in pre) + {s[|s| - 1]};
      assert s[|s| - 1] !in (set x | x in pre);
    }
  }

  lemma SubsetCard<T>(a: set<T>, b: set<T>)
    requires a <= b
    ensures |a| <= |b|
  {
    assert b == a + (b - a);
  }

  /** Two duplicate-free lists of equal length, one inside the other, list the same elements. */
  lemma SameMembers<T>(a: seq<T>, b: seq<T>)
    requires NoDuplicates(a) && NoDuplicates(b) && |a| == |b|
    requires forall x :: x in a ==> x in b
    ensures forall x :: x in b ==> x in a
  {
    var sa := set x | x in a;
    var sb := set x | x in b;
    NoDuplicatesCard(a);
    NoDuplicatesCard(b);
    if exists x :: x in b && x !in a {
      var x :| x in b && x !in a;
      SubsetCard(sa, sb - {x});
      assert false;
    }
  }

  // ------------------------------------------------------------ unit-to-bus incidence

  /** Entry `[i, j]` of `unit_bus_matrix`: 1 where column `j` is unit `i`'s bus. */
  function UnitBusEntry(unitBus: seq<BusId>, modelBus: seq<BusId>, i: nat, j: nat): real
    requires i < |unitBus|
  {
    if IndexOf(modelBus, unitBus[i]) == Ok(j) then 1.0 else 0.0
  }

  /**
   * `unit_bus_matrix`: a zero (G+L)×B matrix, then a 1 in each generator's
   * row and, offset by G, each load's row, at the index of its bus.
   */
  method UnitBusMatrix(data: MicrogridModelData) returns (m: array2<real>)
    ensures fresh(m) && m.Length0 == |data.UnitBusIds()| && m.Length1 == |data.ModelBusIds()|
    ensures forall i, j :: 0 <= i < m.Length0 && 0 <= j < m.Length1 ==>
              m[i, j] == UnitBusEntry(data.UnitBusIds(), data.ModelBusIds(), i, j)
  {
    var unitBus := data.UnitBusIds();
    var modelBus := data.ModelBusIds();
    DedupSpec(unitBus);
    var g := |data.generatorBusIds|;
    m := new real[|unitBus|, |modelBus|]((_, _) => 0.0);
    for count := 0 to |unitBus|
      invariant forall i, j :: 0 <= i < m.Length0 && 0 <= j < m.Length1 ==>
                  m[i, j] == if i < count then UnitBusEntry(unitBus, modelBus, i, j) else 0.0
    {
      // generators fill rows 0 .. G-1, loads rows G .. G+L-1 (`count + num_generators`)
      var busId := if count < g then data.generatorBusIds[count] else data.loadBusIds[count - g];
      assert busId == unitBus[count];
      assert unitBus[count] in unitBus;
      var busIndex := IndexOf(modelBus, busId).value;
      m[count, busIndex] := 1.0;
    }
  }

  /** Every row of the incidence matrix holds one 1, in the column of the unit's bus, so it sums to 1. */
  lemma UnitBusRow(unitBus: seq<BusId>, modelBus: seq<BusId>, i: nat)
    requires i < |unitBus| && NoDuplicates(modelBus) && unitBus[i] in modelBus
    ensures forall j :: 0 <= j < |modelBus| ==> (UnitBusEntry(unitBus, modelBus, i, j) == 1.0 <==> modelBus[j] == unitBus[i])
    ensures Sum(seq(|modelBus|, j requires 0 <= j < |modelBus| => UnitBusEntry(unitBus, modelBus, i, j))) == 1.0
  {
    var k := IndexOf(modelBus, unitBus[i]).value;
    IndexOfUnique(modelBus, k);
    var row := seq(|modelBus|, j requires 0 <= j < |modelBus| => UnitBusEntry(unitBus, modelBus, i, j));
    var zeros := seq(|modelBus|, j requires 0 <= j < |modelBus| => 0.0);
    SumZeros(zeros);
    assert row == zeros[k := zeros[k] + 1.0];
    SumUpdate(zeros, k, 1.0);
  }

  // ------------------------------------------------------------ bus aggregation

  /** The total power of the units attached to bus `b`. */
  function UnitSumAt(unitBus: seq<BusId>, p: seq<real>, b: BusId): real
    requires |unitBus| == |p|
  {
    if |p| == 0 then 0.0
    else UnitSumAt(unitBus[..|p| - 1], p[..|p| - 1], b) + (if unitBus[|p| - 1] == b then p[|p| - 1] else 0.0)
  }

  /** Over the first `k` units, unit `k - 1` adds its power exactly when it sits at `b`. */
  lemma UnitSumAtStep(unitBus: seq<BusId>, p: seq<real>, b: BusId, k: nat)
    requires |unitBus| == |p| && 0 < k <= |p|
    ensures UnitSumAt(unitBus[..k], p[..k], b) ==
      UnitSumAt(unitBus[..k - 1], p[..k - 1], b) + (if unitBus[k - 1] == b then p[k - 1] else 0.0)
  {
    assert unitBus[..k][..k - 1] == unitBus[..k - 1];
    assert p[..k][..k - 1] == p[..k - 1];
  }

  /** The power at each bus of `buses`: the sum over the units attached to it. */
  function BusPowers(unitBus: seq<BusId>, buses: seq<BusId>, p: seq<real>): (r: seq<real>)
    requires |unitBus| == |p|
    ensures |r| == |buses| && forall j :: 0 <= j < |buses| ==> r[j] == UnitSumAt(unitBus, p, buses[j])
  {
    seq(|buses|, j requires 0 <= j < |buses| => UnitSumAt(unitBus, p, buses[j]))
  }

  /**
   * Aggregation conserves power: when every unit's bus is listed exactly
   * once, the bus powers add up to the unit powers.
   */
  lemma {:induction false} BusPowersSum(unitBus: seq<BusId>, buses: seq<BusId>, p: seq<real>)
    requires |unitBus| == |p| && NoDuplicates(buses)
    requires forall i :: 0 <= i < |unitBus| ==> unitBus[i] in buses
    ensures Sum(BusPowers(unitBus, buses, p)) == Sum(p)
  {
    if |p| == 0 {
      SumZeros(BusPowers(unitBus, buses, p));
    } else {
      var n := |p| - 1;
      var ub := unitBus[..n];
      var ps := p[..n];
      BusPowersSum(ub, buses, ps);
      var before := BusPowers(ub, buses, ps);
      var k := IndexOf(buses, unitBus[n]).value;
      IndexOfUnique(buses, k);
      assert BusPowers(unitBus, buses, p) == before[k := before[k] + p[n]];
      SumUpdate(before, k, p[n]);
    }
  }
}
