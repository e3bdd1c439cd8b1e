/**
 * `MicrogridModelDataLoader` (src/data_loader/microgrid_model.py): the
 * builder that registers loads and generators one at a time, rejects a
 * unit name already used by any unit, keeps parallel lists (units, their
 * bus ids, their configuration references) and one index list per
 * generator kind, and finally assembles a `MicrogridModelData`.
 *
 * A unit configuration is represented by the unit its `create_unit()`
 * builds (the factory belongs to the configuration layer); the
 * configuration's name is that unit's name.
 */
module MicrogridLoader {
  import opened Wrappers
  import opened SeqUtil
  import opened Component
  import opened LoadDemandUnit
  import opened GridNetworkModel
  import opened GridFormingUnit
  import opened RenewableUnit
  import opened Generators
  import opened MicrogridDomain

  /** A configuration reference (`Reference`), kept only to be handed back by the getters. */
  type Reference = string

  datatype GeneratorKind = ThermalKind | StorageKind | RenewableKind

  function KindOf(g: GeneratorRef): GeneratorKind
  {
    match g
    case ThermalRef(_) => ThermalKind
    case StorageRef(_) => StorageKind
    case RenewableRef(_) => RenewableKind
  }

  /** The positions of the generators of kind `k`, in increasing order. */
  function Positions(gens: seq<GeneratorRef>, k: GeneratorKind): (r: seq<nat>)
  {
    if |gens| == 0 then []
    else
      var rest := Positions(gens[..|gens| - 1], k);
      if KindOf(gens[|gens| - 1]) == k then rest + [|gens| - 1] else rest
  }

  /** The generators of kind `k`, in registration order. */
  function OfKind(gens: seq<GeneratorRef>, k: GeneratorKind): seq<GeneratorRef>
  {
    if |gens| == 0 then []
    else
      var rest := OfKind(gens[..|gens| - 1], k);
      if KindOf(gens[|gens| - 1]) == k then rest + [gens[|gens| - 1]] else rest
  }

  /** The list comprehension `[xs[i] for i in idx]`. */
  function Pick<T>(xs: seq<T>, idx: seq<nat>): (r: seq<T>)
    requires forall k :: 0 <= k < |idx| ==> idx[k] < |xs|
    ensures |r| == |idx| && forall k :: 0 <= k < |idx| ==> r[k] == xs[idx[k]]
  {
    seq(|idx|, k requires 0 <= k < |idx| => xs[idx[k]])
  }

  lemma {:induction false} PositionsBelow(gens: seq<GeneratorRef>, k: GeneratorKind)
    ensures forall j :: 0 <= j < |Positions(gens, k)| ==> Positions(gens, k)[j] < |gens|
  {
    if |gens| > 0 {
      PositionsBelow(gens[..|gens| - 1], k);
    }
  }

  /** Picking the generators at the kind's positions lists exactly the generators of that kind. */
  lemma {:induction false} PickPositions(gens: seq<GeneratorRef>, k: GeneratorKind)
    ensures forall j :: 0 <= j < |Positions(gens, k)| ==> Positions(gens, k)[j] < |gens|
    ensures Pick(gens, Positions(gens, k)) == OfKind(gens, k)
  {
    PositionsBelow(gens, k);
    if |gens| > 0 {
      var init := gens[..|gens| - 1];
      PickPositions(init, k);
      var p := Positions(init, k);
      assert forall j :: 0 <= j < |p| ==> Pick(gens, p)[j] == Pick(init, p)[j];
    }
  }

  /** Registering one more generator extends its own kind's positions by the old count, and no other. */
  lemma PositionsAppend(gens: seq<GeneratorRef>, g: GeneratorRef, k: GeneratorKind)
    ensures Positions(gens + [g], k) == if KindOf(g) == k then Positions(gens, k) + [|gens|] else Positions(gens, k)
  {
    assert (gens + [g])[..|gens|] == gens;
  }

  /** Every registered generator index lies in exactly the index list of its own kind. */
  lemma {:induction false} PositionsPartition(gens: seq<GeneratorRef>, i: nat, k: GeneratorKind)
    requires i < |gens|
    ensures i in Positions(gens, k) <==> KindOf(gens[i]) == k
  {
    PositionsBelow(gens[..|gens| - 1], k);
    if i < |gens| - 1 {
      PositionsPartition(gens[..|gens| - 1], i, k);
    }
  }

  /** The names recorded in `_unit_bus_mapper`. */
  function MapperNames(mapper: seq<(string, BusId)>): (r: seq<string>)
    ensures |r| == |mapper| && forall i :: 0 <= i < |mapper| ==> r[i] == mapper[i].0
  {
    seq(|mapper|, i requires 0 <= i < |mapper| => mapper[i].0)
  }

  /**
   * Unit names unique across generators and loads together, and the
   * names in the unit/bus mapper exactly those names.
   */
  predicate Registry(gens: seq<GeneratorRef>, loads: seq<LoadDemand>, mapper: seq<(string, BusId)>)
  {
    |mapper| == |gens| + |loads| &&
    NoDuplicates(GeneratorNames(gens) + LoadNames(loads)) &&
    multiset(MapperNames(mapper)) == multiset(GeneratorNames(gens) + LoadNames(loads))
  }

  /** Each kind's index list holds exactly the positions of that kind. */
  predicate IndexLists(gens: seq<GeneratorRef>, thermal: seq<nat>, storage: seq<nat>, renewable: seq<nat>)
  {
    thermal == Positions(gens, ThermalKind) && storage == Positions(gens, StorageKind) &&
    renewable == Positions(gens, RenewableKind)
  }

  lemma IndexListsAppend(gens: seq<GeneratorRef>, thermal: seq<nat>, storage: seq<nat>, renewable: seq<nat>, g: GeneratorRef)
    requires IndexLists(gens, thermal, storage, renewable)
    ensures IndexLists(gens + [g],
      if KindOf(g) == ThermalKind then thermal + [|gens|] else thermal,
      if KindOf(g) == StorageKind then storage + [|gens|] else storage,
      if KindOf(g) == RenewableKind then renewable + [|gens|] else renewable)
  {
    PositionsAppend(gens, g, ThermalKind);
    PositionsAppend(gens, g, StorageKind);
    PositionsAppend(gens, g, RenewableKind);
  }

  /** Registering a load under an unused name keeps the registry. */
  lemma RegistryAddLoad(gens: seq<GeneratorRef>, loads: seq<LoadDemand>, mapper: seq<(string, BusId)>, l: LoadDemand, bus: BusId)
    requires Registry(gens, loads, mapper) && l.name !in MapperNames(mapper)
    ensures Registry(gens, loads + [l], mapper + [(l.name, bus)])
  {
    assert l.name !in multiset(MapperNames(mapper));
    assert LoadNames(loads + [l]) == LoadNames(loads) + [l.name];
    assert MapperNames(mapper + [(l.name, bus)]) == MapperNames(mapper) + [l.name];
    assert GeneratorNames(gens) + LoadNames(loads + [l]) == (GeneratorNames(gens) + LoadNames(loads)) + [l.name];
    NoDuplicatesInsert(GeneratorNames(gens) + LoadNames(loads), l.name, []);
  }

  /** Registering a generator under an unused name keeps the registry. */
  lemma RegistryAddGenerator(gens: seq<GeneratorRef>, loads: seq<LoadDemand>, mapper: seq<(string, BusId)>, g: GeneratorRef, bus: BusId)
    requires Registry(gens, loads, mapper) && g.Name() !in MapperNames(mapper)
    ensures Registry(gens + [g], loads, mapper + [(g.Name(), bus)])
  {
    assert g.Name() !in multiset(MapperNames(mapper));
    assert GeneratorNames(gens + [g]) == GeneratorNames(gens) + [g.Name()];
    assert MapperNames(mapper + [(g.Name(), bus)]) == MapperNames(mapper) + [g.Name()];
    NoDuplicatesInsert(GeneratorNames(gens), g.Name(), LoadNames(loads));
  }

  class MicrogridModelDataLoader {
    const name: string
    var generators: seq<GeneratorRef>
    var loads: seq<LoadDemand>
    var grid: Option<GridNetwork>
    var generatorBusIds: seq<BusId>
    var loadBusIds: seq<BusId>
    var unitBusMapper: seq<(string, BusId)>
    var thermalIndex: seq<nat>
    var storageIndex: seq<nat>
    var renewableIndex: seq<nat>
    var generatorReferences: seq<Option<Reference>>
    var loadReferences: seq<Option<Reference>>
    var gridReferences: seq<Option<Reference>>

    /**
     * The registration invariant: parallel lists of equal length, unit
     * names unique across generators and loads together and exactly the
     * names in the mapper, and each kind's
     * index list holding exactly the positions of that kind. The generator
     * reference list may be longer than the generator list, because a
     * repeated `add_grid_model` appends to it.
     */
    ghost predicate Valid()
      reads this
    {
      |generators| == |generatorBusIds| && |loads| == |loadBusIds| &&
      |loads| == |loadReferences| && |generators| <= |generatorReferences| &&
      Registry(generators, loads, unitBusMapper) &&
      IndexLists(generators, thermalIndex, storageIndex, renewableIndex)
    }

    constructor (name: string)
      ensures this.name == name && Valid()
      ensures generators == [] && loads == [] && grid == None && unitBusMapper == []
      ensures generatorBusIds == [] && loadBusIds == []
      ensures generatorReferences == [] && loadReferences == [] && gridReferences == []
    {
      this.name := name;
      generators, loads, grid := [], [], None;
      generatorBusIds, loadBusIds, unitBusMapper := [], [], [];
      thermalIndex, storageIndex, renewableIndex := [], [], [];
      generatorReferences, loadReferences, gridReferences := [], [], [];
    }

    /** The names of all registered units, generators first. */
    function UnitNames(): seq<string>
      reads this
    {
      GeneratorNames(generators) + LoadNames(loads)
    }

    /** The duplicate test of the add methods: whether `unitName` is in the mapper. */
    predicate NameUsed(unitName: string)
      reads this
    {
      unitName in MapperNames(unitBusMapper)
    }

    /** `add_demand_unit`: a used name raises `DuplicateUnitNameError` and changes nothing. */
    method AddDemandUnit(load: LoadDemand, busId: BusId, reference: Option<Reference>) returns (o: Outcome)
      requires Valid()
      modifies this
      ensures Valid()
      ensures o.Fail? <==> old(NameUsed(load.name))
      ensures o.Fail? ==> o.error == DuplicateUnitName && unchanged(this)
      ensures o.Pass? ==>
        loads == old(loads) + [load] && loadBusIds == old(loadBusIds) + [busId] &&
        unitBusMapper == old(unitBusMapper) + [(load.name, busId)] &&
        loadReferences == old(loadReferences) + [reference]
      ensures generators == old(generators) && generatorBusIds == old(generatorBusIds)
      ensures generatorReferences == old(generatorReferences) && grid == old(grid)
      ensures gridReferences == old(gridReferences)
    {
      if NameUsed(load.name) {
        return Fail(DuplicateUnitName);
      }
      RegistryAddLoad(generators, loads, unitBusMapper, load, busId);
      loads := loads + [load];
      loadBusIds := loadBusIds + [busId];
      unitBusMapper := unitBusMapper + [(load.name, busId)];
      loadReferences := loadReferences + [reference];
      return Pass;
    }

    /** The list and index bookkeeping of a successful `_add_unit` for a generator. */
    method AppendGenerator(g: GeneratorRef, busId: BusId, reference: Option<Reference>)
      modifies this`generators, this`generatorBusIds, this`unitBusMapper, this`generatorReferences
      modifies this`thermalIndex, this`storageIndex, this`renewableIndex
      ensures generators == old(generators) + [g] && generatorBusIds == old(generatorBusIds) + [busId]
      ensures unitBusMapper == old(unitBusMapper) + [(g.Name(), busId)]
      ensures generatorReferences == old(generatorReferences) + [reference]
      ensures thermalIndex == (if KindOf(g) == ThermalKind then old(thermalIndex) + [|old(generators)|] else old(thermalIndex))
      ensures storageIndex == (if KindOf(g) == StorageKind then old(storageIndex) + [|old(generators)|] else old(storageIndex))
      ensures renewableIndex == (if KindOf(g) == RenewableKind then old(renewableIndex) + [|old(generators)|] else old(renewableIndex))
    {
      var count := |generators|;
      generators, generatorBusIds := generators + [g], generatorBusIds + [busId];
      unitBusMapper, generatorReferences := unitBusMapper + [(g.Name(), busId)], generatorReferences + [reference];
      thermalIndex := if KindOf(g) == ThermalKind then thermalIndex + [count] else thermalIndex;
      storageIndex := if KindOf(g) == StorageKind then storageIndex + [count] else storageIndex;
      renewableIndex := if KindOf(g) == RenewableKind then renewableIndex + [count] else renewableIndex;
    }

    /**
     * `_add_unit` followed by the typed method's index bookkeeping: the
     * generator count before the add is recorded in the kind's index list,
     * and only when the add succeeded (a raised duplicate skips it).
     */
    method AddGenerator(g: GeneratorRef, busId: BusId, reference: Option<Reference>) returns (o: Outcome)
      requires Valid()
      modifies this`generators, this`generatorBusIds, this`unitBusMapper, this`generatorReferences
      modifies this`thermalIndex, this`storageIndex, this`renewableIndex
      ensures Valid()
      ensures o.Fail? <==> old(NameUsed(g.Name()))
      ensures o.Fail? ==> o.error == DuplicateUnitName && unchanged(this)
      ensures o.Pass? ==>
        generators == old(generators) + [g] && generatorBusIds == old(generatorBusIds) + [busId] &&
        unitBusMapper == old(unitBusMapper) + [(g.Name(), busId)] &&
        generatorReferences == old(generatorReferences) + [reference]
      ensures o.Pass? ==>
        thermalIndex == (if KindOf(g) == ThermalKind then old(thermalIndex) + [|old(generators)|] else old(thermalIndex))
      ensures o.Pass? ==>
        storageIndex == (if KindOf(g) == StorageKind then old(storageIndex) + [|old(generators)|] else old(storageIndex))
      ensures o.Pass? ==>
        renewableIndex == (if KindOf(g) == RenewableKind then old(renewableIndex) + [|old(generators)|] else old(renewableIndex))
    {
      if NameUsed(g.Name()) {
        return Fail(DuplicateUnitName);
      }
      RegistryAddGenerator(generators, loads, unitBusMapper, g, busId);
      IndexListsAppend(generators, thermalIndex, storageIndex, renewableIndex, g);
      AppendGenerator(g, busId, reference);
      return Pass;
    }

    /** `add_thermal_power_plant`. */
    method AddThermalPowerPlant(unit: ThermalGenerator, busId: BusId, reference: Option<Reference>) returns (o: Outcome)
      requires Valid()
      modifies this
      ensures Valid()
      ensures o.Fail? <==> old(NameUsed(unit.name))
      ensures o.Pass? ==> generators == old(generators) + [ThermalRef(unit)]
      ensures o.Pass? ==> thermalIndex == old(thermalIndex) + [|old(generators)|]
      ensures o.Fail? ==> o.error == DuplicateUnitName && unchanged(this)
    {
      o := AddGenerator(ThermalRef(unit), busId, reference);
    }

    /** `add_storage_power_plant`. */
    method AddStoragePowerPlant(unit: StoragePowerPlant, busId: BusId, reference: Option<Reference>) returns (o: Outcome)
      requires Valid()
      modifies this
      ensures Valid()
      ensures o.Fail? <==> old(NameUsed(unit.name))
      ensures o.Pass? ==> generators == old(generators) + [StorageRef(unit)]
      ensures o.Pass? ==> storageIndex == old(storageIndex) + [|old(generators)|]
      ensures o.Fail? ==> o.error == DuplicateUnitName && unchanged(this)
    {
      o := AddGenerator(StorageRef(unit), busId, reference);
    }

    /** `add_renewable_unit`. */
    method AddRenewableUnit(unit: RenewablePowerUnit, busId: BusId, reference: Option<Reference>) returns (o: Outcome)
      requires Valid()
      modifies this
      ensures Valid()
      ensures o.Fail? <==> old(NameUsed(unit.name))
      ensures o.Pass? ==> generators == old(generators) + [RenewableRef(unit)]
      ensures o.Pass? ==> renewableIndex == old(renewableIndex) + [|old(generators)|]
      ensures o.Fail? ==> o.error == DuplicateUnitName && unchanged(this)
    {
      o := AddGenerator(RenewableRef(unit), busId, reference);
    }

    /**
     * `add_grid_model`, with its branches as written: with a grid already
     * present the grid is replaced and the reference is appended to the
     * GENERATOR references; without one the grid is set and then
     * `grid_config_reference[0]` is assigned, which raises `IndexError`
     * on the list that nothing ever appends to.
     */
    method AddGridModel(g: GridNetwork, reference: Option<Reference>) returns (o: Outcome)
      requires Valid()
      modifies this
      ensures Valid() && grid == Some(g)
      ensures old(grid).Some? ==>
        o.Pass? && generatorReferences == old(generatorReferences) + [reference] && gridReferences == old(gridReferences)
      ensures old(grid).None? ==> generatorReferences == old(generatorReferences)
      ensures old(grid).None? ==>
        if |old(gridReferences)| == 0 then o == Fail(IndexError) && gridReferences == old(gridReferences)
        else o.Pass? && gridReferences == old(gridReferences)[0 := reference]
      ensures generators == old(generators) && loads == old(loads) && unitBusMapper == old(unitBusMapper)
      ensures generatorBusIds == old(generatorBusIds) && loadBusIds == old(loadBusIds)
      ensures loadReferences == old(loadReferences)
    {
      if grid.Some? {
        grid := Some(g);
        generatorReferences := generatorReferences + [reference];
        return Pass;
      }
      grid := Some(g);
      if |gridReferences| == 0 {
        return Fail(IndexError);
      }
      gridReferences := gridReferences[0 := reference];
      return Pass;
    }

    /**
     * `microgrid_model_data()`. Without a grid the record holds `None`,
     * and the first use of its grid raises `AttributeError`; that failure
     * is reported here.
     */
    function ModelData(): (r: Result<MicrogridModelData>)
      reads this
      ensures r.Ok? <==> grid.Some?
      ensures r.Ok? ==>
        r.value.name == name && r.value.generators == generators && r.value.loads == loads &&
        r.value.grid == grid.value && r.value.generatorBusIds == generatorBusIds && r.value.loadBusIds == loadBusIds
      ensures r.Err? ==> r.error == AttributeError
    {
      match grid
      case None => Err(AttributeError)
      case Some(g) => Ok(MicrogridModelData(name, generators, loads, g, generatorBusIds, loadBusIds))
    }

    /** `get_thermal_generators`. */
    function ThermalGenerators(): (r: seq<GeneratorRef>)
      reads this
      requires Valid()
      ensures r == OfKind(generators, ThermalKind)
      ensures forall k :: 0 <= k < |r| ==> r[k].ThermalRef?
    {
      PickPositions(generators, ThermalKind);
      OfKindHasKind(generators, ThermalKind);
      Pick(generators, thermalIndex)
    }

    /** `get_storage_power_plants`. */
    function StoragePowerPlants(): (r: seq<GeneratorRef>)
      reads this
      requires Valid()
      ensures r == OfKind(generators, StorageKind)
      ensures forall k :: 0 <= k < |r| ==> r[k].StorageRef?
    {
      PickPositions(generators, StorageKind);
      OfKindHasKind(generators, StorageKind);
      Pick(generators, storageIndex)
    }

    /** `get_renewable_units`. */
    function RenewableUnits(): (r: seq<GeneratorRef>)
      reads this
      requires Valid()
      ensures r == OfKind(generators, RenewableKind)
      ensures forall k :: 0 <= k < |r| ==> r[k].RenewableRef?
    {
      PickPositions(generators, RenewableKind);
      OfKindHasKind(generators, RenewableKind);
      Pick(generators, renewableIndex)
    }

    /** `get_thermal_generator_references` (and likewise for the other kinds): the references at the kind's indices. */
    function KindReferences(k: GeneratorKind): (r: seq<Option<Reference>>)
      reads this
      requires Valid()
      ensures |r| == |Positions(generators, k)|
      ensures forall j :: 0 <= j < |r| ==>
        Positions(generators, k)[j] < |generatorReferences| && r[j] == generatorReferences[Positions(generators, k)[j]]
    {
      PositionsBelow(generators, k);
      Pick(generatorReferences, Positions(generators, k))
    }

    /**
     * `get_component_bus_id`: a generator's bus (the first generator with
     * that name), else a load's bus, else `None` (logged as a warning).
     */
    function ComponentBusId(unitId: string): (r: Option<BusId>)
      reads this
      requires Valid()
      ensures unitId in GeneratorNames(generators) ==>
        r.Some? && exists i :: 0 <= i < |generators| && generators[i].Name() == unitId && r.value == generatorBusIds[i]
      ensures unitId !in GeneratorNames(generators) && unitId in LoadNames(loads) ==>
        r.Some? && exists i :: 0 <= i < |loads| && loads[i].name == unitId && r.value == loadBusIds[i]
      ensures r.None? <==> unitId !in GeneratorNames(generators) && unitId !in LoadNames(loads)
    {
      match IndexOf(GeneratorNames(generators), unitId)
      case Ok(i) => Some(generatorBusIds[i])
      case Err(_) =>
        match IndexOf(LoadNames(loads), unitId)
        case Ok(i) => Some(loadBusIds[i])
        case Err(_) => None
    }
  }

  lemma {:induction false} OfKindHasKind(gens: seq<GeneratorRef>, k: GeneratorKind)
    ensures forall j :: 0 <= j < |OfKind(gens, k)| ==> KindOf(OfKind(gens, k)[j]) == k
  {
    if |gens| > 0 {
      OfKindHasKind(gens[..|gens| - 1], k);
    }
  }

  /** Inserting a name absent from a duplicate-free list keeps it duplicate-free. */
  lemma NoDuplicatesInsert(a: seq<string>, x: string, b: seq<string>)
    requires NoDuplicates(a + b) && x !in a + b
    ensures NoDuplicates(a + [x] + b)
  {
    var s := a + [x] + b;
    forall i, j | 0 <= i < j < |s| ensures s[i] != s[j] {
      if i < |a| && j > |a| {
        assert s[i] == (a + b)[i] && s[j] == (a + b)[j - 1];
      } else if i > |a| {
        assert s[i] == (a + b)[i - 1] && s[j] == (a + b)[j - 1];
      } else if i == |a| {
        assert s[j] == (a + b)[j - 1];
      } else {
        assert s[i] == (a + b)[i];
        if j < |a| {
          assert s[j] == (a + b)[j];
        }
      }
    }
  }

  /**
   * Loads and generators share one name space: a name is refused by every
   * add method exactly when some load or generator already carries it.
   */
  lemma NameUsedIffRegistered(l: MicrogridModelDataLoader, unitName: string)
    requires l.Valid()
    ensures l.NameUsed(unitName) <==> unitName in GeneratorNames(l.generators) || unitName in LoadNames(l.loads)
  {
    assert unitName in MapperNames(l.unitBusMapper) <==> unitName in multiset(MapperNames(l.unitBusMapper));
    assert unitName in l.UnitNames() <==> unitName in multiset(l.UnitNames());
  }
}
