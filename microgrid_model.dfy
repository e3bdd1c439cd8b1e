/**
 * `MicrogridModel` (src/microgrid/model/microgrid_model.py): one tick steps
 * the loads, then the generators that do not form the grid, computes one
 * frequency deviation Δf from the resulting imbalance, lets every
 * grid-forming unit share power with that same Δf and step, aggregates the
 * unit powers per bus into the grid's buffer and steps the grid.
 *
 * The tick is not atomic: a failure leaves the components stepped before it
 * in their new state. The sum of droop-gain inverses is cached on first use.
 */
module MicrogridSimulation {
  import opened Wrappers
  import opened SeqUtil
  import opened Component
  import opened ComponentInterface
  import opened GeneratorInterface
  import opened LoadDemandUnit
  import opened GridNetworkModel
  import opened Generators
  import opened MicrogridDomain

  /** What the tick reads and writes of one generator. */
  datatype GenView = GenView(forming: bool, renewable: bool, power: real, timestamp: int, setpoint: real, sharing: real, inverse: Result<real>)

  function View(g: GeneratorRef): GenView
    reads g.Obj()
  {
    GenView(g.Forming(), g.RenewableRef?, g.Power(), g.Timestamp(), g.Setpoint(), g.Sharing(), g.Inverse())
  }

  /** The power each generator contributes to the imbalance: its setpoint if grid-forming, else its output. */
  function Contribution(v: GenView): real
  {
    if v.forming then v.setpoint else v.power
  }

  function Contributions(vs: seq<GenView>): (r: seq<real>)
    ensures |r| == |vs| && forall j :: 0 <= j < |vs| ==> r[j] == Contribution(vs[j])
  {
    seq(|vs|, j requires 0 <= j < |vs| => Contribution(vs[j]))
  }

  function InverseValues(vs: seq<GenView>): (r: seq<real>)
    ensures |r| == |vs| && forall j :: 0 <= j < |vs| ==> r[j] == (if vs[j].inverse.Ok? then vs[j].inverse.value else 0.0)
  {
    seq(|vs|, j requires 0 <= j < |vs| => if vs[j].inverse.Ok? then vs[j].inverse.value else 0.0)
  }

  function Powers(vs: seq<GenView>): (r: seq<real>)
    ensures |r| == |vs| && forall j :: 0 <= j < |vs| ==> r[j] == vs[j].power
  {
    seq(|vs|, j requires 0 <= j < |vs| => vs[j].power)
  }

  /** `sum([g.droop_gain_inverse() for g in generators])`: the first failing inverse, in order, escapes. */
  function InverseSum(vs: seq<GenView>): Result<real>
  {
    if |vs| == 0 then Ok(0.0)
    else
      match InverseSum(vs[..|vs| - 1])
      case Err(e) => Err(e)
      case Ok(s) =>
        match vs[|vs| - 1].inverse
        case Err(e) => Err(e)
        case Ok(x) => Ok(s + x)
  }

  /** The inverse sum succeeds iff every inverse does, and then it is their sum; a failure is some unit's. */
  lemma {:induction false} InverseSumMeaning(vs: seq<GenView>)
    ensures InverseSum(vs).Ok? <==> forall j :: 0 <= j < |vs| ==> vs[j].inverse.Ok?
    ensures InverseSum(vs).Ok? ==> InverseSum(vs).value == Sum(InverseValues(vs))
    ensures InverseSum(vs).Err? ==> exists j :: 0 <= j < |vs| && vs[j].inverse == Err(InverseSum(vs).error)
  {
    if |vs| > 0 {
      var n := |vs| - 1;
      var pre := vs[..n];
      InverseSumMeaning(pre);
      assert InverseValues(vs)[..n] == InverseValues(pre);
      if InverseSum(pre).Err? {
        var j :| 0 <= j < n && pre[j].inverse == Err(InverseSum(pre).error);
        assert vs[j] == pre[j];
      }
    }
  }

  /** Once a prefix's sum has failed, so has the sum of every longer prefix. */
  lemma {:induction false} InverseSumErrPersists(vs: seq<GenView>, i: nat, m: nat)
    requires i <= m <= |vs| && InverseSum(vs[..i]).Err?
    ensures InverseSum(vs[..m]) == InverseSum(vs[..i])
    decreases m - i
  {
    if i < m {
      assert vs[..i + 1][..i] == vs[..i];
      InverseSumErrPersists(vs, i + 1, m);
    }
  }

  /** `calculate_delta_frequency` from the imbalance `deltaPower` and the inverse sum: `(1/S)·ΔP` for `S > 0`, else 0. */
  function DeltaFrequency(deltaPower: real, sumInverse: Result<real>): (r: Result<real>)
    ensures r.Err? <==> sumInverse.Err?
    ensures r.Err? ==> r.error == sumInverse.error
    ensures r.Ok? && sumInverse.value <= 0.0 ==> r.value == 0.0
  {
    match sumInverse
    case Err(e) => Err(e)
    case Ok(s) => if s > 0.0 then Ok(1.0 / s * deltaPower) else Ok(0.0)
  }

  /** Scaling one list and subtracting it from another does the same to their sums. */
  lemma {:induction false} SumLinear(a: seq<real>, b: seq<real>, c: seq<real>, k: real)
    requires |a| == |b| == |c| && forall j :: 0 <= j < |a| ==> a[j] == b[j] - k * c[j]
    ensures Sum(a) == Sum(b) - k * Sum(c)
  {
    if |a| > 0 {
      var n := |a| - 1;
      SumLinear(a[..n], b[..n], c[..n], k);
    }
  }

  predicate SharingConditions(vs: seq<GenView>)
  {
    (forall j :: 0 <= j < |vs| ==> vs[j].inverse.Ok? && vs[j].inverse.value >= 0.0) &&
    (forall j :: 0 <= j < |vs| ==> !vs[j].forming ==> vs[j].inverse.value == 0.0)
  }

  /** The droop conditions under which a tick balances exactly. */
  predicate DroopConditions(vs: seq<GenView>)
  {
    SharingConditions(vs) &&
    (forall j :: 0 <= j < |vs| ==> vs[j].forming ==> !vs[j].renewable) &&
    Sum(InverseValues(vs)) > 0.0
  }

  /** The generator outputs once the grid-forming units have shared `Δf`; the others keep theirs. */
  function Shared(vs: seq<GenView>, df: real): (r: seq<real>)
    ensures |r| == |vs|
  {
    seq(|vs|, j requires 0 <= j < |vs| =>
      if vs[j].forming && vs[j].inverse.Ok? then vs[j].setpoint + PowerSharing(vs[j].inverse.value, df) else vs[j].power)
  }

  /** Under the droop conditions the shared outputs sum to the contributions minus `Δf` times the inverse sum. */
  lemma SharedSum(vs: seq<GenView>, df: real)
    requires SharingConditions(vs)
    ensures Sum(Shared(vs, df)) == Sum(Contributions(vs)) - df * Sum(InverseValues(vs))
  {
    var after := Shared(vs, df);
    var c := Contributions(vs);
    var inv := InverseValues(vs);
    forall j | 0 <= j < |vs|
      ensures after[j] == c[j] - df * inv[j]
    {
      var v := vs[j];
      assert v.inverse.Ok? && v.inverse.value >= 0.0;
      assert inv[j] == v.inverse.value;
      if v.forming {
        assert after[j] == v.setpoint + PowerSharing(v.inverse.value, df);
        assert PowerSharing(v.inverse.value, df) == -df * inv[j];
      } else {
        assert inv[j] == 0.0;
      }
    }
    SumLinear(after, c, inv, df);
  }

  /**
   * The droop balance: with non-negative inverses, zero inverses on the
   * units that do not form the grid and a positive inverse sum `S`, letting
   * every grid-forming unit output `setpoint − Δf·inverse` for a `Δf` with
   * `Δf·S = Σ loads + Σ contributions` cancels that imbalance exactly.
   */
  lemma DroopBalance(loadPowers: seq<real>, vs: seq<GenView>, df: real)
    requires SharingConditions(vs)
    requires df * Sum(InverseValues(vs)) == Sum(loadPowers) + Sum(Contributions(vs))
    ensures Sum(loadPowers) + Sum(Shared(vs, df)) == 0.0
  {
    SharedSum(vs, df);
    Cancel(Sum(Shared(vs, df)), Sum(Contributions(vs)), Sum(loadPowers), df * Sum(InverseValues(vs)));
  }

  lemma Cancel(sa: real, sc: real, sl: real, x: real)
    requires sa == sc - x && x == sl + sc
    ensures sl + sa == 0.0
  {
  }

  /** For a positive inverse sum `S`, the `Δf` that `calculate_delta_frequency` returns solves `Δf·S = ΔP`. */
  lemma DeltaFrequencySolves(deltaPower: real, sumInverse: Result<real>, s: real, df: real)
    requires s > 0.0 && sumInverse == Ok(s) && DeltaFrequency(deltaPower, sumInverse) == Ok(df)
    ensures df * s == deltaPower
  {
  }

  /** Under the droop conditions, the `Δf` computed from the inverse sum solves `Δf·S = ΔP`. */
  lemma DroopDeltaFrequency(vs: seq<GenView>, deltaPower: real, df: real)
    requires DroopConditions(vs)
    requires DeltaFrequency(deltaPower, InverseSum(vs)) == Ok(df)
    ensures df * Sum(InverseValues(vs)) == deltaPower
  {
    InverseSumMeaning(vs);
    DeltaFrequencySolves(deltaPower, InverseSum(vs), Sum(InverseValues(vs)), df);
  }

  /** The `Δf` of one tick from the loads, the generators and an inverse sum. */
  function TickDelta(loadPowers: seq<real>, vs: seq<GenView>, sumInverse: Result<real>): Result<real>
  {
    DeltaFrequency(Sum(loadPowers) + Sum(Contributions(vs)), sumInverse)
  }

  /** The tick's `Δf` only sees the generators through their contributions. */
  lemma TickDeltaContributions(loadPowers: seq<real>, a: seq<GenView>, b: seq<GenView>, sumInverse: Result<real>)
    requires Contributions(a) == Contributions(b)
    ensures TickDelta(loadPowers, a, sumInverse) == TickDelta(loadPowers, b, sumInverse)
  {
  }

  /**
   * One tick's droop step balances: under the droop conditions, the `Δf`
   * computed from the imbalance `Σ loads + Σ contributions` and the inverse
   * sum, shared by every grid-forming unit, leaves loads and generators
   * summing to zero.
   */
  lemma TickBalances(loadPowers: seq<real>, vs: seq<GenView>, df: real)
    requires DroopConditions(vs)
    requires TickDelta(loadPowers, vs, InverseSum(vs)) == Ok(df)
    ensures Sum(loadPowers) + Sum(Shared(vs, df)) == 0.0
  {
    DroopDeltaFrequency(vs, Sum(loadPowers) + Sum(Contributions(vs)), df);
    DroopBalance(loadPowers, vs, df);
  }

  /** Two snapshots of the same generators with equal kinds, grid-forming flags and droop inverses. */
  predicate SameDroop(a: seq<GenView>, b: seq<GenView>)
  {
    |a| == |b| &&
    forall j :: 0 <= j < |a| ==> a[j].forming == b[j].forming && a[j].renewable == b[j].renewable && a[j].inverse == b[j].inverse
  }

  /** The inverse sum, its terms and the droop conditions only depend on flags and inverses. */
  lemma {:induction false} SameDroopInverseSum(a: seq<GenView>, b: seq<GenView>)
    requires SameDroop(a, b)
    ensures InverseSum(a) == InverseSum(b)
  {
    if |a| > 0 {
      SameDroopInverseSum(a[..|a| - 1], b[..|b| - 1]);
    }
  }

  lemma SameDroopConditions(a: seq<GenView>, b: seq<GenView>)
    requires SameDroop(a, b)
    ensures InverseValues(a) == InverseValues(b)
    ensures DroopConditions(a) <==> DroopConditions(b)
  {
    assert InverseValues(a) == InverseValues(b);
  }

  /** Kinds, grid-forming flags, droop inverses and setpoints agree: what stepping and sharing leave alone. */
  predicate Kept(a: seq<GenView>, b: seq<GenView>)
  {
    SameDroop(a, b) && forall j :: 0 <= j < |a| ==> b[j].setpoint == a[j].setpoint
  }

  /** The droop conditions, and a cache of the inverse sum that is empty or matches them. */
  predicate BalanceConditionsOf(vs: seq<GenView>, cache: Option<real>)
  {
    DroopConditions(vs) && (cache.None? || cache == Some(Sum(InverseValues(vs))))
  }

  /**
   * A tick keeps the balance conditions: it leaves flags and inverses alone
   * and at most fills the empty cache with the inverse sum.
   */
  lemma KeptBalanceConditions(a: seq<GenView>, b: seq<GenView>, before: Option<real>, after: Option<real>)
    requires SameDroop(a, b) && BalanceConditionsOf(a, before)
    requires after == before || (before.None? && InverseSum(a).Ok? && after == Some(InverseSum(a).value))
    ensures BalanceConditionsOf(b, after)
  {
    SameDroopConditions(a, b);
    InverseSumMeaning(a);
  }

  /** Every generator stands strictly before `t`. */
  predicate AllBefore(vs: seq<GenView>, t: int)
  {
    forall j :: 0 <= j < |vs| ==> vs[j].timestamp < t
  }

  /** Every generator stands at `t` with the output `next` lists for it. */
  predicate AllStepped(vs: seq<GenView>, next: seq<real>, t: int)
  {
    |next| == |vs| && forall j :: 0 <= j < |vs| ==> vs[j].timestamp == t && vs[j].power == next[j]
  }

  /** Every generator that does not form the grid stands strictly before `t`. */
  predicate FollowersBefore(vs: seq<GenView>, t: int)
  {
    forall j :: 0 <= j < |vs| && !vs[j].forming ==> vs[j].timestamp < t
  }

  /** Every grid-forming unit has a droop inverse and stands strictly before `t`. */
  predicate FormersReady(vs: seq<GenView>, t: int)
  {
    forall j :: 0 <= j < |vs| && vs[j].forming ==> vs[j].inverse.Ok? && vs[j].timestamp < t
  }

  /** Every grid-forming unit's share is its droop inverse's share of `df`. */
  predicate FormersShared(vs: seq<GenView>, df: real)
  {
    forall j :: 0 <= j < |vs| && vs[j].forming ==> vs[j].inverse.Ok? && vs[j].sharing == PowerSharing(vs[j].inverse.value, df)
  }

  /**
   * Step 2 of a tick, from `a` to `b`: each generator that does not form the
   * grid stepped from before `t` to `t` and output `next`; the grid-forming
   * units did not move; no share changed.
   */
  predicate FollowersStepped(a: seq<GenView>, b: seq<GenView>, next: seq<real>, t: int)
  {
    |b| == |a| && |next| == |a| &&
    forall j :: 0 <= j < |a| ==>
      b[j].sharing == a[j].sharing &&
      if a[j].forming then b[j].timestamp == a[j].timestamp && b[j].power == a[j].power
      else a[j].timestamp < t && b[j].timestamp == t && b[j].power == next[j]
  }

  /**
   * Step 4 of a tick, from `a` to `b`: each grid-forming unit took its
   * inverse's share of `df` and stepped from before `t` to `t`, a storage or
   * thermal unit to setpoint plus share; the other generators did not move
   * and their step outputs (`before`, then `next`) did not change.
   */
  predicate FormersStepped(a: seq<GenView>, b: seq<GenView>, before: seq<real>, next: seq<real>, df: real, t: int)
  {
    |b| == |a| && |before| == |a| && |next| == |a| &&
    forall j :: 0 <= j < |a| ==>
      if a[j].forming then
        a[j].inverse.Ok? && a[j].timestamp < t &&
        b[j].sharing == PowerSharing(a[j].inverse.value, df) && b[j].timestamp == t && b[j].power == next[j] &&
        (b[j].renewable || b[j].power == b[j].setpoint + b[j].sharing)
      else
        b[j].timestamp == a[j].timestamp && b[j].power == a[j].power && b[j].sharing == a[j].sharing && next[j] == before[j]
  }

  /**
   * One generator during step 2, from its view `a` before the step to `b`:
   * flags, inverse, setpoint, share and step output kept; a unit that does
   * not form the grid and that the loop has reached (`done`) stepped from
   * before `t` to `t` and its step output; any other unit unmoved.
   */
  predicate FollowerProgress(a: GenView, b: GenView, before: real, next: real, t: int, done: bool)
  {
    b.forming == a.forming && b.renewable == a.renewable && b.inverse == a.inverse && b.setpoint == a.setpoint &&
    b.sharing == a.sharing && next == before &&
    if !a.forming && done then a.timestamp < t && b.timestamp == t && b.power == before
    else b.timestamp == a.timestamp && b.power == a.power
  }

  /**
   * One generator during step 4, from its view `a` before the step to `b`:
   * flags, inverse and setpoint kept; a grid-forming unit the loop has
   * reached (`done`) shared and stepped to its step output `next`; any other
   * unit unmoved, its step output `next` still `before`.
   */
  predicate FormerProgress(a: GenView, b: GenView, before: real, next: real, df: real, t: int, done: bool)
  {
    b.forming == a.forming && b.renewable == a.renewable && b.inverse == a.inverse && b.setpoint == a.setpoint &&
    if a.forming && done then
      a.inverse.Ok? && a.timestamp < t && b.sharing == PowerSharing(a.inverse.value, df) &&
      b.timestamp == t && b.power == next && (b.renewable || b.power == b.setpoint + b.sharing)
    else
      b.timestamp == a.timestamp && b.power == a.power && b.sharing == a.sharing && next == before
  }

  /** Stepping the followers leaves every grid-forming unit as ready as it was. */
  lemma FollowersKeepFormersReady(v0: seq<GenView>, v1: seq<GenView>, n1: seq<real>, t: int)
    requires Kept(v0, v1) && FollowersStepped(v0, v1, n1, t)
    requires AllBefore(v0, t) && SharingConditions(v0)
    ensures FormersReady(v1, t)
  {
    forall j | 0 <= j < |v1| && v1[j].forming
      ensures v1[j].inverse.Ok? && v1[j].timestamp < t
    {
      assert v0[j].forming && v0[j].inverse == v1[j].inverse;
    }
  }

  /**
   * Steps 2 and 4 compose: a snapshot that went through both stands at `t`
   * throughout, every unit having stood before `t`; the grid-forming units
   * hold their share of `df`, and the imbalance the Δf was computed from is
   * unchanged by sharing.
   */
  lemma {:induction false} TickStepsCompose(v0: seq<GenView>, v1: seq<GenView>, v3: seq<GenView>, n1: seq<real>, n3: seq<real>, df: real, t: int)
    requires Kept(v0, v1) && FollowersStepped(v0, v1, n1, t)
    requires Kept(v1, v3) && FormersStepped(v1, v3, n1, n3, df, t)
    ensures AllBefore(v0, t) && AllStepped(v3, n3, t)
    ensures FormersShared(v3, df)
    ensures Contributions(v3) == Contributions(v1)
  {
    forall j | 0 <= j < |v0|
      ensures v0[j].timestamp < t && v3[j].timestamp == t && v3[j].power == n3[j]
    {
      assert v1[j].forming == v0[j].forming;
    }
    assert Contributions(v3) == Contributions(v1);
  }

  /**
   * The balance of a whole tick: generators that shared and stepped with the
   * `Δf` computed from the snapshot before sharing, together with the loads,
   * sum to exactly zero.
   */
  lemma TickBusBalance(loadPowers: seq<real>, before: seq<GenView>, after: seq<GenView>, stepBefore: seq<real>, stepAfter: seq<real>, df: real, t: int)
    requires DroopConditions(before)
    requires TickDelta(loadPowers, before, InverseSum(before)) == Ok(df)
    requires Kept(before, after) && FormersStepped(before, after, stepBefore, stepAfter, df, t)
    ensures Sum(Powers(after) + loadPowers) == 0.0
  {
    assert Powers(after) == Shared(before, df);
    TickBalances(loadPowers, before, df);
    SumAppend(Powers(after), loadPowers);
  }

  /** Bus powers listed in the order of `from`, listed again in the order of `to`. */
  function Reorder(p: seq<real>, from: seq<BusId>, to: seq<BusId>): (r: seq<real>)
    requires |p| == |from| && forall b :: b in to ==> b in from
    ensures |r| == |to|
  {
    seq(|to|, k requires 0 <= k < |to| => p[IndexOf(from, to[k]).value])
  }

  /** Re-listing the per-bus sums is the per-bus sums over the new list. */
  lemma ReorderBusPowers(unitBus: seq<BusId>, from: seq<BusId>, to: seq<BusId>, p: seq<real>)
    requires |unitBus| == |p| && forall b :: b in to ==> b in from
    ensures Reorder(BusPowers(unitBus, from, p), from, to) == BusPowers(unitBus, to, p)
  {
  }

  class MicrogridModel {
    const name: string
    const data: MicrogridModelData
    const generators: seq<GeneratorRef>
    const loads: seq<LoadDemand>
    const grid: GridNetwork
    const modelBusIds: seq<BusId>
    const unitToBus: array2<real>
    const generatorIds: seq<string>
    const loadIds: seq<string>
    /** The `sum_inverse_droop_gain` cache: `None` until first computed. */
    var sumInverse: Option<real>

    /** The generator objects and the load objects, the footprints the tick writes. */
    ghost const generatorRepr: set<object>
    ghost const loadRepr: set<object>

    function GenViews(): (r: seq<GenView>)
      reads generatorRepr
      requires UnitLists()
      ensures |r| == |generators| && forall j :: 0 <= j < |generators| ==> r[j] == View(generators[j])
    {
      seq(|generators|, j requires 0 <= j < |generators| reads generatorRepr => View(generators[j]))
    }

    function LoadPowers(): (r: seq<real>)
      reads loadRepr
      requires UnitLists()
      ensures |r| == |loads| && forall j :: 0 <= j < |loads| ==> r[j] == loads[j].currentPower
    {
      seq(|loads|, j requires 0 <= j < |loads| reads loadRepr => loads[j].currentPower)
    }

    /** The unit powers as `current_power` lists them: generator outputs in order, then load powers. */
    function UnitPowers(): (r: seq<real>)
      reads generatorRepr, loadRepr
      requires UnitLists()
      ensures |r| == |generators| + |loads|
      ensures forall j :: 0 <= j < |generators| ==> r[j] == generators[j].Power()
      ensures forall k :: 0 <= k < |loads| ==> r[|generators| + k] == loads[k].currentPower
    {
      Powers(GenViews()) + LoadPowers()
    }

    /** One id per generator and per load, and no generator object and no load object is listed twice. */
    ghost predicate UnitLists()
    {
      |generatorIds| == |generators| && |loadIds| == |loads| &&
      (forall j :: 0 <= j < |generators| ==> generators[j].Obj() in generatorRepr) &&
      (forall k :: 0 <= k < |loads| ==> loads[k] in loadRepr) &&
      (forall i, j :: 0 <= i < j < |generators| ==> generators[i].Obj() != generators[j].Obj()) &&
      (forall i, j :: 0 <= i < j < |loads| ==> loads[i] != loads[j]) &&
      generatorRepr !! loadRepr && this !in generatorRepr + loadRepr && grid !in generatorRepr + loadRepr &&
      grid.busPower !in generatorRepr + loadRepr && unitToBus !in generatorRepr + loadRepr
    }

    ghost predicate Valid()
      reads grid
    {
      data.ValidData() &&
      name == data.name && generators == data.generators && loads == data.loads && grid == data.grid &&
      modelBusIds == data.ModelBusIds() &&
      generatorIds == GeneratorNames(generators) && loadIds == LoadNames(loads) &&
      grid.Valid() &&
      (forall j :: 0 <= j < |generators| ==> generators[j].Valid()) &&
      UnitLists() &&
      unitToBus.Length0 == |data.UnitBusIds()| && unitToBus.Length1 == |modelBusIds|
    }

    /**
     * The stored `unit_to_bus` is the incidence matrix of the unit buses over
     * `model_bus_ids`. Nothing writes the matrix after construction, so this
     * holds for the model's lifetime.
     */
    ghost predicate BusMatrix()
      reads unitToBus
    {
      unitToBus.Length0 == |data.UnitBusIds()| && unitToBus.Length1 == |modelBusIds| &&
      forall i, j :: 0 <= i < unitToBus.Length0 && 0 <= j < unitToBus.Length1 ==>
        unitToBus[i, j] == UnitBusEntry(data.UnitBusIds(), modelBusIds, i, j)
    }

    /** The droop conditions on the current generators, and a cache (if any) that matches them. */
    predicate BalanceConditions()
      reads this, generatorRepr
      requires UnitLists()
    {
      BalanceConditionsOf(GenViews(), sumInverse)
    }

    /** `current_power`: a zero vector filled with the generator outputs, then the load powers. */
    method CurrentPower() returns (power: seq<real>)
      requires UnitLists()
      ensures power == UnitPowers()
    {
      var numGenerators := |generatorIds|;
      var numLoads := |loadIds|;
      power := seq(numGenerators + numLoads, _ => 0.0);
      for count := 0 to |generators|
        invariant |power| == numGenerators + numLoads
        invariant forall j :: 0 <= j < count ==> power[j] == generators[j].Power()
        invariant forall j :: count <= j < |power| ==> power[j] == 0.0
      {
        power := power[count := generators[count].Power()];
      }
      for count := 0 to |loads|
        invariant |power| == numGenerators + numLoads
        invariant forall j :: 0 <= j < numGenerators ==> power[j] == generators[j].Power()
        invariant forall k :: 0 <= k < count ==> power[numGenerators + k] == loads[k].currentPower
      {
        power := power[numGenerators + count := loads[count].currentPower];
      }
      UnitPowersAre(power);
    }

    /** A vector holding the generator outputs, then the load powers, is `UnitPowers()`. */
    lemma UnitPowersAre(p: seq<real>)
      requires UnitLists()
      requires |p| == |generators| + |loads|
      requires forall j :: 0 <= j < |generators| ==> p[j] == generators[j].Power()
      requires forall k :: 0 <= k < |loads| ==> p[|generators| + k] == loads[k].currentPower
      ensures p == UnitPowers()
    {
      var u := UnitPowers();
      forall i | 0 <= i < |p|
        ensures p[i] == u[i]
      {
        if i >= |generators| {
          assert p[|generators| + (i - |generators|)] == loads[i - |generators|].currentPower;
        }
      }
    }

    /** Outputs matching each generator's step output are `StepPowers(t)`. */
    lemma StepPowersAre(n: seq<real>, t: int)
      requires UnitLists() && |n| == |generators|
      requires forall j :: 0 <= j < |generators| ==> generators[j].PowerAfterStep(t) == n[j]
      ensures StepPowers(t) == n
    {
      var r := StepPowers(t);
      forall j | 0 <= j < |n|
        ensures r[j] == n[j]
      {
      }
    }

    /** Generators whose setpoints and inverses match `v` keep `v`'s droop flags and setpoints. */
    lemma KeptSince(v: seq<GenView>)
      requires UnitLists() && |v| == |generators|
      requires forall j :: 0 <= j < |generators| ==> v[j].forming == generators[j].Forming() && v[j].renewable == generators[j].RenewableRef?
      requires forall j :: 0 <= j < |generators| ==> generators[j].Setpoint() == v[j].setpoint && generators[j].Inverse() == v[j].inverse
      ensures Kept(v, GenViews())
    {
    }

    /**
     * `set_power_setpoint(unit_id, power)`: `list.index` raises `ValueError`
     * for an unknown id (the `IndexError` handler never fires); otherwise the
     * generator's own setter decides. No other generator changes.
     */
    method SetPowerSetpoint(unitId: string, power: real) returns (o: Outcome)
      requires UnitLists()
      modifies generatorRepr
      ensures IndexOf(generatorIds, unitId).Err? ==> o == Fail(ValueError) && unchanged(generatorRepr)
      ensures IndexOf(generatorIds, unitId).Ok? ==>
                var i := IndexOf(generatorIds, unitId).value;
                (o.Pass? <==> generators[i].AcceptsSetpoint(power)) &&
                (o.Pass? ==> generators[i].Setpoint() == power) &&
                (o.Fail? ==> o.error == ValueError && generators[i].Setpoint() == old(generators[i].Setpoint())) &&
                generators[i].Power() == old(generators[i].Power()) &&
                generators[i].Timestamp() == old(generators[i].Timestamp()) &&
                generators[i].Sharing() == old(generators[i].Sharing()) &&
                forall k :: 0 <= k < |generators| && k != i ==> unchanged(generators[k].Obj())
    {
      match IndexOf(generatorIds, unitId) {
        case Err(_) =>
          return Fail(ValueError);
        case Ok(i) =>
          o := SetGeneratorSetpoint(generators[i], power);
      }
    }

    /**
     * `set_power_setpoints(ps)`: a list of the wrong length is only logged
     * (`warned`) and changes nothing; otherwise each generator in turn gets
     * its setpoint, and a rejected value escapes after the earlier ones were set.
     */
    method SetPowerSetpoints(ps: seq<real>) returns (o: Outcome, warned: bool)
      requires UnitLists()
      modifies generatorRepr
      ensures warned <==> |ps| != |generators|
      ensures warned ==> o.Pass? && unchanged(generatorRepr)
      ensures o.Pass? && !warned ==>
                forall j :: 0 <= j < |generators| ==> generators[j].AcceptsSetpoint(ps[j]) && generators[j].Setpoint() == ps[j]
      ensures o.Fail? ==> o.error == ValueError
      ensures o.Fail? ==>
                exists f :: 0 <= f < |generators| && !generators[f].AcceptsSetpoint(ps[f]) &&
                  (forall j :: 0 <= j < f ==> generators[j].Setpoint() == ps[j]) &&
                  (forall j :: f <= j < |generators| ==> generators[j].Setpoint() == old(generators[j].Setpoint()))
      ensures forall j :: 0 <= j < |generators| ==>
                generators[j].Power() == old(generators[j].Power()) &&
                generators[j].Timestamp() == old(generators[j].Timestamp()) &&
                generators[j].Sharing() == old(generators[j].Sharing())
    {
      if |ps| != |generators| {
        return Pass, true;
      }
      warned := false;
      for i := 0 to |generators|
        invariant forall j :: 0 <= j < i ==> generators[j].AcceptsSetpoint(ps[j]) && generators[j].Setpoint() == ps[j]
        invariant forall j :: i <= j < |generators| ==> generators[j].Setpoint() == old(generators[j].Setpoint())
        invariant forall j :: 0 <= j < |generators| ==>
                    generators[j].Power() == old(generators[j].Power()) &&
                    generators[j].Timestamp() == old(generators[j].Timestamp()) &&
                    generators[j].Sharing() == old(generators[j].Sharing())
      {
        o := SetGeneratorSetpoint(generators[i], ps[i]);
        if o.Fail? {
          return o, false;
        }
      }
      o := Pass;
    }

    /**
     * `sum_inverse_droop_gain` (a cached property): the first read sums the
     * generators' droop-gain inverses in order, the first failing one
     * escaping uncached; later reads return the cached sum unchanged.
     */
    method SumInverseDroopGain() returns (r: Result<real>)
      requires UnitLists()
      modifies this`sumInverse
      ensures old(sumInverse).Some? ==> r == Ok(old(sumInverse).value) && sumInverse == old(sumInverse)
      ensures old(sumInverse).None? ==> r == InverseSum(GenViews())
      ensures old(sumInverse).None? ==> sumInverse == if r.Ok? then Some(r.value) else None
    {
      if sumInverse.Some? {
        return Ok(sumInverse.value);
      }
      r := AddInverses();
      if r.Ok? {
        sumInverse := Some(r.value);
      }
    }

    /** The uncached sum: the droop-gain inverses added in generator order, the first failing one escaping. */
    method AddInverses() returns (r: Result<real>)
      requires UnitLists()
      ensures r == InverseSum(GenViews())
    {
      ghost var vs := GenViews();
      var acc := 0.0;
      for i := 0 to |generators|
        invariant InverseSum(vs[..i]) == Ok(acc)
      {
        assert vs[..i + 1][..i] == vs[..i];
        match generators[i].Inverse() {
          case Err(e) =>
            InverseSumErrPersists(vs, i + 1, |vs|);
            assert vs[..|vs|] == vs;
            return Err(e);
          case Ok(x) =>
            acc := acc + x;
        }
      }
      assert vs[..|vs|] == vs;
      r := Ok(acc);
    }

    /** The inverse sum `calculate_delta_frequency` uses: the cached one if any, else the current one. */
    function SumInverseUsed(): Result<real>
      reads this, generatorRepr
      requires UnitLists()
    {
      if sumInverse.Some? then Ok(sumInverse.value) else InverseSum(GenViews())
    }

    /**
     * `calculate_delta_frequency`: the imbalance adds every load's power,
     * every grid-forming unit's setpoint and every other unit's output,
     * then divides by the (cached) inverse sum, or logs a warning and gives
     * 0 when that sum is not positive.
     */
    method CalculateDeltaFrequency() returns (r: Result<real>, warned: bool)
      requires UnitLists()
      modifies this`sumInverse
      ensures unchanged(loadRepr, generatorRepr)
      ensures GenViews() == old(GenViews()) && LoadPowers() == old(LoadPowers())
      ensures r == TickDeltaFrequency(old(SumInverseUsed()))
      ensures r.Err? <==> old(SumInverseUsed()).Err?
      ensures r.Err? ==> r.error == old(SumInverseUsed()).error
      ensures warned <==> r.Ok? && old(SumInverseUsed()).value <= 0.0
      ensures sumInverse == if old(SumInverseUsed()).Ok? then Some(old(SumInverseUsed()).value) else None
    {
      var deltaPower := PowerImbalance();
      var s := SumInverseDroopGain();
      assert GenViews() == old(GenViews()) && LoadPowers() == old(LoadPowers());
      r := DeltaFrequency(deltaPower, s);
      warned := s.Ok? && s.value <= 0.0;
    }

    /** The imbalance `calculate_delta_frequency` divides: every load's power, then each generator's share. */
    method PowerImbalance() returns (deltaPower: real)
      requires UnitLists()
      ensures deltaPower == Sum(LoadPowers()) + Sum(Contributions(GenViews()))
    {
      ghost var lp := LoadPowers();
      ghost var cs := Contributions(GenViews());
      deltaPower := 0.0;
      for i := 0 to |loads|
        invariant deltaPower == Sum(lp[..i])
      {
        assert lp[..i + 1][..i] == lp[..i];
        deltaPower := deltaPower + loads[i].currentPower;
      }
      assert lp[..|loads|] == lp;
      for i := 0 to |generators|
        invariant deltaPower == Sum(lp) + Sum(cs[..i])
      {
        assert cs[..i + 1][..i] == cs[..i];
        if generators[i].Forming() {
          deltaPower := deltaPower + generators[i].Setpoint();
        } else {
          deltaPower := deltaPower + generators[i].Power();
        }
      }
      assert cs[..|generators|] == cs;
    }

    /** Every load stands at `t` with its demand at `t`. */
    predicate LoadsStepped(t: int)
      requires UnitLists()
      reads loadRepr
    {
      forall k :: 0 <= k < |loads| ==> loads[k].currentTimestamp == t && loads[k].currentPower == loads[k].loader.GetData(t)
    }

    /** Every load stands strictly before `t`. */
    predicate LoadsBefore(t: int)
      requires UnitLists()
      reads loadRepr
    {
      forall k :: 0 <= k < |loads| ==> loads[k].currentTimestamp < t
    }

    /** What a successful `step(t)` would make each generator output. */
    function StepPowers(t: int): (r: seq<real>)
      requires UnitLists()
      reads generatorRepr
      ensures |r| == |generators| && forall j :: 0 <= j < |generators| ==> r[j] == generators[j].PowerAfterStep(t)
    {
      seq(|generators|, j requires 0 <= j < |generators| reads generatorRepr => generators[j].PowerAfterStep(t))
    }

    /** Every load and generator stands at `t`: loads at their demand, generators at their step output. */
    predicate UnitsStepped(t: int)
      requires UnitLists()
      reads loadRepr, generatorRepr
    {
      LoadsStepped(t) && AllStepped(GenViews(), StepPowers(t), t)
    }

    /** Every load and generator stands strictly before `t`. */
    predicate UnitsBefore(t: int)
      requires UnitLists()
      reads loadRepr, generatorRepr
    {
      LoadsBefore(t) && AllBefore(GenViews(), t)
    }

    /** Every generator has its data for `t`: no renewable sample point lies outside its power table. */
    predicate DataAt(t: int)
    {
      forall j :: 0 <= j < |generators| ==> generators[j].DataAt(t)
    }

    /** Every generator that does not form the grid has its data for `t`. */
    predicate FollowersDataAt(t: int)
    {
      forall j :: 0 <= j < |generators| && !generators[j].Forming() ==> generators[j].DataAt(t)
    }

    /** Every grid-forming unit has its data for `t`. */
    predicate FormersDataAt(t: int)
    {
      forall j :: 0 <= j < |generators| && generators[j].Forming() ==> generators[j].DataAt(t)
    }

    /** The `Δf` the tick computes from the current loads and generators and a given inverse sum. */
    function TickDeltaFrequency(sumInverse: Result<real>): Result<real>
      requires UnitLists()
      reads loadRepr, generatorRepr
    {
      TickDelta(LoadPowers(), GenViews(), sumInverse)
    }

    /**
     * Step 1 of `step`: each load in turn; the first rejected timestamp
     * escapes, and the loads before it keep their new state.
     */
    method StepLoads(t: int) returns (o: Outcome)
      requires UnitLists()
      modifies loadRepr
      ensures o.Pass? <==> old(LoadsBefore(t))
      ensures o.Fail? ==> o.error == StepPreviousTimestamp
      ensures o.Pass? ==> LoadsStepped(t)
      ensures o.Fail? ==>
                exists f :: 0 <= f < |loads| && t <= old(loads[f].currentTimestamp) &&
                  (forall k :: 0 <= k < f ==> loads[k].currentTimestamp == t && loads[k].currentPower == loads[k].loader.GetData(t)) &&
                  (forall k :: f <= k < |loads| ==>
                     loads[k].currentTimestamp == old(loads[k].currentTimestamp) && loads[k].currentPower == old(loads[k].currentPower))
      ensures unchanged(this) && unchanged(generatorRepr)
    {
      o := Pass;
      for i := 0 to |loads|
        invariant o.Pass?
        invariant forall k :: 0 <= k < i ==>
                    old(loads[k].currentTimestamp) < t && loads[k].currentTimestamp == t && loads[k].currentPower == loads[k].loader.GetData(t)
        invariant forall k :: i <= k < |loads| ==>
                    loads[k].currentTimestamp == old(loads[k].currentTimestamp) && loads[k].currentPower == old(loads[k].currentPower)
      {
        o := loads[i].Step(t);
        if o.Fail? {
          return;
        }
      }
    }

    /** `unit.step(t)` for generator `i`; no other generator changes. */
    method StepGeneratorAt(i: nat, t: int) returns (o: Outcome)
      requires UnitLists() && i < |generators| && generators[i].Valid()
      modifies generators[i].Obj()
      ensures o.Pass? <==> old(generators[i].Timestamp()) < t && generators[i].DataAt(t)
      ensures t <= old(generators[i].Timestamp()) ==>
                o == Fail(StepPreviousTimestamp) && generators[i].Timestamp() == old(generators[i].Timestamp())
      ensures old(generators[i].Timestamp()) < t ==> generators[i].Timestamp() == t
      ensures old(generators[i].Timestamp()) < t && !generators[i].DataAt(t) ==> o == Fail(ValueError)
      ensures o.Fail? ==> generators[i].Power() == old(generators[i].Power())
      ensures o.Pass? ==> generators[i].Power() == generators[i].PowerAfterStep(t)
      ensures generators[i].Setpoint() == old(generators[i].Setpoint()) && generators[i].Sharing() == old(generators[i].Sharing()) &&
              generators[i].Inverse() == old(generators[i].Inverse()) && generators[i].PowerAfterStep(t) == old(generators[i].PowerAfterStep(t))
      ensures forall j :: 0 <= j < |generators| && j != i ==> unchanged(generators[j].Obj())
    {
      o := StepGenerator(generators[i], t);
    }

    /** Step 2 of `step`: each generator that does not form the grid, in order. */
    method StepNonForming(t: int) returns (o: Outcome)
      requires UnitLists() && forall j :: 0 <= j < |generators| ==> generators[j].Valid()
      modifies generatorRepr
      ensures o.Pass? <==> FollowersBefore(old(GenViews()), t) && FollowersDataAt(t)
      ensures o.Fail? ==> o.error == StepPreviousTimestamp || o.error == ValueError
      ensures o.Pass? ==> FollowersStepped(old(GenViews()), GenViews(), StepPowers(t), t)
      ensures Kept(old(GenViews()), GenViews()) && StepPowers(t) == old(StepPowers(t))
      ensures unchanged(this) && unchanged(loadRepr)
    {
      ghost var v := GenViews();
      ghost var n := StepPowers(t);
      o := Pass;
      for i := 0 to |generators|
        invariant o.Pass?
        invariant forall j :: 0 <= j < |generators| ==>
                    FollowerProgress(v[j], View(generators[j]), n[j], generators[j].PowerAfterStep(t), t, j < i)
        invariant forall j :: 0 <= j < i && !generators[j].Forming() ==> generators[j].DataAt(t)
      {
        if !generators[i].Forming() {
          ghost var before := generators[i].Timestamp();
          o := StepGeneratorAt(i, t);
          if o.Fail? {
            assert !(before < t && generators[i].DataAt(t));
            assert !(FollowersBefore(v, t) && FollowersDataAt(t));
            KeptSince(v);
            StepPowersAre(n, t);
            return;
          }
        }
      }
      FollowersSteppedSince(v, n, t);
    }

    /** The generators after the loop of step 2, read back as views: every follower stepped, no former moved. */
    lemma FollowersSteppedSince(v: seq<GenView>, n: seq<real>, t: int)
      requires UnitLists() && |v| == |generators| && |n| == |generators|
      requires forall j :: 0 <= j < |generators| ==>
                 FollowerProgress(v[j], View(generators[j]), n[j], generators[j].PowerAfterStep(t), t, true)
      ensures FollowersBefore(v, t)
      ensures FollowersStepped(v, GenViews(), StepPowers(t), t)
      ensures Kept(v, GenViews()) && StepPowers(t) == n
    {
      KeptSince(v);
      StepPowersAre(n, t);
    }

    /** The body of step 4 for generator `i`: take the share, then step; no other generator changes. */
    method ShareAndStepAt(i: nat, df: real, t: int) returns (o: Outcome)
      requires UnitLists() && i < |generators| && generators[i].Valid()
      modifies generators[i].Obj()
      ensures o.Pass? <==> old(generators[i].Inverse()).Ok? && old(generators[i].Timestamp()) < t && generators[i].DataAt(t)
      ensures o.Fail? ==> o.error == StepPreviousTimestamp || o.error == ValueError || old(generators[i].Inverse()) == Err(o.error)
      ensures o.Pass? ==>
                generators[i].Sharing() == PowerSharing(old(generators[i].Inverse()).value, df) &&
                generators[i].Timestamp() == t && generators[i].Power() == generators[i].PowerAfterStep(t) &&
                (generators[i].RenewableRef? || generators[i].Power() == generators[i].Setpoint() + generators[i].Sharing())
      ensures generators[i].Setpoint() == old(generators[i].Setpoint()) && generators[i].Inverse() == old(generators[i].Inverse())
      ensures forall j :: 0 <= j < |generators| && j != i ==> unchanged(generators[j].Obj())
    {
      o := ParticipateGenerator(generators[i], df);
      if o.Pass? {
        o := StepGenerator(generators[i], t);
        if !generators[i].RenewableRef? {
          PowerAfterStepGridForming(generators[i], t);
        }
      }
    }

    /**
     * Step 4 of `step`: each grid-forming unit in turn takes its share with
     * the one Δf and then steps. A failing droop inverse or a rejected
     * timestamp escapes.
     */
    method ShareAndStepForming(df: real, t: int) returns (o: Outcome)
      requires UnitLists() && forall j :: 0 <= j < |generators| ==> generators[j].Valid()
      modifies generatorRepr
      ensures o.Pass? <==> FormersReady(old(GenViews()), t) && FormersDataAt(t)
      ensures o.Fail? ==>
                (o.error == StepPreviousTimestamp || o.error == ValueError ||
                 exists j :: 0 <= j < |generators| && old(GenViews())[j].forming && old(GenViews())[j].inverse == Err(o.error))
      ensures o.Pass? ==> FormersStepped(old(GenViews()), GenViews(), old(StepPowers(t)), StepPowers(t), df, t)
      ensures Kept(old(GenViews()), GenViews())
      ensures unchanged(this) && unchanged(loadRepr)
    {
      ghost var v := GenViews();
      ghost var n := StepPowers(t);
      o := Pass;
      for i := 0 to |generators|
        invariant o.Pass?
        invariant forall j :: 0 <= j < |generators| ==>
                    FormerProgress(v[j], View(generators[j]), n[j], generators[j].PowerAfterStep(t), df, t, j < i)
        invariant forall j :: 0 <= j < i && generators[j].Forming() ==> generators[j].DataAt(t)
      {
        if generators[i].Forming() {
          ghost var before := generators[i].Timestamp();
          o := ShareAndStepAt(i, df, t);
          if o.Fail? {
            assert !(v[i].inverse.Ok? && before < t && generators[i].DataAt(t));
            assert !(FormersReady(v, t) && FormersDataAt(t));
            KeptSince(v);
            return;
          }
        }
      }
      FormersSteppedSince(v, n, df, t);
    }

    /** The generators after the loop of step 4, read back as views: every grid-forming unit shared and stepped. */
    lemma FormersSteppedSince(v: seq<GenView>, n: seq<real>, df: real, t: int)
      requires UnitLists() && |v| == |generators| && |n| == |generators|
      requires forall j :: 0 <= j < |generators| ==>
                 FormerProgress(v[j], View(generators[j]), n[j], generators[j].PowerAfterStep(t), df, t, true)
      ensures FormersReady(v, t)
      ensures FormersStepped(v, GenViews(), n, StepPowers(t), df, t)
      ensures Kept(v, GenViews())
    {
      KeptSince(v);
    }

    /** The grid lists exactly the model buses, each once, with one power entry per bus. */
    ghost predicate SameBuses()
      reads grid
    {
      grid.busPower.Length == |grid.buses| && NoDuplicates(grid.buses) && NoDuplicates(modelBusIds) &&
      |grid.buses| == |modelBusIds| && forall b :: b in grid.buses ==> b in modelBusIds
    }

    /** A valid model's grid lists exactly its model buses. */
    lemma ValidSameBuses()
      requires Valid()
      ensures SameBuses()
    {
      DedupSpec(data.UnitBusIds());
    }

    /**
     * Step 5 of `step`: `set_bus_power(bus_id, power)` for each model bus and
     * its entry of `bp`. The grid lists the same buses, possibly in another
     * order, so every write lands and every grid bus is written.
     */
    method PushBusPower(bp: seq<real>)
      requires SameBuses() && |bp| == |modelBusIds|
      modifies grid.busPower
      ensures forall b :: b in grid.buses ==> b in modelBusIds
      ensures grid.busPower[..] == Reorder(bp, modelBusIds, grid.buses)
    {
      SameMembers(grid.buses, modelBusIds);
      for j := 0 to |modelBusIds|
        invariant forall k :: 0 <= k < |grid.buses| && grid.buses[k] in modelBusIds[..j] ==>
                    grid.busPower[k] == bp[IndexOf(modelBusIds, grid.buses[k]).value]
      {
        var o := grid.SetBusPower(modelBusIds[j], bp[j]);
        assert o.Pass?;
        IndexOfUnique(modelBusIds, j);
        assert modelBusIds[..j + 1] == modelBusIds[..j] + [modelBusIds[j]];
      }
      assert modelBusIds[..|modelBusIds|] == modelBusIds;
    }

    /** Steps 1 and 2 of `step`: the loads, then the generators that do not form the grid. */
    method StepFollowers(t: int) returns (o: Outcome)
      requires UnitLists() && forall j :: 0 <= j < |generators| ==> generators[j].Valid()
      modifies loadRepr, generatorRepr
      ensures o.Pass? <==> old(LoadsBefore(t)) && FollowersBefore(old(GenViews()), t) && FollowersDataAt(t)
      ensures o.Fail? ==> o.error == StepPreviousTimestamp || o.error == ValueError
      ensures o.Pass? ==> LoadsStepped(t) && FollowersStepped(old(GenViews()), GenViews(), StepPowers(t), t)
      ensures Kept(old(GenViews()), GenViews()) && StepPowers(t) == old(StepPowers(t))
      ensures unchanged(this)
    {
      o := StepLoads(t);
      if o.Fail? {
        return;
      }
      o := StepNonForming(t);
    }

    /**
     * Steps 3 and 4 of `step`: one Δf from the current imbalance and inverse
     * sum, then every grid-forming unit shares with it and steps. Under the
     * droop conditions the loads and generators then sum to zero.
     */
    method DroopStep(t: int) returns (o: Outcome)
      requires UnitLists() && forall j :: 0 <= j < |generators| ==> generators[j].Valid()
      modifies this`sumInverse, generatorRepr
      ensures Kept(old(GenViews()), GenViews())
      ensures sumInverse == old(sumInverse) ||
              (old(sumInverse).None? && InverseSum(old(GenViews())).Ok? && sumInverse == Some(InverseSum(old(GenViews())).value))
      ensures o.Pass? <==> old(TickDeltaFrequency(SumInverseUsed())).Ok? && FormersReady(old(GenViews()), t) && FormersDataAt(t)
      ensures o.Fail? ==>
                (o.error == StepPreviousTimestamp || o.error == ValueError ||
                 exists j :: 0 <= j < |generators| && old(GenViews())[j].inverse == Err(o.error))
      ensures o.Pass? ==>
                FormersStepped(old(GenViews()), GenViews(), old(StepPowers(t)), StepPowers(t), old(TickDeltaFrequency(SumInverseUsed())).value, t)
      ensures o.Pass? && old(BalanceConditions()) ==> Sum(UnitPowers()) == 0.0
      ensures unchanged(loadRepr)
    {
      ghost var v0 := GenViews();
      ghost var n0 := StepPowers(t);
      ghost var lp := LoadPowers();
      ghost var balanced := BalanceConditions();
      ghost var s := SumInverseUsed();
      assert s.Err? ==> s == InverseSum(v0);
      if balanced {
        InverseSumMeaning(v0);
        assert s == InverseSum(v0);
      }
      ghost var tdf := TickDeltaFrequency(s);
      assert tdf == TickDelta(lp, v0, s);
      var deltaFrequency, warned := CalculateDeltaFrequency();
      assert deltaFrequency == tdf;
      if deltaFrequency.Err? {
        InverseSumMeaning(v0);
        ghost var j :| 0 <= j < |v0| && v0[j].inverse == Err(deltaFrequency.error);
        return Fail(deltaFrequency.error);
      }
      assert GenViews() == v0 && StepPowers(t) == n0;
      o := ShareAndStepForming(deltaFrequency.value, t);
      if o.Pass? && balanced {
        TickBusBalance(lp, v0, GenViews(), n0, StepPowers(t), deltaFrequency.value, t);
        assert LoadPowers() == lp;
      }
    }

    /** The first four steps of `step`: loads, non-forming generators, one Δf, grid-forming units. */
    method StepUnits(t: int) returns (o: Outcome)
      requires UnitLists() && forall j :: 0 <= j < |generators| ==> generators[j].Valid()
      modifies this`sumInverse, loadRepr, generatorRepr
      ensures Kept(old(GenViews()), GenViews())
      ensures sumInverse == old(sumInverse) ||
              (old(sumInverse).None? && InverseSum(old(GenViews())).Ok? && sumInverse == Some(InverseSum(old(GenViews())).value))
      ensures o.Fail? ==>
                (o.error == StepPreviousTimestamp || o.error == ValueError ||
                 exists j :: 0 <= j < |generators| && old(GenViews())[j].inverse == Err(o.error))
      ensures old(BalanceConditions()) ==> o.Pass? || o.error == StepPreviousTimestamp || o.error == ValueError
      ensures old(BalanceConditions()) && old(UnitsBefore(t)) && DataAt(t) ==> o.Pass?
      ensures o.Pass? ==> old(UnitsBefore(t)) && UnitsStepped(t)
      ensures o.Pass? ==>
                TickDeltaFrequency(old(SumInverseUsed())).Ok? && FormersShared(GenViews(), TickDeltaFrequency(old(SumInverseUsed())).value)
      ensures o.Pass? && old(BalanceConditions()) ==> Sum(UnitPowers()) == 0.0
    {
      ghost var v0 := GenViews();
      ghost var s0 := SumInverseUsed();
      ghost var balanced := BalanceConditions();
      ghost var before := UnitsBefore(t);
      if balanced {
        InverseSumMeaning(v0);
      }
      o := StepFollowers(t);
      if o.Fail? {
        return;
      }
      ghost var v1 := GenViews();
      ghost var n1 := StepPowers(t);
      ghost var lp := LoadPowers();
      SameDroopInverseSum(v0, v1);
      SameDroopConditions(v0, v1);
      assert SumInverseUsed() == s0;
      ghost var tdf := TickDeltaFrequency(s0);
      assert tdf == TickDelta(lp, v1, s0);
      if balanced && before {
        FollowersKeepFormersReady(v0, v1, n1, t);
      }
      o := DroopStep(t);
      if o.Fail? && o.error != StepPreviousTimestamp && o.error != ValueError {
        ghost var j :| 0 <= j < |generators| && v1[j].inverse == Err(o.error);
        assert v0[j].inverse == Err(o.error);
      }
      if o.Pass? {
        ghost var v3 := GenViews();
        TickStepsCompose(v0, v1, v3, n1, StepPowers(t), tdf.value, t);
        assert LoadPowers() == lp;
        TickDeltaContributions(lp, v3, v1, s0);
      }
    }

    /**
     * `step(t)`: loads, generators that do not form the grid, one Δf, the
     * grid-forming units sharing with it and stepping, bus aggregation and
     * the grid step, in that order. The tick is not atomic: whatever stepped
     * before a failure stays stepped. Under the droop conditions only a
     * rejected timestamp can stop it, so the grid's exact balance check
     * passes.
     */
    method Step(t: int) returns (o: Outcome)
      requires Valid() && BusMatrix()
      modifies this`sumInverse, loadRepr, generatorRepr, grid, grid.busPower
      ensures Valid()
      ensures old(BalanceConditions()) ==> BalanceConditions()
      ensures old(BalanceConditions()) ==> o.Pass? || o.error == StepPreviousTimestamp || o.error == ValueError
      ensures old(BalanceConditions()) && old(UnitsBefore(t)) && DataAt(t) && old(grid.currentTimestamp) < t ==> o.Pass?
      ensures o.Fail? ==>
                (o.error == StepPreviousTimestamp || o.error == ValueError || o.error == SimulationGrid ||
                 exists j :: 0 <= j < |generators| && old(GenViews())[j].inverse == Err(o.error))
      ensures o.Pass? || o == Fail(SimulationGrid) ==>
                old(UnitsBefore(t)) && old(grid.currentTimestamp) < t && UnitsStepped(t) && grid.currentTimestamp == t &&
                grid.busPower[..] == BusPowers(data.UnitBusIds(), grid.buses, UnitPowers())
      ensures o.Pass? || o == Fail(SimulationGrid) ==>
                TickDeltaFrequency(old(SumInverseUsed())).Ok? && FormersShared(GenViews(), TickDeltaFrequency(old(SumInverseUsed())).value)
      ensures o.Pass? ==> grid.Balanced()
    {
      ghost var v0 := GenViews();
      ghost var c0 := sumInverse;
      ghost var balanced := BalanceConditions();
      assert balanced == BalanceConditionsOf(v0, c0);
      o := StepUnits(t);
      ghost var v1 := GenViews();
      if balanced {
        KeptBalanceConditions(v0, v1, c0, sumInverse);
        assert BalanceConditions();
      }
      if o.Fail? {
        return;
      }
      assert Valid();
      o := FinishTick(t);
    }

    /**
     * Steps 5 and 6 of `step`: the bus powers go into the grid, then the
     * grid steps. The units are left as they are; the grid passes exactly
     * when the timestamp advances and the unit powers sum to zero.
     */
    method FinishTick(t: int) returns (o: Outcome)
      requires Valid() && BusMatrix()
      modifies grid, grid.busPower
      ensures grid.Valid()
      ensures unchanged(generatorRepr) && unchanged(loadRepr) && UnitPowers() == old(UnitPowers())
      ensures BalanceConditions() == old(BalanceConditions())
      ensures GenViews() == old(GenViews()) && LoadPowers() == old(LoadPowers())
      ensures grid.busPower[..] == BusPowers(data.UnitBusIds(), grid.buses, UnitPowers())
      ensures o.Pass? <==> old(grid.currentTimestamp) < t && Sum(UnitPowers()) == 0.0
      ensures o.Fail? ==> (if old(grid.currentTimestamp) < t then o.error == SimulationGrid else o.error == StepPreviousTimestamp)
      ensures old(grid.currentTimestamp) < t ==> grid.currentTimestamp == t
      ensures o.Pass? ==> grid.Balanced()
    {
      ghost var up := UnitPowers();
      ghost var v := GenViews();
      ghost var lp := LoadPowers();
      ghost var balanced := BalanceConditions();
      AggregateBusPower();
      assert UnitPowers() == up;
      ghost var bp := grid.busPower[..];
      o := grid.Step(t);
      assert grid.busPower[..] == bp;
      assert unchanged(generatorRepr);
      assert unchanged(loadRepr);
      assert UnitPowers() == up && GenViews() == v && LoadPowers() == lp;
      assert BalanceConditions() == balanced;
    }

    /** Step 5 of `step`: the unit powers, summed per bus, written into the grid's buffer bus by bus. */
    method AggregateBusPower()
      requires Valid() && BusMatrix()
      modifies grid.busPower
      ensures grid.busPower[..] == BusPowers(data.UnitBusIds(), grid.buses, UnitPowers())
      ensures Sum(grid.busPower[..]) == Sum(UnitPowers())
    {
      var power := CurrentPower();
      ConvertIsBusPowers(power);
      var busPower := ConvertUnitPowerBusPower(power).value;
      ValidSameBuses();
      PushBusPower(busPower);
      ReorderBusPowers(data.UnitBusIds(), modelBusIds, grid.buses, power);
      UnitBusesListed();
      BusPowersSum(data.UnitBusIds(), grid.buses, power);
    }

    /** Every unit's bus is one of the grid's buses, each listed once. */
    lemma UnitBusesListed()
      requires Valid()
      ensures NoDuplicates(grid.buses)
      ensures forall i :: 0 <= i < |data.UnitBusIds()| ==> data.UnitBusIds()[i] in grid.buses
    {
      DedupSpec(data.UnitBusIds());
      SameMembers(grid.buses, modelBusIds);
    }

    /** Column `j` of `unit_to_bus.T @ p` over the first `k` units. */
    function ColumnDot(p: seq<real>, j: nat, k: nat): real
      requires k <= |p| && k <= unitToBus.Length0 && j < unitToBus.Length1
      reads unitToBus
    {
      if k == 0 then 0.0 else ColumnDot(p, j, k - 1) + unitToBus[k - 1, j] * p[k - 1]
    }

    /**
     * `convert_unit_power_bus_power(p)`: `unit_to_bus.T @ p`; a vector of the
     * wrong length makes numpy fail, which surfaces as `UnknownComponentError`.
     */
    function ConvertUnitPowerBusPower(p: seq<real>): (r: Result<seq<real>>)
      reads unitToBus
      ensures r.Err? <==> |p| != unitToBus.Length0
      ensures r.Err? ==> r.error == UnknownComponent
      ensures r.Ok? ==> |r.value| == unitToBus.Length1
    {
      if |p| != unitToBus.Length0 then Err(UnknownComponent)
      else Ok(seq(unitToBus.Length1, j requires 0 <= j < unitToBus.Length1 reads unitToBus => ColumnDot(p, j, |p|)))
    }

    lemma {:induction false} ColumnDotIsUnitSum(p: seq<real>, j: nat, k: nat)
      requires modelBusIds == data.ModelBusIds() && BusMatrix() && |p| == unitToBus.Length0 && j < unitToBus.Length1 && k <= |p|
      ensures ColumnDot(p, j, k) == UnitSumAt(data.UnitBusIds()[..k], p[..k], modelBusIds[j])
    {
      var ub := data.UnitBusIds();
      if k > 0 {
        ColumnDotIsUnitSum(p, j, k - 1);
        ColumnDotStep(p, j, k);
        UnitSumAtStep(ub, p, modelBusIds[j], k);
      }
    }

    /** One more unit adds its power to column `j` exactly when its bus is model bus `j`. */
    lemma ColumnDotStep(p: seq<real>, j: nat, k: nat)
      requires modelBusIds == data.ModelBusIds() && BusMatrix() && |p| == unitToBus.Length0 && j < unitToBus.Length1
      requires 0 < k <= |p|
      ensures ColumnDot(p, j, k) == ColumnDot(p, j, k - 1) + (if data.UnitBusIds()[k - 1] == modelBusIds[j] then p[k - 1] else 0.0)
    {
      var ub := data.UnitBusIds();
      var e := unitToBus[k - 1, j];
      assert e == UnitBusEntry(ub, modelBusIds, k - 1, j);
      assert e == if ub[k - 1] == modelBusIds[j] then 1.0 else 0.0 by {
        DedupSpec(ub);
        UnitBusRow(ub, modelBusIds, k - 1);
      }
      assert e * p[k - 1] == if ub[k - 1] == modelBusIds[j] then p[k - 1] else 0.0;
    }

    /** Bus power `b` is the sum of the powers of the units mapped to bus `b`. */
    lemma ConvertIsBusPowers(p: seq<real>)
      requires Valid() && BusMatrix() && |p| == |data.UnitBusIds()|
      ensures ConvertUnitPowerBusPower(p) == Ok(BusPowers(data.UnitBusIds(), modelBusIds, p))
    {
      var r := ConvertUnitPowerBusPower(p).value;
      var spec := BusPowers(data.UnitBusIds(), modelBusIds, p);
      forall j | 0 <= j < |modelBusIds|
        ensures r[j] == spec[j]
      {
        ColumnDotIsUnitSum(p, j, |p|);
        assert data.UnitBusIds()[..|p|] == data.UnitBusIds();
        assert p[..|p|] == p;
      }
      assert r == spec;
    }

    constructor (data: MicrogridModelData, unitToBus: array2<real>)
      requires data.ValidData() && data.grid.Valid()
      requires forall j :: 0 <= j < |data.generators| ==> data.generators[j].Valid()
      requires unitToBus.Length0 == |data.UnitBusIds()| && unitToBus.Length1 == |data.ModelBusIds()|
      requires forall i, j :: 0 <= i < unitToBus.Length0 && 0 <= j < unitToBus.Length1 ==>
                 unitToBus[i, j] == UnitBusEntry(data.UnitBusIds(), data.ModelBusIds(), i, j)
      ensures Valid() && BusMatrix() && this.data == data && this.unitToBus == unitToBus && sumInverse.None?
      ensures generatorRepr == (set j | 0 <= j < |generators| :: generators[j].Obj())
      ensures loadRepr == (set k | 0 <= k < |loads| :: loads[k] as object)
    {
      UniqueNamesDistinctObjects(data);
      name := data.name;
      this.data := data;
      generators := data.generators;
      loads := data.loads;
      grid := data.grid;
      modelBusIds := data.ModelBusIds();
      this.unitToBus := unitToBus;
      generatorIds := GeneratorNames(data.generators);
      loadIds := LoadNames(data.loads);
      sumInverse := None;
      generatorRepr := set j | 0 <= j < |data.generators| :: data.generators[j].Obj();
      loadRepr := set k | 0 <= k < |data.loads| :: data.loads[k] as object;
    }
  }

  /** `MicrogridModel(data)`: `MicrogirdModellingError` unless `valid_data`. */
  method NewMicrogridModel(data: MicrogridModelData) returns (r: Result<MicrogridModel>)
    requires data.grid.Valid()
    requires forall j :: 0 <= j < |data.generators| ==> data.generators[j].Valid()
    ensures r.Err? <==> !data.ValidData()
    ensures r.Err? ==> r.error == MicrogridModelling
    ensures r.Ok? ==> fresh(r.value) && r.value.Valid() && r.value.BusMatrix() && r.value.data == data && r.value.sumInverse.None?
  {
    if !data.ValidData() {
      return Err(MicrogridModelling);
    }
    var m := UnitBusMatrix(data);
    var model := new MicrogridModel(data, m);
    return Ok(model);
  }
}
