// Belt rocks and pools: SceneSystem.h over the components of SceneTypes.h.
module SceneSystem {
  import opened Integers
  import opened Ecs
  import opened SpatialGrid
  import opened Broadphase
  import opened Cargo
  import opened Bits
  import opened RegenStagger

  const BELT_MAX_ROCKS: int := 24
  const BELT_ROCK_UNITS: int := 128

  datatype ScenePoi = ScenePoi(poiId: nat, belt: bool, seed: nat, radius: int)

  datatype PoiResources = PoiResources(units: int, baseline: int, commodity: nat)

  datatype OreBody = OreBody(commodity: nat, units: int, beltAnchor: Option<nat>)

  datatype ActiveOrder = ActiveOrder(mine: bool, target: nat, complete: bool)

  datatype MiningState = MiningState(rock: Option<nat>, progress: nat)

  // The component pools the scene and mining systems touch, keyed by slot.
  datatype Field = Field(live: set<nat>, position: map<nat, Vec>, poi: map<nat, ScenePoi>, pool: map<nat, PoiResources>,
                         ore: map<nat, OreBody>, order: map<nat, ActiveOrder>, hold: map<nat, Hold>,
                         mining: map<nat, MiningState>, flying: set<nat>)

  // ---------------------------------------------------------------------------
  // How many rocks, with how much ore
  // ---------------------------------------------------------------------------

  function BeltRockTarget(pool: PoiResources): int {
    if pool.units <= 0 || pool.baseline <= 0 then 0
    else
      var scaled := BELT_MAX_ROCKS * pool.units / pool.baseline;
      if scaled < 1 then 1 else if scaled > BELT_MAX_ROCKS then BELT_MAX_ROCKS else scaled
  }

  function PerRock(pool: PoiResources): int {
    var target := BeltRockTarget(pool);
    var share := if target > 0 then pool.units / target else pool.units;
    if share > BELT_ROCK_UNITS then BELT_ROCK_UNITS else if share < 1 then 1 else share
  }

  // What a field scattered from empty holds: BeltOre sums it over the rocks.
  function Advertised(pool: PoiResources): int {
    BeltRockTarget(pool) * PerRock(pool)
  }

  lemma TargetInRange(pool: PoiResources)
    requires pool.units > 0 && pool.baseline > 0
    ensures 1 <= BeltRockTarget(pool) <= BELT_MAX_ROCKS
  {
  }

  lemma FullBeltFullField(pool: PoiResources)
    requires pool.units >= pool.baseline > 0
    ensures BeltRockTarget(pool) == BELT_MAX_ROCKS
  {
    DivAtLeast(BELT_MAX_ROCKS * pool.units, pool.baseline, BELT_MAX_ROCKS);
  }

  // The target scales down with the pool fraction.
  lemma TargetShare(pool: PoiResources)
    requires pool.units > 0 && pool.baseline > 0 && BeltRockTarget(pool) > 1
    ensures BeltRockTarget(pool) * pool.baseline <= BELT_MAX_ROCKS * pool.units
  {
    var scaled := BELT_MAX_ROCKS * pool.units / pool.baseline;
    Quotients(BELT_MAX_ROCKS * pool.units, pool.baseline);
    if scaled > BELT_MAX_ROCKS {
      assert BELT_MAX_ROCKS * pool.baseline <= scaled * pool.baseline;
    }
  }

  // The rocks share out the pool, unless there are more rocks than units.
  lemma AdvertisedFits(pool: PoiResources)
    requires pool.units >= 0
    ensures Advertised(pool) <= pool.units <==> BeltRockTarget(pool) <= pool.units
  {
    if pool.units > 0 && pool.baseline > 0 {
      TargetInRange(pool);
      Shares(pool.units, BeltRockTarget(pool));
    }
  }

  lemma Shares(units: int, target: int)
    requires units > 0 && target > 0
    ensures target <= units ==> units / target >= 1
    ensures target > units ==> units / target == 0
    ensures forall share :: share <= units / target ==> target * share <= units
  {
    Quotients(units, target);
    if target <= units {
      DivAtLeast(units, target, 1);
    }
    forall share | share <= units / target
      ensures target * share <= units
    {
      MulLe(share, units / target, target);
    }
  }

  // With a baseline of at least the rock cap there are never more rocks than units.
  lemma TargetFits(pool: PoiResources)
    requires 0 <= pool.units <= pool.baseline && pool.baseline >= BELT_MAX_ROCKS
    ensures BeltRockTarget(pool) <= pool.units
  {
    if pool.units > 0 && BeltRockTarget(pool) > 1 {
      TargetShare(pool);
      TargetBelow(BeltRockTarget(pool), pool.units, pool.baseline);
    }
  }

  lemma TargetBelow(target: int, units: int, baseline: int)
    requires target * baseline <= BELT_MAX_ROCKS * units && baseline >= BELT_MAX_ROCKS && units > 0
    ensures target <= units
  {
    assert (units + 1) * baseline == units * baseline + baseline;
    MulLe(BELT_MAX_ROCKS, baseline, units);
    MulLe(units + 1, target, baseline);
  }

  // MaterializeScenePoi: the pool a saved row comes back as.
  function Reloaded(saved: int, baseline: int): int {
    var units := if saved > 0 then saved else baseline;
    if units > baseline then baseline else units
  }

  // A pool survives a restart exactly unless it had been mined dry.
  lemma PoolSurvivesReload(saved: int, baseline: int)
    requires 0 <= saved <= baseline
    ensures Reloaded(saved, baseline) == saved <==> saved > 0 || baseline == 0
  {
  }

  // ---------------------------------------------------------------------------
  // The field
  // ---------------------------------------------------------------------------

  ghost predicate OnlyLive(f: Field) {
    && f.position.Keys <= f.live && f.poi.Keys <= f.live && f.pool.Keys <= f.live && f.ore.Keys <= f.live
    && f.order.Keys <= f.live && f.hold.Keys <= f.live && f.mining.Keys <= f.live && f.flying <= f.live
  }

  // A rock is nothing but a rock.
  ghost predicate RocksApart(f: Field) {
    forall i :: i in f.ore ==> i !in f.poi && i !in f.pool && i !in f.order && i !in f.hold && i !in f.mining
  }

  ghost predicate PoolOk(p: PoiResources) {
    0 <= p.units <= p.baseline && p.commodity < COMMODITY_COUNT
  }

  ghost predicate OreOk(o: OreBody) {
    o.units >= 0 && o.commodity < COMMODITY_COUNT
  }

  ghost predicate FieldOk(f: Field) {
    && OnlyLive(f) && RocksApart(f)
    && (forall b :: b in f.pool ==> PoolOk(f.pool[b]))
    && (forall r :: r in f.ore ==> OreOk(f.ore[r]))
    && (forall u :: u in f.hold ==> Stocked(f.hold[u]))
  }

  // Every rock of a belt carries the belt's ore.
  ghost predicate OreMatches(f: Field) {
    forall r :: r in f.ore && f.ore[r].beltAnchor.Some? && f.ore[r].beltAnchor.value in f.pool ==>
      f.ore[r].commodity == f.pool[f.ore[r].beltAnchor.value].commodity
  }

  ghost function RocksInBox(f: Field, at: Vec, radius: int): set<nat> {
    set i | i in f.position && i in f.ore && Within(f.position[i], at, radius)
  }

  ghost function Spawned(f: Field, e: nat, at: Vec, o: OreBody): Field {
    f.(live := f.live + {e}, position := f.position[e := at], ore := f.ore[e := o])
  }

  // Nothing but rocks was added, every old rock still in place.
  ghost predicate Grown(f: Field, f': Field) {
    && f' == f.(live := f'.live, position := f'.position, ore := f'.ore)
    && f.live <= f'.live
    && (forall i :: i in f.live ==> (i in f'.ore <==> i in f.ore) && (i in f'.position <==> i in f.position))
    && (forall i :: i in f.ore && i in f.live ==> f'.ore[i] == f.ore[i])
    && (forall i :: i in f.position && i in f.live ==> f'.position[i] == f.position[i])
  }

  lemma GrownTrans(f: Field, g: Field, h: Field)
    requires Grown(f, g) && Grown(g, h)
    ensures Grown(f, h)
  {
  }

  // The belts MaintainBeltRocks acts on.
  predicate Maintainable(f: Field, anchor: nat) {
    anchor in f.poi && anchor in f.pool && anchor in f.position
  }

  // A slot that is a rock of this belt, fresh from SpawnBeltRock.
  ghost predicate FreshRock(f: Field, anchor: nat, pool: PoiResources, i: nat) {
    i in f.ore && i in f.position && f.ore[i] == OreBody(pool.commodity, PerRock(pool), Some(anchor))
  }

  // k rocks of one belt were added.
  ghost predicate Refilling(f: Field, f': Field, anchor: nat, k: nat)
    requires Maintainable(f, anchor)
  {
    && FieldOk(f') && Grown(f, f')
    && |f'.live| == |f.live| + k
    && (forall i :: i in f'.live - f.live ==> FreshRock(f', anchor, f.pool[anchor], i))
    && (var (at, radius) := (f.position[anchor], f.poi[anchor].radius);
        |RocksInBox(f', at, radius)| == |RocksInBox(f, at, radius)| + if radius >= 0 then k else 0)
  }

  // What MaintainBeltRocks leaves behind: the field is topped up to the target, never cut.
  ghost predicate Maintained(f: Field, f': Field, anchor: nat) {
    if !Maintainable(f, anchor) then f' == f
    else
      var live := |RocksInBox(f, f.position[anchor], f.poi[anchor].radius)|;
      var target := BeltRockTarget(f.pool[anchor]);
      Refilling(f, f', anchor, if live < target then target - live else 0)
  }

  // The count in the box becomes the larger of what it was and the target, except that a
  // belt of negative radius never counts any rock it spawns.
  lemma MaintainedCount(f: Field, f': Field, anchor: nat)
    requires Maintainable(f, anchor) && Maintained(f, f', anchor)
    ensures var (at, radius) := (f.position[anchor], f.poi[anchor].radius);
            var (was, now) := (|RocksInBox(f, at, radius)|, |RocksInBox(f', at, radius)|);
            var target := BeltRockTarget(f.pool[anchor]);
            now == (if was < target then target else was) <==> radius >= 0 || target == 0
  {
    var (at, radius) := (f.position[anchor], f.poi[anchor].radius);
    if radius < 0 {
      assert RocksInBox(f, at, radius) == {};
    }
  }

  // The hashes: one offset per rock and axis, one starting ordinal per belt and tick.
  type Scatter = (nat, nat, nat) -> nat
  type Salt = (nat, nat) -> nat

  function RockPos(at: Vec, radius: int, seed: nat, ordinal: nat, scatter: Scatter): Vec {
    Vec(at.x + Spread(scatter(seed, ordinal, 1), radius),
        at.y + Spread(scatter(seed, ordinal, 2), radius),
        at.z + Spread(scatter(seed, ordinal, 3), radius))
  }

  lemma RockLandsInBox(at: Vec, radius: int, seed: nat, ordinal: nat, scatter: Scatter)
    ensures Within(RockPos(at, radius, seed, ordinal, scatter), at, radius) <==> radius >= 0
  {
  }

  lemma SpawnedOk(f: Field, e: nat, at: Vec, o: OreBody)
    requires FieldOk(f) && e !in f.live && OreOk(o)
    ensures FieldOk(Spawned(f, e, at, o)) && Grown(f, Spawned(f, e, at, o))
    ensures |Spawned(f, e, at, o).live| == |f.live| + 1
  {
  }

  lemma SpawnedInBox(f: Field, e: nat, pos: Vec, o: OreBody, at: Vec, radius: int)
    requires FieldOk(f) && e !in f.live
    ensures |RocksInBox(Spawned(f, e, pos, o), at, radius)|
         == |RocksInBox(f, at, radius)| + if Within(pos, at, radius) then 1 else 0
  {
    assert RocksInBox(Spawned(f, e, pos, o), at, radius)
        == RocksInBox(f, at, radius) + if Within(pos, at, radius) then {e} else {};
    assert e !in RocksInBox(f, at, radius);
  }

  lemma RefillStep(f: Field, g: Field, anchor: nat, k: nat, e: nat, pos: Vec)
    requires Maintainable(f, anchor) && FieldOk(f) && Refilling(f, g, anchor, k) && e !in g.live
    requires Within(pos, f.position[anchor], f.poi[anchor].radius) <==> f.poi[anchor].radius >= 0
    requires PerRock(f.pool[anchor]) >= 0
    ensures Refilling(f, Spawned(g, e, pos, OreBody(f.pool[anchor].commodity, PerRock(f.pool[anchor]), Some(anchor))), anchor, k + 1)
  {
    var o := OreBody(f.pool[anchor].commodity, PerRock(f.pool[anchor]), Some(anchor));
    var h := Spawned(g, e, pos, o);
    SpawnedOk(g, e, pos, o);
    GrownTrans(f, g, h);
    SpawnedInBox(g, e, pos, o, f.position[anchor], f.poi[anchor].radius);
    forall i | i in h.live - f.live
      ensures FreshRock(h, anchor, f.pool[anchor], i)
    {
      if i != e {
        assert FreshRock(g, anchor, f.pool[anchor], i);
      }
    }
  }

  lemma RefillKeepsMatch(f: Field, f': Field, anchor: nat)
    requires FieldOk(f) && OreMatches(f) && Maintained(f, f', anchor)
    ensures OreMatches(f')
  {
    forall r | r in f'.ore && f'.ore[r].beltAnchor.Some? && f'.ore[r].beltAnchor.value in f'.pool
      ensures f'.ore[r].commodity == f'.pool[f'.ore[r].beltAnchor.value].commodity
    {
      if Maintainable(f, anchor) && r !in f.live {
        assert FreshRock(f', anchor, f.pool[anchor], r);
      }
    }
  }

  // One regeneration step: the pools in `rest` are still to come.
  ghost function RegenPool(f: Field, b: nat, tick: nat): PoiResources
    requires b in f.pool
  {
    if b in f.poi && Due(f.poi[b].poiId, tick)
    then f.pool[b].(units := Regenerated(f.pool[b].units, f.pool[b].baseline))
    else f.pool[b]
  }

  ghost predicate Regrowing(f: Field, f': Field, tick: nat, rest: set<nat>) {
    && FieldOk(f') && f'.pool.Keys == f.pool.Keys
    && (forall b :: b in f.pool ==> f'.pool[b] == if b in rest then f.pool[b] else RegenPool(f, b, tick))
    && Grown(f.(pool := f'.pool), f')
    && (OreMatches(f) ==> OreMatches(f'))
  }

  // A whole step: every due pool rises, nothing else but new rocks.
  ghost predicate Regrown(f: Field, f': Field, tick: nat) {
    Regrowing(f, f', tick, {})
  }

  lemma RegrowPools(f: Field, g: Field, h: Field, tick: nat, rest: set<nat>, b: nat)
    requires Regrowing(f, g, tick, rest) && b in rest && b in f.pool
    requires h.pool == g.pool[b := RegenPool(f, b, tick)]
    ensures h.pool.Keys == f.pool.Keys
    ensures forall a :: a in f.pool ==> h.pool[a] == if a in rest - {b} then f.pool[a] else RegenPool(f, a, tick)
  {
    forall a | a in f.pool
      ensures h.pool[a] == if a in rest - {b} then f.pool[a] else RegenPool(f, a, tick)
    {
      assert g.pool[a] == if a in rest then f.pool[a] else RegenPool(f, a, tick);
    }
  }

  lemma GrownPool(f: Field, g: Field, pool: map<nat, PoiResources>)
    requires Grown(f, g)
    ensures Grown(f.(pool := pool), g.(pool := pool))
  {
  }

  // The field with one pool regenerated is still a field.
  lemma RegenPoolOk(f: Field, g: Field, tick: nat, rest: set<nat>, b: nat) returns (g': Field)
    requires FieldOk(f) && Regrowing(f, g, tick, rest) && b in rest && b in f.pool
    ensures g' == g.(pool := g.pool[b := RegenPool(f, b, tick)]) && FieldOk(g')
    ensures OreMatches(g) ==> OreMatches(g')
    ensures Grown(f.(pool := g'.pool), g')
  {
    g' := g.(pool := g.pool[b := RegenPool(f, b, tick)]);
    assert PoolOk(f.pool[b]);
    GrownPool(f.(pool := g.pool), g, g'.pool);
  }

  lemma NotDue(f: Field, g: Field, tick: nat, rest: set<nat>, b: nat)
    requires Regrowing(f, g, tick, rest) && b in f.pool && b in f.poi && !Due(f.poi[b].poiId, tick)
    ensures Regrowing(f, g, tick, rest - {b})
  {
  }

  lemma RegrowStep(f: Field, g: Field, g': Field, h: Field, tick: nat, rest: set<nat>, b: nat)
    requires FieldOk(f) && Regrowing(f, g, tick, rest) && b in rest && b in f.pool
    requires g' == g.(pool := g.pool[b := RegenPool(f, b, tick)]) && FieldOk(g') && Grown(f.(pool := g'.pool), g')
    requires OreMatches(g) ==> OreMatches(g')
    requires FieldOk(h) && Maintained(g', h, b)
    ensures Regrowing(f, h, tick, rest - {b})
  {
    MaintainGrows(g', h, b);
    RegrowPools(f, g, h, tick, rest, b);
    GrownTrans(f.(pool := h.pool), g', h);
  }

  lemma MaintainGrows(f: Field, g: Field, anchor: nat)
    requires FieldOk(f) && FieldOk(g) && Maintained(f, g, anchor)
    ensures Grown(f, g) && (OreMatches(f) ==> OreMatches(g))
  {
    if OreMatches(f) {
      RefillKeepsMatch(f, g, anchor);
    }
  }

  class SceneWorld {
    var live: set<nat>
    var position: map<nat, Vec>
    var poi: map<nat, ScenePoi>
    var pool: map<nat, PoiResources>
    var ore: map<nat, OreBody>
    var order: map<nat, ActiveOrder>
    var hold: map<nat, Hold>
    var mining: map<nat, MiningState>
    var flying: set<nat>
    const scatter: Scatter
    const salt: Salt

    constructor (scatterHash: Scatter, saltHash: Salt)
      ensures View() == Field({}, map[], map[], map[], map[], map[], map[], map[], {}) && FieldOk(View()) && OreMatches(View())
    {
      live, position, poi, pool, ore, order, hold, mining, flying := {}, map[], map[], map[], map[], map[], map[], map[], {};
      scatter, salt := scatterHash, saltHash;
    }

    function View(): Field
      reads this
    {
      Field(live, position, poi, pool, ore, order, hold, mining, flying)
    }

    // Any free slot.
    method Create() returns (e: nat)
      modifies this`live
      ensures e !in old(live) && live == old(live) + {e}
    {
      e := FreeSlot();
      live := live + {e};
    }

    method FreeSlot() returns (e: nat)
      ensures e !in live
    {
      e := 0;
      var rest := live;
      while e in live
        invariant rest <= live && forall i: nat :: i in live && i >= e ==> i in rest
        decreases |rest|
      {
        rest := rest - {e};
        e := e + 1;
      }
    }

    method SpawnBeltRock(anchor: nat, at: Vec, radius: int, commodity: nat, poolUnits: int, seed: nat, ordinal: nat)
      returns (e: nat)
      modifies this
      ensures e !in old(live)
      ensures View() == Spawned(old(View()), e, RockPos(at, radius, seed, ordinal, scatter),
                                OreBody(commodity, if BELT_ROCK_UNITS > poolUnits then poolUnits else BELT_ROCK_UNITS, Some(anchor)))
    {
      var pos := RockPos(at, radius, seed, ordinal, scatter);
      var units := BELT_ROCK_UNITS;
      if units > poolUnits {
        units := poolUnits;
      }
      e := Create();
      position := position[e := pos];
      ore := ore[e := OreBody(commodity, units, Some(anchor))];
    }

    method CountBeltRocks(at: Vec, radius: int) returns (n: nat)
      ensures n == |RocksInBox(View(), at, radius)|
    {
      n := 0;
      var rest := position.Keys;
      ghost var seen := {};
      while rest != {}
        invariant rest <= position.Keys
        invariant seen == (set i | i in RocksInBox(View(), at, radius) && i !in rest) && n == |seen|
        decreases |rest|
      {
        var i :| i in rest;
        rest := rest - {i};
        if i in ore && Within(position[i], at, radius) {
          n := n + 1;
          seen := seen + {i};
        }
      }
      assert seen == RocksInBox(View(), at, radius);
    }

    method MaintainBeltRocks(anchor: nat, tick: nat)
      requires FieldOk(View())
      modifies this
      ensures FieldOk(View()) && Maintained(old(View()), View(), anchor)
    {
      if anchor !in poi || anchor !in pool || anchor !in position {
        return;
      }
      ghost var f := View();
      var (at, radius, seed) := (position[anchor], poi[anchor].radius, poi[anchor].seed);
      var commodity := pool[anchor].commodity;
      var target := BeltRockTarget(pool[anchor]);
      var perRock := if target > 0 then pool[anchor].units / target else pool[anchor].units;
      if perRock > BELT_ROCK_UNITS {
        perRock := BELT_ROCK_UNITS;
      }
      if perRock < 1 {
        perRock := 1;
      }
      var n := CountBeltRocks(at, radius);
      var ordinal := salt(seed, tick);
      ghost var spawned := 0;
      while n < target
        invariant n == |RocksInBox(f, at, radius)| + spawned
        invariant spawned > 0 ==> n <= target
        invariant Refilling(f, View(), anchor, spawned)
      {
        ghost var g := View();
        RockLandsInBox(at, radius, seed, ordinal, scatter);
        var e := SpawnBeltRock(anchor, at, radius, commodity, perRock, seed, ordinal);
        RefillStep(f, g, anchor, spawned, e, RockPos(at, radius, seed, ordinal, scatter));
        ordinal := ordinal + 1;
        n := n + 1;
        spawned := spawned + 1;
      }
    }

    method StepSceneRegen(tick: nat)
      requires FieldOk(View())
      modifies this
      ensures Regrown(old(View()), View(), tick)
    {
      ghost var f := View();
      var rest := poi.Keys * pool.Keys;
      while rest != {}
        invariant rest <= f.poi.Keys * f.pool.Keys && Regrowing(f, View(), tick, rest)
        decreases |rest|
      {
        var b :| b in rest;
        RegenAnchor(b, tick, f, rest);
        rest := rest - {b};
      }
    }

    // The pool alone.
    method RegenUnits(b: nat)
      requires b in pool && PoolOk(pool[b])
      modifies this`pool
      ensures pool == old(pool)[b := old(pool)[b].(units := Regenerated(old(pool)[b].units, old(pool)[b].baseline))]
    {
      if pool[b].units < pool[b].baseline {
        pool := pool[b := pool[b].(units := pool[b].units + SCENE_REGEN_PER_STEP)];
        if pool[b].units > pool[b].baseline {
          pool := pool[b := pool[b].(units := pool[b].baseline)];
        }
      }
    }

    method RegenAnchor(b: nat, tick: nat, ghost f: Field, ghost rest: set<nat>)
      requires FieldOk(f) && Regrowing(f, View(), tick, rest) && rest <= f.poi.Keys * f.pool.Keys && b in rest
      modifies this
      ensures Regrowing(f, View(), tick, rest - {b})
    {
      ghost var g := View();
      if Xor(poi[b].poiId, tick) % SCENE_REGEN_INTERVAL != 0 {
        NotDue(f, g, tick, rest, b);
        return;
      }
      ghost var g' := RegenPoolOk(f, g, tick, rest, b);
      RegenUnits(b);
      assert View() == g';
      MaintainBeltRocks(b, tick);
      RegrowStep(f, g, g', View(), tick, rest, b);
    }
  }
}
