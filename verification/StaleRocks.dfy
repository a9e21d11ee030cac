// A run in which a belt's loss comes up as another belt's ore.
module StaleRocks {
  import opened Ecs
  import opened SpatialGrid
  import opened Cargo
  import opened Bits
  import opened RegenStagger
  import opened SceneSystem
  import opened MiningSystem
  import opened MiningLedger
  import opened MiningTicks

  const NEAR := Vec(0, 0, 0)
  const FAR := Vec(100000, 0, 0)
  const BELT: nat := 10
  const OTHER: nat := 20
  const ROCK: nat := 7

  ghost predicate EmptyHold(h: Hold) {
    Stocked(h) && h.capacity == 20 && forall k :: 0 <= k < |h.units| ==> h.units[k] == 0
  }

  lemma {:induction false} EmptyWeighsNothing(units: seq<int>, n: nat)
    requires n <= |units| && forall k :: 0 <= k < |units| ==> units[k] == 0
    ensures TonnesIn(units, n) == 0
  {
    if n > 0 {
      EmptyWeighsNothing(units, n - 1);
    }
  }

  lemma EmptyTonnage(h: Hold)
    requires EmptyHold(h)
    ensures Tonnage(h) == 0
  {
    EmptyWeighsNothing(h.units, COMMODITY_COUNT);
  }

  // Two belts far apart, two units ordered onto the first, one rock of it that is not in play.
  // The rest of the stage varies: the two pools, the units' beams, one hold, one position.
  datatype Stage = Stage(units: int, otherUnits: int, first: MiningState, second: MiningState, hold: Hold, at: Vec)

  ghost function Site(s: Stage, empty: Hold): Field {
    var order := ActiveOrder(true, BELT, false);
    Field({1, 2, 8, BELT, OTHER},
          map[1 := NEAR, 2 := s.at, 8 := NEAR, BELT := NEAR, OTHER := FAR],
          map[BELT := ScenePoi(4, true, 0, 12000), OTHER := ScenePoi(0, true, 0, 12000)],
          map[BELT := PoiResources(s.units, 100, 12), OTHER := PoiResources(s.otherUnits, 100, 1)],
          map[8 := OreBody(12, 4, Some(BELT))],
          map[1 := order, 2 := order],
          map[1 := s.hold, 2 := empty],
          map[1 := s.first, 2 := s.second],
          {1, 2})
  }

  // ...with one more rock.
  ghost function WithRock(s: Stage, empty: Hold, at: Vec, rock: OreBody): Field {
    Spawned(Site(s, empty), ROCK, at, rock)
  }

  ghost predicate StageOk(s: Stage) {
    0 <= s.units <= 100 && 0 <= s.otherUnits <= 100 && Stocked(s.hold)
  }

  // A rock of either belt, of that belt's ore.
  ghost predicate Matching(rock: OreBody) {
    rock.units > 0 && (rock.beltAnchor, rock.commodity) in {(Some(BELT), 12), (Some(OTHER), 1)}
  }

  lemma SiteOk(s: Stage, empty: Hold)
    requires StageOk(s) && EmptyHold(empty)
    ensures FieldOk(Site(s, empty)) && OreMatches(Site(s, empty))
  {
  }

  lemma WithRockOk(s: Stage, empty: Hold, at: Vec, rock: OreBody)
    requires StageOk(s) && EmptyHold(empty) && Matching(rock)
    ensures FieldOk(WithRock(s, empty, at, rock)) && OreMatches(WithRock(s, empty, at, rock))
  {
    SiteOk(s, empty);
    SpawnedOk(Site(s, empty), ROCK, at, rock);
  }

  const SHARED := OreBody(12, 4, Some(BELT))
  const REUSED := OreBody(1, 6, Some(OTHER))

  // ---------------------------------------------------------------------------
  // The second unit's beam
  // ---------------------------------------------------------------------------

  // The second unit's turn with the rock still live.
  lemma SecondTurns(s: Stage, empty: Hold, at: Vec, rock: OreBody) returns (f: Field)
    requires StageOk(s) && EmptyHold(empty) && Matching(rock) && s.second.rock == Some(ROCK)
    ensures f == WithRock(s, empty, at, rock) && FieldOk(f) && Cutting(f, 2, ROCK) && BeltOf(f, 2) == Some(BELT)
    ensures var (g, event, emptied) := Cut(f, 2, ROCK, Some(BELT));
            MayTurn(f, g, 2, event, emptied)
  {
    f := WithRock(s, empty, at, rock);
    WithRockOk(s, empty, at, rock);
    EmptyTonnage(empty);
    CachedTurn(f, 2);
  }

  // In range of the rock its beam charges; out of range it starts over.
  lemma SecondWaits(s: Stage, empty: Hold, at: Vec, rock: OreBody, progress: nat)
    requires StageOk(s) && EmptyHold(empty) && Matching(rock) && s.second.rock == Some(ROCK)
    requires if ChebyDist(s.at, at) > MINING_RANGE then progress == 0
             else progress == s.second.progress + 1 && progress < MINING_CYCLE_TICKS
    ensures var (f, g) := (WithRock(s, empty, at, rock), WithRock(s.(second := MiningState(Some(ROCK), progress)), empty, at, rock));
            FieldOk(f) && FieldOk(g) && MayTurn(f, g, 2, None, false)
  {
    var f := SecondTurns(s, empty, at, rock);
    var s' := s.(second := MiningState(Some(ROCK), progress));
    WithRockOk(s', empty, at, rock);
    var g := WithRock(s', empty, at, rock);
    assert g.order == f.order[2 := f.order[2].(complete := false)];
    assert g.mining == f.mining[2 := MiningState(Some(ROCK), progress)];
    assert Cut(f, 2, ROCK, Some(BELT)) == (g, None, false);
  }

  // The same once it is charged: four units of whatever ore the rock is of, at BELT's expense.
  lemma SecondExtracts(s: Stage, empty: Hold, at: Vec, rock: OreBody) returns (f: Field, g: Field)
    requires StageOk(s) && EmptyHold(empty) && Matching(rock) && rock.units > 4 && s.units >= 4
    requires s.second == MiningState(Some(ROCK), 119) && ChebyDist(s.at, at) <= MINING_RANGE
    ensures f == WithRock(s, empty, at, rock) && FieldOk(f) && FieldOk(g)
    ensures MayTurn(f, g, 2, Some(MiningEvent(2, ROCK, rock.commodity, 4)), false) && BeltOf(f, 2) == Some(BELT)
    ensures rock.commodity != 12 ==> StaleRock(f, 2)
  {
    f := SecondTurns(s, empty, at, rock);
    EmptyTonnage(empty);
    assert Yield(f, 2, ROCK, Some(BELT)) == 4;
    var (h, event, emptied) := Cut(f, 2, ROCK, Some(BELT));
    MayTurnOk(f, h, 2, event, emptied);
    g := h;
  }

  // ---------------------------------------------------------------------------
  // The run
  // ---------------------------------------------------------------------------

  // The first unit takes the last four units of the shared rock; its belt needs no refill.
  lemma FirstSpendsIt(empty: Hold) returns (f: Field, g: Field)
    requires EmptyHold(empty)
    ensures f == WithRock(Shared(empty).(second := MiningState(Some(ROCK), 119)), empty, NEAR, SHARED)
    ensures g == Site(Spent(empty), empty) && FieldOk(f) && FieldOk(g)
    ensures MayTurn(f, g, 1, Some(MiningEvent(1, ROCK, 12, 4)), true) && Maintained(g, g, BELT)
  {
    f := WithRock(Shared(empty).(second := MiningState(Some(ROCK), 119)), empty, NEAR, SHARED);
    WithRockOk(Shared(empty).(second := MiningState(Some(ROCK), 119)), empty, NEAR, SHARED);
    EmptyTonnage(empty);
    CachedTurn(f, 1);
    g := SpentCut(f, empty);
    SiteOk(Spent(empty), empty);
    assert 8 in RocksInBox(g, NEAR, 12000);
  }

  lemma SpentCut(f: Field, empty: Hold) returns (g: Field)
    requires EmptyHold(empty) && f == WithRock(Shared(empty).(second := MiningState(Some(ROCK), 119)), empty, NEAR, SHARED)
    requires Cutting(f, 1, ROCK)
    ensures g == Site(Spent(empty), empty)
    ensures Cut(f, 1, ROCK, Some(BELT)) == (g, Some(MiningEvent(1, ROCK, 12, 4)), true)
  {
    var charged := ReadyCutIs(f, 1, ROCK, Some(BELT));
    ChargedSite(f, charged, empty);
    EmptyTonnage(empty);
    assert Yield(charged, 1, ROCK, Some(BELT)) == 4;
    var k := ExtractedSite(charged, empty);
    g := SpentRock(k, empty);
  }

  lemma ChargedSite(f: Field, charged: Field, empty: Hold)
    requires EmptyHold(empty) && f == WithRock(Shared(empty).(second := MiningState(Some(ROCK), 119)), empty, NEAR, SHARED)
    requires charged == Charged(f, 1)
    ensures charged == WithRock(Beam(empty), empty, NEAR, SHARED)
  {
    assert charged.order == f.order && charged.mining == Site(Beam(empty), empty).mining;
  }

  ghost function Beam(empty: Hold): Stage {
    Shared(empty).(first := MiningState(Some(ROCK), 0), second := MiningState(Some(ROCK), 119))
  }

  // What is left once the four units are in the hold.
  lemma ExtractedSite(charged: Field, empty: Hold) returns (k: Field)
    requires EmptyHold(empty) && charged == WithRock(Beam(empty), empty, NEAR, SHARED) && Cutting(charged, 1, ROCK)
    ensures k == Extracted(charged, 1, ROCK, Some(BELT), 4)
    ensures k == WithRock(Spent(empty).(first := MiningState(Some(ROCK), 0)), empty, NEAR, SHARED.(units := 0))
  {
    k := Extracted(charged, 1, ROCK, Some(BELT), 4);
    var h := WithRock(Spent(empty).(first := MiningState(Some(ROCK), 0)), empty, NEAR, SHARED.(units := 0));
    assert k.ore == h.ore && k.pool == h.pool && k.hold == h.hold;
  }

  lemma SpentRock(k: Field, empty: Hold) returns (g: Field)
    requires EmptyHold(empty)
    requires k == WithRock(Spent(empty).(first := MiningState(Some(ROCK), 0)), empty, NEAR, SHARED.(units := 0))
    ensures g == Site(Spent(empty), empty) && AfterExtraction(k, 1, ROCK) == (g, true)
  {
    EmptyTonnage(empty);
    LoadedTonnage(empty, 12, 4);
    g := Site(Spent(empty), empty);
    assert k.mining[1 := MiningState(None, 0)] == g.mining;
    SpawnedGone(g, ROCK, NEAR, SHARED.(units := 0));
  }

  lemma SpawnedGone(g: Field, e: nat, at: Vec, rock: OreBody)
    requires OnlyLive(g) && e !in g.live
    ensures Despawned(Spawned(g, e, at, rock), e) == g
  {
    var f := Despawned(Spawned(g, e, at, rock), e);
    assert f.live == g.live && f.position == g.position && f.ore == g.ore;
    assert f.poi == g.poi && f.pool == g.pool;
    assert f.order == g.order && f.hold == g.hold && f.mining == g.mining && f.flying == g.flying;
  }

  ghost function Shared(empty: Hold): Stage {
    Stage(8, 4, MiningState(Some(ROCK), 119), MiningState(Some(ROCK), 118), empty, NEAR)
  }

  ghost function Spent(empty: Hold): Stage
    requires Stocked(empty)
  {
    Stage(4, 4, MiningState(None, 0), MiningState(Some(ROCK), 119), Loaded(empty, 12, 4), NEAR)
  }

  lemma Clock()
    ensures Due(0, 300) && !Due(4, 300)
  {
    XorZero(300);
    Xor4(300);
  }

  // At tick 300 only the other belt regenerates.
  lemma OtherPoolRegrows(f: Field, m: Field, empty: Hold)
    requires EmptyHold(empty) && f == Site(Spent(empty), empty) && m == Site(Spent(empty).(otherUnits := 6), empty)
    ensures m == f.(pool := m.pool) && m.pool.Keys == f.pool.Keys
    ensures forall b :: b in f.pool ==> m.pool[b] == RegenPool(f, b, 300)
  {
    Clock();
  }

  // Its one rock reuses the spent one's slot.
  lemma OtherBeltRefills(m: Field, g: Field, empty: Hold)
    requires EmptyHold(empty) && m == Site(Spent(empty).(otherUnits := 6), empty) && FieldOk(m) && FieldOk(g)
    requires g == WithRock(Spent(empty).(otherUnits := 6), empty, FAR, REUSED)
    ensures Maintained(m, g, OTHER) && Grown(m, g)
  {
    SpawnedOk(m, ROCK, FAR, REUSED);
    assert RocksInBox(m, FAR, 12000) == {};
    SpawnedInBox(m, ROCK, FAR, REUSED, FAR, 12000);
    assert BeltRockTarget(m.pool[OTHER]) == 1 && PerRock(m.pool[OTHER]) == 6;
    assert g.live - m.live == {ROCK};
  }

  lemma OtherBeltRegrows(empty: Hold) returns (f: Field, m: Field, g: Field)
    requires EmptyHold(empty)
    ensures f == Site(Spent(empty), empty) && m == Site(Spent(empty).(otherUnits := 6), empty)
    ensures g == WithRock(Spent(empty).(otherUnits := 6), empty, FAR, REUSED) && FieldOk(f) && FieldOk(m) && FieldOk(g)
    ensures Regrown(f, g, 300) && Maintained(m, g, OTHER)
  {
    f, m := Site(Spent(empty), empty), Site(Spent(empty).(otherUnits := 6), empty);
    g := WithRock(Spent(empty).(otherUnits := 6), empty, FAR, REUSED);
    SiteOk(Spent(empty), empty);
    SiteOk(Spent(empty).(otherUnits := 6), empty);
    WithRockOk(Spent(empty).(otherUnits := 6), empty, FAR, REUSED);
    OtherPoolRegrows(f, m, empty);
    OtherBeltRefills(m, g, empty);
    assert f.(pool := g.pool) == m;
  }

  // The other belt's rock is live under the second unit's cached slot.
  ghost function Reused(empty: Hold, at: Vec, progress: nat): Stage
    requires Stocked(empty)
  {
    Spent(empty).(otherUnits := 6, second := MiningState(Some(ROCK), progress), at := at)
  }

  lemma UpToRegrowth(empty: Hold) returns (fs: seq<Field>, steps: seq<Step>)
    requires EmptyHold(empty)
    ensures RunBetween(fs, steps, WithRock(Shared(empty), empty, NEAR, SHARED),
                       WithRock(Reused(empty, NEAR, 119), empty, FAR, REUSED))
  {
    SecondWaits(Shared(empty), empty, NEAR, SHARED, 119);
    var f0 := WithRock(Shared(empty), empty, NEAR, SHARED);
    var f1, f2 := FirstSpendsIt(empty);
    var _, m, f4 := OtherBeltRegrows(empty);
    NoSteps(f0);
    fs, steps := [f0], [];
    Extend(fs, steps, f0, f0, f1, Turn(2, None, false));
    fs, steps := fs + [f1], steps + [Turn(2, None, false)];
    var first := Turn(1, Some(MiningEvent(1, ROCK, 12, 4)), true);
    Extend(fs, steps, f0, f1, f2, first);
    fs, steps := fs + [f2], steps + [first];
    Extend(fs, steps, f0, f2, f2, Refill(BELT));
    fs, steps := fs + [f2], steps + [Refill(BELT)];
    Extend(fs, steps, f0, f2, f4, Regen(300));
    fs, steps := fs + [f4], steps + [Regen(300)];
  }

  // The second unit flies there, its beam starting over.
  lemma UpToFlight(empty: Hold) returns (fs: seq<Field>, steps: seq<Step>)
    requires EmptyHold(empty)
    ensures RunBetween(fs, steps, WithRock(Shared(empty), empty, NEAR, SHARED),
                       WithRock(Reused(empty, FAR, 0), empty, FAR, REUSED))
  {
    var f0 := WithRock(Shared(empty), empty, NEAR, SHARED);
    fs, steps := UpToRegrowth(empty);
    var (far, away) := (Reused(empty, NEAR, 119), WithRock(Reused(empty, NEAR, 0), empty, FAR, REUSED));
    SecondWaits(far, empty, FAR, REUSED, 0);
    Extend(fs, steps, f0, WithRock(far, empty, FAR, REUSED), away, Turn(2, None, false));
    fs, steps := fs + [away], steps + [Turn(2, None, false)];
    var there := WithRock(Reused(empty, FAR, 0), empty, FAR, REUSED);
    WithRockOk(Reused(empty, FAR, 0), empty, FAR, REUSED);
    Extend(fs, steps, f0, away, there, Elsewhere);
    fs, steps := fs + [there], steps + [Elsewhere];
  }

  // And charging, one turn at a time.
  lemma {:induction false} UpToCharge(empty: Hold, f0: Field, progress: nat) returns (fs: seq<Field>, steps: seq<Step>)
    requires EmptyHold(empty) && f0 == WithRock(Shared(empty), empty, NEAR, SHARED) && progress < MINING_CYCLE_TICKS
    ensures RunBetween(fs, steps, f0, WithRock(Reused(empty, FAR, progress), empty, FAR, REUSED))
    decreases progress
  {
    if progress == 0 {
      fs, steps := UpToFlight(empty);
    } else {
      fs, steps := UpToCharge(empty, f0, progress - 1);
      fs, steps := ChargeOn(fs, steps, f0, empty, progress);
    }
  }

  lemma ChargeOn(fs: seq<Field>, steps: seq<Step>, f0: Field, empty: Hold, progress: nat)
    returns (fs': seq<Field>, steps': seq<Step>)
    requires EmptyHold(empty) && 0 < progress < MINING_CYCLE_TICKS
    requires RunBetween(fs, steps, f0, WithRock(Reused(empty, FAR, progress - 1), empty, FAR, REUSED))
    ensures RunBetween(fs', steps', f0, WithRock(Reused(empty, FAR, progress), empty, FAR, REUSED))
  {
    var was := Reused(empty, FAR, progress - 1);
    var g := WithRock(Reused(empty, FAR, progress), empty, FAR, REUSED);
    SecondWaits(was, empty, FAR, REUSED, progress);
    Extend(fs, steps, f0, WithRock(was, empty, FAR, REUSED), g, Turn(2, None, false));
    fs', steps' := fs + [g], steps + [Turn(2, None, false)];
  }

  lemma SharedIsSound(empty: Hold) returns (f: Field)
    requires EmptyHold(empty)
    ensures f == WithRock(Shared(empty), empty, NEAR, SHARED)
    ensures OreMatches(f) && BELT in f.pool && forall u :: !StaleRock(f, u)
  {
    f := WithRock(Shared(empty), empty, NEAR, SHARED);
    WithRockOk(Shared(empty), empty, NEAR, SHARED);
  }

  // A run from a field without a stale rock, at the end of which the second unit brings up
  // the other belt's ore at its own belt's expense.
  lemma StaleRockMixesOres(empty: Hold) returns (fs: seq<Field>, steps: seq<Step>)
    requires EmptyHold(empty)
    ensures Run(fs, steps) && OreMatches(fs[0]) && BELT in fs[0].pool && forall u :: !StaleRock(fs[0], u)
    ensures |steps| > 0 && steps[|steps| - 1] == Turn(2, Some(MiningEvent(2, ROCK, 1, 4)), false)
    ensures StaleDrawAt(fs, steps, BELT, |steps| - 1)
    ensures OreSoFar(fs, steps, BELT, fs[0].pool[BELT].commodity, |steps|) < MinedSoFar(fs, steps, BELT, |steps|)
  {
    var f0 := SharedIsSound(empty);
    fs, steps := UpToCharge(empty, f0, 119);
    var f, g := SecondExtracts(Reused(empty, FAR, 119), empty, FAR, REUSED);
    var last := Turn(2, Some(MiningEvent(2, ROCK, 1, 4)), false);
    Extend(fs, steps, f0, f, g, last);
    fs, steps := fs + [g], steps + [last];
    assert StaleDrawAt(fs, steps, BELT, |steps| - 1);
    OwnOreExactly(fs, steps, BELT, |steps|);
  }
}
