// The ore in a belt's rocks against the ore in its pool.
module BeltOre {
  import opened MapSums
  import opened SpatialGrid
  import opened Ecs
  import opened SceneSystem

  // Units in the rocks of one belt.
  ghost function RocksOf(f: Field, belt: nat): map<nat, int> {
    map r | r in f.ore && f.ore[r].beltAnchor == Some(belt) :: f.ore[r].units
  }

  ghost function OreIn(f: Field, belt: nat): int {
    Sum(RocksOf(f, belt))
  }

  // How many rocks a refill adds.
  ghost function Shortfall(f: Field, anchor: nat): nat
    requires Maintainable(f, anchor)
  {
    var live := |RocksInBox(f, f.position[anchor], f.poi[anchor].radius)|;
    var target := BeltRockTarget(f.pool[anchor]);
    if live < target then target - live else 0
  }

  lemma NewRock(f: Field, f': Field, anchor: nat, r: nat)
    requires Maintainable(f, anchor) && Maintained(f, f', anchor) && r in f'.live && r !in f.live
    ensures r in RocksOf(f', anchor) && RocksOf(f', anchor)[r] == PerRock(f.pool[anchor])
  {
    assert FreshRock(f', anchor, f.pool[anchor], r);
  }

  lemma OldRock(f: Field, f': Field, anchor: nat, r: nat)
    requires FieldOk(f) && Maintainable(f, anchor) && Maintained(f, f', anchor) && (r in f.live || r !in f'.live)
    ensures r in RocksOf(f', anchor) <==> r in RocksOf(f, anchor)
    ensures r in RocksOf(f, anchor) ==> RocksOf(f', anchor)[r] == RocksOf(f, anchor)[r]
  {
  }

  lemma Joined(now: map<nat, int>, was: map<nat, int>, added: map<nat, int>)
    requires forall r: nat :: r in now <==> r in was || r in added
    requires forall r: nat :: r in now ==> now[r] == if r in added then added[r] else was[r]
    ensures now == was + added
  {
  }

  // A refill adds the missing rocks to a belt's own, each with the belt's share.
  lemma NewRocks(f: Field, f': Field, anchor: nat) returns (added: map<nat, int>)
    requires FieldOk(f) && Maintainable(f, anchor) && Maintained(f, f', anchor)
    ensures RocksOf(f', anchor) == RocksOf(f, anchor) + added
    ensures forall r :: r in added ==> r !in RocksOf(f, anchor) && added[r] == PerRock(f.pool[anchor])
    ensures |added| == Shortfall(f, anchor)
  {
    var slots := f'.live - f.live;
    added := map r | r in slots :: PerRock(f.pool[anchor]);
    var (was, now) := (RocksOf(f, anchor), RocksOf(f', anchor));
    forall r: nat
      ensures r in now <==> r in was || r in added
      ensures r in now ==> now[r] == if r in added then added[r] else was[r]
    {
      if r in slots {
        NewRock(f, f', anchor, r);
      } else {
        OldRock(f, f', anchor, r);
      }
    }
    Joined(now, was, added);
    NewSlots(f, f', anchor);
    assert added.Keys == slots;
  }

  lemma NewSlots(f: Field, f': Field, anchor: nat)
    requires Maintainable(f, anchor) && Maintained(f, f', anchor)
    ensures |f'.live - f.live| == Shortfall(f, anchor)
  {
    assert f'.live == f.live + (f'.live - f.live);
  }

  // So it adds their ore to the field, and no more.
  lemma RefillAddsOre(f: Field, f': Field, anchor: nat)
    requires FieldOk(f) && Maintainable(f, anchor) && Maintained(f, f', anchor)
    ensures OreIn(f', anchor) == OreIn(f, anchor) + Shortfall(f, anchor) * PerRock(f.pool[anchor])
  {
    var added := NewRocks(f, f', anchor);
    SumJoin(RocksOf(f, anchor), added);
    SumConst(added, PerRock(f.pool[anchor]));
  }

  // A belt's first field, scattered where there is no rock yet.
  ghost predicate Materialized(f: Field, f': Field, anchor: nat) {
    && FieldOk(f) && Maintainable(f, anchor) && Maintained(f, f', anchor)
    && RocksInBox(f, f.position[anchor], f.poi[anchor].radius) == {} && RocksOf(f, anchor) == map[]
  }

  lemma MaterializedOre(f: Field, f': Field, anchor: nat)
    requires Materialized(f, f', anchor)
    ensures OreIn(f', anchor) == Advertised(f.pool[anchor])
  {
    RefillAddsOre(f, f', anchor);
    SumZero(RocksOf(f, anchor));
    assert Shortfall(f, anchor) == BeltRockTarget(f.pool[anchor]);
  }

  // It promises no more than the pool holds, unless there are more rocks than units.
  lemma FieldFits(f: Field, f': Field, anchor: nat)
    requires Materialized(f, f', anchor)
    ensures OreIn(f', anchor) <= f.pool[anchor].units <==> BeltRockTarget(f.pool[anchor]) <= f.pool[anchor].units
  {
    MaterializedOre(f, f', anchor);
    assert PoolOk(f.pool[anchor]);
    AdvertisedFits(f.pool[anchor]);
  }

  // ---------------------------------------------------------------------------
  // Every field of a given baseline
  // ---------------------------------------------------------------------------

  lemma {:induction false} FreeSlotExists(live: set<nat>) returns (e: nat)
    ensures forall i :: i in live ==> i < e
    decreases |live|
  {
    if live == {} {
      e := 0;
    } else {
      var i :| i in live;
      e := FreeSlotExists(live - {i});
      e := if e <= i then i + 1 else e;
      forall j | j in live
        ensures j < e
      {
        assert j == i || j in live - {i};
      }
    }
  }

  // Any number of rocks can be added...
  lemma {:induction false} CanRefill(f: Field, anchor: nat, k: nat) returns (f': Field)
    requires FieldOk(f) && Maintainable(f, anchor)
    ensures Refilling(f, f', anchor, k)
    decreases k
  {
    if k == 0 {
      f' := f;
    } else {
      var g := CanRefill(f, anchor, k - 1);
      var e := FreeSlotExists(g.live);
      var at := f.position[anchor];
      assert PoolOk(f.pool[anchor]) && PerRock(f.pool[anchor]) >= 0;
      RefillStep(f, g, anchor, k - 1, e, at);
      f' := Spawned(g, e, at, OreBody(f.pool[anchor].commodity, PerRock(f.pool[anchor]), Some(anchor)));
    }
  }

  // ...so every belt can be maintained.
  lemma CanMaintain(f: Field, anchor: nat) returns (f': Field)
    requires FieldOk(f)
    ensures Maintained(f, f', anchor)
  {
    if Maintainable(f, anchor) {
      f' := CanRefill(f, anchor, Shortfall(f, anchor));
    } else {
      f' := f;
    }
  }

  // One belt with a full pool and nothing else.
  lemma FullBelt(baseline: int, commodity: nat) returns (f: Field, f': Field)
    requires baseline > 0 && PoolOk(PoiResources(baseline, baseline, commodity))
    ensures Materialized(f, f', 1) && f.pool[1] == PoiResources(baseline, baseline, commodity)
  {
    f := Field({1}, map[1 := Vec(0, 0, 0)], map[1 := ScenePoi(0, true, 0, 0)], map[1 := PoiResources(baseline, baseline, commodity)],
               map[], map[], map[], map[], {});
    f' := CanMaintain(f, 1);
  }

  // No belt of this baseline, however depleted, ever shows more ore than its pool holds.
  ghost predicate NeverOverpromises(baseline: int) {
    forall f, f', anchor :: Materialized(f, f', anchor) && f.pool[anchor].baseline == baseline ==>
      OreIn(f', anchor) <= f.pool[anchor].units
  }

  // That is so exactly when the baseline is at least the rock cap.
  lemma NeverOverpromisesExactly(baseline: int)
    requires baseline > 0
    ensures NeverOverpromises(baseline) <==> baseline >= BELT_MAX_ROCKS
  {
    if baseline < BELT_MAX_ROCKS {
      var f, f' := FullBelt(baseline, 0);
      FullBeltFullField(f.pool[1]);
      FieldFits(f, f', 1);
      assert !NeverOverpromises(baseline);
    } else {
      forall f, f', anchor | Materialized(f, f', anchor) && f.pool[anchor].baseline == baseline
        ensures OreIn(f', anchor) <= f.pool[anchor].units
      {
        FieldFits(f, f', anchor);
        assert PoolOk(f.pool[anchor]);
        TargetFits(f.pool[anchor]);
      }
    }
  }
}
