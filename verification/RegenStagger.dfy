// The regeneration clock of SceneSystem.h: which ticks a belt's pool steps on, and how fast
// an unmined pool comes back.
module RegenStagger {
  import opened Bits

  const SCENE_REGEN_INTERVAL: nat := 300
  const SCENE_REGEN_PER_STEP: int := 2

  // ((poiId ^ tick) % SCENE_REGEN_INTERVAL) == 0
  predicate Due(poiId: nat, tick: nat) {
    Xor(poiId, tick) % SCENE_REGEN_INTERVAL == 0
  }

  // ---------------------------------------------------------------------------
  // Every aligned block of 512 ticks
  // ---------------------------------------------------------------------------

  const BLOCK: nat := 512

  lemma Eighth(a: nat)
    ensures a / 2 / 2 / 2 == a / 8
  {
  }

  lemma XorEighths(a: nat, b: nat, a': nat, b': nat)
    requires a' == a / 8 && b' == b / 8
    ensures Xor(a, b) / 8 == Xor(a', b')
  {
    Eighth(a);
    Eighth(b);
    Eighth(Xor(a, b));
    var (a1, b1) := (a / 2, b / 2);
    var (a2, b2) := (a1 / 2, b1 / 2);
    XorBits(a, b);
    XorBits(a1, b1);
    XorBits(a2, b2);
  }

  lemma Block(a: nat)
    ensures a / 8 / 8 / 8 == a / BLOCK
  {
  }

  // Xor acts on the blocks as on the ticks, so it permutes the ticks of each block into
  // those of another.
  lemma XorBlocks(a: nat, b: nat)
    ensures Xor(a, b) / BLOCK == Xor(a / BLOCK, b / BLOCK)
  {
    Block(a);
    Block(b);
    Block(Xor(a, b));
    var (a1, b1) := (a / 8, b / 8);
    var (a2, b2) := (a1 / 8, b1 / 8);
    XorEighths(a, b, a1, b1);
    XorEighths(a1, b1, a2, b2);
    XorEighths(a2, b2, a / BLOCK, b / BLOCK);
  }

  // Each belt steps at least once in every aligned block.
  lemma DueInEveryBlock(poiId: nat, block: nat) returns (tick: nat)
    ensures tick / BLOCK == block && Due(poiId, tick)
  {
    var there := Xor(poiId / BLOCK, block);
    var multiple := MultipleInBlock(there);
    tick := Xor(poiId, multiple);
    XorSelf(poiId, multiple);
    XorBlocks(poiId, multiple);
    XorSelf(poiId / BLOCK, block);
  }

  lemma MultipleNear(from: nat, steps: nat)
    requires steps == (from + 299) / 300
    ensures from <= steps * 300 < from + 300
    ensures steps * 300 % SCENE_REGEN_INTERVAL == 0
  {
  }

  lemma InBlock(block: nat, tick: nat)
    requires block * BLOCK <= tick < block * BLOCK + BLOCK
    ensures tick / BLOCK == block
  {
  }

  lemma MultipleInBlock(block: nat) returns (multiple: nat)
    ensures multiple / BLOCK == block && multiple % SCENE_REGEN_INTERVAL == 0
  {
    var from := block * BLOCK;
    var steps := (from + 299) / 300;
    multiple := steps * 300;
    MultipleNear(from, steps);
    InBlock(block, multiple);
  }

  // And at most twice.
  lemma DueAtMostTwice(poiId: nat, t0: nat, t1: nat, t2: nat)
    requires t0 / BLOCK == t1 / BLOCK == t2 / BLOCK
    requires Due(poiId, t0) && Due(poiId, t1) && Due(poiId, t2)
    ensures t0 == t1 || t1 == t2 || t0 == t2
  {
    XorBlocks(poiId, t0);
    XorBlocks(poiId, t1);
    XorBlocks(poiId, t2);
    var (x0, x1, x2) := (Xor(poiId, t0), Xor(poiId, t1), Xor(poiId, t2));
    TwoMultiples(x0, x1, x2);
    XorSelf(poiId, t0);
    XorSelf(poiId, t1);
    XorSelf(poiId, t2);
  }

  lemma TwoMultiples(x: nat, y: nat, z: nat)
    requires x % 300 == y % 300 == z % 300 == 0 && x / BLOCK == y / BLOCK == z / BLOCK
    ensures x == y || y == z || x == z
  {
    NextMultiple(x, y);
    NextMultiple(y, z);
    NextMultiple(x, z);
  }

  lemma NextMultiple(x: nat, y: nat)
    requires x % 300 == y % 300 == 0 && x / BLOCK == y / BLOCK
    ensures y == x || y == x + 300 || x == y + 300
  {
    var (i, j) := (x / 300, y / 300);
    assert x == 300 * i && y == 300 * j;
    assert -2 < i - j < 2;
  }

  // One more bit on the right.
  lemma XorStep(a: nat, b: nat, x: nat)
    requires Xor(a / 2, b / 2) == x
    ensures Xor(a, b) == 2 * x + (a + b) % 2
  {
    XorBits(a, b);
  }

  // Flipping the third bit.
  lemma Xor4(b: nat)
    ensures Xor(4, b) == if b / 4 % 2 == 0 then b + 4 else b - 4
  {
    XorZero(b / 8);
    XorStep(1, b / 4, b / 8);
    XorStep(2, b / 2, Xor(1, b / 4));
    XorStep(4, b, Xor(2, b / 2));
  }

  // A plain phase would step every SCENE_REGEN_INTERVAL ticks; these steps can come closer
  // together, and one interval after a step there need not be another.
  lemma StaggerIsNotPeriodic()
    ensures Due(4, 4) && Due(4, 296) && 296 - 4 < SCENE_REGEN_INTERVAL
    ensures !Due(4, 4 + SCENE_REGEN_INTERVAL)
  {
    Xor4(4);
    Xor4(296);
    Xor4(304);
  }

  // ---------------------------------------------------------------------------
  // Recovery
  // ---------------------------------------------------------------------------

  // One regeneration step of a pool.
  function Regenerated(units: int, baseline: int): int {
    if units >= baseline then units
    else if units + SCENE_REGEN_PER_STEP > baseline then baseline
    else units + SCENE_REGEN_PER_STEP
  }

  // An unmined pool after the n ticks from `start` on.
  ghost function Recover(poiId: nat, units: int, baseline: int, start: nat, n: nat): int {
    if n == 0 then units
    else
      var u := Recover(poiId, units, baseline, start, n - 1);
      if Due(poiId, start + n - 1) then Regenerated(u, baseline) else u
  }

  // It only rises, and never past its baseline.
  lemma {:induction false} RecoveryRises(poiId: nat, units: int, baseline: int, start: nat, m: nat, n: nat)
    requires units <= baseline && m <= n
    ensures Recover(poiId, units, baseline, start, m) <= Recover(poiId, units, baseline, start, n) <= baseline
    decreases n
  {
    if m < n {
      RecoveryRises(poiId, units, baseline, start, m, n - 1);
    } else if n > 0 {
      RecoveryRises(poiId, units, baseline, start, n - 1, n - 1);
    }
  }

  lemma RecoverStep(poiId: nat, units: int, baseline: int, start: nat, n: nat)
    requires Due(poiId, start + n)
    ensures Recover(poiId, units, baseline, start, n + 1) == Regenerated(Recover(poiId, units, baseline, start, n), baseline)
  {
  }

  // Over a stretch that holds a due tick, it gains a step or is full.
  lemma DueTickCounts(poiId: nat, units: int, baseline: int, start: nat, m: nat, n: nat, tick: nat)
    requires units <= baseline && start + m <= tick < start + n && Due(poiId, tick)
    ensures var (u, v) := (Recover(poiId, units, baseline, start, m), Recover(poiId, units, baseline, start, n));
            v == baseline || v >= u + SCENE_REGEN_PER_STEP
  {
    var at := tick - start;
    RecoverStep(poiId, units, baseline, start, at);
    RecoveryRises(poiId, units, baseline, start, m, at);
    RecoveryRises(poiId, units, baseline, start, at + 1, n);
  }

  lemma {:induction false} RecoveryRate(poiId: nat, units: int, baseline: int, block: nat, blocks: nat)
    requires units <= baseline
    ensures var u := Recover(poiId, units, baseline, block * BLOCK, blocks * BLOCK);
            u == baseline || u >= units + SCENE_REGEN_PER_STEP * blocks
  {
    if blocks > 0 {
      RecoveryRate(poiId, units, baseline, block, blocks - 1);
      var tick := DueInEveryBlock(poiId, block + blocks - 1);
      DueTickCounts(poiId, units, baseline, block * BLOCK, (blocks - 1) * BLOCK, blocks * BLOCK, tick);
      RecoveryRises(poiId, units, baseline, block * BLOCK, (blocks - 1) * BLOCK, blocks * BLOCK);
    }
  }

  lemma {:induction false} RecoverAdds(poiId: nat, units: int, baseline: int, start: nat, m: nat, n: nat)
    ensures Recover(poiId, units, baseline, start, m + n)
         == Recover(poiId, Recover(poiId, units, baseline, start, m), baseline, start + m, n)
  {
    if n > 0 {
      RecoverAdds(poiId, units, baseline, start, m, n - 1);
    }
  }

  // Ticks that bring back `missing` units wherever they begin: one block to reach the next
  // aligned one, then one for every step that is needed.
  function EnoughTicks(missing: int): int {
    (1 + (missing + 1) / SCENE_REGEN_PER_STEP) * BLOCK
  }

  // A stripped belt is full again after that many ticks.
  lemma RecoversInTime(poiId: nat, units: int, baseline: int, start: nat, n: nat)
    requires units <= baseline && n >= EnoughTicks(baseline - units)
    ensures Recover(poiId, units, baseline, start, n) == baseline
  {
    var block := start / BLOCK + 1;
    var lead := block * BLOCK - start;
    var blocks := (baseline - units + 1) / SCENE_REGEN_PER_STEP;
    var u := Recover(poiId, units, baseline, start, lead);
    RecoveryRises(poiId, units, baseline, start, 0, lead);
    RecoveryRate(poiId, u, baseline, block, blocks);
    RecoveryRises(poiId, u, baseline, block * BLOCK, 0, blocks * BLOCK);
    RecoverAdds(poiId, units, baseline, start, lead, blocks * BLOCK);
    RecoveryRises(poiId, units, baseline, start, lead + blocks * BLOCK, n);
  }
}
