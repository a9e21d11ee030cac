// TransformHistory.h: the fixed ring of past transforms behind lag compensation.
module TransformHistory {
  import opened Ecs
  import opened SpatialGrid
  import opened Doubles

  const LAGCOMP_HISTORY_TICKS: nat := 15

  datatype Nose = Nose(x: real, y: real, z: real)

  datatype Frame = Frame(generation: nat, position: Vec, nose: Nose)

  datatype Ring = Ring(slots: seq<Frame>, head: nat, count: nat)

  // A combat-relevant entity as a capture sees it; not every one has a Flight.
  datatype Tracked = Tracked(id: EntityId, position: Vec, flight: Option<Nose>)

  const NO_FRAME: Frame := Frame(0, Vec(0, 0, 0), Nose(0.0, 0.0, 1.0))

  function FrameOf(e: Tracked): Frame {
    Frame(e.id.generation, e.position, if e.flight.Some? then e.flight.value else Nose(0.0, 0.0, 1.0))
  }

  // ---------------------------------------------------------------------------
  // One ring against its unbounded log
  // ---------------------------------------------------------------------------

  function Min(a: nat, b: nat): nat {
    if a < b then a else b
  }

  // The slot that holds entry i of the log.
  function Slot(i: nat): nat {
    i % LAGCOMP_HISTORY_TICKS
  }

  // The ring holds the newest entries of the log, entry i in slot i modulo the ring.
  ghost predicate Holds(ring: Ring, log: seq<Frame>) {
    && |ring.slots| == LAGCOMP_HISTORY_TICKS
    && ring.head == Slot(|log|)
    && ring.count == Min(|log|, LAGCOMP_HISTORY_TICKS)
    && forall i: nat :: |log| - ring.count <= i < |log| ==> ring.slots[Slot(i)] == log[i]
  }

  function EmptyRing(): Ring {
    Ring(seq(LAGCOMP_HISTORY_TICKS, _ => NO_FRAME), 0, 0)
  }

  function Recorded(ring: Ring, f: Frame): Ring
    requires ring.head < |ring.slots|
  {
    Ring(ring.slots[ring.head := f], (ring.head + 1) % LAGCOMP_HISTORY_TICKS,
         if ring.count < LAGCOMP_HISTORY_TICKS then ring.count + 1 else ring.count)
  }

  // Distinct recent entries never share a slot.
  lemma SlotsApart(i: nat, j: nat)
    requires i < j < i + LAGCOMP_HISTORY_TICKS
    ensures Slot(i) != Slot(j)
  {
  }

  lemma RecordedHolds(ring: Ring, log: seq<Frame>, f: Frame)
    requires Holds(ring, log)
    ensures Holds(Recorded(ring, f), log + [f])
  {
    var r := Recorded(ring, f);
    forall i: nat | |log| + 1 - r.count <= i < |log| + 1
      ensures r.slots[Slot(i)] == (log + [f])[i]
    {
      if i < |log| {
        SlotsApart(i, |log|);
      }
    }
  }

  // ---------------------------------------------------------------------------
  // The lookup the ring stands for
  // ---------------------------------------------------------------------------

  // Entry `back` from the end, or the oldest of the last LAGCOMP_HISTORY_TICKS.
  function Rewound(log: seq<Frame>, back: nat): Frame
    requires log != []
  {
    log[|log| - 1 - Min(back, Min(|log|, LAGCOMP_HISTORY_TICKS) - 1)]
  }

  function Lookup(log: seq<Frame>, generation: nat, back: nat): Option<Frame> {
    if log == [] then None
    else if Rewound(log, back).generation != generation then None
    else Some(Rewound(log, back))
  }

  // Whatever is found was recorded for this very entity, within the last ring of captures.
  lemma LookupIsOwn(log: seq<Frame>, generation: nat, back: nat)
    ensures Lookup(log, generation, back).Some? ==>
              exists i: nat :: i < |log| < i + LAGCOMP_HISTORY_TICKS + 1 && log[i] == Lookup(log, generation, back).value
                && log[i].generation == generation
  {
    if log != [] {
      var i := |log| - 1 - Min(back, Min(|log|, LAGCOMP_HISTORY_TICKS) - 1);
      assert log[i] == Rewound(log, back);
    }
  }

  // After an index is recycled, the new tenant's history is found exactly as far back as it
  // reaches; past that the old tenant's frames are refused, not returned.
  lemma RecycledIndex(past: seq<Frame>, own: seq<Frame>, generation: nat, back: nat)
    requires past != [] && forall i :: 0 <= i < |past| ==> past[i].generation != generation
    requires forall i :: 0 <= i < |own| ==> own[i].generation == generation
    ensures var r := Lookup(past + own, generation, back);
            if back < |own| || LAGCOMP_HISTORY_TICKS <= |own|
            then r == Some(own[|own| - 1 - Min(back, LAGCOMP_HISTORY_TICKS - 1)]) else r == None
  {
    var log := past + own;
    var k := Min(back, Min(|log|, LAGCOMP_HISTORY_TICKS) - 1);
    if k < |own| {
      assert log[|log| - 1 - k] == own[|own| - 1 - k];
    } else {
      assert log[|log| - 1 - k] == past[|past| - 1 - (k - |own|)];
    }
  }

  // ---------------------------------------------------------------------------
  // How far to rewind
  // ---------------------------------------------------------------------------

  const EXACT_MS_PER_TICK: real := 1000.0 / 30.0
  const LAGCOMP_MS_PER_TICK: real := 4691249611844267.0 / 140737488355328.0    // as a double
  const LAGCOMP_INTERP_DELAY_MS: real := LAGCOMP_MS_PER_TICK

  lemma MsPerTickIs()
    ensures Rounds(EXACT_MS_PER_TICK, LAGCOMP_MS_PER_TICK)
  {
    Powers();
    assert RoundsIn(EXACT_MS_PER_TICK, LAGCOMP_MS_PER_TICK, 5, 4691249611844267);
  }

  lemma Powers()
    ensures Power(1) == 2.0 && Power(2) == 4.0 && Power(3) == 8.0 && Power(4) == 16.0 && Power(5) == 32.0
    ensures Power(6) == 64.0 && Power(7) == 128.0 && Power(8) == 256.0 && Power(9) == 512.0
  {
  }

  // The value of `back`, and of `back` and one half, with every operation rounded; halving the
  // round trip is exact.
  ghost predicate Evaluated(rttMs: nat, back: real, rounded: real) {
    exists sum: real :: EvaluatedBy(rttMs, sum, back, rounded)
  }

  ghost predicate EvaluatedBy(rttMs: nat, sum: real, back: real, rounded: real) {
    && Rounds(rttMs as real * 0.5 + LAGCOMP_INTERP_DELAY_MS, sum)
    && Rounds(sum / LAGCOMP_MS_PER_TICK, back)
    && Rounds(back + 0.5, rounded)
  }

  // LagCompTicks of these two values.
  function LagCompTicks(back: real, rounded: real): nat
    requires back > 0.0 ==> rounded >= 0.0
  {
    if back <= 0.0 then 0
    else
      var ticks := rounded.Floor;
      if ticks < LAGCOMP_HISTORY_TICKS then ticks else LAGCOMP_HISTORY_TICKS - 1
  }

  // Half the round trip plus one tick, to the nearest tick, a half counting up.
  function NearestTick(rttMs: nat): nat {
    (15 * rttMs + 1500) / 1000
  }

  // ---------------------------------------------------------------------------
  // Away from the half-way points
  // ---------------------------------------------------------------------------

  // The rewind before it is rounded, as the formula has it.
  function ExactBack(rttMs: nat): real {
    (rttMs as real * 0.5 + EXACT_MS_PER_TICK) / EXACT_MS_PER_TICK
  }

  // Off by less than a two-hundredth of a tick.
  ghost predicate Near(rttMs: nat, back: real, rounded: real) {
    var exact := ExactBack(rttMs);
    -0.005 < back - exact < 0.005 && -0.005 < rounded - (exact + 0.5) < 0.005
  }

  lemma ExactIs(rttMs: nat)
    ensures ExactBack(rttMs) + 0.5 == (15 * rttMs + 1500) as real / 1000.0
  {
  }

  // For a 32-bit round trip all rounding errors together stay within that.
  lemma EvaluationIsNear(rttMs: nat, sum: real, back: real, rounded: real)
    requires rttMs < 0x1_0000_0000 && EvaluatedBy(rttMs, sum, back, rounded)
    ensures Near(rttMs, back, rounded)
  {
    RoundingError(rttMs as real * 0.5 + LAGCOMP_INTERP_DELAY_MS, sum);
    RoundingError(sum / LAGCOMP_MS_PER_TICK, back);
    RoundingError(back + 0.5, rounded);
  }

  // Only a round trip of 100 ms more than a multiple of 200 is half way between two ticks;
  // any other is at least a two-hundredth away from it.
  lemma HalfWayExactly(rttMs: nat)
    ensures var left := (15 * rttMs + 1500) % 1000;
            (left == 0 <==> rttMs % 200 == 100) && (left != 0 ==> 5 <= left <= 995)
  {
    var (q, r) := (rttMs / 200, rttMs % 200);
    assert 15 * rttMs + 1500 == 1000 * (3 * q) + (15 * r + 1500);
    Shifted(3 * q, 15 * r + 1500);
  }

  lemma Shifted(k: nat, n: nat)
    ensures (1000 * k + n) % 1000 == n % 1000
  {
  }

  // The floor of what rounding made of exact + 1/2.
  lemma FloorNear(n: nat, x: real)
    requires -0.005 < x - n as real / 1000.0 < 0.005
    ensures 5 <= n % 1000 <= 995 ==> x.Floor == n / 1000
    ensures n % 1000 == 0 ==> x.Floor == n / 1000 || x.Floor == n / 1000 - 1
  {
    var (q, left) := (n / 1000, n % 1000);
    assert n as real / 1000.0 == q as real + left as real / 1000.0;
  }

  // Never less than one tick and never beyond the ring; and the nearest tick whatever the
  // rounding errors, except for four round trips that may fall to either side.
  lemma LagCompIsBounded(rttMs: nat, back: real, rounded: real)
    requires Near(rttMs, back, rounded)
    ensures back > 0.0 && rounded >= 0.0 && 1 <= LagCompTicks(back, rounded) <= LAGCOMP_HISTORY_TICKS - 1
    ensures rttMs !in {100, 300, 500, 700} ==> LagCompTicks(back, rounded) == Min(NearestTick(rttMs), LAGCOMP_HISTORY_TICKS - 1)
    ensures rttMs in {100, 300, 500, 700} ==>
              LagCompTicks(back, rounded) == NearestTick(rttMs) || LagCompTicks(back, rounded) == NearestTick(rttMs) - 1
  {
    ExactIs(rttMs);
    HalfWayExactly(rttMs);
    FloorNear(15 * rttMs + 1500, rounded);
  }

  // ---------------------------------------------------------------------------
  // At the half-way points
  // ---------------------------------------------------------------------------

  lemma EvaluatedOnce(rttMs: nat, sum: real, back: real, rounded: real, sum': real, back': real, rounded': real)
    requires EvaluatedBy(rttMs, sum, back, rounded) && EvaluatedBy(rttMs, sum', back', rounded')
    ensures sum == sum' && back == back' && rounded == rounded'
  {
    RoundsOnce(rttMs as real * 0.5 + LAGCOMP_INTERP_DELAY_MS, sum, sum');
    RoundsOnce(sum / LAGCOMP_MS_PER_TICK, back, back');
    RoundsOnce(back + 0.5, rounded, rounded');
  }

  // e, m of each of the three results.
  lemma EvaluatedTo(rttMs: nat, es: (int, int, int), ms: (int, int, int)) returns (sum: real, back: real, rounded: real)
    requires RoundsIn(rttMs as real * 0.5 + LAGCOMP_INTERP_DELAY_MS, ms.0 as real * Unit(es.0), es.0, ms.0)
    requires RoundsIn(ms.0 as real * Unit(es.0) / LAGCOMP_MS_PER_TICK, ms.1 as real * Unit(es.1), es.1, ms.1)
    requires RoundsIn(ms.1 as real * Unit(es.1) + 0.5, ms.2 as real * Unit(es.2), es.2, ms.2)
    ensures sum == ms.0 as real * Unit(es.0) && back == ms.1 as real * Unit(es.1) && rounded == ms.2 as real * Unit(es.2)
    ensures EvaluatedBy(rttMs, sum, back, rounded)
  {
    sum, back, rounded := ms.0 as real * Unit(es.0), ms.1 as real * Unit(es.1), ms.2 as real * Unit(es.2);
  }

  lemma At100() returns (sum: real, back: real, rounded: real)
    ensures EvaluatedBy(100, sum, back, rounded) && back > 0.0 && rounded.Floor == 3
  {
    Powers();
    sum, back, rounded := EvaluatedTo(100, (6, 1, 1), (5864062014805334, 5629499534213120, 6755399441055744));
  }

  lemma At300() returns (sum: real, back: real, rounded: real)
    ensures EvaluatedBy(300, sum, back, rounded) && back > 0.0 && rounded.Floor == 6
  {
    Powers();
    sum, back, rounded := EvaluatedTo(300, (7, 2, 2), (6450468216285867, 6192449487634432, 6755399441055744));
  }

  lemma At500() returns (sum: real, back: real, rounded: real)
    ensures EvaluatedBy(500, sum, back, rounded) && back > 0.0 && rounded.Floor == 8
  {
    Powers();
    sum, back, rounded := EvaluatedTo(500, (8, 3, 3), (4984452712584533, 4785074604081151, 5066549580791807));
  }

  lemma At700() returns (sum: real, back: real, rounded: real)
    ensures EvaluatedBy(700, sum, back, rounded) && back > 0.0 && rounded.Floor == 11
  {
    Powers();
    sum, back, rounded := EvaluatedTo(700, (8, 3, 3), (6743671317026133, 6473924464345087, 6755399441055743));
  }

  lemma HalfWayPoint(rttMs: nat) returns (sum: real, back: real, rounded: real)
    requires rttMs in {100, 300, 500, 700}
    ensures EvaluatedBy(rttMs, sum, back, rounded) && back > 0.0
    ensures rounded.Floor == NearestTick(rttMs) - if rttMs in {500, 700} then 1 else 0
  {
    if rttMs == 100 {
      sum, back, rounded := At100();
    } else if rttMs == 300 {
      sum, back, rounded := At300();
    } else if rttMs == 500 {
      sum, back, rounded := At500();
    } else {
      sum, back, rounded := At700();
    }
  }

  // For every 32-bit round trip: half of it plus one tick, to the nearest tick and never beyond
  // the ring, except that 500 and 700 ms, half way between two ticks, rewind one tick less.
  lemma LagCompExactly(rttMs: nat, back: real, rounded: real)
    requires rttMs < 0x1_0000_0000 && Evaluated(rttMs, back, rounded)
    ensures back > 0.0 && rounded >= 0.0
    ensures LagCompTicks(back, rounded)
         == if rttMs in {500, 700} then NearestTick(rttMs) - 1 else Min(NearestTick(rttMs), LAGCOMP_HISTORY_TICKS - 1)
  {
    var sum :| EvaluatedBy(rttMs, sum, back, rounded);
    EvaluationIsNear(rttMs, sum, back, rounded);
    LagCompIsBounded(rttMs, back, rounded);
    if rttMs in {100, 300, 500, 700} {
      var sum', back', rounded' := HalfWayPoint(rttMs);
      EvaluatedOnce(rttMs, sum, back, rounded, sum', back', rounded');
    }
  }

  // So it does at 500 ms: 8.5 ticks, of which arithmetic makes a little less, rewind 8.
  lemma HalfFallsShort() returns (back: real, rounded: real)
    ensures Evaluated(500, back, rounded) && back > 0.0 && rounded >= 0.0
    ensures NearestTick(500) == 9 && LagCompTicks(back, rounded) == 8
  {
    var sum;
    sum, back, rounded := At500();
  }

  // Every round trip has such an evaluation.
  lemma EvaluationExists(rttMs: nat) returns (back: real, rounded: real)
    requires rttMs < 0x1_0000_0000
    ensures Evaluated(rttMs, back, rounded)
  {
    PowerOf32();
    var x := rttMs as real * 0.5 + LAGCOMP_INTERP_DELAY_MS;
    var sum := RoundingExists(x, 32);
    RoundingError(x, sum);
    back := RoundingExists(sum / LAGCOMP_MS_PER_TICK, 32);
    RoundingError(sum / LAGCOMP_MS_PER_TICK, back);
    rounded := RoundingExists(back + 0.5, 32);
    assert EvaluatedBy(rttMs, sum, back, rounded);
  }

  lemma PowerOf32()
    ensures Power(32) == 4294967296.0
  {
    assert Power(8) == 256.0;
    assert Power(16) == 65536.0;
    assert Power(24) == 16777216.0;
  }

  // With a full ring behind it, such a rewind always lands on the capture it names.
  lemma LagCompLands(log: seq<Frame>, rttMs: nat, back: real, rounded: real)
    requires |log| >= LAGCOMP_HISTORY_TICKS && rttMs < 0x1_0000_0000 && Evaluated(rttMs, back, rounded)
    ensures back > 0.0 && rounded >= 0.0
    ensures Rewound(log, LagCompTicks(back, rounded)) == log[|log| - 1 - LagCompTicks(back, rounded)]
  {
    LagCompExactly(rttMs, back, rounded);
  }

  // ---------------------------------------------------------------------------
  // The history
  // ---------------------------------------------------------------------------

  // The logs after one capture of the first n entities.
  ghost function Logged(logs: map<nat, seq<Frame>>, entities: seq<Tracked>, n: nat): map<nat, seq<Frame>>
    requires n <= |entities|
  {
    if n == 0 then logs
    else
      var before := Logged(logs, entities, n - 1);
      var e := entities[n - 1];
      before[e.id.index := LogOf(before, e.id.index) + [FrameOf(e)]]
  }

  ghost function LogOf(logs: map<nat, seq<Frame>>, index: nat): seq<Frame> {
    if index in logs then logs[index] else []
  }

  // Entities of one capture have their own slots, so each log grows by its own frame and no
  // other changes.
  lemma {:induction false} CaptureAppends(logs: map<nat, seq<Frame>>, entities: seq<Tracked>, n: nat, index: nat)
    requires n <= |entities|
    requires forall i, j :: 0 <= i < j < |entities| ==> entities[i].id.index != entities[j].id.index
    ensures forall k :: 0 <= k < n && entities[k].id.index == index ==>
              LogOf(Logged(logs, entities, n), index) == LogOf(logs, index) + [FrameOf(entities[k])]
    ensures (forall k :: 0 <= k < n ==> entities[k].id.index != index) ==>
              LogOf(Logged(logs, entities, n), index) == LogOf(logs, index)
  {
    if n > 0 {
      CaptureAppends(logs, entities, n - 1, index);
    }
  }

  method Push(ring: Ring, f: Frame) returns (r: Ring)
    requires ring.head < |ring.slots|
    ensures r == Recorded(ring, f)
  {
    r := ring.(slots := ring.slots[ring.head := f]);
    r := r.(head := (r.head + 1) % LAGCOMP_HISTORY_TICKS);
    if r.count < LAGCOMP_HISTORY_TICKS {
      r := r.(count := r.count + 1);
    }
  }

  class History {
    var rings: map<nat, Ring>
    ghost var logs: map<nat, seq<Frame>>     // every capture there ever was, per index

    ghost predicate Valid()
      reads this
    {
      rings.Keys == logs.Keys && forall i :: i in rings ==> Holds(rings[i], logs[i])
    }

    constructor ()
      ensures Valid() && logs == map[]
    {
      rings, logs := map[], map[];
    }

    method Record(e: Tracked)
      requires Valid()
      modifies this
      ensures Valid() && logs == old(logs)[e.id.index := LogOf(old(logs), e.id.index) + [FrameOf(e)]]
    {
      var ring := if e.id.index in rings then rings[e.id.index] else EmptyRing();
      ghost var log := LogOf(logs, e.id.index);
      assert Holds(ring, log);
      var next := Push(ring, FrameOf(e));
      RecordedHolds(ring, log, FrameOf(e));
      rings := rings[e.id.index := next];
      logs := logs[e.id.index := log + [FrameOf(e)]];
    }

    // Capture, over the entities with WorldTransform and Combatant in pool order.
    method Capture(entities: seq<Tracked>)
      requires Valid()
      modifies this
      ensures Valid() && logs == Logged(old(logs), entities, |entities|)
    {
      var i := 0;
      while i < |entities|
        invariant 0 <= i <= |entities|
        invariant Valid() && logs == Logged(old(logs), entities, i)
      {
        Record(entities[i]);
        i := i + 1;
      }
    }

    // Sample, after any history of captures: exactly the lookup in the unbounded log.
    method Sample(id: EntityId, ticksBack: nat) returns (r: Option<Frame>)
      requires Valid()
      ensures r == Lookup(LogOf(logs, id.index), id.generation, ticksBack)
    {
      if id.index !in rings || rings[id.index].count == 0 {
        return None;
      }
      var ring := rings[id.index];
      var back := if ticksBack < ring.count then ticksBack else ring.count - 1;
      var idx := (ring.head + LAGCOMP_HISTORY_TICKS - 1 - back) % LAGCOMP_HISTORY_TICKS;
      SlotOfBack(|logs[id.index]|, back);
      var s := ring.slots[idx];
      if s.generation != id.generation {
        return None;
      }
      return Some(s);
    }

    method Clear()
      modifies this
      ensures Valid() && logs == map[]
    {
      rings, logs := map[], map[];
    }
  }

  lemma SlotOfBack(n: nat, back: nat)
    requires back < LAGCOMP_HISTORY_TICKS && back < n
    ensures (Slot(n) + LAGCOMP_HISTORY_TICKS - 1 - back) % LAGCOMP_HISTORY_TICKS == Slot(n - 1 - back)
  {
  }
}
