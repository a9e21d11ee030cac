// Which belts regenerate on a fixed phase within the interval.
module RegenPhase {
  import opened Bits
  import opened RegenStagger

  const ODD_PART: nat := 75    // SCENE_REGEN_INTERVAL is four times this

  // The belt is due at one and the same tick of every interval.
  ghost predicate HasPhase(poiId: nat) {
    exists phase: nat :: OnPhase(poiId, phase)
  }

  ghost predicate OnPhase(poiId: nat, phase: nat) {
    forall t: nat :: Due(poiId, t) <==> t % SCENE_REGEN_INTERVAL == phase
  }

  // One interval after a due tick there is another.
  ghost predicate Periodic(poiId: nat) {
    forall t: nat :: Due(poiId, t) ==> Due(poiId, t + SCENE_REGEN_INTERVAL)
  }

  // ---------------------------------------------------------------------------
  // The first four belts
  // ---------------------------------------------------------------------------

  lemma Quarter(n: nat)
    ensures Pow2(2) == 4 && n == Joined(n % 4, 2, n / 4)
  {
    assert Pow2(0) == 1 && Pow2(1) == 2;
  }

  lemma XorQuarters(a: nat, b: nat)
    ensures Xor(a, b) / 4 == Xor(a / 4, b / 4) && Xor(a, b) % 4 == Xor(a % 4, b % 4)
  {
    Quarter(a);
    Quarter(b);
    XorJoined(a % 4, b % 4, 2, a / 4, b / 4);
    XorBelow(a % 4, b % 4, 2);
  }

  lemma XorZeroExactly(a: nat, b: nat)
    ensures Xor(a, b) == 0 <==> a == b
  {
    XorSelf(a, a);
    XorSelf(a, b);
    XorSame(a);
  }

  lemma {:induction false} XorSame(a: nat)
    ensures Xor(a, a) == 0
  {
    if a > 0 {
      XorSame(a / 2);
      XorBits(a, a);
    }
  }

  // Belts 0 to 3 step exactly at their own id, every interval.
  lemma FirstBeltsOnPhase(poiId: nat, t: nat)
    requires poiId < 4
    ensures Due(poiId, t) <==> t % SCENE_REGEN_INTERVAL == poiId
  {
    XorQuarters(poiId, t);
    XorZero(t / 4);
    XorZeroExactly(poiId, t % 4);
    Interval(Xor(poiId, t), t, poiId);
  }

  lemma Interval(x: nat, t: nat, poiId: nat)
    requires poiId < 4 && x / 4 == t / 4 && (x % 4 == 0 <==> t % 4 == poiId)
    ensures x % 300 == 0 <==> t % 300 == poiId
  {
    var u := t / 4;
    InInterval(t, u / 75, u % 75, t % 4);
    InInterval(x, u / 75, u % 75, x % 4);
  }

  lemma InInterval(n: nat, k: nat, w: nat, v: nat)
    requires n == 4 * (75 * k + w) + v && w < 75 && v < 4
    ensures n % 300 == 4 * w + v
  {
    assert n == 300 * k + (4 * w + v);
  }

  // ---------------------------------------------------------------------------
  // All the others
  // ---------------------------------------------------------------------------

  predicate Divides75(n: int) {
    n % 75 == 0
  }

  lemma Multiple75(n: int, k: int)
    requires n == 75 * k
    ensures Divides75(n)
  {
  }

  lemma Quotient75(n: int) returns (k: int)
    requires Divides75(n)
    ensures n == 75 * k
  {
    k := n / 75;
  }

  // A periodic belt is due any number of intervals after its own id.
  lemma {:induction false} DueEver(poiId: nat, k: nat)
    requires Periodic(poiId)
    ensures Due(poiId, poiId + SCENE_REGEN_INTERVAL * k)
  {
    if k == 0 {
      XorSame(poiId);
    } else {
      DueEver(poiId, k - 1);
    }
  }

  lemma QuarterDue(poiId: nat, k: nat)
    requires Due(poiId, poiId + SCENE_REGEN_INTERVAL * k)
    ensures Divides75(Xor(poiId / 4, poiId / 4 + ODD_PART * k))
  {
    var t := poiId + SCENE_REGEN_INTERVAL * k;
    assert t / 4 == poiId / 4 + ODD_PART * k;
    XorQuarters(poiId, t);
    QuarterOf300(Xor(poiId, t));
  }

  lemma QuarterOf300(x: nat)
    requires x % 300 == 0
    ensures Divides75(x / 4)
  {
    var k := x / 300;
    assert x == 300 * k;
    Multiple75(x / 4, k);
  }

  // 75 is odd, so it reaches every remainder modulo a power of two.
  lemma {:induction false} Reaches(c: nat, m: nat) returns (k: nat, j: nat)
    ensures ODD_PART * k == Joined(c, m, j)
  {
    if m == 0 {
      k, j := c, 74 * c;
    } else {
      k, j := Reaches(c, m - 1);
      if j % 2 == 1 {
        JoinedMore(c, m - 1, j, ODD_PART);
        k, j := k + Pow2(m - 1), j + ODD_PART;
      }
      JoinedEven(c, m, j);
      j := j / 2;
    }
  }

  lemma JoinedMore(low: nat, k: nat, high: nat, more: nat)
    ensures Joined(low, k, high + more) == Joined(low, k, high) + more * Pow2(k)
  {
  }

  lemma JoinedEven(low: nat, k: nat, high: nat)
    requires k > 0 && high % 2 == 0
    ensures Joined(low, k - 1, high) == Joined(low, k, high / 2)
  {
    var h := high / 2;
    assert Pow2(k - 1) * (2 * h) == 2 * Pow2(k - 1) * h;
  }

  lemma FarXor(q: nat, e: nat, m: nat, j: nat)
    requires q < Pow2(m) && e < Pow2(m)
    ensures Xor(q, Joined(e, m, j)) == Joined(Xor(q, e), m, j)
  {
    JoinedZero(q, m);
    XorJoined(q, e, m, 0, j);
    XorZero(j);
  }

  lemma JoinedZero(low: nat, k: nat)
    ensures Joined(low, k, 0) == low
  {
  }

  // So for a periodic belt 75 divides (q ^ (q + c)) - c, whatever c is.
  lemma Shifted(poiId: nat, q: nat, c: nat, m: nat)
    requires Periodic(poiId) && q == poiId / 4 && q + c < Pow2(m)
    ensures Divides75(Xor(q, q + c) - c)
  {
    var k, j := Reaches(c, m);
    DueEver(poiId, k);
    QuarterDue(poiId, k);
    FarXor(q, q + c, m, j);
    assert q + ODD_PART * k == Joined(q + c, m, j);
    assert Joined(Xor(q, q + c), m, j) == Xor(q, q + c) - c + ODD_PART * k;
    Remainder(Xor(q, q + c) - c, k);
  }

  lemma Remainder(n: int, k: nat)
    requires Divides75(n + ODD_PART * k)
    ensures Divides75(n)
  {
    var i := Quotient75(n + ODD_PART * k);
    Multiple75(n, i - k);
  }

  lemma FlipAbove(q: nat, n: nat)
    requires q < Pow2(n)
    ensures Xor(q, Pow2(n)) == q + Pow2(n)
  {
    FarXor(q, 0, n, 1);
    XorCommutes(q, 0);
    XorZero(q);
  }

  lemma FlipBoth(r: nat, n: nat)
    requires r < Pow2(n)
    ensures Xor(Pow2(n) + r, 3 * Pow2(n)) == 2 * Pow2(n) + r
  {
    XorJoined(r, 0, n, 1, 3);
    XorCommutes(r, 0);
    XorZero(r);
    assert Xor(1, 3) == 2;
  }

  lemma Doubles(n: nat)
    ensures Pow2(n + 1) == 2 * Pow2(n)
  {
  }

  // With q of highest bit n and its other bits r: a c that turns q into 2^(n+1)...
  lemma ToNextPower(poiId: nat, n: nat, r: nat)
    requires Periodic(poiId) && poiId / 4 == Pow2(n) + r && r < Pow2(n)
    ensures Divides75(2 * (Pow2(n) + r))
  {
    var q := poiId / 4;
    Doubles(n);
    Doubles(n + 1);
    Shifted(poiId, q, Pow2(n + 1) - q, n + 2);
    FlipAbove(q, n + 1);
  }

  // ...and one that turns it into 2^(n+1) + 2^n.
  lemma PastNextPower(poiId: nat, n: nat, r: nat)
    requires Periodic(poiId) && poiId / 4 == Pow2(n) + r && r < Pow2(n)
    ensures Divides75(2 * r)
  {
    var q := poiId / 4;
    Doubles(n);
    Doubles(n + 1);
    Shifted(poiId, q, 3 * Pow2(n) - q, n + 2);
    FlipBoth(r, n);
  }

  lemma {:induction false} XorCommutes(a: nat, b: nat)
    ensures Xor(a, b) == Xor(b, a)
    decreases a + b
  {
    if a + b > 0 {
      XorCommutes(a / 2, b / 2);
      XorBits(a, b);
      XorBits(b, a);
    }
  }

  lemma {:induction false} PowersApart(n: nat)
    ensures Pow2(n) % 3 != 0
  {
    if n > 0 {
      PowersApart(n - 1);
    }
  }

  lemma NotPeriodic(poiId: nat)
    requires poiId >= 4
    ensures !Periodic(poiId)
  {
    if Periodic(poiId) {
      var n := HighestBit(poiId / 4);
      var r := poiId / 4 - Pow2(n);
      ToNextPower(poiId, n, r);
      PastNextPower(poiId, n, r);
      PowersApart(n + 1);
      Third(2 * (Pow2(n) + r), 2 * r);
    }
  }

  lemma Third(a: nat, b: nat)
    requires Divides75(a) && Divides75(b)
    ensures (a - b) % 3 == 0
  {
    var (i, j) := (a / 75, b / 75);
    Multiple3(a - b, 25 * (i - j));
  }

  lemma Multiple3(n: int, k: int)
    requires n == 3 * k
    ensures n % 3 == 0
  {
  }

  // A belt has a phase of its own, or even just steps one interval after each step, exactly
  // when its id is below 4.
  lemma PhaseExactly(poiId: nat)
    ensures Periodic(poiId) <==> poiId < 4
    ensures HasPhase(poiId) <==> poiId < 4
  {
    PhaseIsPeriodic(poiId);
    if poiId < 4 {
      FirstBeltsHavePhase(poiId);
    } else {
      NotPeriodic(poiId);
    }
  }

  lemma FirstBeltsHavePhase(poiId: nat)
    requires poiId < 4
    ensures OnPhase(poiId, poiId)
  {
    forall t: nat
      ensures Due(poiId, t) <==> t % SCENE_REGEN_INTERVAL == poiId
    {
      FirstBeltsOnPhase(poiId, t);
    }
  }

  lemma PhaseIsPeriodic(poiId: nat)
    ensures HasPhase(poiId) ==> Periodic(poiId)
  {
    if phase: nat :| OnPhase(poiId, phase) {
      forall t: nat | Due(poiId, t)
        ensures Due(poiId, t + SCENE_REGEN_INTERVAL)
      {
        assert (t + SCENE_REGEN_INTERVAL) % SCENE_REGEN_INTERVAL == t % SCENE_REGEN_INTERVAL;
      }
    }
  }
}
