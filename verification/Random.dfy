// The portable generator of random.cpp: IX = 16807 * IX mod (2^31 - 1), computed
// by Schrage's method so that no intermediate leaves the signed 32-bit range.
module Random {
  import opened Integers

  const MODULUS: int := 2147483647        // 2^31 - 1
  const MULTIPLIER: int := 16807
  const QUOTIENT: int := 127773           // MODULUS / MULTIPLIER
  const REMAINDER: int := 2836            // MODULUS % MULTIPLIER
  const INVERSE: int := 1407677000        // MULTIPLIER * INVERSE == 1 modulo MODULUS

  predicate Int32(x: int) {
    -0x8000_0000 <= x < 0x8000_0000
  }

  // The recursion the comment in random.cpp promises.
  function Lehmer(seed: int): (r: int)
    ensures 0 <= r < MODULUS
  {
    (MULTIPLIER * seed) % MODULUS
  }

  class Generator {
    var randSeed: int

    constructor (seed: int)
      requires Int32(seed)
      ensures randSeed == seed
    {
      randSeed := seed;
    }

    // Every product, difference and sum is asserted to fit a signed 32-bit int, for
    // every 32-bit seed (set_rand_seed accepts any of them).
    method RandInt() returns (ix: int)
      requires Int32(randSeed)
      modifies this
      ensures ix == randSeed == Lehmer(old(randSeed))
      ensures Int32(randSeed)
    {
      ix := randSeed;
      var k1 := TruncDiv(ix, QUOTIENT);
      SchrageStep(ix, k1);
      assert Int32(k1) && Int32(k1 * QUOTIENT) && Int32(ix - k1 * QUOTIENT);
      assert Int32(MULTIPLIER * (ix - k1 * QUOTIENT)) && Int32(k1 * REMAINDER);
      ix := MULTIPLIER * (ix - k1 * QUOTIENT) - k1 * REMAINDER;
      assert Int32(ix);
      if ix < 0 {
        ix := ix + MODULUS;
      }
      assert Int32(ix);
      randSeed := ix;
    }
  }

  ghost function Raw(seed: int, k1: int): int {
    MULTIPLIER * (seed - k1 * QUOTIENT) - k1 * REMAINDER
  }

  // The arithmetic heart of the method: the two-term form is the product reduced by a
  // whole number of moduli, and lies strictly between -MODULUS and MODULUS.
  lemma SchrageStep(seed: int, k1: int)
    requires Int32(seed) && k1 == TruncDiv(seed, QUOTIENT)
    ensures -16807 <= k1 <= 16807
    ensures -QUOTIENT < seed - k1 * QUOTIENT < QUOTIENT
    ensures Raw(seed, k1) == MULTIPLIER * seed - k1 * MODULUS
    ensures -MODULUS < Raw(seed, k1) < MODULUS
    ensures Lehmer(seed) == if Raw(seed, k1) < 0 then Raw(seed, k1) + MODULUS else Raw(seed, k1)
  {
    var raw := Raw(seed, k1);
    var r := if raw < 0 then raw + MODULUS else raw;
    var q := if raw < 0 then k1 - 1 else k1;
    assert MULTIPLIER * seed == q * MODULUS + r;
    DivModUnique(MULTIPLIER * seed, q, r);
  }

  lemma DivModUnique(n: int, q: int, r: int)
    requires 0 <= r < MODULUS
    requires n == q * MODULUS + r
    ensures n % MODULUS == r && n / MODULUS == q
  {
  }

  // Multiplying back by the inverse recovers the seed: the step is injective.
  lemma InverseUndoesStep(seed: int)
    ensures (INVERSE * Lehmer(seed)) % MODULUS == seed % MODULUS
  {
    var n := MULTIPLIER * seed;
    var q := n / MODULUS;
    var s, m := seed / MODULUS, seed % MODULUS;
    assert INVERSE * MULTIPLIER == 11017 * MODULUS + 1;
    assert Lehmer(seed) == n - q * MODULUS;
    calc {
      INVERSE * Lehmer(seed);
      INVERSE * n - INVERSE * q * MODULUS;
      (11017 * MODULUS + 1) * seed - INVERSE * q * MODULUS;
      (11017 * seed - INVERSE * q) * MODULUS + seed;
      (11017 * seed - INVERSE * q + s) * MODULUS + m;
    }
    DivModUnique(INVERSE * Lehmer(seed), 11017 * seed - INVERSE * q + s, m);
  }

  // And the other way round: stepping the inverse product gives back the value.
  lemma StepUndoesInverse(value: int)
    ensures Lehmer((INVERSE * value) % MODULUS) == value % MODULUS
  {
    var n := INVERSE * value;
    var q := n / MODULUS;
    var s, m := value / MODULUS, value % MODULUS;
    assert INVERSE * MULTIPLIER == 11017 * MODULUS + 1;
    calc {
      MULTIPLIER * (n % MODULUS);
      MULTIPLIER * (n - q * MODULUS);
      (11017 * MODULUS + 1) * value - MULTIPLIER * q * MODULUS;
      (11017 * value - MULTIPLIER * q + s) * MODULUS + m;
    }
    DivModUnique(MULTIPLIER * (n % MODULUS), 11017 * value - MULTIPLIER * q + s, m);
  }

  predicate Healthy(seed: int) {
    1 <= seed < MODULUS
  }

  // A seed enters (or stays in) the healthy range exactly when it is not a multiple of
  // the modulus; 0 and +-(2^31 - 1) are the only 32-bit seeds that get stuck at zero.
  lemma HealthyExactly(seed: int)
    requires Int32(seed)
    ensures Healthy(Lehmer(seed)) <==> seed !in {0, MODULUS, -MODULUS}
    ensures !Healthy(Lehmer(seed)) ==> Lehmer(seed) == 0
  {
    InverseUndoesStep(seed);
    if seed in {0, MODULUS, -MODULUS} {
      assert MULTIPLIER * seed == 0 * MODULUS + 0
          || MULTIPLIER * seed == MULTIPLIER * MODULUS + 0
          || MULTIPLIER * seed == -MULTIPLIER * MODULUS + 0;
      if seed == MODULUS {
        DivModUnique(MULTIPLIER * seed, MULTIPLIER, 0);
      } else if seed == -MODULUS {
        DivModUnique(MULTIPLIER * seed, -MULTIPLIER, 0);
      }
    } else {
      assert seed % MODULUS != 0;
    }
  }

  // On the healthy range the step is a bijection onto the healthy range.
  lemma Bijection(value: int)
    requires Healthy(value)
    ensures Healthy((INVERSE * value) % MODULUS)
    ensures Lehmer((INVERSE * value) % MODULUS) == value
    ensures forall s :: Healthy(s) && Lehmer(s) == value ==> s == (INVERSE * value) % MODULUS
  {
    StepUndoesInverse(value);
    var back := (INVERSE * value) % MODULUS;
    assert Lehmer(0) == 0;
    forall s | Healthy(s) && Lehmer(s) == value
      ensures s == back
    {
      InverseUndoesStep(s);
    }
  }

  ghost function Iterate(seed: int, n: nat): int {
    if n == 0 then seed else Lehmer(Iterate(seed, n - 1))
  }

  ghost function Power(n: nat): int {
    if n == 0 then 1 else MULTIPLIER * Power(n - 1)
  }

  // Whole runs: a healthy seed stays healthy forever, and the n-th value has the closed
  // form 16807^n * seed reduced by the modulus.
  lemma {:induction false} RunClosedForm(seed: int, n: nat)
    requires Healthy(seed)
    ensures Healthy(Iterate(seed, n))
    ensures Iterate(seed, n) == (Power(n) * seed) % MODULUS
  {
    if n == 0 {
      assert Power(0) * seed == seed;
    } else {
      RunClosedForm(seed, n - 1);
      var prev := Iterate(seed, n - 1);
      HealthyExactly(prev);
      var p := Power(n - 1) * seed;
      var q := p / MODULUS;
      var r := MULTIPLIER * prev;
      assert Power(n) * seed == MULTIPLIER * p by {
        assert (MULTIPLIER * Power(n - 1)) * seed == MULTIPLIER * (Power(n - 1) * seed);
      }
      assert MULTIPLIER * p == (MULTIPLIER * q + r / MODULUS) * MODULUS + r % MODULUS by {
        assert p == q * MODULUS + prev;
        assert r == (r / MODULUS) * MODULUS + r % MODULUS;
      }
      DivModUnique(MULTIPLIER * p, MULTIPLIER * q + r / MODULUS, r % MODULUS);
    }
  }
}
