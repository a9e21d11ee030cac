// ^ on unsigned integers.
module Bits {

  function Xor(a: nat, b: nat): nat
    decreases a + b
  {
    if a == 0 && b == 0 then 0 else 2 * Xor(a / 2, b / 2) + (a + b) % 2
  }

  lemma XorBits(a: nat, b: nat)
    ensures Xor(a, b) / 2 == Xor(a / 2, b / 2) && Xor(a, b) % 2 == (a + b) % 2
  {
  }

  // Xor with the same number undoes itself.
  lemma {:induction false} XorSelf(a: nat, b: nat)
    ensures Xor(a, Xor(a, b)) == b
    decreases a + b
  {
    if a + b > 0 {
      var x := Xor(a, b);
      XorBits(a, b);
      XorBits(a, x);
      XorSelf(a / 2, b / 2);
      LastBit(a, b, x);
    }
  }

  lemma LastBit(a: nat, b: nat, x: nat)
    requires x % 2 == (a + b) % 2
    ensures (a + x) % 2 == b % 2
  {
  }

  function Pow2(k: nat): nat {
    if k == 0 then 1 else 2 * Pow2(k - 1)
  }

  // It stays within the width of its operands.
  lemma {:induction false} XorBelow(a: nat, b: nat, k: nat)
    requires a < Pow2(k) && b < Pow2(k)
    ensures Xor(a, b) < Pow2(k)
  {
    if k > 0 {
      XorBelow(a / 2, b / 2, k - 1);
      XorBits(a, b);
    }
  }

  // A number as its low k bits and the rest.
  function Joined(low: nat, k: nat, high: nat): nat {
    low + Pow2(k) * high
  }

  lemma JoinedHalves(low: nat, k: nat, high: nat)
    requires k > 0
    ensures Joined(low, k, high) / 2 == Joined(low / 2, k - 1, high) && Joined(low, k, high) % 2 == low % 2
  {
    var p := Pow2(k - 1) * high;
    assert Pow2(k) * high == 2 * p;
  }

  // Low bits and the rest do not mix.
  lemma {:induction false} XorJoined(a: nat, b: nat, k: nat, x: nat, y: nat)
    requires a < Pow2(k) && b < Pow2(k)
    ensures Xor(Joined(a, k, x), Joined(b, k, y)) == Joined(Xor(a, b), k, Xor(x, y))
  {
    if k == 0 {
      assert a == 0 && b == 0 && Xor(0, 0) == 0;
    } else {
      XorJoined(a / 2, b / 2, k - 1, x, y);
      JoinedHalves(a, k, x);
      JoinedHalves(b, k, y);
      JoinedHalves(Xor(a, b), k, Xor(x, y));
      XorBits(a, b);
      XorBits(Joined(a, k, x), Joined(b, k, y));
      SameHalves(Xor(Joined(a, k, x), Joined(b, k, y)), Joined(Xor(a, b), k, Xor(x, y)), a, b, Joined(a, k, x), Joined(b, k, y));
    }
  }

  lemma SameHalves(m: nat, n: nat, a: nat, b: nat, a': nat, b': nat)
    requires m / 2 == n / 2 && m % 2 == (a' + b') % 2 && n % 2 == (a + b) % 2 && a' % 2 == a % 2 && b' % 2 == b % 2
    ensures m == n
  {
  }

  lemma {:induction false} XorZero(b: nat)
    ensures Xor(0, b) == b
  {
    if b > 0 {
      XorZero(b / 2);
      XorBits(0, b);
    }
  }

  // Every positive number has a highest bit.
  lemma {:induction false} HighestBit(n: nat) returns (k: nat)
    requires n > 0
    ensures Pow2(k) <= n < Pow2(k + 1)
  {
    if n == 1 {
      k := 0;
    } else {
      k := HighestBit(n / 2);
      k := k + 1;
    }
  }
}
