// Rounding to double precision, as binary64 arithmetic of IEEE 754 does it for positive
// results in the normal range: to the nearest of the multiples of the binade's unit, ties to
// the even one.
module Doubles {

  const MANTISSA: real := 4503599627370496.0            // 2^52
  const HALF_UNIT: real := 9007199254740992.0           // 2^53

  function Power(e: int): (r: real)
    ensures r > 0.0
    decreases if e < 0 then -e else e
  {
    if e == 0 then 1.0 else if e > 0 then 2.0 * Power(e - 1) else Power(e + 1) / 2.0
  }

  // The distance between neighbouring doubles from 2^e on.
  function Unit(e: int): (r: real)
    ensures r > 0.0
  {
    Power(e) / MANTISSA
  }

  ghost predicate InBinade(x: real, e: int) {
    Power(e) <= x < Power(e + 1)
  }

  // y is m units, no other multiple is nearer to x, and in a tie m is even.
  ghost predicate RoundsIn(x: real, y: real, e: int, m: int) {
    && InBinade(x, e) && y == m as real * Unit(e)
    && -Unit(e) <= 2.0 * (x - y) <= Unit(e)
    && (2.0 * (x - y) == Unit(e) || 2.0 * (x - y) == -Unit(e) ==> m % 2 == 0)
  }

  ghost predicate Rounds(x: real, y: real) {
    exists e: int, m: int :: RoundsIn(x, y, e, m)
  }

  lemma NextPower(e: int)
    ensures Power(e + 1) == 2.0 * Power(e)
  {
  }

  lemma {:induction false} PowersGrow(e: int, f: int)
    requires e <= f
    ensures Power(e) <= Power(f)
    decreases f - e
  {
    if e < f {
      PowersGrow(e, f - 1);
      NextPower(f - 1);
    }
  }

  lemma OneBinade(x: real, e: int, f: int)
    requires InBinade(x, e) && InBinade(x, f)
    ensures e == f
  {
    if e < f {
      PowersGrow(e + 1, f);
    } else if f < e {
      PowersGrow(f + 1, e);
    }
  }

  lemma Apart(m: int, n: int, unit: real, y: real, y': real)
    requires unit > 0.0 && m < n && y == m as real * unit && y' == n as real * unit
    ensures y' - y >= unit
    ensures y' - y <= unit ==> n == m + 1
  {
    var d := (n - m) as real;
    assert n as real == m as real + d;
    assert y' - y == d * unit;
    Scales(1.0, d, unit);
    if n > m + 1 {
      Scales(2.0, d, unit);
    }
  }

  lemma Scales(a: real, b: real, unit: real)
    requires a <= b && unit > 0.0
    ensures a * unit <= b * unit
  {
  }

  lemma NoOtherBelow(x: real, y: real, y': real, e: int, m: int, m': int)
    requires RoundsIn(x, y, e, m) && RoundsIn(x, y', e, m')
    ensures m >= m'
  {
    if m < m' {
      var unit := Unit(e);
      assert y' - y <= unit;
      Apart(m, m', unit, y, y');
      assert y' - y == unit;
      Parity(m, m');
    }
  }

  lemma Parity(m: int, n: int)
    ensures !(n == m + 1 && m % 2 == 0 && n % 2 == 0)
  {
  }

  lemma OnceIn(x: real, y: real, y': real, e: int, m: int, m': int)
    requires RoundsIn(x, y, e, m) && RoundsIn(x, y', e, m')
    ensures y == y'
  {
    NoOtherBelow(x, y, y', e, m, m');
    NoOtherBelow(x, y', y, e, m', m);
  }

  // The result is unique.
  lemma RoundsOnce(x: real, y: real, y': real)
    requires Rounds(x, y) && Rounds(x, y')
    ensures y == y'
  {
    var e, m :| RoundsIn(x, y, e, m);
    var e', m' :| RoundsIn(x, y', e', m');
    OneBinade(x, e, e');
    OnceIn(x, y, y', e, m, m');
  }

  // Its relative error is at most 2^-53.
  lemma RoundingError(x: real, y: real)
    requires Rounds(x, y)
    ensures x > 0.0 && -(x / HALF_UNIT) <= x - y <= x / HALF_UNIT
  {
    var e, m :| RoundsIn(x, y, e, m);
    assert Unit(e) / 2.0 == Power(e) / HALF_UNIT;
  }

  lemma {:induction false} BinadeExists(x: real, n: nat) returns (e: int)
    requires 0.5 <= x < Power(n)
    ensures InBinade(x, e)
    decreases n
  {
    e := n - 1;
    if n > 0 && x < Power(n - 1) {
      e := BinadeExists(x, n - 1);
    } else if n == 0 {
      assert Power(-1) == 0.5 && Power(0) == 1.0;
    }
  }

  // Every number from a half on has one.
  lemma RoundingExists(x: real, n: nat) returns (y: real)
    requires 0.5 <= x < Power(n)
    ensures Rounds(x, y)
  {
    var e := BinadeExists(x, n);
    var m := NearestMultiple(x, Unit(e));
    y := m as real * Unit(e);
    assert RoundsIn(x, y, e, m);
  }

  lemma NearestMultiple(x: real, unit: real) returns (m: int)
    requires unit > 0.0
    ensures -unit <= 2.0 * (x - m as real * unit) <= unit
    ensures 2.0 * (x - m as real * unit) == unit || 2.0 * (x - m as real * unit) == -unit ==> m % 2 == 0
  {
    var q := x / unit;
    assert x == q * unit;
    var low := q.Floor;
    var left := q - low as real;
    m := if left < 0.5 || (left == 0.5 && low % 2 == 0) then low else low + 1;
    var d := q - m as real;
    assert x - m as real * unit == d * unit;
    assert -0.5 <= d <= 0.5;
    Scaled(d, unit);
  }

  lemma Scaled(d: real, unit: real)
    requires unit > 0.0 && -0.5 <= d <= 0.5
    ensures -unit <= 2.0 * (d * unit) <= unit
    ensures 2.0 * (d * unit) == unit ==> d == 0.5
    ensures 2.0 * (d * unit) == -unit ==> d == -0.5
  {
    assert 2.0 * (d * unit) == (2.0 * d) * unit;
  }
}
