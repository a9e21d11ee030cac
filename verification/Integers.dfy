// Integer arithmetic the C++ code does its own way, and a few facts about products.
module Integers {

  // C++ division truncates toward zero.
  function TruncDiv(a: int, b: int): int
    requires b > 0
  {
    if a >= 0 then a / b else -((-a) / b)
  }

  // Detail::Spread of GalaxyGen.h: a hash spread over [-extent, extent].
  function Spread(h: nat, extent: int): int {
    if extent <= 0 then 0 else h % (2 * extent + 1) - extent
  }

  lemma MulLe(x: int, y: int, d: int)
    requires d >= 0
    ensures x <= y ==> x * d <= y * d
  {
  }

  lemma Quotients(a: int, d: int)
    requires a >= 0 && d > 0
    ensures a / d * d <= a < a / d * d + d
  {
  }

  lemma DivAtLeast(a: int, d: int, q: int)
    requires a >= 0 && d > 0 && q * d <= a
    ensures q <= a / d
  {
    Quotients(a, d);
    assert (a / d + 1) * d == a / d * d + d;
    MulLe(a / d + 1, q, d);
  }
}
