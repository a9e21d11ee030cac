// The cargo hold and its tonnage, shared by trading, scooping and mining.
module Cargo {

  const COMMODITY_COUNT: nat := 17

  datatype Hold = Hold(units: seq<int>, capacity: int)

  // A hold with a slot for every commodity.
  predicate Stocked(h: Hold) {
    |h.units| == COMMODITY_COUNT
  }

  // Gold, platinum, gem-stones and alien items weigh nothing.
  predicate CountsAsTonnage(commodity: int) {
    0 <= commodity <= 12
  }

  // Tonnes among the first n commodities.
  ghost function TonnesIn(units: seq<int>, n: nat): int
    requires n <= |units|
  {
    if n == 0 then 0 else TonnesIn(units, n - 1) + if CountsAsTonnage(n - 1) then units[n - 1] else 0
  }

  ghost function Tonnage(h: Hold): int
    requires Stocked(h)
  {
    TonnesIn(h.units, COMMODITY_COUNT)
  }

  method TotalTonnage(units: seq<int>) returns (tonnes: int)
    requires |units| == COMMODITY_COUNT
    ensures tonnes == TonnesIn(units, COMMODITY_COUNT)
  {
    tonnes := 0;
    var i := 0;
    while i < COMMODITY_COUNT
      invariant 0 <= i <= COMMODITY_COUNT && tonnes == TonnesIn(units, i)
    {
      if CountsAsTonnage(i) {
        tonnes := tonnes + units[i];
      }
      i := i + 1;
    }
  }

  function Loaded(h: Hold, commodity: nat, qty: int): (r: Hold)
    requires Stocked(h) && commodity < COMMODITY_COUNT
    ensures Stocked(r) && r.capacity == h.capacity
  {
    h.(units := h.units[commodity := h.units[commodity] + qty])
  }

  lemma {:induction false} LoadedTonnes(units: seq<int>, commodity: nat, qty: int, n: nat)
    requires commodity < |units| && n <= |units|
    ensures TonnesIn(units[commodity := units[commodity] + qty], n)
         == TonnesIn(units, n) + if commodity < n && CountsAsTonnage(commodity) then qty else 0
  {
    if n > 0 {
      LoadedTonnes(units, commodity, qty, n - 1);
    }
  }

  // Loading weighs exactly what is loaded, and the weightless goods nothing.
  lemma LoadedTonnage(h: Hold, commodity: nat, qty: int)
    requires Stocked(h) && commodity < COMMODITY_COUNT
    ensures Tonnage(Loaded(h, commodity, qty)) == Tonnage(h) + if CountsAsTonnage(commodity) then qty else 0
  {
    LoadedTonnes(h.units, commodity, qty, COMMODITY_COUNT);
  }

  // Fuller than before only up to capacity.
  ghost predicate NotOverfilled(was: Hold, now: Hold) {
    Stocked(was) && Stocked(now) && now.capacity == was.capacity
    && (Tonnage(now) <= Tonnage(was) || Tonnage(now) <= now.capacity)
  }
}
