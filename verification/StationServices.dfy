// BuyCommodity and SellCommodity of StationServices.h, and a station many players trade at.
module StationServices {
  import opened Cargo

  datatype Status = Ok | NotDocked | BadCommodity | NoStock | NotEnoughCredits | HoldFull | NoCargo

  datatype TradeResult = TradeResult(status: Status, credits: int, cargo: int)

  datatype MarketEntry = MarketEntry(price: int, quantity: int)

  // What one trade can see and change.
  datatype Deal = Deal(credits: int, hold: Hold, market: seq<MarketEntry>)

  predicate DealOk(d: Deal) {
    Stocked(d.hold) && |d.market| == COMMODITY_COUNT
  }

  predicate Listed(commodity: int, qty: int) {
    0 <= commodity < COMMODITY_COUNT && qty > 0
  }

  // `qty` units change hands, out of the market into the hold; negative to sell.
  function Moved(d: Deal, c: nat, qty: int): Deal
    requires DealOk(d) && c < COMMODITY_COUNT
  {
    Deal(d.credits - d.market[c].price * qty, Loaded(d.hold, c, qty),
         d.market[c := d.market[c].(quantity := d.market[c].quantity - qty)])
  }

  ghost function Buy(d: Deal, docked: bool, commodity: int, qty: int): (Deal, Status)
    requires DealOk(d)
  {
    if !docked then (d, NotDocked)
    else if !Listed(commodity, qty) then (d, BadCommodity)
    else if d.market[commodity].quantity < qty then (d, NoStock)
    else if d.credits < d.market[commodity].price * qty then (d, NotEnoughCredits)
    else if CountsAsTonnage(commodity) && Tonnage(d.hold) + qty > d.hold.capacity then (d, HoldFull)
    else (Moved(d, commodity, qty), Ok)
  }

  ghost function Sell(d: Deal, docked: bool, commodity: int, qty: int): (Deal, Status)
    requires DealOk(d)
  {
    if !docked then (d, NotDocked)
    else if !Listed(commodity, qty) then (d, BadCommodity)
    else if d.hold.units[commodity] < qty then (d, NoCargo)
    else (Moved(d, commodity, -qty), Ok)
  }

  class Wallet {
    var credits: int

    constructor (c: int)
      ensures credits == c
    {
      credits := c;
    }
  }

  class CargoHold {
    const units: array<int>
    var capacity: int

    constructor (tonnes: int)
      ensures fresh(units) && units.Length == COMMODITY_COUNT && capacity == tonnes
      ensures forall i :: 0 <= i < units.Length ==> units[i] == 0
    {
      units := new int[COMMODITY_COUNT](_ => 0);
      capacity := tonnes;
    }

    ghost function Value(): Hold
      reads this, units
    {
      Hold(units[..], capacity)
    }
  }

  ghost function DealOf(wallet: Wallet, hold: CargoHold, market: array<MarketEntry>): Deal
    reads wallet, hold, hold.units, market
  {
    Deal(wallet.credits, hold.Value(), market[..])
  }

  method BuyCommodity(wallet: Wallet, hold: CargoHold, market: array<MarketEntry>, docked: bool, commodity: int, qty: int)
    returns (r: TradeResult)
    requires hold.units.Length == COMMODITY_COUNT == market.Length
    modifies wallet, hold.units, market
    ensures (DealOf(wallet, hold, market), r.status) == Buy(old(DealOf(wallet, hold, market)), docked, commodity, qty)
    ensures r.credits == wallet.credits
    ensures r.cargo == if docked && Listed(commodity, qty) then hold.units[commodity] else 0
  {
    r := TradeResult(Ok, wallet.credits, 0);
    if !docked {
      return r.(status := NotDocked);
    }
    if commodity < 0 || commodity >= COMMODITY_COUNT || qty <= 0 {
      return r.(status := BadCommodity);
    }
    r := r.(cargo := hold.units[commodity]);
    if market[commodity].quantity < qty {
      return r.(status := NoStock);
    }
    var cost := market[commodity].price * qty;
    if wallet.credits < cost {
      return r.(status := NotEnoughCredits);
    }
    var tonnes := TotalTonnage(hold.units[..]);
    if CountsAsTonnage(commodity) && tonnes + qty > hold.capacity {
      return r.(status := HoldFull);
    }
    wallet.credits := wallet.credits - cost;
    hold.units[commodity] := hold.units[commodity] + qty;
    market[commodity] := market[commodity].(quantity := market[commodity].quantity - qty);
    return TradeResult(Ok, wallet.credits, hold.units[commodity]);
  }

  method SellCommodity(wallet: Wallet, hold: CargoHold, market: array<MarketEntry>, docked: bool, commodity: int, qty: int)
    returns (r: TradeResult)
    requires hold.units.Length == COMMODITY_COUNT == market.Length
    modifies wallet, hold.units, market
    ensures (DealOf(wallet, hold, market), r.status) == Sell(old(DealOf(wallet, hold, market)), docked, commodity, qty)
    ensures r.credits == wallet.credits
    ensures r.cargo == if docked && Listed(commodity, qty) then hold.units[commodity] else 0
  {
    r := TradeResult(Ok, wallet.credits, 0);
    if !docked {
      return r.(status := NotDocked);
    }
    if commodity < 0 || commodity >= COMMODITY_COUNT || qty <= 0 {
      return r.(status := BadCommodity);
    }
    r := r.(cargo := hold.units[commodity]);
    if hold.units[commodity] < qty {
      return r.(status := NoCargo);
    }
    SellPrice(market[commodity].price, qty);
    wallet.credits := wallet.credits + market[commodity].price * qty;
    hold.units[commodity] := hold.units[commodity] - qty;
    market[commodity] := market[commodity].(quantity := market[commodity].quantity + qty);
    return TradeResult(Ok, wallet.credits, hold.units[commodity]);
  }

  lemma SellPrice(price: int, qty: int)
    ensures price * -qty == -(price * qty)
  {
  }

  // ---------------------------------------------------------------------------
  // Round trips
  // ---------------------------------------------------------------------------

  // Selling what was just bought restores every credit, unit and item of stock, unless
  // the hold owed units of it before.
  lemma SellUndoesBuy(d: Deal, commodity: int, qty: int)
    requires DealOk(d) && Buy(d, true, commodity, qty).1 == Ok
    ensures Sell(Buy(d, true, commodity, qty).0, true, commodity, qty) == (d, Ok) <==> d.hold.units[commodity] >= 0
  {
    SellPrice(d.market[commodity].price, qty);
    var back := Moved(Moved(d, commodity, qty), commodity, -qty);
    assert back.hold.units == d.hold.units;
    assert back.market == d.market;
  }

  // Buying back what was just sold does too, exactly when stock and credits were not in
  // debt and a hold that counts was not overloaded.
  lemma BuyUndoesSell(d: Deal, commodity: int, qty: int)
    requires DealOk(d) && Sell(d, true, commodity, qty).1 == Ok
    ensures Buy(Sell(d, true, commodity, qty).0, true, commodity, qty) == (d, Ok)
       <==> d.market[commodity].quantity >= 0 && d.credits >= 0
            && (CountsAsTonnage(commodity) ==> Tonnage(d.hold) <= d.hold.capacity)
  {
    SellPrice(d.market[commodity].price, qty);
    LoadedTonnage(d.hold, commodity, -qty);
    var back := Moved(Moved(d, commodity, -qty), commodity, qty);
    assert back.hold.units == d.hold.units;
    assert back.market == d.market;
  }

  // ---------------------------------------------------------------------------
  // One station, many players
  // ---------------------------------------------------------------------------

  datatype Trader = Trader(credits: int, hold: Hold)

  datatype Station = Station(traders: seq<Trader>, market: seq<MarketEntry>)

  datatype Order = BuyOrder(player: nat, docked: bool, commodity: int, qty: int)
                 | SellOrder(player: nat, docked: bool, commodity: int, qty: int)

  ghost predicate StationOk(s: Station) {
    |s.market| == COMMODITY_COUNT && forall p: nat :: p < |s.traders| ==> Stocked(s.traders[p].hold)
  }

  ghost function Execute(s: Station, o: Order): (r: Station)
    requires StationOk(s)
    ensures StationOk(r) && |r.traders| == |s.traders|
  {
    if o.player >= |s.traders| then s
    else
      var t := s.traders[o.player];
      var d := Deal(t.credits, t.hold, s.market);
      var d' := if o.BuyOrder? then Buy(d, o.docked, o.commodity, o.qty).0 else Sell(d, o.docked, o.commodity, o.qty).0;
      Station(s.traders[o.player := Trader(d'.credits, d'.hold)], d'.market)
  }

  ghost function ExecuteAll(s: Station, orders: seq<Order>): (r: Station)
    requires StationOk(s)
    ensures StationOk(r) && |r.traders| == |s.traders|
  {
    if orders == [] then s else Execute(ExecuteAll(s, orders[..|orders| - 1]), orders[|orders| - 1])
  }

  // Units of one commodity held by the first n players.
  ghost function Held(traders: seq<Trader>, c: nat, n: nat): int
    requires n <= |traders| && c < COMMODITY_COUNT && forall p: nat :: p < n ==> Stocked(traders[p].hold)
  {
    if n == 0 then 0
    else
      assert Stocked(traders[n - 1].hold);
      Held(traders, c, n - 1) + traders[n - 1].hold.units[c]
  }

  // Everything of one commodity there is, in the holds and in the market.
  ghost function Supply(s: Station, c: nat): int
    requires StationOk(s) && c < COMMODITY_COUNT
  {
    Held(s.traders, c, |s.traders|) + s.market[c].quantity
  }

  ghost function Worth(units: seq<int>, market: seq<MarketEntry>, n: nat): int
    requires n <= |units| && n <= |market|
  {
    if n == 0 then 0 else Worth(units, market, n - 1) + market[n - 1].price * units[n - 1]
  }

  // A player's credits and cargo at the station's prices.
  ghost function Wealth(s: Station, p: nat): int
    requires StationOk(s) && p < |s.traders|
  {
    s.traders[p].credits + Worth(s.traders[p].hold.units, s.market, COMMODITY_COUNT)
  }

  ghost predicate Solvent(s: Station) {
    && (forall c: nat :: c < |s.market| ==> s.market[c].price >= 0 && s.market[c].quantity >= 0)
    && (forall p: nat :: p < |s.traders| ==> s.traders[p].credits >= 0 && forall c: nat :: c < |s.traders[p].hold.units| ==>
          s.traders[p].hold.units[c] >= 0)
  }

  ghost predicate WithinCapacity(s: Station, p: nat)
    requires StationOk(s) && p < |s.traders|
  {
    Tonnage(s.traders[p].hold) <= s.traders[p].hold.capacity
  }

  // An executed order moves one commodity between one hold and the market, or nothing.
  lemma ExecuteMoves(s: Station, o: Order) returns (c: nat, qty: int)
    requires StationOk(s)
    ensures Execute(s, o) == s
         || (o.player < |s.traders| && c < COMMODITY_COUNT
             && var t := s.traders[o.player];
                var d := Moved(Deal(t.credits, t.hold, s.market), c, qty);
                Execute(s, o) == Station(s.traders[o.player := Trader(d.credits, d.hold)], d.market)
                && (if qty > 0 then s.market[c].quantity >= qty && t.credits >= s.market[c].price * qty
                                    && (CountsAsTonnage(c) ==> Tonnage(t.hold) + qty <= t.hold.capacity)
                    else t.hold.units[c] >= -qty))
  {
    c, qty := 0, 0;
    if o.player < |s.traders| {
      var t := s.traders[o.player];
      if Listed(o.commodity, o.qty) {
        c := o.commodity;
        qty := if o.BuyOrder? then o.qty else -o.qty;
      }
      assert s.traders[o.player := Trader(t.credits, t.hold)] == s.traders;
    }
  }

  lemma {:induction false} HeldMoved(traders: seq<Trader>, p: nat, t: Trader, c: nat, n: nat)
    requires n <= |traders| && p < |traders| && c < COMMODITY_COUNT && Stocked(t.hold)
    requires forall q: nat :: q < |traders| ==> Stocked(traders[q].hold)
    ensures Held(traders[p := t], c, n)
         == Held(traders, c, n) + if p < n then t.hold.units[c] - traders[p].hold.units[c] else 0
  {
    if n > 0 {
      HeldMoved(traders, p, t, c, n - 1);
    }
  }

  lemma {:induction false} WorthMoved(units: seq<int>, market: seq<MarketEntry>, market': seq<MarketEntry>, c: nat, qty: int, n: nat)
    requires n <= |units| == |market| == |market'| && c < |units|
    requires forall k: nat :: k < |market| ==> market'[k].price == market[k].price
    ensures Worth(units[c := units[c] + qty], market', n)
         == Worth(units, market, n) + if c < n then market[c].price * qty else 0
  {
    if n > 0 {
      WorthMoved(units, market, market', c, qty, n - 1);
      if c == n - 1 {
        assert market[c].price * (units[c] + qty) == market[c].price * units[c] + market[c].price * qty;
      }
    }
  }

  // One order conserves everything there is to conserve.
  lemma ExecuteConserves(s: Station, o: Order)
    requires StationOk(s)
    ensures forall c: nat :: c < COMMODITY_COUNT ==> Supply(Execute(s, o), c) == Supply(s, c)
    ensures forall p: nat :: p < |s.traders| ==> Wealth(Execute(s, o), p) == Wealth(s, p)
    ensures forall c: nat :: c < COMMODITY_COUNT ==> Execute(s, o).market[c].price == s.market[c].price
    ensures forall p: nat :: p < |s.traders| ==> Execute(s, o).traders[p].hold.capacity == s.traders[p].hold.capacity
  {
    var c, qty := ExecuteMoves(s, o);
    var s' := Execute(s, o);
    if s' != s {
      var t := s.traders[o.player];
      var d := Moved(Deal(t.credits, t.hold, s.market), c, qty);
      forall k: nat | k < COMMODITY_COUNT
        ensures Supply(s', k) == Supply(s, k)
      {
        HeldMoved(s.traders, o.player, Trader(d.credits, d.hold), k, |s.traders|);
      }
      forall p: nat | p < |s.traders|
        ensures Wealth(s', p) == Wealth(s, p)
      {
        var was := s.traders[p].hold.units;
        assert was == was[c := was[c] + 0];
        WorthMoved(was, s.market, s'.market, c, if p == o.player then qty else 0, COMMODITY_COUNT);
      }
    }
  }

  lemma ExecuteKeepsSolvent(s: Station, o: Order)
    requires StationOk(s) && Solvent(s)
    ensures Solvent(Execute(s, o))
  {
    var c, qty := ExecuteMoves(s, o);
    if Execute(s, o) != s {
      Cost(s.market[c].price, qty);
    }
  }

  lemma Cost(price: int, qty: int)
    requires price >= 0
    ensures qty <= 0 ==> price * qty <= 0
  {
  }

  lemma ExecuteKeepsCapacity(s: Station, o: Order, p: nat)
    requires StationOk(s) && Solvent(s) && p < |s.traders| && WithinCapacity(s, p)
    ensures WithinCapacity(Execute(s, o), p)
  {
    var c, qty := ExecuteMoves(s, o);
    if Execute(s, o) != s && p == o.player {
      LoadedTonnage(s.traders[p].hold, c, qty);
    }
  }

  // Whatever the players do, in whatever order: no unit appears or vanishes, no player
  // gains or loses wealth at the station's prices, and the prices never move.
  lemma {:induction false} TradingConserves(s: Station, orders: seq<Order>)
    requires StationOk(s)
    ensures forall c: nat :: c < COMMODITY_COUNT ==> Supply(ExecuteAll(s, orders), c) == Supply(s, c)
    ensures forall p: nat :: p < |s.traders| ==> Wealth(ExecuteAll(s, orders), p) == Wealth(s, p)
    ensures forall c: nat :: c < COMMODITY_COUNT ==> ExecuteAll(s, orders).market[c].price == s.market[c].price
  {
    if orders != [] {
      TradingConserves(s, orders[..|orders| - 1]);
      ExecuteConserves(ExecuteAll(s, orders[..|orders| - 1]), orders[|orders| - 1]);
    }
  }

  // And nobody ends in debt, sells what is not there, or overloads a hold.
  lemma {:induction false} TradingStaysSound(s: Station, orders: seq<Order>)
    requires StationOk(s) && Solvent(s)
    ensures Solvent(ExecuteAll(s, orders))
    ensures forall p: nat :: p < |s.traders| && WithinCapacity(s, p) ==> WithinCapacity(ExecuteAll(s, orders), p)
  {
    if orders != [] {
      var before := ExecuteAll(s, orders[..|orders| - 1]);
      TradingStaysSound(s, orders[..|orders| - 1]);
      ExecuteKeepsSolvent(before, orders[|orders| - 1]);
      forall p: nat | p < |s.traders| && WithinCapacity(before, p)
        ensures WithinCapacity(ExecuteAll(s, orders), p)
      {
        ExecuteKeepsCapacity(before, orders[|orders| - 1], p);
      }
    }
  }
}
