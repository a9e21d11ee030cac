// StepMining of MiningSystem.h: the Mine order's beam cycle.
module MiningSystem {
  import opened Ecs
  import opened SpatialGrid
  import opened Cargo
  import opened SceneSystem

  const MINING_RANGE: int := 1200
  const MINING_CYCLE_TICKS: nat := 120
  const MINING_YIELD: int := 4

  datatype MiningEvent = MiningEvent(unit: nat, rock: nat, commodity: nat, units: int)

  function AbsDiff(a: int, b: int): int {
    if a > b then a - b else b - a
  }

  function ChebyDist(a: Vec, b: Vec): int {
    var (dx, dy, dz) := (AbsDiff(a.x, b.x), AbsDiff(a.y, b.y), AbsDiff(a.z, b.z));
    if dx > dy then if dx > dz then dx else dz else if dy > dz then dy else dz
  }

  // The belt a Mine order works on.
  function MineBelt(f: Field, target: nat): Option<nat> {
    if target !in f.live then None
    else if target in f.poi && f.poi[target].belt then Some(target)
    else if target in f.ore then
      if f.ore[target].beltAnchor.Some? && f.ore[target].beltAnchor.value in f.live then f.ore[target].beltAnchor else None
    else None
  }

  // Still worth cutting.
  predicate LiveOre(f: Field, rock: Option<nat>) {
    rock.Some? && rock.value in f.live && rock.value in f.ore && f.ore[rock.value].units > 0
  }

  predicate Candidate(f: Field, belt: Option<nat>, target: nat, rock: nat) {
    if belt.None? then rock == target && LiveOre(f, Some(rock))
    else rock in f.position && rock in f.ore && f.ore[rock].beltAnchor == belt && f.ore[rock].units > 0
  }

  // ---------------------------------------------------------------------------
  // One cut
  // ---------------------------------------------------------------------------

  ghost function Parked(f: Field, self: nat): Field
    requires self in f.order
  {
    f.(order := f.order[self := f.order[self].(complete := true)], mining := f.mining - {self})
  }

  ghost function Despawned(f: Field, e: nat): Field {
    Field(f.live - {e}, f.position - {e}, f.poi - {e}, f.pool - {e}, f.ore - {e},
          f.order - {e}, f.hold - {e}, f.mining - {e}, f.flying - {e})
  }

  // The belt pool a cut drains, if there is one.
  predicate HasPool(f: Field, belt: Option<nat>) {
    belt.Some? && belt.value in f.pool
  }

  function Least(a: int, b: int): int {
    if a > b then b else a
  }

  ghost function Yield(f: Field, self: nat, rock: nat, belt: Option<nat>): int
    requires self in f.hold && Stocked(f.hold[self]) && rock in f.ore
  {
    var chunk := Least(MINING_YIELD, f.ore[rock].units);
    var pooled := if HasPool(f, belt) then Least(chunk, f.pool[belt.value].units) else chunk;
    if CountsAsTonnage(f.ore[rock].commodity) then Least(pooled, f.hold[self].capacity - Tonnage(f.hold[self])) else pooled
  }

  // A unit that is in place and cutting.
  ghost predicate Cutting(f: Field, self: nat, rock: nat) {
    && FieldOk(f) && self in f.order && self in f.position && self in f.hold && self in f.mining
    && f.mining[self].rock == Some(rock) && LiveOre(f, Some(rock))
  }

  // `amount` units move from the rock and the pool into the hold.
  ghost function Extracted(f: Field, self: nat, rock: nat, belt: Option<nat>, amount: int): Field
    requires Cutting(f, self, rock)
  {
    var ore := f.ore[rock];
    f.(hold := f.hold[self := Loaded(f.hold[self], ore.commodity, amount)],
       ore := f.ore[rock := ore.(units := ore.units - amount)],
       pool := Drained(f.pool, belt, amount))
  }

  ghost function Drained(pool: map<nat, PoiResources>, belt: Option<nat>, amount: int): map<nat, PoiResources> {
    if belt.Some? && belt.value in pool then pool[belt.value := pool[belt.value].(units := pool[belt.value].units - amount)] else pool
  }

  ghost function AfterExtraction(f: Field, self: nat, rock: nat): (Field, bool)
    requires self in f.order && self in f.hold && Stocked(f.hold[self]) && self in f.mining && rock in f.ore && rock != self
  {
    var spent := f.ore[rock].units <= 0;
    var g := if spent then Despawned(f.(mining := f.mining[self := f.mining[self].(rock := None)]), rock) else f;
    (if Tonnage(f.hold[self]) >= f.hold[self].capacity then Parked(g, self) else g, spent)
  }

  // The beam fully charged: back to zero, the order under way.
  ghost function Charged(f: Field, self: nat): Field
    requires self in f.order && self in f.mining
  {
    f.(order := f.order[self := f.order[self].(complete := false)], mining := f.mining[self := f.mining[self].(progress := 0)])
  }

  // What happens once a unit has a live rock: fly, charge the beam, or extract.
  ghost function Cut(f: Field, self: nat, rock: nat, belt: Option<nat>): (Field, Option<MiningEvent>, bool)
    requires Cutting(f, self, rock)
  {
    if rock !in f.position then (Parked(f, self), None, false)
    else
      var ready := f.(order := f.order[self := f.order[self].(complete := false)]);
      var ms := f.mining[self];
      if ChebyDist(f.position[self], f.position[rock]) > MINING_RANGE then
        (ready.(mining := f.mining[self := ms.(progress := 0)]), None, false)
      else if ms.progress + 1 < MINING_CYCLE_TICKS then
        (ready.(mining := f.mining[self := ms.(progress := ms.progress + 1)]), None, false)
      else
        var charged := Charged(f, self);
        var amount := Yield(f, self, rock, belt);
        if amount <= 0 then (Parked(charged, self), None, false)
        else
          var (g, spent) := AfterExtraction(Extracted(charged, self, rock, belt, amount), self, rock);
          (g, Some(MiningEvent(self, rock, f.ore[rock].commodity, amount)), spent && belt.Some?)
  }

  // ---------------------------------------------------------------------------
  // What one unit's turn may do
  // ---------------------------------------------------------------------------

  ghost predicate SameOrders(f: Field, f': Field) {
    f'.order.Keys == f.order.Keys
    && forall i :: i in f.order ==> f'.order[i].target == f.order[i].target && f'.order[i].mine == f.order[i].mine
  }

  ghost predicate EventOk(e: MiningEvent) {
    0 < e.units <= MINING_YIELD && e.commodity < COMMODITY_COUNT
  }

  ghost predicate TurnOk(f: Field, f': Field, self: nat, belt: Option<nat>, event: Option<MiningEvent>) {
    && FieldOk(f') && f'.poi == f.poi && SameOrders(f, f')
    && (OreMatches(f) ==> OreMatches(f'))
    && match event
       case None => f'.pool == f.pool && f'.hold == f.hold
       case Some(e) =>
         && EventOk(e) && e.unit == self && self in f.hold && Stocked(f.hold[self])
         && f'.hold == f.hold[self := Loaded(f.hold[self], e.commodity, e.units)]
         && f'.pool == Drained(f.pool, belt, e.units)
         && NotOverfilled(f.hold[self], f'.hold[self])
  }

  lemma ParkedOk(f: Field, self: nat, belt: Option<nat>)
    requires FieldOk(f) && self in f.order
    ensures TurnOk(f, Parked(f, self), self, belt, None)
  {
  }

  lemma YieldBounds(f: Field, self: nat, rock: nat, belt: Option<nat>)
    requires self in f.hold && Stocked(f.hold[self]) && rock in f.ore
    ensures var y := Yield(f, self, rock, belt);
            && y <= MINING_YIELD && y <= f.ore[rock].units
            && (HasPool(f, belt) ==> y <= f.pool[belt.value].units)
            && (CountsAsTonnage(f.ore[rock].commodity) ==> Tonnage(f.hold[self]) + y <= f.hold[self].capacity)
  {
  }

  // Rock and pool both give up exactly what the hold receives.
  lemma ExtractionOk(f: Field, self: nat, rock: nat, belt: Option<nat>, amount: int)
    requires Cutting(f, self, rock) && 0 < amount <= Yield(f, self, rock, belt)
    ensures var g := Extracted(f, self, rock, belt, amount);
            TurnOk(f, g, self, belt, Some(MiningEvent(self, rock, f.ore[rock].commodity, amount)))
  {
    YieldBounds(f, self, rock, belt);
    LoadedTonnage(f.hold[self], f.ore[rock].commodity, amount);
  }

  lemma SpentRockOk(f: Field, g: Field, self: nat, rock: nat, belt: Option<nat>, event: Option<MiningEvent>) returns (h: Field)
    requires TurnOk(f, g, self, belt, event) && self in g.mining && rock in g.ore
    ensures h == Despawned(g.(mining := g.mining[self := g.mining[self].(rock := None)]), rock)
    ensures TurnOk(f, h, self, belt, event) && h.order == g.order && h.hold == g.hold && rock != self
  {
    h := Despawned(g.(mining := g.mining[self := g.mining[self].(rock := None)]), rock);
    assert h.order == g.order && h.hold == g.hold && h.pool == g.pool && h.poi == g.poi;
    assert FieldOk(h);
  }

  lemma ParkedToo(f: Field, g: Field, self: nat, belt: Option<nat>, event: Option<MiningEvent>)
    requires TurnOk(f, g, self, belt, event) && self in g.order
    ensures TurnOk(f, Parked(g, self), self, belt, event)
  {
  }

  lemma AfterExtractionOk(f: Field, g: Field, self: nat, rock: nat, belt: Option<nat>, event: Option<MiningEvent>)
    requires TurnOk(f, g, self, belt, event)
    requires self in g.order && self in g.hold && self in g.mining && rock in g.ore && g.mining[self].rock == Some(rock)
    ensures rock != self && TurnOk(f, AfterExtraction(g, self, rock).0, self, belt, event)
  {
    var h := SpentRockOk(f, g, self, rock, belt, event);
    ParkedToo(f, h, self, belt, event);
    ParkedToo(f, g, self, belt, event);
  }

  // Bookkeeping on orders and beams before the rest of the turn.
  ghost predicate Prepared(f: Field, g: Field) {
    g == f.(order := g.order, mining := g.mining) && SameOrders(f, g) && g.mining.Keys <= f.mining.Keys
  }

  lemma PreparedOk(f: Field, g: Field, self: nat, belt: Option<nat>)
    requires FieldOk(f) && Prepared(f, g)
    ensures TurnOk(f, g, self, belt, None)
  {
  }

  lemma PreparedTurn(f: Field, g: Field, h: Field, self: nat, belt: Option<nat>, event: Option<MiningEvent>)
    requires FieldOk(f) && Prepared(f, g) && TurnOk(g, h, self, belt, event)
    ensures TurnOk(f, h, self, belt, event)
  {
  }

  lemma ChargedCutOk(f: Field, self: nat, rock: nat, belt: Option<nat>) returns (h: Field, event: Option<MiningEvent>)
    requires Cutting(f, self, rock)
    ensures var amount := Yield(f, self, rock, belt);
            if amount <= 0 then h == Parked(f, self) && event == None
            else h == AfterExtraction(Extracted(f, self, rock, belt, amount), self, rock).0
                 && event == Some(MiningEvent(self, rock, f.ore[rock].commodity, amount))
    ensures TurnOk(f, h, self, belt, event)
  {
    var amount := Yield(f, self, rock, belt);
    if amount <= 0 {
      ParkedOk(f, self, belt);
      h, event := Parked(f, self), None;
    } else {
      event := Some(MiningEvent(self, rock, f.ore[rock].commodity, amount));
      ExtractionOk(f, self, rock, belt, amount);
      AfterExtractionOk(f, Extracted(f, self, rock, belt, amount), self, rock, belt, event);
      h := AfterExtraction(Extracted(f, self, rock, belt, amount), self, rock).0;
    }
  }

  // Out of range, or the beam still charging.
  lemma WaitingCutOk(f: Field, self: nat, rock: nat, belt: Option<nat>) returns (h: Field)
    requires Cutting(f, self, rock) && rock in f.position
    requires ChebyDist(f.position[self], f.position[rock]) > MINING_RANGE || f.mining[self].progress + 1 < MINING_CYCLE_TICKS
    ensures Cut(f, self, rock, belt) == (h, None, false) && TurnOk(f, h, self, belt, None)
  {
    h := Cut(f, self, rock, belt).0;
    assert Prepared(f, h);
    PreparedOk(f, h, self, belt);
  }

  // In range with the beam charged.
  lemma ReadyCutIs(f: Field, self: nat, rock: nat, belt: Option<nat>) returns (charged: Field)
    requires Cutting(f, self, rock) && rock in f.position
    requires ChebyDist(f.position[self], f.position[rock]) <= MINING_RANGE && f.mining[self].progress + 1 >= MINING_CYCLE_TICKS
    ensures charged == Charged(f, self) && Cutting(charged, self, rock) && Prepared(f, charged)
    ensures var amount := Yield(charged, self, rock, belt);
            Cut(f, self, rock, belt) ==
            if amount <= 0 then (Parked(charged, self), None, false)
            else
              var (g, spent) := AfterExtraction(Extracted(charged, self, rock, belt, amount), self, rock);
              (g, Some(MiningEvent(self, rock, charged.ore[rock].commodity, amount)), spent && belt.Some?)
  {
    charged := Charged(f, self);
    assert Prepared(f, charged);
    PreparedOk(f, charged, self, belt);
  }

  lemma ReadyCutOk(f: Field, self: nat, rock: nat, belt: Option<nat>) returns (h: Field, event: Option<MiningEvent>)
    requires Cutting(f, self, rock) && rock in f.position
    requires ChebyDist(f.position[self], f.position[rock]) <= MINING_RANGE && f.mining[self].progress + 1 >= MINING_CYCLE_TICKS
    ensures Cut(f, self, rock, belt).0 == h && Cut(f, self, rock, belt).1 == event
    ensures TurnOk(f, h, self, belt, event)
  {
    var charged := ReadyCutIs(f, self, rock, belt);
    h, event := ChargedCutOk(charged, self, rock, belt);
    PreparedTurn(f, charged, h, self, belt, event);
  }

  lemma CutOk(f: Field, self: nat, rock: nat, belt: Option<nat>) returns (h: Field, event: Option<MiningEvent>)
    requires Cutting(f, self, rock)
    ensures Cut(f, self, rock, belt).0 == h && Cut(f, self, rock, belt).1 == event
    ensures TurnOk(f, h, self, belt, event)
  {
    if rock !in f.position {
      ParkedOk(f, self, belt);
      h, event := Parked(f, self), None;
    } else if ChebyDist(f.position[self], f.position[rock]) > MINING_RANGE || f.mining[self].progress + 1 < MINING_CYCLE_TICKS {
      h := WaitingCutOk(f, self, rock, belt);
      event := None;
    } else {
      h, event := ReadyCutOk(f, self, rock, belt);
    }
  }

  lemma AfterExtractionOre(g: Field, self: nat, rock: nat)
    requires self in g.order && self in g.hold && Stocked(g.hold[self]) && self in g.mining && rock in g.ore && rock != self
    ensures var (h, spent) := AfterExtraction(g, self, rock);
            && (spent <==> g.ore[rock].units <= 0)
            && h.ore == (if spent then g.ore - {rock} else g.ore)
            && (spent ==> rock !in h.live)
  {
  }

  // A spent rock is gone; any other lost exactly the amount.
  lemma CutDrainsRock(f: Field, self: nat, rock: nat, belt: Option<nat>)
    requires Cutting(f, self, rock)
    ensures var (g, event, spent) := Cut(f, self, rock, belt);
            match event
            case None => g.ore == f.ore
            case Some(e) =>
              && e.rock == rock && e.commodity == f.ore[rock].commodity
              && (rock in g.ore <==> e.units < f.ore[rock].units)
              && (rock in g.ore ==> g.ore[rock].units == f.ore[rock].units - e.units)
              && (rock !in g.ore ==> rock !in g.live && (spent <==> belt.Some?))
              && g.ore - {rock} == f.ore - {rock}
  {
    var amount := Yield(f, self, rock, belt);
    if Cut(f, self, rock, belt).1.Some? {
      YieldBounds(f, self, rock, belt);
      AfterExtractionOre(Extracted(Charged(f, self), self, rock, belt, amount), self, rock);
    }
  }

  // ---------------------------------------------------------------------------
  // The system
  // ---------------------------------------------------------------------------

  // Each<WorldTransform, OreBody>, keeping the nearest of the belt's live rocks.
  method NearestRock(w: SceneWorld, from: Vec, belt: Option<nat>, target: nat) returns (best: Option<nat>)
    ensures IsNearest(w.View(), from, belt, target, best)
  {
    best := None;
    if belt == None {
      if target in w.live && target in w.ore && w.ore[target].units > 0 {
        best := Some(target);
      }
      return;
    }
    var bestDist := 0;
    var rest := w.position.Keys;
    while rest != {}
      invariant rest <= w.position.Keys
      invariant best.Some? ==> Candidate(w.View(), belt, target, best.value) && bestDist == ChebyDist(w.position[best.value], from)
      invariant forall r :: r in w.position && r !in rest && Candidate(w.View(), belt, target, r) ==>
                  best.Some? && bestDist <= ChebyDist(w.position[r], from)
      decreases |rest|
    {
      var r :| r in rest;
      rest := rest - {r};
      if r in w.ore && w.ore[r].beltAnchor == belt && w.ore[r].units > 0 {
        var d := ChebyDist(w.position[r], from);
        if best == None || d < bestDist {
          best, bestDist := Some(r), d;
        }
      }
    }
  }

  method HoldStation(w: SceneWorld, self: nat)
    requires self in w.order
    modifies w
    ensures w.View() == Parked(old(w.View()), self)
  {
    w.order := w.order[self := w.order[self].(complete := true)];
    w.mining := w.mining - {self};
  }

  method Destroy(w: SceneWorld, e: nat)
    modifies w
    ensures w.View() == Despawned(old(w.View()), e)
  {
    w.live, w.position, w.poi, w.pool, w.ore := w.live - {e}, w.position - {e}, w.poi - {e}, w.pool - {e}, w.ore - {e};
    w.order, w.hold, w.mining, w.flying := w.order - {e}, w.hold - {e}, w.mining - {e}, w.flying - {e};
  }

  // The yield clamps: the cycle amount, the rock, the belt pool, and hold room.
  method YieldOf(w: SceneWorld, self: nat, rock: nat, belt: Option<nat>) returns (amount: int)
    requires self in w.hold && Stocked(w.hold[self]) && rock in w.ore
    ensures amount == Yield(w.View(), self, rock, belt)
  {
    var ore := w.ore[rock];
    amount := MINING_YIELD;
    if amount > ore.units {
      amount := ore.units;
    }
    if belt.Some? && belt.value in w.pool && amount > w.pool[belt.value].units {
      amount := w.pool[belt.value].units;
    }
    var tonnes := TotalTonnage(w.hold[self].units);
    if CountsAsTonnage(ore.commodity) && amount > w.hold[self].capacity - tonnes {
      amount := w.hold[self].capacity - tonnes;
    }
  }

  // Parked in range with a charged beam: take a chunk.
  method Extract(w: SceneWorld, self: nat, rock: nat, belt: Option<nat>) returns (event: Option<MiningEvent>, spent: bool)
    requires Cutting(w.View(), self, rock)
    modifies w
    ensures var f := old(w.View());
            var amount := Yield(f, self, rock, belt);
            if amount <= 0 then w.View() == Parked(f, self) && event == None && !spent
            else
              && (w.View(), spent) == AfterExtraction(Extracted(f, self, rock, belt, amount), self, rock)
              && event == Some(MiningEvent(self, rock, f.ore[rock].commodity, amount))
  {
    ghost var f := w.View();
    var ore := w.ore[rock];
    var amount := YieldOf(w, self, rock, belt);
    event, spent := None, false;
    if amount <= 0 {
      HoldStation(w, self);
      return;
    }
    w.hold := w.hold[self := Loaded(w.hold[self], ore.commodity, amount)];
    w.ore := w.ore[rock := ore.(units := ore.units - amount)];
    if belt.Some? && belt.value in w.pool {
      w.pool := w.pool[belt.value := w.pool[belt.value].(units := w.pool[belt.value].units - amount)];
    }
    event := Some(MiningEvent(self, rock, ore.commodity, amount));
    assert w.View() == Extracted(f, self, rock, belt, amount);
    FinishExtraction(w, self, rock);
    spent := ore.units - amount <= 0;
  }

  method FinishExtraction(w: SceneWorld, self: nat, rock: nat)
    requires self in w.order && self in w.hold && Stocked(w.hold[self]) && self in w.mining && rock in w.ore && rock != self
    modifies w
    ensures w.View() == AfterExtraction(old(w.View()), self, rock).0
  {
    var hold := w.hold[self];
    if w.ore[rock].units <= 0 {
      w.mining := w.mining[self := w.mining[self].(rock := None)];
      Destroy(w, rock);
    }
    var tonnes := TotalTonnage(hold.units);
    if tonnes >= hold.capacity {
      HoldStation(w, self);
    }
  }

  method CutRock(w: SceneWorld, self: nat, rock: nat, belt: Option<nat>) returns (event: Option<MiningEvent>, emptied: bool)
    requires Cutting(w.View(), self, rock)
    modifies w
    ensures (w.View(), event, emptied) == Cut(old(w.View()), self, rock, belt)
  {
    event, emptied := None, false;
    ghost var f := w.View();
    if rock !in w.position {
      HoldStation(w, self);
      return;
    }
    w.order := w.order[self := w.order[self].(complete := false)];
    var ms := w.mining[self];
    if ChebyDist(w.position[self], w.position[rock]) > MINING_RANGE {
      w.mining := w.mining[self := ms.(progress := 0)];
      return;
    }
    if ms.progress + 1 < MINING_CYCLE_TICKS {
      w.mining := w.mining[self := ms.(progress := ms.progress + 1)];
      return;
    }
    w.mining := w.mining[self := ms.(progress := 0)];
    assert w.View() == Charged(f, self);
    ghost var charged := ReadyCutIs(f, self, rock, belt);
    event, emptied := FireBeam(w, self, rock, belt);
  }

  // A completed cycle.
  method FireBeam(w: SceneWorld, self: nat, rock: nat, belt: Option<nat>) returns (event: Option<MiningEvent>, emptied: bool)
    requires Cutting(w.View(), self, rock)
    modifies w
    ensures var f := old(w.View());
            var amount := Yield(f, self, rock, belt);
            (w.View(), event, emptied) ==
            if amount <= 0 then (Parked(f, self), None, false)
            else
              var (g, spent) := AfterExtraction(Extracted(f, self, rock, belt, amount), self, rock);
              (g, Some(MiningEvent(self, rock, f.ore[rock].commodity, amount)), spent && belt.Some?)
  {
    var spent;
    event, spent := Extract(w, self, rock, belt);
    emptied := spent && belt.Some?;
  }

  // ---------------------------------------------------------------------------
  // One unit's turn
  // ---------------------------------------------------------------------------

  // The belt the unit's order resolves to.
  function BeltOf(f: Field, self: nat): Option<nat> {
    if self in f.order then MineBelt(f, f.order[self].target) else None
  }

  // A cached rock that is still being cut although it yields another ore than the ordered
  // belt, its slot having been recycled.
  predicate StaleRock(f: Field, self: nat) {
    var belt := BeltOf(f, self);
    HasPool(f, belt) && self in f.mining && LiveOre(f, f.mining[self].rock)
    && f.ore[f.mining[self].rock.value].commodity != f.pool[belt.value].commodity
  }

  // The ore in an event is the ordered belt's own.
  ghost predicate OwnOre(f: Field, belt: Option<nat>, event: Option<MiningEvent>) {
    event.Some? && HasPool(f, belt) ==> event.value.commodity == f.pool[belt.value].commodity
  }

  lemma CutOreOf(f: Field, self: nat, rock: nat, belt: Option<nat>)
    requires Cutting(f, self, rock)
    ensures Cut(f, self, rock, belt).1.Some? ==> Cut(f, self, rock, belt).1.value.commodity == f.ore[rock].commodity
  {
    CutDrainsRock(f, self, rock, belt);
  }

  // ---------------------------------------------------------------------------
  // Everything a turn may do
  // ---------------------------------------------------------------------------

  // What NearestRock may return.
  ghost predicate IsNearest(f: Field, from: Vec, belt: Option<nat>, target: nat, rock: Option<nat>) {
    match rock
    case None => forall r :: !Candidate(f, belt, target, r)
    case Some(best) =>
      && Candidate(f, belt, target, best)
      && (belt.Some? ==> forall r :: r in f.position && Candidate(f, belt, target, r) ==>
            ChebyDist(f.position[best], from) <= ChebyDist(f.position[r], from))
  }

  // A belt without a live rock that still has ore in its pool.
  ghost predicate NeedsRefill(f: Field, belt: Option<nat>, target: nat) {
    && (forall r :: !Candidate(f, belt, target, r))
    && belt.Some? && belt.value in f.live && belt.value in f.pool && f.pool[belt.value].units > 0
  }

  // Keep a live cached rock; otherwise take the nearest, refilling first if there is none.
  // m is the field after that refill, g the field the cut begins in.
  ghost predicate MayRetarget(f: Field, m: Field, g: Field, self: nat, belt: Option<nat>, rock: Option<nat>)
    requires self in f.order && self in f.position && self in f.mining
  {
    if LiveOre(f, f.mining[self].rock) then m == f && g == f && rock == f.mining[self].rock
    else
      && (if NeedsRefill(f, belt, f.order[self].target) then FieldOk(m) && Maintained(f, m, belt.value) else m == f)
      && IsNearest(m, f.position[self], belt, f.order[self].target, rock)
      && g == if rock.Some? then m.(mining := m.mining[self := MiningState(rock, 0)]) else m
  }

  // A unit that StepMining gives a turn at all.
  predicate Equipped(f: Field, self: nat) {
    self in f.order && f.order[self].mine && self in f.flying && self in f.position && self in f.hold
  }

  // With its MiningState in place.
  ghost function Ready(f: Field, self: nat): Field {
    if self in f.mining then f else f.(mining := f.mining[self := MiningState(None, 0)])
  }

  // All that one turn of a unit may do to the field.
  ghost predicate MayTurn(f: Field, g: Field, self: nat, event: Option<MiningEvent>, emptied: bool)
    requires FieldOk(f)
  {
    if !Equipped(f, self) then g == f && event == None && !emptied
    else if Tonnage(f.hold[self]) >= f.hold[self].capacity then g == Parked(f, self) && event == None && !emptied
    else exists m, h, rock :: CutsFrom(f, m, h, rock, g, self, event, emptied)
  }

  ghost predicate CutsFrom(f: Field, m: Field, h: Field, rock: Option<nat>, g: Field, self: nat,
                           event: Option<MiningEvent>, emptied: bool)
    requires Equipped(f, self)
  {
    && MayRetarget(Ready(f, self), m, h, self, BeltOf(f, self), rock)
    && if rock.None? then self in h.order && g == Parked(h, self) && event == None && !emptied
       else Cutting(h, self, rock.value) && (g, event, emptied) == Cut(h, self, rock.value, BeltOf(f, self))
  }

  // Nothing a turn is judged by has changed yet.
  ghost predicate SameBooks(f: Field, g: Field) {
    g.order == f.order && g.hold == f.hold && g.pool == f.pool && g.poi == f.poi && (OreMatches(f) ==> OreMatches(g))
  }

  lemma RetargetKeeps(f: Field, m: Field, g: Field, self: nat, belt: Option<nat>, rock: Option<nat>)
    requires FieldOk(f) && self in f.order && self in f.position && self in f.mining
    requires MayRetarget(f, m, g, self, belt, rock)
    ensures FieldOk(g) && SameBooks(f, g)
  {
    if m != f {
      MaintainGrows(f, m, belt.value);
    }
  }

  // A rock that was not cached is one of the belt's own.
  lemma RetargetFindsOwn(f: Field, m: Field, g: Field, self: nat, belt: Option<nat>, rock: Option<nat>)
    requires FieldOk(f) && OreMatches(f) && self in f.order && self in f.position && self in f.mining
    requires MayRetarget(f, m, g, self, belt, rock) && rock.Some? && !LiveOre(f, f.mining[self].rock)
    requires belt.Some? && belt.value in f.pool
    ensures rock.value in g.ore && g.ore[rock.value].commodity == f.pool[belt.value].commodity
  {
    if m != f {
      MaintainGrows(f, m, belt.value);
    }
  }

  lemma ReadyKeeps(f: Field, m: Field, h: Field, self: nat, rock: Option<nat>)
    requires FieldOk(f) && Equipped(f, self) && MayRetarget(Ready(f, self), m, h, self, BeltOf(f, self), rock)
    ensures FieldOk(h) && SameBooks(f, h)
  {
    RetargetKeeps(Ready(f, self), m, h, self, BeltOf(f, self), rock);
  }

  lemma TurnFrom(f: Field, h: Field, g: Field, self: nat, belt: Option<nat>, event: Option<MiningEvent>)
    requires SameBooks(f, h) && TurnOk(h, g, self, belt, event)
    ensures TurnOk(f, g, self, belt, event)
  {
  }

  lemma CutsFromOk(f: Field, m: Field, h: Field, rock: Option<nat>, g: Field, self: nat,
                   event: Option<MiningEvent>, emptied: bool)
    requires FieldOk(f) && Equipped(f, self) && CutsFrom(f, m, h, rock, g, self, event, emptied)
    ensures TurnOk(f, g, self, BeltOf(f, self), event)
  {
    ReadyKeeps(f, m, h, self, rock);
    if rock.None? {
      ParkedOk(h, self, BeltOf(f, self));
    } else {
      var k, e := CutOk(h, self, rock.value, BeltOf(f, self));
    }
    TurnFrom(f, h, g, self, BeltOf(f, self), event);
  }

  // Whatever a turn does, it moves hold and pool by its event and no more.
  lemma MayTurnOk(f: Field, g: Field, self: nat, event: Option<MiningEvent>, emptied: bool)
    requires FieldOk(f) && MayTurn(f, g, self, event, emptied)
    ensures TurnOk(f, g, self, BeltOf(f, self), event)
    ensures event.Some? ==> Equipped(f, self)
  {
    if !Equipped(f, self) {
      PreparedOk(f, f, self, BeltOf(f, self));
    } else if Tonnage(f.hold[self]) >= f.hold[self].capacity {
      ParkedOk(f, self, BeltOf(f, self));
    } else {
      var m, h, rock :| CutsFrom(f, m, h, rock, g, self, event, emptied);
      CutsFromOk(f, m, h, rock, g, self, event, emptied);
    }
  }

  // A live cached rock is the one that is cut.
  lemma CachedIsCut(f: Field, m: Field, h: Field, self: nat, rock: Option<nat>)
    requires Equipped(f, self) && MayRetarget(Ready(f, self), m, h, self, BeltOf(f, self), rock)
    requires LiveOre(Ready(f, self), Ready(f, self).mining[self].rock)
    ensures self in f.mining && rock == f.mining[self].rock && h.ore == f.ore
  {
  }

  lemma OwnIsCut(f: Field, m: Field, h: Field, self: nat, rock: Option<nat>)
    requires FieldOk(f) && OreMatches(f) && Equipped(f, self)
    requires MayRetarget(Ready(f, self), m, h, self, BeltOf(f, self), rock) && rock.Some?
    requires !LiveOre(Ready(f, self), Ready(f, self).mining[self].rock)
    ensures HasPool(f, BeltOf(f, self)) ==>
              rock.value in h.ore && h.ore[rock.value].commodity == f.pool[BeltOf(f, self).value].commodity
  {
    if HasPool(f, BeltOf(f, self)) {
      RetargetFindsOwn(Ready(f, self), m, h, self, BeltOf(f, self), rock);
    }
  }

  lemma RetargetedOre(f: Field, m: Field, h: Field, self: nat, rock: Option<nat>)
    requires FieldOk(f) && OreMatches(f) && Equipped(f, self)
    requires MayRetarget(Ready(f, self), m, h, self, BeltOf(f, self), rock) && LiveOre(h, rock)
    ensures (HasPool(f, BeltOf(f, self)) ==> h.ore[rock.value].commodity == f.pool[BeltOf(f, self).value].commodity)
            <==> !StaleRock(f, self)
  {
    if LiveOre(Ready(f, self), Ready(f, self).mining[self].rock) {
      CachedIsCut(f, m, h, self, rock);
    } else {
      OwnIsCut(f, m, h, self, rock);
    }
  }

  lemma CutsFromOre(f: Field, m: Field, h: Field, rock: Option<nat>, g: Field, self: nat,
                    event: Option<MiningEvent>, emptied: bool)
    requires FieldOk(f) && OreMatches(f) && Equipped(f, self) && CutsFrom(f, m, h, rock, g, self, event, emptied)
    requires event.Some?
    ensures OwnOre(f, BeltOf(f, self), event) <==> !StaleRock(f, self)
  {
    CutOreOf(h, self, rock.value, BeltOf(f, self));
    RetargetedOre(f, m, h, self, rock);
  }

  // What a unit extracts is its belt's own ore exactly when it did not begin its turn with
  // a stale rock.
  lemma TurnOreExactly(f: Field, g: Field, self: nat, event: Option<MiningEvent>, emptied: bool)
    requires FieldOk(f) && OreMatches(f) && MayTurn(f, g, self, event, emptied) && event.Some?
    ensures OwnOre(f, BeltOf(f, self), event) <==> !StaleRock(f, self)
  {
    var m, h, rock :| CutsFrom(f, m, h, rock, g, self, event, emptied);
    CutsFromOre(f, m, h, rock, g, self, event, emptied);
  }

  // A unit with room and a live cached rock simply cuts on.
  lemma CachedTurn(f: Field, self: nat)
    requires FieldOk(f) && Equipped(f, self) && self in f.mining && LiveOre(f, f.mining[self].rock)
    requires Tonnage(f.hold[self]) < f.hold[self].capacity
    ensures Cutting(f, self, f.mining[self].rock.value)
    ensures var (g, event, emptied) := Cut(f, self, f.mining[self].rock.value, BeltOf(f, self));
            MayTurn(f, g, self, event, emptied)
  {
    var rock := f.mining[self].rock;
    var (g, event, emptied) := Cut(f, self, rock.value, BeltOf(f, self));
    assert CutsFrom(f, f, f, rock, g, self, event, emptied);
  }

  // Keep the cached rock, or find another, refilling a belt that has none but still has
  // ore in its pool.
  method Retarget(w: SceneWorld, self: nat, belt: Option<nat>, tick: nat) returns (rock: Option<nat>, ghost m: Field)
    requires FieldOk(w.View()) && self in w.order && self in w.position && self in w.mining
    modifies w
    ensures MayRetarget(old(w.View()), m, w.View(), self, belt, rock)
  {
    m := w.View();
    rock := w.mining[self].rock;
    if LiveOre(w.View(), rock) {
      return;
    }
    var selfPos := w.position[self];
    var target := w.order[self].target;
    rock := NearestRock(w, selfPos, belt, target);
    if rock == None && belt.Some? && belt.value in w.live && belt.value in w.pool && w.pool[belt.value].units > 0 {
      w.MaintainBeltRocks(belt.value, tick);
      m := w.View();
      rock := NearestRock(w, selfPos, belt, target);
    }
    if rock.Some? {
      w.mining := w.mining[self := MiningState(rock, 0)];
    }
  }

  // The body of the order loop.
  method MineTurn(w: SceneWorld, self: nat, tick: nat) returns (event: Option<MiningEvent>, emptied: bool)
    requires FieldOk(w.View())
    modifies w
    ensures FieldOk(w.View()) && MayTurn(old(w.View()), w.View(), self, event, emptied)
    ensures TurnOk(old(w.View()), w.View(), self, BeltOf(old(w.View()), self), event)
  {
    event, emptied := None, false;
    ghost var f := w.View();
    if self !in w.order || !w.order[self].mine {
      return;
    }
    if self !in w.flying || self !in w.position || self !in w.hold {
      return;
    }
    var tonnes := TotalTonnage(w.hold[self].units);
    if tonnes >= w.hold[self].capacity {
      HoldStation(w, self);
      ParkedOk(f, self, BeltOf(f, self));
      return;
    }
    var belt := MineBelt(w.View(), w.order[self].target);
    if self !in w.mining {
      w.mining := w.mining[self := MiningState(None, 0)];
    }
    assert w.View() == Ready(f, self);
    var rock;
    ghost var m;
    rock, m := Retarget(w, self, belt, tick);
    ghost var h := w.View();
    ReadyKeeps(f, m, h, self, rock);
    if rock == None {
      HoldStation(w, self);
      assert CutsFrom(f, m, h, rock, w.View(), self, event, emptied);
    } else {
      event, emptied := CutRock(w, self, rock.value, belt);
      assert CutsFrom(f, m, h, rock, w.View(), self, event, emptied);
    }
    MayTurnOk(f, w.View(), self, event, emptied);
  }
}
