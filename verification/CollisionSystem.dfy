// StepCollisions of CollisionSystem.h: the grid-narrowed pair sweep ends in exactly the
// state of the full one.
module CollisionSystem {
  import opened Ecs
  import opened SpatialGrid
  import opened Broadphase
  import opened Combat

  const SHIP_CONTACT_RANGE: int := 600
  const STATION_CONTACT_RANGE: int := 1000
  const PLANET_KILL_RADIUS: int := 4000
  const SHIP_RAM_DAMAGE: int := 100
  const STATION_CRASH_DAMAGE: int := 200

  // A hull in space, as gathered at the start of the tick.
  datatype Unit = Unit(id: EntityId, pos: Vec, station: bool)

  datatype Planet = Planet(id: EntityId, pos: Vec)

  datatype Sweep = Sweep(hulls: Hulls, dead: set<nat>, kills: seq<Kill>)

  // Units are distinct live entities with a Combatant each.
  ghost predicate UnitsOk(units: seq<Unit>, h: Hulls) {
    && (forall i :: 0 <= i < |units| ==> units[i].id.index in h.combatant)
    && (forall i, j :: 0 <= i < j < |units| ==> units[i].id.index != units[j].id.index)
  }

  // ---------------------------------------------------------------------------
  // The full sweep
  // ---------------------------------------------------------------------------

  function Report(st: Sweep, victim: EntityId, killer: nat): Sweep {
    if victim.index in st.dead then st
    else st.(dead := st.dead + {victim.index}, kills := st.kills + [Kill(victim, killer)])
  }

  function Damage(st: Sweep, victim: EntityId, damage: int, front: bool, killer: nat): Sweep {
    var (h, destroyed) := ApplyDamage(st.hulls, victim.index, damage, front);
    var hit := st.(hulls := h);
    if destroyed then Report(hit, victim, killer) else hit
  }

  function Ram(st: Sweep, victim: Unit, other: Unit, front: FrontTest): Sweep
    requires victim.id.index in st.hulls.combatant
  {
    if st.hulls.combatant[victim.id.index].invulnTicks == 0 && victim.id.index !in st.dead
    then Damage(st, victim.id, SHIP_RAM_DAMAGE, front(victim.id.index, other.pos), other.id.index)
    else st
  }

  function Scrape(st: Sweep, ship: Unit, hull: Unit, front: FrontTest): Sweep
    requires ship.id.index in st.hulls.combatant
  {
    if !Within(ship.pos, hull.pos, STATION_CONTACT_RANGE) then st
    else if st.hulls.combatant[ship.id.index].invulnTicks > 0 || ship.id.index in st.dead then st
    else Damage(st, ship.id, STATION_CRASH_DAMAGE, front(ship.id.index, hull.pos), hull.id.index)
  }

  function PairStep(st: Sweep, a: Unit, b: Unit, front: FrontTest): (r: Sweep)
    requires a.id.index in st.hulls.combatant && b.id.index in st.hulls.combatant
    ensures r.hulls.combatant.Keys == st.hulls.combatant.Keys
  {
    if a.station && b.station then st
    else if a.station then Scrape(st, b, a, front)
    else if b.station then Scrape(st, a, b, front)
    else if !Within(a.pos, b.pos, SHIP_CONTACT_RANGE) then st
    else Ram(Ram(st, a, b, front), b, a, front)
  }

  // Partners lo .. hi-1 of unit i, in order.
  function Row(units: seq<Unit>, st: Sweep, i: nat, lo: nat, hi: nat, front: FrontTest): (r: Sweep)
    requires UnitsOk(units, st.hulls) && i < |units| && lo <= hi <= |units|
    ensures r.hulls.combatant.Keys == st.hulls.combatant.Keys
    decreases hi
  {
    if hi == lo then st else PairStep(Row(units, st, i, lo, hi - 1, front), units[i], units[hi - 1], front)
  }

  // Every pair i < j with i below n, in order.
  function Rows(units: seq<Unit>, st: Sweep, n: nat, front: FrontTest): (r: Sweep)
    requires UnitsOk(units, st.hulls) && n <= |units|
    ensures r.hulls.combatant.Keys == st.hulls.combatant.Keys
    decreases n
  {
    if n == 0 then st else Row(units, Rows(units, st, n - 1, front), n - 1, n, |units|, front)
  }

  function FirstPlanet(u: Unit, planets: seq<Planet>, k: nat): Option<nat>
    requires k <= |planets|
    decreases |planets| - k
  {
    if k == |planets| then None
    else if Within(u.pos, planets[k].pos, PLANET_KILL_RADIUS) then Some(planets[k].id.index)
    else FirstPlanet(u, planets, k + 1)
  }

  function Crash(st: Sweep, u: Unit, planets: seq<Planet>): (r: Sweep)
    requires u.id.index in st.hulls.combatant
    ensures r.hulls.combatant.Keys == st.hulls.combatant.Keys
  {
    var c := st.hulls.combatant[u.id.index];
    if u.station || c.invulnTicks > 0 || u.id.index in st.dead then st
    else
      var p := FirstPlanet(u, planets, 0);
      if p.None? then st
      else Report(st.(hulls := st.hulls.(combatant := st.hulls.combatant[u.id.index := c.(energy := 0)])), u.id, p.value)
  }

  function Crashes(units: seq<Unit>, st: Sweep, planets: seq<Planet>, n: nat): (r: Sweep)
    requires UnitsOk(units, st.hulls) && n <= |units|
    ensures r.hulls.combatant.Keys == st.hulls.combatant.Keys
  {
    if n == 0 then st else Crash(Crashes(units, st, planets, n - 1), units[n - 1], planets)
  }

  // The old full i < j sweep followed by the planet pass.
  function FullSweep(units: seq<Unit>, h: Hulls, planets: seq<Planet>, front: FrontTest): Sweep
    requires UnitsOk(units, h)
  {
    Crashes(units, Rows(units, Sweep(h, {}, []), |units|, front), planets, |units|)
  }

  // ---------------------------------------------------------------------------
  // The narrowed sweep
  // ---------------------------------------------------------------------------

  function Positions(units: seq<Unit>): (ps: seq<Vec>)
    ensures |ps| == |units| && forall i :: 0 <= i < |units| ==> ps[i] == units[i].pos
  {
    seq(|units|, i requires 0 <= i < |units| => units[i].pos)
  }

  predicate Close(a: Vec, b: Vec) {
    NearCell(BroadCell(a), BroadCell(b), 1)
  }

  // A pair the grid does not offer would have been skipped by the exact tests.
  lemma FarPairsSkip(st: Sweep, a: Unit, b: Unit, front: FrontTest)
    requires a.id.index in st.hulls.combatant && b.id.index in st.hulls.combatant
    requires !Close(a.pos, b.pos)
    ensures PairStep(st, a, b, front) == st
  {
    if Within(a.pos, b.pos, STATION_CONTACT_RANGE) {
      CubeCoversRange(a.pos, b.pos, STATION_CONTACT_RANGE, 1);
    }
    if Within(a.pos, b.pos, SHIP_CONTACT_RANGE) {
      CubeCoversRange(a.pos, b.pos, SHIP_CONTACT_RANGE, 1);
    }
  }

  lemma {:induction false} FarStretchSkips(units: seq<Unit>, st: Sweep, i: nat, lo: nat, mid: nat, hi: nat, front: FrontTest)
    requires UnitsOk(units, st.hulls) && i < |units| && lo <= mid <= hi <= |units|
    requires forall j :: mid <= j < hi ==> !Close(units[i].pos, units[j].pos)
    ensures Row(units, st, i, lo, hi, front) == Row(units, st, i, lo, mid, front)
    decreases hi
  {
    if mid < hi {
      FarStretchSkips(units, st, i, lo, mid, hi - 1, front);
      FarPairsSkip(Row(units, st, i, lo, hi - 1, front), units[i], units[hi - 1], front);
    }
  }

  class Collisions {
    var combatant: map<nat, Combatant>
    var shields: map<nat, Shields>
    var dead: set<nat>
    var kills: seq<Kill>

    constructor (h: Hulls)
      ensures State() == Sweep(h, {}, [])
    {
      combatant, shields := h.combatant, h.shields;
      dead, kills := {}, [];
    }

    ghost function State(): Sweep
      reads this
    {
      Sweep(Hulls(combatant, shields), dead, kills)
    }

    method DamageHull(target: nat, damage: int, front: bool) returns (destroyed: bool)
      modifies this`combatant, this`shields
      ensures (Hulls(combatant, shields), destroyed) == ApplyDamage(old(Hulls(combatant, shields)), target, damage, front)
    {
      if target !in combatant {
        return false;
      }
      var c := combatant[target];
      if target !in shields {
        combatant := combatant[target := c.(energy := c.energy - damage)];
        return combatant[target].energy <= 0;
      }
      var sh := shields[target];
      var (r, gone) := ApplyDamageToShields(ShieldState(sh.front, sh.aft, c.energy), damage, front);
      shields := shields[target := Shields(r.frontShield, r.aftShield)];
      combatant := combatant[target := c.(energy := r.energy)];
      return gone;
    }

    method ReportKill(victim: EntityId, killer: nat)
      modifies this`dead, this`kills
      ensures State() == Report(old(State()), victim, killer)
    {
      if victim.index !in dead {
        dead := dead + {victim.index};
        kills := kills + [Kill(victim, killer)];
      }
    }

    // The body of the pair loop.
    method Pair(a: Unit, b: Unit, front: FrontTest)
      requires a.id.index in combatant && b.id.index in combatant
      modifies this
      ensures State() == PairStep(old(State()), a, b, front)
    {
      if a.station && b.station {
        return;
      }
      if a.station || b.station {
        var ship := if a.station then b else a;
        var hull := if a.station then a else b;
        if !Within(ship.pos, hull.pos, STATION_CONTACT_RANGE) {
          return;
        }
        if combatant[ship.id.index].invulnTicks > 0 || ship.id.index in dead {
          return;
        }
        var destroyed := DamageHull(ship.id.index, STATION_CRASH_DAMAGE, front(ship.id.index, hull.pos));
        if destroyed {
          ReportKill(ship.id, hull.id.index);
        }
        return;
      }
      if !Within(a.pos, b.pos, SHIP_CONTACT_RANGE) {
        return;
      }
      if combatant[a.id.index].invulnTicks == 0 && a.id.index !in dead {
        var destroyed := DamageHull(a.id.index, SHIP_RAM_DAMAGE, front(a.id.index, b.pos));
        if destroyed {
          ReportKill(a.id, b.id.index);
        }
      }
      if combatant[b.id.index].invulnTicks == 0 && b.id.index !in dead {
        var destroyed := DamageHull(b.id.index, SHIP_RAM_DAMAGE, front(b.id.index, a.pos));
        if destroyed {
          ReportKill(b.id, a.id.index);
        }
      }
    }

    // One more partner of unit i.
    method VisitPartner(units: seq<Unit>, i: nat, j: nat, front: FrontTest, ghost st: Sweep)
      requires UnitsOk(units, st.hulls) && i < j < |units|
      requires State() == Row(units, st, i, i + 1, j, front)
      modifies this
      ensures State() == Row(units, st, i, i + 1, j + 1, front)
    {
      Pair(units[i], units[j], front);
    }

    // The inner loop over the sorted candidates of unit i.
    method SweepRow(units: seq<Unit>, i: nat, nearby: seq<nat>, front: FrontTest)
      requires UnitsOk(units, Hulls(combatant, shields)) && i < |units|
      requires nearby == Neighbours(Positions(units), units[i].pos, 1, |units|)
      modifies this
      ensures State() == Row(units, old(State()), i, i + 1, |units|, front)
    {
      ghost var st := State();
      NeighboursBounded(Positions(units), units[i].pos, 1);
      var next := 0;
      ghost var upTo := i + 1;
      while next < |nearby|
        invariant 0 <= next <= |nearby| && i + 1 <= upTo <= |units|
        invariant upTo == if next > 0 && nearby[next - 1] > i then nearby[next - 1] + 1 else i + 1
        invariant State() == Row(units, st, i, i + 1, upTo, front)
      {
        var j := nearby[next];
        if j > i {
          SkipGap(units, st, i, upTo, j, nearby, next, front);
          VisitPartner(units, i, j, front, st);
          upTo := j + 1;
        }
        next := next + 1;
      }
      SkipGap(units, st, i, upTo, |units|, nearby, next, front);
    }

    // One turn of the outer loop.
    method SweepUnit(units: seq<Unit>, i: nat, grid: Grid, front: FrontTest)
      requires UnitsOk(units, Hulls(combatant, shields)) && i < |units|
      requires grid.cellSize == BROADPHASE_CELL && grid.Holds(Positions(units))
      modifies this
      ensures State() == Row(units, old(State()), i, i + 1, |units|, front)
    {
      var nearby := QuerySortedNeighbours(grid, units[i].pos, 1, Positions(units));
      SweepRow(units, i, nearby, front);
    }

    // Where the outer loop stands after n units.
    ghost predicate Swept(units: seq<Unit>, n: nat, front: FrontTest, st: Sweep)
      requires UnitsOk(units, st.hulls) && n <= |units|
      reads this
    {
      State() == Rows(units, st, n, front)
    }

    method PairTurn(units: seq<Unit>, i: nat, grid: Grid, front: FrontTest, ghost st: Sweep)
      requires UnitsOk(units, st.hulls) && i < |units|
      requires grid.cellSize == BROADPHASE_CELL && grid.Holds(Positions(units))
      requires Swept(units, i, front, st)
      modifies this
      ensures Swept(units, i + 1, front, st)
    {
      SweepUnit(units, i, grid, front);
    }

    // The outer loop.
    method PairPass(units: seq<Unit>, grid: Grid, front: FrontTest)
      requires UnitsOk(units, Hulls(combatant, shields))
      requires grid.cellSize == BROADPHASE_CELL && grid.Holds(Positions(units))
      modifies this
      ensures State() == Rows(units, old(State()), |units|, front)
    {
      ghost var st := State();
      var i := 0;
      while i < |units|
        invariant 0 <= i <= |units| && Swept(units, i, front, st)
      {
        PairTurn(units, i, grid, front, st);
        i := i + 1;
      }
    }

    // StepCollisions, from the gathered units on.
    method StepCollisions(units: seq<Unit>, planets: seq<Planet>, grid: Grid, front: FrontTest) returns (out: seq<Kill>)
      requires UnitsOk(units, Hulls(combatant, shields)) && grid.cellSize == BROADPHASE_CELL
      modifies this, grid
      ensures var full := FullSweep(units, old(Hulls(combatant, shields)), planets, front);
              && Hulls(combatant, shields) == full.hulls && dead == full.dead && out == full.kills
    {
      dead, kills := {}, [];
      grid.Rebuild(Positions(units));
      PairPass(units, grid, front);
      PlanetPass(units, planets);
      return kills;
    }

    method PlanetPass(units: seq<Unit>, planets: seq<Planet>)
      requires UnitsOk(units, Hulls(combatant, shields))
      modifies this
      ensures State() == Crashes(units, old(State()), planets, |units|)
    {
      ghost var swept := State();
      if |planets| > 0 {
        var i := 0;
        while i < |units|
          invariant 0 <= i <= |units|
          invariant State() == Crashes(units, swept, planets, i)
        {
          CrashUnit(units[i], planets);
          i := i + 1;
        }
      } else {
        NoPlanets(units, swept, |units|);
      }
    }

    method CrashUnit(u: Unit, planets: seq<Planet>)
      requires u.id.index in combatant
      modifies this
      ensures State() == Crash(old(State()), u, planets)
    {
      if u.station || combatant[u.id.index].invulnTicks > 0 || u.id.index in dead {
        return;
      }
      var k := 0;
      while k < |planets|
        invariant 0 <= k <= |planets|
        invariant FirstPlanet(u, planets, 0) == FirstPlanet(u, planets, k)
      {
        if Within(u.pos, planets[k].pos, PLANET_KILL_RADIUS) {
          combatant := combatant[u.id.index := combatant[u.id.index].(energy := 0)];
          ReportKill(u.id, planets[k].id.index);
          return;
        }
        k := k + 1;
      }
    }
  }

  lemma {:induction false} GapNotClose(units: seq<Unit>, i: nat, nearby: seq<nat>, next: nat, upTo: nat, j: nat)
    requires i < |units| && j <= |units| && nearby == Neighbours(Positions(units), units[i].pos, 1, |units|)
    requires next <= |nearby| && (if next < |nearby| then nearby[next] == j else j == |units|)
    requires forall k :: 0 <= k < next ==> nearby[k] < upTo
    ensures forall k: nat :: upTo <= k < j ==> !Close(units[i].pos, units[k].pos)
  {
    GapIsFar(Positions(units), units[i].pos, 1, nearby, next, upTo, j);
    forall k: nat | upTo <= k < j
      ensures !Close(units[i].pos, units[k].pos)
    {
      assert !NearIndex(Positions(units), BROADPHASE_CELL, units[i].pos, 1, k);
    }
  }

  lemma SkipGap(units: seq<Unit>, st: Sweep, i: nat, upTo: nat, j: nat, nearby: seq<nat>, next: nat, front: FrontTest)
    requires UnitsOk(units, st.hulls) && i < upTo <= j <= |units|
    requires nearby == Neighbours(Positions(units), units[i].pos, 1, |units|)
    requires next <= |nearby| && (if next < |nearby| then nearby[next] == j else j == |units|)
    requires forall k :: 0 <= k < next ==> nearby[k] < upTo
    ensures Row(units, st, i, i + 1, j, front) == Row(units, st, i, i + 1, upTo, front)
  {
    GapNotClose(units, i, nearby, next, upTo, j);
    FarStretchSkips(units, st, i, i + 1, upTo, j, front);
  }

  lemma {:induction false} NoPlanets(units: seq<Unit>, st: Sweep, n: nat)
    requires UnitsOk(units, st.hulls) && n <= |units|
    ensures Crashes(units, st, [], n) == st
  {
    if n > 0 {
      NoPlanets(units, st, n - 1);
    }
  }
}
