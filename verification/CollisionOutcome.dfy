// What a collision step means for the hulls, independently of how pairs are found.
module CollisionOutcome {
  import opened Ecs
  import opened Broadphase
  import opened Combat
  import opened CollisionSystem

  ghost predicate VictimsDistinct(kills: seq<Kill>) {
    forall i, j :: 0 <= i < j < |kills| ==> kills[i].victim.index != kills[j].victim.index
  }

  // The dead set and the kill list tell the same story, once per victim.
  ghost predicate KillsOk(st: Sweep) {
    VictimsDistinct(st.kills) && forall i :: i in st.dead <==> Killed(st.kills, i)
  }

  // A hull no collision may hurt.
  predicate Untouchable(u: Unit, h: Hulls)
    requires u.id.index in h.combatant
  {
    u.station || h.combatant[u.id.index].invulnTicks > 0
  }

  // One unit midway through the sweep, against the hulls h0 it started from: only its
  // energy and shields may have changed, it is dead exactly when a positive bank ran out,
  // and if it may not be hurt nothing changed at all.
  ghost predicate UnitOk(h0: Hulls, st: Sweep, u: Unit) {
    var i := u.id.index;
    && i in h0.combatant && i in st.hulls.combatant
    && (i in st.dead ==> st.hulls.combatant[i].energy <= 0)
    && (i !in st.dead && h0.combatant[i].energy > 0 ==> st.hulls.combatant[i].energy > 0)
    && st.hulls.combatant[i].(energy := 0) == h0.combatant[i].(energy := 0)
    && (Untouchable(u, h0) ==> i !in st.dead && SameHull(h0, st.hulls, i))
  }

  // ---------------------------------------------------------------------------
  // Kill reports
  // ---------------------------------------------------------------------------

  lemma ReportKeeps(st: Sweep, victim: EntityId, killer: nat)
    requires KillsOk(st)
    ensures KillsOk(Report(st, victim, killer))
  {
    var r := Report(st, victim, killer);
    if victim.index !in st.dead {
      forall i
        ensures i in r.dead <==> Killed(r.kills, i)
      {
        if Killed(st.kills, i) {
          var k :| 0 <= k < |st.kills| && st.kills[k].victim.index == i;
          assert r.kills[k].victim.index == i;
        }
        if i == victim.index {
          assert r.kills[|st.kills|].victim.index == i;
        }
      }
      forall k | 0 <= k < |st.kills|
        ensures st.kills[k].victim.index != victim.index
      {
        assert st.kills[k].victim.index == victim.index ==> Killed(st.kills, victim.index);
      }
    }
  }

  lemma DamageReports(st: Sweep, victim: EntityId, damage: int, front: bool, killer: nat)
    requires KillsOk(st)
    ensures KillsOk(Damage(st, victim, damage, front, killer))
  {
    var hit := st.(hulls := ApplyDamage(st.hulls, victim.index, damage, front).0);
    assert KillsOk(hit);
    ReportKeeps(hit, victim, killer);
  }

  lemma RamReports(st: Sweep, a: Unit, b: Unit, front: FrontTest)
    requires a.id.index in st.hulls.combatant && KillsOk(st)
    ensures KillsOk(Ram(st, a, b, front))
  {
    DamageReports(st, a.id, SHIP_RAM_DAMAGE, front(a.id.index, b.pos), b.id.index);
  }

  lemma PairReports(st: Sweep, a: Unit, b: Unit, front: FrontTest)
    requires a.id.index in st.hulls.combatant && b.id.index in st.hulls.combatant && KillsOk(st)
    ensures KillsOk(PairStep(st, a, b, front))
  {
    if a.station || b.station {
      DamageReports(st, b.id, STATION_CRASH_DAMAGE, front(b.id.index, a.pos), a.id.index);
      DamageReports(st, a.id, STATION_CRASH_DAMAGE, front(a.id.index, b.pos), b.id.index);
    } else {
      RamReports(st, a, b, front);
      RamReports(Ram(st, a, b, front), b, a, front);
    }
  }

  lemma {:induction false} RowReports(units: seq<Unit>, st: Sweep, i: nat, lo: nat, hi: nat, front: FrontTest)
    requires UnitsOk(units, st.hulls) && i < |units| && lo <= hi <= |units| && KillsOk(st)
    ensures KillsOk(Row(units, st, i, lo, hi, front))
    decreases hi
  {
    if lo < hi {
      RowReports(units, st, i, lo, hi - 1, front);
      PairReports(Row(units, st, i, lo, hi - 1, front), units[i], units[hi - 1], front);
    }
  }

  lemma {:induction false} RowsReport(units: seq<Unit>, st: Sweep, n: nat, front: FrontTest)
    requires UnitsOk(units, st.hulls) && n <= |units| && KillsOk(st)
    ensures KillsOk(Rows(units, st, n, front))
  {
    if n > 0 {
      RowsReport(units, st, n - 1, front);
      RowReports(units, Rows(units, st, n - 1, front), n - 1, n, |units|, front);
    }
  }

  lemma CrashReports(st: Sweep, u: Unit, planets: seq<Planet>)
    requires u.id.index in st.hulls.combatant && KillsOk(st)
    ensures KillsOk(Crash(st, u, planets))
  {
    var p := FirstPlanet(u, planets, 0);
    if p.Some? {
      var i := u.id.index;
      var hit := st.(hulls := st.hulls.(combatant := st.hulls.combatant[i := st.hulls.combatant[i].(energy := 0)]));
      assert KillsOk(hit);
      ReportKeeps(hit, u.id, p.value);
    }
  }

  lemma {:induction false} CrashesReport(units: seq<Unit>, st: Sweep, planets: seq<Planet>, n: nat)
    requires UnitsOk(units, st.hulls) && n <= |units| && KillsOk(st)
    ensures KillsOk(Crashes(units, st, planets, n))
  {
    if n > 0 {
      CrashesReport(units, st, planets, n - 1);
      CrashReports(Crashes(units, st, planets, n - 1), units[n - 1], planets);
    }
  }

  // ---------------------------------------------------------------------------
  // One unit through the sweep
  // ---------------------------------------------------------------------------

  // Two units of the sweep are the same unit or have different slots.
  ghost predicate SameOrApart(u: Unit, v: Unit) {
    u.id.index == v.id.index ==> u == v
  }

  // A hit keeps every unit right, the one it lands on included, as long as that one may be
  // hurt and is not yet dead.
  lemma DamageKeeps(h0: Hulls, st: Sweep, u: Unit, victim: Unit, damage: int, front: bool, killer: nat)
    requires UnitOk(h0, st, u) && SameOrApart(u, victim) && damage > 0
    requires victim == u ==> !Untouchable(u, h0) && u.id.index !in st.dead
    ensures UnitOk(h0, Damage(st, victim.id, damage, front, killer), u)
  {
    ApplyDamageTouchesOne(st.hulls, victim.id.index, damage, front);
  }

  lemma RamKeeps(h0: Hulls, st: Sweep, u: Unit, a: Unit, b: Unit, front: FrontTest)
    requires UnitOk(h0, st, u) && SameOrApart(u, a) && !a.station && a.id.index in st.hulls.combatant
    ensures UnitOk(h0, Ram(st, a, b, front), u)
  {
    if st.hulls.combatant[a.id.index].invulnTicks == 0 && a.id.index !in st.dead {
      DamageKeeps(h0, st, u, a, SHIP_RAM_DAMAGE, front(a.id.index, b.pos), b.id.index);
    }
  }

  lemma ScrapeKeeps(h0: Hulls, st: Sweep, u: Unit, ship: Unit, hull: Unit, front: FrontTest)
    requires UnitOk(h0, st, u) && SameOrApart(u, ship) && !ship.station && ship.id.index in st.hulls.combatant
    ensures UnitOk(h0, Scrape(st, ship, hull, front), u)
  {
    if st.hulls.combatant[ship.id.index].invulnTicks <= 0 && ship.id.index !in st.dead {
      DamageKeeps(h0, st, u, ship, STATION_CRASH_DAMAGE, front(ship.id.index, hull.pos), hull.id.index);
    }
  }

  lemma PairKeeps(h0: Hulls, st: Sweep, u: Unit, a: Unit, b: Unit, front: FrontTest)
    requires UnitOk(h0, st, u) && SameOrApart(u, a) && SameOrApart(u, b)
    requires a.id.index in st.hulls.combatant && b.id.index in st.hulls.combatant
    ensures UnitOk(h0, PairStep(st, a, b, front), u)
  {
    if a.station && b.station {
    } else if a.station {
      ScrapeKeeps(h0, st, u, b, a, front);
    } else if b.station {
      ScrapeKeeps(h0, st, u, a, b, front);
    } else if Within(a.pos, b.pos, SHIP_CONTACT_RANGE) {
      RamKeeps(h0, st, u, a, b, front);
      RamKeeps(h0, Ram(st, a, b, front), u, b, a, front);
    }
  }

  // The state after one more pair, as a value of its own.
  lemma RowStep(h0: Hulls, st: Sweep, units: seq<Unit>, u: nat, i: nat, j: nat, front: FrontTest) returns (after: Sweep)
    requires UnitsOk(units, st.hulls) && u < |units| && i < |units| && j < |units| && UnitOk(h0, st, units[u])
    ensures after == PairStep(st, units[i], units[j], front) && UnitOk(h0, after, units[u])
  {
    after := PairStep(st, units[i], units[j], front);
    PairKeeps(h0, st, units[u], units[i], units[j], front);
  }

  lemma {:induction false} RowKeeps(units: seq<Unit>, h0: Hulls, st: Sweep, i: nat, lo: nat, hi: nat, front: FrontTest, u: nat)
    returns (after: Sweep)
    requires UnitsOk(units, st.hulls) && i < |units| && lo <= hi <= |units|
    requires u < |units| && UnitOk(h0, st, units[u])
    ensures after == Row(units, st, i, lo, hi, front) && UnitOk(h0, after, units[u])
    decreases hi
  {
    after := st;
    if lo < hi {
      var before := RowKeeps(units, h0, st, i, lo, hi - 1, front, u);
      assert UnitsOk(units, before.hulls);
      after := RowStep(h0, before, units, u, i, hi - 1, front);
    }
  }

  lemma {:induction false} RowsKeep(units: seq<Unit>, h0: Hulls, n: nat, front: FrontTest, u: nat)
    requires UnitsOk(units, h0) && n <= |units| && u < |units|
    ensures UnitOk(h0, Rows(units, Sweep(h0, {}, []), n, front), units[u])
  {
    if n > 0 {
      RowsKeep(units, h0, n - 1, front, u);
      var _ := RowKeeps(units, h0, Rows(units, Sweep(h0, {}, []), n - 1, front), n - 1, n, |units|, front, u);
    }
  }

  lemma CrashKeeps(h0: Hulls, st: Sweep, u: Unit, v: Unit, planets: seq<Planet>)
    requires UnitOk(h0, st, u) && SameOrApart(u, v) && v.id.index in st.hulls.combatant
    ensures UnitOk(h0, Crash(st, v, planets), u)
  {
  }

  lemma {:induction false} CrashesKeep(units: seq<Unit>, h0: Hulls, st: Sweep, planets: seq<Planet>, n: nat, u: nat)
    requires UnitsOk(units, st.hulls) && n <= |units| && u < |units| && UnitOk(h0, st, units[u])
    ensures UnitOk(h0, Crashes(units, st, planets, n), units[u])
  {
    if n > 0 {
      CrashesKeep(units, h0, st, planets, n - 1, u);
      CrashKeeps(h0, Crashes(units, st, planets, n - 1), units[u], units[n - 1], planets);
    }
  }

  // The outcome of a whole step. Each victim is reported once; a hull that had energy is
  // reported exactly when it ends without any; stations and hulls in spawn grace keep
  // every point; and nothing but energy and shields ever changes.
  lemma CollisionOutcome(units: seq<Unit>, h: Hulls, planets: seq<Planet>, front: FrontTest, i: nat)
    requires UnitsOk(units, h) && i < |units|
    ensures var full := FullSweep(units, h, planets, front);
            var index := units[i].id.index;
            && VictimsDistinct(full.kills)
            && index in full.hulls.combatant
            && (h.combatant[index].energy > 0 ==> (Killed(full.kills, index) <==> full.hulls.combatant[index].energy <= 0))
            && (Untouchable(units[i], h) ==> !Killed(full.kills, index) && SameHull(h, full.hulls, index))
            && full.hulls.combatant[index].(energy := 0) == h.combatant[index].(energy := 0)
  {
    var start := Sweep(h, {}, []);
    var swept := Rows(units, start, |units|, front);
    assert KillsOk(start);
    RowsReport(units, start, |units|, front);
    CrashesReport(units, swept, planets, |units|);
    RowsKeep(units, h, |units|, front, i);
    CrashesKeep(units, h, swept, planets, |units|, i);
  }

  // ---------------------------------------------------------------------------
  // Planets
  // ---------------------------------------------------------------------------

  lemma {:induction false} FirstPlanetFinds(u: Unit, planets: seq<Planet>, k: nat, p: nat)
    requires k <= p < |planets| && Within(u.pos, planets[p].pos, PLANET_KILL_RADIUS)
    ensures FirstPlanet(u, planets, k).Some?
    decreases p - k
  {
    if k < p {
      FirstPlanetFinds(u, planets, k + 1, p);
    }
  }

  // Whatever is within a planet's kill radius and may be hurt is dead at the end.
  lemma {:induction false} PlanetsKill(units: seq<Unit>, h0: Hulls, st: Sweep, planets: seq<Planet>, n: nat, i: nat, p: nat)
    requires UnitsOk(units, st.hulls) && i < n <= |units| && p < |planets| && UnitOk(h0, st, units[i])
    requires !Untouchable(units[i], h0) && Within(units[i].pos, planets[p].pos, PLANET_KILL_RADIUS)
    ensures units[i].id.index in Crashes(units, st, planets, n).dead
  {
    if i < n - 1 {
      PlanetsKill(units, h0, st, planets, n - 1, i, p);
    } else {
      CrashesKeep(units, h0, st, planets, n - 1, i);
      FirstPlanetFinds(units[i], planets, 0, p);
    }
  }

  lemma AtmosphereIsLethal(units: seq<Unit>, h: Hulls, planets: seq<Planet>, front: FrontTest, i: nat, p: nat)
    requires UnitsOk(units, h) && i < |units| && p < |planets|
    requires !Untouchable(units[i], h) && Within(units[i].pos, planets[p].pos, PLANET_KILL_RADIUS)
    ensures var full := FullSweep(units, h, planets, front);
            Killed(full.kills, units[i].id.index) && full.hulls.combatant[units[i].id.index].energy <= 0
  {
    var start := Sweep(h, {}, []);
    var swept := Rows(units, start, |units|, front);
    assert KillsOk(start);
    RowsReport(units, start, |units|, front);
    CrashesReport(units, swept, planets, |units|);
    RowsKeep(units, h, |units|, front, i);
    PlanetsKill(units, h, swept, planets, |units|, i, p);
    CrashesKeep(units, h, swept, planets, |units|, i);
  }
}
