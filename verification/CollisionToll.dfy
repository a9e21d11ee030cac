// What a ship that survives a collision step has paid: one toll per contact, whatever the
// order the pairs were swept in.
module CollisionToll {
  import opened Ecs
  import opened Broadphase
  import opened Combat
  import opened CollisionSystem
  import opened CollisionOutcome

  // Points ship u loses to its contact with o.
  function Harm(u: Unit, o: Unit): (points: int)
    ensures points >= 0
  {
    if o.station then if Within(u.pos, o.pos, STATION_CONTACT_RANGE) then STATION_CRASH_DAMAGE else 0
    else if Within(u.pos, o.pos, SHIP_CONTACT_RANGE) then SHIP_RAM_DAMAGE else 0
  }

  // All contacts of unit u among the first n.
  ghost function Contacts(units: seq<Unit>, u: nat, n: nat): int
    requires u < |units| && n <= |units|
  {
    if n == 0 then 0 else Contacts(units, u, n - 1) + if n - 1 == u then 0 else Harm(units[u], units[n - 1])
  }

  // What contact with o costs one face of u.
  ghost function FaceHarm(u: Unit, o: Unit, front: FrontTest, face: bool): (points: int)
    ensures points >= 0
  {
    if front(u.id.index, o.pos) == face then Harm(u, o) else 0
  }

  // The same contacts, but only those that land on one face.
  ghost function Toll(units: seq<Unit>, u: nat, n: nat, front: FrontTest, face: bool): int
    requires u < |units| && n <= |units|
  {
    if n == 0 then 0
    else Toll(units, u, n - 1, front, face) + if n - 1 == u then 0 else FaceHarm(units[u], units[n - 1], front, face)
  }

  lemma {:induction false} TollsAreContacts(units: seq<Unit>, u: nat, n: nat, front: FrontTest)
    requires u < |units| && n <= |units|
    ensures Toll(units, u, n, front, true) + Toll(units, u, n, front, false) == Contacts(units, u, n)
    ensures Toll(units, u, n, front, true) >= 0 && Toll(units, u, n, front, false) >= 0
  {
    if n > 0 {
      TollsAreContacts(units, u, n - 1, front);
    }
  }

  // Shields and bank of one hull.
  ghost function Points(h: Hulls, i: nat): int
    requires i in h.combatant
  {
    h.combatant[i].energy + FrontOf(h, i) + AftOf(h, i)
  }

  // A hull without shields has none to lose.
  ghost function FrontOf(h: Hulls, i: nat): int {
    if i in h.shields then h.shields[i].front else 0
  }

  ghost function AftOf(h: Hulls, i: nat): int {
    if i in h.shields then h.shields[i].aft else 0
  }

  ghost predicate ShieldsUp(h: Hulls, i: nat) {
    FrontOf(h, i) >= 0 && AftOf(h, i) >= 0
  }

  // A ship collisions can hurt.
  ghost predicate Exposed(u: Unit, h: Hulls) {
    !u.station && u.id.index in h.combatant && h.combatant[u.id.index].invulnTicks == 0 && ShieldsUp(h, u.id.index)
  }

  // What a toll leaves of a shield, and what gets past it.
  function Left(shield: int, toll: int): int {
    if toll < shield then shield - toll else 0
  }

  function Past(shield: int, toll: int): int {
    if toll < shield then 0 else toll - shield
  }

  // What gets past both shields into the bank.
  ghost function Through(h: Hulls, i: nat, onFront: int, onAft: int): int {
    Past(FrontOf(h, i), onFront) + Past(AftOf(h, i), onAft)
  }

  // Midway through the sweep: each shield of a living ship has lost its face's toll as far as
  // it could, its bank what got past; and of a dead ship at least the bank got past.
  ghost predicate Paid(h0: Hulls, st: Sweep, u: Unit, onFront: int, onAft: int) {
    var i := u.id.index;
    && onFront >= 0 && onAft >= 0
    && i in h0.combatant && Exposed(u, h0) && Exposed(u, st.hulls)
    && if i in st.dead then Through(h0, i, onFront, onAft) >= h0.combatant[i].energy
       else
         && FrontOf(st.hulls, i) == Left(FrontOf(h0, i), onFront)
         && AftOf(st.hulls, i) == Left(AftOf(h0, i), onAft)
         && st.hulls.combatant[i].energy == h0.combatant[i].energy - Through(h0, i, onFront, onAft)
  }

  // A hit on one face.
  function Onto(toll: int, damage: int, front: bool, face: bool): int {
    if front == face then toll + damage else toll
  }

  lemma HitPays(h0: Hulls, st: Sweep, u: Unit, damage: int, front: bool, killer: nat, onFront: int, onAft: int)
    requires Paid(h0, st, u, onFront, onAft) && u.id.index !in st.dead && damage > 0
    ensures Paid(h0, Damage(st, u.id, damage, front, killer), u,
                 Onto(onFront, damage, front, true), Onto(onAft, damage, front, false))
  {
    var i := u.id.index;
    if i in st.hulls.shields {
      var sh := st.hulls.shields[i];
      DamageIsConserved(ShieldState(sh.front, sh.aft, st.hulls.combatant[i].energy), damage, front);
    }
  }

  lemma PaidMore(h0: Hulls, st: Sweep, u: Unit, damage: int, front: bool, onFront: int, onAft: int)
    requires Paid(h0, st, u, onFront, onAft) && u.id.index in st.dead && damage >= 0
    ensures Paid(h0, st, u, Onto(onFront, damage, front, true), Onto(onAft, damage, front, false))
  {
  }

  lemma OtherHitPays(h0: Hulls, st: Sweep, u: Unit, victim: Unit, damage: int, front: bool, killer: nat, onFront: int, onAft: int)
    requires Paid(h0, st, u, onFront, onAft) && victim.id.index != u.id.index
    ensures Paid(h0, Damage(st, victim.id, damage, front, killer), u, onFront, onAft)
  {
    ApplyDamageTouchesOne(st.hulls, victim.id.index, damage, front);
  }

  // What the ram of a by b costs one face of u.
  ghost function RamOn(u: Unit, a: Unit, b: Unit, front: FrontTest, face: bool): int {
    if a == u && front(u.id.index, b.pos) == face then SHIP_RAM_DAMAGE else 0
  }

  lemma RamPays(h0: Hulls, st: Sweep, u: Unit, a: Unit, b: Unit, front: FrontTest, onFront: int, onAft: int) returns (r: Sweep)
    requires Paid(h0, st, u, onFront, onAft) && SameOrApart(u, a) && a.id.index in st.hulls.combatant
    ensures r == Ram(st, a, b, front) && r.hulls.combatant.Keys == st.hulls.combatant.Keys
    ensures Paid(h0, r, u, onFront + RamOn(u, a, b, front, true), onAft + RamOn(u, a, b, front, false))
  {
    r := Ram(st, a, b, front);
    if a != u {
      OtherHitPays(h0, st, u, a, SHIP_RAM_DAMAGE, front(a.id.index, b.pos), b.id.index, onFront, onAft);
    } else if u.id.index in st.dead {
      PaidMore(h0, st, u, SHIP_RAM_DAMAGE, front(u.id.index, b.pos), onFront, onAft);
    } else {
      HitPays(h0, st, u, SHIP_RAM_DAMAGE, front(u.id.index, b.pos), b.id.index, onFront, onAft);
    }
  }

  lemma ScrapePays(h0: Hulls, st: Sweep, u: Unit, ship: Unit, hull: Unit, front: FrontTest, onFront: int, onAft: int)
    requires Paid(h0, st, u, onFront, onAft) && SameOrApart(u, ship) && ship.id.index in st.hulls.combatant && hull.station
    ensures var points := if ship == u then Harm(u, hull) else 0;
            var face := front(u.id.index, hull.pos);
            Paid(h0, Scrape(st, ship, hull, front), u, Onto(onFront, points, face, true), Onto(onAft, points, face, false))
  {
    if ship != u {
      OtherHitPays(h0, st, u, ship, STATION_CRASH_DAMAGE, front(ship.id.index, hull.pos), hull.id.index, onFront, onAft);
    } else if u.id.index in st.dead {
      PaidMore(h0, st, u, Harm(u, hull), front(u.id.index, hull.pos), onFront, onAft);
    } else if Within(u.pos, hull.pos, STATION_CONTACT_RANGE) {
      HitPays(h0, st, u, STATION_CRASH_DAMAGE, front(u.id.index, hull.pos), hull.id.index, onFront, onAft);
    }
  }

  // What the pair (a, b) costs one face of u.
  ghost function Share(u: Unit, a: Unit, b: Unit, front: FrontTest, face: bool): int {
    if a == u then FaceHarm(u, b, front, face) else if b == u then FaceHarm(u, a, front, face) else 0
  }

  // Two ships in contact hurt each other once.
  lemma RamShare(u: Unit, a: Unit, b: Unit, front: FrontTest, face: bool)
    requires a != b && !a.station && !b.station && Within(a.pos, b.pos, SHIP_CONTACT_RANGE)
    ensures Share(u, a, b, front, face) == RamOn(u, a, b, front, face) + RamOn(u, b, a, front, face)
  {
    assert Within(b.pos, a.pos, SHIP_CONTACT_RANGE);
  }

  lemma BothRam(h0: Hulls, st: Sweep, u: Unit, a: Unit, b: Unit, front: FrontTest, onFront: int, onAft: int) returns (r: Sweep)
    requires Paid(h0, st, u, onFront, onAft) && SameOrApart(u, a) && SameOrApart(u, b) && a != b
    requires a.id.index in st.hulls.combatant && b.id.index in st.hulls.combatant
    requires !a.station && !b.station && Within(a.pos, b.pos, SHIP_CONTACT_RANGE)
    ensures r == Ram(Ram(st, a, b, front), b, a, front)
    ensures Paid(h0, r, u, onFront + Share(u, a, b, front, true), onAft + Share(u, a, b, front, false))
  {
    RamShare(u, a, b, front, true);
    RamShare(u, a, b, front, false);
    r := RamPays(h0, st, u, a, b, front, onFront, onAft);
    r := RamPays(h0, r, u, b, a, front, onFront + RamOn(u, a, b, front, true), onAft + RamOn(u, a, b, front, false));
  }

  lemma PairPays(h0: Hulls, st: Sweep, u: Unit, a: Unit, b: Unit, front: FrontTest, onFront: int, onAft: int) returns (r: Sweep)
    requires Paid(h0, st, u, onFront, onAft) && SameOrApart(u, a) && SameOrApart(u, b) && a != b
    requires a.id.index in st.hulls.combatant && b.id.index in st.hulls.combatant
    ensures r == PairStep(st, a, b, front)
    ensures Paid(h0, r, u, onFront + Share(u, a, b, front, true), onAft + Share(u, a, b, front, false))
  {
    r := PairStep(st, a, b, front);
    if a.station && b.station {
    } else if a.station {
      ScrapePays(h0, st, u, b, a, front, onFront, onAft);
    } else if b.station {
      ScrapePays(h0, st, u, a, b, front, onFront, onAft);
    } else if Within(a.pos, b.pos, SHIP_CONTACT_RANGE) {
      r := BothRam(h0, st, u, a, b, front, onFront, onAft);
    }
  }

  ghost function RowShare(units: seq<Unit>, u: nat, i: nat, lo: nat, hi: nat, front: FrontTest, face: bool): int
    requires u < |units| && i < |units| && lo <= hi <= |units|
    decreases hi
  {
    if hi == lo then 0
    else RowShare(units, u, i, lo, hi - 1, front, face) + Share(units[u], units[i], units[hi - 1], front, face)
  }

  ghost function RowsShare(units: seq<Unit>, u: nat, n: nat, front: FrontTest, face: bool): int
    requires u < |units| && n <= |units|
  {
    if n == 0 then 0 else RowsShare(units, u, n - 1, front, face) + RowShare(units, u, n - 1, n, |units|, front, face)
  }

  lemma MeetingPays(units: seq<Unit>, h0: Hulls, st: Sweep, i: nat, j: nat, front: FrontTest, u: nat, onFront: int, onAft: int)
    returns (r: Sweep)
    requires UnitsOk(units, st.hulls) && i < j < |units| && u < |units| && Paid(h0, st, units[u], onFront, onAft)
    ensures r == PairStep(st, units[i], units[j], front)
    ensures Paid(h0, r, units[u], onFront + Share(units[u], units[i], units[j], front, true),
                 onAft + Share(units[u], units[i], units[j], front, false))
  {
    r := PairPays(h0, st, units[u], units[i], units[j], front, onFront, onAft);
  }

  lemma {:induction false} RowPays(units: seq<Unit>, h0: Hulls, st: Sweep, i: nat, lo: nat, hi: nat, front: FrontTest, u: nat,
                                   onFront: int, onAft: int)
    returns (r: Sweep)
    requires UnitsOk(units, st.hulls) && i < lo <= hi <= |units| && u < |units| && Paid(h0, st, units[u], onFront, onAft)
    ensures r == Row(units, st, i, lo, hi, front)
    ensures Paid(h0, r, units[u], onFront + RowShare(units, u, i, lo, hi, front, true),
                 onAft + RowShare(units, u, i, lo, hi, front, false))
    decreases hi
  {
    r := st;
    if lo < hi {
      var before := RowPays(units, h0, st, i, lo, hi - 1, front, u, onFront, onAft);
      assert UnitsOk(units, before.hulls);
      r := MeetingPays(units, h0, before, i, hi - 1, front, u,
                       onFront + RowShare(units, u, i, lo, hi - 1, front, true),
                       onAft + RowShare(units, u, i, lo, hi - 1, front, false));
    }
  }

  lemma {:induction false} RowsPay(units: seq<Unit>, h0: Hulls, n: nat, front: FrontTest, u: nat) returns (r: Sweep)
    requires UnitsOk(units, h0) && n <= |units| && u < |units| && Exposed(units[u], h0)
    ensures r == Rows(units, Sweep(h0, {}, []), n, front)
    ensures Paid(h0, r, units[u], RowsShare(units, u, n, front, true), RowsShare(units, u, n, front, false))
  {
    r := Sweep(h0, {}, []);
    if n > 0 {
      r := RowsPay(units, h0, n - 1, front, u);
      r := RowPays(units, h0, r, n - 1, n, |units|, front, u,
                   RowsShare(units, u, n - 1, front, true), RowsShare(units, u, n - 1, front, false));
    }
  }

  // Row i meets unit u once if i comes before u, never if it comes after; u's own row meets
  // everything after it.
  lemma {:induction false} RowShareIs(units: seq<Unit>, h: Hulls, u: nat, i: nat, lo: nat, hi: nat, front: FrontTest, face: bool)
    requires UnitsOk(units, h) && u < |units| && i < lo <= hi <= |units|
    ensures RowShare(units, u, i, lo, hi, front, face) ==
            if i == u then Toll(units, u, hi, front, face) - Toll(units, u, lo, front, face)
            else if lo <= u < hi then FaceHarm(units[u], units[i], front, face) else 0
    decreases hi
  {
    if lo < hi {
      RowShareIs(units, h, u, i, lo, hi - 1, front, face);
      assert units[i] == units[u] <==> i == u;
      assert units[hi - 1] == units[u] <==> hi - 1 == u;
    }
  }

  // The i < j sweep meets every pair once.
  lemma {:induction false} RowsShareIs(units: seq<Unit>, h: Hulls, u: nat, n: nat, front: FrontTest, face: bool)
    requires UnitsOk(units, h) && u < |units| && n <= |units|
    ensures RowsShare(units, u, n, front, face)
         == if n <= u then Toll(units, u, n, front, face) else Toll(units, u, |units|, front, face)
  {
    if n > 0 {
      RowsShareIs(units, h, u, n - 1, front, face);
      RowShareIs(units, h, u, n - 1, n, |units|, front, face);
    }
  }

  // The ledger of the whole sweep.
  lemma SweepPays(units: seq<Unit>, h: Hulls, front: FrontTest, u: nat) returns (r: Sweep)
    requires UnitsOk(units, h) && u < |units| && Exposed(units[u], h)
    ensures r == Rows(units, Sweep(h, {}, []), |units|, front)
    ensures Paid(h, r, units[u], Toll(units, u, |units|, front, true), Toll(units, u, |units|, front, false))
  {
    r := RowsPay(units, h, |units|, front, u);
    RowsShareIs(units, h, u, |units|, front, true);
    RowsShareIs(units, h, u, |units|, front, false);
  }

  lemma {:induction false} CrashesSpare(units: seq<Unit>, st: Sweep, planets: seq<Planet>, n: nat, u: nat)
    requires UnitsOk(units, st.hulls) && n <= |units| && u < |units|
    ensures var r := Crashes(units, st, planets, n);
            var i := units[u].id.index;
            (i in st.dead ==> i in r.dead) && (i !in r.dead ==> SameHull(st.hulls, r.hulls, i))
  {
    if n > 0 {
      CrashesSpare(units, st, planets, n - 1, u);
      CrashSpares(Crashes(units, st, planets, n - 1), units[n - 1], planets, units[u].id.index);
    }
  }

  lemma CrashSpares(st: Sweep, v: Unit, planets: seq<Planet>, i: nat)
    requires v.id.index in st.hulls.combatant && i in st.hulls.combatant
    ensures var r := Crash(st, v, planets);
            (i in st.dead ==> i in r.dead) && (i !in r.dead ==> SameHull(st.hulls, r.hulls, i))
  {
  }

  // An exposed ship that is not reported has lost exactly 100 points per ship and 200 per
  // station in contact, off its shields and bank together: every contact once, none twice.
  lemma SurvivorsPayPerContact(units: seq<Unit>, h: Hulls, planets: seq<Planet>, front: FrontTest, u: nat)
    requires UnitsOk(units, h) && u < |units| && Exposed(units[u], h)
    ensures var full := FullSweep(units, h, planets, front);
            && units[u].id.index in full.hulls.combatant
            && (!Killed(full.kills, units[u].id.index) ==>
                  Points(full.hulls, units[u].id.index) == Points(h, units[u].id.index) - Contacts(units, u, |units|))
  {
    var start := Sweep(h, {}, []);
    var swept := SweepPays(units, h, front, u);
    TollsAreContacts(units, u, |units|, front);
    assert KillsOk(start);
    RowsReport(units, start, |units|, front);
    CrashesReport(units, swept, planets, |units|);
    CrashesSpare(units, swept, planets, |units|, u);
  }

  // ---------------------------------------------------------------------------
  // Who dies
  // ---------------------------------------------------------------------------

  ghost predicate Clear(u: Unit, planets: seq<Planet>) {
    forall p: nat :: p < |planets| ==> !Within(u.pos, planets[p].pos, PLANET_KILL_RADIUS)
  }

  lemma {:induction false} NoPlanet(u: Unit, planets: seq<Planet>, k: nat)
    requires k <= |planets| && Clear(u, planets)
    ensures FirstPlanet(u, planets, k) == None
    decreases |planets| - k
  {
    if k < |planets| {
      NoPlanet(u, planets, k + 1);
    }
  }

  // The planet pass passes by a unit that is clear of every planet.
  lemma {:induction false} CrashesSkip(units: seq<Unit>, st: Sweep, planets: seq<Planet>, n: nat, u: nat)
    requires UnitsOk(units, st.hulls) && n <= |units| && u < |units| && Clear(units[u], planets)
    ensures units[u].id.index in Crashes(units, st, planets, n).dead <==> units[u].id.index in st.dead
  {
    if n > 0 {
      CrashesSkip(units, st, planets, n - 1, u);
      CrashSkips(Crashes(units, st, planets, n - 1), units[n - 1], planets, units[u]);
    }
  }

  lemma CrashSkips(st: Sweep, v: Unit, planets: seq<Planet>, u: Unit)
    requires v.id.index in st.hulls.combatant && SameOrApart(u, v) && Clear(u, planets)
    ensures u.id.index in Crash(st, v, planets).dead <==> u.id.index in st.dead
  {
    if u == v {
      NoPlanet(u, planets, 0);
    }
  }

  // A ship with energy, clear of the planets, is destroyed exactly when what its contacts get
  // past its two shields is worth its bank.
  lemma DeathExactly(units: seq<Unit>, h: Hulls, planets: seq<Planet>, front: FrontTest, u: nat)
    requires UnitsOk(units, h) && u < |units| && Exposed(units[u], h) && Clear(units[u], planets)
    requires h.combatant[units[u].id.index].energy > 0
    ensures var i := units[u].id.index;
            var (onFront, onAft) := (Toll(units, u, |units|, front, true), Toll(units, u, |units|, front, false));
            Killed(FullSweep(units, h, planets, front).kills, i) <==> Through(h, i, onFront, onAft) >= h.combatant[i].energy
  {
    var swept := SweepPays(units, h, front, u);
    RowsKeep(units, h, |units|, front, u);
    assert KillsOk(Sweep(h, {}, []));
    RowsReport(units, Sweep(h, {}, []), |units|, front);
    CrashesReport(units, swept, planets, |units|);
    CrashesSkip(units, swept, planets, |units|, u);
  }

  // So only contacts worth its bank destroy it, and contacts worth its bank and shields
  // together always do, whichever faces they land on.
  lemma ContactsDestroy(units: seq<Unit>, h: Hulls, planets: seq<Planet>, front: FrontTest, u: nat)
    requires UnitsOk(units, h) && u < |units| && Exposed(units[u], h) && Clear(units[u], planets)
    requires h.combatant[units[u].id.index].energy > 0
    ensures var (i, toll) := (units[u].id.index, Contacts(units, u, |units|));
            var destroyed := Killed(FullSweep(units, h, planets, front).kills, i);
            && (destroyed ==> toll >= h.combatant[i].energy)
            && (toll >= Points(h, i) ==> destroyed)
  {
    DeathExactly(units, h, planets, front, u);
    TollsAreContacts(units, u, |units|, front);
  }

  // Without shields that is exact.
  lemma UnshieldedDeathExactly(units: seq<Unit>, h: Hulls, planets: seq<Planet>, front: FrontTest, u: nat)
    requires UnitsOk(units, h) && u < |units| && Exposed(units[u], h) && Clear(units[u], planets)
    requires h.combatant[units[u].id.index].energy > 0 && units[u].id.index !in h.shields
    ensures Killed(FullSweep(units, h, planets, front).kills, units[u].id.index)
       <==> Contacts(units, u, |units|) >= h.combatant[units[u].id.index].energy
  {
    ContactsDestroy(units, h, planets, front, u);
  }

  // ---------------------------------------------------------------------------
  // Who is blamed
  // ---------------------------------------------------------------------------

  // A unit the victim was in contact with, or a planet it was inside of.
  ghost predicate Culprit(units: seq<Unit>, planets: seq<Planet>, v: Unit, killer: nat) {
    || (exists o: nat :: o < |units| && units[o] != v && units[o].id.index == killer && Harm(v, units[o]) > 0)
    || (exists p: nat :: p < |planets| && planets[p].id.index == killer && Within(v.pos, planets[p].pos, PLANET_KILL_RADIUS))
  }

  ghost predicate Blamed(units: seq<Unit>, planets: seq<Planet>, k: Kill) {
    exists v: nat :: v < |units| && units[v].id == k.victim && !units[v].station && Culprit(units, planets, units[v], k.killer)
  }

  ghost predicate AllBlamed(units: seq<Unit>, planets: seq<Planet>, st: Sweep) {
    forall k :: 0 <= k < |st.kills| ==> Blamed(units, planets, st.kills[k])
  }

  lemma ReportBlames(units: seq<Unit>, planets: seq<Planet>, st: Sweep, v: nat, killer: nat)
    requires AllBlamed(units, planets, st) && v < |units| && !units[v].station && Culprit(units, planets, units[v], killer)
    ensures AllBlamed(units, planets, Report(st, units[v].id, killer))
  {
    assert Blamed(units, planets, Kill(units[v].id, killer));
  }

  lemma DamageBlames(units: seq<Unit>, planets: seq<Planet>, st: Sweep, v: nat, o: nat, damage: int, front: bool)
    requires AllBlamed(units, planets, st) && v < |units| && o < |units|
    requires !units[v].station && units[o] != units[v] && Harm(units[v], units[o]) > 0
    ensures AllBlamed(units, planets, Damage(st, units[v].id, damage, front, units[o].id.index))
  {
    assert Culprit(units, planets, units[v], units[o].id.index);
    ReportBlames(units, planets, st.(hulls := ApplyDamage(st.hulls, units[v].id.index, damage, front).0), v, units[o].id.index);
  }

  lemma RamBlames(units: seq<Unit>, planets: seq<Planet>, st: Sweep, v: nat, o: nat, front: FrontTest)
    requires AllBlamed(units, planets, st) && v < |units| && o < |units| && units[v].id.index in st.hulls.combatant
    requires !units[v].station && units[o] != units[v] && Harm(units[v], units[o]) > 0
    ensures AllBlamed(units, planets, Ram(st, units[v], units[o], front))
  {
    DamageBlames(units, planets, st, v, o, SHIP_RAM_DAMAGE, front(units[v].id.index, units[o].pos));
  }

  lemma ScrapeBlames(units: seq<Unit>, planets: seq<Planet>, st: Sweep, v: nat, o: nat, front: FrontTest)
    requires AllBlamed(units, planets, st) && v < |units| && o < |units| && units[v].id.index in st.hulls.combatant
    requires !units[v].station && units[o].station
    ensures AllBlamed(units, planets, Scrape(st, units[v], units[o], front))
  {
    if Within(units[v].pos, units[o].pos, STATION_CONTACT_RANGE) {
      DamageBlames(units, planets, st, v, o, STATION_CRASH_DAMAGE, front(units[v].id.index, units[o].pos));
    }
  }

  lemma PairBlames(units: seq<Unit>, planets: seq<Planet>, st: Sweep, i: nat, j: nat, front: FrontTest) returns (r: Sweep)
    requires AllBlamed(units, planets, st) && i < |units| && j < |units| && units[i] != units[j]
    requires units[i].id.index in st.hulls.combatant && units[j].id.index in st.hulls.combatant
    ensures r == PairStep(st, units[i], units[j], front) && AllBlamed(units, planets, r)
  {
    var (a, b) := (units[i], units[j]);
    r := PairStep(st, a, b, front);
    if a.station && b.station {
    } else if a.station {
      ScrapeBlames(units, planets, st, j, i, front);
    } else if b.station {
      ScrapeBlames(units, planets, st, i, j, front);
    } else if Within(a.pos, b.pos, SHIP_CONTACT_RANGE) {
      RamBlames(units, planets, st, i, j, front);
      RamBlames(units, planets, Ram(st, a, b, front), j, i, front);
    }
  }

  lemma MeetingBlames(units: seq<Unit>, planets: seq<Planet>, st: Sweep, i: nat, j: nat, front: FrontTest) returns (r: Sweep)
    requires UnitsOk(units, st.hulls) && AllBlamed(units, planets, st) && i < j < |units|
    ensures r == PairStep(st, units[i], units[j], front) && AllBlamed(units, planets, r)
  {
    r := PairBlames(units, planets, st, i, j, front);
  }

  lemma {:induction false} RowBlames(units: seq<Unit>, planets: seq<Planet>, st: Sweep, i: nat, lo: nat, hi: nat, front: FrontTest)
    returns (r: Sweep)
    requires UnitsOk(units, st.hulls) && i < lo <= hi <= |units| && AllBlamed(units, planets, st)
    ensures r == Row(units, st, i, lo, hi, front) && AllBlamed(units, planets, r)
    decreases hi
  {
    r := st;
    if lo < hi {
      var before := RowBlames(units, planets, st, i, lo, hi - 1, front);
      assert UnitsOk(units, before.hulls);
      r := MeetingBlames(units, planets, before, i, hi - 1, front);
    }
  }

  lemma {:induction false} RowsBlame(units: seq<Unit>, planets: seq<Planet>, st: Sweep, n: nat, front: FrontTest) returns (r: Sweep)
    requires UnitsOk(units, st.hulls) && n <= |units| && AllBlamed(units, planets, st)
    ensures r == Rows(units, st, n, front) && AllBlamed(units, planets, r)
  {
    r := st;
    if n > 0 {
      r := RowsBlame(units, planets, st, n - 1, front);
      r := RowBlames(units, planets, r, n - 1, n, |units|, front);
    }
  }

  lemma {:induction false} PlanetFound(u: Unit, planets: seq<Planet>, k: nat) returns (p: nat)
    requires k <= |planets| && FirstPlanet(u, planets, k).Some?
    ensures p < |planets| && Within(u.pos, planets[p].pos, PLANET_KILL_RADIUS)
    ensures FirstPlanet(u, planets, k) == Some(planets[p].id.index)
    decreases |planets| - k
  {
    p := k;
    if !Within(u.pos, planets[k].pos, PLANET_KILL_RADIUS) {
      p := PlanetFound(u, planets, k + 1);
    }
  }

  lemma CrashBlames(units: seq<Unit>, planets: seq<Planet>, st: Sweep, v: nat) returns (r: Sweep)
    requires v < |units| && units[v].id.index in st.hulls.combatant && AllBlamed(units, planets, st)
    ensures r == Crash(st, units[v], planets) && AllBlamed(units, planets, r)
  {
    r := Crash(st, units[v], planets);
    if !units[v].station && FirstPlanet(units[v], planets, 0).Some? {
      var p := PlanetFound(units[v], planets, 0);
      assert Culprit(units, planets, units[v], planets[p].id.index);
      assert Blamed(units, planets, Kill(units[v].id, planets[p].id.index));
    }
  }

  lemma {:induction false} CrashesBlame(units: seq<Unit>, planets: seq<Planet>, st: Sweep, n: nat) returns (r: Sweep)
    requires UnitsOk(units, st.hulls) && n <= |units| && AllBlamed(units, planets, st)
    ensures r == Crashes(units, st, planets, n) && AllBlamed(units, planets, r)
  {
    r := st;
    if n > 0 {
      r := CrashesBlame(units, planets, st, n - 1);
      r := CrashBlames(units, planets, r, n - 1);
    }
  }

  // Every reported kill is of a ship, to the credit of a unit that was in contact with it or
  // a planet it was inside of.
  lemma KillersWereThere(units: seq<Unit>, h: Hulls, planets: seq<Planet>, front: FrontTest)
    requires UnitsOk(units, h)
    ensures AllBlamed(units, planets, FullSweep(units, h, planets, front))
  {
    var swept := RowsBlame(units, planets, Sweep(h, {}, []), |units|, front);
    var r := CrashesBlame(units, planets, swept, |units|);
  }
}
