// StepCombat of CombatSystem.h: target selection through the grid, simultaneous damage.
module CombatSystem {
  import opened Ecs
  import opened SpatialGrid
  import opened Broadphase
  import opened Combat

  // A combatant in space, as gathered at the start of the tick.
  datatype Fighter = Fighter(id: EntityId, pos: Vec)

  // The components the law looks at.
  datatype Law = Law(players: set<nat>, wanted: map<nat, int>)

  predicate PoliceMayEngage(law: Law, candidate: nat, team: int) {
    team == TEAM_PIRATE || (candidate in law.players && candidate in law.wanted && law.wanted[candidate] > 0)
  }

  predicate DisciplinedShooter(team: int) {
    team == TEAM_POLICE || team == TEAM_PLAYER
  }

  ghost predicate Armed(units: seq<Fighter>, cs: map<nat, Combatant>) {
    forall i: nat :: i < |units| ==> units[i].id.index in cs
  }

  ghost predicate Distinct(units: seq<Fighter>) {
    forall i, j :: 0 <= i < j < |units| ==> units[i].id.index != units[j].id.index
  }

  // ---------------------------------------------------------------------------
  // Target selection over the full scan
  // ---------------------------------------------------------------------------

  predicate Legal(cs: map<nat, Combatant>, law: Law, a: Fighter, b: Fighter)
    requires a.id.index in cs && b.id.index in cs
  {
    var (s, t) := (cs[a.id.index], cs[b.id.index]);
    && t.team != s.team
    && (DisciplinedShooter(s.team) ==> PoliceMayEngage(law, b.id.index, t.team))
    && Within(a.pos, b.pos, s.range)
  }

  // The nearest legal target among the first n units, the earliest on a tie.
  ghost function Nearest(units: seq<Fighter>, cs: map<nat, Combatant>, law: Law, a: Fighter, n: nat): (best: Option<nat>)
    requires Armed(units, cs) && a.id.index in cs && n <= |units|
    ensures best.Some? ==> best.value < n
  {
    if n == 0 then None
    else
      var best := Nearest(units, cs, law, a, n - 1);
      if Legal(cs, law, a, units[n - 1])
         && (best.None? || DistSq(a.pos, units[n - 1].pos) < DistSq(a.pos, units[best.value].pos))
      then Some(n - 1) else best
  }

  // b comes before c in the order targets are preferred in.
  predicate Preferred(units: seq<Fighter>, a: Fighter, b: nat, c: nat)
    requires b < |units| && c < |units|
  {
    var (db, dc) := (DistSq(a.pos, units[b].pos), DistSq(a.pos, units[c].pos));
    db < dc || (db == dc && b <= c)
  }

  ghost predicate IsBest(units: seq<Fighter>, cs: map<nat, Combatant>, law: Law, a: Fighter, n: nat, b: nat)
    requires Armed(units, cs) && a.id.index in cs && n <= |units|
  {
    b < n && Legal(cs, law, a, units[b])
    && forall c: nat :: c < n && Legal(cs, law, a, units[c]) ==> Preferred(units, a, b, c)
  }

  // The scan picks the nearest legal target, the first of those on a tie, and picks
  // nothing only if there is none.
  lemma {:induction false} NearestIsNearest(units: seq<Fighter>, cs: map<nat, Combatant>, law: Law, a: Fighter, n: nat, b: nat)
    requires Armed(units, cs) && a.id.index in cs && n <= |units|
    ensures Nearest(units, cs, law, a, n) == Some(b) <==> IsBest(units, cs, law, a, n, b)
    ensures Nearest(units, cs, law, a, n) == None <==> forall c: nat :: c < n ==> !Legal(cs, law, a, units[c])
    decreases n
  {
    if n > 0 {
      NearestIsNearest(units, cs, law, a, n - 1, b);
      var best := Nearest(units, cs, law, a, n - 1);
      if best.Some? {
        NearestIsNearest(units, cs, law, a, n - 1, best.value);
      }
    }
  }

  // Focus memory: the first unit with the remembered index, if it may be shot at.
  ghost function Focused(units: seq<Fighter>, cs: map<nat, Combatant>, law: Law, a: Fighter, k: nat): (best: Option<nat>)
    requires Armed(units, cs) && a.id.index in cs && k <= |units|
    ensures best.Some? ==> best.value < |units| && Legal(cs, law, a, units[best.value])
    decreases |units| - k
  {
    if k == |units| || cs[a.id.index].focus == None then None
    else if Some(units[k].id.index) != cs[a.id.index].focus then Focused(units, cs, law, a, k + 1)
    else if Legal(cs, law, a, units[k]) then Some(k) else None
  }

  ghost function Pick(units: seq<Fighter>, cs: map<nat, Combatant>, law: Law, a: Fighter): (best: Option<nat>)
    requires Armed(units, cs) && a.id.index in cs
    ensures best.Some? ==> best.value < |units|
  {
    var focused := Focused(units, cs, law, a, 0);
    if focused.Some? then focused else Nearest(units, cs, law, a, |units|)
  }

  // Whoever is shot at is a legal target; whoever has one shoots.
  lemma PickIsLegal(units: seq<Fighter>, cs: map<nat, Combatant>, law: Law, a: Fighter)
    requires Armed(units, cs) && a.id.index in cs
    ensures var best := Pick(units, cs, law, a);
            && (best.Some? ==> Legal(cs, law, a, units[best.value]))
            && (best.None? ==> forall c: nat :: c < |units| ==> !Legal(cs, law, a, units[c]))
  {
    var best := Nearest(units, cs, law, a, |units|);
    NearestIsNearest(units, cs, law, a, |units|, if best.Some? then best.value else 0);
  }

  // A remembered target that may be shot at is the one shot at.
  lemma FocusWins(units: seq<Fighter>, cs: map<nat, Combatant>, law: Law, a: Fighter, b: nat)
    requires Armed(units, cs) && Distinct(units) && a.id.index in cs && b < |units|
    requires cs[a.id.index].focus == Some(units[b].id.index) && Legal(cs, law, a, units[b])
    ensures Pick(units, cs, law, a) == Some(b)
  {
    FocusFound(units, cs, law, a, b, 0);
  }

  lemma {:induction false} FocusFound(units: seq<Fighter>, cs: map<nat, Combatant>, law: Law, a: Fighter, b: nat, k: nat)
    requires Armed(units, cs) && Distinct(units) && a.id.index in cs && k <= b < |units|
    requires cs[a.id.index].focus == Some(units[b].id.index) && Legal(cs, law, a, units[b])
    ensures Focused(units, cs, law, a, k) == Some(b)
    decreases b - k
  {
    if k < b {
      FocusFound(units, cs, law, a, b, k + 1);
    }
  }

  // Everything about a combatant that target selection reads.
  ghost predicate SameGuns(units: seq<Fighter>, cs: map<nat, Combatant>, cs': map<nat, Combatant>) {
    Armed(units, cs) && Armed(units, cs')
    && forall i: nat :: i < |units| ==>
         cs'[units[i].id.index].(fireTimer := 0) == cs[units[i].id.index].(fireTimer := 0)
  }

  lemma {:induction false} NearestUnchanged(units: seq<Fighter>, cs: map<nat, Combatant>, cs': map<nat, Combatant>, law: Law, i: nat, n: nat)
    requires SameGuns(units, cs, cs') && i < |units| && n <= |units|
    ensures Nearest(units, cs', law, units[i], n) == Nearest(units, cs, law, units[i], n)
  {
    if n > 0 {
      NearestUnchanged(units, cs, cs', law, i, n - 1);
      LegalUnchanged(units, cs, cs', law, i, n - 1);
    }
  }

  lemma LegalUnchanged(units: seq<Fighter>, cs: map<nat, Combatant>, cs': map<nat, Combatant>, law: Law, i: nat, j: nat)
    requires SameGuns(units, cs, cs') && i < |units| && j < |units|
    ensures Legal(cs', law, units[i], units[j]) == Legal(cs, law, units[i], units[j])
  {
    assert cs'[units[i].id.index].(fireTimer := 0) == cs[units[i].id.index].(fireTimer := 0);
    assert cs'[units[j].id.index].(fireTimer := 0) == cs[units[j].id.index].(fireTimer := 0);
  }

  lemma {:induction false} FocusedUnchanged(units: seq<Fighter>, cs: map<nat, Combatant>, cs': map<nat, Combatant>, law: Law, i: nat, k: nat)
    requires SameGuns(units, cs, cs') && i < |units| && k <= |units|
    ensures Focused(units, cs', law, units[i], k) == Focused(units, cs, law, units[i], k)
    decreases |units| - k
  {
    assert cs'[units[i].id.index].(fireTimer := 0) == cs[units[i].id.index].(fireTimer := 0);
    if k < |units| {
      FocusedUnchanged(units, cs, cs', law, i, k + 1);
      LegalUnchanged(units, cs, cs', law, i, k);
    }
  }

  lemma PickUnchanged(units: seq<Fighter>, cs: map<nat, Combatant>, cs': map<nat, Combatant>, law: Law, i: nat)
    requires SameGuns(units, cs, cs') && i < |units|
    ensures Pick(units, cs', law, units[i]) == Pick(units, cs, law, units[i])
  {
    FocusedUnchanged(units, cs, cs', law, i, 0);
    NearestUnchanged(units, cs, cs', law, i, |units|);
  }

  // ---------------------------------------------------------------------------
  // The firing pass
  // ---------------------------------------------------------------------------

  datatype Booking = Booking(damage: int, attacker: nat, attackerPos: Vec)

  // Whether unit i shoots this tick, and at whom.
  ghost function Shot(units: seq<Fighter>, cs: map<nat, Combatant>, law: Law, i: nat): (victim: Option<nat>)
    requires Armed(units, cs) && i < |units|
    ensures victim.Some? ==> victim.value < |units|
  {
    var c := cs[units[i].id.index];
    if c.autoEngage && c.fireTimer <= 0 then Pick(units, cs, law, units[i]) else None
  }

  ghost function TimerAfter(units: seq<Fighter>, cs: map<nat, Combatant>, law: Law, i: nat): Combatant
    requires Armed(units, cs) && i < |units|
  {
    var c := cs[units[i].id.index];
    if !c.autoEngage then c
    else if c.fireTimer > 0 then c.(fireTimer := c.fireTimer - 1)
    else if Shot(units, cs, law, i).Some? then c.(fireTimer := c.fireInterval)
    else c
  }

  // What the shots of the first n units add up to at unit v.
  ghost function Booked(units: seq<Fighter>, cs: map<nat, Combatant>, law: Law, v: nat, n: nat): Option<Booking>
    requires Armed(units, cs) && n <= |units|
  {
    if n == 0 then None
    else
      var sofar := Booked(units, cs, law, v, n - 1);
      if Shot(units, cs, law, n - 1) == Some(v)
      then Some(Booking((if sofar.Some? then sofar.value.damage else 0) + cs[units[n - 1].id.index].laserStrength,
                        units[n - 1].id.index, units[n - 1].pos))
      else sofar
  }

  ghost function Fired(units: seq<Fighter>, cs: map<nat, Combatant>, law: Law, n: nat): int
    requires Armed(units, cs) && n <= |units|
  {
    if n == 0 then 0
    else Fired(units, cs, law, n - 1)
         + if Shot(units, cs, law, n - 1).Some? then cs[units[n - 1].id.index].laserStrength else 0
  }

  ghost function TotalBooked(units: seq<Fighter>, cs: map<nat, Combatant>, law: Law, victims: nat, n: nat): int
    requires Armed(units, cs) && n <= |units|
  {
    if victims == 0 then 0
    else
      var b := Booked(units, cs, law, victims - 1, n);
      TotalBooked(units, cs, law, victims - 1, n) + if b.Some? then b.value.damage else 0
  }

  // The damage booked over all victims is the strength of everyone who fired: no shot is
  // lost, doubled or split.
  lemma {:induction false} BookedEqualsFired(units: seq<Fighter>, cs: map<nat, Combatant>, law: Law, n: nat)
    requires Armed(units, cs) && n <= |units|
    ensures TotalBooked(units, cs, law, |units|, n) == Fired(units, cs, law, n)
  {
    if n == 0 {
      NothingBooked(units, cs, law, |units|);
    } else {
      BookedEqualsFired(units, cs, law, n - 1);
      OneMoreShot(units, cs, law, |units|, n);
    }
  }

  lemma {:induction false} NothingBooked(units: seq<Fighter>, cs: map<nat, Combatant>, law: Law, victims: nat)
    requires Armed(units, cs)
    ensures TotalBooked(units, cs, law, victims, 0) == 0
  {
    if victims > 0 {
      NothingBooked(units, cs, law, victims - 1);
    }
  }

  lemma {:induction false} OneMoreShot(units: seq<Fighter>, cs: map<nat, Combatant>, law: Law, victims: nat, n: nat)
    requires Armed(units, cs) && 0 < n <= |units|
    ensures var s := Shot(units, cs, law, n - 1);
            TotalBooked(units, cs, law, victims, n) == TotalBooked(units, cs, law, victims, n - 1)
              + if s.Some? && s.value < victims then cs[units[n - 1].id.index].laserStrength else 0
  {
    if victims > 0 {
      OneMoreShot(units, cs, law, victims - 1, n);
    }
  }

  // ---------------------------------------------------------------------------
  // Resolution
  // ---------------------------------------------------------------------------

  datatype Resolution = Resolution(hulls: Hulls, kills: seq<Kill>)

  // What one unit suffers: nothing but a tick of grace, nothing at all, or one hit of
  // everything booked against it, from where the last attacker stood.
  ghost function Resolve(r: Resolution, u: Fighter, booked: Option<Booking>, front: FrontTest): Resolution
    requires u.id.index in r.hulls.combatant
  {
    var c := r.hulls.combatant[u.id.index];
    if c.invulnTicks > 0 then
      r.(hulls := r.hulls.(combatant := r.hulls.combatant[u.id.index := c.(invulnTicks := c.invulnTicks - 1)]))
    else if booked.None? then r
    else
      var b := booked.value;
      var (h, destroyed) := ApplyDamage(r.hulls, u.id.index, b.damage, front(u.id.index, b.attackerPos));
      Resolution(h, if destroyed then r.kills + [Kill(u.id, b.attacker)] else r.kills)
  }

  // Booked damage of every unit.
  type Bookings = seq<Option<Booking>>

  ghost function ResolveAll(units: seq<Fighter>, r: Resolution, bookings: Bookings, front: FrontTest, n: nat): (r': Resolution)
    requires Armed(units, r.hulls.combatant) && n <= |units| == |bookings|
    ensures r'.hulls.combatant.Keys == r.hulls.combatant.Keys
  {
    if n == 0 then r
    else Resolve(ResolveAll(units, r, bookings, front, n - 1), units[n - 1], bookings[n - 1], front)
  }

  ghost function AllBooked(units: seq<Fighter>, cs: map<nat, Combatant>, law: Law): (b: Bookings)
    requires Armed(units, cs)
    ensures |b| == |units| && forall v: nat :: v < |units| ==> b[v] == Booked(units, cs, law, v, |units|)
  {
    seq(|units|, v requires 0 <= v < |units| && Armed(units, cs) => Booked(units, cs, law, v, |units|))
  }

  // The combatants with every weapon timer advanced.
  ghost function Cooled(units: seq<Fighter>, cs: map<nat, Combatant>, law: Law, n: nat): (r: map<nat, Combatant>)
    requires Armed(units, cs) && n <= |units|
    ensures r.Keys == cs.Keys
  {
    if n == 0 then cs
    else Cooled(units, cs, law, n - 1)[units[n - 1].id.index := TimerAfter(units, cs, law, n - 1)]
  }

  // StepCombat over full scans.
  ghost function CombatTick(units: seq<Fighter>, h: Hulls, law: Law, front: FrontTest): Resolution
    requires Armed(units, h.combatant)
  {
    ResolveAll(units, Resolution(Hulls(Cooled(units, h.combatant, law, |units|), h.shields), []),
               AllBooked(units, h.combatant, law), front, |units|)
  }

  // ---------------------------------------------------------------------------
  // What a tick does to each unit
  // ---------------------------------------------------------------------------

  // A booking exists exactly when somebody shot, and it names the last who did.
  lemma {:induction false} BookedBy(units: seq<Fighter>, cs: map<nat, Combatant>, law: Law, v: nat, n: nat) returns (last: nat)
    requires Armed(units, cs) && n <= |units|
    ensures Booked(units, cs, law, v, n).None? <==> forall i: nat :: i < n ==> Shot(units, cs, law, i) != Some(v)
    ensures var b := Booked(units, cs, law, v, n);
            b.Some? ==> last < n && Shot(units, cs, law, last) == Some(v)
                        && (forall i: nat :: last < i < n ==> Shot(units, cs, law, i) != Some(v))
                        && b.value.attacker == units[last].id.index && b.value.attackerPos == units[last].pos
  {
    last := 0;
    if n > 0 {
      last := BookedBy(units, cs, law, v, n - 1);
      if Shot(units, cs, law, n - 1) == Some(v) {
        last := n - 1;
      }
    }
  }

  lemma {:induction false} CooledUnits(units: seq<Fighter>, cs: map<nat, Combatant>, law: Law, n: nat)
    requires Armed(units, cs) && Distinct(units) && n <= |units|
    ensures forall u: nat :: u < |units| ==>
              Cooled(units, cs, law, n)[units[u].id.index] == if u < n then TimerAfter(units, cs, law, u) else cs[units[u].id.index]
    ensures SameGuns(units, cs, Cooled(units, cs, law, n))
  {
    if n > 0 {
      CooledUnits(units, cs, law, n - 1);
    }
  }

  // When its turn comes, a unit still sees the world as it was at the start of the tick.
  lemma CooledLooksTheSame(units: seq<Fighter>, cs: map<nat, Combatant>, law: Law, i: nat)
    requires Armed(units, cs) && Distinct(units) && i < |units|
    ensures var c := Cooled(units, cs, law, i);
            && Armed(units, c)
            && c[units[i].id.index] == cs[units[i].id.index]
            && Shot(units, c, law, i) == Shot(units, cs, law, i)
            && TimerAfter(units, c, law, i) == TimerAfter(units, cs, law, i)
  {
    CooledUnits(units, cs, law, i);
    PickUnchanged(units, cs, Cooled(units, cs, law, i), law, i);
  }

  ghost predicate KilledBy(kills: seq<Kill>, victim: EntityId, killer: nat) {
    Kill(victim, killer) in kills
  }

  lemma ResolveTouchesOne(r: Resolution, u: Fighter, booked: Option<Booking>, front: FrontTest, index: nat)
    requires u.id.index in r.hulls.combatant && index in r.hulls.combatant && index != u.id.index
    ensures SameHull(r.hulls, Resolve(r, u, booked, front).hulls, index)
    ensures Killed(Resolve(r, u, booked, front).kills, index) <==> Killed(r.kills, index)
  {
    var r' := Resolve(r, u, booked, front);
    if Killed(r.kills, index) {
      var k :| 0 <= k < |r.kills| && r.kills[k].victim.index == index;
      assert r'.kills[k].victim.index == index;
    }
  }

  // Resolving depends on a unit's own hull only.
  lemma ResolveIsLocal(r: Resolution, s: Resolution, u: Fighter, booked: Option<Booking>, front: FrontTest)
    requires SameHull(r.hulls, s.hulls, u.id.index) && s.kills == [] && !Killed(r.kills, u.id.index)
    ensures SameHull(Resolve(r, u, booked, front).hulls, Resolve(s, u, booked, front).hulls, u.id.index)
    ensures Resolve(r, u, booked, front).kills == r.kills + Resolve(s, u, booked, front).kills
  {
  }

  // After some units were resolved, one of them or not, this unit is as if it alone had been.
  ghost predicate AsAlone(r: Resolution, alone: Resolution, index: nat) {
    && SameHull(r.hulls, alone.hulls, index)
    && (Killed(r.kills, index) <==> alone.kills != [])
    && (alone.kills != [] ==> alone.kills[0] in r.kills)
  }

  lemma OwnTurn(r: Resolution, before: Resolution, u: Fighter, booked: Option<Booking>, front: FrontTest)
    requires AsAlone(before, r, u.id.index) && r.kills == []
    ensures AsAlone(Resolve(before, u, booked, front), Resolve(r, u, booked, front), u.id.index)
  {
    ResolveIsLocal(before, r, u, booked, front);
    var r' := Resolve(before, u, booked, front);
    if r'.kills != before.kills {
      assert r'.kills[|before.kills|].victim.index == u.id.index;
    }
  }

  lemma OthersTurn(before: Resolution, alone: Resolution, v: Fighter, booked: Option<Booking>, front: FrontTest, index: nat)
    requires AsAlone(before, alone, index) && v.id.index != index && v.id.index in before.hulls.combatant
    ensures AsAlone(Resolve(before, v, booked, front), alone, index)
  {
    ResolveTouchesOne(before, v, booked, front, index);
    assert forall k :: k in before.kills ==> k in Resolve(before, v, booked, front).kills;
  }

  // Every unit ends as if it alone had been resolved, and is reported at most once.
  lemma {:induction false} ResolvedAlone(units: seq<Fighter>, r: Resolution, bookings: Bookings, front: FrontTest, n: nat, u: nat)
    requires Armed(units, r.hulls.combatant) && Distinct(units) && n <= |units| == |bookings| && u < |units|
    requires r.kills == []
    ensures AsAlone(ResolveAll(units, r, bookings, front, n),
                    if u < n then Resolve(r, units[u], bookings[u], front) else r, units[u].id.index)
  {
    if n > 0 {
      ResolvedAlone(units, r, bookings, front, n - 1, u);
      var before := ResolveAll(units, r, bookings, front, n - 1);
      if u == n - 1 {
        OwnTurn(r, before, units[u], bookings[u], front);
      } else {
        var alone := if u < n then Resolve(r, units[u], bookings[u], front) else r;
        OthersTurn(before, alone, units[n - 1], bookings[n - 1], front, units[u].id.index);
      }
    }
  }

  // The whole tick, unit by unit. Grace takes the hit away and runs down; otherwise the
  // unit takes one hit of the sum of all strengths aimed at it, through the shield facing
  // its last attacker, from the state it started the tick in, whoever else was hit; it is
  // reported exactly when that hit destroys it, to that attacker's credit.
  lemma CombatOutcome(units: seq<Fighter>, h: Hulls, law: Law, front: FrontTest, u: nat)
    requires Armed(units, h.combatant) && Distinct(units) && u < |units|
    ensures var out := CombatTick(units, h, law, front);
            var i := units[u].id.index;
            var cooled := TimerAfter(units, h.combatant, law, u);
            var booked := Booked(units, h.combatant, law, u, |units|);
            && i in out.hulls.combatant
            && (i in out.hulls.shields <==> i in h.shields)
            && if cooled.invulnTicks > 0 then
                 && out.hulls.combatant[i] == cooled.(invulnTicks := cooled.invulnTicks - 1)
                 && (i in h.shields ==> out.hulls.shields[i] == h.shields[i])
                 && !Killed(out.kills, i)
               else if booked.None? then
                 && out.hulls.combatant[i] == cooled
                 && (i in h.shields ==> out.hulls.shields[i] == h.shields[i])
                 && !Killed(out.kills, i)
               else
                 var b := booked.value;
                 var (hit, destroyed) := ApplyDamage(h, i, b.damage, front(i, b.attackerPos));
                 && out.hulls.combatant[i] == cooled.(energy := hit.combatant[i].energy)
                 && (i in h.shields ==> out.hulls.shields[i] == hit.shields[i])
                 && (Killed(out.kills, i) <==> destroyed)
                 && (destroyed ==> KilledBy(out.kills, units[u].id, b.attacker))
  {
    CooledUnits(units, h.combatant, law, |units|);
    var r := Resolution(Hulls(Cooled(units, h.combatant, law, |units|), h.shields), []);
    ResolvedAlone(units, r, AllBooked(units, h.combatant, law), front, |units|, u);
    assert TimerAfter(units, h.combatant, law, u).(fireTimer := 0) == h.combatant[units[u].id.index].(fireTimer := 0);
  }

  // ---------------------------------------------------------------------------
  // The narrowed, in-place tick
  // ---------------------------------------------------------------------------

  function Points(units: seq<Fighter>): (ps: seq<Vec>)
    ensures |ps| == |units| && forall i: nat :: i < |units| ==> ps[i] == units[i].pos
  {
    seq(|units|, i requires 0 <= i < |units| => units[i].pos)
  }

  lemma {:induction false} FarUnitsNotPicked(units: seq<Fighter>, cs: map<nat, Combatant>, law: Law, a: Fighter, mid: nat, n: nat)
    requires Armed(units, cs) && a.id.index in cs && mid <= n <= |units|
    requires forall k: nat :: mid <= k < n ==>
               !NearIndex(Points(units), BROADPHASE_CELL, a.pos, CellsForRange(cs[a.id.index].range), k)
    ensures Nearest(units, cs, law, a, n) == Nearest(units, cs, law, a, mid)
    decreases n
  {
    if mid < n {
      FarUnitsNotPicked(units, cs, law, a, mid, n - 1);
      assert !NearIndex(Points(units), BROADPHASE_CELL, a.pos, CellsForRange(cs[a.id.index].range), n - 1);
      if Legal(cs, law, a, units[n - 1]) {
        CubeCoversRange(a.pos, units[n - 1].pos, cs[a.id.index].range, CellsForRange(cs[a.id.index].range));
      }
    }
  }

  // The three ledger maps, taken together.
  datatype Lines = Lines(damage: map<nat, int>, attacker: map<nat, nat>, attackerPos: map<nat, Vec>) {
    ghost predicate Aligned() {
      damage.Keys == attacker.Keys == attackerPos.Keys
    }

    ghost function Entry(i: nat): Option<Booking>
      requires Aligned()
    {
      if i in damage then Some(Booking(damage[i], attacker[i], attackerPos[i])) else None
    }
  }

  // One more shot at `victim`, and nothing else.
  ghost predicate Added(l: Lines, l': Lines, victim: nat, a: Fighter, strength: int) {
    && l.Aligned() && l'.Aligned()
    && (var was := l.Entry(victim);
        l'.Entry(victim) == Some(Booking((if was.Some? then was.value.damage else 0) + strength, a.id.index, a.pos)))
    && forall i: nat :: i != victim ==> l'.Entry(i) == l.Entry(i)
  }

  lemma LedgerStep(units: seq<Fighter>, cs: map<nat, Combatant>, law: Law, n: nat, l: Lines, l': Lines)
    requires Armed(units, cs) && Distinct(units) && n < |units| && Ledger(units, cs, law, n, l) && l'.Aligned()
    requires var shot := Shot(units, cs, law, n);
             if shot.Some? then Added(l, l', units[shot.value].id.index, units[n], cs[units[n].id.index].laserStrength) else l' == l
    ensures Ledger(units, cs, law, n + 1, l')
  {
    forall v: nat | v < |units|
      ensures l'.Entry(units[v].id.index) == Booked(units, cs, law, v, n + 1)
    {
      assert l.Entry(units[v].id.index) == Booked(units, cs, law, v, n);
    }
  }

  // The ledger after the first n units, against the bookings.
  ghost predicate Ledger(units: seq<Fighter>, cs: map<nat, Combatant>, law: Law, n: nat, l: Lines)
    requires Armed(units, cs) && n <= |units|
  {
    l.Aligned() && forall v: nat :: v < |units| ==> l.Entry(units[v].id.index) == Booked(units, cs, law, v, n)
  }

  lemma LedgerStart(units: seq<Fighter>, cs: map<nat, Combatant>, law: Law)
    requires Armed(units, cs)
    ensures Ledger(units, cs, law, 0, Lines(map[], map[], map[]))
  {
  }

  // Shield recharge midway: every hull with shields outside `rest` has had its step, every
  // other hull is as it was.
  ghost predicate Recharged(h0: Hulls, h: Hulls, rest: set<nat>) {
    && h.combatant.Keys == h0.combatant.Keys && h.shields.Keys == h0.shields.Keys
    && forall i :: HullRecharged(h0, h, rest, i)
  }

  ghost predicate HullRecharged(h0: Hulls, h: Hulls, rest: set<nat>, i: nat)
    requires h.combatant.Keys == h0.combatant.Keys && h.shields.Keys == h0.shields.Keys
  {
    if i in h.combatant && i in h.shields && i !in rest then
      && Charge(h.shields[i], h.combatant[i]) == Regen(Charge(h0.shields[i], h0.combatant[i]))
      && h.combatant[i].(energy := 0) == h0.combatant[i].(energy := 0)
    else
      && (i in h.combatant ==> h.combatant[i] == h0.combatant[i])
      && (i in h.shields ==> h.shields[i] == h0.shields[i])
  }

  lemma RechargeOne(h0: Hulls, h: Hulls, h': Hulls, rest: set<nat>, i: nat)
    requires Recharged(h0, h, rest) && i in rest && i in h.combatant && i in h.shields && i in h'.combatant && i in h'.shields
    requires h' == Hulls(h.combatant[i := h'.combatant[i]], h.shields[i := h'.shields[i]])
    requires Charge(h'.shields[i], h'.combatant[i]) == Regen(Charge(h.shields[i], h.combatant[i]))
    requires h'.combatant[i].(energy := 0) == h.combatant[i].(energy := 0)
    ensures Recharged(h0, h', rest - {i})
  {
    assert HullRecharged(h0, h, rest, i);
    forall j
      ensures HullRecharged(h0, h', rest - {i}, j)
    {
      assert HullRecharged(h0, h, rest, j);
    }
  }

  lemma RechargedMeans(h0: Hulls, h: Hulls)
    requires Recharged(h0, h, {})
    ensures forall i :: i in h.combatant && i in h.shields ==>
              Charge(h.shields[i], h.combatant[i]) == Regen(Charge(h0.shields[i], h0.combatant[i]))
              && h.combatant[i].(energy := 0) == h0.combatant[i].(energy := 0)
    ensures forall i :: i in h.combatant && i !in h.shields ==> h.combatant[i] == h0.combatant[i]
    ensures forall i :: i in h.shields && i !in h.combatant ==> h.shields[i] == h0.shields[i]
  {
    forall i | i in h.combatant
      ensures if i in h.shields then Charge(h.shields[i], h.combatant[i]) == Regen(Charge(h0.shields[i], h0.combatant[i]))
                                     && h.combatant[i].(energy := 0) == h0.combatant[i].(energy := 0)
              else h.combatant[i] == h0.combatant[i]
    {
      assert HullRecharged(h0, h, {}, i);
    }
    forall i | i in h.shields && i !in h.combatant
      ensures h.shields[i] == h0.shields[i]
    {
      assert HullRecharged(h0, h, {}, i);
    }
  }

  class Fight {
    var combatant: map<nat, Combatant>
    var shields: map<nat, Shields>
    var damage: map<nat, int>
    var attacker: map<nat, nat>
    var attackerPos: map<nat, Vec>

    constructor (h: Hulls)
      ensures Hulls(combatant, shields) == h
    {
      combatant, shields := h.combatant, h.shields;
      damage, attacker, attackerPos := map[], map[], map[];
    }

    method FocusOf(units: seq<Fighter>, i: nat, law: Law) returns (best: Option<nat>)
      requires Armed(units, combatant) && i < |units|
      ensures best == Focused(units, combatant, law, units[i], 0)
    {
      if combatant[units[i].id.index].focus == None {
        return None;
      }
      var k := 0;
      while k < |units|
        invariant 0 <= k <= |units|
        invariant Focused(units, combatant, law, units[i], 0) == Focused(units, combatant, law, units[i], k)
      {
        if Some(units[k].id.index) == combatant[units[i].id.index].focus {
          return if Legal(combatant, law, units[i], units[k]) then Some(k) else None;
        }
        k := k + 1;
      }
      return None;
    }

    // One candidate.
    method NearerOf(units: seq<Fighter>, a: Fighter, law: Law, bi: nat, sofar: Option<nat>, sofarDistSq: int)
      returns (best: Option<nat>, bestDistSq: int)
      requires Armed(units, combatant) && a.id.index in combatant && bi < |units|
      requires sofar == Nearest(units, combatant, law, a, bi)
      requires sofar.Some? ==> sofarDistSq == DistSq(a.pos, units[sofar.value].pos)
      ensures best == Nearest(units, combatant, law, a, bi + 1)
      ensures best.Some? ==> bestDistSq == DistSq(a.pos, units[best.value].pos)
    {
      best, bestDistSq := sofar, sofarDistSq;
      if Legal(combatant, law, a, units[bi]) {
        var distSq := DistSq(a.pos, units[bi].pos);
        if best == None || distSq < bestDistSq {
          best, bestDistSq := Some(bi), distSq;
        }
      }
    }

    method NearestOf(units: seq<Fighter>, i: nat, law: Law, grid: Grid) returns (best: Option<nat>)
      requires Armed(units, combatant) && i < |units|
      requires grid.cellSize == BROADPHASE_CELL && grid.Holds(Points(units))
      ensures best == Nearest(units, combatant, law, units[i], |units|)
    {
      var a := units[i];
      ghost var points := Points(units);
      var radius := CellsForRange(combatant[a.id.index].range);
      var nearby := QuerySortedNeighbours(grid, a.pos, radius, points);
      NeighboursBounded(points, a.pos, radius);
      best := None;
      var bestDistSq := 0;
      var next := 0;
      ghost var upTo := 0;
      while next < |nearby|
        invariant 0 <= next <= |nearby| && 0 <= upTo <= |units|
        invariant upTo == if next > 0 then nearby[next - 1] + 1 else 0
        invariant best == Nearest(units, combatant, law, a, upTo)
        invariant best.Some? ==> bestDistSq == DistSq(a.pos, units[best.value].pos)
      {
        var bi := nearby[next];
        GapIsFar(points, a.pos, radius, nearby, next, upTo, bi);
        FarUnitsNotPicked(units, combatant, law, a, upTo, bi);
        best, bestDistSq := NearerOf(units, a, law, bi, best, bestDistSq);
        upTo := bi + 1;
        next := next + 1;
      }
      GapIsFar(points, a.pos, radius, nearby, next, upTo, |units|);
      FarUnitsNotPicked(units, combatant, law, a, upTo, |units|);
    }

    method Book(victim: nat, a: Fighter, strength: int)
      requires damage.Keys == attacker.Keys == attackerPos.Keys
      modifies this`damage, this`attacker, this`attackerPos
      ensures damage.Keys == attacker.Keys == attackerPos.Keys
      ensures Added(old(Lines(damage, attacker, attackerPos)), Lines(damage, attacker, attackerPos), victim, a, strength)
    {
      damage := damage[victim := (if victim in damage then damage[victim] else 0) + strength];
      attacker := attacker[victim := a.id.index];
      attackerPos := attackerPos[victim := a.pos];
    }

    // One turn of the firing loop.
    method FireUnit(units: seq<Fighter>, i: nat, law: Law, grid: Grid) returns (ghost shot: Option<nat>)
      requires Armed(units, combatant) && Distinct(units) && i < |units|
      requires grid.cellSize == BROADPHASE_CELL && grid.Holds(Points(units))
      requires damage.Keys == attacker.Keys == attackerPos.Keys
      modifies this
      ensures shields == old(shields)
      ensures shot == Shot(units, old(combatant), law, i)
      ensures combatant == old(combatant)[units[i].id.index := TimerAfter(units, old(combatant), law, i)]
      ensures damage.Keys == attacker.Keys == attackerPos.Keys
      ensures shot.Some? ==> Added(old(Lines(damage, attacker, attackerPos)), Lines(damage, attacker, attackerPos),
                                   units[shot.value].id.index, units[i], old(combatant)[units[i].id.index].laserStrength)
      ensures shot.None? ==> damage == old(damage) && attacker == old(attacker) && attackerPos == old(attackerPos)
    {
      var a := units[i];
      var c := combatant[a.id.index];
      shot := None;
      if !c.autoEngage {
        return;
      }
      if c.fireTimer > 0 {
        combatant := combatant[a.id.index := c.(fireTimer := c.fireTimer - 1)];
        return;
      }
      var best := FocusOf(units, i, law);
      if best == None {
        best := NearestOf(units, i, law, grid);
      }
      shot := best;
      if best != None {
        Book(units[best.value].id.index, a, c.laserStrength);
        combatant := combatant[a.id.index := c.(fireTimer := c.fireInterval)];
      }
    }

    // Where the firing loop stands after n units.
    ghost predicate Fired(units: seq<Fighter>, cs: map<nat, Combatant>, law: Law, n: nat)
      requires Armed(units, cs) && n <= |units|
      reads this
    {
      combatant == Cooled(units, cs, law, n) && Ledger(units, cs, law, n, Lines(damage, attacker, attackerPos))
    }

    method FireTurn(units: seq<Fighter>, i: nat, law: Law, grid: Grid, ghost cs: map<nat, Combatant>)
      requires Armed(units, cs) && Distinct(units) && i < |units|
      requires grid.cellSize == BROADPHASE_CELL && grid.Holds(Points(units))
      requires Fired(units, cs, law, i)
      modifies this
      ensures shields == old(shields) && Fired(units, cs, law, i + 1)
    {
      CooledLooksTheSame(units, cs, law, i);
      ghost var before := Lines(damage, attacker, attackerPos);
      ghost var shot := FireUnit(units, i, law, grid);
      LedgerStep(units, cs, law, i, before, Lines(damage, attacker, attackerPos));
    }

    // The firing loop.
    method FirePass(units: seq<Fighter>, law: Law, grid: Grid)
      requires Armed(units, combatant) && Distinct(units)
      requires grid.cellSize == BROADPHASE_CELL && grid.Holds(Points(units))
      modifies this
      ensures shields == old(shields)
      ensures combatant == Cooled(units, old(combatant), law, |units|)
      ensures Ledger(units, old(combatant), law, |units|, Lines(damage, attacker, attackerPos))
    {
      ghost var cs := combatant;
      damage, attacker, attackerPos := map[], map[], map[];
      LedgerStart(units, cs, law);
      var i := 0;
      while i < |units|
        invariant 0 <= i <= |units| && shields == old(shields) && Fired(units, cs, law, i)
      {
        FireTurn(units, i, law, grid, cs);
        i := i + 1;
      }
    }

    // The resolution loop.
    method ResolvePass(units: seq<Fighter>, ghost bookings: Bookings, front: FrontTest) returns (kills: seq<Kill>)
      requires Armed(units, combatant) && |bookings| == |units|
      requires damage.Keys == attacker.Keys == attackerPos.Keys
      requires forall v: nat :: v < |units| ==> Lines(damage, attacker, attackerPos).Entry(units[v].id.index) == bookings[v]
      modifies this`combatant, this`shields
      ensures var r := ResolveAll(units, Resolution(old(Hulls(combatant, shields)), []), bookings, front, |units|);
              Hulls(combatant, shields) == r.hulls && kills == r.kills
    {
      ghost var start := Resolution(Hulls(combatant, shields), []);
      kills := [];
      var i := 0;
      while i < |units|
        invariant 0 <= i <= |units|
        invariant Resolution(Hulls(combatant, shields), kills) == ResolveAll(units, start, bookings, front, i)
      {
        kills := ResolveUnit(units[i], bookings[i], front, kills);
        i := i + 1;
      }
    }

    method ResolveUnit(u: Fighter, ghost booked: Option<Booking>, front: FrontTest, sofar: seq<Kill>) returns (kills: seq<Kill>)
      requires u.id.index in combatant
      requires damage.Keys == attacker.Keys == attackerPos.Keys
      requires Lines(damage, attacker, attackerPos).Entry(u.id.index) == booked
      modifies this`combatant, this`shields
      ensures Resolution(Hulls(combatant, shields), kills)
           == Resolve(old(Resolution(Hulls(combatant, shields), sofar)), u, booked, front)
    {
      kills := sofar;
      var i := u.id.index;
      var c := combatant[i];
      if c.invulnTicks > 0 {
        combatant := combatant[i := c.(invulnTicks := c.invulnTicks - 1)];
        return;
      }
      if i !in damage {
        return;
      }
      assert i in attacker && i in attackerPos;
      var (h, destroyed) := ApplyDamage(Hulls(combatant, shields), i, damage[i], front(i, attackerPos[i]));
      combatant, shields := h.combatant, h.shields;
      if destroyed {
        kills := kills + [Kill(u.id, attacker[i])];
      }
    }

    // StepCombat, from the gathered units on.
    method StepCombat(units: seq<Fighter>, law: Law, grid: Grid, front: FrontTest) returns (kills: seq<Kill>)
      requires Armed(units, combatant) && Distinct(units) && grid.cellSize == BROADPHASE_CELL
      modifies this, grid
      ensures var full := CombatTick(units, old(Hulls(combatant, shields)), law, front);
              Hulls(combatant, shields) == full.hulls && kills == full.kills
    {
      grid.Rebuild(Points(units));
      ghost var cs := combatant;
      FirePass(units, law, grid);
      kills := ResolvePass(units, AllBooked(units, cs, law), front);
    }

    // StepShieldRegen: one recharge step for every hull with shields, each once, in any order.
    method StepShieldRegen()
      modifies this`combatant, this`shields
      ensures combatant.Keys == old(combatant).Keys && shields.Keys == old(shields).Keys
      ensures forall i :: i in combatant && i in shields ==>
                Charge(shields[i], combatant[i]) == Regen(old(Charge(shields[i], combatant[i])))
                && combatant[i].(energy := 0) == old(combatant[i]).(energy := 0)
      ensures forall i :: i in combatant && i !in shields ==> combatant[i] == old(combatant)[i]
      ensures forall i :: i in shields && i !in combatant ==> shields[i] == old(shields)[i]
    {
      var rest := shields.Keys * combatant.Keys;
      ghost var h0 := Hulls(combatant, shields);
      while rest != {}
        invariant rest <= h0.shields.Keys * h0.combatant.Keys
        invariant Recharged(h0, Hulls(combatant, shields), rest)
        decreases |rest|
      {
        var i :| i in rest;
        ghost var h := Hulls(combatant, shields);
        RegenHull(i);
        RechargeOne(h0, h, Hulls(combatant, shields), rest, i);
        rest := rest - {i};
      }
      RechargedMeans(h0, Hulls(combatant, shields));
    }

    method RegenHull(i: nat)
      requires i in combatant && i in shields
      modifies this`combatant, this`shields
      ensures i in combatant && combatant == old(combatant)[i := combatant[i]]
      ensures i in shields && shields == old(shields)[i := shields[i]]
      ensures Charge(shields[i], combatant[i]) == Regen(old(Charge(shields[i], combatant[i])))
      ensures combatant[i].(energy := 0) == old(combatant[i]).(energy := 0)
    {
      var (s, energy) := (shields[i], combatant[i].energy);
      if energy > MAX_ENERGY / 2 {
        if s.front < MAX_SHIELD {
          s, energy := s.(front := s.front + 1), energy - 1;
        }
        if s.aft < MAX_SHIELD {
          s, energy := s.(aft := s.aft + 1), energy - 1;
        }
      }
      energy := energy + 1;
      if energy > MAX_ENERGY {
        energy := MAX_ENERGY;
      }
      shields := shields[i := s];
      combatant := combatant[i := combatant[i].(energy := energy)];
    }
  }

  function Charge(s: Shields, c: Combatant): ShieldState {
    ShieldState(s.front, s.aft, c.energy)
  }
}
