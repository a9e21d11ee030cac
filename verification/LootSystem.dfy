// ScoopSystem of LootSystem.h: players sweep up canisters, first come first served.
module LootSystem {
  import opened Ecs
  import opened SpatialGrid
  import opened Broadphase
  import opened Cargo

  const LOOT_SCOOP_RANGE: int := 600

  datatype Loot = Loot(commodity: nat, units: int)

  datatype Canister = Canister(id: EntityId, pos: Vec, loot: Loot)

  datatype Scooper = Scooper(id: EntityId, pos: Vec, docked: bool, hasScoop: bool)

  // One contact: who, which canister, and whether it went into the hold.
  datatype Take = Take(player: nat, can: nat, scooped: bool)

  datatype Scene = Scene(holds: map<nat, Hold>, claimed: set<nat>, takes: seq<Take>)

  ghost predicate CansOk(cans: seq<Canister>) {
    forall c: nat :: c < |cans| ==> cans[c].loot.commodity < COMMODITY_COUNT
  }

  ghost predicate HoldsOk(holds: map<nat, Hold>) {
    forall i :: i in holds ==> Stocked(holds[i])
  }

  ghost predicate Apart(players: seq<Scooper>) {
    forall p, q :: 0 <= p < q < |players| ==> players[p].id.index != players[q].id.index
  }

  // A player who can touch canisters at all.
  predicate Sweeping(u: Scooper, holds: map<nat, Hold>) {
    !u.docked && u.id.index in holds
  }

  predicate Touches(u: Scooper, can: Canister) {
    Within(u.pos, can.pos, LOOT_SCOOP_RANGE)
  }

  ghost predicate Room(h: Hold, loot: Loot)
    requires Stocked(h)
  {
    !CountsAsTonnage(loot.commodity) || Tonnage(h) + loot.units <= h.capacity
  }

  // ---------------------------------------------------------------------------
  // The full sweep: every canister, in order, for every player
  // ---------------------------------------------------------------------------

  ghost function Grab(s: Scene, p: nat, u: Scooper, c: nat, can: Canister): (r: Scene)
    requires HoldsOk(s.holds) && u.id.index in s.holds && can.loot.commodity < COMMODITY_COUNT
    ensures HoldsOk(r.holds) && r.holds.Keys == s.holds.Keys
  {
    if c in s.claimed || !Touches(u, can) then s
    else
      var h := s.holds[u.id.index];
      var scooped := u.hasScoop && Room(h, can.loot);
      Scene(if scooped then s.holds[u.id.index := Loaded(h, can.loot.commodity, can.loot.units)] else s.holds,
            s.claimed + {c}, s.takes + [Take(p, c, scooped)])
  }

  ghost function Pass(s: Scene, p: nat, u: Scooper, cans: seq<Canister>, n: nat): (r: Scene)
    requires HoldsOk(s.holds) && CansOk(cans) && u.id.index in s.holds && n <= |cans|
    ensures HoldsOk(r.holds) && r.holds.Keys == s.holds.Keys
  {
    if n == 0 then s else Grab(Pass(s, p, u, cans, n - 1), p, u, n - 1, cans[n - 1])
  }

  ghost function Passes(holds: map<nat, Hold>, players: seq<Scooper>, cans: seq<Canister>, n: nat): (r: Scene)
    requires HoldsOk(holds) && CansOk(cans) && n <= |players|
    ensures HoldsOk(r.holds) && r.holds.Keys == holds.Keys
  {
    if n == 0 then Scene(holds, {}, [])
    else
      var s := Passes(holds, players, cans, n - 1);
      if Sweeping(players[n - 1], holds) then Pass(s, n - 1, players[n - 1], cans, |cans|) else s
  }

  ghost function FullScoop(holds: map<nat, Hold>, players: seq<Scooper>, cans: seq<Canister>): Scene
    requires HoldsOk(holds) && CansOk(cans)
  {
    Passes(holds, players, cans, |players|)
  }

  // ---------------------------------------------------------------------------
  // Who gets what
  // ---------------------------------------------------------------------------

  // Player p is the first of the first n to reach canister c.
  ghost predicate FirstToReach(holds: map<nat, Hold>, players: seq<Scooper>, can: Canister, n: nat, p: nat) {
    p < n <= |players| && Sweeping(players[p], holds) && Touches(players[p], can)
    && forall q: nat :: q < p && Sweeping(players[q], holds) ==> !Touches(players[q], can)
  }

  ghost predicate Reached(holds: map<nat, Hold>, players: seq<Scooper>, can: Canister, n: nat) {
    n <= |players| && exists q: nat :: q < n && Sweeping(players[q], holds) && Touches(players[q], can)
  }

  ghost predicate InLog(takes: seq<Take>, c: nat) {
    exists k :: 0 <= k < |takes| && takes[k].can == c
  }

  // The log of contacts names each claimed canister once.
  ghost predicate LogOk(s: Scene) {
    && (forall j, k :: 0 <= j < k < |s.takes| ==> s.takes[j].can != s.takes[k].can)
    && (forall c :: c in s.claimed <==> InLog(s.takes, c))
  }

  lemma InLongerLog(takes: seq<Take>, t: Take, c: nat)
    ensures InLog(takes + [t], c) <==> InLog(takes, c) || c == t.can
  {
    if InLog(takes, c) {
      var k :| 0 <= k < |takes| && takes[k].can == c;
      assert (takes + [t])[k].can == c;
    }
    assert (takes + [t])[|takes|] == t;
  }

  lemma GrabLogs(s: Scene, p: nat, u: Scooper, c: nat, can: Canister) returns (r: Scene)
    requires HoldsOk(s.holds) && u.id.index in s.holds && can.loot.commodity < COMMODITY_COUNT && LogOk(s)
    ensures r == Grab(s, p, u, c, can) && LogOk(r)
  {
    r := Grab(s, p, u, c, can);
    if r != s {
      forall d: nat
        ensures d in r.claimed <==> InLog(r.takes, d)
      {
        InLongerLog(s.takes, r.takes[|s.takes|], d);
      }
      forall k | 0 <= k < |s.takes|
        ensures s.takes[k].can != c
      {
        assert s.takes[k].can == c ==> InLog(s.takes, c);
      }
    }
  }

  lemma {:induction false} PassLogs(s: Scene, p: nat, u: Scooper, cans: seq<Canister>, n: nat) returns (r: Scene)
    requires HoldsOk(s.holds) && CansOk(cans) && u.id.index in s.holds && n <= |cans| && LogOk(s)
    ensures r == Pass(s, p, u, cans, n) && LogOk(r)
  {
    r := s;
    if n > 0 {
      r := PassLogs(s, p, u, cans, n - 1);
      r := GrabLogs(r, p, u, n - 1, cans[n - 1]);
    }
  }

  lemma {:induction false} PassClaims(s: Scene, p: nat, u: Scooper, cans: seq<Canister>, n: nat)
    requires HoldsOk(s.holds) && CansOk(cans) && u.id.index in s.holds && n <= |cans|
    ensures var r := Pass(s, p, u, cans, n);
            forall c: nat :: c in r.claimed <==> c in s.claimed || (c < n && Touches(u, cans[c]))
  {
    if n > 0 {
      PassClaims(s, p, u, cans, n - 1);
    }
  }

  // Contacts one pass adds to the log: by this player, with canisters in reach.
  ghost predicate AddsBy(s: Scene, r: Scene, p: nat, u: Scooper, cans: seq<Canister>, n: nat)
    requires n <= |cans|
  {
    && |s.takes| <= |r.takes|
    && (forall k :: 0 <= k < |s.takes| ==> r.takes[k] == s.takes[k])
    && (forall k :: |s.takes| <= k < |r.takes| ==> TakenBy(r.takes[k], p, u, cans, n) && r.takes[k].can !in s.claimed)
  }

  ghost predicate TakenBy(t: Take, p: nat, u: Scooper, cans: seq<Canister>, n: nat)
    requires n <= |cans|
  {
    t.player == p && t.can < n && Touches(u, cans[t.can])
  }

  lemma {:induction false} PassAdds(s: Scene, p: nat, u: Scooper, cans: seq<Canister>, n: nat) returns (r: Scene)
    requires HoldsOk(s.holds) && CansOk(cans) && u.id.index in s.holds && n <= |cans|
    ensures r == Pass(s, p, u, cans, n) && AddsBy(s, r, p, u, cans, n)
  {
    r := s;
    if n > 0 {
      r := PassAdds(s, p, u, cans, n - 1);
      PassClaims(s, p, u, cans, n - 1);
      r := GrabAdds(s, r, p, u, cans, n - 1);
    }
  }

  lemma GrabAdds(s: Scene, m: Scene, p: nat, u: Scooper, cans: seq<Canister>, c: nat) returns (r: Scene)
    requires HoldsOk(m.holds) && CansOk(cans) && u.id.index in m.holds && c < |cans|
    requires AddsBy(s, m, p, u, cans, c) && s.claimed <= m.claimed
    ensures r == Grab(m, p, u, c, cans[c]) && AddsBy(s, r, p, u, cans, c + 1)
  {
    r := Grab(m, p, u, c, cans[c]);
    forall k | |s.takes| <= k < |r.takes|
      ensures TakenBy(r.takes[k], p, u, cans, c + 1) && r.takes[k].can !in s.claimed
    {
      if k < |m.takes| {
        assert r.takes[k] == m.takes[k];
      }
    }
  }

  // Everything consumed so far is what the first n players reach.
  ghost predicate ClaimsMatch(holds: map<nat, Hold>, players: seq<Scooper>, cans: seq<Canister>, n: nat, s: Scene)
    requires n <= |players|
  {
    forall c: nat :: c in s.claimed <==> c < |cans| && Reached(holds, players, cans[c], n)
  }

  lemma ReachedOn(holds: map<nat, Hold>, players: seq<Scooper>, can: Canister, n: nat)
    requires 0 < n <= |players|
    ensures Reached(holds, players, can, n)
       <==> Reached(holds, players, can, n - 1) || (Sweeping(players[n - 1], holds) && Touches(players[n - 1], can))
  {
  }

  lemma ClaimStep(holds: map<nat, Hold>, players: seq<Scooper>, cans: seq<Canister>, n: nat, s: Scene, r: Scene)
    requires 0 < n <= |players| && ClaimsMatch(holds, players, cans, n - 1, s)
    requires if Sweeping(players[n - 1], holds)
             then forall c: nat :: c in r.claimed <==> c in s.claimed || (c < |cans| && Touches(players[n - 1], cans[c]))
             else r == s
    ensures ClaimsMatch(holds, players, cans, n, r)
  {
    forall c: nat
      ensures c in r.claimed <==> c < |cans| && Reached(holds, players, cans[c], n)
    {
      if c < |cans| {
        ReachedOn(holds, players, cans[c], n);
      }
    }
  }

  lemma {:induction false} ClaimsAfter(holds: map<nat, Hold>, players: seq<Scooper>, cans: seq<Canister>, n: nat) returns (r: Scene)
    requires HoldsOk(holds) && CansOk(cans) && n <= |players|
    ensures r == Passes(holds, players, cans, n) && LogOk(r) && ClaimsMatch(holds, players, cans, n, r)
  {
    r := Passes(holds, players, cans, n);
    if n > 0 {
      var s := ClaimsAfter(holds, players, cans, n - 1);
      if Sweeping(players[n - 1], holds) {
        var _ := PassLogs(s, n - 1, players[n - 1], cans, |cans|);
        PassClaims(s, n - 1, players[n - 1], cans, |cans|);
      }
      ClaimStep(holds, players, cans, n, s, r);
    }
  }

  // A canister is consumed exactly when some player reaches it...
  lemma ClaimedWhenReached(holds: map<nat, Hold>, players: seq<Scooper>, cans: seq<Canister>, n: nat)
    requires HoldsOk(holds) && CansOk(cans) && n <= |players|
    ensures LogOk(Passes(holds, players, cans, n))
    ensures forall c: nat :: c in Passes(holds, players, cans, n).claimed <==> c < |cans| && Reached(holds, players, cans[c], n)
  {
    var r := ClaimsAfter(holds, players, cans, n);
  }

  ghost predicate TakenByFirst(holds: map<nat, Hold>, players: seq<Scooper>, cans: seq<Canister>, n: nat, t: Take) {
    t.can < |cans| && FirstToReach(holds, players, cans[t.can], n, t.player)
  }

  lemma NewIsFirst(holds: map<nat, Hold>, players: seq<Scooper>, can: Canister, n: nat)
    requires 0 < n <= |players| && !Reached(holds, players, can, n - 1)
    requires Sweeping(players[n - 1], holds) && Touches(players[n - 1], can)
    ensures FirstToReach(holds, players, can, n, n - 1)
  {
  }

  // ...and by the first who does, once.
  lemma {:induction false} FirstComeFirstServed(holds: map<nat, Hold>, players: seq<Scooper>, cans: seq<Canister>, n: nat)
    returns (r: Scene)
    requires HoldsOk(holds) && CansOk(cans) && n <= |players|
    ensures r == Passes(holds, players, cans, n)
    ensures forall j, k :: 0 <= j < k < |r.takes| ==> r.takes[j].can != r.takes[k].can
    ensures forall k :: 0 <= k < |r.takes| ==> TakenByFirst(holds, players, cans, n, r.takes[k])
  {
    r := Passes(holds, players, cans, n);
    ClaimedWhenReached(holds, players, cans, n);
    if n > 0 {
      var s := FirstComeFirstServed(holds, players, cans, n - 1);
      ClaimedWhenReached(holds, players, cans, n - 1);
      r := s;
      if Sweeping(players[n - 1], holds) {
        r := PassAdds(s, n - 1, players[n - 1], cans, |cans|);
      }
      FirstsStep(holds, players, cans, n, s, r);
    }
  }

  lemma FirstsStep(holds: map<nat, Hold>, players: seq<Scooper>, cans: seq<Canister>, n: nat, s: Scene, r: Scene)
    requires 0 < n <= |players| && ClaimsMatch(holds, players, cans, n - 1, s)
    requires forall k :: 0 <= k < |s.takes| ==> TakenByFirst(holds, players, cans, n - 1, s.takes[k])
    requires if Sweeping(players[n - 1], holds) then AddsBy(s, r, n - 1, players[n - 1], cans, |cans|) else r == s
    ensures forall k :: 0 <= k < |r.takes| ==> TakenByFirst(holds, players, cans, n, r.takes[k])
  {
    forall k | 0 <= k < |r.takes|
      ensures TakenByFirst(holds, players, cans, n, r.takes[k])
    {
      if k < |s.takes| {
        assert r.takes[k] == s.takes[k];
        assert TakenByFirst(holds, players, cans, n - 1, s.takes[k]);
      } else {
        var t := r.takes[k];
        assert TakenBy(t, n - 1, players[n - 1], cans, |cans|);
        NewIsFirst(holds, players, cans[t.can], n);
      }
    }
  }

  // ---------------------------------------------------------------------------
  // Conservation
  // ---------------------------------------------------------------------------

  // Units of one commodity that the first n contacts put into player p's hold.
  ghost function Scooped(takes: seq<Take>, cans: seq<Canister>, p: nat, commodity: nat, n: nat): int
    requires n <= |takes|
  {
    if n == 0 then 0
    else
      var t := takes[n - 1];
      Scooped(takes, cans, p, commodity, n - 1)
      + if t.player == p && t.scooped && t.can < |cans| && cans[t.can].loot.commodity == commodity then cans[t.can].loot.units else 0
  }

  lemma {:induction false} ScoopedPrefix(takes: seq<Take>, more: seq<Take>, cans: seq<Canister>, p: nat, commodity: nat, n: nat)
    requires n <= |takes|
    ensures Scooped(takes + more, cans, p, commodity, n) == Scooped(takes, cans, p, commodity, n)
  {
    if n > 0 {
      ScoopedPrefix(takes, more, cans, p, commodity, n - 1);
    }
  }

  // Player q's hold holds what it held before plus every canister scooped by q.
  ghost predicate Accounted(holds: map<nat, Hold>, s: Scene, players: seq<Scooper>, cans: seq<Canister>, q: nat, commodity: nat)
    requires HoldsOk(holds) && HoldsOk(s.holds) && q < |players| && commodity < COMMODITY_COUNT
  {
    var i := players[q].id.index;
    i in holds && i in s.holds
    && s.holds[i].units[commodity] == holds[i].units[commodity] + Scooped(s.takes, cans, q, commodity, |s.takes|)
  }

  lemma GrabAccounts(holds: map<nat, Hold>, s: Scene, players: seq<Scooper>, cans: seq<Canister>, p: nat, c: nat, q: nat, commodity: nat)
    requires HoldsOk(holds) && HoldsOk(s.holds) && CansOk(cans) && Apart(players)
    requires p < |players| && c < |cans| && q < |players| && commodity < COMMODITY_COUNT
    requires players[p].id.index in s.holds && Accounted(holds, s, players, cans, q, commodity)
    ensures Accounted(holds, Grab(s, p, players[p], c, cans[c]), players, cans, q, commodity)
  {
    var r := Grab(s, p, players[p], c, cans[c]);
    if r != s {
      ScoopedPrefix(s.takes, [r.takes[|s.takes|]], cans, q, commodity, |s.takes|);
      assert p != q ==> players[p].id.index != players[q].id.index;
    }
  }

  lemma {:induction false} PassAccounts(holds: map<nat, Hold>, s: Scene, players: seq<Scooper>, cans: seq<Canister>, p: nat, n: nat, q: nat, commodity: nat)
    requires HoldsOk(holds) && HoldsOk(s.holds) && CansOk(cans) && Apart(players)
    requires p < |players| && n <= |cans| && q < |players| && commodity < COMMODITY_COUNT
    requires players[p].id.index in s.holds && Accounted(holds, s, players, cans, q, commodity)
    ensures Accounted(holds, Pass(s, p, players[p], cans, n), players, cans, q, commodity)
  {
    if n > 0 {
      PassAccounts(holds, s, players, cans, p, n - 1, q, commodity);
      GrabAccounts(holds, Pass(s, p, players[p], cans, n - 1), players, cans, p, n - 1, q, commodity);
    }
  }

  lemma {:induction false} ScoopConserves(holds: map<nat, Hold>, players: seq<Scooper>, cans: seq<Canister>, n: nat, q: nat, commodity: nat)
    requires HoldsOk(holds) && CansOk(cans) && Apart(players)
    requires n <= |players| && q < |players| && commodity < COMMODITY_COUNT && players[q].id.index in holds
    ensures Accounted(holds, Passes(holds, players, cans, n), players, cans, q, commodity)
  {
    if n > 0 {
      ScoopConserves(holds, players, cans, n - 1, q, commodity);
      if Sweeping(players[n - 1], holds) {
        PassAccounts(holds, Passes(holds, players, cans, n - 1), players, cans, n - 1, |cans|, q, commodity);
      }
    }
  }

  // ---------------------------------------------------------------------------
  // Capacity
  // ---------------------------------------------------------------------------

  lemma {:induction false} PassKeepsCapacity(s: Scene, p: nat, u: Scooper, cans: seq<Canister>, n: nat, was: Hold, i: nat)
    requires HoldsOk(s.holds) && CansOk(cans) && u.id.index in s.holds && n <= |cans|
    requires i in s.holds && NotOverfilled(was, s.holds[i])
    ensures NotOverfilled(was, Pass(s, p, u, cans, n).holds[i])
  {
    if n > 0 {
      PassKeepsCapacity(s, p, u, cans, n - 1, was, i);
      var before := Pass(s, p, u, cans, n - 1);
      var loot := cans[n - 1].loot;
      LoadedTonnage(before.holds[u.id.index], loot.commodity, loot.units);
    }
  }

  lemma {:induction false} ScoopKeepsCapacity(holds: map<nat, Hold>, players: seq<Scooper>, cans: seq<Canister>, n: nat, i: nat)
    requires HoldsOk(holds) && CansOk(cans) && n <= |players| && i in holds
    ensures NotOverfilled(holds[i], Passes(holds, players, cans, n).holds[i])
  {
    if n > 0 {
      ScoopKeepsCapacity(holds, players, cans, n - 1, i);
      if Sweeping(players[n - 1], holds) {
        PassKeepsCapacity(Passes(holds, players, cans, n - 1), n - 1, players[n - 1], cans, |cans|, holds[i], i);
      }
    }
  }

  // ---------------------------------------------------------------------------
  // The narrowed sweep
  // ---------------------------------------------------------------------------

  function CanPoints(cans: seq<Canister>): (ps: seq<Vec>)
    ensures |ps| == |cans| && forall c: nat :: c < |cans| ==> ps[c] == cans[c].pos
  {
    seq(|cans|, c requires 0 <= c < |cans| => cans[c].pos)
  }

  lemma {:induction false} FarCansUntouched(s: Scene, p: nat, u: Scooper, cans: seq<Canister>, mid: nat, n: nat)
    requires HoldsOk(s.holds) && CansOk(cans) && u.id.index in s.holds && mid <= n <= |cans|
    requires forall k: nat :: mid <= k < n ==> !NearIndex(CanPoints(cans), BROADPHASE_CELL, u.pos, 1, k)
    ensures Pass(s, p, u, cans, n) == Pass(s, p, u, cans, mid)
    decreases n
  {
    if mid < n {
      FarCansUntouched(s, p, u, cans, mid, n - 1);
      assert !NearIndex(CanPoints(cans), BROADPHASE_CELL, u.pos, 1, n - 1);
      if Touches(u, cans[n - 1]) {
        CubeCoversRange(u.pos, cans[n - 1].pos, LOOT_SCOOP_RANGE, 1);
      }
    }
  }

  // The canisters of a log, as handed to Destroy.
  ghost predicate ConsumedAre(consumed: seq<EntityId>, takes: seq<Take>, cans: seq<Canister>) {
    |consumed| == |takes| && forall k :: 0 <= k < |takes| ==> takes[k].can < |cans| && consumed[k] == cans[takes[k].can].id
  }

  ghost predicate GotSome(takes: seq<Take>, p: nat) {
    exists k :: 0 <= k < |takes| && takes[k].player == p && takes[k].scooped
  }

  // Those of the first n players who scooped something, in player order.
  ghost function Changed(takes: seq<Take>, players: seq<Scooper>, n: nat): seq<nat>
    requires n <= |players|
  {
    if n == 0 then []
    else Changed(takes, players, n - 1) + if GotSome(takes, n - 1) then [players[n - 1].id.index] else []
  }

  lemma {:induction false} ChangedUnmoved(takes: seq<Take>, more: seq<Take>, players: seq<Scooper>, n: nat)
    requires n <= |players| && forall k :: 0 <= k < |more| ==> more[k].player >= n
    ensures Changed(takes + more, players, n) == Changed(takes, players, n)
  {
    if n > 0 {
      ChangedUnmoved(takes, more, players, n - 1);
      if GotSome(takes, n - 1) {
        var k :| 0 <= k < |takes| && takes[k].player == n - 1 && takes[k].scooped;
        assert (takes + more)[k] == takes[k];
      }
    }
  }

  ghost predicate GotSince(takes: seq<Take>, from: nat) {
    exists k: nat :: from <= k < |takes| && takes[k].scooped
  }

  lemma GotOneMore(takes: seq<Take>, t: Take, from: nat)
    requires from <= |takes|
    ensures GotSince(takes + [t], from) <==> GotSince(takes, from) || t.scooped
  {
    if GotSince(takes, from) {
      var k: nat :| from <= k < |takes| && takes[k].scooped;
      assert (takes + [t])[k].scooped;
    }
    assert (takes + [t])[|takes|] == t;
  }

  // A turn that adds contacts of player p only changes the list for p only.
  lemma OnlyPlayer(was: seq<Take>, takes: seq<Take>, p: nat, players: seq<Scooper>)
    requires p < |players| && !GotSome(was, p)
    requires |was| <= |takes| && forall k :: 0 <= k < |was| ==> takes[k] == was[k]
    requires forall k :: |was| <= k < |takes| ==> takes[k].player == p
    ensures Changed(takes, players, p) == Changed(was, players, p)
    ensures GotSome(takes, p) <==> GotSince(takes, |was|)
  {
    var more := takes[|was|..];
    assert takes == was + more;
    ChangedUnmoved(was, more, players, p);
    if GotSome(takes, p) {
      var k :| 0 <= k < |takes| && takes[k].player == p && takes[k].scooped;
      assert k < |was| ==> GotSome(was, p);
    }
  }

  class Scoop {
    var holds: map<nat, Hold>
    var claimed: set<nat>             // canisters whose loot pointer was nulled
    var consumed: seq<EntityId>
    ghost var takes: seq<Take>

    constructor (h: map<nat, Hold>)
      ensures State() == Scene(h, {}, []) && consumed == []
    {
      holds, claimed, consumed, takes := h, {}, [], [];
    }

    ghost function State(): Scene
      reads this
    {
      Scene(holds, claimed, takes)
    }

    // The body of the canister loop.
    method Contact(p: nat, u: Scooper, c: nat, cans: seq<Canister>, ghost from: nat) returns (scooped: bool)
      requires HoldsOk(holds) && u.id.index in holds && CansOk(cans) && c < |cans|
      requires ConsumedAre(consumed, takes, cans) && from <= |takes|
      modifies this
      ensures State() == Grab(old(State()), p, u, c, cans[c])
      ensures ConsumedAre(consumed, takes, cans) && from <= |takes|
      ensures GotSince(takes, from) <==> GotSince(old(takes), from) || scooped
    {
      scooped := false;
      if c in claimed {
        return;
      }
      var can := cans[c];
      if !Touches(u, can) {
        return;
      }
      var h := holds[u.id.index];
      var tonnes := TotalTonnage(h.units);
      var room := !CountsAsTonnage(can.loot.commodity) || tonnes + can.loot.units <= h.capacity;
      if u.hasScoop && room {
        holds := holds[u.id.index := h.(units := h.units[can.loot.commodity := h.units[can.loot.commodity] + can.loot.units])];
        scooped := true;
      }
      consumed := consumed + [can.id];
      claimed := claimed + {c};
      GotOneMore(takes, Take(p, c, scooped), from);
      takes := takes + [Take(p, c, scooped)];
    }

    // One player's walk over the sorted candidates.
    method SweepPlayer(p: nat, u: Scooper, cans: seq<Canister>, grid: Grid) returns (scooped: bool)
      requires HoldsOk(holds) && CansOk(cans) && u.id.index in holds
      requires grid.cellSize == BROADPHASE_CELL && grid.Holds(CanPoints(cans))
      requires ConsumedAre(consumed, takes, cans)
      modifies this
      ensures State() == Pass(old(State()), p, u, cans, |cans|)
      ensures ConsumedAre(consumed, takes, cans)
      ensures scooped <==> GotSince(takes, |old(takes)|)
    {
      ghost var s := State();
      ghost var points := CanPoints(cans);
      var nearby := QuerySortedNeighbours(grid, u.pos, 1, points);
      NeighboursBounded(points, u.pos, 1);
      scooped := false;
      var next := 0;
      ghost var upTo := 0;
      while next < |nearby|
        invariant 0 <= next <= |nearby| && 0 <= upTo <= |cans|
        invariant upTo == if next > 0 then nearby[next - 1] + 1 else 0
        invariant HoldsOk(holds) && u.id.index in holds
        invariant State() == Pass(s, p, u, cans, upTo)
        invariant ConsumedAre(consumed, takes, cans)
        invariant |s.takes| <= |takes| && (scooped <==> GotSince(takes, |s.takes|))
      {
        var ci := nearby[next];
        GapIsFar(points, u.pos, 1, nearby, next, upTo, ci);
        FarCansUntouched(s, p, u, cans, upTo, ci);
        var got := Contact(p, u, ci, cans, |s.takes|);
        scooped := scooped || got;
        upTo := ci + 1;
        next := next + 1;
      }
      GapIsFar(points, u.pos, 1, nearby, next, upTo, |cans|);
      FarCansUntouched(s, p, u, cans, upTo, |cans|);
    }

    // One turn of the player loop.
    method TurnOf(p: nat, players: seq<Scooper>, cans: seq<Canister>, grid: Grid, before: seq<nat>, ghost start: map<nat, Hold>)
      returns (changed: seq<nat>)
      requires HoldsOk(start) && CansOk(cans) && p < |players|
      requires grid.cellSize == BROADPHASE_CELL && grid.Holds(CanPoints(cans))
      requires State() == Passes(start, players, cans, p)
      requires ConsumedAre(consumed, takes, cans) && before == Changed(takes, players, p)
      modifies this
      ensures State() == Passes(start, players, cans, p + 1)
      ensures ConsumedAre(consumed, takes, cans) && changed == Changed(takes, players, p + 1)
    {
      var u := players[p];
      changed := before;
      ghost var was := takes;
      var _ := FirstComeFirstServed(start, players, cans, p);
      assert !GotSome(was, p) by {
        assert forall k :: 0 <= k < |was| ==> TakenByFirst(start, players, cans, p, was[k]);
      }
      if !u.docked && u.id.index in holds {
        ghost var s := State();
        var scooped := SweepPlayer(p, u, cans, grid);
        ghost var r := PassAdds(s, p, u, cans, |cans|);
        OnlyPlayer(was, takes, p, players);
        if scooped {
          changed := changed + [u.id.index];
        }
      }
    }

    // ScoopSystem, from the gathered canisters on.
    method ScoopSystem(players: seq<Scooper>, cans: seq<Canister>, grid: Grid) returns (changed: seq<nat>)
      requires HoldsOk(holds) && CansOk(cans) && grid.cellSize == BROADPHASE_CELL
      modifies this, grid
      ensures State() == FullScoop(old(holds), players, cans)
      ensures ConsumedAre(consumed, takes, cans)
      ensures changed == Changed(takes, players, |players|)
    {
      ghost var start := holds;
      claimed, consumed, takes, changed := {}, [], [], [];
      grid.Rebuild(CanPoints(cans));
      var p := 0;
      while p < |players|
        invariant 0 <= p <= |players| && grid.Holds(CanPoints(cans))
        invariant State() == Passes(start, players, cans, p)
        invariant ConsumedAre(consumed, takes, cans) && changed == Changed(takes, players, p)
      {
        changed := TurnOf(p, players, cans, grid, changed, start);
        p := p + 1;
      }
    }
  }
}
