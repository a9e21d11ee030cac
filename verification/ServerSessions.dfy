// ServerSessions.h as it runs: maps updated in place, the registry called to spawn and
// destroy. Every method is proved to perform the step SessionModel defines.
module ServerSessionsClass {
  import opened Ecs
  import opened RateLimiter
  import opened Sequences
  import Model = SessionModel
  import opened SessionModel
  import opened SessionInvariant
  import Names
  import Decimal

  class ServerSessions {
    var sessions: map<nat, Session>
    var byToken: map<nat, nat>
    var rate: map<nat, RateInfo>
    var owned: map<nat, seq<EntityId>>
    var nextPlayerId: nat
    var tokenCounter: nat

    constructor ()
      ensures sessions == map[] && byToken == map[] && rate == map[] && owned == map[]
      ensures nextPlayerId == 1 && tokenCounter == 0
    {
      sessions, byToken, rate, owned := map[], map[], map[], map[];
      nextPlayerId, tokenCounter := 1, 0;
    }

    ghost function View(world: Registry): Server
      requires world.Valid()
      reads this, world
    {
      Server(sessions, byToken, rate, owned, world.View(), nextPlayerId, tokenCounter)
    }

    // -------------------------------------------------------------------------
    // Datagrams
    // -------------------------------------------------------------------------

    method Authenticate(ep: Endpoint, token: nat, tick: nat, ghost world: Registry) returns (key: Option<nat>)
      requires world.Valid()
      modifies this
      ensures (View(world), key) == Model.Authenticate(old(View(world)), ep, token, tick)
    {
      if token == 0 {
        return None;
      }
      if token !in byToken {
        return None;
      }
      var newKey := EndpointKey(ep);
      var oldKey := byToken[token];
      if oldKey != newKey {
        if newKey in sessions {
          return None;
        }
        if oldKey !in sessions {
          byToken := byToken - {token};
          return None;
        }
        var node := sessions[oldKey];
        sessions := sessions - {oldKey};
        sessions := sessions[newKey := node.(endpoint := ep, lastSeenTick := tick)];
        byToken := byToken[token := newKey];
        return Some(newKey);
      }
      if newKey !in sessions {
        byToken := byToken - {token};
        return None;
      }
      sessions := sessions[newKey := sessions[newKey].(lastSeenTick := tick)];
      return Some(newKey);
    }

    method OnInput(world: Registry, ep: Endpoint, token: nat, sequence: nat, ack: nat, tick: nat)
      returns (entity: Option<EntityId>)
      requires world.Valid()
      modifies this
      ensures (View(world), entity) == Model.OnInput(old(View(world)), ep, token, sequence, ack, tick)
    {
      world.ViewOk();
      var key := Authenticate(ep, token, tick, world);
      if key.None? || key.value !in sessions {
        return None;
      }
      var se := sessions[key.value];
      if se.entity.None? || !world.IsValid(se.entity.value) {
        return None;
      }
      if tick != se.inputWindowTick {
        se := se.(inputWindowTick := tick, inputsThisWindow := 0);
      }
      if se.inputsThisWindow >= MAX_INPUTS_PER_TICK {
        sessions := sessions[key.value := se];
        return None;
      }
      se := se.(inputsThisWindow := se.inputsThisWindow + 1);
      if sequence > se.lastInputSeq {
        se := se.(lastInputSeq := sequence, ackedSnapshotTick := ack);
      }
      sessions := sessions[key.value := se];
      return se.entity;
    }

    method RateLimited(ep: Endpoint, tick: nat, ghost world: Registry) returns (drop: bool)
      requires world.Valid() && RateEntry(rate, EndpointKey(ep)).Info().windowStart <= tick
      modifies this`rate
      ensures (View(world), drop) == Model.RateLimited(old(View(world)), EndpointKey(ep), tick)
    {
      var key := EndpointKey(ep);
      var ri := if key in rate then rate[key] else NewRate;
      if tick < ri.mutedUntil {
        rate := rate[key := ri];
        return true;
      }
      if tick - ri.windowStart >= RATE_WINDOW_TICKS {
        ri := ri.(windowStart := tick, count := 0);
      }
      ri := ri.(count := ri.count + 1);
      if ri.count > RATE_MAX_UNAUTH {
        rate := rate[key := ri.(mutedUntil := tick + RATE_MUTE_TICKS)];
        return true;
      }
      rate := rate[key := ri];
      return false;
    }

    method OnReliable(ep: Endpoint, token: nat, payload: Payload, tick: nat, ghost world: Registry)
      requires world.Valid() && RateEntry(rate, EndpointKey(ep)).Info().windowStart <= tick
      modifies this
      ensures View(world) == Model.OnReliable(old(View(world)), ep, token, payload, tick)
    {
      var key := EndpointKey(ep);
      if token == 0 {
        var drop := RateLimited(ep, tick, world);
        if drop {
          return;
        }
        if key in sessions && sessions[key].Live() {
          return;
        }
        var se := if key in sessions then sessions[key] else EmptySession;
        sessions := sessions[key := se.(endpoint := ep, lastSeenTick := tick, inbox := se.inbox + [payload])];
        return;
      }
      var found := Authenticate(ep, token, tick, world);
      if found.None? || found.value !in sessions {
        return;
      }
      var se := sessions[found.value];
      sessions := sessions[found.value := se.(inbox := se.inbox + [payload])];
    }

    // -------------------------------------------------------------------------
    // Hello and ownership
    // -------------------------------------------------------------------------

    method NamesOfOthers(selfKey: nat) returns (names: set<string>)
      ensures names == OthersNames(sessions, selfKey)
    {
      names := {};
      var rest := sessions.Keys;
      while rest != {}
        invariant rest <= sessions.Keys
        invariant names == set k | k in sessions.Keys - rest && k != selfKey :: sessions[k].name
        decreases |rest|
      {
        var k :| k in rest;
        rest := rest - {k};
        if k != selfKey {
          names := names + {sessions[k].name};
        }
      }
    }

    method UniqueName(base: string, selfKey: nat, ghost world: Registry) returns (name: string)
      requires world.Valid()
      ensures name == Model.UniqueName(View(world), base, selfKey)
    {
      var taken := NamesOfOthers(selfKey);
      name := Names.UniqueName(base, taken);
    }

    method AddOwned(playerId: nat, e: EntityId)
      modifies this`owned
      ensures owned == Model.AddOwned(old(owned), playerId, e)
    {
      if playerId == 0 {
        return;
      }
      var mine := if playerId in owned then owned[playerId] else [];
      var i := 0;
      while i < |mine|
        invariant 0 <= i <= |mine|
        invariant e !in mine[..i]
      {
        if mine[i] == e {
          owned := owned[playerId := mine];
          return;
        }
        i := i + 1;
      }
      assert mine[..i] == mine;
      owned := owned[playerId := mine + [e]];
    }

    method NextToken(source: nat) returns (token: nat)
      modifies this`tokenCounter
      ensures (token, tokenCounter) == Model.NextToken(old(tokenCounter), source)
    {
      if source != 0 {
        return source;
      }
      tokenCounter := tokenCounter + 1;
      return DEFAULT_TOKEN_BASE + tokenCounter;
    }

    method SpawnPlayer(world: Registry, playerId: nat) returns (e: EntityId)
      requires world.Valid() && playerId != 0
      modifies this`owned, world
      ensures world.Valid() && FreshHandle(old(world.View()), e)
      ensures owned == Model.AddOwned(old(owned), playerId, e)
      ensures var created := Created(old(world.View()), e);
              world.View() == created.(owner := created.owner[e.index := playerId])
    {
      e := world.Create();
      world.ViewOk();
      world.AddOwner(e, playerId);
      AddOwned(playerId, e);
    }

    // The accept path of OnHello and SpawnLoaded.
    method Accept(world: Registry, key: nat, se: Session, cleanName: string, source: nat) returns (e: EntityId)
      requires world.Valid() && nextPlayerId != 0
      modifies this, world
      ensures world.Valid() && FreshHandle(old(world.View()), e)
      ensures View(world) == Model.Accept(old(View(world)), key, se, cleanName, source, e)
    {
      var pid := nextPlayerId;
      nextPlayerId := nextPlayerId + 1;
      e := SpawnPlayer(world, pid);
      var name;
      if cleanName == "" {
        name := "Commander-" + Decimal.ToString(e.index);
      } else {
        name := UniqueName(cleanName, key, world);
      }
      var token := NextToken(source);
      byToken := byToken[token := key];
      sessions := sessions[key := se.(playerId := pid, entity := Some(e), name := name, token := token,
                                      outbox := se.outbox + [HelloAck(token, pid, e.index)])];
    }

    method OnHello(world: Registry, ep: Endpoint, hello: Hello, tick: nat, deferSpawn: bool, source: nat)
      returns (outcome: HelloOutcome)
      requires world.Valid() && nextPlayerId != 0
      modifies this, world
      ensures world.Valid()
      ensures outcome.result == Accepted ==> outcome.entity.Some? && FreshHandle(old(world.View()), outcome.entity.value)
      ensures var e := if outcome.result == Accepted then outcome.entity.value else EntityId(0, 0);
              (View(world), outcome) == Model.OnHello(old(View(world)), ep, hello, tick, deferSpawn, source, e)
    {
      var key := EndpointKey(ep);
      var se := (if key in sessions then sessions[key] else EmptySession).(endpoint := ep, lastSeenTick := tick);
      if !hello.versionOk {
        sessions := sessions[key := se.(outbox := se.outbox + [HelloReject])];
        return HelloOutcome(Rejected, None, false);
      }
      if se.Live() {
        var name := se.name;
        if hello.name != "" {
          name := UniqueName(hello.name, key, world);
        }
        sessions := sessions[key := se.(name := name,
                                        outbox := se.outbox + [HelloAck(se.token, se.playerId, se.entity.value.index)])];
        return HelloOutcome(Resumed, se.entity, name != se.name);
      }
      if deferSpawn {
        sessions := sessions[key := se.(loading := true, name := hello.name)];
        return HelloOutcome(Loading, None, false);
      }
      var e := Accept(world, key, se, hello.name, source);
      return HelloOutcome(Accepted, Some(e), true);
    }

    method SpawnLoaded(world: Registry, ep: Endpoint, tick: nat, source: nat) returns (entity: Option<EntityId>)
      requires world.Valid() && nextPlayerId != 0
      modifies this, world
      ensures world.Valid()
      ensures entity.Some? ==> FreshHandle(old(world.View()), entity.value)
      ensures var e := if entity.Some? then entity.value else EntityId(0, 0);
              (View(world), entity) == Model.SpawnLoaded(old(View(world)), ep, tick, source, e)
    {
      var key := EndpointKey(ep);
      if key !in sessions || !sessions[key].loading {
        return None;
      }
      var se := sessions[key].(loading := false, lastSeenTick := tick);
      var e := Accept(world, key, se, se.name, source);
      return Some(e);
    }

    method GrantOwnership(world: Registry, playerId: nat, e: EntityId)
      requires world.Valid()
      modifies this`owned, world
      ensures world.Valid() && View(world) == Model.GrantOwnership(old(View(world)), playerId, e)
    {
      world.ViewOk();
      if playerId == 0 || !world.IsValid(e) {
        return;
      }
      world.AddOwner(e, playerId);
      AddOwned(playerId, e);
    }

    // -------------------------------------------------------------------------
    // Reap
    // -------------------------------------------------------------------------

    // Sessions are visited in whatever order the table yields them. The result does not
    // depend on it, and every destroyed slot is reported exactly once.
    method Reap(world: Registry, tick: nat, shellTicks: nat, graceTicks: nat, ghost deferSpawn: bool, ghost before: nat)
      returns (gone: seq<nat>)
      requires world.Valid() && Inv(View(world), deferSpawn, before) && before <= tick
      modifies this, world
      ensures world.Valid() && View(world) == Model.Reap(old(View(world)), tick, shellTicks, graceTicks)
      ensures NoDuplicates(gone)
      ensures forall i :: i in gone <==> i in IndicesOf(old(world.View()).live - world.View().live)
    {
      ghost var s := View(world);
      gone := ReapSessions(world, tick, shellTicks, graceTicks, deferSpawn, before);
      SweepRates(tick, shellTicks, s.rate);
    }

    method ReapSessions(world: Registry, tick: nat, shellTicks: nat, graceTicks: nat,
                        ghost deferSpawn: bool, ghost before: nat)
      returns (gone: seq<nat>)
      requires world.Valid() && Inv(View(world), deferSpawn, before) && before <= tick
      modifies this, world
      ensures world.Valid()
      ensures View(world) == Partial(old(View(world)), ExpiredKeys(old(View(world)), tick, shellTicks, graceTicks))
      ensures Reported(gone, old(world.View()).live, world.View().live)
    {
      ghost var s := View(world);
      ghost var expired := ExpiredKeys(s, tick, shellTicks, graceTicks);
      var all := sessions.Keys;
      PartialStart(s);
      assert expired - all == {};
      gone := ReapThese(world, all, tick, shellTicks, graceTicks, s, deferSpawn, before, expired);
      assert expired - {} == expired;
    }

    // The loop.
    method ReapThese(world: Registry, all: set<nat>, tick: nat, shellTicks: nat, graceTicks: nat,
                     ghost s: Server, ghost deferSpawn: bool, ghost before: nat, ghost expired: set<nat>)
      returns (gone: seq<nat>)
      requires Inv(s, deferSpawn, before) && before <= tick && expired == ExpiredKeys(s, tick, shellTicks, graceTicks)
      requires Midway(world, [], s, expired, all)
      modifies this, world
      ensures Midway(world, gone, s, expired, {})
    {
      gone := [];
      var rest := all;
      while rest != {}
        invariant Midway(world, gone, s, expired, rest)
        decreases |rest|
      {
        var k :| k in rest;
        gone := ReapNext(world, k, tick, shellTicks, graceTicks, gone, s, deferSpawn, before, expired, rest);
        rest := rest - {k};
      }
    }

    // Where the loop stands: exactly the expired sessions already visited are gone.
    ghost predicate Midway(world: Registry, gone: seq<nat>, s: Server, expired: set<nat>, rest: set<nat>)
      reads this, world
    {
      && world.Valid() && rest <= s.sessions.Keys && expired <= s.sessions.Keys
      && View(world) == Partial(s, expired - rest)
      && Reported(gone, s.world.live, world.View().live)
    }

    method ReapNext(world: Registry, k: nat, tick: nat, shellTicks: nat, graceTicks: nat, reported: seq<nat>,
                    ghost s: Server, ghost deferSpawn: bool, ghost before: nat, ghost expired: set<nat>, ghost rest: set<nat>)
      returns (gone: seq<nat>)
      requires Inv(s, deferSpawn, before) && before <= tick && expired == ExpiredKeys(s, tick, shellTicks, graceTicks)
      requires Midway(world, reported, s, expired, rest) && k in rest
      modifies this, world
      ensures Midway(world, gone, s, expired, rest - {k})
    {
      gone := ReapOne(world, k, tick, shellTicks, graceTicks, reported, s, deferSpawn, before, expired - rest);
      OneDone(expired, rest, k);
    }

    method ReapOne(world: Registry, k: nat, tick: nat, shellTicks: nat, graceTicks: nat, reported: seq<nat>,
                   ghost s: Server, ghost deferSpawn: bool, ghost before: nat, ghost done: set<nat>)
      returns (gone: seq<nat>)
      requires world.Valid() && Inv(s, deferSpawn, before) && before <= tick
      requires done <= s.sessions.Keys && k in s.sessions && k !in done && View(world) == Partial(s, done)
      requires Reported(reported, s.world.live, world.View().live)
      modifies this, world
      ensures world.Valid() && Reported(gone, s.world.live, world.View().live)
      ensures View(world) ==
              Partial(s, if Expired(s.sessions[k], tick, shellTicks, graceTicks) then done + {k} else done)
    {
      PartialStep(s, deferSpawn, before, done, k);
      gone := reported;
      var se := sessions[k];
      assert se == s.sessions[k];
      var timeout := if se.Live() || se.loading then graceTicks else shellTicks;
      if tick - se.lastSeenTick > timeout {
        gone := Erase(world, k, gone, s.world.live);
      }
    }

    // The body of the loop for one expired session. The safety net for the primary entity
    // is kept as the code has it.
    method Erase(world: Registry, k: nat, reported: seq<nat>, ghost alive: set<EntityId>) returns (gone: seq<nat>)
      requires world.Valid() && k in sessions && Reported(reported, alive, world.View().live)
      modifies this, world
      ensures world.Valid() && View(world) == Drop(old(View(world)), k)
      ensures Reported(gone, alive, world.View().live)
    {
      gone := reported;
      var se := sessions[k];
      ghost var w := world.View();
      if se.playerId != 0 {
        var list := if se.playerId in owned then owned[se.playerId] else [];
        gone := DestroyAll(world, list, gone, alive);
        owned := owned - {se.playerId};
      }
      ghost var w1 := world.View();
      if se.entity.Some? {
        gone := DestroyAll(world, [se.entity.value], gone, alive);
      }
      ghost var mine := if se.playerId != 0 then Elements(OwnedBy(old(View(world)), se.playerId)) else {};
      ghost var primary := if se.entity.Some? then {se.entity.value} else {};
      assert w1 == Destroyed(w, mine) by {
        DestroyedNone(w);
      }
      assert world.View() == Destroyed(w1, primary) by {
        DestroyedNone(w1);
        if se.entity.Some? {
          assert Elements([se.entity.value]) == {se.entity.value};
        }
      }
      DestroyedTwice(w, mine, primary);
      if se.token != 0 {
        byToken := byToken - {se.token};
      }
      sessions := sessions - {k};
    }

    method DestroyOne(world: Registry, e: EntityId, reported: seq<nat>, ghost alive: set<EntityId>) returns (gone: seq<nat>)
      requires world.Valid() && Reported(reported, alive, world.View().live)
      modifies world
      ensures world.Valid() && world.View() == Destroyed(old(world.View()), {e})
      ensures Reported(gone, alive, world.View().live)
    {
      gone := reported;
      ghost var now := world.View();
      world.ViewOk();
      if world.IsValid(e) {
        gone := gone + [e.index];
        world.Destroy(e);
        ReportOne(gone, alive, now, e);
      } else {
        assert {e} * now.live == {};
        DestroyedDead(now, e);
      }
    }

    method DestroyAll(world: Registry, list: seq<EntityId>, reported: seq<nat>, ghost alive: set<EntityId>)
      returns (gone: seq<nat>)
      requires world.Valid() && Reported(reported, alive, world.View().live)
      modifies world
      ensures world.Valid() && world.View() == Destroyed(old(world.View()), Elements(list))
      ensures Reported(gone, alive, world.View().live)
    {
      gone := reported;
      ghost var w := world.View();
      DestroyedNone(w);
      var i := 0;
      assert Elements(list[..0]) == {};
      while i < |list|
        invariant 0 <= i <= |list| && world.Valid()
        invariant world.View() == Destroyed(w, Elements(list[..i]))
        invariant Reported(gone, alive, world.View().live)
      {
        gone := DestroyOne(world, list[i], gone, alive);
        DestroyedTwice(w, Elements(list[..i]), {list[i]});
        assert list[..i + 1] == list[..i] + [list[i]];
        assert Elements(list[..i + 1]) == Elements(list[..i]) + {list[i]};
        i := i + 1;
      }
      assert list[..i] == list;
    }

    method SweepRates(tick: nat, shellTicks: nat, ghost was: map<nat, RateInfo>)
      requires rate == was && forall k :: k in was ==> was[k].windowStart <= tick
      modifies this`rate
      ensures rate == FreshRates(was, tick, shellTicks)
    {
      var rest := rate.Keys;
      while rest != {}
        invariant rest <= was.Keys
        invariant rate == map k | k in was && (k in rest || !Stale(was[k], tick, shellTicks)) :: was[k]
        decreases |rest|
      {
        var k :| k in rest;
        if Stale(rate[k], tick, shellTicks) {
          rate := rate - {k};
        }
        rest := rest - {k};
      }
    }
  }

  // ---------------------------------------------------------------------------
  // Order independence of Reap
  // ---------------------------------------------------------------------------

  lemma OneDone(all: set<nat>, rest: set<nat>, k: nat)
    requires k in rest
    ensures all - (rest - {k}) == if k in all then (all - rest) + {k} else all - rest
  {
  }

  ghost function Elements(q: seq<EntityId>): set<EntityId> {
    set e | e in q
  }

  ghost function IndicesOf(es: set<EntityId>): set<nat> {
    set e | e in es :: e.index
  }

  ghost predicate DistinctSlots(es: set<EntityId>) {
    forall d, e :: d in es && e in es && d.index == e.index ==> d == e
  }

  // The report so far: the slots of everything that was alive and no longer is, once each.
  ghost predicate Reported(gone: seq<nat>, alive: set<EntityId>, live: set<EntityId>) {
    && live <= alive && DistinctSlots(alive)
    && NoDuplicates(gone) && forall i :: i in gone <==> i in IndicesOf(alive - live)
  }

  lemma ReportOne(gone: seq<nat>, alive: set<EntityId>, w: World, e: EntityId)
    requires |gone| > 0 && gone[|gone| - 1] == e.index && e in w.live
    requires Reported(gone[..|gone| - 1], alive, w.live)
    ensures Reported(gone, alive, Destroyed(w, {e}).live)
  {
    var was := gone[..|gone| - 1];
    assert gone == was + [e.index];
    assert {e} * w.live == {e};
    assert e.index !in was;
    assert alive - (w.live - {e}) == (alive - w.live) + {e};
    assert IndicesOf(alive - (w.live - {e})) == IndicesOf(alive - w.live) + {e.index};
  }

  lemma DestroyedNone(w: World)
    ensures Destroyed(w, {}) == w
  {
    assert {} * w.live == {};
    assert w.owner - {} == w.owner;
  }

  lemma DestroyedDead(w: World, e: EntityId)
    requires e !in w.live
    ensures Destroyed(w, {e}) == w
  {
    assert {e} * w.live == {};
    assert w.owner - {} == w.owner;
  }

  lemma DestroyedTwice(w: World, a: set<EntityId>, b: set<EntityId>)
    ensures Destroyed(Destroyed(w, a), b) == Destroyed(w, a + b)
  {
    var w1, w2, w3 := Destroyed(w, a), Destroyed(Destroyed(w, a), b), Destroyed(w, a + b);
    assert w2.live == w3.live;
    assert w2.owner == w3.owner by {
      assert (set e | e in (a + b) * w.live :: e.index)
          == (set e | e in a * w.live :: e.index) + (set e | e in b * w1.live :: e.index);
    }
  }

  // Reap restricted to some of the expired sessions.
  ghost function Partial(s: Server, gone: set<nat>): Server
    requires gone <= s.sessions.Keys
  {
    s.(sessions := s.sessions - gone,
       byToken := s.byToken - (set k | k in gone && s.sessions[k].token != 0 :: s.sessions[k].token),
       owned := s.owned - (set k | k in gone && s.sessions[k].playerId != 0 :: s.sessions[k].playerId),
       world := Destroyed(s.world, AllBelongings(s, gone)))
  }

  lemma PartialStart(s: Server)
    ensures Partial(s, {}) == s
  {
    assert AllBelongings(s, {}) == {};
    DestroyedNone(s.world);
    assert s.sessions - {} == s.sessions;
  }

  // Erasing one more session from a partial state is the partial state for one more key;
  // this is where distinct tokens and distinct player ids are needed.
  lemma PartialStep(s: Server, deferSpawn: bool, now: nat, gone: set<nat>, k: nat)
    requires Inv(s, deferSpawn, now) && gone <= s.sessions.Keys && k in s.sessions && k !in gone
    ensures k in Partial(s, gone).sessions && Partial(s, gone).sessions[k] == s.sessions[k]
    ensures Drop(Partial(s, gone), k) == Partial(s, gone + {k})
  {
    var p := Partial(s, gone);
    var se := s.sessions[k];
    assert p.sessions[k] == se;
    SameBelongings(s, gone, k);
    assert AllBelongings(s, gone + {k}) == AllBelongings(s, gone) + Belongings(s, se);
    DestroyedTwice(s.world, AllBelongings(s, gone), Belongings(s, se));
    assert s.sessions - gone - {k} == s.sessions - (gone + {k});
    MoreTokens(s, gone, k);
    MorePlayers(s, gone, k);
  }

  lemma SameBelongings(s: Server, gone: set<nat>, k: nat)
    requires PlayerIdsDistinct(s) && gone <= s.sessions.Keys && k in s.sessions && k !in gone
    ensures Belongings(Partial(s, gone), s.sessions[k]) == Belongings(s, s.sessions[k])
  {
    var se := s.sessions[k];
    if se.playerId != 0 {
      assert OwnedBy(Partial(s, gone), se.playerId) == OwnedBy(s, se.playerId);
    }
  }

  lemma MoreTokens(s: Server, gone: set<nat>, k: nat)
    requires gone <= s.sessions.Keys && k in s.sessions && k !in gone
    ensures Drop(Partial(s, gone), k).byToken == Partial(s, gone + {k}).byToken
  {
    var ts := set j | j in gone && s.sessions[j].token != 0 :: s.sessions[j].token;
    var t := s.sessions[k].token;
    assert (set j | j in gone + {k} && s.sessions[j].token != 0 :: s.sessions[j].token)
        == ts + (if t != 0 then {t} else {});
  }

  lemma MorePlayers(s: Server, gone: set<nat>, k: nat)
    requires gone <= s.sessions.Keys && k in s.sessions && k !in gone
    ensures Drop(Partial(s, gone), k).owned == Partial(s, gone + {k}).owned
  {
    var ps := set j | j in gone && s.sessions[j].playerId != 0 :: s.sessions[j].playerId;
    var p := s.sessions[k].playerId;
    assert (set j | j in gone + {k} && s.sessions[j].playerId != 0 :: s.sessions[j].playerId)
        == ps + (if p != 0 then {p} else {});
  }
}
