// The representation invariant of the connection table, kept by every entry point in
// every run.
module SessionInvariant {
  import opened Ecs
  import opened Sequences
  import opened RateLimiter
  import opened SessionModel

  // Each session sits under the key of its own endpoint.
  ghost predicate KeysOk(s: Server) {
    forall k :: k in s.sessions ==> EndpointKey(s.sessions[k].endpoint) == k
  }

  // Live, tokened and having a player id are one and the same; a session awaiting its load
  // is none of them, and exists only in deferred mode.
  ghost predicate IdentityOk(se: Session, deferSpawn: bool, nextPlayerId: nat) {
    && (se.Live() <==> se.token != 0)
    && (se.Live() <==> se.playerId != 0)
    && (se.loading ==> !se.Live() && deferSpawn)
    && se.playerId < nextPlayerId
  }

  ghost predicate IdentitiesOk(s: Server, deferSpawn: bool) {
    && s.nextPlayerId > 0
    && forall k :: k in s.sessions ==> IdentityOk(s.sessions[k], deferSpawn, s.nextPlayerId)
  }

  // The token index and the session table are inverse to each other.
  ghost predicate TokensOk(s: Server) {
    && (forall k :: k in s.sessions && s.sessions[k].token != 0 ==>
          s.sessions[k].token in s.byToken && s.byToken[s.sessions[k].token] == k)
    && (forall t :: t in s.byToken ==>
          t != 0 && s.byToken[t] in s.sessions && s.sessions[s.byToken[t]].token == t)
    && (forall t :: t in s.byToken ==> !Reserved(t, s.tokenCounter))
  }

  ghost predicate PlayerIdsDistinct(s: Server) {
    forall j, k :: j in s.sessions && k in s.sessions && j != k && s.sessions[j].playerId != 0 ==>
      s.sessions[j].playerId != s.sessions[k].playerId
  }

  // Ownership lists hold handles that were really handed out, once each, and every live
  // session's ship is on its player's list.
  ghost predicate OwnershipOk(s: Server) {
    && (forall p :: p in s.owned ==> p != 0 && NoDuplicates(s.owned[p]))
    && (forall p, e :: p in s.owned && e in s.owned[p] ==> e in s.world.issued)
    && (forall k :: k in s.sessions && s.sessions[k].Live() ==>
          s.sessions[k].entity.value in OwnedBy(s, s.sessions[k].playerId))
  }

  ghost predicate Inv(s: Server, deferSpawn: bool, now: nat) {
    && SeenBy(s, now)
    && KeysOk(s)
    && IdentitiesOk(s, deferSpawn)
    && TokensOk(s)
    && PlayerIdsDistinct(s)
    && OwnershipOk(s)
    && WorldOk(s.world)
  }

  // ---------------------------------------------------------------------------
  // What the invariant says
  // ---------------------------------------------------------------------------

  lemma IndexesAreInverse(s: Server, deferSpawn: bool, now: nat, k: nat, t: nat)
    requires Inv(s, deferSpawn, now)
    ensures (t in s.byToken && s.byToken[t] == k) <==> (t != 0 && k in s.sessions && s.sessions[k].token == t)
  {
  }

  lemma TokensDistinct(s: Server, deferSpawn: bool, now: nat, j: nat, k: nat)
    requires Inv(s, deferSpawn, now) && j in s.sessions && k in s.sessions
    requires s.sessions[j].token == s.sessions[k].token != 0
    ensures j == k
  {
    assert s.byToken[s.sessions[j].token] == j;
  }

  // Authenticate removes an index entry in its two healing branches only; neither is
  // ever taken.
  lemma AuthenticateNeverHeals(s: Server, deferSpawn: bool, now: nat, ep: Endpoint, token: nat)
    requires Inv(s, deferSpawn, now)
    ensures Authenticate(s, ep, token, now).0.byToken.Keys == s.byToken.Keys
    ensures token in s.byToken ==> s.byToken[token] in s.sessions
  {
  }

  // ---------------------------------------------------------------------------
  // Updates of one session
  // ---------------------------------------------------------------------------

  ghost predicate SameIdentity(se: Session, se': Session) {
    && se'.entity == se.entity && se'.token == se.token && se'.playerId == se.playerId
    && se'.loading == se.loading
  }

  // A session may change anything but its identity.
  lemma Touch(s: Server, deferSpawn: bool, before: nat, now: nat, k: nat, se: Session)
    requires Inv(s, deferSpawn, before) && before <= now
    requires k in s.sessions && SameIdentity(s.sessions[k], se)
    requires EndpointKey(se.endpoint) == k && se.lastSeenTick <= now
    ensures Inv(s.(sessions := s.sessions[k := se]), deferSpawn, now)
  {
    var s' := s.(sessions := s.sessions[k := se]);
    TouchSessions(s, deferSpawn, before, now, k, se);
    SameIdentities(s, s');
  }

  lemma TouchSessions(s: Server, deferSpawn: bool, before: nat, now: nat, k: nat, se: Session)
    requires SeenBy(s, before) && KeysOk(s) && IdentitiesOk(s, deferSpawn) && before <= now
    requires k in s.sessions && SameIdentity(s.sessions[k], se)
    requires EndpointKey(se.endpoint) == k && se.lastSeenTick <= now
    ensures var s' := s.(sessions := s.sessions[k := se]);
            SeenBy(s', now) && KeysOk(s') && IdentitiesOk(s', deferSpawn)
    ensures forall j :: j in s.sessions ==> SameIdentity(s.sessions[j], s.sessions[k := se][j])
  {
    assert IdentityOk(s.sessions[k], deferSpawn, s.nextPlayerId);
  }

  lemma SameIdentities(s: Server, s': Server)
    requires s'.byToken == s.byToken && s'.owned == s.owned && s'.world == s.world && s'.tokenCounter == s.tokenCounter
    requires s'.sessions.Keys == s.sessions.Keys
    requires forall j :: j in s'.sessions ==> SameIdentity(s.sessions[j], s'.sessions[j])
    requires TokensOk(s) && PlayerIdsDistinct(s) && OwnershipOk(s)
    ensures TokensOk(s') && PlayerIdsDistinct(s') && OwnershipOk(s')
  {
    forall j | j in s'.sessions && s'.sessions[j].token != 0
      ensures s'.sessions[j].token in s'.byToken && s'.byToken[s'.sessions[j].token] == j
    {
      assert s'.sessions[j].token == s.sessions[j].token;
    }
    forall j | j in s'.sessions && s'.sessions[j].Live()
      ensures s'.sessions[j].entity.value in OwnedBy(s', s'.sessions[j].playerId)
    {
      assert SameIdentity(s.sessions[j], s'.sessions[j]);
    }
  }

  // A pending session may appear or be replaced where no live session sits.
  lemma PutPending(s: Server, deferSpawn: bool, before: nat, now: nat, k: nat, se: Session)
    requires Inv(s, deferSpawn, before) && before <= now
    requires k in s.sessions ==> !s.sessions[k].Live()
    requires !se.Live() && se.token == 0 && se.playerId == 0 && (se.loading ==> deferSpawn)
    requires EndpointKey(se.endpoint) == k && se.lastSeenTick <= now
    ensures Inv(s.(sessions := s.sessions[k := se]), deferSpawn, now)
  {
    PendingSessions(s, deferSpawn, before, now, k, se);
    PendingTokens(s, deferSpawn, k, se);
    PendingOwnership(s, k, se);
  }

  lemma PendingSessions(s: Server, deferSpawn: bool, before: nat, now: nat, k: nat, se: Session)
    requires SeenBy(s, before) && KeysOk(s) && IdentitiesOk(s, deferSpawn) && PlayerIdsDistinct(s) && before <= now
    requires !se.Live() && se.token == 0 && se.playerId == 0 && (se.loading ==> deferSpawn)
    requires EndpointKey(se.endpoint) == k && se.lastSeenTick <= now
    ensures var s' := s.(sessions := s.sessions[k := se]);
            SeenBy(s', now) && KeysOk(s') && IdentitiesOk(s', deferSpawn) && PlayerIdsDistinct(s')
  {
  }

  lemma PendingTokens(s: Server, deferSpawn: bool, k: nat, se: Session)
    requires TokensOk(s) && IdentitiesOk(s, deferSpawn) && se.token == 0
    requires k in s.sessions ==> !s.sessions[k].Live()
    ensures TokensOk(s.(sessions := s.sessions[k := se]))
  {
    NoTokenAt(s, deferSpawn, k);
  }

  lemma PendingOwnership(s: Server, k: nat, se: Session)
    requires OwnershipOk(s) && !se.Live()
    ensures OwnershipOk(s.(sessions := s.sessions[k := se]))
  {
    var s' := s.(sessions := s.sessions[k := se]);
    forall j | j in s'.sessions && s'.sessions[j].Live()
      ensures s'.sessions[j].entity.value in OwnedBy(s', s'.sessions[j].playerId)
    {
      assert s'.sessions[j] == s.sessions[j];
    }
  }

  // A rate record may change.
  lemma PutRate(s: Server, deferSpawn: bool, before: nat, now: nat, k: nat, ri: RateInfo)
    requires Inv(s, deferSpawn, before) && before <= now && ri.windowStart <= now
    ensures Inv(s.(rate := s.rate[k := ri]), deferSpawn, now)
  {
    var s' := s.(rate := s.rate[k := ri]);
    assert OwnershipOk(s') by {
      forall j | j in s'.sessions && s'.sessions[j].Live()
        ensures s'.sessions[j].entity.value in OwnedBy(s', s'.sessions[j].playerId)
      {
        assert s'.sessions[j] == s.sessions[j];
      }
    }
  }

  lemma AuthenticateKeepsInv(s: Server, deferSpawn: bool, before: nat, now: nat, ep: Endpoint, token: nat)
    requires Inv(s, deferSpawn, before) && before <= now
    ensures var (a, key) := Authenticate(s, ep, token, now);
            && Inv(a, deferSpawn, now)
            && (key.Some? ==> key.value == EndpointKey(ep) && key.value in a.sessions
                              && a.sessions[key.value].token == token
                              && a.sessions[key.value].lastSeenTick == now)
  {
    if token != 0 && token in s.byToken {
      var newKey := EndpointKey(ep);
      var oldKey := s.byToken[token];
      if oldKey == newKey {
        Touch(s, deferSpawn, before, now, newKey, s.sessions[newKey].(lastSeenTick := now));
      } else if newKey !in s.sessions {
        RebindKeepsInv(s, deferSpawn, before, now, ep, token);
      }
    }
  }

  // The session at oldKey moves to newKey with a new endpoint.
  ghost function Moved(s: Server, oldKey: nat, newKey: nat, se: Session): Server {
    s.(sessions := (s.sessions - {oldKey})[newKey := se], byToken := s.byToken[se.token := newKey])
  }

  lemma MovedTokens(s: Server, oldKey: nat, newKey: nat, se: Session)
    requires TokensOk(s) && oldKey in s.sessions && newKey !in s.sessions
    requires s.sessions[oldKey].token == se.token != 0
    ensures TokensOk(Moved(s, oldKey, newKey, se))
  {
    var s' := Moved(s, oldKey, newKey, se);
    assert s.byToken[se.token] == oldKey;
    forall t | t in s'.byToken
      ensures s'.byToken[t] in s'.sessions && s'.sessions[s'.byToken[t]].token == t
    {
      assert t != se.token ==> s.byToken[t] != oldKey;
    }
    forall j | j in s'.sessions && s'.sessions[j].token != 0
      ensures s'.sessions[j].token in s'.byToken && s'.byToken[s'.sessions[j].token] == j
    {
      assert j != newKey ==> s.byToken[s.sessions[j].token] == j;
    }
  }

  lemma MovedPlayers(s: Server, oldKey: nat, newKey: nat, se: Session)
    requires PlayerIdsDistinct(s) && OwnershipOk(s) && oldKey in s.sessions && newKey !in s.sessions
    requires SameIdentity(s.sessions[oldKey], se)
    ensures PlayerIdsDistinct(Moved(s, oldKey, newKey, se)) && OwnershipOk(Moved(s, oldKey, newKey, se))
  {
    var s' := Moved(s, oldKey, newKey, se);
    forall i, j | i in s'.sessions && j in s'.sessions && i != j && s'.sessions[i].playerId != 0
      ensures s'.sessions[i].playerId != s'.sessions[j].playerId
    {
      var (i0, j0) := (if i == newKey then oldKey else i, if j == newKey then oldKey else j);
      assert s.sessions[i0].playerId == s'.sessions[i].playerId && s.sessions[j0].playerId == s'.sessions[j].playerId;
    }
    forall j | j in s'.sessions && s'.sessions[j].Live()
      ensures s'.sessions[j].entity.value in OwnedBy(s', s'.sessions[j].playerId)
    {
      assert SameIdentity(s.sessions[if j == newKey then oldKey else j], s'.sessions[j]);
    }
  }

  lemma RebindKeepsInv(s: Server, deferSpawn: bool, before: nat, now: nat, ep: Endpoint, token: nat)
    requires Inv(s, deferSpawn, before) && before <= now
    requires token != 0 && token in s.byToken && s.byToken[token] != EndpointKey(ep)
    requires EndpointKey(ep) !in s.sessions
    ensures Inv(Authenticate(s, ep, token, now).0, deferSpawn, now)
  {
    var oldKey := s.byToken[token];
    var se := s.sessions[oldKey].(endpoint := ep, lastSeenTick := now);
    assert Authenticate(s, ep, token, now).0 == Moved(s, oldKey, EndpointKey(ep), se);
    MovedTokens(s, oldKey, EndpointKey(ep), se);
    MovedPlayers(s, oldKey, EndpointKey(ep), se);
  }

  // ---------------------------------------------------------------------------
  // Entry points
  // ---------------------------------------------------------------------------

  // OnInput authenticates and then touches at most the authenticated session.
  lemma InputTouchesOne(s: Server, ep: Endpoint, token: nat, sequence: nat, ack: nat, now: nat)
    returns (a: Server, key: Option<nat>, r: Server)
    ensures (a, key) == Authenticate(s, ep, token, now) && r == OnInput(s, ep, token, sequence, ack, now).0
    ensures r == a || (key.Some? && key.value in a.sessions
                       && r == a.(sessions := a.sessions[key.value := ApplyInput(a.sessions[key.value], sequence, ack, now).0]))
  {
    a, key := Authenticate(s, ep, token, now).0, Authenticate(s, ep, token, now).1;
    r := OnInput(s, ep, token, sequence, ack, now).0;
  }

  lemma InputKeepsInv(s: Server, deferSpawn: bool, before: nat, now: nat, ep: Endpoint, token: nat,
                      sequence: nat, ack: nat)
    requires Inv(s, deferSpawn, before) && before <= now
    ensures Inv(OnInput(s, ep, token, sequence, ack, now).0, deferSpawn, now)
  {
    AuthenticateKeepsInv(s, deferSpawn, before, now, ep, token);
    var a, key, r := InputTouchesOne(s, ep, token, sequence, ack, now);
    if r != a {
      ApplyInputKeepsIdentity(a.sessions[key.value], sequence, ack, now);
      Touch(a, deferSpawn, now, now, key.value, ApplyInput(a.sessions[key.value], sequence, ack, now).0);
    }
  }

  lemma ApplyInputKeepsIdentity(se: Session, sequence: nat, ack: nat, now: nat)
    ensures var se' := ApplyInput(se, sequence, ack, now).0;
            SameIdentity(se, se') && se'.endpoint == se.endpoint && se'.lastSeenTick == se.lastSeenTick
  {
  }

  lemma TokenlessKeepsInv(s: Server, deferSpawn: bool, before: nat, now: nat, ep: Endpoint, payload: Payload)
    requires Inv(s, deferSpawn, before) && before <= now
    ensures Inv(OnReliable(s, ep, 0, payload, now), deferSpawn, now)
  {
    var key := EndpointKey(ep);
    var (r, drop) := RateLimited(s, key, now);
    PutRate(s, deferSpawn, before, now, key, r.rate[key]);
    if !drop && !(key in r.sessions && r.sessions[key].Live()) {
      var se := Lookup(r, key);
      assert key in r.sessions ==> IdentityOk(r.sessions[key], deferSpawn, r.nextPlayerId);
      PutPending(r, deferSpawn, now, now, key, se.(endpoint := ep, lastSeenTick := now, inbox := se.inbox + [payload]));
    }
  }

  lemma ReliableKeepsInv(s: Server, deferSpawn: bool, before: nat, now: nat, ep: Endpoint, token: nat, payload: Payload)
    requires Inv(s, deferSpawn, before) && before <= now
    ensures Inv(OnReliable(s, ep, token, payload, now), deferSpawn, now)
  {
    if token == 0 {
      TokenlessKeepsInv(s, deferSpawn, before, now, ep, payload);
    } else {
      AuthenticateKeepsInv(s, deferSpawn, before, now, ep, token);
      var (a, found) := Authenticate(s, ep, token, now);
      if found.Some? {
        var se := a.sessions[found.value];
        Touch(a, deferSpawn, now, now, found.value, se.(inbox := se.inbox + [payload]));
      }
    }
  }

  // The token minted next is not in use: by assumption for the source's, by the counter
  // for the fallback's.
  lemma MintedTokenIsFresh(s: Server, deferSpawn: bool, now: nat, source: nat)
    requires Inv(s, deferSpawn, now) && FreshSource(s, source)
    ensures var (token, counter) := NextToken(s.tokenCounter, source);
            token != 0 && token !in s.byToken && !Reserved(token, counter) && s.tokenCounter <= counter
  {
  }

  // What Accept is called with: a place with no live session, a fresh handle, a token
  // that is free to use.
  ghost predicate Acceptable(s: Server, deferSpawn: bool, now: nat, k: nat, source: nat, spawned: EntityId) {
    && Inv(s, deferSpawn, now)
    && (k in s.sessions ==> !s.sessions[k].Live())
    && FreshHandle(s.world, spawned) && FreshSource(s, source)
  }

  lemma AcceptKeepsTokens(s: Server, deferSpawn: bool, now: nat, k: nat, se: Session, name: string,
                          source: nat, spawned: EntityId)
    requires Acceptable(s, deferSpawn, now, k, source, spawned)
    ensures TokensOk(Accept(s, k, se, name, source, spawned))
  {
    MintedTokenIsFresh(s, deferSpawn, now, source);
    NoTokenAt(s, deferSpawn, k);
    NewToken(s, k, Accept(s, k, se, name, source, spawned));
  }

  lemma NewToken(s: Server, k: nat, s': Server)
    requires TokensOk(s) && k in s'.sessions && s'.sessions == s.sessions[k := s'.sessions[k]]
    requires forall t :: t in s.byToken ==> s.byToken[t] != k
    requires var token := s'.sessions[k].token;
             token != 0 && token !in s.byToken && s'.byToken == s.byToken[token := k] && !Reserved(token, s'.tokenCounter)
    requires s.tokenCounter <= s'.tokenCounter
    ensures TokensOk(s')
  {
  }

  lemma NoTokenAt(s: Server, deferSpawn: bool, k: nat)
    requires TokensOk(s) && IdentitiesOk(s, deferSpawn) && (k in s.sessions ==> !s.sessions[k].Live())
    ensures forall t :: t in s.byToken ==> s.byToken[t] != k
  {
    forall t | t in s.byToken
      ensures s.byToken[t] != k
    {
      assert s.sessions[s.byToken[t]].token == t != 0;
      assert IdentityOk(s.sessions[s.byToken[t]], deferSpawn, s.nextPlayerId);
    }
  }

  lemma AcceptKeepsWorld(s: Server, deferSpawn: bool, now: nat, k: nat, se: Session, name: string,
                         source: nat, spawned: EntityId)
    requires Acceptable(s, deferSpawn, now, k, source, spawned)
    ensures WorldOk(Accept(s, k, se, name, source, spawned).world)
  {
    var w' := Accept(s, k, se, name, source, spawned).world;
    CreatedOk(s.world, spawned);
    assert spawned in w'.live;
    forall i | i in w'.owner
      ensures exists e :: e in w'.live && e.index == i
    {
      if i != spawned.index {
        var e :| e in s.world.live && e.index == i;
        assert e in w'.live;
      }
    }
  }

  lemma AddOwnedHolds(owned: map<nat, seq<EntityId>>, issued: set<EntityId>, playerId: nat, e: EntityId)
    requires forall p :: p in owned ==> p != 0 && NoDuplicates(owned[p])
    requires forall p, d :: p in owned && d in owned[p] ==> d in issued
    ensures var owned' := AddOwned(owned, playerId, e);
            && (forall p :: p in owned' ==> p != 0 && NoDuplicates(owned'[p]))
            && (forall p, d :: p in owned' && d in owned'[p] ==> d in issued + {e})
            && (playerId != 0 ==> playerId in owned' && e in owned'[playerId])
            && (forall p, d :: p in owned && d in owned[p] ==> p in owned' && d in owned'[p])
  {
  }

  lemma AcceptKeepsOwnership(s: Server, deferSpawn: bool, now: nat, k: nat, se: Session, name: string,
                             source: nat, spawned: EntityId)
    requires Acceptable(s, deferSpawn, now, k, source, spawned)
    ensures OwnershipOk(Accept(s, k, se, name, source, spawned))
  {
    var s' := Accept(s, k, se, name, source, spawned);
    AddOwnedHolds(s.owned, s.world.issued, s.nextPlayerId, spawned);
    forall j | j in s'.sessions && s'.sessions[j].Live()
      ensures s'.sessions[j].entity.value in OwnedBy(s', s'.sessions[j].playerId)
    {
      if j != k {
        assert s'.sessions[j] == s.sessions[j];
        assert s.sessions[j].entity.value in OwnedBy(s, s.sessions[j].playerId);
      }
    }
  }

  lemma AcceptKeepsSessions(s: Server, deferSpawn: bool, before: nat, now: nat, k: nat, se: Session, name: string,
                            source: nat, spawned: EntityId)
    requires Acceptable(s, deferSpawn, before, k, source, spawned) && before <= now
    requires !se.loading && EndpointKey(se.endpoint) == k && se.lastSeenTick <= now
    ensures var s' := Accept(s, k, se, name, source, spawned);
            SeenBy(s', now) && KeysOk(s') && IdentitiesOk(s', deferSpawn) && PlayerIdsDistinct(s')
  {
    MintedTokenIsFresh(s, deferSpawn, before, source);
    var s' := Accept(s, k, se, name, source, spawned);
    NewPlayer(s, deferSpawn, before, now, k, s'.sessions[k], s');
  }

  lemma NewPlayer(s: Server, deferSpawn: bool, before: nat, now: nat, k: nat, se: Session, s': Server)
    requires SeenBy(s, before) && KeysOk(s) && IdentitiesOk(s, deferSpawn) && PlayerIdsDistinct(s) && before <= now
    requires se.Live() && se.token != 0 && se.playerId == s.nextPlayerId && !se.loading
    requires EndpointKey(se.endpoint) == k && se.lastSeenTick <= now
    requires s'.sessions == s.sessions[k := se] && s'.nextPlayerId == s.nextPlayerId + 1 && s'.rate == s.rate
    ensures SeenBy(s', now) && KeysOk(s') && IdentitiesOk(s', deferSpawn) && PlayerIdsDistinct(s')
  {
    forall j | j in s.sessions
      ensures s.sessions[j].playerId < s.nextPlayerId && IdentityOk(s.sessions[j], deferSpawn, s'.nextPlayerId)
    {
      assert IdentityOk(s.sessions[j], deferSpawn, s.nextPlayerId);
    }
  }

  lemma AcceptKeepsInv(s: Server, deferSpawn: bool, before: nat, now: nat, k: nat, se: Session, name: string,
                       source: nat, spawned: EntityId)
    requires Acceptable(s, deferSpawn, before, k, source, spawned) && before <= now
    requires !se.loading && EndpointKey(se.endpoint) == k && se.lastSeenTick <= now
    ensures Inv(Accept(s, k, se, name, source, spawned), deferSpawn, now)
  {
    AcceptKeepsTokens(s, deferSpawn, before, k, se, name, source, spawned);
    AcceptKeepsWorld(s, deferSpawn, before, k, se, name, source, spawned);
    AcceptKeepsOwnership(s, deferSpawn, before, k, se, name, source, spawned);
    AcceptKeepsSessions(s, deferSpawn, before, now, k, se, name, source, spawned);
  }

  lemma HelloKeepsInv(s: Server, deferSpawn: bool, before: nat, now: nat, ep: Endpoint, hello: Hello,
                      source: nat, spawned: EntityId)
    requires Inv(s, deferSpawn, before) && before <= now
    requires FreshHandle(s.world, spawned) && FreshSource(s, source)
    ensures Inv(OnHello(s, ep, hello, now, deferSpawn, source, spawned).0, deferSpawn, now)
  {
    var key := EndpointKey(ep);
    var se := Lookup(s, key).(endpoint := ep, lastSeenTick := now);
    var s' := OnHello(s, ep, hello, now, deferSpawn, source, spawned).0;
    if !hello.versionOk || se.Live() || deferSpawn {
      if se.Live() {
        Touch(s, deferSpawn, before, now, key, s'.sessions[key]);
      } else {
        PutPending(s, deferSpawn, before, now, key, s'.sessions[key]);
      }
    } else {
      AcceptKeepsInv(s, deferSpawn, before, now, key, se, hello.name, source, spawned);
    }
  }

  lemma SpawnLoadedKeepsInv(s: Server, deferSpawn: bool, before: nat, now: nat, ep: Endpoint, source: nat, spawned: EntityId)
    requires Inv(s, deferSpawn, before) && before <= now
    requires FreshHandle(s.world, spawned) && FreshSource(s, source)
    ensures Inv(SpawnLoaded(s, ep, now, source, spawned).0, deferSpawn, now)
  {
    var key := EndpointKey(ep);
    if key in s.sessions && s.sessions[key].loading {
      var se := s.sessions[key].(loading := false, lastSeenTick := now);
      AcceptKeepsInv(s, deferSpawn, before, now, key, se, se.name, source, spawned);
    }
  }

  lemma ReapKeepsInv(s: Server, deferSpawn: bool, before: nat, now: nat, shellTicks: nat, graceTicks: nat)
    requires Inv(s, deferSpawn, before) && before <= now
    ensures Inv(Reap(s, now, shellTicks, graceTicks), deferSpawn, now)
  {
    var gone := ExpiredKeys(s, now, shellTicks, graceTicks);
    var s' := Reap(s, now, shellTicks, graceTicks);
    DestroyedOk(s.world, AllBelongings(s, gone));
    forall k | k in s'.sessions && s'.sessions[k].token != 0
      ensures s'.sessions[k].token in s'.byToken && s'.byToken[s'.sessions[k].token] == k
    {
      forall j | j in gone && s.sessions[j].token != 0
        ensures s.sessions[j].token != s'.sessions[k].token
      {
        if s.sessions[j].token == s.sessions[k].token {
          TokensDistinct(s, deferSpawn, before, j, k);
        }
      }
    }
    forall t | t in s'.byToken
      ensures s'.byToken[t] in s'.sessions
    {
      assert s.sessions[s.byToken[t]].token == t;
    }
    forall k | k in s'.sessions && s'.sessions[k].Live()
      ensures s'.sessions[k].entity.value in OwnedBy(s', s'.sessions[k].playerId)
    {
      assert s'.sessions[k] == s.sessions[k];
      assert s'.sessions[k].playerId in s'.owned;
    }
  }

  lemma GrantKeepsInv(s: Server, deferSpawn: bool, before: nat, now: nat, playerId: nat, e: EntityId)
    requires Inv(s, deferSpawn, before) && before <= now
    ensures Inv(GrantOwnership(s, playerId, e), deferSpawn, now)
  {
    var s' := GrantOwnership(s, playerId, e);
    if playerId != 0 && e in s.world.live {
      assert WorldOk(s'.world) by {
        forall i | i in s'.world.owner
          ensures exists d :: d in s'.world.live && d.index == i
        {
          if i == e.index {
            assert e in s'.world.live;
          } else {
            var d :| d in s.world.live && d.index == i;
            assert d in s'.world.live;
          }
        }
      }
      forall k | k in s'.sessions && s'.sessions[k].Live()
        ensures s'.sessions[k].entity.value in OwnedBy(s', s'.sessions[k].playerId)
      {
        assert s'.sessions[k] == s.sessions[k];
        assert s.sessions[k].entity.value in OwnedBy(s, s.sessions[k].playerId);
      }
    }
  }

  lemma OtherKeepsInv(s: Server, deferSpawn: bool, before: nat, now: nat, w: World)
    requires Inv(s, deferSpawn, before) && before <= now
    requires WorldOk(w) && s.world.issued <= w.issued
    ensures Inv(s.(world := w), deferSpawn, now)
  {
    var s' := s.(world := w);
    forall k | k in s'.sessions && s'.sessions[k].Live()
      ensures s'.sessions[k].entity.value in OwnedBy(s', s'.sessions[k].playerId)
    {
      assert s'.sessions[k] == s.sessions[k];
    }
  }

  // ---------------------------------------------------------------------------
  // Every run
  // ---------------------------------------------------------------------------

  lemma StepKeepsInv(s: Server, deferSpawn: bool, before: nat, now: nat, ev: Event)
    requires Inv(s, deferSpawn, before) && before <= now
    requires Allowed(s, ev)
    ensures SeenBy(s, now)
    ensures Inv(Apply(s, deferSpawn, ev, now), deferSpawn, now)
  {
    match ev
    case Input(ep, token, sequence, ack) => InputKeepsInv(s, deferSpawn, before, now, ep, token, sequence, ack);
    case Reliable(ep, token, payload) => ReliableKeepsInv(s, deferSpawn, before, now, ep, token, payload);
    case ClientHello(ep, hello, source, spawned) => HelloKeepsInv(s, deferSpawn, before, now, ep, hello, source, spawned);
    case LoadDone(ep, source, spawned) => SpawnLoadedKeepsInv(s, deferSpawn, before, now, ep, source, spawned);
    case ReapAll(shellTicks, graceTicks) => ReapKeepsInv(s, deferSpawn, before, now, shellTicks, graceTicks);
    case Grant(playerId, e) => GrantKeepsInv(s, deferSpawn, before, now, playerId, e);
    case OtherSpawn(spawned) =>
      CreatedOk(s.world, spawned);
      OtherKeepsInv(s, deferSpawn, before, now, Created(s.world, spawned));
    case OtherDestroy(e) =>
      DestroyedOk(s.world, {e});
      OtherKeepsInv(s, deferSpawn, before, now, Destroyed(s.world, {e}));
  }

  datatype Timed = At(tick: nat, ev: Event)

  ghost predicate InOrder(events: seq<Timed>) {
    forall i, j :: 0 <= i <= j < |events| ==> events[i].tick <= events[j].tick
  }

  ghost predicate StepAt(states: seq<Server>, events: seq<Timed>, deferSpawn: bool, i: nat)
    requires i < |events| < |states|
  {
    && SeenBy(states[i], events[i].tick)
    && Allowed(states[i], events[i].ev)
    && states[i + 1] == Apply(states[i], deferSpawn, events[i].ev, events[i].tick)
  }

  // A sequence of states is a run when it starts empty and every step is an allowed
  // event at a tick no earlier than the one before.
  ghost predicate IsRun(states: seq<Server>, events: seq<Timed>, deferSpawn: bool) {
    && |states| == |events| + 1
    && states[0] == EmptyServer
    && InOrder(events)
    && forall i: nat :: i < |events| ==> StepAt(states, events, deferSpawn, i)
  }

  function TickAfter(events: seq<Timed>, i: nat): nat
    requires i <= |events|
  {
    if i == 0 then 0 else events[i - 1].tick
  }

  lemma {:induction false} RunKeepsInv(states: seq<Server>, events: seq<Timed>, deferSpawn: bool, i: nat)
    requires IsRun(states, events, deferSpawn) && i <= |events|
    ensures Inv(states[i], deferSpawn, TickAfter(events, i))
  {
    if i > 0 {
      RunKeepsInv(states, events, deferSpawn, i - 1);
      assert StepAt(states, events, deferSpawn, i - 1);
      StepKeepsInv(states[i - 1], deferSpawn, TickAfter(events, i - 1), events[i - 1].tick, events[i - 1].ev);
    }
  }

  // One step of a run.
  lemma RunAt(states: seq<Server>, events: seq<Timed>, deferSpawn: bool, i: nat)
    returns (s: Server, s': Server, ev: Event, before: nat, now: nat)
    requires IsRun(states, events, deferSpawn) && i < |events|
    ensures s == states[i] && s' == states[i + 1] && ev == events[i].ev
    ensures before == TickAfter(events, i) <= now == events[i].tick
    ensures Inv(s, deferSpawn, before) && SeenBy(s, now) && Allowed(s, ev) && s' == Apply(s, deferSpawn, ev, now)
  {
    s, s', ev, before, now := states[i], states[i + 1], events[i].ev, TickAfter(events, i), events[i].tick;
    RunKeepsInv(states, events, deferSpawn, i);
    assert StepAt(states, events, deferSpawn, i);
  }

  lemma EmptyRun(deferSpawn: bool)
    ensures IsRun([EmptyServer], [], deferSpawn)
  {
  }

  // Any run goes on with any allowed event.
  lemma RunOn(states: seq<Server>, events: seq<Timed>, deferSpawn: bool, ev: Event, now: nat)
    returns (states': seq<Server>, events': seq<Timed>)
    requires IsRun(states, events, deferSpawn) && TickAfter(events, |events|) <= now
    requires SeenBy(states[|events|], now) && Allowed(states[|events|], ev)
    ensures states' == states + [Apply(states[|events|], deferSpawn, ev, now)] && events' == events + [At(now, ev)]
    ensures IsRun(states', events', deferSpawn)
  {
    states', events' := states + [Apply(states[|events|], deferSpawn, ev, now)], events + [At(now, ev)];
    forall i: nat | i < |events'|
      ensures StepAt(states', events', deferSpawn, i)
    {
      if i < |events| {
        assert StepAt(states, events, deferSpawn, i);
      }
    }
  }
}
