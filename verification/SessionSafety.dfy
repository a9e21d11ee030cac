// Safety of the connection table: whose datagram can touch whom, what Reap removes, when
// ownership stays exclusive, and what mixing the two hello modes would break.
module SessionSafety {
  import opened Ecs
  import opened SessionModel
  import opened SessionInvariant

  // ---------------------------------------------------------------------------
  // Authentication
  // ---------------------------------------------------------------------------

  // Authenticating with a token leaves every session with another token as it is.
  lemma AuthenticateTouchesOne(s: Server, deferSpawn: bool, before: nat, now: nat, ep: Endpoint, token: nat, k: nat)
    requires Inv(s, deferSpawn, before) && before <= now
    requires k in s.sessions && s.sessions[k].token != token
    ensures var a := Authenticate(s, ep, token, now).0; k in a.sessions && a.sessions[k] == s.sessions[k]
    ensures Authenticate(s, ep, token, now).1 != Some(k)
  {
  }

  // Zero, unknown, or another session's token: a datagram carrying it cannot change a
  // live session in any field, nor move it.
  lemma ForeignInputIsHarmless(s: Server, deferSpawn: bool, before: nat, now: nat, ep: Endpoint, token: nat,
                               sequence: nat, ack: nat, k: nat)
    requires Inv(s, deferSpawn, before) && before <= now
    requires k in s.sessions && s.sessions[k].Live() && s.sessions[k].token != token
    ensures var s' := OnInput(s, ep, token, sequence, ack, now).0; k in s'.sessions && s'.sessions[k] == s.sessions[k]
  {
    AuthenticateTouchesOne(s, deferSpawn, before, now, ep, token, k);
  }

  lemma ForeignReliableIsHarmless(s: Server, deferSpawn: bool, before: nat, now: nat, ep: Endpoint, token: nat,
                                  payload: Payload, k: nat)
    requires Inv(s, deferSpawn, before) && before <= now
    requires k in s.sessions && s.sessions[k].Live() && s.sessions[k].token != token
    ensures var s' := OnReliable(s, ep, token, payload, now); k in s'.sessions && s'.sessions[k] == s.sessions[k]
  {
    if token != 0 {
      AuthenticateTouchesOne(s, deferSpawn, before, now, ep, token, k);
    }
  }

  lemma TokenHasHolder(s: Server, deferSpawn: bool, now: nat, token: nat)
    requires Inv(s, deferSpawn, now)
    ensures token in s.byToken ==> s.byToken[token] in s.sessions && s.sessions[s.byToken[token]].token == token
  {
  }

  // A datagram with an unknown nonzero token changes nothing at all; a token-less input
  // neither.
  lemma UnknownTokenChangesNothing(s: Server, deferSpawn: bool, now: nat, ep: Endpoint, token: nat,
                                   sequence: nat, ack: nat, payload: Payload)
    requires Inv(s, deferSpawn, now)
    requires forall k :: k in s.sessions ==> s.sessions[k].token == 0 || s.sessions[k].token != token
    ensures OnInput(s, ep, token, sequence, ack, now) == (s, None)
    ensures token != 0 ==> OnReliable(s, ep, token, payload, now) == s
  {
    TokenHasHolder(s, deferSpawn, now, token);
  }

  // The right token from any address: the session follows its client there, unless the
  // address is already another session's, in which case nothing changes.
  lemma RebindFollowsClient(s: Server, deferSpawn: bool, before: nat, now: nat, ep: Endpoint, k: nat)
    requires Inv(s, deferSpawn, before) && before <= now
    requires k in s.sessions && s.sessions[k].Live()
    ensures var key := EndpointKey(ep);
            var token := s.sessions[k].token;
            var (a, found) := Authenticate(s, ep, token, now);
            if key != k && key in s.sessions then a == s && found == None
            else && found == Some(key)
                 && a.sessions == (s.sessions - {k})[key := s.sessions[k].(endpoint := ep, lastSeenTick := now)]
                 && a.byToken == s.byToken[token := key]
  {
    var key := EndpointKey(ep);
    var token := s.sessions[k].token;
    var (a, found) := Authenticate(s, ep, token, now);
    assert s.byToken[token] == k;
    if key == k {
      EndpointKeyInjective(s.sessions[k].endpoint, ep);
      assert a.sessions == (s.sessions - {k})[key := s.sessions[k].(endpoint := ep, lastSeenTick := now)];
      assert a.byToken == s.byToken[token := key];
    }
  }

  // ---------------------------------------------------------------------------
  // Reap
  // ---------------------------------------------------------------------------

  // The primary ship is always on its player's list, so Reap's safety net has nothing
  // left to destroy: a session's belongings are exactly its player's list.
  lemma SafetyNetIsEmpty(s: Server, deferSpawn: bool, now: nat, k: nat)
    requires Inv(s, deferSpawn, now) && k in s.sessions
    ensures Belongings(s, s.sessions[k]) ==
            if s.sessions[k].playerId != 0 then (set e | e in OwnedBy(s, s.sessions[k].playerId)) else {}
  {
  }

  // A reaped session leaves nothing behind: no key, no token, no ownership entry, no
  // valid entity.
  lemma ReapIsComplete(s: Server, deferSpawn: bool, before: nat, now: nat, shellTicks: nat, graceTicks: nat, k: nat)
    requires Inv(s, deferSpawn, before) && before <= now
    requires k in s.sessions && Expired(s.sessions[k], now, shellTicks, graceTicks)
    ensures var s' := Reap(s, now, shellTicks, graceTicks);
            && k !in s'.sessions
            && s.sessions[k].token !in s'.byToken
            && (forall t :: t in s'.byToken ==> s'.byToken[t] != k)
            && s.sessions[k].playerId !in s'.owned
            && (forall e :: e in OwnedBy(s, s.sessions[k].playerId) ==> e !in s'.world.live)
  {
    var gone := ExpiredKeys(s, now, shellTicks, graceTicks);
    var s' := Reap(s, now, shellTicks, graceTicks);
    assert k in gone;
    DestroyedOk(s.world, AllBelongings(s, gone));
    if s.sessions[k].playerId != 0 {
      forall e | e in OwnedBy(s, s.sessions[k].playerId)
        ensures e !in s'.world.live
      {
        assert e in Belongings(s, s.sessions[k]);
      }
    }
    forall t | t in s'.byToken
      ensures s'.byToken[t] != k
    {
      assert s.sessions[s.byToken[t]].token == t;
    }
  }

  // The Owner component of a valid entity and the ownership index tell the same story.
  ghost predicate OwnerAgrees(s: Server) {
    forall e, p :: e in s.world.live ==>
      (Owns(s.world, p, e) <==> (p in s.owned && e in s.owned[p]))
  }

  ghost predicate Owns(w: World, p: nat, e: EntityId) {
    e.index in w.owner && w.owner[e.index] == p
  }

  // When they agree, Reap destroys exactly the entities the reaped players own: whatever
  // belongs to a survivor, or to nobody, is still valid and still has its owner.
  lemma ReapSparesTheRest(s: Server, deferSpawn: bool, before: nat, now: nat, shellTicks: nat, graceTicks: nat, e: EntityId)
    requires Inv(s, deferSpawn, before) && before <= now && OwnerAgrees(s) && e in s.world.live
    ensures var s' := Reap(s, now, shellTicks, graceTicks);
            var reaped := exists k :: k in ExpiredKeys(s, now, shellTicks, graceTicks) && s.sessions[k].playerId != 0
                                      && Owns(s.world, s.sessions[k].playerId, e);
            && (e in s'.world.live <==> !reaped)
            && (!reaped && e.index in s.world.owner ==> Owns(s'.world, s.world.owner[e.index], e))
  {
    var gone := ExpiredKeys(s, now, shellTicks, graceTicks);
    var doomed := AllBelongings(s, gone);
    DestroyedOk(s.world, doomed);
    if e in doomed {
      var k :| k in gone && e in Belongings(s, s.sessions[k]);
      SafetyNetIsEmpty(s, deferSpawn, before, k);
      assert e in OwnedBy(s, s.sessions[k].playerId);
      assert Owns(s.world, s.sessions[k].playerId, e);
    }
    if k :| k in gone && s.sessions[k].playerId != 0 && Owns(s.world, s.sessions[k].playerId, e) {
      assert e in Belongings(s, s.sessions[k]);
    }
  }

  // ---------------------------------------------------------------------------
  // Survivors
  // ---------------------------------------------------------------------------

  // The reap leaves every live entity of every surviving session alive.
  ghost predicate SparesSurvivors(s: Server, now: nat, shellTicks: nat, graceTicks: nat)
    requires SeenBy(s, now)
  {
    forall k, e :: k in s.sessions && !Expired(s.sessions[k], now, shellTicks, graceTicks)
                   && e in s.world.live && e in Belongings(s, s.sessions[k])
                   ==> e in Reap(s, now, shellTicks, graceTicks).world.live
  }

  // A live entity that both a session about to be reaped and a surviving one lay claim to.
  ghost predicate Contested(s: Server, now: nat, shellTicks: nat, graceTicks: nat, j: nat, k: nat, e: EntityId)
    requires SeenBy(s, now)
  {
    && j in s.sessions && Expired(s.sessions[j], now, shellTicks, graceTicks)
    && k in s.sessions && !Expired(s.sessions[k], now, shellTicks, graceTicks)
    && e in s.world.live && e in Belongings(s, s.sessions[j]) && e in Belongings(s, s.sessions[k])
  }

  // It spares the survivors exactly when no live entity is contested.
  lemma SparesExactly(s: Server, deferSpawn: bool, before: nat, now: nat, shellTicks: nat, graceTicks: nat)
    requires Inv(s, deferSpawn, before) && before <= now
    ensures SeenBy(s, now)
    ensures SparesSurvivors(s, now, shellTicks, graceTicks)
       <==> forall j, k, e :: !Contested(s, now, shellTicks, graceTicks, j, k, e)
  {
    if SparesSurvivors(s, now, shellTicks, graceTicks) {
      forall j, k, e
        ensures !Contested(s, now, shellTicks, graceTicks, j, k, e)
      {
        ContestedIsLost(s, now, shellTicks, graceTicks, j, k, e);
      }
    } else {
      var k, e :| k in s.sessions && !Expired(s.sessions[k], now, shellTicks, graceTicks)
                  && e in s.world.live && e in Belongings(s, s.sessions[k])
                  && e !in Reap(s, now, shellTicks, graceTicks).world.live;
      var j := LostIsContested(s, now, shellTicks, graceTicks, k, e);
    }
  }

  lemma ContestedIsLost(s: Server, now: nat, shellTicks: nat, graceTicks: nat, j: nat, k: nat, e: EntityId)
    requires SeenBy(s, now)
    ensures Contested(s, now, shellTicks, graceTicks, j, k, e) ==> e !in Reap(s, now, shellTicks, graceTicks).world.live
  {
    if Contested(s, now, shellTicks, graceTicks, j, k, e) {
      assert j in ExpiredKeys(s, now, shellTicks, graceTicks);
      assert e in AllBelongings(s, ExpiredKeys(s, now, shellTicks, graceTicks));
    }
  }

  lemma LostIsContested(s: Server, now: nat, shellTicks: nat, graceTicks: nat, k: nat, e: EntityId) returns (j: nat)
    requires SeenBy(s, now) && k in s.sessions && !Expired(s.sessions[k], now, shellTicks, graceTicks)
    requires e in s.world.live && e in Belongings(s, s.sessions[k])
    requires e !in Reap(s, now, shellTicks, graceTicks).world.live
    ensures Contested(s, now, shellTicks, graceTicks, j, k, e)
  {
    var gone := ExpiredKeys(s, now, shellTicks, graceTicks);
    assert e in AllBelongings(s, gone);
    j :| j in gone && e in Belongings(s, s.sessions[j]);
  }

  ghost predicate OnList(s: Server, p: nat, e: EntityId) {
    p in s.owned && e in s.owned[p]
  }

  lemma BelongsExactly(s: Server, deferSpawn: bool, now: nat, k: nat, e: EntityId)
    requires Inv(s, deferSpawn, now) && k in s.sessions
    ensures e in Belongings(s, s.sessions[k]) <==> s.sessions[k].playerId != 0 && OnList(s, s.sessions[k].playerId, e)
  {
    SafetyNetIsEmpty(s, deferSpawn, now, k);
  }

  lemma AgreedOwner(s: Server, deferSpawn: bool, now: nat, k: nat, e: EntityId)
    requires Inv(s, deferSpawn, now) && OwnerAgrees(s) && k in s.sessions
    ensures e in s.world.live && e in Belongings(s, s.sessions[k]) ==>
              s.sessions[k].playerId != 0 && Owns(s.world, s.sessions[k].playerId, e)
  {
    BelongsExactly(s, deferSpawn, now, k, e);
  }

  // When they agree, nothing is contested.
  lemma AgreementContestsNothing(s: Server, deferSpawn: bool, before: nat, now: nat, shellTicks: nat, graceTicks: nat)
    requires Inv(s, deferSpawn, before) && before <= now && OwnerAgrees(s)
    ensures SparesSurvivors(s, now, shellTicks, graceTicks)
  {
    forall j, k, e
      ensures !Contested(s, now, shellTicks, graceTicks, j, k, e)
    {
      if Contested(s, now, shellTicks, graceTicks, j, k, e) {
        AgreedOwner(s, deferSpawn, before, j, e);
        AgreedOwner(s, deferSpawn, before, k, e);
      }
    }
    SparesExactly(s, deferSpawn, before, now, shellTicks, graceTicks);
  }

  // Survivors' own entities, in particular.
  lemma ReapSparesSurvivors(s: Server, deferSpawn: bool, before: nat, now: nat, shellTicks: nat, graceTicks: nat,
                            k: nat, e: EntityId)
    requires Inv(s, deferSpawn, before) && before <= now && OwnerAgrees(s)
    requires k in s.sessions && !Expired(s.sessions[k], now, shellTicks, graceTicks)
    requires e in s.world.live && e in Belongings(s, s.sessions[k])
    ensures var s' := Reap(s, now, shellTicks, graceTicks);
            k in s'.sessions && s'.sessions[k] == s.sessions[k] && e in s'.world.live
  {
    AgreementContestsNothing(s, deferSpawn, before, now, shellTicks, graceTicks);
  }

  ghost predicate PlayerReaped(s: Server, now: nat, shellTicks: nat, graceTicks: nat, p: nat)
    requires SeenBy(s, now)
  {
    exists k :: k in s.sessions && s.sessions[k].playerId == p && Expired(s.sessions[k], now, shellTicks, graceTicks)
  }

  ghost predicate PlayerSurvives(s: Server, now: nat, shellTicks: nat, graceTicks: nat, p: nat)
    requires SeenBy(s, now)
  {
    exists k :: k in s.sessions && s.sessions[k].playerId == p && !Expired(s.sessions[k], now, shellTicks, graceTicks)
  }

  // Of the two players who claim an entity, one is reaped and the other survives.
  ghost predicate OneOfTwoReaped(s: Server, now: nat, shellTicks: nat, graceTicks: nat, p: nat, q: nat)
    requires SeenBy(s, now)
  {
    || (PlayerReaped(s, now, shellTicks, graceTicks, p) && PlayerSurvives(s, now, shellTicks, graceTicks, q))
    || (PlayerReaped(s, now, shellTicks, graceTicks, q) && PlayerSurvives(s, now, shellTicks, graceTicks, p))
  }

  // A grant keeps the agreement exactly when it does not take an entity another player
  // owns: the caller can read the Owner component first.
  lemma GrantExactly(s: Server, deferSpawn: bool, now: nat, playerId: nat, e: EntityId)
    requires Inv(s, deferSpawn, now) && OwnerAgrees(s)
    ensures OwnerAgrees(GrantOwnership(s, playerId, e)) <==> GrantTakesNothing(s, playerId, e)
  {
    var s' := GrantOwnership(s, playerId, e);
    if playerId != 0 && e in s.world.live {
      if GrantTakesNothing(s, playerId, e) {
        forall d, p | d in s'.world.live
          ensures Owns(s'.world, p, d) <==> (p in s'.owned && d in s'.owned[p])
        {
          assert Owns(s.world, p, d) <==> (p in s.owned && d in s.owned[p]);
          assert d != e ==> d.index != e.index;
        }
      } else {
        var q := s.world.owner[e.index];
        assert Owns(s.world, q, e);
        assert q in s'.owned && e in s'.owned[q];
        assert !Owns(s'.world, q, e);
      }
    }
  }

  predicate GrantTakesNothing(s: Server, playerId: nat, e: EntityId) {
    || playerId == 0 || e !in s.world.live
    || e.index !in s.world.owner || s.world.owner[e.index] == playerId
  }

  // Whose lists hold what after a grant that takes an entity from its owner.
  lemma GrantLists(s: Server, playerId: nat, e: EntityId, p: nat, d: EntityId)
    requires OwnerAgrees(s) && !GrantTakesNothing(s, playerId, e) && d in s.world.live
    ensures OnList(GrantOwnership(s, playerId, e), p, d)
       <==> Owns(s.world, p, d) || (p == playerId && d == e)
  {
  }

  lemma GrantContests(s: Server, deferSpawn: bool, before: nat, now: nat, playerId: nat, e: EntityId,
                      shellTicks: nat, graceTicks: nat, j: nat, k: nat, d: EntityId)
    requires Inv(s, deferSpawn, before) && before <= now && OwnerAgrees(s) && !GrantTakesNothing(s, playerId, e)
    requires Contested(GrantOwnership(s, playerId, e), now, shellTicks, graceTicks, j, k, d)
    ensures OneOfTwoReaped(s, now, shellTicks, graceTicks, playerId, s.world.owner[e.index])
  {
    var s' := GrantOwnership(s, playerId, e);
    GrantKeepsInv(s, deferSpawn, before, now, playerId, e);
    BelongsExactly(s', deferSpawn, now, j, d);
    BelongsExactly(s', deferSpawn, now, k, d);
    GrantLists(s, playerId, e, s.sessions[j].playerId, d);
    GrantLists(s, playerId, e, s.sessions[k].playerId, d);
    var q := s.world.owner[e.index];
    assert {s.sessions[j].playerId, s.sessions[k].playerId} == {playerId, q};
  }

  lemma TakenIsContested(s: Server, deferSpawn: bool, before: nat, now: nat, playerId: nat, e: EntityId,
                         shellTicks: nat, graceTicks: nat) returns (j: nat, k: nat)
    requires Inv(s, deferSpawn, before) && before <= now && OwnerAgrees(s) && !GrantTakesNothing(s, playerId, e)
    requires OneOfTwoReaped(s, now, shellTicks, graceTicks, playerId, s.world.owner[e.index])
    ensures Contested(GrantOwnership(s, playerId, e), now, shellTicks, graceTicks, j, k, e)
  {
    var s' := GrantOwnership(s, playerId, e);
    var q := s.world.owner[e.index];
    GrantKeepsInv(s, deferSpawn, before, now, playerId, e);
    var (p1, p2) := if PlayerReaped(s, now, shellTicks, graceTicks, playerId) && PlayerSurvives(s, now, shellTicks, graceTicks, q)
                    then (playerId, q) else (q, playerId);
    j :| j in s.sessions && s.sessions[j].playerId == p1 && Expired(s.sessions[j], now, shellTicks, graceTicks);
    k :| k in s.sessions && s.sessions[k].playerId == p2 && !Expired(s.sessions[k], now, shellTicks, graceTicks);
    GrantLists(s, playerId, e, p1, e);
    GrantLists(s, playerId, e, p2, e);
    assert OnList(s, q, e) && q != 0;
    BelongsExactly(s', deferSpawn, now, j, e);
    BelongsExactly(s', deferSpawn, now, k, e);
  }

  // From agreement, a grant followed by any reap spares the survivors exactly unless the
  // grant takes the entity from its owner and, of the two players, the reap takes one and
  // leaves the other.
  lemma GrantThenReapExactly(s: Server, deferSpawn: bool, before: nat, now: nat, playerId: nat, e: EntityId,
                             shellTicks: nat, graceTicks: nat)
    requires Inv(s, deferSpawn, before) && before <= now && OwnerAgrees(s)
    ensures SeenBy(GrantOwnership(s, playerId, e), now)
    ensures SparesSurvivors(GrantOwnership(s, playerId, e), now, shellTicks, graceTicks)
       <==> GrantTakesNothing(s, playerId, e)
            || !OneOfTwoReaped(s, now, shellTicks, graceTicks, playerId, s.world.owner[e.index])
  {
    var s' := GrantOwnership(s, playerId, e);
    GrantKeepsInv(s, deferSpawn, before, now, playerId, e);
    if GrantTakesNothing(s, playerId, e) {
      GrantExactly(s, deferSpawn, before, playerId, e);
      AgreementContestsNothing(s', deferSpawn, now, now, shellTicks, graceTicks);
    } else {
      SparesExactly(s', deferSpawn, now, now, shellTicks, graceTicks);
      if OneOfTwoReaped(s, now, shellTicks, graceTicks, playerId, s.world.owner[e.index]) {
        var j, k := TakenIsContested(s, deferSpawn, before, now, playerId, e, shellTicks, graceTicks);
      } else {
        forall j, k, d
          ensures !Contested(s', now, shellTicks, graceTicks, j, k, d)
        {
          if Contested(s', now, shellTicks, graceTicks, j, k, d) {
            GrantContests(s, deferSpawn, before, now, playerId, e, shellTicks, graceTicks, j, k, d);
          }
        }
      }
    }
  }

  lemma AcceptKeepsAgreement(s: Server, deferSpawn: bool, before: nat, k: nat, se: Session, name: string,
                             source: nat, spawned: EntityId)
    requires Acceptable(s, deferSpawn, before, k, source, spawned) && OwnerAgrees(s)
    ensures OwnerAgrees(Accept(s, k, se, name, source, spawned))
  {
    var s' := Accept(s, k, se, name, source, spawned);
    forall e, p | e in s'.world.live
      ensures Owns(s'.world, p, e) <==> (p in s'.owned && e in s'.owned[p])
    {
      if e in s.world.live {
        assert Owns(s.world, p, e) <==> (p in s.owned && e in s.owned[p]);
        assert e.index != spawned.index;
      } else {
        assert e == spawned;
        assert forall q :: q in s.owned ==> spawned !in s.owned[q];
      }
    }
  }

  lemma ReapKeepsAgreement(s: Server, deferSpawn: bool, before: nat, now: nat, shellTicks: nat, graceTicks: nat)
    requires Inv(s, deferSpawn, before) && before <= now && OwnerAgrees(s)
    ensures OwnerAgrees(Reap(s, now, shellTicks, graceTicks))
  {
    var gone := ExpiredKeys(s, now, shellTicks, graceTicks);
    var s' := Reap(s, now, shellTicks, graceTicks);
    DestroyedOk(s.world, AllBelongings(s, gone));
    forall e, p | e in s'.world.live
      ensures Owns(s'.world, p, e) <==> (p in s'.owned && e in s'.owned[p])
    {
      assert Owns(s.world, p, e) <==> (p in s.owned && e in s.owned[p]);
      ReapSparesTheRest(s, deferSpawn, before, now, shellTicks, graceTicks, e);
      assert forall k :: k in gone && s.sessions[k].playerId != 0 ==> !Owns(s.world, s.sessions[k].playerId, e);
    }
  }

  lemma WorldChangeKeepsAgreement(s: Server, deferSpawn: bool, now: nat, ev: Event)
    requires Inv(s, deferSpawn, now) && OwnerAgrees(s) && Allowed(s, ev)
    requires ev.OtherSpawn? || ev.OtherDestroy?
    ensures OwnerAgrees(Apply(s, deferSpawn, ev, now))
  {
    var s' := Apply(s, deferSpawn, ev, now);
    if ev.OtherDestroy? {
      DestroyedOk(s.world, {ev.entity});
    }
    forall e, p | e in s'.world.live
      ensures Owns(s'.world, p, e) <==> (p in s'.owned && e in s'.owned[p])
    {
      if e in s.world.live {
        assert Owns(s.world, p, e) <==> (p in s.owned && e in s.owned[p]);
        assert ev.OtherDestroy? && ev.entity in s.world.live ==> e.index != ev.entity.index;
      } else {
        assert e == ev.spawned;
        assert forall q :: q in s.owned ==> e !in s.owned[q];
        assert e.index !in s.world.owner;
      }
    }
  }

  lemma HelloKeepsAgreement(s: Server, deferSpawn: bool, before: nat, now: nat, ep: Endpoint, hello: Hello,
                            source: nat, spawned: EntityId)
    requires Inv(s, deferSpawn, before) && before <= now && OwnerAgrees(s)
    requires FreshHandle(s.world, spawned) && FreshSource(s, source)
    ensures OwnerAgrees(OnHello(s, ep, hello, now, deferSpawn, source, spawned).0)
  {
    var key := EndpointKey(ep);
    var se := Lookup(s, key).(endpoint := ep, lastSeenTick := now);
    if hello.versionOk && !se.Live() && !deferSpawn {
      AcceptKeepsAgreement(s, deferSpawn, before, key, se, hello.name, source, spawned);
    } else {
      SameOwnershipAgrees(s, OnHello(s, ep, hello, now, deferSpawn, source, spawned).0);
    }
  }

  lemma LoadKeepsAgreement(s: Server, deferSpawn: bool, before: nat, now: nat, ep: Endpoint, source: nat, spawned: EntityId)
    requires Inv(s, deferSpawn, before) && before <= now && OwnerAgrees(s)
    requires FreshHandle(s.world, spawned) && FreshSource(s, source)
    ensures OwnerAgrees(SpawnLoaded(s, ep, now, source, spawned).0)
  {
    var key := EndpointKey(ep);
    if key in s.sessions && s.sessions[key].loading {
      var se := s.sessions[key].(loading := false, lastSeenTick := now);
      AcceptKeepsAgreement(s, deferSpawn, before, key, se, se.name, source, spawned);
    }
  }

  lemma InputKeepsAgreement(s: Server, ep: Endpoint, token: nat, sequence: nat, ack: nat, now: nat)
    requires OwnerAgrees(s)
    ensures OwnerAgrees(OnInput(s, ep, token, sequence, ack, now).0)
  {
    SameOwnershipAgrees(s, OnInput(s, ep, token, sequence, ack, now).0);
  }

  lemma ReliableKeepsAgreement(s: Server, ep: Endpoint, token: nat, payload: Payload, now: nat)
    requires OwnerAgrees(s) && SeenBy(s, now)
    ensures OwnerAgrees(OnReliable(s, ep, token, payload, now))
  {
    SameOwnershipAgrees(s, OnReliable(s, ep, token, payload, now));
  }

  // Every step keeps the agreement, given that grants take nothing.
  lemma StepKeepsAgreement(s: Server, deferSpawn: bool, before: nat, now: nat, ev: Event)
    requires Inv(s, deferSpawn, before) && before <= now && Allowed(s, ev) && OwnerAgrees(s)
    requires ev.Grant? ==> GrantTakesNothing(s, ev.playerId, ev.entity)
    ensures OwnerAgrees(Apply(s, deferSpawn, ev, now))
  {
    match ev
    case ClientHello(ep, hello, source, spawned) =>
      HelloKeepsAgreement(s, deferSpawn, before, now, ep, hello, source, spawned);
    case LoadDone(ep, source, spawned) => LoadKeepsAgreement(s, deferSpawn, before, now, ep, source, spawned);
    case ReapAll(shellTicks, graceTicks) => ReapKeepsAgreement(s, deferSpawn, before, now, shellTicks, graceTicks);
    case Grant(playerId, e) => GrantExactly(s, deferSpawn, before, playerId, e);
    case OtherSpawn(_) => WorldChangeKeepsAgreement(s, deferSpawn, before, ev);
    case OtherDestroy(_) => WorldChangeKeepsAgreement(s, deferSpawn, before, ev);
    case Input(ep, token, sequence, ack) => InputKeepsAgreement(s, ep, token, sequence, ack, now);
    case Reliable(ep, token, payload) => ReliableKeepsAgreement(s, ep, token, payload, now);
  }

  lemma SameOwnershipAgrees(s: Server, s': Server)
    requires OwnerAgrees(s) && s'.world == s.world && s'.owned == s.owned
    ensures OwnerAgrees(s')
  {
  }

  lemma {:induction false} RunKeepsAgreement(states: seq<Server>, events: seq<Timed>, deferSpawn: bool, i: nat)
    requires IsRun(states, events, deferSpawn) && i <= |events|
    requires forall j :: 0 <= j < |events| && events[j].ev.Grant? ==>
               GrantTakesNothing(states[j], events[j].ev.playerId, events[j].ev.entity)
    ensures OwnerAgrees(states[i])
  {
    if i > 0 {
      RunKeepsAgreement(states, events, deferSpawn, i - 1);
      var s, s', ev, before, now := RunAt(states, events, deferSpawn, i - 1);
      StepKeepsAgreement(s, deferSpawn, before, now, ev);
    }
  }

  // ---------------------------------------------------------------------------
  // Mixing the two hello modes
  // ---------------------------------------------------------------------------

  // A server that has parked a session must not be sent a non-deferred hello for it: the
  // invariant survives a hello exactly when this does not happen.
  lemma MixedModesExactly(s: Server, before: nat, now: nat, ep: Endpoint, hello: Hello, deferSpawn: bool,
                          source: nat, spawned: EntityId)
    requires Inv(s, true, before) && before <= now
    requires FreshHandle(s.world, spawned) && FreshSource(s, source)
    ensures Inv(OnHello(s, ep, hello, now, deferSpawn, source, spawned).0, true, now)
            <==> (deferSpawn || !hello.versionOk || !Lookup(s, EndpointKey(ep)).loading)
  {
    var key := EndpointKey(ep);
    var se := Lookup(s, key).(endpoint := ep, lastSeenTick := now);
    var s' := OnHello(s, ep, hello, now, deferSpawn, source, spawned).0;
    if deferSpawn || !hello.versionOk || se.Live() {
      HelloKeepsInv(s, true, before, now, ep, hello, source, spawned);
      assert s' == OnHello(s, ep, hello, now, true, source, spawned).0;
    } else if !se.loading {
      AcceptKeepsInv(s, true, before, now, key, se, hello.name, source, spawned);
    } else {
      assert s'.sessions[key].loading && s'.sessions[key].Live();
      assert !IdentityOk(s'.sessions[key], true, s'.nextPlayerId);
    }
  }

  // What goes wrong then: the load that completes afterwards spawns a second ship under a
  // second player id, and the first token stays in the index with no session behind it.
  lemma MixedModesBreakTheIndex(ep: Endpoint, first: EntityId, second: EntityId)
    requires first != second
    ensures var key := EndpointKey(ep);
            var parked := OnHello(EmptyServer, ep, Hello(true, ""), 1, true, 0, first).0;
            var doubled := OnHello(parked, ep, Hello(true, ""), 1, false, 0, first).0;
            var broken := SpawnLoaded(doubled, ep, 1, 0, second).0;
            && key in broken.sessions
            && (exists t :: t in broken.byToken && broken.byToken[t] == key && broken.sessions[key].token != t)
            && first in OwnedBy(broken, 1) && broken.sessions[key].playerId == 2
  {
    var key := EndpointKey(ep);
    var parked := OnHello(EmptyServer, ep, Hello(true, ""), 1, true, 0, first).0;
    var doubled := OnHello(parked, ep, Hello(true, ""), 1, false, 0, first).0;
    assert parked.sessions[key].loading && !parked.sessions[key].Live();
    assert NextToken(0, 0) == (DEFAULT_TOKEN_BASE + 1, 1) && NextToken(1, 0) == (DEFAULT_TOKEN_BASE + 2, 2);
    assert doubled == Accept(parked, key, Lookup(parked, key).(endpoint := ep, lastSeenTick := 1), "", 0, first);
    assert doubled.sessions[key].loading && doubled.tokenCounter == 1 && doubled.nextPlayerId == 2;
    assert doubled.owned[1] == [first] && DEFAULT_TOKEN_BASE + 1 in doubled.byToken;
    var broken := SpawnLoaded(doubled, ep, 1, 0, second).0;
    assert DEFAULT_TOKEN_BASE + 1 in broken.byToken && broken.byToken[DEFAULT_TOKEN_BASE + 1] == key;
    assert broken.sessions[key].token == DEFAULT_TOKEN_BASE + 2;
  }

  // ---------------------------------------------------------------------------
  // A survivor's ship destroyed
  // ---------------------------------------------------------------------------

  const SHIP := EntityId(0, 0)
  const OTHER_SHIP := EntityId(1, 0)

  lemma FirstPlayer(a: Endpoint) returns (s: Server)
    ensures var ev := ClientHello(a, Hello(true, ""), 0, SHIP);
            SeenBy(EmptyServer, 1) && Allowed(EmptyServer, ev) && s == Apply(EmptyServer, false, ev, 1)
    ensures s.sessions.Keys == {EndpointKey(a)} && s.rate == map[] && s.nextPlayerId == 2 && s.tokenCounter == 1
    ensures var se := s.sessions[EndpointKey(a)];
            se.entity == Some(SHIP) && se.playerId == 1 && se.lastSeenTick == 1
    ensures s.world.issued == {SHIP} == s.world.live && OwnedBy(s, 1) == [SHIP] && s.owned.Keys == {1}
  {
    s := Apply(EmptyServer, false, ClientHello(a, Hello(true, ""), 0, SHIP), 1);
  }

  lemma SecondPlayer(a: Endpoint, b: Endpoint, s: Server) returns (s': Server)
    requires EndpointKey(a) != EndpointKey(b)
    requires s.sessions.Keys == {EndpointKey(a)} && s.rate == map[] && s.nextPlayerId == 2 && s.tokenCounter == 1
    requires s.sessions[EndpointKey(a)].lastSeenTick == 1 && s.sessions[EndpointKey(a)].playerId == 1
    requires s.world.issued == {SHIP} == s.world.live && OwnedBy(s, 1) == [SHIP] && s.owned.Keys == {1}
    ensures var ev := ClientHello(b, Hello(true, ""), 0, OTHER_SHIP);
            SeenBy(s, 9) && Allowed(s, ev) && s' == Apply(s, false, ev, 9)
    ensures s'.sessions.Keys == {EndpointKey(a), EndpointKey(b)} && s'.rate == map[]
    ensures var (pa, pb) := (s'.sessions[EndpointKey(a)], s'.sessions[EndpointKey(b)]);
            && pa == s.sessions[EndpointKey(a)]
            && pb.entity == Some(OTHER_SHIP) && pb.playerId == 2 && pb.lastSeenTick == 9
    ensures SHIP in s'.world.live && OwnedBy(s', 1) == [SHIP]
  {
    s' := Apply(s, false, ClientHello(b, Hello(true, ""), 0, OTHER_SHIP), 9);
  }

  // The ship is granted to the second player, and the first one is reaped.
  lemma GrantedAndReaped(a: nat, b: nat, s: Server) returns (granted: Server, reaped: Server)
    requires a != b && s.sessions.Keys == {a, b} && s.rate == map[] && SHIP in s.world.live && OwnedBy(s, 1) == [SHIP]
    requires s.sessions[a].Live() && s.sessions[a].playerId == 1 && s.sessions[a].lastSeenTick == 1
    requires s.sessions[b].Live() && s.sessions[b].playerId == 2 && s.sessions[b].lastSeenTick == 9
    ensures granted == GrantOwnership(s, 2, SHIP) && SeenBy(s, 10) && SeenBy(granted, 10) && reaped == Reap(granted, 10, 5, 5)
    ensures granted.sessions == s.sessions && b in reaped.sessions && reaped.sessions[b] == s.sessions[b]
    ensures SHIP in OwnedBy(granted, 2) && SHIP in OwnedBy(reaped, 2)
    ensures SHIP in granted.world.live && SHIP !in reaped.world.live
  {
    granted := GrantOwnership(s, 2, SHIP);
    reaped := Reap(granted, 10, 5, 5);
    var gone := ExpiredKeys(granted, 10, 5, 5);
    assert a in gone && b !in gone;
    assert OwnedBy(granted, 1) == [SHIP] && SHIP in OwnedBy(granted, 2);
    assert SHIP in Belongings(granted, granted.sessions[a]);
    assert SHIP in AllBelongings(granted, gone);
  }

  // A run in which one player is granted another's ship and keeps playing, and the reap of
  // the other takes it from him.
  lemma ReapTakesFromSurvivor(a: Endpoint, b: Endpoint) returns (states: seq<Server>, events: seq<Timed>)
    requires a != b
    ensures IsRun(states, events, false) && |events| == 4 && events[3] == At(10, ReapAll(5, 5))
    ensures var (was, now, k) := (states[3], states[4], EndpointKey(b));
            && k in was.sessions && k in now.sessions && now.sessions[k] == was.sessions[k] && was.sessions[k].playerId == 2
            && SHIP in OwnedBy(was, 2) && SHIP in OwnedBy(now, 2)
            && SHIP in was.world.live && SHIP !in now.world.live
  {
    if EndpointKey(a) == EndpointKey(b) {
      EndpointKeyInjective(a, b);
    }
    EmptyRun(false);
    states, events := [EmptyServer], [];
    var s1 := FirstPlayer(a);
    states, events := RunOn(states, events, false, ClientHello(a, Hello(true, ""), 0, SHIP), 1);
    var s2 := SecondPlayer(a, b, s1);
    states, events := RunOn(states, events, false, ClientHello(b, Hello(true, ""), 0, OTHER_SHIP), 9);
    var s3, s4 := GrantedAndReaped(EndpointKey(a), EndpointKey(b), s2);
    states, events := RunOn(states, events, false, Grant(2, SHIP), 10);
    states, events := RunOn(states, events, false, ReapAll(5, 5), 10);
  }
}
