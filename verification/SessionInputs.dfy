// The inputs a run accepts, as a log, and what each session's counters say about it.
module SessionInputs {
  import opened Ecs
  import opened SessionModel
  import opened SessionInvariant

  datatype AcceptedInput = AcceptedInput(playerId: nat, tick: nat, sequence: nat, ack: nat)

  // The entry one event adds: an input for which OnInput returned the session's entity.
  ghost function Logged(s: Server, ev: Event, tick: nat): seq<AcceptedInput> {
    if ev.Input? && OnInput(s, ev.ep, ev.token, ev.sequence, ev.ack, tick).1.Some?
       && ev.token in s.byToken && s.byToken[ev.token] in s.sessions
    then [AcceptedInput(s.sessions[s.byToken[ev.token]].playerId, tick, ev.sequence, ev.ack)]
    else []
  }

  ghost function Log(states: seq<Server>, events: seq<Timed>, n: nat): seq<AcceptedInput>
    requires n <= |events| && n < |states|
  {
    if n == 0 then [] else Log(states, events, n - 1) + Logged(states[n - 1], events[n - 1].ev, events[n - 1].tick)
  }

  ghost function CountAt(log: seq<AcceptedInput>, p: nat, t: nat): nat {
    if log == [] then 0
    else
      var e := log[|log| - 1];
      CountAt(log[..|log| - 1], p, t) + (if e.playerId == p && e.tick == t then 1 else 0)
  }

  lemma CountAppend(log: seq<AcceptedInput>, e: AcceptedInput, p: nat, t: nat)
    ensures CountAt(log + [e], p, t) == CountAt(log, p, t) + (if e.playerId == p && e.tick == t then 1 else 0)
  {
    assert (log + [e])[..|log|] == log;
  }

  lemma {:induction false} CountNone(log: seq<AcceptedInput>, p: nat, t: nat)
    requires forall i :: 0 <= i < |log| ==> log[i].playerId != p || log[i].tick != t
    ensures CountAt(log, p, t) == 0
  {
    if log != [] {
      CountNone(log[..|log| - 1], p, t);
    }
  }

  // `sequence` is the highest sequence player p had accepted, and `ack` the ack of the
  // first input that carried it; both are zero before a positive sequence arrives.
  ghost predicate LatestIs(log: seq<AcceptedInput>, p: nat, sequence: nat, ack: nat) {
    && (forall i :: 0 <= i < |log| && log[i].playerId == p ==> log[i].sequence <= sequence)
    && (if sequence == 0 then ack == 0
        else exists i :: 0 <= i < |log| && FirstWith(log, p, i, sequence, ack))
  }

  ghost predicate FirstWith(log: seq<AcceptedInput>, p: nat, i: nat, sequence: nat, ack: nat)
    requires i < |log|
  {
    && log[i].playerId == p && log[i].sequence == sequence && log[i].ack == ack
    && forall j :: 0 <= j < i && log[j].playerId == p ==> log[j].sequence < sequence
  }

  ghost predicate CountersMatch(se: Session, log: seq<AcceptedInput>, now: nat) {
    && se.inputWindowTick <= now
    && CountAt(log, se.playerId, se.inputWindowTick) == se.inputsThisWindow <= MAX_INPUTS_PER_TICK
    && (forall i :: 0 <= i < |log| && log[i].playerId == se.playerId ==> log[i].tick <= se.inputWindowTick)
    && LatestIs(log, se.playerId, se.lastInputSeq, se.ackedSnapshotTick)
  }

  ghost predicate NoInputYet(se: Session) {
    se.lastInputSeq == 0 && se.ackedSnapshotTick == 0 && se.inputWindowTick == 0 && se.inputsThisWindow == 0
  }

  ghost predicate LogOk(s: Server, log: seq<AcceptedInput>, now: nat) {
    && (forall i :: 0 <= i < |log| ==> log[i].playerId < s.nextPlayerId)
    && (forall p, t :: CountAt(log, p, t) <= MAX_INPUTS_PER_TICK)
    && (forall k :: k in s.sessions && s.sessions[k].Live() ==> CountersMatch(s.sessions[k], log, now))
    && (forall k :: k in s.sessions && !s.sessions[k].Live() ==> NoInputYet(s.sessions[k]))
  }

  // ---------------------------------------------------------------------------
  // Steps that accept no input
  // ---------------------------------------------------------------------------

  ghost predicate SameInputs(se: Session, se': Session) {
    && se'.Live() == se.Live() && se'.playerId == se.playerId
    && se'.lastInputSeq == se.lastInputSeq && se'.ackedSnapshotTick == se.ackedSnapshotTick
    && se'.inputWindowTick == se.inputWindowTick && se'.inputsThisWindow == se.inputsThisWindow
  }

  // Every session afterwards is one from before, a session nobody has used yet, or one
  // just accepted under the next player id.
  ghost predicate Carried(s: Server, se': Session) {
    || (exists j :: j in s.sessions && SameInputs(s.sessions[j], se'))
    || (NoInputYet(se') && (se'.Live() ==> se'.playerId == s.nextPlayerId))
  }

  lemma CarriedKeepsLog(s: Server, s': Server, log: seq<AcceptedInput>, before: nat, now: nat)
    requires LogOk(s, log, before) && before <= now
    requires s.nextPlayerId <= s'.nextPlayerId
    requires forall k :: k in s'.sessions ==> Carried(s, s'.sessions[k])
    ensures LogOk(s', log, now)
  {
    forall k | k in s'.sessions && s'.sessions[k].Live()
      ensures CountersMatch(s'.sessions[k], log, now)
    {
      var se := s'.sessions[k];
      if j :| j in s.sessions && SameInputs(s.sessions[j], se) {
        assert CountersMatch(s.sessions[j], log, before);
      } else {
        CountNone(log, se.playerId, 0);
      }
    }
  }

  lemma AuthenticateCarries(s: Server, deferSpawn: bool, before: nat, now: nat, ep: Endpoint, token: nat)
    requires Inv(s, deferSpawn, before) && before <= now
    ensures forall k :: k in Authenticate(s, ep, token, now).0.sessions ==>
              Carried(s, Authenticate(s, ep, token, now).0.sessions[k])
  {
    var a := Authenticate(s, ep, token, now).0;
    forall k | k in a.sessions
      ensures Carried(s, a.sessions[k])
    {
      if k in s.sessions {
        assert SameInputs(s.sessions[k], a.sessions[k]);
      } else {
        assert SameInputs(s.sessions[s.byToken[token]], a.sessions[k]);
      }
    }
  }

  lemma TokenlessCarries(s: Server, now: nat, ep: Endpoint, payload: Payload, k: nat)
    requires SeenBy(s, now) && k in OnReliable(s, ep, 0, payload, now).sessions
    ensures Carried(s, OnReliable(s, ep, 0, payload, now).sessions[k])
  {
    if k in s.sessions {
      assert SameInputs(s.sessions[k], OnReliable(s, ep, 0, payload, now).sessions[k]);
    }
  }

  lemma TokenedCarries(s: Server, a: Server, now: nat, ep: Endpoint, token: nat, payload: Payload, k: nat)
    requires SeenBy(s, now) && token != 0 && a == Authenticate(s, ep, token, now).0
    requires forall j :: j in a.sessions ==> Carried(s, a.sessions[j])
    requires k in OnReliable(s, ep, token, payload, now).sessions
    ensures Carried(s, OnReliable(s, ep, token, payload, now).sessions[k])
  {
    assert SameInputs(a.sessions[k], OnReliable(s, ep, token, payload, now).sessions[k]);
    assert Carried(s, a.sessions[k]);
  }

  lemma ReliableCarries(s: Server, deferSpawn: bool, before: nat, now: nat, ep: Endpoint, token: nat, payload: Payload, k: nat)
    requires Inv(s, deferSpawn, before) && before <= now
    requires k in OnReliable(s, ep, token, payload, now).sessions
    ensures Carried(s, OnReliable(s, ep, token, payload, now).sessions[k])
  {
    if token == 0 {
      TokenlessCarries(s, now, ep, payload, k);
    } else {
      AuthenticateCarries(s, deferSpawn, before, now, ep, token);
      TokenedCarries(s, Authenticate(s, ep, token, now).0, now, ep, token, payload, k);
    }
  }

  lemma HelloCarries(s: Server, deferSpawn: bool, before: nat, now: nat, log: seq<AcceptedInput>, ep: Endpoint, hello: Hello,
                     source: nat, spawned: EntityId, k: nat)
    requires Inv(s, deferSpawn, before) && before <= now && LogOk(s, log, before)
    requires k in OnHello(s, ep, hello, now, deferSpawn, source, spawned).0.sessions
    ensures Carried(s, OnHello(s, ep, hello, now, deferSpawn, source, spawned).0.sessions[k])
  {
    var se' := OnHello(s, ep, hello, now, deferSpawn, source, spawned).0.sessions[k];
    if k in s.sessions && (k != EndpointKey(ep) || se'.Live() == s.sessions[k].Live()) {
      assert SameInputs(s.sessions[k], se');
    }
  }

  lemma LoadCarries(s: Server, deferSpawn: bool, before: nat, now: nat, log: seq<AcceptedInput>, ep: Endpoint,
                    source: nat, spawned: EntityId, k: nat)
    requires Inv(s, deferSpawn, before) && before <= now && LogOk(s, log, before)
    requires k in SpawnLoaded(s, ep, now, source, spawned).0.sessions
    ensures Carried(s, SpawnLoaded(s, ep, now, source, spawned).0.sessions[k])
  {
    var se' := SpawnLoaded(s, ep, now, source, spawned).0.sessions[k];
    if se'.Live() == s.sessions[k].Live() {
      assert SameInputs(s.sessions[k], se');
    }
  }

  lemma RestCarries(s: Server, deferSpawn: bool, now: nat, ev: Event, k: nat)
    requires ev.ReapAll? || ev.Grant? || ev.OtherSpawn? || ev.OtherDestroy?
    requires SeenBy(s, now) && k in Apply(s, deferSpawn, ev, now).sessions
    ensures Carried(s, Apply(s, deferSpawn, ev, now).sessions[k])
  {
    assert SameInputs(s.sessions[k], Apply(s, deferSpawn, ev, now).sessions[k]);
  }

  lemma QuietCarries(s: Server, deferSpawn: bool, before: nat, now: nat, ev: Event, log: seq<AcceptedInput>, k: nat)
    requires Inv(s, deferSpawn, before) && before <= now && LogOk(s, log, before)
    requires !ev.Input? && SeenBy(s, now) && k in Apply(s, deferSpawn, ev, now).sessions
    ensures Carried(s, Apply(s, deferSpawn, ev, now).sessions[k])
  {
    match ev
    case Reliable(ep, token, payload) => ReliableCarries(s, deferSpawn, before, now, ep, token, payload, k);
    case ClientHello(ep, hello, source, spawned) => HelloCarries(s, deferSpawn, before, now, log, ep, hello, source, spawned, k);
    case LoadDone(ep, source, spawned) => LoadCarries(s, deferSpawn, before, now, log, ep, source, spawned, k);
    case _ => RestCarries(s, deferSpawn, now, ev, k);
  }

  lemma PlayerIdsGrow(s: Server, deferSpawn: bool, now: nat, ev: Event)
    requires SeenBy(s, now) && !ev.Input?
    ensures s.nextPlayerId <= Apply(s, deferSpawn, ev, now).nextPlayerId
  {
    match ev
    case Reliable(ep, token, payload) => assert OnReliable(s, ep, token, payload, now).nextPlayerId == s.nextPlayerId;
    case _ =>
  }

  lemma QuietStep(s: Server, deferSpawn: bool, before: nat, now: nat, ev: Event, log: seq<AcceptedInput>)
    requires Inv(s, deferSpawn, before) && before <= now && LogOk(s, log, before)
    requires !ev.Input? && SeenBy(s, now)
    ensures LogOk(Apply(s, deferSpawn, ev, now), log, now)
  {
    var s' := Apply(s, deferSpawn, ev, now);
    forall k | k in s'.sessions
      ensures Carried(s, s'.sessions[k])
    {
      QuietCarries(s, deferSpawn, before, now, ev, log, k);
    }
    PlayerIdsGrow(s, deferSpawn, now, ev);
    CarriedKeepsLog(s, s', log, before, now);
  }

  // ---------------------------------------------------------------------------
  // The input step
  // ---------------------------------------------------------------------------

  lemma LatestAppend(log: seq<AcceptedInput>, p: nat, sequence: nat, ack: nat, e: AcceptedInput)
    requires LatestIs(log, p, sequence, ack) && e.playerId == p
    ensures if e.sequence > sequence then LatestIs(log + [e], p, e.sequence, e.ack)
            else LatestIs(log + [e], p, sequence, ack)
  {
    var log' := log + [e];
    if e.sequence > sequence {
      assert FirstWith(log', p, |log|, e.sequence, e.ack);
    } else if sequence > 0 {
      var i :| 0 <= i < |log| && FirstWith(log, p, i, sequence, ack);
      assert FirstWith(log', p, i, sequence, ack);
    }
  }

  lemma OthersUnmoved(log: seq<AcceptedInput>, se: Session, e: AcceptedInput, now: nat)
    requires CountersMatch(se, log, now) && e.playerId != se.playerId
    ensures CountersMatch(se, log + [e], now)
  {
    CountAppend(log, e, se.playerId, se.inputWindowTick);
    if se.lastInputSeq > 0 {
      var i :| 0 <= i < |log| && FirstWith(log, se.playerId, i, se.lastInputSeq, se.ackedSnapshotTick);
      assert FirstWith(log + [e], se.playerId, i, se.lastInputSeq, se.ackedSnapshotTick);
    }
  }

  // The session with the window of this tick open.
  lemma WindowOpens(se: Session, log: seq<AcceptedInput>, before: nat, now: nat) returns (w: Session)
    requires CountersMatch(se, log, before) && before <= now
    ensures w == (if now != se.inputWindowTick then se.(inputWindowTick := now, inputsThisWindow := 0) else se)
    ensures CountersMatch(w, log, now)
  {
    w := se;
    if now != se.inputWindowTick {
      w := se.(inputWindowTick := now, inputsThisWindow := 0);
      CountNone(log, se.playerId, now);
    }
  }

  // One input applied to one session.
  lemma ApplyInputMatches(se: Session, log: seq<AcceptedInput>, before: nat, now: nat, sequence: nat, ack: nat)
    requires CountersMatch(se, log, before) && before <= now
    ensures var (se', ok) := ApplyInput(se, sequence, ack, now);
            var e := AcceptedInput(se.playerId, now, sequence, ack);
            && CountersMatch(se', if ok then log + [e] else log, now)
            && (ok ==> CountAt(log, se.playerId, now) < MAX_INPUTS_PER_TICK)
  {
    var w := WindowOpens(se, log, before, now);
    if w.inputsThisWindow < MAX_INPUTS_PER_TICK {
      var c := InputCounted(w, log, now, sequence, ack);
    }
  }

  lemma InputCounted(w: Session, log: seq<AcceptedInput>, now: nat, sequence: nat, ack: nat) returns (c: Session)
    requires CountersMatch(w, log, now) && w.inputWindowTick == now && w.inputsThisWindow < MAX_INPUTS_PER_TICK
    ensures var counted := w.(inputsThisWindow := w.inputsThisWindow + 1);
            c == if sequence > w.lastInputSeq then counted.(lastInputSeq := sequence, ackedSnapshotTick := ack) else counted
    ensures CountersMatch(c, log + [AcceptedInput(w.playerId, now, sequence, ack)], now)
    ensures CountAt(log, w.playerId, now) < MAX_INPUTS_PER_TICK
  {
    var e := AcceptedInput(w.playerId, now, sequence, ack);
    CountAppend(log, e, w.playerId, now);
    LatestAppend(log, w.playerId, w.lastInputSeq, w.ackedSnapshotTick, e);
    c := w.(inputsThisWindow := w.inputsThisWindow + 1);
    if sequence > w.lastInputSeq {
      c := c.(lastInputSeq := sequence, ackedSnapshotTick := ack);
    }
  }

  // An input event in terms of the authenticated state: at most one session is touched, and
  // the log entry is that session's.
  lemma InputUnfolds(s: Server, deferSpawn: bool, before: nat, now: nat, ev: Event)
    returns (a: Server, s': Server, touched: Option<nat>, entry: seq<AcceptedInput>)
    requires Inv(s, deferSpawn, before) && before <= now && ev.Input? && SeenBy(s, now)
    ensures a == Authenticate(s, ev.ep, ev.token, now).0 && s' == Apply(s, deferSpawn, ev, now) && entry == Logged(s, ev, now)
    ensures a.nextPlayerId == s.nextPlayerId
    ensures touched.None? ==> s' == a && entry == []
    ensures touched.Some? ==>
              && touched.value in a.sessions && a.sessions[touched.value].Live()
              && var was := a.sessions[touched.value];
                 var (se, ok) := ApplyInput(was, ev.sequence, ev.ack, now);
                 && s' == a.(sessions := a.sessions[touched.value := se])
                 && entry == if ok then [AcceptedInput(was.playerId, now, ev.sequence, ev.ack)] else []
  {
    a, s', entry := Authenticate(s, ev.ep, ev.token, now).0, Apply(s, deferSpawn, ev, now), Logged(s, ev, now);
    var key := Authenticate(s, ev.ep, ev.token, now).1;
    touched := if key.Some? && key.value in a.sessions && ValidEntity(a, a.sessions[key.value].entity) then key else None;
  }

  // Authentication leaves the log's account of every session as it is.
  lemma Authenticated(s: Server, deferSpawn: bool, before: nat, now: nat, ep: Endpoint, token: nat, log: seq<AcceptedInput>)
    requires Inv(s, deferSpawn, before) && before <= now && LogOk(s, log, before)
    ensures var a := Authenticate(s, ep, token, now).0;
            && LogOk(a, log, now) && PlayerIdsDistinct(a)
            && forall k :: k in a.sessions && a.sessions[k].Live() ==> 0 < a.sessions[k].playerId < a.nextPlayerId
  {
    var a := Authenticate(s, ep, token, now).0;
    AuthenticateKeepsInv(s, deferSpawn, before, now, ep, token);
    AuthenticateCarries(s, deferSpawn, before, now, ep, token);
    CarriedKeepsLog(s, a, log, before, now);
    LivePlayers(a, deferSpawn, now);
  }

  lemma LivePlayers(s: Server, deferSpawn: bool, now: nat)
    requires Inv(s, deferSpawn, now)
    ensures PlayerIdsDistinct(s)
    ensures forall k :: k in s.sessions && s.sessions[k].Live() ==> 0 < s.sessions[k].playerId < s.nextPlayerId
  {
    forall k | k in s.sessions && s.sessions[k].Live()
      ensures 0 < s.sessions[k].playerId < s.nextPlayerId
    {
      assert IdentityOk(s.sessions[k], deferSpawn, s.nextPlayerId);
    }
  }

  lemma InputStep(s: Server, deferSpawn: bool, before: nat, now: nat, ev: Event, log: seq<AcceptedInput>)
    requires Inv(s, deferSpawn, before) && before <= now && LogOk(s, log, before) && ev.Input?
    requires SeenBy(s, now)
    ensures LogOk(Apply(s, deferSpawn, ev, now), log + Logged(s, ev, now), now)
  {
    Authenticated(s, deferSpawn, before, now, ev.ep, ev.token, log);
    var a, s', touched, entry := InputUnfolds(s, deferSpawn, before, now, ev);
    assert log + [] == log;
    if touched.Some? {
      InputAfterAuthentication(a, now, touched.value, ev.sequence, ev.ack, log);
    }
  }

  lemma OneMoreInput(s: Server, log: seq<AcceptedInput>, e: AcceptedInput, now: nat, key: nat)
    requires LogOk(s, log, now) && CountAt(log, e.playerId, e.tick) < MAX_INPUTS_PER_TICK
    requires key in s.sessions && s.sessions[key].playerId == e.playerId
    requires forall k :: k in s.sessions && k != key && s.sessions[k].Live() ==> s.sessions[k].playerId != e.playerId
    ensures forall p, t :: CountAt(log + [e], p, t) <= MAX_INPUTS_PER_TICK
    ensures forall k :: k in s.sessions && k != key && s.sessions[k].Live() ==> CountersMatch(s.sessions[k], log + [e], now)
  {
    forall p, t
      ensures CountAt(log + [e], p, t) <= MAX_INPUTS_PER_TICK
    {
      CountAppend(log, e, p, t);
    }
    forall k | k in s.sessions && k != key && s.sessions[k].Live()
      ensures CountersMatch(s.sessions[k], log + [e], now)
    {
      OthersUnmoved(log, s.sessions[k], e, now);
    }
  }

  lemma PutCounted(a: Server, key: nat, se: Session, log: seq<AcceptedInput>, now: nat)
    requires key in a.sessions && se.Live() && CountersMatch(se, log, now)
    requires forall i :: 0 <= i < |log| ==> log[i].playerId < a.nextPlayerId
    requires forall p, t :: CountAt(log, p, t) <= MAX_INPUTS_PER_TICK
    requires forall k :: k in a.sessions && k != key && a.sessions[k].Live() ==> CountersMatch(a.sessions[k], log, now)
    requires forall k :: k in a.sessions && !a.sessions[k].Live() ==> NoInputYet(a.sessions[k])
    ensures LogOk(a.(sessions := a.sessions[key := se]), log, now)
  {
  }

  lemma InputAfterAuthentication(a: Server, now: nat, key: nat, sequence: nat, ack: nat, log: seq<AcceptedInput>)
    requires LogOk(a, log, now) && PlayerIdsDistinct(a)
    requires key in a.sessions && a.sessions[key].Live()
    requires 0 < a.sessions[key].playerId < a.nextPlayerId
    ensures var (se, ok) := ApplyInput(a.sessions[key], sequence, ack, now);
            var e := AcceptedInput(a.sessions[key].playerId, now, sequence, ack);
            LogOk(a.(sessions := a.sessions[key := se]), if ok then log + [e] else log, now)
  {
    var was := a.sessions[key];
    var (se, ok) := ApplyInput(was, sequence, ack, now);
    ApplyInputMatches(was, log, now, now, sequence, ack);
    var log' := log;
    if ok {
      var e := AcceptedInput(was.playerId, now, sequence, ack);
      OneMoreInput(a, log, e, now, key);
      log' := log + [e];
    }
    PutCounted(a, key, se, log', now);
  }

  // ---------------------------------------------------------------------------
  // Every run
  // ---------------------------------------------------------------------------

  lemma LogStep(s: Server, deferSpawn: bool, before: nat, now: nat, ev: Event, log: seq<AcceptedInput>)
    requires Inv(s, deferSpawn, before) && before <= now && LogOk(s, log, before) && SeenBy(s, now)
    ensures LogOk(Apply(s, deferSpawn, ev, now), log + Logged(s, ev, now), now)
  {
    if ev.Input? {
      InputStep(s, deferSpawn, before, now, ev, log);
    } else {
      QuietStep(s, deferSpawn, before, now, ev, log);
      assert log + Logged(s, ev, now) == log;
    }
  }

  lemma RunLogStep(states: seq<Server>, events: seq<Timed>, deferSpawn: bool, i: nat, log: seq<AcceptedInput>)
    returns (log': seq<AcceptedInput>)
    requires IsRun(states, events, deferSpawn) && i < |events| && LogOk(states[i], log, TickAfter(events, i))
    ensures log' == log + Logged(states[i], events[i].ev, events[i].tick)
    ensures LogOk(states[i + 1], log', TickAfter(events, i + 1))
  {
    var s, s', ev, before, now := RunAt(states, events, deferSpawn, i);
    LogStep(s, deferSpawn, before, now, ev, log);
    log' := log + Logged(s, ev, now);
  }

  lemma {:induction false} RunLogOk(states: seq<Server>, events: seq<Timed>, deferSpawn: bool, n: nat)
    returns (log: seq<AcceptedInput>)
    requires IsRun(states, events, deferSpawn) && n <= |events|
    ensures log == Log(states, events, n) && LogOk(states[n], log, TickAfter(events, n))
    decreases n
  {
    log := [];
    if n > 0 {
      var was := RunLogOk(states, events, deferSpawn, n - 1);
      log := RunLogStep(states, events, deferSpawn, n - 1, was);
    }
  }

  // At most eight inputs of one player are accepted in one tick, across rebinds.
  lemma InputCap(states: seq<Server>, events: seq<Timed>, deferSpawn: bool, n: nat, p: nat, t: nat)
    requires IsRun(states, events, deferSpawn) && n <= |events|
    ensures CountAt(Log(states, events, n), p, t) <= 8
  {
    var log := RunLogOk(states, events, deferSpawn, n);
  }

  // A live session's sequence is the highest one accepted from its player, and its ack the
  // one that input carried.
  lemma AckOfHighestSequence(states: seq<Server>, events: seq<Timed>, deferSpawn: bool, n: nat, k: nat)
    requires IsRun(states, events, deferSpawn) && n <= |events|
    requires k in states[n].sessions && states[n].sessions[k].Live()
    ensures var se := states[n].sessions[k];
            LatestIs(Log(states, events, n), se.playerId, se.lastInputSeq, se.ackedSnapshotTick)
  {
    var log := RunLogOk(states, events, deferSpawn, n);
  }

  lemma {:induction false} LogGrows(states: seq<Server>, events: seq<Timed>, m: nat, n: nat)
    returns (log: seq<AcceptedInput>, longer: seq<AcceptedInput>)
    requires m <= n <= |events| && n < |states|
    ensures log == Log(states, events, m) && longer == Log(states, events, n) && log <= longer
  {
    if m == n {
      log := Log(states, events, m);
      longer := log;
    } else {
      log, longer := LogGrows(states, events, m, n - 1);
      longer := longer + Logged(states[n - 1], events[n - 1].ev, events[n - 1].tick);
    }
  }

  // The stored sequence never falls, wherever the player's session sits meanwhile.
  lemma SequenceNeverFalls(states: seq<Server>, events: seq<Timed>, deferSpawn: bool, m: nat, n: nat, j: nat, k: nat)
    requires IsRun(states, events, deferSpawn) && m <= n <= |events|
    requires j in states[m].sessions && states[m].sessions[j].Live()
    requires k in states[n].sessions && states[n].sessions[k].Live()
    requires states[m].sessions[j].playerId == states[n].sessions[k].playerId
    ensures states[m].sessions[j].lastInputSeq <= states[n].sessions[k].lastInputSeq
  {
    AckOfHighestSequence(states, events, deferSpawn, m, j);
    AckOfHighestSequence(states, events, deferSpawn, n, k);
    var log, longer := LogGrows(states, events, m, n);
    var (p, sequence, ack) := (states[m].sessions[j].playerId, states[m].sessions[j].lastInputSeq,
                               states[m].sessions[j].ackedSnapshotTick);
    if sequence > 0 {
      var i :| 0 <= i < |log| && FirstWith(log, p, i, sequence, ack);
      assert Log(states, events, n)[i] == log[i];
    }
  }

  // ---------------------------------------------------------------------------
  // Sequence zero
  // ---------------------------------------------------------------------------

  predicate OnlyZeros(log: seq<AcceptedInput>, p: nat) {
    forall i :: 0 <= i < |log| && log[i].playerId == p ==> log[i].sequence == 0
  }

  // A session whose accepted inputs all carry sequence 0 never stores an ack.
  lemma ZeroSequencesNeverAck(states: seq<Server>, events: seq<Timed>, deferSpawn: bool, n: nat, k: nat)
    requires IsRun(states, events, deferSpawn) && n <= |events|
    requires k in states[n].sessions && states[n].sessions[k].Live()
    requires OnlyZeros(Log(states, events, n), states[n].sessions[k].playerId)
    ensures states[n].sessions[k].lastInputSeq == 0 && states[n].sessions[k].ackedSnapshotTick == 0
  {
    AckOfHighestSequence(states, events, deferSpawn, n, k);
    var se := states[n].sessions[k];
    ZerosAreLatest(Log(states, events, n), se.playerId, se.lastInputSeq, se.ackedSnapshotTick);
  }

  lemma ZerosAreLatest(log: seq<AcceptedInput>, p: nat, sequence: nat, ack: nat)
    requires LatestIs(log, p, sequence, ack) && OnlyZeros(log, p)
    ensures sequence == 0 && ack == 0
  {
  }

  const SHIP := EntityId(0, 0)

  lemma OnePlayer(a: Endpoint) returns (s: Server)
    ensures s == Apply(EmptyServer, false, ClientHello(a, Hello(true, ""), 0, SHIP), 1)
    ensures s.sessions.Keys == {EndpointKey(a)} && s.rate == map[] && SHIP in s.world.live
    ensures var se := s.sessions[EndpointKey(a)];
            && se.entity == Some(SHIP) && se.playerId == 1 && se.lastSeenTick == 1 && NoInputYet(se)
            && se.token == DEFAULT_TOKEN_BASE + 1
    ensures DEFAULT_TOKEN_BASE + 1 in s.byToken && s.byToken[DEFAULT_TOKEN_BASE + 1] == EndpointKey(a)
  {
    s := Apply(EmptyServer, false, ClientHello(a, Hello(true, ""), 0, SHIP), 1);
  }

  // Such a session: an input is accepted, its ack is not kept.
  lemma ZeroSequenceIsLost(a: Endpoint, ack: nat) returns (states: seq<Server>, events: seq<Timed>)
    ensures IsRun(states, events, false) && |events| == 2
    ensures Log(states, events, 2) == [AcceptedInput(1, 1, 0, ack)]
    ensures EndpointKey(a) in states[2].sessions && states[2].sessions[EndpointKey(a)].playerId == 1
    ensures states[2].sessions[EndpointKey(a)].ackedSnapshotTick == 0
  {
    var hello := ClientHello(a, Hello(true, ""), 0, SHIP);
    var input := Input(a, DEFAULT_TOKEN_BASE + 1, 0, ack);
    EmptyRun(false);
    var s := OnePlayer(a);
    states, events := RunOn([EmptyServer], [], false, hello, 1);
    assert states[1] == s;
    states, events := RunOn(states, events, false, input, 1);
    InputTaken(s, a, ack);
    assert Log(states, events, 0) == [] && Log(states, events, 1) == [];
  }

  lemma InputTaken(s: Server, a: Endpoint, ack: nat)
    requires s.sessions.Keys == {EndpointKey(a)} && SHIP in s.world.live
    requires var se := s.sessions[EndpointKey(a)]; se.entity == Some(SHIP) && se.playerId == 1 && NoInputYet(se)
    requires DEFAULT_TOKEN_BASE + 1 in s.byToken && s.byToken[DEFAULT_TOKEN_BASE + 1] == EndpointKey(a)
    ensures Logged(s, Input(a, DEFAULT_TOKEN_BASE + 1, 0, ack), 1) == [AcceptedInput(1, 1, 0, ack)]
    ensures var r := OnInput(s, a, DEFAULT_TOKEN_BASE + 1, 0, ack, 1).0;
            EndpointKey(a) in r.sessions && r.sessions[EndpointKey(a)].playerId == 1
            && r.sessions[EndpointKey(a)].ackedSnapshotTick == 0
  {
  }
}
