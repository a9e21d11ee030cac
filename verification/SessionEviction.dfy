// The server with and without the eviction of rate records.
module SessionEviction {
  import opened Ecs
  import opened RateLimiter
  import opened SessionModel
  import opened SessionInvariant

  // A server whose reaper keeps every rate record.
  ghost function ApplyKeeping(s: Server, deferSpawn: bool, ev: Event, tick: nat): Server
    requires SeenBy(s, tick)
  {
    if ev.ReapAll? then Reap(s, tick, ev.shellTicks, ev.graceTicks).(rate := s.rate) else Apply(s, deferSpawn, ev, tick)
  }

  ghost predicate KeepsAt(states: seq<Server>, events: seq<Timed>, deferSpawn: bool, i: nat)
    requires i < |events| < |states|
  {
    && SeenBy(states[i], events[i].tick) && Allowed(states[i], events[i].ev)
    && states[i + 1] == ApplyKeeping(states[i], deferSpawn, events[i].ev, events[i].tick)
  }

  // A run of such a server.
  ghost predicate IsKeepingRun(states: seq<Server>, events: seq<Timed>, deferSpawn: bool) {
    |states| == |events| + 1 && states[0] == EmptyServer && forall i: nat :: i < |events| ==> KeepsAt(states, events, deferSpawn, i)
  }

  // Two servers that differ in their rate records only, and there only by what no verdict
  // from `now` on can tell.
  ghost predicate Alike(s: Server, kept: Server, now: nat) {
    && kept == s.(rate := kept.rate)
    && forall key: nat :: RecordsAlike(s, kept, key, now)
  }

  ghost predicate RecordsAlike(s: Server, kept: Server, key: nat, now: nat) {
    && RateEntry(s.rate, key).Info().windowStart <= now && RateEntry(kept.rate, key).Info().windowStart <= now
    && Agree(RateEntry(kept.rate, key).Info(), RateEntry(s.rate, key), now)
  }

  lemma StartAlike()
    ensures Alike(EmptyServer, EmptyServer, 0)
  {
  }

  lemma RecordLater(s: Server, kept: Server, key: nat, now: nat, later: nat)
    requires RecordsAlike(s, kept, key, now) && now <= later
    ensures RecordsAlike(s, kept, key, later)
  {
  }

  // Both servers charge a datagram alike.
  lemma ChargedAlike(s: Server, kept: Server, key: nat, before: nat, now: nat)
    requires RecordsAlike(s, kept, key, before) && before <= now
    ensures RateLimited(s, key, now).1 == RateLimited(kept, key, now).1
    ensures RecordsAlike(RateLimited(s, key, now).0, RateLimited(kept, key, now).0, key, now)
  {
    AgreeStep(RateEntry(kept.rate, key).Info(), RateEntry(s.rate, key), Datagram(now), before);
  }

  lemma SweptAlike(s: Server, kept: Server, shellTicks: nat, graceTicks: nat, key: nat, before: nat, now: nat)
    requires SeenBy(s, now) && RecordsAlike(s, kept, key, before) && before <= now && shellTicks >= RATE_WINDOW_TICKS - 1
    ensures RecordsAlike(Reap(s, now, shellTicks, graceTicks), kept, key, now)
  {
    AgreeStep(RateEntry(kept.rate, key).Info(), RateEntry(s.rate, key), SweepAt(now, shellTicks), before);
  }

  lemma ReapRateBlind(s: Server, kept: Server, now: nat, shellTicks: nat, graceTicks: nat)
    requires SeenBy(s, now) && SeenBy(kept, now) && kept == s.(rate := kept.rate)
    ensures Reap(kept, now, shellTicks, graceTicks).(rate := s.rate) == Reap(s, now, shellTicks, graceTicks).(rate := s.rate)
  {
    var (gone, also) := (ExpiredKeys(s, now, shellTicks, graceTicks), ExpiredKeys(kept, now, shellTicks, graceTicks));
    assert gone == also;
    forall k | k in gone
      ensures Belongings(kept, kept.sessions[k]) == Belongings(s, s.sessions[k])
    {
      assert OwnedBy(kept, s.sessions[k].playerId) == OwnedBy(s, s.sessions[k].playerId);
    }
    assert AllBelongings(kept, gone) == AllBelongings(s, gone);
  }

  lemma ReapAlike(s: Server, kept: Server, shellTicks: nat, graceTicks: nat, before: nat, now: nat)
    requires SeenBy(s, now) && SeenBy(kept, now) && Alike(s, kept, before) && before <= now && shellTicks >= RATE_WINDOW_TICKS - 1
    ensures Alike(Reap(s, now, shellTicks, graceTicks), Reap(kept, now, shellTicks, graceTicks).(rate := kept.rate), now)
  {
    var (r, k) := (Reap(s, now, shellTicks, graceTicks), Reap(kept, now, shellTicks, graceTicks).(rate := kept.rate));
    ReapRateBlind(s, kept, now, shellTicks, graceTicks);
    forall key: nat
      ensures RecordsAlike(r, k, key, now)
    {
      assert RecordsAlike(s, kept, key, before);
      SweptAlike(s, kept, shellTicks, graceTicks, key, before, now);
    }
  }

  // What the datagram does to the sessions depends on the verdict alone.
  lemma TokenlessRateBlind(s: Server, kept: Server, ep: Endpoint, payload: Payload, now: nat)
    requires SeenBy(s, now) && SeenBy(kept, now) && kept == s.(rate := kept.rate)
    requires RateLimited(s, EndpointKey(ep), now).1 == RateLimited(kept, EndpointKey(ep), now).1
    ensures var (r, k) := (OnReliable(s, ep, 0, payload, now), OnReliable(kept, ep, 0, payload, now));
            && k == r.(rate := k.rate)
            && r.rate == RateLimited(s, EndpointKey(ep), now).0.rate && k.rate == RateLimited(kept, EndpointKey(ep), now).0.rate
  {
  }

  lemma OtherRecordAlike(s: Server, kept: Server, key: nat, other: nat, before: nat, now: nat)
    requires RecordsAlike(s, kept, key, before) && RecordsAlike(s, kept, other, before) && before <= now && other != key
    ensures RecordsAlike(RateLimited(s, key, now).0, RateLimited(kept, key, now).0, other, now)
  {
    RecordLater(s, kept, other, before, now);
  }

  lemma TokenlessAlike(s: Server, kept: Server, ep: Endpoint, payload: Payload, before: nat, now: nat)
    requires SeenBy(s, now) && SeenBy(kept, now) && Alike(s, kept, before) && before <= now
    ensures Alike(OnReliable(s, ep, 0, payload, now), OnReliable(kept, ep, 0, payload, now), now)
  {
    var key := EndpointKey(ep);
    assert RecordsAlike(s, kept, key, before);
    ChargedAlike(s, kept, key, before, now);
    TokenlessRateBlind(s, kept, ep, payload, now);
    forall other: nat
      ensures RecordsAlike(OnReliable(s, ep, 0, payload, now), OnReliable(kept, ep, 0, payload, now), other, now)
    {
      if other != key {
        assert RecordsAlike(s, kept, other, before);
        OtherRecordAlike(s, kept, key, other, before, now);
      }
    }
  }

  // Every other event neither reads nor writes the records.
  lemma OthersAlike(s: Server, kept: Server, deferSpawn: bool, ev: Event, before: nat, now: nat)
    requires SeenBy(s, now) && SeenBy(kept, now) && Alike(s, kept, before) && before <= now
    requires !ev.ReapAll? && !(ev.Reliable? && ev.token == 0)
    ensures Alike(Apply(s, deferSpawn, ev, now), Apply(kept, deferSpawn, ev, now), now)
  {
    RateBlind(s, deferSpawn, ev, now, kept.rate);
    forall key: nat
      ensures RecordsAlike(Apply(s, deferSpawn, ev, now), Apply(kept, deferSpawn, ev, now), key, now)
    {
      assert RecordsAlike(s, kept, key, before);
      RecordLater(s, kept, key, before, now);
    }
  }

  lemma RateBlind(s: Server, deferSpawn: bool, ev: Event, now: nat, rate: map<nat, RateInfo>)
    requires SeenBy(s, now) && SeenBy(s.(rate := rate), now) && !ev.ReapAll? && !(ev.Reliable? && ev.token == 0)
    ensures Apply(s, deferSpawn, ev, now).rate == s.rate
    ensures Apply(s.(rate := rate), deferSpawn, ev, now) == Apply(s, deferSpawn, ev, now).(rate := rate)
  {
    match ev
    case Input(ep, token, sequence, ack) => InputRateBlind(s, ep, token, sequence, ack, now, rate);
    case Reliable(ep, token, payload) => ReliableRateBlind(s, ep, token, payload, now, rate);
    case ClientHello(ep, hello, source, spawned) => HelloRateBlind(s, ep, hello, now, deferSpawn, source, spawned, rate);
    case LoadDone(ep, source, spawned) =>
    case Grant(playerId, e) =>
    case OtherSpawn(spawned) =>
    case OtherDestroy(e) =>
  }

  lemma InputRateBlind(s: Server, ep: Endpoint, token: nat, sequence: nat, ack: nat, now: nat, rate: map<nat, RateInfo>)
    ensures OnInput(s, ep, token, sequence, ack, now).0.rate == s.rate
    ensures OnInput(s.(rate := rate), ep, token, sequence, ack, now).0 == OnInput(s, ep, token, sequence, ack, now).0.(rate := rate)
  {
  }

  lemma AuthenticateRateBlind(s: Server, ep: Endpoint, token: nat, now: nat, rate: map<nat, RateInfo>)
    returns (a: Server, b: Server)
    ensures a == Authenticate(s, ep, token, now).0 && b == Authenticate(s.(rate := rate), ep, token, now).0
    ensures a.rate == s.rate && b == a.(rate := rate)
    ensures Authenticate(s.(rate := rate), ep, token, now).1 == Authenticate(s, ep, token, now).1
  {
    a, b := Authenticate(s, ep, token, now).0, Authenticate(s.(rate := rate), ep, token, now).0;
  }

  lemma ReliableRateBlind(s: Server, ep: Endpoint, token: nat, payload: Payload, now: nat, rate: map<nat, RateInfo>)
    requires SeenBy(s, now) && SeenBy(s.(rate := rate), now) && token != 0
    ensures OnReliable(s, ep, token, payload, now).rate == s.rate
    ensures OnReliable(s.(rate := rate), ep, token, payload, now) == OnReliable(s, ep, token, payload, now).(rate := rate)
  {
    var a, b := AuthenticateRateBlind(s, ep, token, now, rate);
  }

  lemma HelloRateBlind(s: Server, ep: Endpoint, hello: Hello, now: nat, deferSpawn: bool, source: nat, spawned: EntityId,
                       rate: map<nat, RateInfo>)
    ensures OnHello(s, ep, hello, now, deferSpawn, source, spawned).0.rate == s.rate
    ensures OnHello(s.(rate := rate), ep, hello, now, deferSpawn, source, spawned).0
         == OnHello(s, ep, hello, now, deferSpawn, source, spawned).0.(rate := rate)
  {
  }

  lemma KeptSeen(s: Server, kept: Server, before: nat, now: nat)
    requires SeenBy(s, now) && Alike(s, kept, before) && before <= now
    ensures SeenBy(kept, now)
  {
    forall key | key in kept.rate
      ensures kept.rate[key].windowStart <= now
    {
      assert RecordsAlike(s, kept, key, before);
    }
  }

  lemma StepAlike(s: Server, kept: Server, deferSpawn: bool, ev: Event, before: nat, now: nat)
    requires SeenBy(s, now) && Alike(s, kept, before) && before <= now
    requires ev.ReapAll? ==> ev.shellTicks >= RATE_WINDOW_TICKS - 1
    ensures SeenBy(kept, now) && Alike(Apply(s, deferSpawn, ev, now), ApplyKeeping(kept, deferSpawn, ev, now), now)
  {
    KeptSeen(s, kept, before, now);
    if ev.ReapAll? {
      ReapAlike(s, kept, ev.shellTicks, ev.graceTicks, before, now);
    } else if ev.Reliable? && ev.token == 0 {
      TokenlessAlike(s, kept, ev.ep, ev.payload, before, now);
    } else {
      OthersAlike(s, kept, deferSpawn, ev, before, now);
    }
  }

  lemma RunStepAlike(states: seq<Server>, events: seq<Timed>, deferSpawn: bool, i: nat, kept: Server) returns (next: Server)
    requires IsRun(states, events, deferSpawn) && i < |events| && Alike(states[i], kept, TickAfter(events, i))
    requires events[i].ev.ReapAll? ==> events[i].ev.shellTicks >= RATE_WINDOW_TICKS - 1
    ensures SeenBy(kept, events[i].tick) && next == ApplyKeeping(kept, deferSpawn, events[i].ev, events[i].tick)
    ensures Allowed(kept, events[i].ev) && Alike(states[i + 1], next, TickAfter(events, i + 1))
  {
    var s, s', ev, before, now := RunAt(states, events, deferSpawn, i);
    StepAlike(s, kept, deferSpawn, ev, before, now);
    next := ApplyKeeping(kept, deferSpawn, ev, now);
  }

  ghost predicate SweepsLong(events: seq<Timed>) {
    forall i :: 0 <= i < |events| && events[i].ev.ReapAll? ==> events[i].ev.shellTicks >= RATE_WINDOW_TICKS - 1
  }

  ghost predicate AlikeAt(states: seq<Server>, events: seq<Timed>, kept: seq<Server>, i: nat)
    requires i < |kept| <= |states| && |states| == |events| + 1
  {
    Alike(states[i], kept[i], TickAfter(events, i))
  }

  ghost predicate StepsKeeping(s: Server, s': Server, deferSpawn: bool, e: Timed) {
    SeenBy(s, e.tick) && Allowed(s, e.ev) && s' == ApplyKeeping(s, deferSpawn, e.ev, e.tick)
  }

  ghost predicate StepsAt(events: seq<Timed>, kept: seq<Server>, deferSpawn: bool, i: nat)
    requires i + 1 < |kept| <= |events| + 1
  {
    StepsKeeping(kept[i], kept[i + 1], deferSpawn, events[i])
  }

  // The keeping server's run so far.
  ghost predicate KeptSoFar(states: seq<Server>, events: seq<Timed>, deferSpawn: bool, kept: seq<Server>) {
    && 0 < |kept| <= |states| && |states| == |events| + 1 && kept[0] == EmptyServer
    && (forall i: nat :: i < |kept| ==> AlikeAt(states, events, kept, i))
    && (forall i: nat :: i + 1 < |kept| ==> StepsAt(events, kept, deferSpawn, i))
  }

  lemma KeptMore(states: seq<Server>, events: seq<Timed>, deferSpawn: bool, kept: seq<Server>, next: Server)
    requires KeptSoFar(states, events, deferSpawn, kept) && |kept| < |states|
    requires StepsKeeping(kept[|kept| - 1], next, deferSpawn, events[|kept| - 1])
    requires Alike(states[|kept|], next, TickAfter(events, |kept|))
    ensures KeptSoFar(states, events, deferSpawn, kept + [next])
  {
    var more := kept + [next];
    forall i: nat | i < |more|
      ensures AlikeAt(states, events, more, i)
    {
      if i < |kept| {
        assert AlikeAt(states, events, kept, i);
      }
    }
    forall i: nat | i + 1 < |more|
      ensures StepsAt(events, more, deferSpawn, i)
    {
      if i + 1 < |kept| {
        assert StepsAt(events, kept, deferSpawn, i);
      }
    }
  }

  lemma {:induction false} KeepingRun(states: seq<Server>, events: seq<Timed>, deferSpawn: bool, n: nat) returns (kept: seq<Server>)
    requires IsRun(states, events, deferSpawn) && n <= |events| && SweepsLong(events)
    ensures KeptSoFar(states, events, deferSpawn, kept) && |kept| == n + 1
    decreases n
  {
    if n == 0 {
      StartAlike();
      kept := [EmptyServer];
    } else {
      kept := KeepingRun(states, events, deferSpawn, n - 1);
      assert AlikeAt(states, events, kept, n - 1);
      var next := RunStepAlike(states, events, deferSpawn, n - 1, kept[n - 1]);
      KeptMore(states, events, deferSpawn, kept, next);
      kept := kept + [next];
    }
  }

  // As long as every sweep's timeout is at least 29 ticks, a server that never drops a rate
  // record goes through the same events with the same sessions, tokens, owners, entities and
  // counters after every one of them.
  lemma EvictionUnseen(states: seq<Server>, events: seq<Timed>, deferSpawn: bool) returns (kept: seq<Server>)
    requires IsRun(states, events, deferSpawn) && SweepsLong(events)
    ensures IsKeepingRun(kept, events, deferSpawn)
    ensures forall i: nat :: i < |states| ==> kept[i] == states[i].(rate := kept[i].rate)
  {
    kept := KeepingRun(states, events, deferSpawn, |events|);
    forall i: nat | i < |events|
      ensures KeepsAt(kept, events, deferSpawn, i)
    {
      assert StepsAt(events, kept, deferSpawn, i);
    }
    forall i: nat | i < |states|
      ensures kept[i] == states[i].(rate := kept[i].rate)
    {
      assert AlikeAt(states, events, kept, i);
    }
  }
}
