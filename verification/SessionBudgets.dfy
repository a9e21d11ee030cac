// The server's rate table, endpoint by endpoint: each entry evolves exactly as the
// single-budget runs of RateLimiter, so their bounds hold of the server.
module SessionBudgets {
  import opened RateLimiter
  import opened WindowLimiter
  import opened SessionModel
  import opened SessionInvariant

  // What one event means for the budget at `key`.
  function Budget(ev: Event, tick: nat, key: nat): seq<BudgetEvent> {
    match ev
    case Reliable(ep, token, _) => if token == 0 && EndpointKey(ep) == key then [Datagram(tick)] else []
    case ReapAll(shellTicks, _) => [SweepAt(tick, shellTicks)]
    case _ => []
  }

  ghost function Budgets(events: seq<Timed>, key: nat): seq<BudgetEvent> {
    if events == [] then []
    else
      var last := |events| - 1;
      Budgets(events[..last], key) + Budget(events[last].ev, events[last].tick, key)
  }

  ghost predicate OrderedUpTo(es: seq<BudgetEvent>, now: nat) {
    Ordered(es) && forall i :: 0 <= i < |es| ==> es[i].tick <= now
  }

  lemma OrderedOn(es: seq<BudgetEvent>, b: seq<BudgetEvent>, before: nat, now: nat)
    requires OrderedUpTo(es, before) && before <= now && |b| <= 1 && forall i :: 0 <= i < |b| ==> b[i].tick == now
    ensures OrderedUpTo(es + b, now)
  {
  }

  lemma {:induction false} BudgetsOrdered(events: seq<Timed>, key: nat)
    requires InOrder(events)
    ensures OrderedUpTo(Budgets(events, key), TickAfter(events, |events|))
  {
    if events != [] {
      var last := |events| - 1;
      var rest := events[..last];
      BudgetsOrdered(rest, key);
      OrderedOn(Budgets(rest, key), Budget(events[last].ev, events[last].tick, key), TickAfter(rest, last), events[last].tick);
    }
  }

  lemma PrefixOrdered(events: seq<Timed>, n: nat, key: nat)
    requires InOrder(events) && n <= |events|
    ensures OrderedUpTo(Budgets(events[..n], key), TickAfter(events, n))
  {
    BudgetsOrdered(events[..n], key);
  }

  lemma BudgetStep(s: Server, deferSpawn: bool, ev: Event, now: nat, key: nat)
    requires SeenBy(s, now)
    ensures var e := RateEntry(s.rate, key);
            var e' := RateEntry(Apply(s, deferSpawn, ev, now).rate, key);
            var b := Budget(ev, now, key);
            e' == if b == [] then e else StepEntry(e, b[0]).0
  {
    match ev
    case Reliable(ep, token, payload) => ReliableBudget(s, ep, token, payload, now, key);
    case ReapAll(_, _) =>
    case _ =>
  }

  lemma ReliableBudget(s: Server, ep: Endpoint, token: nat, payload: Payload, now: nat, key: nat)
    requires SeenBy(s, now)
    ensures RateEntry(OnReliable(s, ep, token, payload, now).rate, key)
         == if token == 0 && EndpointKey(ep) == key then StepEntry(RateEntry(s.rate, key), Datagram(now)).0
            else RateEntry(s.rate, key)
  {
  }

  lemma BudgetsSnoc(events: seq<Timed>, n: nat, key: nat)
    requires 0 < n <= |events|
    ensures Budgets(events[..n], key) == Budgets(events[..n - 1], key) + Budget(events[n - 1].ev, events[n - 1].tick, key)
  {
    assert events[..n][..n - 1] == events[..n - 1];
  }

  // At most one more budget event.
  lemma StepEntries(es: seq<BudgetEvent>, b: seq<BudgetEvent>)
    requires |b| <= 1 && Ordered(es + b)
    ensures Ordered(es)
    ensures Run(es + b, true).entry == if b == [] then Run(es, true).entry else StepEntry(Run(es, true).entry, b[0]).0
  {
    assert forall i :: 0 <= i < |es| ==> (es + b)[i] == es[i];
    if b == [] {
      assert es + b == es;
    } else {
      assert b == [b[0]];
      RunSnoc(es, b[0], true);
    }
  }

  lemma EntryNext(s: Server, deferSpawn: bool, ev: Event, now: nat, key: nat, es: seq<BudgetEvent>)
    requires SeenBy(s, now) && Allowed(s, ev) && Ordered(es) && Ordered(es + Budget(ev, now, key))
    requires RateEntry(s.rate, key) == Run(es, true).entry
    ensures RateEntry(Apply(s, deferSpawn, ev, now).rate, key) == Run(es + Budget(ev, now, key), true).entry
  {
    BudgetStep(s, deferSpawn, ev, now, key);
    StepEntries(es, Budget(ev, now, key));
  }

  lemma EntryStep(states: seq<Server>, events: seq<Timed>, deferSpawn: bool, n: nat, key: nat)
    requires IsRun(states, events, deferSpawn) && 0 < n <= |events|
    requires Ordered(Budgets(events[..n - 1], key)) && Ordered(Budgets(events[..n], key))
    requires RateEntry(states[n - 1].rate, key) == Run(Budgets(events[..n - 1], key), true).entry
    ensures RateEntry(states[n].rate, key) == Run(Budgets(events[..n], key), true).entry
  {
    var s, s', ev, before, now := RunAt(states, events, deferSpawn, n - 1);
    BudgetsSnoc(events, n, key);
    EntryNext(s, deferSpawn, ev, now, key, Budgets(events[..n - 1], key));
  }

  // After any run, the entry of an endpoint is the one its own datagrams and the sweeps
  // alone produce.
  lemma {:induction false} EntryIsRun(states: seq<Server>, events: seq<Timed>, deferSpawn: bool, n: nat, key: nat)
    requires IsRun(states, events, deferSpawn) && n <= |events|
    ensures Ordered(Budgets(events[..n], key))
    ensures RateEntry(states[n].rate, key) == Run(Budgets(events[..n], key), true).entry
  {
    PrefixOrdered(events, n, key);
    if n > 0 {
      EntryIsRun(states, events, deferSpawn, n - 1, key);
      EntryStep(states, events, deferSpawn, n, key);
    }
  }

  // With sweeps of at least 29 ticks (the server uses 300), any 30 consecutive ticks of
  // any run let at most 240 token-less datagrams of one endpoint past the limiter.
  lemma ServerBudgetBound(states: seq<Server>, events: seq<Timed>, deferSpawn: bool, key: nat, from: nat)
    requires IsRun(states, events, deferSpawn)
    requires forall i :: 0 <= i < |events| && events[i].ev.ReapAll? ==> events[i].ev.shellTicks >= RATE_WINDOW_TICKS - 1
    ensures Ordered(Budgets(events, key))
    ensures Admitted(Run(Budgets(events, key), true).admitted, from, from + RATE_WINDOW_TICKS) <= 240
  {
    BudgetsOrdered(events, key);
    SweepsLongEnough(events, key);
    UnauthBound(Budgets(events, key), from);
  }

  lemma {:induction false} SweepsLongEnough(events: seq<Timed>, key: nat)
    requires forall i :: 0 <= i < |events| && events[i].ev.ReapAll? ==> events[i].ev.shellTicks >= RATE_WINDOW_TICKS - 1
    ensures SweepsAtLeast(Budgets(events, key), RATE_WINDOW_TICKS - 1)
  {
    if events != [] {
      SweepsLongEnough(events[..|events| - 1], key);
    }
  }

  // The verdict on the next token-less datagram is the run's next verdict.
  lemma NextVerdict(states: seq<Server>, events: seq<Timed>, deferSpawn: bool, n: nat, ep: Endpoint, tick: nat)
    requires IsRun(states, events, deferSpawn) && n <= |events| && TickAfter(events, n) <= tick
    ensures var key := EndpointKey(ep);
            var es := Budgets(events[..n], key) + [Datagram(tick)];
            && Ordered(es) && RateEntry(states[n].rate, key).Info().windowStart <= tick
            && Run(es, true).verdicts == Run(Budgets(events[..n], key), true).verdicts + [RateLimited(states[n], key, tick).1]
  {
    var key := EndpointKey(ep);
    EntryIsRun(states, events, deferSpawn, n, key);
    PrefixOrdered(events, n, key);
    RunKeepsInv(states, events, deferSpawn, n);
    var es := Budgets(events[..n], key);
    assert Ordered(es + [Datagram(tick)]);
    RunSnoc(es, Datagram(tick), true);
    var e := RateEntry(states[n].rate, key);
    assert StepEntry(e, Datagram(tick)).1 == [RateLimited(states[n], key, tick).1];
  }

  // ---------------------------------------------------------------------------
  // Muted endpoints
  // ---------------------------------------------------------------------------

  // Event m is the datagram that trips the cap of the endpoint with this key.
  ghost predicate Trips(states: seq<Server>, events: seq<Timed>, m: nat, key: nat)
    requires m < |events| < |states|
  {
    var e := RateEntry(states[m].rate, key).Info();
    && Budget(events[m].ev, events[m].tick, key) == [Datagram(events[m].tick)]
    && e.windowStart <= events[m].tick && e.mutedUntil <= events[m].tick && Charge(e, events[m].tick).1
  }

  ghost function MutedRecord(states: seq<Server>, events: seq<Timed>, m: nat, key: nat): RateInfo
    requires m < |events| < |states| && Trips(states, events, m, key)
  {
    Charge(RateEntry(states[m].rate, key).Info(), events[m].tick).0
  }

  // One event of the mute, a sweep included, leaves the record as it is.
  lemma MuteStays(e: Entry, trip: nat, ev: BudgetEvent)
    requires e.Info().windowStart <= trip && e.Info().mutedUntil <= trip && Charge(e.Info(), trip).1
    requires trip <= ev.tick < trip + RATE_MUTE_TICKS
    ensures var muted := Charge(e.Info(), trip).0;
            muted.windowStart <= ev.tick && StepEntry(Present(muted), ev).0 == Present(muted)
            && (ev.Datagram? ==> Charge(muted, ev.tick) == (muted, true))
  {
    MuteHolds(e, trip, [ev]);
    var muted := Present(Charge(e.Info(), trip).0);
    assert [ev][..0] == [];
    assert Continue(muted, trip, []).0 == muted;
    assert Continue(muted, trip, [ev]).0 == StepEntry(muted, ev).0;
  }

  lemma {:induction false} MutedMeanwhile(states: seq<Server>, events: seq<Timed>, deferSpawn: bool, m: nat, n: nat, key: nat)
    requires IsRun(states, events, deferSpawn) && m < n <= |events| && Trips(states, events, m, key)
    requires events[n - 1].tick < events[m].tick + RATE_MUTE_TICKS
    ensures RateEntry(states[n].rate, key) == Present(MutedRecord(states, events, m, key))
    decreases n
  {
    var s, s', ev, before, now := RunAt(states, events, deferSpawn, n - 1);
    BudgetStep(s, deferSpawn, ev, now, key);
    if m < n - 1 {
      MutedMeanwhile(states, events, deferSpawn, m, n - 1, key);
      if Budget(ev, now, key) != [] {
        MuteStays(RateEntry(states[m].rate, key), events[m].tick, Budget(ev, now, key)[0]);
      }
    }
  }

  // From the datagram that trips the cap on, every token-less datagram of that endpoint in
  // the next 300 ticks leaves the whole server as it is, whatever else happens meanwhile.
  lemma MutedEndpointIsIgnored(states: seq<Server>, events: seq<Timed>, deferSpawn: bool, m: nat, n: nat, ep: Endpoint)
    requires IsRun(states, events, deferSpawn) && m < n < |events| && Trips(states, events, m, EndpointKey(ep))
    requires events[n].tick < events[m].tick + RATE_MUTE_TICKS
    requires events[n].ev.Reliable? && events[n].ev.ep == ep && events[n].ev.token == 0
    ensures states[n + 1] == states[n]
  {
    var key := EndpointKey(ep);
    MutedMeanwhile(states, events, deferSpawn, m, n, key);
    MuteStays(RateEntry(states[m].rate, key), events[m].tick, Datagram(events[n].tick));
    var s, s', ev, before, now := RunAt(states, events, deferSpawn, n);
    assert RateLimited(s, key, now) == (s.(rate := s.rate[key := s.rate[key]]), true);
    assert s.rate[key := s.rate[key]] == s.rate;
  }
}
