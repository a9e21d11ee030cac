// The per-endpoint budget of ServerSessions.h for token-less datagrams, and the sweep
// in Reap that drops stale budgets.
module RateLimiter {
  import opened WindowLimiter

  const RATE_WINDOW_TICKS: nat := 30
  const RATE_MAX_UNAUTH: nat := 120
  const RATE_MUTE_TICKS: nat := 300

  datatype RateInfo = RateInfo(windowStart: nat, count: nat, mutedUntil: nat)

  // What m_rate[key] creates for an unseen endpoint.
  const NewRate := RateInfo(0, 0, 0)

  datatype Entry = Absent | Present(info: RateInfo) {
    function Info(): RateInfo {
      if Present? then info else NewRate
    }
  }

  // RateLimited: the record after one datagram, and whether the datagram is dropped.
  function Charge(ri: RateInfo, tick: nat): (RateInfo, bool)
    requires ri.windowStart <= tick
  {
    if tick < ri.mutedUntil then (ri, true)
    else
      var open := if tick - ri.windowStart >= RATE_WINDOW_TICKS then ri.(windowStart := tick, count := 0) else ri;
      var charged := open.(count := open.count + 1);
      if charged.count > RATE_MAX_UNAUTH
      then (charged.(mutedUntil := tick + RATE_MUTE_TICKS), true)
      else (charged, false)
  }

  // The condition under which Reap erases a record.
  predicate Stale(ri: RateInfo, tick: nat, shellTicks: nat)
    requires ri.windowStart <= tick
  {
    tick >= ri.mutedUntil && tick - ri.windowStart > shellTicks
  }

  function Sweep(e: Entry, tick: nat, shellTicks: nat): Entry
    requires e.Info().windowStart <= tick
  {
    if e.Present? && Stale(e.info, tick, shellTicks) then Absent else e
  }

  // ---------------------------------------------------------------------------
  // Runs of one endpoint's budget
  // ---------------------------------------------------------------------------

  datatype BudgetEvent = Datagram(tick: nat) | SweepAt(tick: nat, shellTicks: nat)

  ghost predicate Ordered(es: seq<BudgetEvent>) {
    forall i, j :: 0 <= i <= j < |es| ==> es[i].tick <= es[j].tick
  }

  ghost predicate SweepsAtLeast(es: seq<BudgetEvent>, shellTicks: nat) {
    forall i :: 0 <= i < |es| && es[i].SweepAt? ==> es[i].shellTicks >= shellTicks
  }

  datatype Trace = Trace(entry: Entry, verdicts: seq<bool>, admitted: seq<nat>)

  function StepEntry(e: Entry, ev: BudgetEvent): (r: (Entry, seq<bool>))
    requires e.Info().windowStart <= ev.tick
    ensures r.0.Info().windowStart <= ev.tick
  {
    match ev
    case Datagram(t) => var (ri, drop) := Charge(e.Info(), t); (Present(ri), [drop])
    case SweepAt(t, shell) => (Sweep(e, t, shell), [])
  }

  // The table as the server keeps it; `evict` false is the table that never forgets.
  function Run(es: seq<BudgetEvent>, evict: bool): (r: Trace)
    requires Ordered(es)
    ensures r.entry.Info().windowStart <= (if es == [] then 0 else es[|es| - 1].tick)
  {
    if es == [] then Trace(Absent, [], [])
    else
      var last := |es| - 1;
      var before := Run(es[..last], evict);
      if es[last].SweepAt? && !evict then before
      else
        var (e, v) := StepEntry(before.entry, es[last]);
        Trace(e, before.verdicts + v,
              if v == [false] then before.admitted + [es[last].tick] else before.admitted)
  }

  // ---------------------------------------------------------------------------
  // Eviction is invisible
  // ---------------------------------------------------------------------------

  // The kept record, compared with the evicting table's entry at time `now`: they differ
  // at most in an expired mute, or the entry is gone and the kept record would open a new
  // window anyway.
  ghost predicate Agree(kept: RateInfo, e: Entry, now: nat) {
    || (&& kept.windowStart == e.Info().windowStart && kept.count == e.Info().count
        && (kept.mutedUntil == e.Info().mutedUntil || (kept.mutedUntil <= now && e.Info().mutedUntil <= now)))
    || (e.Absent? && kept.mutedUntil <= now && kept.windowStart + RATE_WINDOW_TICKS <= now)
  }

  lemma AgreeStep(kept: RateInfo, e: Entry, ev: BudgetEvent, now: nat)
    requires Agree(kept, e, now) && now <= ev.tick
    requires kept.windowStart <= now && e.Info().windowStart <= now
    requires ev.SweepAt? ==> ev.shellTicks >= RATE_WINDOW_TICKS - 1
    ensures var (e', v) := StepEntry(e, ev);
            match ev
            case Datagram(t) => Agree(Charge(kept, t).0, e', t) && v == [Charge(kept, t).1]
            case SweepAt(t, _) => Agree(kept, e', t) && v == []
  {
  }

  lemma {:induction false} RunsAgree(es: seq<BudgetEvent>)
    requires Ordered(es) && SweepsAtLeast(es, RATE_WINDOW_TICKS - 1)
    ensures Run(es, true).verdicts == Run(es, false).verdicts
    ensures Run(es, true).admitted == Run(es, false).admitted
    ensures Agree(Run(es, false).entry.Info(), Run(es, true).entry, if es == [] then 0 else es[|es| - 1].tick)
  {
    if es != [] {
      var last := |es| - 1;
      RunsAgree(es[..last]);
      AgreeStep(Run(es[..last], false).entry.Info(), Run(es[..last], true).entry, es[last],
                if last == 0 then 0 else es[last - 1].tick);
    }
  }

  function Repeat(tick: nat, n: nat): (es: seq<BudgetEvent>)
    ensures |es| == n && forall i :: 0 <= i < n ==> es[i] == Datagram(tick)
  {
    seq(n, i => Datagram(tick))
  }

  // With a shorter shell timeout a sweep is visible: a full budget, swept inside its own
  // window, admits one datagram more.
  function Leak(shellTicks: nat): seq<BudgetEvent> {
    Repeat(100, RATE_MAX_UNAUTH) + [SweepAt(101 + shellTicks, shellTicks), Datagram(101 + shellTicks)]
  }

  lemma {:induction false} FillBudget(n: nat, evict: bool)
    requires n <= RATE_MAX_UNAUTH
    ensures Ordered(Repeat(100, n))
    ensures Run(Repeat(100, n), evict).entry == if n == 0 then Absent else Present(RateInfo(100, n, 0))
    ensures |Run(Repeat(100, n), evict).verdicts| == n
    decreases n
  {
    if n > 0 {
      FillBudget(n - 1, evict);
      assert Repeat(100, n)[..n - 1] == Repeat(100, n - 1);
    }
  }

  lemma RunSnoc(es: seq<BudgetEvent>, ev: BudgetEvent, evict: bool)
    requires Ordered(es + [ev])
    ensures Ordered(es)
    ensures Run(es + [ev], evict) ==
            if ev.SweepAt? && !evict then Run(es, evict)
            else var (e, v) := StepEntry(Run(es, evict).entry, ev);
                 Trace(e, Run(es, evict).verdicts + v,
                       if v == [false] then Run(es, evict).admitted + [ev.tick] else Run(es, evict).admitted)
  {
    assert (es + [ev])[..|es|] == es;
    forall i, j | 0 <= i <= j < |es|
      ensures es[i].tick <= es[j].tick
    {
      assert es[i] == (es + [ev])[i] && es[j] == (es + [ev])[j];
    }
  }

  lemma OrderedSnoc(es: seq<BudgetEvent>, ev: BudgetEvent)
    requires Ordered(es) && forall i :: 0 <= i < |es| ==> es[i].tick <= ev.tick
    ensures Ordered(es + [ev])
  {
  }

  // A full budget, a sweep one tick after the shells expire, and one more datagram.
  lemma LeakAfter(fill: seq<BudgetEvent>, shellTicks: nat, evict: bool)
    requires shellTicks < RATE_WINDOW_TICKS - 1 && Ordered(fill)
    requires forall i :: 0 <= i < |fill| ==> fill[i].tick <= 100
    requires Run(fill, evict).entry == Present(RateInfo(100, RATE_MAX_UNAUTH, 0))
    ensures var es := (fill + [SweepAt(101 + shellTicks, shellTicks)]) + [Datagram(101 + shellTicks)];
            Ordered(es) && Run(es, evict).verdicts == Run(fill, evict).verdicts + [!evict]
  {
    var sweep := SweepAt(101 + shellTicks, shellTicks);
    var probe := Datagram(101 + shellTicks);
    OrderedSnoc(fill, sweep);
    OrderedSnoc(fill + [sweep], probe);
    RunSnoc(fill, sweep, evict);
    RunSnoc(fill + [sweep], probe, evict);
  }

  lemma LeakIsVisible(shellTicks: nat)
    requires shellTicks < RATE_WINDOW_TICKS - 1
    ensures Ordered(Leak(shellTicks))
    ensures Run(Leak(shellTicks), true).verdicts != Run(Leak(shellTicks), false).verdicts
  {
    FillBudget(RATE_MAX_UNAUTH, true);
    FillBudget(RATE_MAX_UNAUTH, false);
    var fill := Repeat(100, RATE_MAX_UNAUTH);
    LeakAfter(fill, shellTicks, true);
    LeakAfter(fill, shellTicks, false);
    assert Leak(shellTicks) == (fill + [SweepAt(101 + shellTicks, shellTicks)]) + [Datagram(101 + shellTicks)];
    var n := |Run(fill, true).verdicts|;
    assert !Run(Leak(shellTicks), true).verdicts[n] && Run(Leak(shellTicks), false).verdicts[n];
  }

  // Dropping records is unobservable exactly when the shell timeout is at least the
  // window less one tick.
  lemma EvictionInvisibleExactly(shellTicks: nat)
    ensures (forall es :: Ordered(es) && SweepsAtLeast(es, shellTicks) ==>
               Run(es, true).verdicts == Run(es, false).verdicts)
            <==> shellTicks >= RATE_WINDOW_TICKS - 1
  {
    if shellTicks >= RATE_WINDOW_TICKS - 1 {
      forall es | Ordered(es) && SweepsAtLeast(es, shellTicks)
        ensures Run(es, true).verdicts == Run(es, false).verdicts
      {
        RunsAgree(es);
      }
    } else {
      LeakIsVisible(shellTicks);
      assert SweepsAtLeast(Leak(shellTicks), shellTicks);
    }
  }

  // ---------------------------------------------------------------------------
  // How much gets through
  // ---------------------------------------------------------------------------

  ghost predicate Accounted(ri: RateInfo, admitted: seq<nat>) {
    Ledger(admitted, RATE_WINDOW_TICKS, RATE_MAX_UNAUTH, RATE_MAX_UNAUTH, ri.windowStart,
           if ri.count > RATE_MAX_UNAUTH then RATE_MAX_UNAUTH else ri.count)
  }

  lemma ChargeKeepsAccount(ri: RateInfo, admitted: seq<nat>, tick: nat)
    requires Accounted(ri, admitted) && ri.windowStart <= tick
    ensures var (ri', drop) := Charge(ri, tick); Accounted(ri', if drop then admitted else admitted + [tick])
  {
    var m := RATE_MAX_UNAUTH;
    if tick >= ri.mutedUntil {
      if tick - ri.windowStart >= RATE_WINDOW_TICKS {
        LedgerOpen(admitted, RATE_WINDOW_TICKS, m, m, ri.windowStart, if ri.count > m then m else ri.count, tick);
        LedgerAdmit(admitted, RATE_WINDOW_TICKS, m, m, tick, 0, tick);
      } else if ri.count < m {
        AdmittedWider(admitted, ri.windowStart + 1, ri.windowStart + RATE_WINDOW_TICKS,
                      ri.windowStart, ri.windowStart + RATE_WINDOW_TICKS);
        LedgerAdmit(admitted, RATE_WINDOW_TICKS, m, m, ri.windowStart, ri.count, tick);
      }
    }
  }

  lemma {:induction false} RunAccounted(es: seq<BudgetEvent>)
    requires Ordered(es)
    ensures Accounted(Run(es, false).entry.Info(), Run(es, false).admitted)
  {
    if es == [] {
      LedgerEmpty(RATE_WINDOW_TICKS, RATE_MAX_UNAUTH, RATE_MAX_UNAUTH, 0);
    } else {
      var last := |es| - 1;
      RunAccounted(es[..last]);
      var before := Run(es[..last], false);
      if es[last].Datagram? {
        ChargeKeepsAccount(before.entry.Info(), before.admitted, es[last].tick);
      }
    }
  }

  // Any 30 consecutive ticks admit at most 240 token-less datagrams of one endpoint,
  // sweeps included.
  lemma UnauthBound(es: seq<BudgetEvent>, from: nat)
    requires Ordered(es) && SweepsAtLeast(es, RATE_WINDOW_TICKS - 1)
    ensures Admitted(Run(es, true).admitted, from, from + RATE_WINDOW_TICKS) <= 2 * RATE_MAX_UNAUTH
  {
    RunsAgree(es);
    RunAccounted(es);
  }

  // Events that happen at or after `from`, in order.
  ghost predicate After(es: seq<BudgetEvent>, from: nat) {
    Ordered(es) && forall i :: 0 <= i < |es| ==> from <= es[i].tick
  }

  // The entry and verdicts when a run continues from `e`.
  function Continue(e: Entry, from: nat, es: seq<BudgetEvent>): (r: (Entry, seq<bool>))
    requires e.Info().windowStart <= from && After(es, from)
    ensures r.0.Info().windowStart <= (if es == [] then from else es[|es| - 1].tick)
  {
    if es == [] then (e, [])
    else
      var last := |es| - 1;
      var (e1, vs) := Continue(e, from, es[..last]);
      assert es[..last] != [] ==> es[last - 1].tick <= es[last].tick;
      var (e2, v) := StepEntry(e1, es[last]);
      (e2, vs + v)
  }

  // From the datagram that trips the cap, every datagram of the next 300 ticks is
  // dropped, whatever sweeps happen in between.
  lemma {:induction false} MuteHolds(e: Entry, trip: nat, es: seq<BudgetEvent>)
    requires e.Info().windowStart <= trip
    requires trip >= e.Info().mutedUntil && Charge(e.Info(), trip).1
    requires After(es, trip) && forall i :: 0 <= i < |es| ==> es[i].tick < trip + RATE_MUTE_TICKS
    ensures var muted := Present(Charge(e.Info(), trip).0);
            Continue(muted, trip, es).0 == muted && false !in Continue(muted, trip, es).1
  {
    if es != [] {
      MuteHolds(e, trip, es[..|es| - 1]);
    }
  }

  // The first datagram at the end of the mute is admitted again.
  lemma MuteEnds(ri: RateInfo, trip: nat)
    requires ri.windowStart <= trip && trip >= ri.mutedUntil && Charge(ri, trip).1
    ensures Charge(ri, trip).0.mutedUntil == trip + RATE_MUTE_TICKS
    ensures !Charge(Charge(ri, trip).0, trip + RATE_MUTE_TICKS).1
  {
  }
}
