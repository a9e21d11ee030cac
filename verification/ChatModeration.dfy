// The per-session chat limiter of ChatModeration.h.
module ChatModeration {
  import opened WindowLimiter

  const CHAT_WINDOW_TICKS: nat := 300
  const CHAT_MAX_PER_WINDOW: nat := 6

  datatype Window = Window(windowStart: nat, count: nat, started: bool)

  class ChatLimiter {
    var windowStart: nat
    var count: nat
    var started: bool

    constructor ()
      ensures State() == Window(0, 0, false)
    {
      windowStart, count, started := 0, 0, false;
    }

    function State(): Window
      reads this
    {
      Window(windowStart, count, started)
    }

    method ChatAllowed(tick: nat) returns (allowed: bool)
      requires started ==> windowStart <= tick
      modifies this
      ensures (State(), allowed) == Chat(old(State()), tick)
    {
      if !started || tick - windowStart >= CHAT_WINDOW_TICKS {
        windowStart := tick;
        count := 0;
        started := true;
      }
      if count >= CHAT_MAX_PER_WINDOW {
        return false;
      }
      count := count + 1;
      return true;
    }
  }

  // One request: the window state after it, and whether the line is relayed.
  function Chat(w: Window, tick: nat): (Window, bool)
    requires w.started ==> w.windowStart <= tick
  {
    var open := if !w.started || tick - w.windowStart >= CHAT_WINDOW_TICKS then Window(tick, 0, true) else w;
    if open.count >= CHAT_MAX_PER_WINDOW then (open, false) else (open.(count := open.count + 1), true)
  }

  ghost predicate Monotone(ticks: seq<nat>) {
    forall i, j :: 0 <= i <= j < |ticks| ==> ticks[i] <= ticks[j]
  }

  // A whole session: requests at the given ticks, and the ticks of the relayed lines.
  ghost function Run(ticks: seq<nat>): (r: (Window, seq<nat>))
    requires Monotone(ticks)
    ensures r.0.started ==> ticks != [] && r.0.windowStart <= ticks[|ticks| - 1]
  {
    if ticks == [] then (Window(0, 0, false), [])
    else
      var t := ticks[|ticks| - 1];
      var (w, log) := Run(ticks[..|ticks| - 1]);
      var (w', ok) := Chat(w, t);
      (w', if ok then log + [t] else log)
  }

  // A window opens with a relayed line, so at most five of its six lines fall later.
  ghost predicate Accounted(w: Window, log: seq<nat>) {
    if w.started
    then Ledger(log, CHAT_WINDOW_TICKS, CHAT_MAX_PER_WINDOW, CHAT_MAX_PER_WINDOW - 1, w.windowStart, w.count)
         && w.count > 0 && Admitted(log, w.windowStart, w.windowStart + 1) > 0
    else log == []
  }

  lemma ChatKeepsAccount(w: Window, log: seq<nat>, tick: nat)
    requires Accounted(w, log) && (w.started ==> w.windowStart <= tick)
    ensures var (w', ok) := Chat(w, tick); Accounted(w', if ok then log + [tick] else log)
  {
    if !w.started || tick - w.windowStart >= CHAT_WINDOW_TICKS {
      if w.started {
        LedgerOpen(log, CHAT_WINDOW_TICKS, CHAT_MAX_PER_WINDOW, CHAT_MAX_PER_WINDOW - 1, w.windowStart, w.count, tick);
      } else {
        LedgerEmpty(CHAT_WINDOW_TICKS, CHAT_MAX_PER_WINDOW, CHAT_MAX_PER_WINDOW - 1, tick);
      }
      LedgerAdmit(log, CHAT_WINDOW_TICKS, CHAT_MAX_PER_WINDOW, CHAT_MAX_PER_WINDOW - 1, tick, 0, tick);
      AdmittedAppend(log, tick, tick, tick + 1);
    } else if w.count < CHAT_MAX_PER_WINDOW {
      AdmittedSplit(log, w.windowStart, w.windowStart + 1, w.windowStart + CHAT_WINDOW_TICKS);
      LedgerAdmit(log, CHAT_WINDOW_TICKS, CHAT_MAX_PER_WINDOW, CHAT_MAX_PER_WINDOW - 1, w.windowStart, w.count, tick);
      AdmittedAppend(log, tick, w.windowStart, w.windowStart + 1);
    }
  }

  lemma {:induction false} RunAccounted(ticks: seq<nat>)
    requires Monotone(ticks)
    ensures Accounted(Run(ticks).0, Run(ticks).1)
  {
    if ticks != [] {
      RunAccounted(ticks[..|ticks| - 1]);
      var (w, log) := Run(ticks[..|ticks| - 1]);
      ChatKeepsAccount(w, log, ticks[|ticks| - 1]);
    }
  }

  // Any 300 consecutive ticks relay at most 11 lines of one session.
  lemma ChatBound(ticks: seq<nat>, from: nat)
    requires Monotone(ticks)
    ensures Admitted(Run(ticks).1, from, from + CHAT_WINDOW_TICKS) <= 11
  {
    RunAccounted(ticks);
  }

  // One line, five more just before its window closes, six in the next window.
  function Burst(): (ticks: seq<nat>)
    ensures |ticks| == 12
  {
    seq(12, i => if i == 0 then 0 else if i < 6 then 299 else 300)
  }

  // Eleven is reached: the windows are fixed, not rolling.
  lemma ChatBoundIsTight()
    ensures Monotone(Burst()) && Admitted(Run(Burst()).1, 1, 1 + CHAT_WINDOW_TICKS) == 11
  {
    var ticks := Burst();
    var log: seq<nat> := [];
    var w := Window(0, 0, false);
    var i := 0;
    assert ticks[..0] == [];
    while i < 12
      invariant 0 <= i <= 12 && Run(ticks[..i]) == (w, log)
      invariant w == if i == 0 then Window(0, 0, false) else if i <= 6 then Window(0, i, true) else Window(300, i - 6, true)
      invariant Admitted(log, 1, 301) == if i == 0 then 0 else i - 1
    {
      assert ticks[..i + 1][..i] == ticks[..i];
      AdmittedAppend(log, ticks[i], 1, 301);
      w := Chat(w, ticks[i]).0;
      log := log + [ticks[i]];
      i := i + 1;
    }
    assert ticks[..12] == ticks;
  }
}
