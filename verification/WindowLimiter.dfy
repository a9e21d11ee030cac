// Fixed-window rate limits seen from outside: how many events any stretch of ticks can
// admit, whatever the alignment of the stretch and the windows.
module WindowLimiter {

  // Admissions logged with ticks in [from, to).
  ghost function Admitted(log: seq<nat>, from: int, to: int): (n: nat)
    ensures n <= |log|
  {
    if log == [] then 0
    else Admitted(log[..|log| - 1], from, to) + (if from <= log[|log| - 1] < to then 1 else 0)
  }

  lemma AdmittedAppend(log: seq<nat>, t: nat, from: int, to: int)
    ensures Admitted(log + [t], from, to) == Admitted(log, from, to) + (if from <= t < to then 1 else 0)
  {
    assert (log + [t])[..|log|] == log;
  }

  lemma {:induction false} AdmittedSplit(log: seq<nat>, from: int, mid: int, to: int)
    requires from <= mid <= to
    ensures Admitted(log, from, to) == Admitted(log, from, mid) + Admitted(log, mid, to)
  {
    if log != [] {
      AdmittedSplit(log[..|log| - 1], from, mid, to);
    }
  }

  lemma {:induction false} AdmittedWider(log: seq<nat>, from: int, to: int, from': int, to': int)
    requires from' <= from && to <= to'
    ensures Admitted(log, from, to) <= Admitted(log, from', to')
  {
    if log != [] {
      AdmittedWider(log[..|log| - 1], from, to, from', to');
    }
  }

  // The stretches shorter than `width` that end at tick `end` (exclusive).
  ghost predicate BoundedBefore(log: seq<nat>, width: nat, bound: nat, end: int) {
    forall a: int, b: int :: b == end && end < a + width ==> Admitted(log, a, b) <= bound
  }

  // Every stretch of `width` consecutive ticks.
  ghost predicate BoundedEverywhere(log: seq<nat>, width: nat, bound: nat) {
    forall a: int, b: int :: b == a + width ==> Admitted(log, a, b) <= bound
  }

  // What a limiter that admits at most `max` per window keeps true of its log when its
  // open window started at `start` and holds `count` admissions, at most `late` of them
  // after the opening tick itself.
  ghost predicate Ledger(log: seq<nat>, width: nat, max: nat, late: nat, start: nat, count: nat) {
    && count <= max
    && (forall i :: 0 <= i < |log| ==> log[i] < start + width)
    && Admitted(log, start, start + width) == count
    && Admitted(log, start + 1, start + width) <= late
    && BoundedBefore(log, width, late, start)
    && BoundedEverywhere(log, width, late + max)
  }

  lemma LedgerEmpty(width: nat, max: nat, late: nat, start: nat)
    ensures Ledger([], width, max, late, start, 0)
  {
  }

  lemma {:induction false} NoneLater(log: seq<nat>, bound: nat, from: int, to: int)
    requires forall i :: 0 <= i < |log| ==> log[i] < bound
    requires bound <= from
    ensures Admitted(log, from, to) == 0
  {
    if log != [] {
      NoneLater(log[..|log| - 1], bound, from, to);
    }
  }

  // Only the open window reaches past its start.
  lemma OpenWindowBounds(log: seq<nat>, width: nat, max: nat, late: nat, start: nat, count: nat, a: int, b: int)
    requires Ledger(log, width, max, late, start, count) && start <= a && width > 0
    ensures Admitted(log, a, b) <= count
    ensures start < a ==> Admitted(log, a, b) <= late
  {
    var end := if b < start + width then start + width else b;
    NoneLater(log, start + width, start + width, end);
    AdmittedWider(log, a, b, start, end);
    AdmittedSplit(log, start, start + width, end);
    if start < a {
      AdmittedWider(log, a, b, start + 1, end);
      AdmittedSplit(log, start + 1, start + width, end);
    }
  }

  // A new window opens no earlier than one width after the last.
  lemma LedgerOpen(log: seq<nat>, width: nat, max: nat, late: nat, start: nat, count: nat, now: nat)
    requires Ledger(log, width, max, late, start, count) && start + width <= now && width > 0
    ensures Ledger(log, width, max, late, now, 0)
  {
    NoneLater(log, start + width, now, now + width);
    NoneLater(log, start + width, now + 1, now + width);
    forall a: int, b: int | b == now && now < a + width
      ensures Admitted(log, a, b) <= late
    {
      OpenWindowBounds(log, width, max, late, start, count, a, b);
    }
  }

  // One more admission in the open window.
  lemma LedgerAdmit(log: seq<nat>, width: nat, max: nat, late: nat, start: nat, count: nat, now: nat)
    requires Ledger(log, width, max, late, start, count) && count < max
    requires start <= now < start + width
    requires start < now ==> Admitted(log, start + 1, start + width) < late
    ensures Ledger(log + [now], width, max, late, start, count + 1)
  {
    var log' := log + [now];
    AdmittedAppend(log, now, start, start + width);
    AdmittedAppend(log, now, start + 1, start + width);
    forall a: int, b: int | b == start && start < a + width
      ensures Admitted(log', a, b) <= late
    {
      AdmittedAppend(log, now, a, b);
    }
    forall a: int, b: int | b == a + width
      ensures Admitted(log', a, b) <= late + max
    {
      AdmittedAppend(log, now, a, b);
      if a <= now < b {
        if a < start {
          AdmittedSplit(log, a, start, b);
          OpenWindowBounds(log, width, max, late, start, count, start, b);
        } else {
          OpenWindowBounds(log, width, max, late, start, count, a, b);
        }
      }
    }
  }
}
