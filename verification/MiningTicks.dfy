// StepMining as a whole, and the part of a server tick that touches belts (AdvanceSimulation
// of GameServer.cpp): mining, flight, the next tick's regeneration. Every schedule of such
// ticks is a run of the ledger.
module MiningTicks {
  import opened SpatialGrid
  import opened RegenStagger
  import opened SceneSystem
  import opened MiningSystem
  import opened MiningLedger

  // The events of the first n steps, in order.
  ghost function Events(steps: seq<Step>, n: nat): seq<MiningEvent>
    requires n <= |steps|
  {
    if n == 0 then [] else Events(steps, n - 1) + if Extracts(steps[n - 1]) then [steps[n - 1].event.value] else []
  }

  // The ticks of the regeneration steps among them.
  ghost function RegenTicks(steps: seq<Step>, n: nat): seq<nat>
    requires n <= |steps|
  {
    if n == 0 then [] else RegenTicks(steps, n - 1) + if steps[n - 1].Regen? then [steps[n - 1].tick] else []
  }

  predicate Empties(f: Field, s: Step) {
    s.Turn? && s.emptied && BeltOf(f, s.unit).Some?
  }

  // The belts whose rocks were spent, in order, once for each spent rock.
  ghost function Emptied(fs: seq<Field>, steps: seq<Step>, n: nat): seq<nat>
    requires n <= |steps| < |fs|
  {
    if n == 0 then []
    else Emptied(fs, steps, n - 1)
         + if Empties(fs[n - 1], steps[n - 1]) then [BeltOf(fs[n - 1], steps[n - 1].unit).value] else []
  }

  lemma {:induction false} FoldsJoin(steps: seq<Step>, more: seq<Step>, n: nat)
    requires n <= |more|
    ensures Events(steps + more, |steps| + n) == Events(steps, |steps|) + Events(more, n)
    ensures RegenTicks(steps + more, |steps| + n) == RegenTicks(steps, |steps|) + RegenTicks(more, n)
  {
    if n > 0 {
      FoldsJoin(steps, more, n - 1);
    } else {
      FoldsPrefix(steps, more, |steps|);
    }
  }

  lemma {:induction false} FoldsPrefix(steps: seq<Step>, more: seq<Step>, n: nat)
    requires n <= |steps|
    ensures Events(steps + more, n) == Events(steps, n) && RegenTicks(steps + more, n) == RegenTicks(steps, n)
  {
    if n > 0 {
      FoldsPrefix(steps, more, n - 1);
    }
  }

  lemma FoldsAdded(steps: seq<Step>, s: Step)
    ensures var all := steps + [s];
            && Events(all, |all|) == Events(steps, |steps|) + (if Extracts(s) then [s.event.value] else [])
            && RegenTicks(all, |all|) == RegenTicks(steps, |steps|) + if s.Regen? then [s.tick] else []
  {
    FoldsPrefix(steps, [s], |steps|);
  }

  lemma {:induction false} EmptiedPrefix(fs: seq<Field>, steps: seq<Step>, gs: seq<Field>, more: seq<Step>, n: nat)
    requires |fs| == |steps| + 1 && |gs| == |more| && n <= |steps|
    ensures Emptied(fs + gs, steps + more, n) == Emptied(fs, steps, n)
  {
    if n > 0 {
      EmptiedPrefix(fs, steps, gs, more, n - 1);
    }
  }

  lemma EmptiedAdded(fs: seq<Field>, steps: seq<Step>, h: Field, s: Step)
    requires |fs| == |steps| + 1
    ensures Emptied(fs + [h], steps + [s], |steps| + 1)
         == Emptied(fs, steps, |steps|) + if Empties(fs[|steps|], s) then [BeltOf(fs[|steps|], s.unit).value] else []
  {
    EmptiedPrefix(fs, steps, [h], [s], |steps|);
  }

  // ---------------------------------------------------------------------------
  // StepMining
  // ---------------------------------------------------------------------------

  ghost predicate Turns(steps: seq<Step>, miners: seq<nat>) {
    |steps| == |miners| && forall i :: 0 <= i < |steps| ==> steps[i].Turn? && steps[i].unit == miners[i]
  }

  ghost function Refills(belts: seq<nat>): seq<Step> {
    seq(|belts|, (i: nat) requires i < |belts| => Refill(belts[i]))
  }

  // A run from f to g in which holds are filled by mining only.
  ghost predicate RunBetween(fs: seq<Field>, steps: seq<Step>, f: Field, g: Field) {
    Run(fs, steps) && MiningOnly(fs, steps) && fs[0] == f && fs[|steps|] == g && FieldOk(g)
  }

  // One turn for each miner in order, then one refill for each spent rock's belt in order.
  ghost predicate MiningTick(fs: seq<Field>, steps: seq<Step>, miners: seq<nat>, events: seq<MiningEvent>) {
    && |miners| <= |steps| < |fs|
    && Turns(steps[..|miners|], miners)
    && steps == steps[..|miners|] + Refills(Emptied(fs, steps, |miners|))
    && events == Events(steps, |steps|)
  }

  lemma Extend(fs: seq<Field>, steps: seq<Step>, f: Field, g: Field, h: Field, s: Step)
    requires RunBetween(fs, steps, f, g) && FieldOk(h) && StepOk(g, h, s) && NoTrade(g, h, s)
    ensures RunBetween(fs + [h], steps + [s], f, h)
  {
    RunSnoc(fs, steps, h, s);
    forall i: nat | i < |steps| + 1
      ensures NoTradeAt(fs + [h], steps + [s], i)
    {
      if i < |steps| {
        assert NoTradeAt(fs, steps, i);
      }
    }
  }

  lemma Join(fs: seq<Field>, steps: seq<Step>, gs: seq<Field>, more: seq<Step>, f: Field, g: Field, h: Field)
    requires RunBetween(fs, steps, f, g) && RunBetween(gs, more, g, h)
    ensures RunBetween(fs + gs[1..], steps + more, f, h)
  {
    JoinRuns(fs, steps, gs, more);
    forall i: nat | i < |steps + more|
      ensures NoTradeAt(fs + gs[1..], steps + more, i)
    {
      if i < |steps| {
        assert NoTradeAt(fs, steps, i);
      } else {
        assert NoTradeAt(gs, more, i - |steps|);
      }
    }
  }

  lemma NoSteps(f: Field)
    requires FieldOk(f)
    ensures RunBetween([f], [], f, f)
  {
  }

  // Where the order loop stands after the turns of `miners`.
  ghost predicate Mined(fs: seq<Field>, steps: seq<Step>, f: Field, g: Field, miners: seq<nat>,
                        events: seq<MiningEvent>, emptiedBelts: seq<nat>) {
    && RunBetween(fs, steps, f, g) && Turns(steps, miners)
    && events == Events(steps, |steps|) && emptiedBelts == Emptied(fs, steps, |steps|)
  }

  lemma TurnAdded(fs: seq<Field>, steps: seq<Step>, f: Field, g: Field, h: Field, miners: seq<nat>,
                  events: seq<MiningEvent>, emptiedBelts: seq<nat>, s: Step)
    requires Mined(fs, steps, f, g, miners, events, emptiedBelts) && s.Turn?
    requires RunBetween(fs + [h], steps + [s], f, h)
    ensures Mined(fs + [h], steps + [s], f, h, miners + [s.unit],
                  if s.event.Some? then events + [s.event.value] else events,
                  if Empties(g, s) then emptiedBelts + [BeltOf(g, s.unit).value] else emptiedBelts)
  {
    FoldsAdded(steps, s);
    EmptiedAdded(fs, steps, h, s);
  }

  // The order loop; `miners` is the order pool in whatever order it is visited.
  method MineTurns(w: SceneWorld, miners: seq<nat>, tick: nat)
    returns (events: seq<MiningEvent>, emptiedBelts: seq<nat>, ghost fs: seq<Field>, ghost steps: seq<Step>)
    requires FieldOk(w.View())
    modifies w
    ensures Mined(fs, steps, old(w.View()), w.View(), miners, events, emptiedBelts)
  {
    ghost var f := w.View();
    events, emptiedBelts, fs, steps := [], [], [f], [];
    NoSteps(f);
    var i := 0;
    while i < |miners|
      invariant 0 <= i <= |miners|
      invariant Mined(fs, steps, f, w.View(), miners[..i], events, emptiedBelts)
    {
      events, emptiedBelts, fs, steps := MineNext(w, miners[i], tick, events, emptiedBelts, fs, steps, f, miners[..i]);
      assert miners[..i + 1] == miners[..i] + [miners[i]];
      i := i + 1;
    }
    assert miners[..i] == miners;
  }

  method MineNext(w: SceneWorld, unit: nat, tick: nat, events: seq<MiningEvent>, emptiedBelts: seq<nat>,
                  ghost fs: seq<Field>, ghost steps: seq<Step>, ghost f: Field, ghost miners: seq<nat>)
    returns (events': seq<MiningEvent>, emptiedBelts': seq<nat>, ghost fs': seq<Field>, ghost steps': seq<Step>)
    requires FieldOk(w.View()) && Mined(fs, steps, f, w.View(), miners, events, emptiedBelts)
    modifies w
    ensures Mined(fs', steps', f, w.View(), miners + [unit], events', emptiedBelts')
  {
    ghost var g := w.View();
    var belt := BeltOf(w.View(), unit);
    var event, emptied := MineTurn(w, unit, tick);
    ghost var s := Turn(unit, event, emptied);
    Extend(fs, steps, f, g, w.View(), s);
    TurnAdded(fs, steps, f, g, w.View(), miners, events, emptiedBelts, s);
    events' := if event.Some? then events + [event.value] else events;
    emptiedBelts' := if emptied && belt.Some? then emptiedBelts + [belt.value] else emptiedBelts;
    fs', steps' := fs + [w.View()], steps + [s];
  }

  method RefillBelts(w: SceneWorld, belts: seq<nat>, tick: nat) returns (ghost fs: seq<Field>, ghost steps: seq<Step>)
    requires FieldOk(w.View())
    modifies w
    ensures RunBetween(fs, steps, old(w.View()), w.View()) && steps == Refills(belts)
  {
    ghost var f := w.View();
    fs, steps := [f], [];
    NoSteps(f);
    var i := 0;
    while i < |belts|
      invariant 0 <= i <= |belts|
      invariant RunBetween(fs, steps, f, w.View()) && steps == Refills(belts[..i])
    {
      ghost var g := w.View();
      w.MaintainBeltRocks(belts[i], tick);
      Extend(fs, steps, f, g, w.View(), Refill(belts[i]));
      fs, steps := fs + [w.View()], steps + [Refill(belts[i])];
      i := i + 1;
    }
    assert belts[..i] == belts;
  }

  lemma {:induction false} RefillsQuiet(belts: seq<nat>, n: nat)
    requires n <= |belts|
    ensures Events(Refills(belts), n) == [] && RegenTicks(Refills(belts), n) == []
  {
    if n > 0 {
      RefillsQuiet(belts, n - 1);
    }
  }

  lemma {:induction false} TurnsQuiet(steps: seq<Step>, miners: seq<nat>, n: nat)
    requires Turns(steps, miners) && n <= |steps|
    ensures RegenTicks(steps, n) == []
  {
    if n > 0 {
      TurnsQuiet(steps, miners, n - 1);
    }
  }

  lemma QuietTail(steps: seq<Step>, miners: seq<nat>, belts: seq<nat>)
    requires Turns(steps, miners)
    ensures var all := steps + Refills(belts);
            Events(all, |all|) == Events(steps, |steps|) && RegenTicks(all, |all|) == []
  {
    RefillsQuiet(belts, |belts|);
    TurnsQuiet(steps, miners, |steps|);
    FoldsJoin(steps, Refills(belts), |belts|);
  }

  lemma MiningStepFrom(fs: seq<Field>, steps: seq<Step>, gs: seq<Field>, more: seq<Step>, miners: seq<nat>, events: seq<MiningEvent>)
    requires |fs| == |steps| + 1 && |gs| == |more| + 1 && Turns(steps, miners)
    requires more == Refills(Emptied(fs, steps, |steps|)) && events == Events(steps + more, |steps + more|)
    ensures MiningTick(fs + gs[1..], steps + more, miners, events)
  {
    EmptiedPrefix(fs, steps, gs[1..], more, |steps|);
    assert (steps + more)[..|miners|] == steps;
  }

  method StepMining(w: SceneWorld, miners: seq<nat>, tick: nat)
    returns (events: seq<MiningEvent>, ghost fs: seq<Field>, ghost steps: seq<Step>)
    requires FieldOk(w.View())
    modifies w
    ensures RunBetween(fs, steps, old(w.View()), w.View()) && MiningTick(fs, steps, miners, events)
    ensures RegenTicks(steps, |steps|) == []
  {
    ghost var f := w.View();
    var emptiedBelts;
    events, emptiedBelts, fs, steps := MineTurns(w, miners, tick);
    ghost var g := w.View();
    ghost var gs, more := RefillBelts(w, emptiedBelts, tick);
    Join(fs, steps, gs, more, f, g, w.View());
    QuietTail(steps, miners, emptiedBelts);
    MiningStepFrom(fs, steps, gs, more, miners, events);
    fs, steps := fs + gs[1..], steps + more;
  }

  // ---------------------------------------------------------------------------
  // Server ticks
  // ---------------------------------------------------------------------------

  // Where the simulation has moved ships and rocks by the end of a tick.
  datatype Plan = Plan(miners: seq<nat>, moves: map<nat, Vec>)

  method Fly(w: SceneWorld, moves: map<nat, Vec>)
    requires FieldOk(w.View())
    modifies w`position
    ensures FieldOk(w.View()) && StepOk(old(w.View()), w.View(), Elsewhere) && NoTrade(old(w.View()), w.View(), Elsewhere)
    ensures forall i :: i in old(w.position) ==> i in w.position && w.position[i] == if i in moves then moves[i] else old(w.position)[i]
  {
    w.position := map i | i in w.position :: if i in moves then moves[i] else w.position[i];
  }

  method ServerTick(w: SceneWorld, plan: Plan, tick: nat)
    returns (events: seq<MiningEvent>, ghost fs: seq<Field>, ghost steps: seq<Step>)
    requires FieldOk(w.View())
    modifies w
    ensures RunBetween(fs, steps, old(w.View()), w.View())
    ensures Events(steps, |steps|) == events && RegenTicks(steps, |steps|) == [tick + 1]
  {
    ghost var f := w.View();
    events, fs, steps := StepMining(w, plan.miners, tick);
    ghost var g := w.View();
    Fly(w, plan.moves);
    ghost var h := w.View();
    Extend(fs, steps, f, g, h, Elsewhere);
    FoldsAdded(steps, Elsewhere);
    fs, steps := fs + [h], steps + [Elsewhere];
    w.StepSceneRegen(tick + 1);
    Extend(fs, steps, f, h, w.View(), Regen(tick + 1));
    FoldsAdded(steps, Regen(tick + 1));
    fs, steps := fs + [w.View()], steps + [Regen(tick + 1)];
  }

  // Regeneration steps carry consecutive ticks from `first` on.
  ghost predicate Paced(steps: seq<Step>, first: nat) {
    forall k :: 0 <= k < |RegenTicks(steps, |steps|)| ==> RegenTicks(steps, |steps|)[k] == first + k
  }

  // Any number of ticks is one run of the ledger.
  method RunSchedule(w: SceneWorld, plans: seq<Plan>, start: nat)
    returns (events: seq<MiningEvent>, ghost fs: seq<Field>, ghost steps: seq<Step>)
    requires FieldOk(w.View())
    modifies w
    ensures RunBetween(fs, steps, old(w.View()), w.View()) && events == Events(steps, |steps|)
    ensures Paced(steps, start + 1) && |RegenTicks(steps, |steps|)| == |plans|
  {
    ghost var f := w.View();
    events, fs, steps := [], [f], [];
    NoSteps(f);
    var i := 0;
    while i < |plans|
      invariant 0 <= i <= |plans|
      invariant RunBetween(fs, steps, f, w.View()) && events == Events(steps, |steps|)
      invariant Paced(steps, start + 1) && |RegenTicks(steps, |steps|)| == i
    {
      ghost var g := w.View();
      var more;
      ghost var gs, next;
      more, gs, next := ServerTick(w, plans[i], start + i);
      Join(fs, steps, gs, next, f, g, w.View());
      FoldsJoin(steps, next, |next|);
      events, fs, steps := events + more, fs + gs[1..], steps + next;
      i := i + 1;
    }
  }

  // ---------------------------------------------------------------------------
  // Recovery of an unmined belt
  // ---------------------------------------------------------------------------

  lemma TicksPrefix(steps: seq<Step>, n: nat)
    requires n <= |steps|
    ensures RegenTicks(steps, n) <= RegenTicks(steps, |steps|)
    decreases |steps| - n
  {
    if n < |steps| {
      TicksPrefix(steps, n + 1);
    }
  }

  // As long as no unit draws on it, a belt's pool follows the regeneration clock and nothing else.
  lemma {:induction false} PoolRecovers(fs: seq<Field>, steps: seq<Step>, b: nat, first: nat, n: nat)
    requires Run(fs, steps) && Paced(steps, first) && n <= |steps| && b in fs[0].pool && b in fs[0].poi
    requires forall i: nat :: i < n ==> !Draws(fs[i], steps[i], b)
    ensures b in fs[n].pool && fs[n].pool[b].baseline == fs[0].pool[b].baseline
    ensures fs[n].pool[b].units
         == Recover(fs[0].poi[b].poiId, fs[0].pool[b].units, fs[0].pool[b].baseline, first, |RegenTicks(steps, n)|)
  {
    if n > 0 {
      PoolRecovers(fs, steps, b, first, n - 1);
      UndrawnStep(fs, steps, b, n - 1);
      TicksPrefix(steps, n);
      if steps[n - 1].Regen? {
        assert RegenTicks(steps, n)[|RegenTicks(steps, n - 1)|] == steps[n - 1].tick;
      }
    }
  }

  // A step that does not draw on a belt moves its pool only if it is a due regeneration step.
  lemma UndrawnStep(fs: seq<Field>, steps: seq<Step>, b: nat, i: nat)
    requires Run(fs, steps) && i < |steps| && b in fs[0].pool && b in fs[0].poi && !Draws(fs[i], steps[i], b)
    ensures b in fs[i].pool && b in fs[i + 1].pool && fs[i + 1].pool[b].baseline == fs[i].pool[b].baseline
    ensures fs[i + 1].pool[b].units
         == if steps[i].Regen? && Due(fs[0].poi[b].poiId, steps[i].tick)
            then Regenerated(fs[i].pool[b].units, fs[i].pool[b].baseline) else fs[i].pool[b].units
  {
    var f, g, s := RunStep(fs, steps, i);
    RunKeeps(fs, steps, i);
    assert PoolBooked(f, g, s, b) && PoolOk(f.pool[b]);
  }

  // Such a belt is full again once the run has seen enough regeneration steps.
  lemma BeltRecovers(fs: seq<Field>, steps: seq<Step>, b: nat, first: nat, n: nat)
    requires Run(fs, steps) && Paced(steps, first) && n <= |steps| && b in fs[0].pool && b in fs[0].poi
    requires forall i: nat :: i < n ==> !Draws(fs[i], steps[i], b)
    requires |RegenTicks(steps, n)| >= EnoughTicks(fs[0].pool[b].baseline - fs[0].pool[b].units)
    ensures b in fs[n].pool && fs[n].pool[b].units == fs[0].pool[b].baseline
  {
    PoolRecovers(fs, steps, b, first, n);
    assert PoolOk(fs[0].pool[b]);
    RecoversInTime(fs[0].poi[b].poiId, fs[0].pool[b].units, fs[0].pool[b].baseline, first, |RegenTicks(steps, n)|);
  }
}
