// Whole mining ticks, and what any run of mining and regeneration conserves.
module MiningLedger {
  import opened Ecs
  import opened MapSums
  import opened Cargo
  import opened RegenStagger
  import opened SceneSystem
  import opened MiningSystem

  // What happens to belts: a unit's turn, the refill of an emptied belt, a regeneration step,
  // or anything else that leaves pools alone: flight, orders, trading, scooping, death.
  datatype Step =
    | Turn(unit: nat, event: Option<MiningEvent>, emptied: bool)
    | Refill(belt: nat)
    | Regen(tick: nat)
    | Elsewhere

  ghost predicate StepOk(f: Field, g: Field, s: Step)
    requires FieldOk(f)
  {
    match s
    case Turn(unit, event, emptied) => MayTurn(f, g, unit, event, emptied)
    case Refill(belt) => FieldOk(g) && Maintained(f, g, belt)
    case Regen(tick) => Regrown(f, g, tick)
    case Elsewhere => FieldOk(g) && g.pool == f.pool && g.poi == f.poi && (OreMatches(f) ==> OreMatches(g))
  }

  // ---------------------------------------------------------------------------
  // The books of one step
  // ---------------------------------------------------------------------------

  predicate Extracts(s: Step) {
    s.Turn? && s.event.Some?
  }

  // An extraction by a unit whose order resolves to belt b.
  predicate Draws(f: Field, s: Step, b: nat) {
    Extracts(s) && BeltOf(f, s.unit) == Some(b)
  }

  function Drawn(f: Field, s: Step, b: nat): int {
    if Draws(f, s, b) then s.event.value.units else 0
  }

  // ...counting one commodity only.
  function DrawnOre(f: Field, s: Step, b: nat, c: nat): int {
    if Draws(f, s, b) && s.event.value.commodity == c then s.event.value.units else 0
  }

  function Landed(s: Step, u: nat, c: nat): int {
    if Extracts(s) && s.event.value.unit == u && s.event.value.commodity == c then s.event.value.units else 0
  }

  // Units one step regrows in a pool.
  function Gain(f: Field, s: Step, b: nat): int {
    if s.Regen? && b in f.pool && b in f.poi && Due(f.poi[b].poiId, s.tick)
    then Least(SCENE_REGEN_PER_STEP, f.pool[b].baseline - f.pool[b].units) else 0
  }

  ghost predicate PoolBooked(f: Field, g: Field, s: Step, b: nat)
    requires b in f.pool && b in g.pool
  {
    g.pool[b] == f.pool[b].(units := f.pool[b].units + Gain(f, s, b) - Drawn(f, s, b))
  }

  ghost predicate HoldBooked(f: Field, g: Field, s: Step, u: nat, c: nat)
    requires u in f.hold && u in g.hold && Stocked(f.hold[u]) && Stocked(g.hold[u]) && c < COMMODITY_COUNT
  {
    g.hold[u].units[c] == f.hold[u].units[c] + Landed(s, u, c)
  }

  ghost predicate SameAnchors(f: Field, g: Field) {
    g.poi == f.poi && g.pool.Keys == f.pool.Keys && (OreMatches(f) ==> OreMatches(g))
  }

  ghost predicate PoolsBooked(f: Field, g: Field, s: Step) {
    && FieldOk(f) && FieldOk(g) && SameAnchors(f, g)
    && (forall b :: b in f.pool ==> PoolBooked(f, g, s, b))
    && (Extracts(s) ==> EventOk(s.event.value) && s.event.value.unit == s.unit && s.unit in f.hold)
  }

  ghost predicate HoldsBooked(f: Field, g: Field, s: Step) {
    && FieldOk(f) && FieldOk(g) && g.hold.Keys == f.hold.Keys
    && (forall u, c: nat :: u in f.hold && c < COMMODITY_COUNT ==> HoldBooked(f, g, s, u, c))
    && (forall u :: u in f.hold ==> NotOverfilled(f.hold[u], g.hold[u]))
  }

  // Nothing but mining touches a hold.
  ghost predicate NoTrade(f: Field, g: Field, s: Step) {
    s.Elsewhere? ==> g.hold == f.hold
  }

  lemma TurnBooked(f: Field, g: Field, unit: nat, event: Option<MiningEvent>, emptied: bool)
    requires FieldOk(f) && TurnOk(f, g, unit, BeltOf(f, unit), event)
    ensures PoolsBooked(f, g, Turn(unit, event, emptied)) && HoldsBooked(f, g, Turn(unit, event, emptied))
  {
  }

  lemma QuietBooked(f: Field, g: Field, s: Step)
    requires FieldOk(f) && FieldOk(g) && g.pool == f.pool && g.poi == f.poi
    requires (OreMatches(f) ==> OreMatches(g)) && !s.Turn? && !s.Regen?
    ensures PoolsBooked(f, g, s) && (g.hold == f.hold ==> HoldsBooked(f, g, s))
  {
  }

  lemma RegenBooked(f: Field, g: Field, tick: nat)
    requires FieldOk(f) && Regrown(f, g, tick)
    ensures PoolsBooked(f, g, Regen(tick)) && HoldsBooked(f, g, Regen(tick))
  {
    forall b | b in f.pool
      ensures PoolBooked(f, g, Regen(tick), b)
    {
      assert PoolOk(f.pool[b]) && g.pool[b] == RegenPool(f, b, tick);
    }
  }

  // Each step moves pools by what it says, and by nothing else; and holds too, unless they
  // were traded with.
  lemma StepBooked(f: Field, g: Field, s: Step)
    requires FieldOk(f) && StepOk(f, g, s)
    ensures PoolsBooked(f, g, s) && (NoTrade(f, g, s) ==> HoldsBooked(f, g, s))
  {
    match s
    case Turn(unit, event, emptied) =>
      MayTurnOk(f, g, unit, event, emptied);
      TurnBooked(f, g, unit, event, emptied);
    case Refill(belt) =>
      MaintainGrows(f, g, belt);
      QuietBooked(f, g, s);
    case Regen(tick) => RegenBooked(f, g, tick);
    case Elsewhere => QuietBooked(f, g, s);
  }

  // ---------------------------------------------------------------------------
  // Runs
  // ---------------------------------------------------------------------------

  ghost predicate StepAt(fs: seq<Field>, steps: seq<Step>, i: nat)
    requires i < |steps| < |fs|
  {
    FieldOk(fs[i]) && StepOk(fs[i], fs[i + 1], steps[i])
  }

  ghost predicate Run(fs: seq<Field>, steps: seq<Step>) {
    |fs| == |steps| + 1 && FieldOk(fs[0]) && forall i: nat :: i < |steps| ==> StepAt(fs, steps, i)
  }

  lemma RunStep(fs: seq<Field>, steps: seq<Step>, i: nat) returns (f: Field, g: Field, s: Step)
    requires Run(fs, steps) && i < |steps|
    ensures f == fs[i] && g == fs[i + 1] && s == steps[i] && FieldOk(f) && StepOk(f, g, s)
    ensures PoolsBooked(f, g, s) && (NoTrade(f, g, s) ==> HoldsBooked(f, g, s))
  {
    f, g, s := fs[i], fs[i + 1], steps[i];
    assert StepAt(fs, steps, i);
    StepBooked(f, g, s);
  }

  lemma RunSnoc(fs: seq<Field>, steps: seq<Step>, g: Field, s: Step)
    requires Run(fs, steps) && FieldOk(fs[|steps|]) && StepOk(fs[|steps|], g, s)
    ensures Run(fs + [g], steps + [s])
  {
    forall i: nat | i < |steps| + 1
      ensures StepAt(fs + [g], steps + [s], i)
    {
      if i < |steps| {
        assert StepAt(fs, steps, i);
      }
    }
  }

  lemma JoinRuns(fs: seq<Field>, steps: seq<Step>, gs: seq<Field>, more: seq<Step>)
    requires Run(fs, steps) && Run(gs, more) && gs[0] == fs[|steps|]
    ensures Run(fs + gs[1..], steps + more) && (fs + gs[1..])[|steps + more|] == gs[|more|]
  {
    forall i: nat | i < |steps + more|
      ensures StepAt(fs + gs[1..], steps + more, i)
    {
      if i < |steps| {
        assert StepAt(fs, steps, i);
      } else {
        assert StepAt(gs, more, i - |steps|);
      }
    }
  }

  ghost function MinedSoFar(fs: seq<Field>, steps: seq<Step>, b: nat, n: nat): int
    requires n <= |steps| < |fs|
  {
    if n == 0 then 0 else MinedSoFar(fs, steps, b, n - 1) + Drawn(fs[n - 1], steps[n - 1], b)
  }

  ghost function OreSoFar(fs: seq<Field>, steps: seq<Step>, b: nat, c: nat, n: nat): int
    requires n <= |steps| < |fs|
  {
    if n == 0 then 0 else OreSoFar(fs, steps, b, c, n - 1) + DrawnOre(fs[n - 1], steps[n - 1], b, c)
  }

  ghost function LandedSoFar(steps: seq<Step>, u: nat, c: nat, n: nat): int
    requires n <= |steps|
  {
    if n == 0 then 0 else LandedSoFar(steps, u, c, n - 1) + Landed(steps[n - 1], u, c)
  }

  ghost function RegrownSoFar(fs: seq<Field>, steps: seq<Step>, b: nat, n: nat): int
    requires n <= |steps| < |fs|
  {
    if n == 0 then 0 else RegrownSoFar(fs, steps, b, n - 1) + Gain(fs[n - 1], steps[n - 1], b)
  }

  lemma {:induction false} RunKeeps(fs: seq<Field>, steps: seq<Step>, n: nat)
    requires Run(fs, steps) && n <= |steps|
    ensures FieldOk(fs[n]) && SameAnchors(fs[0], fs[n])
  {
    if n > 0 {
      RunKeeps(fs, steps, n - 1);
      var f, g, s := RunStep(fs, steps, n - 1);
    }
  }

  // Over any run, for every belt: what it started with and what regrew is what is left and
  // what was mined, and it never leaves 0 .. baseline.
  lemma {:induction false} PoolsConserved(fs: seq<Field>, steps: seq<Step>, b: nat, n: nat)
    requires Run(fs, steps) && n <= |steps| && b in fs[0].pool
    ensures b in fs[n].pool
    ensures fs[0].pool[b].units + RegrownSoFar(fs, steps, b, n) == fs[n].pool[b].units + MinedSoFar(fs, steps, b, n)
    ensures 0 <= fs[n].pool[b].units <= fs[n].pool[b].baseline == fs[0].pool[b].baseline
    ensures fs[n].pool[b].commodity == fs[0].pool[b].commodity
  {
    if n == 0 {
      assert PoolOk(fs[0].pool[b]);
    } else {
      PoolsConserved(fs, steps, b, n - 1);
      var f, g, s := RunStep(fs, steps, n - 1);
      assert PoolBooked(f, g, s, b) && PoolOk(g.pool[b]);
    }
  }

  // A run in which holds are filled by mining only.
  ghost predicate MiningOnly(fs: seq<Field>, steps: seq<Step>)
    requires |fs| == |steps| + 1
  {
    forall i: nat :: i < |steps| ==> NoTradeAt(fs, steps, i)
  }

  ghost predicate NoTradeAt(fs: seq<Field>, steps: seq<Step>, i: nat)
    requires i < |steps| < |fs|
  {
    NoTrade(fs[i], fs[i + 1], steps[i])
  }

  lemma MiningStep(fs: seq<Field>, steps: seq<Step>, i: nat) returns (f: Field, g: Field, s: Step)
    requires Run(fs, steps) && MiningOnly(fs, steps) && i < |steps|
    ensures f == fs[i] && g == fs[i + 1] && s == steps[i] && FieldOk(f) && StepOk(f, g, s)
    ensures PoolsBooked(f, g, s) && HoldsBooked(f, g, s)
  {
    f, g, s := RunStep(fs, steps, i);
    assert NoTradeAt(fs, steps, i);
  }

  // There every hold gains exactly what its unit's events say, never past its capacity.
  lemma {:induction false} HoldsConserved(fs: seq<Field>, steps: seq<Step>, u: nat, c: nat, n: nat)
    requires Run(fs, steps) && MiningOnly(fs, steps) && n <= |steps| && u in fs[0].hold && c < COMMODITY_COUNT
    ensures u in fs[n].hold && Stocked(fs[0].hold[u]) && Stocked(fs[n].hold[u])
    ensures fs[n].hold[u].units[c] == fs[0].hold[u].units[c] + LandedSoFar(steps, u, c, n)
    ensures NotOverfilled(fs[0].hold[u], fs[n].hold[u])
  {
    if n > 0 {
      HoldsConserved(fs, steps, u, c, n - 1);
      var f, g, s := MiningStep(fs, steps, n - 1);
      assert HoldBooked(f, g, s, u, c);
    }
  }

  // ---------------------------------------------------------------------------
  // Which ore
  // ---------------------------------------------------------------------------

  // Some turn among the first n drew on b with a stale rock.
  ghost predicate StaleDraw(fs: seq<Field>, steps: seq<Step>, b: nat, n: nat)
    requires n <= |steps| < |fs|
  {
    exists i: nat :: i < n && StaleDrawAt(fs, steps, b, i)
  }

  predicate StaleDrawAt(fs: seq<Field>, steps: seq<Step>, b: nat, i: nat)
    requires i < |steps| < |fs|
  {
    Draws(fs[i], steps[i], b) && StaleRock(fs[i], steps[i].unit)
  }

  lemma StepOre(f: Field, g: Field, s: Step, b: nat)
    requires FieldOk(f) && OreMatches(f) && StepOk(f, g, s) && PoolsBooked(f, g, s) && b in f.pool
    ensures DrawnOre(f, s, b, f.pool[b].commodity) <= Drawn(f, s, b)
    ensures DrawnOre(f, s, b, f.pool[b].commodity) == Drawn(f, s, b)
       <==> !(Draws(f, s, b) && StaleRock(f, s.unit))
  {
    if Draws(f, s, b) {
      TurnOreExactly(f, g, s.unit, s.event, s.emptied);
    }
  }

  lemma StepOreAt(fs: seq<Field>, steps: seq<Step>, b: nat, i: nat)
    requires Run(fs, steps) && OreMatches(fs[0]) && i < |steps| && b in fs[0].pool
    ensures var (mined, ore) := (Drawn(fs[i], steps[i], b), DrawnOre(fs[i], steps[i], b, fs[0].pool[b].commodity));
            ore <= mined && (ore == mined <==> !StaleDrawAt(fs, steps, b, i))
  {
    var f, g, s := RunStep(fs, steps, i);
    RunKeeps(fs, steps, i);
    PoolsConserved(fs, steps, b, i);
    StepOre(f, g, s, b);
  }

  // Over any run, what a belt loses arrives in the holds as the belt's own ore exactly when
  // no unit began a turn in which it drew on the belt with a stale rock.
  lemma {:induction false} OwnOreExactly(fs: seq<Field>, steps: seq<Step>, b: nat, n: nat)
    requires Run(fs, steps) && OreMatches(fs[0]) && n <= |steps| && b in fs[0].pool
    ensures var ore := fs[0].pool[b].commodity;
            && OreSoFar(fs, steps, b, ore, n) <= MinedSoFar(fs, steps, b, n)
            && (OreSoFar(fs, steps, b, ore, n) == MinedSoFar(fs, steps, b, n) <==> !StaleDraw(fs, steps, b, n))
  {
    if n > 0 {
      OwnOreExactly(fs, steps, b, n - 1);
      StepOreAt(fs, steps, b, n - 1);
      StaleDrawSnoc(fs, steps, b, n);
    }
  }

  lemma StaleDrawSnoc(fs: seq<Field>, steps: seq<Step>, b: nat, n: nat)
    requires 0 < n <= |steps| < |fs|
    ensures StaleDraw(fs, steps, b, n) <==> StaleDraw(fs, steps, b, n - 1) || StaleDrawAt(fs, steps, b, n - 1)
  {
  }

  // ---------------------------------------------------------------------------
  // All holds and all pools together
  // ---------------------------------------------------------------------------

  // One commodity in every hold, and in every pool.
  ghost function InHolds(f: Field, c: nat): map<nat, int>
    requires FieldOk(f) && c < COMMODITY_COUNT
  {
    map u | u in f.hold :: f.hold[u].units[c]
  }

  ghost function InPools(f: Field, c: nat): map<nat, int> {
    map b | b in f.pool :: if f.pool[b].commodity == c then f.pool[b].units else 0
  }

  ghost function InAll(f: Field, c: nat): int
    requires FieldOk(f) && c < COMMODITY_COUNT
  {
    Sum(InHolds(f, c)) + Sum(InPools(f, c))
  }

  // What one step regrows of it, over every pool.
  ghost function Gains(f: Field, s: Step, c: nat): map<nat, int> {
    map b | b in f.pool :: if f.pool[b].commodity == c then Gain(f, s, b) else 0
  }

  ghost function RegrownOre(fs: seq<Field>, steps: seq<Step>, c: nat, n: nat): int
    requires n <= |steps| < |fs|
  {
    if n == 0 then 0 else RegrownOre(fs, steps, c, n - 1) + Sum(Gains(fs[n - 1], steps[n - 1], c))
  }

  // An extraction from a belt with a pool, with no stale rock.
  predicate Clean(f: Field, s: Step) {
    Extracts(s) ==> HasPool(f, BeltOf(f, s.unit)) && !StaleRock(f, s.unit)
  }

  // What an extraction adds to holds and takes from pools of one commodity.
  function Loads(s: Step, c: nat): int {
    if Extracts(s) && s.event.value.commodity == c then s.event.value.units else 0
  }

  function Taken(f: Field, s: Step, c: nat): int {
    if Extracts(s) && HasPool(f, BeltOf(f, s.unit)) && f.pool[BeltOf(f, s.unit).value].commodity == c
    then s.event.value.units else 0
  }

  lemma HoldsStep(f: Field, g: Field, s: Step, c: nat)
    requires PoolsBooked(f, g, s) && HoldsBooked(f, g, s) && c < COMMODITY_COUNT
    ensures Sum(InHolds(g, c)) == Sum(InHolds(f, c)) + Loads(s, c)
  {
    var was, now := HoldsMove(f, g, s, c);
    if Extracts(s) {
      SumUpdate(was, s.unit, was[s.unit] + Loads(s, c));
    }
  }

  lemma HoldsMove(f: Field, g: Field, s: Step, c: nat) returns (was: map<nat, int>, now: map<nat, int>)
    requires PoolsBooked(f, g, s) && HoldsBooked(f, g, s) && c < COMMODITY_COUNT
    ensures was == InHolds(f, c) && now == InHolds(g, c)
    ensures Extracts(s) ==> s.unit in was
    ensures now == if Extracts(s) then was[s.unit := was[s.unit] + Loads(s, c)] else was
  {
    was, now := InHolds(f, c), InHolds(g, c);
    forall u | u in f.hold
      ensures now[u] == was[u] + Landed(s, u, c)
    {
      assert HoldBooked(f, g, s, u, c);
    }
  }

  // One pool's entry after a step.
  ghost function Moved(f: Field, s: Step, c: nat, b: nat): int
    requires b in f.pool
  {
    if f.pool[b].commodity == c then f.pool[b].units + Gain(f, s, b) - Drawn(f, s, b) else 0
  }

  lemma PoolsMove(f: Field, g: Field, s: Step, c: nat) returns (pools: map<nat, int>)
    requires PoolsBooked(f, g, s)
    ensures pools == InPools(g, c) && pools == map b | b in f.pool :: Moved(f, s, c, b)
  {
    pools := InPools(g, c);
    forall b | b in f.pool
      ensures pools[b] == Moved(f, s, c, b)
    {
      assert PoolBooked(f, g, s, b);
    }
  }

  lemma PoolsStep(f: Field, g: Field, s: Step, c: nat)
    requires PoolsBooked(f, g, s)
    ensures Sum(InPools(g, c)) == Sum(InPools(f, c)) + Sum(Gains(f, s, c)) - Taken(f, s, c)
  {
    var pools := PoolsMove(f, g, s, c);
    if Extracts(s) {
      ExtractionMoves(f, s, c, pools);
    } else {
      SumAdds(InPools(f, c), Gains(f, s, c), pools);
    }
  }

  lemma ExtractionMoves(f: Field, s: Step, c: nat, pools: map<nat, int>)
    requires Extracts(s) && pools == map b | b in f.pool :: Moved(f, s, c, b)
    ensures Sum(pools) == Sum(InPools(f, c)) + Sum(Gains(f, s, c)) - Taken(f, s, c)
  {
    SumZero(Gains(f, s, c));
    var belt := BeltOf(f, s.unit);
    if HasPool(f, belt) {
      var b := belt.value;
      assert pools == InPools(f, c)[b := InPools(f, c)[b] - Taken(f, s, c)];
      SumUpdate(InPools(f, c), b, InPools(f, c)[b] - Taken(f, s, c));
    } else {
      assert pools == InPools(f, c);
    }
  }

  lemma AllStep(f: Field, g: Field, s: Step, c: nat)
    requires PoolsBooked(f, g, s) && HoldsBooked(f, g, s) && c < COMMODITY_COUNT
    ensures InAll(g, c) == InAll(f, c) + Sum(Gains(f, s, c)) + Loads(s, c) - Taken(f, s, c)
  {
    HoldsStep(f, g, s, c);
    PoolsStep(f, g, s, c);
  }

  // A clean step takes exactly what it loads, of every commodity; any other does not.
  lemma CleanBalances(f: Field, s: Step)
    requires Extracts(s) ==> s.event.value.units > 0 && s.event.value.commodity < COMMODITY_COUNT
    ensures (Extracts(s) ==> HasPool(f, BeltOf(f, s.unit)) && OwnOre(f, BeltOf(f, s.unit), s.event))
       <==> forall c: nat :: c < COMMODITY_COUNT ==> Loads(s, c) == Taken(f, s, c)
  {
    if Extracts(s) {
      assert Loads(s, s.event.value.commodity) > 0;
    }
  }

  lemma CleanExactly(f: Field, g: Field, s: Step)
    requires FieldOk(f) && OreMatches(f) && StepOk(f, g, s) && PoolsBooked(f, g, s)
    ensures Clean(f, s) <==> forall c: nat :: c < COMMODITY_COUNT ==> Loads(s, c) == Taken(f, s, c)
  {
    CleanBalances(f, s);
    if Extracts(s) {
      TurnOreExactly(f, g, s.unit, s.event, s.emptied);
    }
  }

  // The total of one commodity after n steps is the initial one and what regrew.
  ghost predicate TotalKept(fs: seq<Field>, steps: seq<Step>, c: nat, n: nat)
    requires n <= |steps| < |fs| && c < COMMODITY_COUNT
  {
    FieldOk(fs[0]) && FieldOk(fs[n]) && InAll(fs[n], c) == InAll(fs[0], c) + RegrownOre(fs, steps, c, n)
  }

  ghost predicate AllKept(fs: seq<Field>, steps: seq<Step>, n: nat)
    requires n <= |steps| < |fs|
  {
    forall c: nat :: c < COMMODITY_COUNT ==> TotalKept(fs, steps, c, n)
  }

  // Where holds are filled by mining only, what is in all holds and all pools together changes
  // only by regrowth, of every commodity
  // and at every point of a run, exactly when every extraction in it is clean.
  lemma {:induction false} OreConservedExactly(fs: seq<Field>, steps: seq<Step>, n: nat)
    requires Run(fs, steps) && MiningOnly(fs, steps) && OreMatches(fs[0]) && n <= |steps|
    ensures (forall m: nat :: m <= n ==> AllKept(fs, steps, m)) <==> (forall i: nat :: i < n ==> Clean(fs[i], steps[i]))
  {
    if n == 0 {
      assert AllKept(fs, steps, 0);
    } else {
      OreConservedExactly(fs, steps, n - 1);
      if AllKept(fs, steps, n - 1) {
        KeptStep(fs, steps, n - 1);
      }
    }
  }

  // A step that balances, commodity by commodity, and only such a step, keeps all totals.
  lemma KeptStep(fs: seq<Field>, steps: seq<Step>, n: nat)
    requires Run(fs, steps) && MiningOnly(fs, steps) && OreMatches(fs[0]) && n < |steps| && AllKept(fs, steps, n)
    ensures AllKept(fs, steps, n + 1) <==> Clean(fs[n], steps[n])
  {
    var f, g, s := MiningStep(fs, steps, n);
    RunKeeps(fs, steps, n);
    CleanExactly(f, g, s);
    forall c: nat | c < COMMODITY_COUNT
      ensures TotalKept(fs, steps, c, n + 1) <==> Loads(s, c) == Taken(f, s, c)
    {
      TotalStep(fs, steps, c, n);
    }
    if !AllKept(fs, steps, n + 1) {
      var c: nat :| c < COMMODITY_COUNT && !TotalKept(fs, steps, c, n + 1);
      assert Loads(s, c) != Taken(f, s, c);
    }
  }

  lemma TotalStep(fs: seq<Field>, steps: seq<Step>, c: nat, n: nat)
    requires Run(fs, steps) && MiningOnly(fs, steps) && n < |steps| && c < COMMODITY_COUNT && TotalKept(fs, steps, c, n)
    ensures TotalKept(fs, steps, c, n + 1) <==> Loads(steps[n], c) == Taken(fs[n], steps[n], c)
  {
    var f, g, s := MiningStep(fs, steps, n);
    AllStep(f, g, s, c);
  }

  // One commodity, in one hold and one pool together.
  ghost function Amount(f: Field, u: nat, b: nat, c: nat): int
    requires u in f.hold && Stocked(f.hold[u]) && b in f.pool && c < COMMODITY_COUNT
  {
    f.hold[u].units[c] + if f.pool[b].commodity == c then f.pool[b].units else 0
  }

  // One cut, for a unit working belt b: pool and hold together keep every commodity exactly
  // when the rock is of the belt's ore.
  lemma CutConservesExactly(f: Field, self: nat, rock: nat, b: nat)
    requires Cutting(f, self, rock) && b in f.pool && Cut(f, self, rock, Some(b)).1.Some?
    ensures var g := Cut(f, self, rock, Some(b)).0;
            && self in g.hold && b in g.pool && Stocked(g.hold[self])
            && ((forall c: nat :: c < COMMODITY_COUNT ==> Amount(g, self, b, c) == Amount(f, self, b, c))
                <==> f.ore[rock].commodity == f.pool[b].commodity)
  {
    var g, event := CutOk(f, self, rock, Some(b));
    CutOreOf(f, self, rock, Some(b));
    var e := event.value;
    assert Amount(g, self, b, e.commodity) == Amount(f, self, b, e.commodity)
             + e.units - if f.pool[b].commodity == e.commodity then e.units else 0;
  }
}
