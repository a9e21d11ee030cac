// SceneTemplates.h: template choice and the rejection sampling that places a system's scene.
module SceneTemplates {
  import opened Integers
  import opened SpatialGrid

  const POI_BAND_MIN: int := 120000
  const POI_BAND_MAX: int := 900000
  const POI_MIN_SEPARATION: int := 80000
  const POI_PLACE_ATTEMPTS: nat := 64

  datatype PoiKind = NavBeacon | AsteroidBelt | EncounterSite | SalvageField

  datatype PoiSpec = PoiSpec(kind: PoiKind, countMin: nat, countMax: nat, radius: int, commodity: nat, richness: int,
                             encounterDef: nat, nearSun: bool)

  datatype Range = Range(lo: int, hi: int)

  datatype SceneTemplate = SceneTemplate(id: nat, econ: Range, gov: Range, tech: Range, priority: nat, pois: seq<PoiSpec>)

  datatype PlanetData = PlanetData(economy: int, government: int, techLevel: int)

  datatype PlacedPoi = PlacedPoi(kind: PoiKind, position: Vec, radius: int, seed: nat, commodity: nat, richness: int,
                                 encounterDef: nat, templateId: nat)

  // ---------------------------------------------------------------------------
  // Choosing a template
  // ---------------------------------------------------------------------------

  predicate In(v: int, r: Range) {
    r.lo <= v <= r.hi
  }

  predicate Matches(t: SceneTemplate, p: PlanetData) {
    In(p.economy, t.econ) && In(p.government, t.gov) && In(p.techLevel, t.tech)
  }

  // t outranks u: higher priority, or the lower id at the same priority.
  predicate Outranks(t: SceneTemplate, u: SceneTemplate) {
    t.priority > u.priority || (t.priority == u.priority && t.id < u.id)
  }

  // The best match of a table whose first entry is the floor.
  method MatchTemplate(table: seq<SceneTemplate>, p: PlanetData) returns (best: SceneTemplate)
    requires table != []
    ensures best in table && (best == table[0] || Matches(best, p))
    ensures forall t :: t in table && Matches(t, p) ==> !Outranks(t, best)
  {
    best := table[0];
    var i := 0;
    while i < |table|
      invariant 0 <= i <= |table|
      invariant best in table && (best == table[0] || Matches(best, p))
      invariant forall k :: 0 <= k < i && Matches(table[k], p) ==> !Outranks(table[k], best)
    {
      var t := table[i];
      if Matches(t, p) && (t.priority > best.priority || (t.priority == best.priority && t.id < best.id)) {
        best := t;
      }
      i := i + 1;
    }
  }

  const ORE: nat := 12
  const ANY7: Range := Range(0, 7)
  const ANY15: Range := Range(0, 15)

  // SCENE_TEMPLATES
  function Shipped(): seq<SceneTemplate> {
    [SceneTemplate(0, ANY7, ANY7, ANY15, 0,
                   [PoiSpec(AsteroidBelt, 1, 1, 12000, ORE, 2000, 0, false), PoiSpec(NavBeacon, 1, 1, 4000, 0, 0, 0, false)]),
     SceneTemplate(1, Range(5, 7), ANY7, ANY15, 3,
                   [PoiSpec(AsteroidBelt, 2, 3, 14000, ORE, 4000, 0, false), PoiSpec(NavBeacon, 1, 1, 4000, 0, 0, 0, false),
                    PoiSpec(EncounterSite, 1, 1, 20000, 0, 0, 1, false)]),
     SceneTemplate(2, Range(0, 2), ANY7, Range(9, 15), 4,
                   [PoiSpec(AsteroidBelt, 1, 1, 10000, 1, 1500, 0, true), PoiSpec(SalvageField, 1, 1, 8000, 0, 0, 0, false),
                    PoiSpec(NavBeacon, 1, 1, 4000, 0, 0, 0, false)]),
     SceneTemplate(3, ANY7, Range(0, 1), ANY15, 5,
                   [PoiSpec(AsteroidBelt, 1, 2, 12000, ORE, 1200, 0, false), PoiSpec(EncounterSite, 2, 2, 20000, 0, 0, 2, false)]),
     SceneTemplate(4, ANY7, Range(6, 7), ANY15, 4,
                   [PoiSpec(AsteroidBelt, 1, 1, 10000, ORE, 900, 0, false), PoiSpec(NavBeacon, 1, 1, 4000, 0, 0, 0, false),
                    PoiSpec(EncounterSite, 1, 1, 20000, 0, 0, 3, false)])]
  }

  // Every system the galaxy generates matches at least the floor, one template outranks
  // all its other matches, and every shipped spec has its bounds in order.
  lemma ShippedIsSound(p: PlanetData)
    requires 0 <= p.economy <= 7 && 0 <= p.government <= 7 && 0 <= p.techLevel <= 15
    ensures Matches(Shipped()[0], p)
    ensures forall t, u :: t in Shipped() && u in Shipped() ==> t == u || Outranks(t, u) || Outranks(u, t)
    ensures forall t :: t in Shipped() ==> |t.pois| <= 6 && forall k: nat :: k < |t.pois| ==> t.pois[k].countMin <= t.pois[k].countMax
  {
  }

  // ---------------------------------------------------------------------------
  // One slot
  // ---------------------------------------------------------------------------

  const WORD: nat := 0x1_0000_0000_0000_0000

  type Mix = nat -> nat

  // The candidate point of stream value s.
  function Candidate(mix: Mix, s: nat, centre: Vec): Vec {
    var h := mix(s);
    Vec(centre.x + Spread(mix((h + 1) % WORD), POI_BAND_MAX),
        centre.y + Spread(mix((h + 2) % WORD), POI_BAND_MAX),
        centre.z + Spread(mix((h + 3) % WORD), POI_BAND_MAX))
  }

  predicate InBand(p: Vec, centre: Vec) {
    POI_BAND_MIN * POI_BAND_MIN <= DistSq(p, centre) <= POI_BAND_MAX * POI_BAND_MAX
  }

  predicate Clear(p: Vec, q: Vec) {
    DistSq(p, q) >= POI_MIN_SEPARATION * POI_MIN_SEPARATION
  }

  ghost predicate Fits(p: Vec, centre: Vec, placed: seq<PlacedPoi>, avoid: seq<Vec>) {
    && InBand(p, centre)
    && (forall i :: 0 <= i < |placed| ==> Clear(p, placed[i].position))
    && (forall i :: 0 <= i < |avoid| ==> Clear(p, avoid[i]))
  }

  // ++stream, on 64 bits.
  function Tick(s: nat): nat {
    if s + 1 == WORD then 0 else s + 1
  }

  // The stream after k attempts.
  function After(s: nat, k: nat): nat
    decreases k
  {
    if k == 0 then s else After(Tick(s), k - 1)
  }

  // Where a slot's search ends: at the first fitting candidate, or with all attempts spent.
  datatype Found = Found(stream: nat, ok: bool)

  ghost function Seek(fits: nat -> bool, s: nat, left: nat): Found
    decreases left
  {
    if left == 0 then Found(s, false)
    else if fits(Tick(s)) then Found(Tick(s), true)
    else Seek(fits, Tick(s), left - 1)
  }

  // Which stream values give a fitting candidate.
  ghost function Fitting(mix: Mix, centre: Vec, placed: seq<PlacedPoi>, avoid: seq<Vec>): nat -> bool {
    (s: nat) => Fits(Candidate(mix, s, centre), centre, placed, avoid)
  }

  // A slot takes the first of its attempts that fits; it is dropped only if none does.
  lemma {:induction false} SeekFindsFirst(fits: nat -> bool, s: nat, left: nat) returns (b: nat)
    ensures var r := Seek(fits, s, left);
            if r.ok then
              && 0 < b <= left && r.stream == After(s, b) && fits(After(s, b))
              && forall a: nat :: 0 < a < b ==> !fits(After(s, a))
            else
              && r.stream == After(s, left)
              && forall a: nat :: 0 < a <= left ==> !fits(After(s, a))
    decreases left
  {
    b := 0;
    if left > 0 {
      var c := SeekFindsFirst(fits, Tick(s), left - 1);
      b := if fits(Tick(s)) then 1 else c + 1;
      assert After(s, 1) == Tick(s);
      forall a: nat | 1 < a
        ensures After(s, a) == After(Tick(s), a - 1)
      {
      }
    }
  }

  // ---------------------------------------------------------------------------
  // A whole scene
  // ---------------------------------------------------------------------------

  datatype Site = Site(mix: Mix, seed: nat, planet: Vec, sun: Vec, avoid: seq<Vec>, tmpl: SceneTemplate, attempts: nat)

  // Progress: the hash stream, the points so far, and which spec each came from.
  datatype Plan = Plan(stream: nat, placed: seq<PlacedPoi>, from: seq<nat>)

  function CentreOf(site: Site, si: nat): Vec
    requires si < |site.tmpl.pois|
  {
    if site.tmpl.pois[si].nearSun then site.sun else site.planet
  }

  function CountFor(site: Site, si: nat): nat
    requires si < |site.tmpl.pois|
  {
    var spec := site.tmpl.pois[si];
    var roll := site.mix((site.seed + 0x100 + si) % WORD);
    var span := spec.countMax - spec.countMin + 1;
    spec.countMin + roll % (if span < 1 then 1 else span)
  }

  // A roll stays between its bounds, and within countMax exactly when the bounds are in
  // order.
  lemma CountInBounds(site: Site, si: nat)
    requires si < |site.tmpl.pois|
    ensures var (spec, n) := (site.tmpl.pois[si], CountFor(site, si));
            && spec.countMin <= n
            && (n <= spec.countMax <==> spec.countMin <= spec.countMax)
  {
  }

  function PoiAt(site: Site, si: nat, s: nat): PlacedPoi
    requires si < |site.tmpl.pois|
  {
    var spec := site.tmpl.pois[si];
    PlacedPoi(spec.kind, Candidate(site.mix, s, CentreOf(site, si)), spec.radius,
              site.mix((site.mix(s) + 7) % WORD) % 0x1_0000_0000, spec.commodity, spec.richness, spec.encounterDef, site.tmpl.id)
  }

  ghost function PlaceOne(site: Site, plan: Plan, si: nat): Plan
    requires si < |site.tmpl.pois|
  {
    var found := Seek(Fitting(site.mix, CentreOf(site, si), plan.placed, site.avoid), plan.stream, site.attempts);
    if found.ok then Plan(found.stream, plan.placed + [PoiAt(site, si, found.stream)], plan.from + [si])
    else plan.(stream := found.stream)
  }

  ghost function PlaceSlots(site: Site, plan: Plan, si: nat, n: nat): Plan
    requires si < |site.tmpl.pois|
  {
    if n == 0 then plan else PlaceOne(site, PlaceSlots(site, plan, si, n - 1), si)
  }

  ghost function PlaceSpecs(site: Site, n: nat): Plan
    requires n <= |site.tmpl.pois|
  {
    if n == 0 then Plan(site.seed, [], []) else PlaceSlots(site, PlaceSpecs(site, n - 1), n - 1, CountFor(site, n - 1))
  }

  // Every point in the shell of its own centre, clear of every avoid point and of every
  // other point.
  ghost predicate WellPlaced(site: Site, plan: Plan) {
    && |plan.from| == |plan.placed|
    && (forall i :: 0 <= i < |plan.from| ==> plan.from[i] < |site.tmpl.pois|)
    && (forall i :: 0 <= i < |plan.placed| ==> InBand(plan.placed[i].position, CentreOf(site, plan.from[i])))
    && (forall i, a :: 0 <= i < |plan.placed| && 0 <= a < |site.avoid| ==> Clear(plan.placed[i].position, site.avoid[a]))
    && (forall i, j :: 0 <= i < j < |plan.placed| ==> Clear(plan.placed[j].position, plan.placed[i].position))
  }

  ghost predicate RightKind(site: Site, plan: Plan) {
    |plan.from| == |plan.placed|
    && forall i :: 0 <= i < |plan.placed| ==> plan.from[i] < |site.tmpl.pois| && Describes(plan.placed[i], site.tmpl.pois[plan.from[i]], site.tmpl.id)
  }

  ghost predicate Describes(p: PlacedPoi, spec: PoiSpec, id: nat) {
    p.kind == spec.kind && p.radius == spec.radius && p.commodity == spec.commodity && p.richness == spec.richness
    && p.encounterDef == spec.encounterDef && p.templateId == id
  }

  // Points a spec contributed.
  ghost function Contributed(from: seq<nat>, si: nat): nat {
    if from == [] then 0 else Contributed(from[..|from| - 1], si) + if from[|from| - 1] == si then 1 else 0
  }

  lemma ContributedMore(from: seq<nat>, k: nat, si: nat)
    ensures Contributed(from + [k], si) == Contributed(from, si) + if k == si then 1 else 0
  {
    assert (from + [k])[..|from|] == from;
  }

  lemma AddPoi(site: Site, plan: Plan, si: nat, stream: nat, p: PlacedPoi)
    requires si < |site.tmpl.pois| && WellPlaced(site, plan) && RightKind(site, plan)
    requires Fits(p.position, CentreOf(site, si), plan.placed, site.avoid) && Describes(p, site.tmpl.pois[si], site.tmpl.id)
    ensures var r := Plan(stream, plan.placed + [p], plan.from + [si]); WellPlaced(site, r) && RightKind(site, r)
  {
  }

  lemma PlaceOneOk(site: Site, plan: Plan, si: nat) returns (r: Plan)
    requires si < |site.tmpl.pois| && WellPlaced(site, plan) && RightKind(site, plan)
    ensures r == PlaceOne(site, plan, si) && WellPlaced(site, r) && RightKind(site, r)
  {
    r := PlaceOne(site, plan, si);
    var b := SeekFindsFirst(Fitting(site.mix, CentreOf(site, si), plan.placed, site.avoid), plan.stream, site.attempts);
    if r.from != plan.from {
      AddPoi(site, plan, si, r.stream, PoiAt(site, si, r.stream));
    }
  }

  // What one slot keeps, all slots of a spec keep.
  lemma {:induction false} SlotsKeep(site: Site, plan: Plan, si: nat, n: nat, keeps: Plan -> bool)
    requires si < |site.tmpl.pois| && keeps(plan)
    requires forall p :: keeps(p) ==> keeps(PlaceOne(site, p, si))
    ensures keeps(PlaceSlots(site, plan, si, n))
    decreases n
  {
    if n > 0 {
      SlotsKeep(site, plan, si, n - 1, keeps);
      assert keeps(PlaceOne(site, PlaceSlots(site, plan, si, n - 1), si));
    }
  }

  lemma PlaceSlotsOk(site: Site, plan: Plan, si: nat, n: nat) returns (r: Plan)
    requires si < |site.tmpl.pois| && WellPlaced(site, plan) && RightKind(site, plan)
    ensures r == PlaceSlots(site, plan, si, n) && WellPlaced(site, r) && RightKind(site, r)
  {
    forall p | WellPlaced(site, p) && RightKind(site, p)
      ensures WellPlaced(site, PlaceOne(site, p, si)) && RightKind(site, PlaceOne(site, p, si))
    {
      var _ := PlaceOneOk(site, p, si);
    }
    r := PlaceSlots(site, plan, si, n);
    SlotsKeep(site, plan, si, n, p => WellPlaced(site, p) && RightKind(site, p));
  }

  // For every seed, template, centre and avoid list, the geometry holds, and every point
  // carries its own spec.
  lemma {:induction false} SceneIsWellPlaced(site: Site, n: nat) returns (r: Plan)
    requires n <= |site.tmpl.pois|
    ensures r == PlaceSpecs(site, n) && WellPlaced(site, r) && RightKind(site, r)
  {
    r := Plan(site.seed, [], []);
    if n > 0 {
      r := SceneIsWellPlaced(site, n - 1);
      r := PlaceSlotsOk(site, r, n - 1, CountFor(site, n - 1));
    }
  }

  lemma OneContributes(site: Site, plan: Plan, si: nat, k: nat) returns (r: Plan)
    requires si < |site.tmpl.pois|
    ensures r == PlaceOne(site, plan, si)
    ensures Contributed(r.from, k) <= Contributed(plan.from, k) + if k == si then 1 else 0
  {
    r := PlaceOne(site, plan, si);
    ContributedMore(plan.from, si, k);
  }

  // What each slot adds at most one to, n slots add at most n to.
  lemma {:induction false} SlotsGrow(site: Site, plan: Plan, si: nat, n: nat, measure: Plan -> nat, counts: bool)
    requires si < |site.tmpl.pois|
    requires forall p :: measure(PlaceOne(site, p, si)) <= measure(p) + if counts then 1 else 0
    ensures measure(PlaceSlots(site, plan, si, n)) <= measure(plan) + if counts then n else 0
    decreases n
  {
    if n > 0 {
      SlotsGrow(site, plan, si, n - 1, measure, counts);
      assert measure(PlaceOne(site, PlaceSlots(site, plan, si, n - 1), si))
          <= measure(PlaceSlots(site, plan, si, n - 1)) + if counts then 1 else 0;
    }
  }

  lemma SlotsContribute(site: Site, plan: Plan, si: nat, n: nat, k: nat) returns (r: Plan)
    requires si < |site.tmpl.pois|
    ensures r == PlaceSlots(site, plan, si, n)
    ensures Contributed(r.from, k) <= Contributed(plan.from, k) + if k == si then n else 0
  {
    r := PlaceSlots(site, plan, si, n);
    forall p: Plan
      ensures Contributed(PlaceOne(site, p, si).from, k) <= Contributed(p.from, k) + if k == si then 1 else 0
    {
      var _ := OneContributes(site, p, si, k);
    }
    SlotsGrow(site, plan, si, n, (p: Plan) => Contributed(p.from, k), k == si);
  }

  // And no spec contributes more points than it rolled.
  lemma {:induction false} SpecsContribute(site: Site, n: nat, k: nat) returns (r: Plan)
    requires n <= |site.tmpl.pois|
    ensures r == PlaceSpecs(site, n)
    ensures Contributed(r.from, k) <= if k < n then CountFor(site, k) else 0
  {
    r := Plan(site.seed, [], []);
    if n > 0 {
      var before := SpecsContribute(site, n - 1, k);
      r := SlotsContribute(site, before, n - 1, CountFor(site, n - 1), k);
    }
  }

  // When every spec's bounds are in order, as in the shipped templates, no spec places more
  // than its countMax.
  lemma WithinCountMax(site: Site, si: nat)
    requires si < |site.tmpl.pois| && site.tmpl.pois[si].countMin <= site.tmpl.pois[si].countMax
    ensures Contributed(PlaceSpecs(site, |site.tmpl.pois|).from, si) <= site.tmpl.pois[si].countMax
  {
    var r := SpecsContribute(site, |site.tmpl.pois|, si);
    CountInBounds(site, si);
  }

  // One slot's attempts.
  method TryPlace(site: Site, si: nat, stream: nat, placed: seq<PlacedPoi>, attempts: nat) returns (s: nat, ok: bool)
    requires si < |site.tmpl.pois|
    ensures Found(s, ok) == Seek(Fitting(site.mix, CentreOf(site, si), placed, site.avoid), stream, attempts)
  {
    s, ok := SeekFit(site.mix, CentreOf(site, si), placed, site.avoid, stream, attempts);
  }

  method SeekFit(mix: Mix, centre: Vec, placed: seq<PlacedPoi>, avoid: seq<Vec>, stream: nat, attempts: nat)
    returns (s: nat, ok: bool)
    ensures Found(s, ok) == Seek(Fitting(mix, centre, placed, avoid), stream, attempts)
  {
    s, ok := stream, false;
    for attempt := 0 to attempts
      invariant !ok && Seek(Fitting(mix, centre, placed, avoid), stream, attempts)
                    == Seek(Fitting(mix, centre, placed, avoid), s, attempts - attempt)
    {
      s, ok := Attempt(mix, s, centre, placed, avoid, attempts - attempt);
      if ok {
        return;
      }
    }
  }

  // One attempt, with `left` of them to go.
  method Attempt(mix: Mix, stream: nat, centre: Vec, placed: seq<PlacedPoi>, avoid: seq<Vec>, ghost left: nat)
    returns (s: nat, ok: bool)
    requires left > 0
    ensures s == Tick(stream)
    ensures var fits := Fitting(mix, centre, placed, avoid);
            Seek(fits, stream, left) == if ok then Found(s, true) else Seek(fits, s, left - 1)
  {
    s := Tick(stream);
    ok := TestCandidate(mix, s, centre, placed, avoid);
  }

  method TestCandidate(mix: Mix, s: nat, centre: Vec, placed: seq<PlacedPoi>, avoid: seq<Vec>) returns (fits: bool)
    ensures fits == Fitting(mix, centre, placed, avoid)(s)
  {
    var cand := Candidate(mix, s, centre);
    var bandSq := DistSq(cand, centre);
    if bandSq < POI_BAND_MIN * POI_BAND_MIN || bandSq > POI_BAND_MAX * POI_BAND_MAX {
      return false;
    }
    fits := IsClear(cand, placed, avoid);
  }

  method IsClear(cand: Vec, placed: seq<PlacedPoi>, avoid: seq<Vec>) returns (free: bool)
    ensures free <==> (forall i :: 0 <= i < |placed| ==> Clear(cand, placed[i].position))
                      && (forall i :: 0 <= i < |avoid| ==> Clear(cand, avoid[i]))
  {
    for i := 0 to |placed|
      invariant forall k :: 0 <= k < i ==> Clear(cand, placed[k].position)
    {
      if DistSq(cand, placed[i].position) < POI_MIN_SEPARATION * POI_MIN_SEPARATION {
        return false;
      }
    }
    for i := 0 to |avoid|
      invariant forall k :: 0 <= k < i ==> Clear(cand, avoid[k])
    {
      if DistSq(cand, avoid[i]) < POI_MIN_SEPARATION * POI_MIN_SEPARATION {
        return false;
      }
    }
    return true;
  }

  method PlaceSpec(site: Site, si: nat, start: nat, before: seq<PlacedPoi>, ghost beforeFrom: seq<nat>)
    returns (stream: nat, placed: seq<PlacedPoi>, ghost from: seq<nat>)
    requires si < |site.tmpl.pois|
    ensures var plan := PlaceSlots(site, Plan(start, before, beforeFrom), si, CountFor(site, si));
            stream == plan.stream && placed == plan.placed && from == plan.from
  {
    stream, placed, from := start, before, beforeFrom;
    var count := CountFor(site, si);
    for n := 0 to count
      invariant Plan(stream, placed, from) == PlaceSlots(site, Plan(start, before, beforeFrom), si, n)
    {
      var s, ok := TryPlace(site, si, stream, placed, site.attempts);
      stream := s;
      if ok {
        placed, from := placed + [PoiAt(site, si, s)], from + [si];
      }
    }
  }

  // The specs of a template in turn; `from` remembers which one each point came from.
  method PlaceSite(site: Site) returns (placed: seq<PlacedPoi>, ghost from: seq<nat>)
    ensures placed == PlaceSpecs(site, |site.tmpl.pois|).placed && from == PlaceSpecs(site, |site.tmpl.pois|).from
  {
    var stream := site.seed;
    placed, from := [], [];
    for si := 0 to |site.tmpl.pois|
      invariant Plan(stream, placed, from) == PlaceSpecs(site, si)
    {
      stream, placed, from := PlaceSpec(site, si, stream, placed, from);
    }
  }

  // PlaceScene.
  method PlaceScene(mix: Mix, sceneSeed: nat, planet: Vec, sun: Vec, avoid: seq<Vec>, tmpl: SceneTemplate)
    returns (placed: seq<PlacedPoi>)
    ensures var site := Site(mix, sceneSeed, planet, sun, avoid, tmpl, POI_PLACE_ATTEMPTS);
            var plan := PlaceSpecs(site, |tmpl.pois|);
            placed == plan.placed && WellPlaced(site, plan) && RightKind(site, plan)
  {
    var site := Site(mix, sceneSeed, planet, sun, avoid, tmpl, POI_PLACE_ATTEMPTS);
    ghost var from;
    placed, from := PlaceSite(site);
    ghost var plan := SceneIsWellPlaced(site, |tmpl.pois|);
  }
}
