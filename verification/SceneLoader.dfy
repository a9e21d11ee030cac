// Scenes loaded from their rows (MaterializeScenePoi of SceneSystem.h, called by
// WorldBuilder.cpp), and what a restart keeps of the belts.
module SceneLoader {
  import opened SpatialGrid
  import opened Cargo
  import opened SceneSystem
  import opened BeltOre
  import opened MiningLedger

  datatype PoiRow = PoiRow(poiId: nat, belt: bool, at: Vec, radius: int, seed: nat, commodity: nat, richness: int, enabled: bool)

  function Baseline(row: PoiRow): int {
    if row.richness > 0 then row.richness else 0
  }

  // The units the belt's pool is loaded with: the saved ones, or its baseline.
  function SavedUnits(row: PoiRow, saved: map<nat, int>): int {
    if row.poiId in saved then saved[row.poiId] else Baseline(row)
  }

  // The pool they come back as.
  function LoadedPool(row: PoiRow, saved: map<nat, int>): PoiResources {
    PoiResources(Reloaded(SavedUnits(row, saved), Baseline(row)), Baseline(row), row.commodity)
  }

  function Anchor(row: PoiRow): ScenePoi {
    ScenePoi(row.poiId, row.belt, row.seed, row.radius)
  }

  // ---------------------------------------------------------------------------
  // One row
  // ---------------------------------------------------------------------------

  // Rocks belong to belts that are still there.
  ghost predicate AnchorsLive(f: Field) {
    forall r :: r in f.ore && f.ore[r].beltAnchor.Some? ==> f.ore[r].beltAnchor.value in f.live
  }

  // The field with one more anchor, no rock scattered yet.
  ghost function Anchored(f: Field, e: nat, row: PoiRow, saved: map<nat, int>): Field {
    f.(live := f.live + {e}, position := f.position[e := row.at], poi := f.poi[e := Anchor(row)],
       pool := if row.belt then f.pool[e := LoadedPool(row, saved)] else f.pool)
  }

  ghost predicate SceneOk(f: Field) {
    FieldOk(f) && OreMatches(f) && AnchorsLive(f)
  }

  lemma AnchoredOk(f: Field, e: nat, row: PoiRow, saved: map<nat, int>)
    requires SceneOk(f) && e !in f.live && row.commodity < COMMODITY_COUNT
    ensures SceneOk(Anchored(f, e, row, saved)) && RocksOf(Anchored(f, e, row, saved), e) == map[]
  {
    assert PoolOk(LoadedPool(row, saved));
  }

  lemma RefilledOk(f: Field, g: Field, e: nat)
    requires SceneOk(f) && FieldOk(g) && Maintained(f, g, e)
    ensures SceneOk(g)
  {
    MaintainGrows(f, g, e);
    forall r | r in g.ore && g.ore[r].beltAnchor.Some?
      ensures g.ore[r].beltAnchor.value in g.live
    {
      if Maintainable(f, e) && r !in f.live {
        assert FreshRock(g, e, f.pool[e], r);
      }
    }
  }

  // What loading one row does: a new anchor, and for a belt its first field.
  ghost predicate RowLoaded(f: Field, g: Field, e: nat, row: PoiRow, saved: map<nat, int>) {
    && e !in f.live
    && if row.belt then Maintained(Anchored(f, e, row, saved), g, e) else g == Anchored(f, e, row, saved)
  }

  method MaterializeScenePoi(w: SceneWorld, row: PoiRow, saved: map<nat, int>, tick: nat) returns (anchor: nat)
    requires SceneOk(w.View()) && row.commodity < COMMODITY_COUNT
    modifies w
    ensures SceneOk(w.View()) && RowLoaded(old(w.View()), w.View(), anchor, row, saved)
  {
    ghost var f := w.View();
    anchor := w.Create();
    w.position := w.position[anchor := row.at];
    w.poi := w.poi[anchor := Anchor(row)];
    AnchoredOk(f, anchor, row, saved);
    if row.belt {
      var baseline := Baseline(row);
      var units := SavedUnits(row, saved);
      if units <= 0 {
        units := baseline;
      }
      if units > baseline {
        units := baseline;
      }
      w.pool := w.pool[anchor := PoiResources(units, baseline, row.commodity)];
      ghost var g := w.View();
      assert g == Anchored(f, anchor, row, saved);
      w.MaintainBeltRocks(anchor, tick);
      RefilledOk(g, w.View(), anchor);
    } else {
      assert w.View() == Anchored(f, anchor, row, saved);
    }
  }

  // A belt loaded where no rock lies yet begins with a first field.
  lemma LoadedBeltIsMaterialized(f: Field, g: Field, e: nat, row: PoiRow, saved: map<nat, int>)
    requires SceneOk(f) && RowLoaded(f, g, e, row, saved) && row.belt && row.commodity < COMMODITY_COUNT
    requires RocksInBox(f, row.at, row.radius) == {}
    ensures Materialized(Anchored(f, e, row, saved), g, e)
  {
    AnchoredOk(f, e, row, saved);
    assert RocksInBox(Anchored(f, e, row, saved), row.at, row.radius) == {};
  }

  // ---------------------------------------------------------------------------
  // All rows
  // ---------------------------------------------------------------------------

  function Enabled(rows: seq<PoiRow>): seq<PoiRow> {
    if rows == [] then [] else Enabled(rows[..|rows| - 1]) + if rows[|rows| - 1].enabled then [rows[|rows| - 1]] else []
  }

  ghost predicate RowsValid(rows: seq<PoiRow>) {
    forall i :: 0 <= i < |rows| ==> rows[i].commodity < COMMODITY_COUNT
  }

  // The anchor of a row, as it was loaded.
  ghost predicate Stands(f: Field, e: nat, row: PoiRow, saved: map<nat, int>) {
    && e in f.live && e in f.poi && f.poi[e] == Anchor(row) && e in f.position && f.position[e] == row.at
    && if row.belt then e in f.pool && f.pool[e] == LoadedPool(row, saved) else e !in f.pool
  }

  ghost predicate AllStand(f: Field, anchors: seq<nat>, rows: seq<PoiRow>, saved: map<nat, int>) {
    && |anchors| == |rows|
    && (forall i :: 0 <= i < |rows| ==> Stands(f, anchors[i], rows[i], saved))
    && (forall i, j :: 0 <= i < j < |rows| ==> anchors[i] != anchors[j])
  }

  lemma RowStands(f: Field, g: Field, e: nat, row: PoiRow, saved: map<nat, int>)
    requires SceneOk(f) && RowLoaded(f, g, e, row, saved) && row.commodity < COMMODITY_COUNT
    ensures Stands(g, e, row, saved)
  {
    AnchoredOk(f, e, row, saved);
  }

  lemma StillStands(f: Field, g: Field, e: nat, row: PoiRow, saved: map<nat, int>, d: nat, other: PoiRow)
    requires SceneOk(f) && RowLoaded(f, g, e, row, saved) && Stands(f, d, other, saved)
    ensures Stands(g, d, other, saved) && d != e
  {
  }

  lemma OneMoreStands(f: Field, g: Field, e: nat, row: PoiRow, saved: map<nat, int>, anchors: seq<nat>, rows: seq<PoiRow>)
    requires SceneOk(f) && RowLoaded(f, g, e, row, saved) && row.commodity < COMMODITY_COUNT && AllStand(f, anchors, rows, saved)
    ensures AllStand(g, anchors + [e], rows + [row], saved)
  {
    RowStands(f, g, e, row, saved);
    forall i | 0 <= i < |rows|
      ensures Stands(g, anchors[i], rows[i], saved) && anchors[i] != e
    {
      StillStands(f, g, e, row, saved, anchors[i], rows[i]);
    }
  }

  // Every enabled row in turn.
  method LoadScenes(w: SceneWorld, rows: seq<PoiRow>, saved: map<nat, int>) returns (anchors: seq<nat>)
    requires SceneOk(w.View()) && RowsValid(rows)
    modifies w
    ensures SceneOk(w.View()) && AllStand(w.View(), anchors, Enabled(rows), saved)
  {
    anchors := [];
    var i := 0;
    while i < |rows|
      invariant 0 <= i <= |rows| && SceneOk(w.View()) && AllStand(w.View(), anchors, Enabled(rows[..i]), saved)
    {
      anchors := LoadRow(w, rows[i], saved, anchors, Enabled(rows[..i]));
      assert rows[..i + 1][..i] == rows[..i];
      i := i + 1;
    }
    assert rows[..i] == rows;
  }

  method LoadRow(w: SceneWorld, row: PoiRow, saved: map<nat, int>, anchors: seq<nat>, ghost rows: seq<PoiRow>)
    returns (anchors': seq<nat>)
    requires SceneOk(w.View()) && row.commodity < COMMODITY_COUNT && AllStand(w.View(), anchors, rows, saved)
    modifies w
    ensures SceneOk(w.View()) && AllStand(w.View(), anchors', if row.enabled then rows + [row] else rows, saved)
  {
    anchors' := anchors;
    if row.enabled {
      ghost var f := w.View();
      var anchor := MaterializeScenePoi(w, row, saved, 0);
      OneMoreStands(f, w.View(), anchor, row, saved, anchors, rows);
      anchors' := anchors + [anchor];
    }
  }

  // ---------------------------------------------------------------------------
  // A restart
  // ---------------------------------------------------------------------------

  // What a save of the belts of this field writes.
  ghost predicate Saved(f: Field, anchors: seq<nat>, rows: seq<PoiRow>, saved: map<nat, int>)
    requires |anchors| == |rows|
  {
    forall i :: 0 <= i < |rows| && rows[i].belt ==>
      anchors[i] in f.pool && rows[i].poiId in saved && saved[rows[i].poiId] == f.pool[anchors[i]].units
  }

  // The scenes are loaded, the server runs, the belts are saved, and the scenes are loaded
  // again: each belt's pool is what it was, exactly unless it had been mined dry.
  lemma RestartExactly(rows: seq<PoiRow>, anchors: seq<nat>, first: map<nat, int>, fs: seq<Field>, steps: seq<Step>,
                       saved: map<nat, int>, g: Field, again: seq<nat>, i: nat)
    requires Run(fs, steps) && AllStand(fs[0], anchors, rows, first)
    requires Saved(fs[|steps|], anchors, rows, saved) && AllStand(g, again, rows, saved)
    requires i < |rows| && rows[i].belt
    ensures again[i] in g.pool && anchors[i] in fs[|steps|].pool
    ensures g.pool[again[i]] == fs[|steps|].pool[anchors[i]]
       <==> fs[|steps|].pool[anchors[i]].units > 0 || Baseline(rows[i]) == 0
  {
    assert Stands(fs[0], anchors[i], rows[i], first) && Stands(g, again[i], rows[i], saved);
    PoolsConserved(fs, steps, anchors[i], |steps|);
    PoolSurvivesReload(fs[|steps|].pool[anchors[i]].units, Baseline(rows[i]));
  }
}
