// The uniform cell index of NeuronCore/SpatialGrid.h over integer points.
module SpatialGrid {
  import opened Integers
  import opened Sequences

  datatype Vec = Vec(x: int, y: int, z: int)

  datatype Cell = Cell(cx: int, cy: int, cz: int)

  function DistSq(a: Vec, b: Vec): int {
    var (dx, dy, dz) := (a.x - b.x, a.y - b.y, a.z - b.z);
    dx * dx + dy * dy + dz * dz
  }

  // C++ remainder, truncating like its division.
  function TruncMod(a: int, b: int): int
    requires b > 0
  {
    a - TruncDiv(a, b) * b
  }

  // Grid::FloorDiv
  function FloorDiv(a: int, cellSize: int): (q: int)
    requires cellSize > 0
  {
    var q := TruncDiv(a, cellSize);
    var r := TruncMod(a, cellSize);
    if r != 0 && r < 0 then q - 1 else q
  }

  // It really is the floor, negative coordinates included.
  lemma FloorDivIsFloor(a: int, cellSize: int)
    requires cellSize > 0
    ensures FloorDiv(a, cellSize) * cellSize <= a < FloorDiv(a, cellSize) * cellSize + cellSize
  {
    var q := TruncDiv(a, cellSize);
    if a >= 0 {
      assert a == q * cellSize + a % cellSize;
    } else {
      assert -a == (-q) * cellSize + (-a) % cellSize;
      assert (q - 1) * cellSize == q * cellSize - cellSize;
    }
  }

  function CellOf(p: Vec, cellSize: int): Cell
    requires cellSize > 0
  {
    Cell(FloorDiv(p.x, cellSize), FloorDiv(p.y, cellSize), FloorDiv(p.z, cellSize))
  }

  // Inside the cube of cells around c.
  predicate NearCell(c: Cell, d: Cell, radius: int) {
    && -radius <= d.cx - c.cx <= radius
    && -radius <= d.cy - c.cy <= radius
    && -radius <= d.cz - c.cz <= radius
  }

  class Grid {
    const cellSize: int
    var cells: map<Cell, set<nat>>

    constructor (size: int)
      ensures cellSize > 0 && (size > 0 ==> cellSize == size) && cells == map[]
    {
      cellSize := if size > 0 then size else 1;
      cells := map[];
    }

    method Clear()
      modifies this
      ensures cells == map[]
    {
      cells := map[];
    }

    // The grid holds exactly the first n indices of `points`, each in its point's cell.
    ghost predicate HoldsFirst(points: seq<Vec>, n: nat)
      requires cellSize > 0
      reads this
    {
      n <= |points| && forall c, i: nat :: c in cells && i in cells[c] <==> i < n && InCell(points, cellSize, i, c)
    }

    ghost predicate Holds(points: seq<Vec>)
      requires cellSize > 0
      reads this
    {
      HoldsFirst(points, |points|)
    }

    method Insert(id: nat, pos: Vec)
      requires cellSize > 0
      modifies this
      ensures var c := CellOf(pos, cellSize);
              cells == old(cells)[c := (if c in old(cells) then old(cells)[c] else {}) + {id}]
    {
      var c := CellOf(pos, cellSize);
      cells := cells[c := (if c in cells then cells[c] else {}) + {id}];
    }

    // The rebuild every system starts its tick with.
    method Rebuild(points: seq<Vec>)
      requires cellSize > 0
      modifies this
      ensures Holds(points)
    {
      Clear();
      var i := 0;
      while i < |points|
        invariant 0 <= i <= |points| && HoldsFirst(points, i)
      {
        Insert(i, points[i]);
        i := i + 1;
      }
    }

    // The ids of one cell, in whatever order the hash set yields them.
    method AppendCell(c: Cell, found: seq<nat>) returns (out: seq<nat>)
      ensures |found| <= |out| && out[..|found|] == found
      ensures var ids := if c in cells then cells[c] else {};
              && NoDuplicates(out[|found|..])
              && forall i :: i in out[|found|..] <==> i in ids
    {
      out := found;
      if c in cells {
        var rest := cells[c];
        assert out[|found|..] == [];
        while rest != {}
          invariant rest <= cells[c]
          invariant |found| <= |out| && out[..|found|] == found
          invariant NoDuplicates(out[|found|..])
          invariant forall i :: i in out[|found|..] <==> i in cells[c] - rest
          decreases |rest|
        {
          var i :| i in rest;
          rest := rest - {i};
          assert (out + [i])[|found|..] == out[|found|..] + [i];
          JoinDistinct(out[|found|..], [i]);
          out := out + [i];
        }
      }
    }

    // Everything in the cube of cells around `pos`, each index once, in no particular
    // order (a negative radius yields nothing).
    method QueryNear(pos: Vec, radius: int, ghost points: seq<Vec>) returns (out: seq<nat>)
      requires cellSize > 0 && Holds(points)
      ensures NoDuplicates(out)
      ensures forall i: nat :: i in out <==> NearIndex(points, cellSize, pos, radius, i)
    {
      var c := CellOf(pos, cellSize);
      out := [];
      var dz := -radius;
      while dz <= radius
        invariant radius >= 0 ==> -radius <= dz <= radius + 1
        invariant NoDuplicates(out)
        invariant forall i: nat :: i in out <==> SeenIndex(points, cellSize, c, radius, dz, -radius, -radius, i)
      {
        var dy := -radius;
        while dy <= radius
          invariant -radius <= dy <= radius + 1
          invariant NoDuplicates(out)
          invariant forall i: nat :: i in out <==> SeenIndex(points, cellSize, c, radius, dz, dy, -radius, i)
        {
          var dx := -radius;
          while dx <= radius
            invariant -radius <= dx <= radius + 1
            invariant NoDuplicates(out)
            invariant forall i: nat :: i in out <==> SeenIndex(points, cellSize, c, radius, dz, dy, dx, i)
          {
            out := VisitCell(c, radius, dz, dy, dx, out, points);
            dx := dx + 1;
          }
          dy := dy + 1;
        }
        dz := dz + 1;
      }
    }

    method VisitCell(c: Cell, radius: int, dz: int, dy: int, dx: int, found: seq<nat>, ghost points: seq<Vec>)
      returns (out: seq<nat>)
      requires cellSize > 0 && Holds(points) && NoDuplicates(found)
      requires -radius <= dz <= radius && -radius <= dy <= radius && -radius <= dx <= radius
      requires forall i: nat :: i in found <==> SeenIndex(points, cellSize, c, radius, dz, dy, dx, i)
      ensures NoDuplicates(out)
      ensures forall i: nat :: i in out <==> SeenIndex(points, cellSize, c, radius, dz, dy, dx + 1, i)
    {
      var here := Cell(c.cx + dx, c.cy + dy, c.cz + dz);
      out := AppendCell(here, found);
      ghost var added := out[|found|..];
      assert out == found + added;
      forall i: nat
        ensures i in added <==> InCell(points, cellSize, i, here)
      {
      }
      forall i: nat
        ensures SeenIndex(points, cellSize, c, radius, dz, dy, dx + 1, i) <==>
                SeenIndex(points, cellSize, c, radius, dz, dy, dx, i) || InCell(points, cellSize, i, here)
        ensures !(SeenIndex(points, cellSize, c, radius, dz, dy, dx, i) && InCell(points, cellSize, i, here))
      {
      }
      JoinDistinct(found, added);
    }
  }

  lemma JoinDistinct(p: seq<nat>, q: seq<nat>)
    requires NoDuplicates(p) && NoDuplicates(q) && forall i :: i in p ==> i !in q
    ensures NoDuplicates(p + q)
  {
    forall i, j | 0 <= i < j < |p + q|
      ensures (p + q)[i] != (p + q)[j]
    {
      if i < |p| <= j {
        assert p[i] in p && q[j - |p|] in q;
      }
    }
  }

  predicate InCell(points: seq<Vec>, cellSize: int, i: nat, c: Cell)
    requires cellSize > 0
  {
    i < |points| && CellOf(points[i], cellSize) == c
  }

  predicate NearIndex(points: seq<Vec>, cellSize: int, pos: Vec, radius: int, i: nat)
    requires cellSize > 0
  {
    i < |points| && NearCell(CellOf(pos, cellSize), CellOf(points[i], cellSize), radius)
  }

  // The indices whose cells the three nested loops visit before (dz, dy, dx).
  ghost predicate SeenIndex(points: seq<Vec>, cellSize: int, c: Cell, radius: int, dz: int, dy: int, dx: int, i: nat)
    requires cellSize > 0
  {
    i < |points| && Seen(c, CellOf(points[i], cellSize), radius, dz, dy, dx)
  }

  ghost predicate Seen(c: Cell, d: Cell, radius: int, dz: int, dy: int, dx: int) {
    && NearCell(c, d, radius)
    && (d.cz - c.cz < dz
        || (d.cz - c.cz == dz && (d.cy - c.cy < dy || (d.cy - c.cy == dy && d.cx - c.cx < dx))))
  }
}
