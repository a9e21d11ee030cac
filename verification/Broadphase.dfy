// Broadphase.h: the shared cell size and the sorted-candidates discipline.
module Broadphase {
  import opened Integers
  import opened Sequences
  import opened SpatialGrid

  const BROADPHASE_CELL: int := 16384

  // The exact (Chebyshev) range test of every system.
  predicate Within(a: Vec, b: Vec, range: int) {
    && -range <= a.x - b.x <= range
    && -range <= a.y - b.y <= range
    && -range <= a.z - b.z <= range
  }

  function CellsForRange(range: int): int {
    TruncDiv(range + BROADPHASE_CELL - 1, BROADPHASE_CELL)
  }

  function BroadCell(p: Vec): Cell {
    CellOf(p, BROADPHASE_CELL)
  }

  // Nothing in range is ever outside the cube of cells, for any range at all.
  lemma CubeCoversRange(a: Vec, b: Vec, range: int, radius: int)
    requires Within(a, b, range) && CellsForRange(range) <= radius
    ensures NearCell(BroadCell(a), BroadCell(b), radius)
  {
    AxisCovers(a.x, b.x, range, radius);
    AxisCovers(a.y, b.y, range, radius);
    AxisCovers(a.z, b.z, range, radius);
  }

  lemma AxisCovers(a: int, b: int, range: int, radius: int)
    requires -range <= a - b <= range && CellsForRange(range) <= radius
    ensures -radius <= FloorDiv(b, BROADPHASE_CELL) - FloorDiv(a, BROADPHASE_CELL) <= radius
  {
    FloorDivIsFloor(a, BROADPHASE_CELL);
    FloorDivIsFloor(b, BROADPHASE_CELL);
    assert CellsForRange(range) * BROADPHASE_CELL >= range;
  }

  // ---------------------------------------------------------------------------
  // Sorted candidates
  // ---------------------------------------------------------------------------

  // The indices below n whose points share the cube, in scan order.
  function Neighbours(points: seq<Vec>, pos: Vec, radius: int, n: nat): seq<nat>
    requires n <= |points|
  {
    if n == 0 then []
    else if NearIndex(points, BROADPHASE_CELL, pos, radius, n - 1) then Neighbours(points, pos, radius, n - 1) + [n - 1]
    else Neighbours(points, pos, radius, n - 1)
  }

  lemma {:induction false} NeighboursAre(points: seq<Vec>, pos: Vec, radius: int, n: nat)
    requires n <= |points|
    ensures var q := Neighbours(points, pos, radius, n);
            && Ascending(q)
            && forall i: nat :: i in q <==> i < n && NearIndex(points, BROADPHASE_CELL, pos, radius, i)
  {
    if n > 0 {
      NeighboursAre(points, pos, radius, n - 1);
      var q := Neighbours(points, pos, radius, n - 1);
      AppendAscending(q, n - 1);
    }
  }

  lemma AppendAscending(q: seq<nat>, x: nat)
    requires Ascending(q) && forall i :: i in q ==> i < x
    ensures Ascending(q + [x]) && forall i :: i in q + [x] <==> i in q || i == x
  {
    assert forall k :: 0 <= k < |q| ==> q[k] in q;
  }

  ghost predicate Ascending(q: seq<nat>) {
    forall i, j :: 0 <= i < j < |q| ==> q[i] < q[j]
  }

  ghost predicate Sorted(q: seq<nat>) {
    forall i, j :: 0 <= i < j < |q| ==> q[i] <= q[j]
  }

  // std::sort
  method Sort(q: seq<nat>) returns (r: seq<nat>)
    ensures Sorted(r) && multiset(r) == multiset(q)
  {
    r := [];
    var i := 0;
    while i < |q|
      invariant 0 <= i <= |q| && Sorted(r)
      invariant multiset(r) == multiset(q[..i])
    {
      r := InsertSorted(r, q[i]);
      assert q[..i + 1] == q[..i] + [q[i]];
      i := i + 1;
    }
    assert q[..i] == q;
  }

  method InsertSorted(q: seq<nat>, x: nat) returns (r: seq<nat>)
    requires Sorted(q)
    ensures Sorted(r) && multiset(r) == multiset(q) + multiset{x}
  {
    var at := |q|;
    while at > 0 && q[at - 1] > x
      invariant 0 <= at <= |q|
      invariant forall k :: at <= k < |q| ==> q[k] > x
    {
      at := at - 1;
    }
    assert forall k :: 0 <= k < at ==> q[k] <= x;
    Inserted(q, at, x);
    r := q[..at] + [x] + q[at..];
  }

  lemma Inserted(q: seq<nat>, at: nat, x: nat)
    requires Sorted(q) && at <= |q|
    requires (forall k :: 0 <= k < at ==> q[k] <= x) && (forall k :: at <= k < |q| ==> x < q[k])
    ensures Sorted(q[..at] + [x] + q[at..])
    ensures multiset(q[..at] + [x] + q[at..]) == multiset(q) + multiset{x}
  {
    var r := q[..at] + [x] + q[at..];
    forall i, j | 0 <= i < j < |r|
      ensures r[i] <= r[j]
    {
      InsertedAt(q, at, x, i);
      InsertedAt(q, at, x, j);
    }
    assert multiset(q) == multiset(q[..at]) + multiset(q[at..]) by {
      assert q == q[..at] + q[at..];
    }
  }

  lemma InsertedAt(q: seq<nat>, at: nat, x: nat, k: nat)
    requires at <= |q| && k <= |q|
    ensures (q[..at] + [x] + q[at..])[k] == if k < at then q[k] else if k == at then x else q[k - 1]
  {
  }

  lemma AnyMember(q: seq<nat>) returns (x: nat)
    ensures q == [] || x in q
  {
    x := if q == [] then 0 else q[0];
  }

  // Two ascending sequences with the same members are equal.
  lemma {:induction false} AscendingUnique(p: seq<nat>, q: seq<nat>)
    requires Ascending(p) && Ascending(q)
    requires forall i :: i in p <==> i in q
    ensures p == q
  {
    var head := AnyMember(q);
    if p != [] {
      assert p[0] in q;
      var x, y := p[|p| - 1], q[|q| - 1];
      assert x in q && y in p;
      assert x == y;
      var p', q' := p[..|p| - 1], q[..|q| - 1];
      forall i
        ensures i in p' <==> i in q'
      {
        assert i in p <==> i in p' || i == x;
        assert i in q <==> i in q' || i == y;
        assert x !in p' && y !in q';
      }
      AscendingUnique(p', q');
    }
  }

  lemma SortedDistinct(q: seq<nat>, r: seq<nat>)
    requires NoDuplicates(q) && Sorted(r) && multiset(r) == multiset(q)
    ensures Ascending(r) && forall i :: i in r <==> i in q
  {
    forall i
      ensures i in r <==> i in q
    {
      assert i in r <==> i in multiset(r);
      assert i in q <==> i in multiset(q);
    }
    forall i, j | 0 <= i < j < |r|
      ensures r[i] < r[j]
    {
      if r[i] == r[j] {
        TwiceInMultiset(r, i, j);
        OnceInMultiset(q, r[i]);
        assert false;
      }
    }
  }

  lemma TwiceInMultiset(q: seq<nat>, i: nat, j: nat)
    requires i < j < |q| && q[i] == q[j]
    ensures multiset(q)[q[i]] >= 2
  {
    assert q == q[..i] + [q[i]] + q[i + 1..j] + [q[j]] + q[j + 1..];
  }

  lemma {:induction false} OnceInMultiset(q: seq<nat>, x: nat)
    requires NoDuplicates(q)
    ensures multiset(q)[x] <= 1
  {
    if q != [] {
      var rest := q[..|q| - 1];
      OnceInMultiset(rest, x);
      assert q == rest + [q[|q| - 1]];
      if x == q[|q| - 1] {
        assert x !in rest;
        assert x !in multiset(rest);
      }
    }
  }

  // Whatever order the grid yields, the sorted candidates are the neighbours in scan
  // order.
  method QuerySortedNeighbours(grid: Grid, pos: Vec, radius: int, ghost points: seq<Vec>) returns (out: seq<nat>)
    requires grid.cellSize == BROADPHASE_CELL && grid.Holds(points)
    ensures out == Neighbours(points, pos, radius, |points|)
  {
    var found := grid.QueryNear(pos, radius, points);
    out := Sort(found);
    SortedDistinct(found, out);
    NeighboursAre(points, pos, radius, |points|);
    AscendingUnique(out, Neighbours(points, pos, radius, |points|));
  }

  lemma NeighboursBounded(points: seq<Vec>, pos: Vec, radius: int)
    ensures var q := Neighbours(points, pos, radius, |points|);
            Ascending(q) && forall k :: 0 <= k < |q| ==> q[k] < |points|
  {
    NeighboursAre(points, pos, radius, |points|);
    var q := Neighbours(points, pos, radius, |points|);
    assert forall k :: 0 <= k < |q| ==> q[k] in q;
  }

  // Between two consecutive candidates, and after the last, nothing is near.
  lemma GapIsFar(points: seq<Vec>, pos: Vec, radius: int, nearby: seq<nat>, next: nat, upTo: nat, j: nat)
    requires nearby == Neighbours(points, pos, radius, |points|)
    requires next <= |nearby| && (if next < |nearby| then nearby[next] == j else j == |points|)
    requires forall k :: 0 <= k < next ==> nearby[k] < upTo
    ensures forall k: nat :: upTo <= k < j ==> !NearIndex(points, BROADPHASE_CELL, pos, radius, k)
  {
    NeighboursAre(points, pos, radius, |points|);
    forall k: nat | upTo <= k < j
      ensures !NearIndex(points, BROADPHASE_CELL, pos, radius, k)
    {
      NotBetween(nearby, next, upTo, j, k);
    }
  }

  lemma NotBetween(nearby: seq<nat>, next: nat, upTo: nat, j: nat, k: nat)
    requires Ascending(nearby) && next <= |nearby| && (next < |nearby| ==> nearby[next] == j) && upTo <= k < j
    requires forall i :: 0 <= i < next ==> nearby[i] < upTo
    ensures k !in nearby
  {
    forall i | 0 <= i < |nearby|
      ensures nearby[i] != k
    {
      assert i > next ==> nearby[next] < nearby[i];
    }
  }
}
