// Sums over finite maps.
module MapSums {

  ghost function Sum(m: map<nat, int>): int
    decreases |m|
  {
    if m == map[] then 0
    else
      var k :| k in m;
      m[k] + Sum(m - {k})
  }

  // It does not matter which key is taken first.
  lemma {:induction false} SumRemove(m: map<nat, int>, k: nat)
    requires k in m
    ensures Sum(m) == m[k] + Sum(m - {k})
    decreases |m|
  {
    var j :| j in m && Sum(m) == m[j] + Sum(m - {j});
    if j != k {
      SumRemove(m - {j}, k);
      SumRemove(m - {k}, j);
      assert m - {j} - {k} == m - {k} - {j};
    }
  }

  lemma SumUpdate(m: map<nat, int>, k: nat, v: int)
    requires k in m
    ensures Sum(m[k := v]) == Sum(m) - m[k] + v
  {
    SumRemove(m, k);
    SumRemove(m[k := v], k);
    assert m[k := v] - {k} == m - {k};
  }

  // Sums add entry by entry.
  lemma {:induction false} SumAdds(m: map<nat, int>, d: map<nat, int>, r: map<nat, int>)
    requires m.Keys == d.Keys == r.Keys && forall k :: k in m ==> r[k] == m[k] + d[k]
    ensures Sum(r) == Sum(m) + Sum(d)
    decreases |m|
  {
    if m == map[] {
      assert d == map[] && r == map[];
    } else {
      var k :| k in m;
      SumRemove(m, k);
      SumRemove(d, k);
      SumRemove(r, k);
      SumAdds(m - {k}, d - {k}, r - {k});
    }
  }

  // An entry that is zero everywhere.
  lemma {:induction false} SumZero(m: map<nat, int>)
    requires forall k :: k in m ==> m[k] == 0
    ensures Sum(m) == 0
    decreases |m|
  {
    if m != map[] {
      var k :| k in m;
      SumRemove(m, k);
      SumZero(m - {k});
    }
  }

  lemma JoinRemove(m: map<nat, int>, d: map<nat, int>, k: nat)
    requires k in d && k !in m
    ensures m + d - {k} == m + (d - {k})
  {
    var (a, b) := (m + d - {k}, m + (d - {k}));
    assert forall i: nat :: i in a <==> i in b;
    assert forall i: nat :: i in a ==> a[i] == b[i];
  }

  lemma {:induction false} SumJoin(m: map<nat, int>, d: map<nat, int>)
    requires forall k :: k in d ==> k !in m
    ensures Sum(m + d) == Sum(m) + Sum(d)
    decreases |d|
  {
    if d == map[] {
      assert m + d == m;
    } else {
      var k :| k in d;
      SumRemove(d, k);
      SumRemove(m + d, k);
      JoinRemove(m, d, k);
      SumJoin(m, d - {k});
    }
  }

  lemma {:induction false} SumConst(d: map<nat, int>, v: int)
    requires forall k :: k in d ==> d[k] == v
    ensures Sum(d) == |d| * v
    decreases |d|
  {
    if d != map[] {
      var k :| k in d;
      SumRemove(d, k);
      SumConst(d - {k}, v);
      assert |d| * v == v + (|d| - 1) * v;
    }
  }
}
