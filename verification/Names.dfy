// UniqueName of ServerSessions.h: the first of base, base-2, ..., base-999 not taken.
module Names {
  import Decimal

  function Candidate(base: string, i: nat): string {
    if i <= 1 then base else base + "-" + Decimal.ToString(i)
  }

  lemma CandidatesDistinct(base: string, i: nat, j: nat)
    requires 1 <= i < j
    ensures Candidate(base, i) != Candidate(base, j)
  {
    if Candidate(base, i) == Candidate(base, j) {
      assert |Candidate(base, j)| > |base|;
      assert Decimal.ToString(i) == (base + "-" + Decimal.ToString(i))[|base| + 1..];
      assert Decimal.ToString(j) == (base + "-" + Decimal.ToString(j))[|base| + 1..];
      Decimal.ToStringInjective(i, j);
    }
  }

  const LAST_SUFFIX: nat := 999

  method UniqueName(base: string, taken: set<string>) returns (name: string)
    ensures name == FirstFree(base, taken, 1)
  {
    if base !in taken {
      return base;
    }
    var i := 2;
    while i < 1000
      invariant 2 <= i <= 1000
      invariant FirstFree(base, taken, 1) == FirstFree(base, taken, i)
    {
      var cand := base + "-" + Decimal.ToString(i);
      if cand !in taken {
        return cand;
      }
      i := i + 1;
    }
    return base;
  }

  function FirstFree(base: string, taken: set<string>, i: nat): string
    decreases 1000 - i
  {
    if i >= 1000 then base
    else if Candidate(base, i) !in taken then Candidate(base, i)
    else FirstFree(base, taken, i + 1)
  }

  ghost predicate AllTaken(base: string, taken: set<string>, from: nat) {
    forall i :: from <= i <= LAST_SUFFIX ==> Candidate(base, i) in taken
  }

  // The result is free unless every one of the 999 candidates is taken, and then it is
  // the (taken) base.
  lemma {:induction false} FreeUnlessExhausted(base: string, taken: set<string>, i: nat)
    requires 1 <= i <= 1000
    ensures AllTaken(base, taken, i) ==> FirstFree(base, taken, i) == base
    ensures !AllTaken(base, taken, i) ==> FirstFree(base, taken, i) !in taken
    decreases 1000 - i
  {
    if i < 1000 && Candidate(base, i) in taken {
      FreeUnlessExhausted(base, taken, i + 1);
      assert AllTaken(base, taken, i + 1) ==> AllTaken(base, taken, i);
    }
  }

  ghost function Candidates(base: string, n: nat): set<string> {
    set i | 1 <= i <= n :: Candidate(base, i)
  }

  lemma {:induction false} CandidateCount(base: string, n: nat)
    ensures |Candidates(base, n)| == n
  {
    if n == 0 {
      assert Candidates(base, 0) == {};
    } else {
      CandidateCount(base, n - 1);
      var c := Candidate(base, n);
      forall i | 1 <= i < n
        ensures Candidate(base, i) != c
      {
        CandidatesDistinct(base, i, n);
      }
      assert Candidates(base, n) == Candidates(base, n - 1) + {c};
      assert c !in Candidates(base, n - 1);
    }
  }

  lemma SubsetSize<T>(a: set<T>, b: set<T>)
    requires a <= b
    ensures |a| <= |b|
  {
    assert b == a + (b - a);
  }

  // Pigeonhole: 998 other names cannot exhaust 999 distinct candidates.
  lemma UniqueWithFewOthers(base: string, taken: set<string>)
    requires |taken| <= LAST_SUFFIX - 1
    ensures FirstFree(base, taken, 1) !in taken
  {
    FreeUnlessExhausted(base, taken, 1);
    if AllTaken(base, taken, 1) {
      CandidateCount(base, LAST_SUFFIX);
      assert Candidates(base, LAST_SUFFIX) <= taken;
      SubsetSize(Candidates(base, LAST_SUFFIX), taken);
    }
  }

  // A crowd of n other names always leaves a free one exactly when n is at most 998.
  lemma UniqueExactly(base: string, n: nat)
    ensures (forall taken: set<string> :: |taken| <= n ==> FirstFree(base, taken, 1) !in taken)
            <==> n <= LAST_SUFFIX - 1
  {
    if n <= LAST_SUFFIX - 1 {
      forall taken: set<string> | |taken| <= n
        ensures FirstFree(base, taken, 1) !in taken
      {
        UniqueWithFewOthers(base, taken);
      }
    } else {
      var crowd := Candidates(base, LAST_SUFFIX);
      CandidateCount(base, LAST_SUFFIX);
      FreeUnlessExhausted(base, crowd, 1);
      assert AllTaken(base, crowd, 1);
      assert Candidate(base, 1) in crowd;
      assert FirstFree(base, crowd, 1) in crowd;
    }
  }
}
