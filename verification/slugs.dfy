/** The slug allocator: the first of base, base-1, base-2, ... not in use. */
module Slugs {
  import opened Text

  /** The `k`th slug the allocator tries for a base. */
  function Candidate(base: string, k: nat): string {
    if k == 0 then base else base + "-" + Decimal(k)
  }

  lemma CandidateInjective(base: string, j: nat, k: nat)
    requires Candidate(base, j) == Candidate(base, k)
    ensures j == k
  {
    if j != 0 && k != 0 {
      assert Candidate(base, j)[|base| + 1..] == Decimal(j);
      assert Candidate(base, k)[|base| + 1..] == Decimal(k);
      DecimalInjective(j, k);
    }
  }

  /** The first candidate is the base; each later one is the base, a hyphen, and the
      number of candidates before it. */
  lemma CandidateMeaning(base: string, k: nat)
    ensures Candidate(base, 0) == base
    ensures k > 0 ==> |Candidate(base, k)| > |base| + 1
                      && Candidate(base, k)[..|base|] == base && Candidate(base, k)[|base|] == '-'
                      && ValueOf(Candidate(base, k)[|base| + 1..]) == k
  {
    if k > 0 {
      assert Candidate(base, k)[|base| + 1..] == Decimal(k);
      DecimalMeaning(k);
    }
  }

  /** Pigeonhole: `n` candidates that are all taken need `n` taken slugs. */
  lemma {:induction false} TakenCandidates(taken: set<string>, base: string, n: nat)
    requires forall j: nat :: j < n ==> Candidate(base, j) in taken
    ensures n <= |taken|
  {
    if n > 0 {
      var last := Candidate(base, n - 1);
      forall j: nat | j < n - 1 ensures Candidate(base, j) in taken - {last} {
        if Candidate(base, j) == last { CandidateInjective(base, j, n - 1); }
      }
      TakenCandidates(taken - {last}, base, n - 1);
    }
  }

  /** The index the allocator stops at when all candidates before `k` are taken. */
  ghost function FirstFreeIndex(taken: set<string>, base: string, k: nat): (r: nat)
    requires forall j: nat :: j < k ==> Candidate(base, j) in taken
    ensures k <= r <= |taken|
    ensures Candidate(base, r) !in taken
    ensures forall j: nat :: j < r ==> Candidate(base, j) in taken
    decreases |taken| + 1 - k
  {
    TakenCandidates(taken, base, k);
    if Candidate(base, k) in taken then FirstFreeIndex(taken, base, k + 1) else k
  }

  ghost function FirstFree(taken: set<string>, base: string): (slug: string)
    ensures slug !in taken
  {
    Candidate(base, FirstFreeIndex(taken, base, 0))
  }

  /** The allocator's answer is the one candidate that is free while all earlier
      ones are taken, and it lies among the first |taken| + 1. */
  lemma FirstFreeIsLeast(taken: set<string>, base: string, k: nat)
    ensures FirstFree(taken, base) == Candidate(base, k) <==>
              (Candidate(base, k) !in taken && forall j: nat :: j < k ==> Candidate(base, j) in taken)
    ensures exists r: nat :: r <= |taken| && FirstFree(taken, base) == Candidate(base, r)
  {
    var r := FirstFreeIndex(taken, base, 0);
    if FirstFree(taken, base) == Candidate(base, k) {
      CandidateInjective(base, r, k);
    }
  }
}
