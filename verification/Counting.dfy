/** Sequences of distinct values, and counting the members of sets and sequences. */
module Counting {

  ghost predicate Increasing(s: seq<int>) {
    forall i, j :: 0 <= i < j < |s| ==> s[i] < s[j]
  }

  /** The numbers 0 .. |p| - 1 in some order. */
  ghost predicate Permutation(p: seq<int>) {
    && (forall i :: 0 <= i < |p| ==> 0 <= p[i] < |p|)
    && (forall i, j :: 0 <= i < j < |p| ==> p[i] != p[j])
  }

  function Swapped(p: seq<int>, i: int, j: int): (r: seq<int>)
    requires 0 <= i < |p| && 0 <= j < |p|
    ensures |r| == |p|
  {
    p[i := p[j]][j := p[i]]
  }

  lemma SwappedPermutation(p: seq<int>, i: int, j: int)
    requires Permutation(p) && 0 <= i < |p| && 0 <= j < |p|
    ensures Permutation(Swapped(p, i, j))
  {
  }

  function Values<T>(p: seq<T>): set<T> {
    set y <- p
  }

  lemma {:induction false} DistinctCount<T>(p: seq<T>)
    requires forall i, j :: 0 <= i < j < |p| ==> p[i] != p[j]
    ensures |Values(p)| == |p|
  {
    if p != [] {
      var n := |p| - 1;
      DistinctCount(p[..n]);
      assert p == p[..n] + [p[n]];
      assert Values(p) == Values(p[..n]) + {p[n]};
    }
  }

  lemma SubsetCount<T>(a: set<T>, b: set<T>)
    requires a <= b
    ensures |a| <= |b|
  {
    assert b == a + (b - a);
  }

  lemma ProperSubsetCount<T>(a: set<T>, b: set<T>)
    requires a < b
    ensures |a| < |b|
  {
    assert b == a + (b - a);
  }

  function Below(n: nat): set<int> {
    if n == 0 then {} else Below(n - 1) + {n - 1}
  }

  lemma {:induction false} BelowCount(n: nat)
    ensures |Below(n)| == n && forall y :: y in Below(n) <==> 0 <= y < n
  {
    if n > 0 {
      BelowCount(n - 1);
    }
  }
}
