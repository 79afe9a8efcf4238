/** Weighted choice and random permutations over a distribution's members. */
module Distributions {
  import opened Generators
  import opened Streams
  import opened Counting

  // readDist: cumulative weights.

  ghost predicate PositiveWeights(weights: seq<int>) {
    weights != [] && forall i :: 0 <= i < |weights| ==> weights[i] > 0
  }

  /** The weights of the first n members together. */
  ghost function WeightBefore(weights: seq<int>, n: nat): int
    requires n <= |weights|
  {
    if n == 0 then 0 else WeightBefore(weights, n - 1) + weights[n - 1]
  }

  ghost predicate Cumulative(members: seq<int>, weights: seq<int>) {
    |members| == |weights| && forall i :: 0 <= i < |members| ==> members[i] == WeightBefore(weights, i + 1)
  }

  method ReadDist(weights: seq<int>) returns (members: seq<int>, max: int)
    ensures Cumulative(members, weights) && max == WeightBefore(weights, |weights|)
  {
    members, max := [], 0;
    for i := 0 to |weights|
      invariant |members| == i && max == WeightBefore(weights, i)
      invariant forall j :: 0 <= j < i ==> members[j] == WeightBefore(weights, j + 1)
    {
      max := max + weights[i];
      members := members + [max];
    }
  }

  // pickStr.

  /** The first member whose cumulative weight reaches j. */
  ghost predicate Picks(members: seq<int>, j: int, pos: int) {
    0 <= pos < |members| && j <= members[pos] && forall i :: 0 <= i < pos ==> members[i] < j
  }

  lemma {:induction false} CumulativeIncreases(weights: seq<int>, i: nat, j: nat)
    requires PositiveWeights(weights) && i < j <= |weights|
    ensures WeightBefore(weights, i) < WeightBefore(weights, j)
    decreases j
  {
    if i < j - 1 {
      CumulativeIncreases(weights, i, j - 1);
    }
  }

  /** The member that j picks, when there is one. */
  ghost function Picked(members: seq<int>, j: int): int {
    if exists pos :: Picks(members, j, pos) then
      var pos :| Picks(members, j, pos);
      pos
    else 0
  }

  /** The member picked by the n-th draw of stream s. */
  ghost function PickAt(start: seq<Seed>, s: int, n: nat, members: seq<int>): int
    requires 0 <= s < |start|
  {
    if members == [] then 0 else Picked(members, At(start, s, n, 1, members[|members| - 1]))
  }

  /** All earlier members stay below j exactly when the previous one does. */
  lemma EarlierMembers(members: seq<int>, weights: seq<int>, j: int, pos: nat)
    requires PositiveWeights(weights) && Cumulative(members, weights) && 0 < pos < |weights|
    ensures (forall i :: 0 <= i < pos ==> members[i] < j) <==> members[pos - 1] < j
  {
    forall i | 0 <= i < pos - 1
      ensures members[i] < members[pos - 1]
    {
      CumulativeIncreases(weights, i + 1, pos);
    }
  }

  /** Member pos is chosen by exactly its weight many consecutive values of j. */
  lemma PickedByWeight(members: seq<int>, weights: seq<int>, j: int, pos: nat)
    requires PositiveWeights(weights) && Cumulative(members, weights) && pos < |weights| && 1 <= j
    ensures Picks(members, j, pos) <==> WeightBefore(weights, pos) < j <= WeightBefore(weights, pos) + weights[pos]
  {
    if pos > 0 {
      EarlierMembers(members, weights, j, pos);
    }
  }

  /** The scan over the cumulative weights. */
  method Scan(members: seq<int>, j: int) returns (pos: int)
    requires members != [] && j <= members[|members| - 1]
    ensures Picks(members, j, pos)
  {
    pos := 0;
    while members[pos] < j
      invariant 0 <= pos < |members|
      decreases |members| - pos
      invariant forall i :: 0 <= i < pos ==> members[i] < j
    {
      pos := pos + 1;
    }
  }

  /** pickStr: the scan ends in bounds, at the member that j picks. */
  method PickStr(seeds: array<Seed>, members: seq<int>, ghost weights: seq<int>, s: int, ghost start: seq<Seed>)
    returns (pos: int)
    requires PositiveWeights(weights) && Cumulative(members, weights)
    requires Valid(seeds[..]) && Drew(start, seeds[..]) && 0 <= s < STREAMS
    modifies seeds
    ensures Valid(seeds[..]) && Drew(start, seeds[..])
    ensures seeds[..] == Drawn(old(seeds[..]), s)
    ensures Picks(members, At(start, s, seeds[s].usage - start[s].usage, 1, members[|members| - 1]), pos)
    ensures pos == PickAt(start, s, seeds[s].usage - start[s].usage, members)
  {
    CumulativeIncreases(weights, 0, |weights|);
    var j := Random(seeds, 1, members[|members| - 1], s, start);
    pos := Scan(members, j);
  }

  // permute.

  /** The identity after swapping places 0, 1, ... with the drawn sources. */
  function Spelled(count: nat, sources: seq<int>): (p: seq<int>)
    ensures |p| == count
  {
    if sources == [] then seq(count, j => j)
    else
      var i := |sources| - 1;
      var p, source := Spelled(count, sources[..i]), sources[i];
      if 0 <= source < count && i < count then Swapped(p, source, i) else p
  }

  /** The sources drawn from stream s for the first n places. */
  ghost function SourcesAt(start: seq<Seed>, s: int, count: nat, n: nat): (sources: seq<int>)
    requires 0 <= s < |start|
    ensures |sources| == n
  {
    if n == 0 then [] else SourcesAt(start, s, count, n - 1) + [At(start, s, n, n - 1, count - 1)]
  }

  /** The permutation the draws of stream s give. */
  ghost function Shuffled(start: seq<Seed>, s: int, count: nat): (p: seq<int>)
    requires 0 <= s < |start|
    ensures |p| == count
  {
    Spelled(count, SourcesAt(start, s, count, count))
  }

  /** permute: swap each place with one not before it, one draw per place. */
  method Permute(seeds: array<Seed>, permute: array<int>, s: int, ghost start: seq<Seed>)
    requires Valid(seeds[..]) && Drew(start, seeds[..]) && 0 <= s < STREAMS
    requires seeds[s].usage == start[s].usage
    requires Permutation(permute[..]) && permute[..] == Spelled(permute.Length, [])
    modifies seeds, permute
    ensures Permutation(permute[..]) && permute[..] == Shuffled(start, s, permute.Length)
    ensures Valid(seeds[..]) && Drew(start, seeds[..])
    ensures DrawnTimes(old(seeds[..]), seeds[..], s, permute.Length)
  {
    for i := 0 to permute.Length
      invariant Permutation(permute[..])
      invariant permute[..] == Spelled(permute.Length, SourcesAt(start, s, permute.Length, i))
      invariant Valid(seeds[..]) && Drew(start, seeds[..])
      invariant DrawnTimes(old(seeds[..]), seeds[..], s, i)
    {
      var source := Random(seeds, i, permute.Length - 1, s, start);
      ghost var before := permute[..];
      permute[source], permute[i] := permute[i], permute[source];
      assert permute[..] == Swapped(before, source, i);
      SpelledNext(start, s, before, source, i);
    }
  }

  /** permuteDist: permute the identity. */
  method PermuteDist(seeds: array<Seed>, permute: array<int>, s: int, ghost start: seq<Seed>)
    requires Valid(seeds[..]) && Drew(start, seeds[..]) && 0 <= s < STREAMS
    requires seeds[s].usage == start[s].usage
    modifies seeds, permute
    ensures Permutation(permute[..]) && permute[..] == Shuffled(start, s, permute.Length)
    ensures Valid(seeds[..]) && Drew(start, seeds[..])
    ensures DrawnTimes(old(seeds[..]), seeds[..], s, permute.Length)
  {
    for i := 0 to permute.Length
      invariant seeds[..] == old(seeds[..])
      invariant forall j :: 0 <= j < i ==> permute[j] == j
    {
      permute[i] := i;
    }
    assert permute[..] == Spelled(permute.Length, []);
    Permute(seeds, permute, s, start);
  }

  /** One more swap. */
  lemma SpelledNext(start: seq<Seed>, s: int, p: seq<int>, source: int, i: nat)
    requires 0 <= s < |start| && i <= source < |p| && source == At(start, s, i + 1, i, |p| - 1)
    requires Permutation(p) && p == Spelled(|p|, SourcesAt(start, s, |p|, i))
    ensures Permutation(Swapped(p, source, i))
    ensures Swapped(p, source, i) == Spelled(|p|, SourcesAt(start, s, |p|, i + 1))
  {
    SwappedPermutation(p, source, i);
    assert SourcesAt(start, s, |p|, i + 1)[..i] == SourcesAt(start, s, |p|, i);
  }

  /** Distinct values below n fill 0 .. n - 1. */
  lemma PermutationCovers(p: seq<int>, x: int)
    requires Permutation(p) && 0 <= x < |p|
    ensures x in p
  {
    DistinctCount(p);
    BelowCount(|p|);
    if x !in p {
      SubsetCount(Values(p), Below(|p|) - {x});
    }
  }

  // The draws and the permutations correspond one to one.

  /** Every place is swapped with itself or a later one. */
  ghost predicate Sources(count: nat, sources: seq<int>) {
    |sources| <= count && forall i :: 0 <= i < |sources| ==> i <= sources[i] < count
  }

  lemma {:induction false} SpelledPermutation(count: nat, sources: seq<int>)
    requires Sources(count, sources)
    ensures Permutation(Spelled(count, sources))
  {
    if sources != [] {
      var i := |sources| - 1;
      SpelledPermutation(count, sources[..i]);
      SwappedPermutation(Spelled(count, sources[..i]), sources[i], i);
    }
  }

  /** Later swaps leave an entry alone. */
  lemma {:induction false} EntryKept(count: nat, sources: seq<int>, i: nat)
    requires Sources(count, sources) && i < |sources|
    ensures Spelled(count, sources)[i] == Spelled(count, sources[..i + 1])[i]
    decreases |sources|
  {
    var n := |sources| - 1;
    if i < n {
      EntryKept(count, sources[..n], i);
      assert sources[..n][..i + 1] == sources[..i + 1];
    } else {
      assert sources[..i + 1] == sources;
    }
  }

  /** Entry i is what the earlier swaps left at the drawn place. */
  lemma EntryDrawn(count: nat, sources: seq<int>, i: nat)
    requires Sources(count, sources) && i < |sources|
    ensures Spelled(count, sources)[i] == Spelled(count, sources[..i])[sources[i]]
  {
    EntryKept(count, sources, i);
    assert sources[..i + 1][..i] == sources[..i];
  }

  lemma {:induction false} FirstEntriesKept(count: nat, sources: seq<int>, i: nat)
    requires Sources(count, sources) && i <= |sources|
    ensures Spelled(count, sources)[..i] == Spelled(count, sources[..i])[..i]
  {
    forall j | 0 <= j < i
      ensures Spelled(count, sources)[j] == Spelled(count, sources[..i])[j]
    {
      EntryKept(count, sources, j);
      EntryKept(count, sources[..i], j);
      assert sources[..i][..j + 1] == sources[..j + 1];
    }
  }

  /** The first entry is the first draw. */
  lemma FirstEntry(count: nat, sources: seq<int>)
    requires Sources(count, sources) && sources != []
    ensures Spelled(count, sources)[0] == sources[0]
  {
    EntryDrawn(count, sources, 0);
    assert sources[..0] == [];
  }

  /** Entry i is a member that no earlier entry is, and each of those is chosen by one value of draw i. */
  lemma EntryUnused(count: nat, sources: seq<int>, i: nat, x: int)
    requires Sources(count, sources) && i < |sources| && 0 <= x < count
    ensures x !in Spelled(count, sources)[..i]
      <==> exists j :: i <= j < count && Spelled(count, sources[..i])[j] == x
    ensures Spelled(count, sources)[i] == x <==> Spelled(count, sources[..i])[sources[i]] == x
  {
    var p := Spelled(count, sources[..i]);
    EntryDrawn(count, sources, i);
    FirstEntriesKept(count, sources, i);
    SpelledPermutation(count, sources[..i]);
    PermutationCovers(p, x);
    var k :| 0 <= k < count && p[k] == x;
    if k < i {
      assert p[..i][k] == x;
    }
  }

  /** Different draws give different permutations. */
  lemma {:induction false} SpelledInjective(count: nat, a: seq<int>, b: seq<int>, n: nat)
    requires Sources(count, a) && Sources(count, b) && n <= |a| && n <= |b|
    requires Spelled(count, a) == Spelled(count, b)
    ensures a[..n] == b[..n]
  {
    if n > 0 {
      var i := n - 1;
      SpelledInjective(count, a, b, i);
      EntryDrawn(count, a, i);
      EntryDrawn(count, b, i);
      SpelledPermutation(count, a[..i]);
      assert a[i] == b[i];
      assert a[..n] == a[..i] + [a[i]] && b[..n] == b[..i] + [b[i]];
    }
  }

  /** Every permutation comes from some draws, place by place. */
  lemma {:induction false} SpelledSurjective(p: seq<int>, n: nat) returns (sources: seq<int>)
    requires Permutation(p) && n <= |p|
    ensures |sources| == n && Sources(|p|, sources) && Spelled(|p|, sources)[..n] == p[..n]
  {
    if n == 0 {
      return [];
    }
    var i := n - 1;
    var before := SpelledSurjective(p, i);
    var q := Spelled(|p|, before);
    SpelledPermutation(|p|, before);
    PermutationCovers(q, p[i]);
    var j :| 0 <= j < |p| && q[j] == p[i];
    assert forall k | 0 <= k < i :: q[k] == q[..i][k] && p[k] == p[..i][k];
    sources := before + [j];
    assert sources[..i] == before;
    EntryDrawn(|p|, sources, i);
    FirstEntriesKept(|p|, sources, i);
    assert Spelled(|p|, sources)[..n] == Spelled(|p|, sources)[..i] + [p[i]];
    assert p[..n] == p[..i] + [p[i]];
  }

  /** Each permutation is spelled by exactly one choice of draws. */
  lemma SpelledOnce(p: seq<int>) returns (sources: seq<int>)
    requires Permutation(p)
    ensures |sources| == |p| && Sources(|p|, sources) && Spelled(|p|, sources) == p
    ensures forall other :: |other| == |p| && Sources(|p|, other) && Spelled(|p|, other) == p ==> other == sources
  {
    sources := SpelledSurjective(p, |p|);
    assert p[..|p|] == p && Spelled(|p|, sources)[..|p|] == Spelled(|p|, sources);
    forall other | |other| == |p| && Sources(|p|, other) && Spelled(|p|, other) == p
      ensures other == sources
    {
      SpelledInjective(|p|, sources, other, |p|);
      assert other[..|p|] == other && sources[..|p|] == sources;
    }
  }

  /** What a stream draws are sources. */
  lemma {:induction false} DrawnSources(start: seq<Seed>, s: int, count: nat, n: nat)
    requires 0 <= s < |start| && 0 < start[s].value < M && n <= count
    ensures Sources(count, SourcesAt(start, s, count, n))
    ensures forall i :: 0 <= i < n ==> SourcesAt(start, s, count, n)[i] == At(start, s, i + 1, i, count - 1)
  {
    if n > 0 {
      DrawnSources(start, s, count, n - 1);
      StepsInRange(n, start[s].value);
      ScaledInRange(n - 1, count - 1, Steps(n, start[s].value));
    }
  }

  /** The first member is the first draw, and each later one the drawn one of those not used yet. */
  lemma ShuffledDraws(start: seq<Seed>, s: int, count: nat, i: nat)
    requires 0 <= s < |start| && 0 < start[s].value < M && i < count
    ensures Shuffled(start, s, count)[0] == At(start, s, 1, 0, count - 1)
    ensures i <= At(start, s, i + 1, i, count - 1) < count
    ensures Shuffled(start, s, count)[i]
      == Spelled(count, SourcesAt(start, s, count, count)[..i])[At(start, s, i + 1, i, count - 1)]
    ensures Shuffled(start, s, count)[i] !in Shuffled(start, s, count)[..i]
  {
    var sources := SourcesAt(start, s, count, count);
    DrawnSources(start, s, count, count);
    FirstEntry(count, sources);
    EntryDrawn(count, sources, i);
    SpelledPermutation(count, sources);
  }
}
