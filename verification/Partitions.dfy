/** The explicit partition layouts of the warehouse column. */
module Partitions {
  import opened Counting
  import opened Division
  import opened Strides

  /** Partition i of the hash-like lists holds exactly the warehouses that leave remainder i, each once; so every
      warehouse is in exactly one partition. */
  ghost predicate HashLayout(layout: seq<seq<int>>, parts: nat, warehouses: nat)
    requires parts > 0
  {
    && |layout| == parts
    && forall i :: 0 <= i < parts ==>
         Increasing(layout[i]) && forall w :: w in layout[i] <==> 1 <= w <= warehouses && Taker(w - 1, parts) == i
  }

  lemma {:induction false} TakerStart(i: nat, parts: nat)
    requires i < parts
    ensures Taker(i, parts) == i
    ensures forall x: nat :: x < i ==> Taker(x, parts) != i
  {
  }

  /** Between j and the next stride no other item falls to the same part. */
  lemma OnlyStride(j: nat, x: nat, i: nat, parts: nat)
    requires parts > 0 && Taker(j, parts) == i && Taker(x, parts) == i && j <= x < j + parts
    ensures x == j
  {
    TakerUnique(j, x, parts);
  }

  method HashPart(i: nat, parts: nat, warehouses: nat) returns (part: seq<int>)
    requires i < parts
    ensures Increasing(part) && forall w :: w in part <==> 1 <= w <= warehouses && Taker(w - 1, parts) == i
  {
    part := [];
    var j := i;
    TakerStart(i, parts);
    while j < warehouses
      invariant i <= j && Taker(j, parts) == i && Increasing(part)
      invariant forall w :: w in part <==> 1 <= w <= warehouses && w - 1 < j && Taker(w - 1, parts) == i
      invariant forall k :: 0 <= k < |part| ==> part[k] <= j
    {
      forall x: nat | Taker(x, parts) == i && j <= x < j + parts
        ensures x == j
      {
        OnlyStride(j, x, i, parts);
      }
      part := part + [j + 1];
      j := j + parts;
    }
  }

  method ListAsHash(parts: nat, warehouses: nat) returns (layout: seq<seq<int>>)
    requires parts > 1
    ensures HashLayout(layout, parts, warehouses)
  {
    layout := [];
    for i := 0 to parts
      invariant |layout| == i
      invariant forall k :: 0 <= k < i ==>
        Increasing(layout[k]) && forall w :: w in layout[k] <==> 1 <= w <= warehouses && Taker(w - 1, parts) == k
    {
      var part := HashPart(i, parts, warehouses);
      layout := layout + [part];
    }
  }

  /** The part of a warehouse in the hash-like layout, and that no part is empty when there are enough warehouses. */
  lemma HashLayoutCovers(layout: seq<seq<int>>, parts: nat, warehouses: nat, w: int, i: nat)
    requires parts > 0 && HashLayout(layout, parts, warehouses) && 1 <= w <= warehouses && i < parts
    ensures w in layout[i] <==> i == (w - 1) % parts
    ensures layout[i] == [] <==> warehouses <= i
  {
    TakerIsMod(w - 1, parts);
    TakerStart(i, parts);
    assert layout[i] != [] ==> layout[i][0] in layout[i];
    if i < warehouses {
      assert i + 1 in layout[i];
    }
  }

  // LIST partitions like RANGE.

  function Flatten(layout: seq<seq<int>>): seq<int> {
    if layout == [] then [] else Flatten(layout[..|layout| - 1]) + layout[|layout| - 1]
  }

  function OneTo(n: nat): seq<int> {
    seq(n, i => i + 1)
  }

  ghost function Times(q: int, n: int): int {
    q * n
  }

  /** Dividing what is left by the parts that are left, rounding up, stays within one of the fair share. */
  lemma ShareOfRest(rest: nat, left: nat, q: nat, size: nat)
    requires left > 0 && Times(q, left) <= rest <= Times(q + 1, left)
    requires size == if rest % left != 0 then rest / left + 1 else rest / left
    ensures size == q || size == q + 1
    ensures 0 <= Times(q, left - 1) <= rest - size <= Times(q + 1, left - 1)
  {
    var p, r := rest / left, rest % left;
    assert rest == left * p + r;
    if rest == (q + 1) * left {
      DivModIs(rest, q + 1, 0, left);
    } else {
      assert (q + 1) * left == left * q + left;
      DivModIs(rest, q, rest - left * q, left);
    }
    MulMonotone(0, q, left - 1);
    assert q * left == q * (left - 1) + q && (q + 1) * left == (q + 1) * (left - 1) + q + 1;
  }

  method PartSize(toAdd: nat, partsLeft: nat, ghost q: nat) returns (size: nat)
    requires partsLeft > 0 && Times(q, partsLeft) <= toAdd <= Times(q + 1, partsLeft)
    ensures size == q || size == q + 1
    ensures 0 <= toAdd - size && Times(q, partsLeft - 1) <= toAdd - size <= Times(q + 1, partsLeft - 1)
  {
    ShareOfRest(toAdd, partsLeft, q, if toAdd % partsLeft != 0 then toAdd / partsLeft + 1 else toAdd / partsLeft);
    size := toAdd / partsLeft;
    if toAdd % partsLeft != 0 {
      size := size + 1;
    }
  }

  /** The part loop, for a fair share between q and q + 1. */
  method RangeLists(parts: nat, warehouses: nat, ghost q: nat) returns (layout: seq<seq<int>>)
    requires Times(q, parts) <= warehouses <= Times(q + 1, parts)
    ensures |layout| == parts && Flatten(layout) == OneTo(warehouses)
    ensures forall i :: 0 <= i < parts ==> |layout[i]| == q || |layout[i]| == q + 1
  {
    layout := [];
    var added := 0;
    for i := 0 to parts
      invariant |layout| == i && 0 <= added <= warehouses
      invariant Times(q, parts - i) <= warehouses - added <= Times(q + 1, parts - i)
      invariant Flatten(layout) == OneTo(added)
      invariant forall k :: 0 <= k < i ==> |layout[k]| == q || |layout[k]| == q + 1
    {
      var size := PartSize(warehouses - added, parts - i, q);
      var part := Consecutive(added, size);
      assert (layout + [part])[..i] == layout;
      layout := layout + [part];
      added := added + size;
    }
  }

  method ListAsRange(parts: nat, warehouses: nat) returns (layout: seq<seq<int>>)
    requires parts > 1
    ensures |layout| == parts
    // every warehouse once, in order
    ensures Flatten(layout) == OneTo(warehouses)
    // sizes differ by at most one
    ensures forall i :: 0 <= i < parts ==> |layout[i]| == warehouses / parts || |layout[i]| == warehouses / parts + 1
  {
    FairShare(parts, warehouses);
    layout := RangeLists(parts, warehouses, warehouses / parts);
  }

  lemma FairShare(parts: nat, warehouses: nat)
    requires parts > 0
    ensures var q := warehouses / parts; Times(q, parts) <= warehouses <= Times(q + 1, parts)
  {
    var q := warehouses / parts;
    assert warehouses == parts * q + warehouses % parts;
    assert (q + 1) * parts == parts * q + parts;
  }

  method Consecutive(added: nat, size: nat) returns (part: seq<int>)
    ensures |part| == size && OneTo(added) + part == OneTo(added + size)
  {
    part := [];
    for j := 0 to size
      invariant |part| == j && forall k :: 0 <= k < j ==> part[k] == added + k + 1
    {
      part := part + [added + j + 1];
    }
  }

  // RANGE partitions.

  /** The smallest size with which that many parts hold all warehouses. */
  ghost predicate SmallestSize(each: int, parts: nat, warehouses: nat) {
    each >= 1 && Times(each, parts) >= warehouses > Times(each - 1, parts)
  }

  /** The bounds of VALUES LESS THAN: parts of the smallest sufficient size. */
  ghost predicate RangeLayout(bounds: seq<int>, parts: nat, warehouses: nat, each: int) {
    && |bounds| == parts && SmallestSize(each, parts, warehouses)
    && forall i :: 0 <= i < parts ==> bounds[i] == 1 + Times(each, i + 1)
  }

  method Ranges(parts: nat, warehouses: nat) returns (bounds: seq<int>, each: nat)
    requires parts > 1 && warehouses >= 1
    ensures RangeLayout(bounds, parts, warehouses, each)
  {
    bounds := [];
    each := warehouses / parts;
    if warehouses % parts != 0 {
      each := each + 1;
    }
    RoundedUp(parts, warehouses, each);
    for i := 0 to parts
      invariant |bounds| == i
      invariant forall k :: 0 <= k < i ==> bounds[k] == 1 + Times(each, k + 1)
    {
      bounds := bounds + [1 + (i + 1) * each];
      assert (i + 1) * each == Times(each, i + 1);
    }
  }

  lemma RoundedUp(parts: nat, warehouses: nat, each: nat)
    requires parts > 0 && warehouses >= 1
    requires each == if warehouses % parts != 0 then warehouses / parts + 1 else warehouses / parts
    ensures SmallestSize(each, parts, warehouses)
  {
    var q, r := warehouses / parts, warehouses % parts;
    assert warehouses == parts * q + r;
    assert Times(q + 1, parts) == parts * q + parts && Times(q - 1, parts) == parts * q - parts;
  }

  /** The partition a warehouse falls into: the first whose bound is above it. */
  ghost predicate FallsInto(bounds: seq<int>, w: int, i: int) {
    0 <= i < |bounds| && w < bounds[i] && (i > 0 ==> bounds[i - 1] <= w)
  }

  /** Partition i holds the warehouses i * each + 1 .. (i + 1) * each. */
  lemma RangePart(bounds: seq<int>, parts: nat, warehouses: nat, each: int, w: int, i: int)
    requires RangeLayout(bounds, parts, warehouses, each) && 1 <= w <= warehouses && 0 <= i < parts
    ensures FallsInto(bounds, w, i) <==> Times(each, i) < w <= Times(each, i + 1)
    ensures FallsInto(bounds, w, i) <==> i == (w - 1) / each
  {
    if Times(each, i) < w <= Times(each, i + 1) {
      assert w - 1 == each * i + (w - 1 - each * i);
      DivModIs(w - 1, i, w - 1 - each * i, each);
    }
    assert w - 1 == each * ((w - 1) / each) + (w - 1) % each;
  }

  /** Every warehouse falls into exactly one range partition. */
  lemma RangesCover(bounds: seq<int>, parts: nat, warehouses: nat, each: int, w: int)
    requires RangeLayout(bounds, parts, warehouses, each) && 1 <= w <= warehouses
    ensures FallsInto(bounds, w, (w - 1) / each)
    ensures forall j :: FallsInto(bounds, w, j) ==> j == (w - 1) / each
  {
    var i := (w - 1) / each;
    assert w - 1 == each * i + (w - 1) % each;
    if i >= parts {
      MulMonotone(parts, i, each);
      assert false;
    }
    RangePart(bounds, parts, warehouses, each, w, i);
    forall j | FallsInto(bounds, w, j)
      ensures j == i
    {
      RangePart(bounds, parts, warehouses, each, w, j);
    }
  }

  /** Rounding the size up can leave partitions at the end empty: exactly those that start after the last warehouse. */
  lemma RangeEmpty(bounds: seq<int>, parts: nat, warehouses: nat, each: int, i: int)
    requires RangeLayout(bounds, parts, warehouses, each) && 0 <= i < parts
    ensures (forall w :: 1 <= w <= warehouses ==> !FallsInto(bounds, w, i)) <==> warehouses <= Times(each, i)
  {
    MulMonotone(0, i, each);
    if Times(each, i) < warehouses {
      assert Times(each, i + 1) == Times(each, i) + each;
      RangePart(bounds, parts, warehouses, each, Times(each, i) + 1, i);
    }
    forall w | 1 <= w <= warehouses <= Times(each, i)
      ensures !FallsInto(bounds, w, i)
    {
      RangePart(bounds, parts, warehouses, each, w, i);
    }
  }

  /** Six parts of ten warehouses hold two each, which leaves the sixth empty. */
  lemma SixPartsOfTen(bounds: seq<int>, each: int)
    requires RangeLayout(bounds, 6, 10, each)
    ensures each == 2 && forall w :: 1 <= w <= 10 ==> !FallsInto(bounds, w, 5)
  {
    assert Times(each, 6) == 6 * each && Times(each - 1, 6) == 6 * each - 6;
    assert Times(each, 5) == 5 * each;
    RangeEmpty(bounds, 6, 10, each, 5);
  }
}
