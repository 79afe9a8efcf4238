/** Parts and their suppliers. */
module Parts {
  import opened Streams
  import opened Distributions
  import opened Counting
  import opened Division

  const SUPP_PER_PART := 4
  const SUPPLIERS := 10000   // per unit of scale
  const PARTS := 200000

  /** The i-th supplier of part p, of totScnt suppliers. */
  function PartSuppBridge(p: int, i: int, scale: int): int
    requires scale >= 1
  {
    var totScnt := SUPPLIERS * scale;
    (p + i * (totScnt / SUPP_PER_PART + (p - 1) / totScnt)) % totScnt + 1
  }

  predicate IsPart(p: int, scale: int) {
    1 <= p <= PARTS * scale
  }

  /** The step from one supplier of a part to the next: a quarter of the suppliers, and one more for every
      full round of parts. */
  function Hop(q: int, scale: int): int {
    2500 * scale + q
  }

  lemma RoundOf(p: int, scale: int)
    requires scale >= 1 && IsPart(p, scale)
    ensures var q := (p - 1) / (SUPPLIERS * scale);
      && 0 <= q < 20
      && SUPPLIERS * scale / SUPP_PER_PART + q == Hop(q, scale)
  {
    var S := SUPPLIERS * scale;
    var q := (p - 1) / S;
    assert p - 1 == S * q + (p - 1) % S;
    if q >= 20 {
      MulMonotone(20, q, S);
      assert false;
    }
  }

  lemma HopsApart(i: int, j: int, hop: int, S: int)
    requires 0 <= i < j < SUPP_PER_PART && 0 < hop && 3 * hop < S
    ensures 0 < j * hop - i * hop < S
  {
    assert j * hop - i * hop == (j - i) * hop;
    MulMonotone(1, j - i, hop);
    MulMonotone(j - i, 3, hop);
  }

  lemma BridgeHops(p: int, i: int, scale: int)
    requires scale >= 1 && IsPart(p, scale)
    ensures PartSuppBridge(p, i, scale) == (p + i * Hop((p - 1) / (SUPPLIERS * scale), scale)) % (SUPPLIERS * scale) + 1
  {
    RoundOf(p, scale);
  }

  /** The suppliers of a part are distinct and exist. */
  lemma SuppliersDistinct(p: int, i: int, j: int, scale: int)
    requires scale >= 1 && IsPart(p, scale) && 0 <= i < j < SUPP_PER_PART
    ensures PartSuppBridge(p, i, scale) != PartSuppBridge(p, j, scale)
    ensures 1 <= PartSuppBridge(p, i, scale) <= SUPPLIERS * scale
  {
    var S := SUPPLIERS * scale;
    var hop := Hop((p - 1) / S, scale);
    BridgeHops(p, i, scale);
    BridgeHops(p, j, scale);
    assert 0 < hop && 3 * hop < S by {
      RoundOf(p, scale);
    }
    var x, y := i * hop, j * hop;
    HopsApart(i, j, hop, S);
    if (p + x) % S == (p + y) % S {
      SameResidue(p + x, p + y, S);
    }
  }

  // Counting the parts of a supplier.

  /** The part that supplier k supplies as i-th supplier in round q of the parts. */
  function PartOf(q: int, i: int, k: int, scale: int): int
    requires scale >= 1
  {
    SUPPLIERS * scale * q + (k - 2 - i * Hop(q, scale)) % (SUPPLIERS * scale) + 1
  }

  /** x + r leaves remainder k exactly when r is k - x modulo S. */
  lemma SolveMod(x: int, r: int, k: int, S: int)
    requires S > 0 && 0 <= r < S && 0 <= k < S
    ensures (x + r) % S == k <==> r == (k - x) % S
  {
    if (x + r) % S == k {
      Transpose(x, r, k, S);
    }
    if r == (k - x) % S {
      Transpose(-x, k, r, S);
    }
  }

  lemma Transpose(x: int, r: int, k: int, S: int)
    requires S > 0 && 0 <= r < S && (x + r) % S == k
    ensures (k - x) % S == r
  {
    var n := (x + r) / S;
    assert x + r == S * n + k;
    assert k - x == S * (-n) + r;
    DivModIs(k - x, -n, r, S);
  }

  lemma SuppliesExactly(p: int, i: int, k: int, scale: int)
    requires scale >= 1 && IsPart(p, scale) && 0 <= i < SUPP_PER_PART && 1 <= k <= SUPPLIERS * scale
    ensures PartSuppBridge(p, i, scale) == k <==> p == PartOf((p - 1) / (SUPPLIERS * scale), i, k, scale)
  {
    BridgeHops(p, i, scale);
    var S := SUPPLIERS * scale;
    var q, r := (p - 1) / S, (p - 1) % S;
    var x := i * Hop(q, scale);
    assert p == S * q + r + 1;
    assert p + x == 1 + x + r + S * q;
    ModShift(1 + x + r, q, S);
    SolveMod(1 + x, r, k - 1, S);
  }

  lemma PartOfRange(q: int, i: int, k: int, scale: int)
    requires scale >= 1 && 0 <= q < 20
    ensures IsPart(PartOf(q, i, k, scale), scale)
    ensures (PartOf(q, i, k, scale) - 1) / (SUPPLIERS * scale) == q
  {
    var S := SUPPLIERS * scale;
    var r := (k - 2 - i * Hop(q, scale)) % S;
    MulMonotone(q, 19, S);
    DivModIs(S * q + r, q, r, S);
  }

  ghost function Supplied(k: int, scale: int): set<(int, int)>
    requires scale >= 1
  {
    set p, i | 1 <= p <= PARTS * scale && 0 <= i < SUPP_PER_PART && PartSuppBridge(p, i, scale) == k :: (p, i)
  }

  /** Cell c of the 20 rounds by 4 suppliers. */
  function CellPart(k: int, scale: int): int -> (int, int)
    requires scale >= 1
  {
    c => (PartOf(c / 4, c % 4, k, scale), c % 4)
  }

  ghost function Image<X, Y>(xs: set<X>, f: X -> Y): set<Y> {
    set x <- xs :: f(x)
  }

  lemma {:induction false} ImageCount<X, Y>(xs: set<X>, f: X -> Y)
    requires forall x, y :: x in xs && y in xs && f(x) == f(y) ==> x == y
    ensures |Image(xs, f)| == |xs|
    decreases |xs|
  {
    if xs != {} {
      var x :| x in xs;
      ImageCount(xs - {x}, f);
      assert Image(xs, f) == Image(xs - {x}, f) + {f(x)};
    }
  }

  lemma PairOfCell(k: int, scale: int, c: int)
    requires scale >= 1 && 1 <= k <= SUPPLIERS * scale && 0 <= c < 80
    ensures CellPart(k, scale)(c) in Supplied(k, scale)
    ensures (CellPart(k, scale)(c).0 - 1) / (SUPPLIERS * scale) * 4 + CellPart(k, scale)(c).1 == c
  {
    PartOfRange(c / 4, c % 4, k, scale);
    SuppliesExactly(PartOf(c / 4, c % 4, k, scale), c % 4, k, scale);
  }

  lemma CellOfPair(k: int, scale: int, p: int, i: int) returns (c: int)
    requires scale >= 1 && 1 <= k <= SUPPLIERS * scale && (p, i) in Supplied(k, scale)
    ensures 0 <= c < 80 && CellPart(k, scale)(c) == (p, i)
  {
    RoundOf(p, scale);
    SuppliesExactly(p, i, k, scale);
    var q := (p - 1) / (SUPPLIERS * scale);
    c := q * 4 + i;
    assert c / 4 == q && c % 4 == i;
  }

  lemma SuppliedIsImage(k: int, scale: int, cells: set<int>)
    requires scale >= 1 && 1 <= k <= SUPPLIERS * scale
    requires forall c :: c in cells <==> 0 <= c < 80
    ensures Supplied(k, scale) == Image(cells, CellPart(k, scale))
  {
    var image := Image(cells, CellPart(k, scale));
    forall pair | pair in Supplied(k, scale)
      ensures pair in image
    {
      var c := CellOfPair(k, scale, pair.0, pair.1);
    }
    forall c | c in cells
      ensures CellPart(k, scale)(c) in Supplied(k, scale)
    {
      PairOfCell(k, scale, c);
    }
  }

  lemma SuppliedOncePerCell(k: int, scale: int, cells: set<int>)
    requires scale >= 1 && 1 <= k <= SUPPLIERS * scale
    requires forall c :: c in cells <==> 0 <= c < 80
    ensures |Supplied(k, scale)| == |cells|
  {
    var f := CellPart(k, scale);
    forall c, d | c in cells && d in cells && f(c) == f(d)
      ensures c == d
    {
      PairOfCell(k, scale, c);
      PairOfCell(k, scale, d);
    }
    SuppliedIsImage(k, scale, cells);
    ImageCount(cells, f);
  }

  lemma Cells(n: nat) returns (cells: set<int>)
    ensures |cells| == n && forall c :: c in cells <==> 0 <= c < n
  {
    BelowCount(n);
    cells := Below(n);
  }

  /** Every supplier appears in exactly 80 pairs (section 4.2.3 of the TPC-H specification). */
  lemma SuppliedEightyTimes(k: int, scale: int)
    requires scale >= 1 && 1 <= k <= SUPPLIERS * scale
    ensures |Supplied(k, scale)| == 80
  {
    var cells := Cells(80);
    SuppliedOncePerCell(k, scale, cells);
  }

  // makePart.

  datatype PartSupp = PartSupp(partKey: int, suppKey: int, qty: int, cost: int, comment: Text)

  datatype Part = Part(key: int, colours: seq<int>, mfgr: int, brand: int, kind: int, size: int, container: int,
                       retailPrice: int, comment: Text, suppliers: seq<PartSupp>)

  function RpbRoutine(p: int): int {
    90000 + (p / 10) % 20001 + (p % 1000) * 100
  }

  /** Prices lie between 900.00 and 2099.00 and rise by a dollar from part to part, and by a cent more every ten
      parts, but for the places where the two start again. */
  lemma PricesRise(p: int)
    requires 0 <= p
    ensures RpbRoutine(0) == 90000 && 90000 <= RpbRoutine(p) <= 209900
    ensures RpbRoutine(p + 1) - RpbRoutine(p)
         == (if (p + 1) % 1000 == 0 then -99900 else 100)
            + if (p + 1) % 10 != 0 then 0 else if (p + 1) / 10 % 20001 == 0 then -20000 else 1
  {
    NextResidue(p, 1000);
    NextResidue(p, 10);
    NextResidue(p / 10, 20001);
  }

  /** A distribution as readDist leaves it. */
  datatype Dist = Dist(weights: seq<int>, members: seq<int>)

  ghost predicate ValidDist(d: Dist) {
    PositiveWeights(d.weights) && Cumulative(d.members, d.weights)
  }

  const COLOURS := 92

  /** The i-th supplier of a part, from the draws since the row started. */
  ghost function PartSuppAt(start: seq<Seed>, idx: int, i: nat, scale: int): PartSupp
    requires |start| == STREAMS && scale >= 1
  {
    PartSupp(idx, PartSuppBridge(idx, i, scale), At(start, 7, i + 1, 1, 9999), At(start, 8, i + 1, 100, 100000),
             TextAt(start, 9, 2 * i + 1, 49, 198))
  }

  ghost function PartAt(start: seq<Seed>, idx: int, scale: int, types: Dist, containers: Dist): Part
    requires |start| == STREAMS && scale >= 1
  {
    var mfgr := At(start, 0, 1, 1, 5);
    Part(idx, Shuffled(start, 37, COLOURS)[..5], mfgr, mfgr * 10 + At(start, 1, 1, 1, 5),
         PickAt(start, 2, 1, types.members), At(start, 3, 1, 1, 50), PickAt(start, 4, 1, containers.members),
         RpbRoutine(idx), TextAt(start, 6, 1, 5, 22), seq(SUPP_PER_PART,
           i requires 0 <= i => PartSuppAt(start, idx, i, scale)))
  }

  /** What the specification asks of a part: five different colours, and four different suppliers that supply it. */
  ghost predicate ValidPart(part: Part, idx: int, scale: int)
    requires scale >= 1
  {
    && part.key == idx && 1 <= part.size <= 50
    && 1 <= part.mfgr <= 5 && part.brand / 10 == part.mfgr && 1 <= part.brand % 10 <= 5
    && |part.colours| == 5 && (forall i, j :: 0 <= i < j < 5 ==> part.colours[i] != part.colours[j])
    && (forall i :: 0 <= i < 5 ==> 0 <= part.colours[i] < COLOURS)
    && |part.suppliers| == SUPP_PER_PART
    && (forall i :: 0 <= i < SUPP_PER_PART ==> (idx, i) in Supplied(part.suppliers[i].suppKey, scale))
    && (forall i, j :: 0 <= i < j < SUPP_PER_PART ==> part.suppliers[i].suppKey != part.suppliers[j].suppKey)
  }

  /** Manufacturer, brand and type. */
  method PartLabels(seeds: array<Seed>, types: Dist, ghost start: seq<Seed>) returns (mfgr: int, brand: int, kind: int)
    requires Valid(seeds[..]) && Drew(start, seeds[..]) && ValidDist(types)
    requires forall s :: 0 <= s <= 2 ==> seeds[s].usage == start[s].usage
    modifies seeds
    ensures Valid(seeds[..]) && Drew(start, seeds[..])
    ensures forall s :: 0 <= s < STREAMS ==> seeds[s].usage == old(seeds[s].usage) + if s <= 2 then 1 else 0
    ensures mfgr == At(start, 0, 1, 1, 5) && brand == At(start, 1, 1, 1, 5)
      && kind == PickAt(start, 2, 1, types.members)
    ensures 1 <= mfgr <= 5 && 1 <= brand <= 5
  {
    mfgr := Random(seeds, 1, 5, 0, start);
    brand := Random(seeds, 1, 5, 1, start);
    kind := PickStr(seeds, types.members, types.weights, 2, start);
  }

  /** The columns of the part itself, after its name. */
  method PartRow(seeds: array<Seed>, idx: int, scale: int, types: Dist, containers: Dist, colours: seq<int>,
                 ghost start: seq<Seed>) returns (part: Part)
    requires scale >= 1 && Valid(seeds[..]) && Drew(start, seeds[..]) && ValidDist(types) && ValidDist(containers)
    requires forall s :: 0 <= s <= 6 ==> seeds[s].usage == start[s].usage
    requires colours == Shuffled(start, 37, COLOURS)[..5]
    modifies seeds
    ensures Valid(seeds[..]) && Drew(start, seeds[..])
    ensures forall s :: 0 <= s < STREAMS ==>
      seeds[s].usage == old(seeds[s].usage) + if Owner(s) == TPart && s != 37 then Boundary(s) else 0
    ensures part == PartAt(start, idx, scale, types, containers).(suppliers := [])
    ensures 1 <= part.mfgr <= 5 && part.brand / 10 == part.mfgr && 1 <= part.brand % 10 <= 5 && 1 <= part.size <= 50
  {
    var mfgr, brand, kind := PartLabels(seeds, types, start);
    var size := Random(seeds, 1, 50, 3, start);
    var container := PickStr(seeds, containers.members, containers.weights, 4, start);
    var comment := MakeText(seeds, 5, 22, 6, start);
    part := Part(idx, colours, mfgr, mfgr * 10 + brand, kind, size, container, RpbRoutine(idx), comment, []);
  }

  /** The i-th supplier of a part. */
  method PartSuppRow(seeds: array<Seed>, idx: int, i: nat, scale: int, ghost start: seq<Seed>) returns (ps: PartSupp)
    requires scale >= 1 && Valid(seeds[..]) && Drew(start, seeds[..])
    requires seeds[7].usage == start[7].usage + i && seeds[8].usage == start[8].usage + i
      && seeds[9].usage == start[9].usage + 2 * i
    modifies seeds
    ensures Valid(seeds[..]) && Drew(start, seeds[..])
    ensures forall s :: 0 <= s < STREAMS ==>
      seeds[s].usage == old(seeds[s].usage) + if s == 7 || s == 8 then 1 else if s == 9 then 2 else 0
    ensures ps == PartSuppAt(start, idx, i, scale)
  {
    var suppKey := PartSuppBridge(idx, i, scale);
    var qty := Random(seeds, 1, 9999, 7, start);
    var cost := Random(seeds, 100, 100000, 8, start);
    var comment := MakeText(seeds, 49, 198, 9, start);
    ps := PartSupp(idx, suppKey, qty, cost, comment);
  }

  /** The supplier loop. */
  method PartSuppRows(seeds: array<Seed>, idx: int, scale: int, ghost start: seq<Seed>)
    returns (suppliers: seq<PartSupp>)
    requires scale >= 1 && IsPart(idx, scale) && Valid(seeds[..]) && Drew(start, seeds[..])
    requires forall s :: 7 <= s <= 9 ==> seeds[s].usage == start[s].usage
    modifies seeds
    ensures Valid(seeds[..]) && Drew(start, seeds[..])
    ensures forall s :: 0 <= s < STREAMS ==>
      seeds[s].usage == old(seeds[s].usage) + if Owner(s) == TPsupp then Boundary(s) else 0
    ensures |suppliers| == SUPP_PER_PART
    ensures forall i :: 0 <= i < SUPP_PER_PART ==> suppliers[i] == PartSuppAt(start, idx, i, scale)
  {
    suppliers := [];
    for i := 0 to SUPP_PER_PART
      invariant Valid(seeds[..]) && Drew(start, seeds[..])
      invariant |suppliers| == i && forall j :: 0 <= j < i ==> suppliers[j] == PartSuppAt(start, idx, j, scale)
      invariant forall s :: 0 <= s < STREAMS ==>
        seeds[s].usage == old(seeds[s].usage) + if s == 7 || s == 8 then i else if s == 9 then 2 * i else 0
    {
      var ps := PartSuppRow(seeds, idx, i, scale, start);
      suppliers := suppliers + [ps];
    }
  }

  method MakePart(seeds: array<Seed>, idx: int, scale: int, colours: array<int>, types: Dist, containers: Dist,
                  ghost start: seq<Seed>)
    returns (part: Part)
    requires scale >= 1 && IsPart(idx, scale)
    requires seeds[..] == start && Valid(start) && Drew(start, start)
    requires colours.Length == COLOURS && ValidDist(types) && ValidDist(containers)
    modifies seeds, colours
    ensures Valid(seeds[..]) && Drew(start, seeds[..])
    ensures forall s :: 0 <= s < STREAMS ==>
      seeds[s].usage == start[s].usage + if Draws(TPart, s) then Boundary(s) else 0
    ensures part == PartAt(start, idx, scale, types, containers) && ValidPart(part, idx, scale)
  {
    PermuteDist(seeds, colours, 37, start);
    var row := PartRow(seeds, idx, scale, types, containers, colours[..5], start);
    var suppliers := PartSuppRows(seeds, idx, scale, start);
    part := row.(suppliers := suppliers);
    assert part.suppliers == PartAt(start, idx, scale, types, containers).suppliers;
    forall i, j | 0 <= i < j < SUPP_PER_PART
      ensures suppliers[i].suppKey != suppliers[j].suppKey
    {
      SuppliersDistinct(idx, i, j, scale);
    }
  }

  // A part depends on nothing but the places of its streams.

  lemma {:induction false} SourcesFromDraws(x: seq<Seed>, y: seq<Seed>, s: int, count: nat, n: nat)
    requires |x| == |y| && 0 <= s < |x| && x[s].value == y[s].value
    ensures SourcesAt(x, s, count, n) == SourcesAt(y, s, count, n)
  {
    if n > 0 {
      SourcesFromDraws(x, y, s, count, n - 1);
    }
  }

  lemma PartFromDraws(x: seq<Seed>, y: seq<Seed>, idx: int, scale: int, types: Dist, containers: Dist)
    requires scale >= 1 && SameDraws(TPart, x, y)
    ensures PartAt(x, idx, scale, types, containers) == PartAt(y, idx, scale, types, containers)
  {
    assert forall s :: s in {0, 1, 2, 3, 4, 6, 7, 8, 9, 37} ==> Draws(TPart, s) && x[s].value == y[s].value;
    SourcesFromDraws(x, y, 37, COLOURS, COLOURS);
  }
}
