/** Generating and skipping rows of a table. */
module Driver {
  import opened Division
  import opened Generators
  import opened Streams
  import opened Parts
  import opened Orders
  import opened Parties

  /** What the rows are made from: the scale, the distributions and the text pool. */
  datatype Config = Config(scale: int, types: Dist, containers: Dist, segments: Dist, orders: Dists, nations: int,
                           regions: int, pool: string)

  predicate Sized(c: Config) {
    c.scale >= 1 && c.nations >= 1 && c.regions >= 1
  }

  ghost predicate ValidConfig(c: Config) {
    && Sized(c) && |c.pool| == TEXT_POOL_SIZE
    && ValidDist(c.types) && ValidDist(c.containers) && ValidDist(c.segments) && ValidDists(c.orders)
  }

  predicate IsPartTable(t: Table) {
    t == TPart || t == TPsupp || t == TPartPsupp
  }

  predicate IsOrderTable(t: Table) {
    t == TOrder || t == TLine || t == TOrderLine
  }

  /** From scale 30000 on, orders draw from the 64-bit generator, which is not modelled in the streams. */
  predicate InScale(t: Table, c: Config) {
    IsOrderTable(t) ==> c.scale < 30000
  }

  /** A row with its child rows. */
  datatype Row =
    | OrderRow(order: Order)
    | PartRow(part: Part)
    | SuppRow(supp: Supp)
    | CustRow(cust: Cust)
    | PlaceRow(code: int, comment: string)

  /** The row that the draws since `start` spell. */
  ghost function RowAt(start: seq<Seed>, t: Table, idx: nat, c: Config): Row
    requires |start| == STREAMS && c.scale >= 1
  {
    if IsOrderTable(t) then OrderRow(OrderAt(start, idx, c.scale, c.orders))
    else if IsPartTable(t) then PartRow(PartAt(start, idx, c.scale, c.types, c.containers))
    else if t == TSupp then SuppRow(SuppAt(start, idx, c.nations, c.pool))
    else if t == TCust then CustRow(CustAt(start, idx, c.nations, c.segments, c.pool))
    else PlaceRow(idx - 1, Slice(c.pool, TextAt(start, if t == TNation then 41 else 42, 1, 28, 115)))
  }

  /** A row depends on nothing but the places of the streams it draws from. */
  lemma RowFromDraws(t: Table, idx: nat, c: Config, x: seq<Seed>, y: seq<Seed>)
    requires t != TNone && SameDraws(t, x, y) && c.scale >= 1
    ensures RowAt(x, t, idx, c) == RowAt(y, t, idx, c)
  {
    if IsOrderTable(t) {
      OrderFromDraws(x, y, idx, c.scale, c.orders);
    } else if IsPartTable(t) {
      PartFromDraws(x, y, idx, c.scale, c.types, c.containers);
    } else if t == TSupp {
      SuppFromDraws(x, y, idx, c.nations, c.pool);
    } else if t == TCust {
      CustFromDraws(x, y, idx, c.nations, c.segments, c.pool);
    } else {
      assert Draws(t, if t == TNation then 41 else 42);
    }
  }

  /** The streams whose place after k rows does not depend on what the rows contained. */
  predicate Aligned(t: Table, s: int) {
    0 <= s < STREAMS && (Realigned(t, s) || Draws(t, s))
  }

  /** The steps of k rows on stream s. */
  function Jump(k: nat, s: int): nat {
    k * Boundary(s)
  }

  /** Every aligned stream moved by k rows, and no other stream moved. */
  ghost predicate Moved(t: Table, k: nat, before: seq<Seed>, after: seq<Seed>) {
    && |before| == |after| == STREAMS
    && (forall s :: Aligned(t, s) ==> after[s].value == Steps(Jump(k, s), before[s].value))
    && (forall s :: 0 <= s < STREAMS && !Aligned(t, s) ==> after[s].value == before[s].value)
  }

  /** A row stays within the boundary of every aligned stream, reaches it on those that rowStop does not realign,
      and leaves the other streams alone. */
  ghost predicate RowUse(t: Table, start: seq<Seed>, made: seq<Seed>) {
    && |start| == |made| == STREAMS
    && (forall s :: Aligned(t, s) ==> made[s].usage <= start[s].usage + Boundary(s))
    && (forall s :: Aligned(t, s) && !Realigned(t, s) ==> made[s].usage == start[s].usage + Boundary(s))
    && (forall s :: 0 <= s < STREAMS && !Aligned(t, s) ==> made[s].usage == start[s].usage)
  }

  lemma OrderRowUse(t: Table, start: seq<Seed>, made: seq<Seed>)
    requires IsOrderTable(t) && OrderUse(start, made)
    ensures RowUse(t, start, made)
  {
    forall s | Aligned(t, s)
      ensures made[s].usage <= start[s].usage + Boundary(s)
      ensures !Realigned(t, s) ==> made[s].usage == start[s].usage + Boundary(s)
    {
      assert Draws(t, s) <==> Draws(TOrder, s);
    }
  }

  /** The other tables draw each of their streams to the boundary, except the address. */
  lemma PlainRowUse(t: Table, start: seq<Seed>, made: seq<Seed>, address: int)
    requires !IsOrderTable(t) && |start| == |made| == STREAMS
    requires address == (if t == TSupp then 32 else if t == TCust then 26 else -1)
    requires forall s :: 0 <= s < STREAMS && s != address ==>
      made[s].usage == start[s].usage + if Draws(t, s) then Boundary(s) else 0
    requires address >= 0 ==> made[address].usage <= start[address].usage + 9
    ensures RowUse(t, start, made)
  {
    forall s | Aligned(t, s)
      ensures made[s].usage <= start[s].usage + Boundary(s)
      ensures !Realigned(t, s) ==> made[s].usage == start[s].usage + Boundary(s)
    {
      if s == address {
        assert Boundary(s) == 9 && Realigned(t, s);
      }
    }
  }

  /** RowAt as a value, for a table and a configuration. */
  type RowMaker = (seq<Seed>, nat) -> Row

  ghost predicate Makes(at: RowMaker, t: Table, c: Config)
    requires c.scale >= 1
  {
    forall start: seq<Seed>, idx: nat {:trigger RowAt(start, t, idx, c)} :: |start| == STREAMS
      ==> at(start, idx) == RowAt(start, t, idx, c)
  }

  /** There is one for every table. */
  lemma MakerExists(t: Table, c: Config) returns (at: RowMaker)
    requires c.scale >= 1
    ensures Makes(at, t, c)
  {
    at := (start: seq<Seed>, idx: nat) => if |start| == STREAMS then RowAt(start, t, idx, c) else PlaceRow(0, "");
  }

  /** What a row needs to know of the streams it draws from is their places. */
  ghost predicate FromDraws(at: RowMaker, t: Table) {
    forall x, y, idx: nat :: SameDraws(t, x, y) ==> at(x, idx) == at(y, idx)
  }

  lemma MakerFromDraws(at: RowMaker, t: Table, c: Config)
    requires c.scale >= 1 && t != TNone && Makes(at, t, c)
    ensures FromDraws(at, t)
  {
    forall x, y, idx: nat | SameDraws(t, x, y)
      ensures at(x, idx) == at(y, idx)
    {
      RowFromDraws(t, idx, c, x, y);
      assert at(x, idx) == RowAt(x, t, idx, c) && at(y, idx) == RowAt(y, t, idx, c);
    }
  }

  /** Make one row. */
  method MakeRow(seeds: array<Seed>, t: Table, idx: nat, c: Config, colours: array<int>, ghost start: seq<Seed>)
    returns (row: Row)
    requires ValidConfig(c) && InScale(t, c) && t != TNone && colours.Length == COLOURS
      && (IsPartTable(t) ==> IsPart(idx, c.scale))
    requires seeds[..] == start && Valid(start) && Drew(start, start)
    modifies seeds, colours
    ensures Valid(seeds[..]) && Drew(start, seeds[..]) && RowUse(t, start, seeds[..])
    ensures row == RowAt(start, t, idx, c)
  {
    if IsOrderTable(t) {
      row := MakeOrderRow(seeds, t, idx, c, start);
    } else if t == TSupp {
      row := MakeSuppRow(seeds, t, idx, c, start);
    } else if t == TCust {
      row := MakeCustRow(seeds, t, idx, c, start);
    } else if IsPartTable(t) {
      row := MakePartRow(seeds, t, idx, c, colours, start);
    } else {
      row := MakePlaceRow(seeds, t, idx, c, start);
    }
  }

  method MakeOrderRow(seeds: array<Seed>, t: Table, idx: nat, c: Config, ghost start: seq<Seed>) returns (row: Row)
    requires ValidConfig(c) && InScale(t, c) && IsOrderTable(t)
    requires seeds[..] == start && Valid(start) && Drew(start, start)
    modifies seeds
    ensures Valid(seeds[..]) && Drew(start, seeds[..]) && RowUse(t, start, seeds[..])
    ensures row == OrderRow(OrderAt(start, idx, c.scale, c.orders))
  {
    var order := MakeOrder(seeds, idx, c.scale, c.orders, start);
    OrderRowUse(t, start, seeds[..]);
    row := OrderRow(order);
  }

  method MakeSuppRow(seeds: array<Seed>, t: Table, idx: nat, c: Config, ghost start: seq<Seed>) returns (row: Row)
    requires ValidConfig(c) && t == TSupp
    requires seeds[..] == start && Valid(start) && Drew(start, start)
    modifies seeds
    ensures Valid(seeds[..]) && Drew(start, seeds[..]) && RowUse(t, start, seeds[..])
    ensures row == SuppRow(SuppAt(start, idx, c.nations, c.pool))
  {
    var supp := MakeSupp(seeds, idx, c.nations, c.pool, start);
    PlainRowUse(t, start, seeds[..], 32);
    row := SuppRow(supp);
  }

  method MakeCustRow(seeds: array<Seed>, t: Table, idx: nat, c: Config, ghost start: seq<Seed>) returns (row: Row)
    requires ValidConfig(c) && t == TCust
    requires seeds[..] == start && Valid(start) && Drew(start, start)
    modifies seeds
    ensures Valid(seeds[..]) && Drew(start, seeds[..]) && RowUse(t, start, seeds[..])
    ensures row == CustRow(CustAt(start, idx, c.nations, c.segments, c.pool))
  {
    var cust := MakeCust(seeds, idx, c.nations, c.segments, c.pool, start);
    PlainRowUse(t, start, seeds[..], 26);
    row := CustRow(cust);
  }

  method MakePartRow(seeds: array<Seed>, t: Table, idx: nat, c: Config, colours: array<int>, ghost start: seq<Seed>)
    returns (row: Row)
    requires ValidConfig(c) && IsPartTable(t) && colours.Length == COLOURS && IsPart(idx, c.scale)
    requires seeds[..] == start && Valid(start) && Drew(start, start)
    modifies seeds, colours
    ensures Valid(seeds[..]) && Drew(start, seeds[..]) && RowUse(t, start, seeds[..])
    ensures row == PartRow(PartAt(start, idx, c.scale, c.types, c.containers))
  {
    var part := MakePart(seeds, idx, c.scale, colours, c.types, c.containers, start);
    assert forall s :: Draws(t, s) <==> Draws(TPart, s);
    PlainRowUse(t, start, seeds[..], -1);
    row := PartRow(part);
  }

  /** Nations and regions. */
  method MakePlaceRow(seeds: array<Seed>, t: Table, idx: nat, c: Config, ghost start: seq<Seed>) returns (row: Row)
    requires ValidConfig(c) && (t == TNation || t == TRegion)
    requires seeds[..] == start && Valid(start) && Drew(start, start)
    modifies seeds
    ensures Valid(seeds[..]) && Drew(start, seeds[..]) && RowUse(t, start, seeds[..])
    ensures row == PlaceRow(idx - 1, Slice(c.pool, TextAt(start, if t == TNation then 41 else 42, 1, 28, 115)))
  {
    var comment := PoolText(seeds, c.pool, 28, 115, if t == TNation then 41 else 42, start);
    PlainRowUse(t, start, seeds[..], -1);
    row := PlaceRow(idx - 1, comment);
  }

  /** Make one row, known by its maker. */
  method MakeRowAt(seeds: array<Seed>, t: Table, idx: nat, c: Config, colours: array<int>, ghost start: seq<Seed>,
                   ghost at: RowMaker) returns (row: Row)
    requires ValidConfig(c) && InScale(t, c) && t != TNone && colours.Length == COLOURS
      && (IsPartTable(t) ==> IsPart(idx, c.scale))
    requires seeds[..] == start && Valid(start) && Drew(start, start) && Makes(at, t, c)
    modifies seeds, colours
    ensures Valid(seeds[..]) && Drew(start, seeds[..]) && RowUse(t, start, seeds[..])
    ensures row == at(start, idx)
  {
    row := MakeRow(seeds, t, idx, c, colours, start);
  }

  /** What rowStart leaves. */
  ghost predicate Zeroed(before: seq<Seed>, start: seq<Seed>) {
    && |before| == |start| == STREAMS
    && forall s :: 0 <= s < STREAMS ==> start[s] == if s < MAX_STREAM then before[s].(usage := 0) else before[s]
  }

  /** Start a row and make it. */
  method StartRow(seeds: array<Seed>, t: Table, idx: nat, c: Config, colours: array<int>, ghost at: RowMaker)
    returns (row: Row, ghost start: seq<Seed>)
    requires ValidConfig(c) && InScale(t, c) && t != TNone && colours.Length == COLOURS
      && (IsPartTable(t) ==> IsPart(idx, c.scale))
    requires Valid(seeds[..]) && Makes(at, t, c) && FromDraws(at, t)
    modifies seeds, colours
    ensures Zeroed(old(seeds[..]), start) && Drew(start, seeds[..]) && RowUse(t, start, seeds[..]) && Valid(seeds[..])
    ensures row == at(old(seeds[..]), idx)
  {
    ghost var before := seeds[..];
    RowStart(seeds);
    start := seeds[..];
    row := MakeRowAt(seeds, t, idx, c, colours, start, at);
    assert SameDraws(t, start, before);
  }

  lemma WithinBoundary(t: Table, before: seq<Seed>, start: seq<Seed>, made: seq<Seed>)
    requires Zeroed(before, start) && RowUse(t, start, made)
    ensures forall s :: Realigned(t, s) ==> made[s].usage <= Boundary(s)
  {
    assert forall s :: Realigned(t, s) ==> Aligned(t, s);
  }

  /** One turn of the row loop. */
  method GenRow(seeds: array<Seed>, t: Table, idx: nat, c: Config, colours: array<int>, ghost at: RowMaker)
    returns (row: Row)
    requires ValidConfig(c) && InScale(t, c) && t != TNone && colours.Length == COLOURS
      && (IsPartTable(t) ==> IsPart(idx, c.scale))
    requires Valid(seeds[..]) && Makes(at, t, c) && FromDraws(at, t)
    modifies seeds, colours
    ensures Valid(seeds[..]) && Moved(t, 1, old(seeds[..]), seeds[..])
    ensures row == at(old(seeds[..]), idx)
  {
    ghost var before, start := seeds[..], [];
    row, start := StartRow(seeds, t, idx, c, colours, at);
    ghost var made := seeds[..];
    WithinBoundary(t, before, start, made);
    RowStop(seeds, t);
    RowMoves(before, start, made, seeds[..], t);
  }

  lemma RowMoves(before: seq<Seed>, start: seq<Seed>, made: seq<Seed>, after: seq<Seed>, t: Table)
    requires Drew(start, made) && |before| == |after| == STREAMS && RowUse(t, start, made)
    requires Zeroed(before, start)
    requires forall s :: 0 <= s < STREAMS ==>
      after[s] == if Realigned(t, s) && made[s].usage <= Boundary(s)
        then made[s].(value := Steps(Boundary(s) - made[s].usage, made[s].value)) else made[s]
    ensures Moved(t, 1, before, after)
  {
    forall s | Aligned(t, s)
      ensures after[s].value == Steps(Jump(1, s), before[s].value)
    {
      RowAligned(before, start, made, after, t, s);
    }
    forall s | 0 <= s < STREAMS && !Aligned(t, s)
      ensures after[s].value == before[s].value
    {
      RowAligned(before, start, made, after, t, s);
    }
  }

  lemma OneMoreRow(k: nat, b: nat, v: int)
    ensures Steps((k + 1) * b, v) == Steps(b, Steps(k * b, v))
  {
    MoreRows(k, 1, b, v);
  }

  lemma MoreRows(j: nat, k: nat, b: nat, v: int)
    ensures Steps((j + k) * b, v) == Steps(k * b, Steps(j * b, v))
  {
    assert (j + k) * b == j * b + k * b;
    StepsCompose(j * b, k * b, v);
  }

  lemma MovedOn(t: Table, j: nat, k: nat, before: seq<Seed>, between: seq<Seed>, after: seq<Seed>)
    requires Moved(t, j, before, between) && Moved(t, k, between, after)
    ensures Moved(t, j + k, before, after)
  {
    forall s | Aligned(t, s)
      ensures after[s].value == Steps(Jump(j + k, s), before[s].value)
    {
      MoreRows(j, k, Boundary(s), before[s].value);
    }
  }

  /** The streams k rows further. */
  ghost function Ahead(ss: seq<Seed>, t: Table, k: nat): (r: seq<Seed>)
    requires |ss| == STREAMS
    ensures Moved(t, k, ss, r)
  {
    seq(STREAMS, s requires 0 <= s < STREAMS =>
      if Aligned(t, s) then ss[s].(value := Steps(Jump(k, s), ss[s].value)) else ss[s])
  }

  lemma MovedIsAhead(t: Table, k: nat, before: seq<Seed>, after: seq<Seed>)
    requires Moved(t, k, before, after)
    ensures SameDraws(t, after, Ahead(before, t, k))
  {
    assert forall s :: 0 <= s < STREAMS && Draws(t, s) ==> Aligned(t, s);
  }

  /** Orders made for the order table, the line table or both are the same, and so are parts: a table made
      alone and its partner made alone from the same seeds fit together. */
  lemma PartnersAgree(t: Table, u: Table, k: nat, idx: nat, c: Config, ss: seq<Seed>)
    requires |ss| == STREAMS && c.scale >= 1
    requires (IsOrderTable(t) && IsOrderTable(u)) || (IsPartTable(t) && IsPartTable(u))
    ensures RowAt(Ahead(ss, t, k), t, idx, c) == RowAt(Ahead(ss, u, k), u, idx, c)
  {
    var x, y := Ahead(ss, t, k), Ahead(ss, u, k);
    forall s | 0 <= s < STREAMS && Draws(t, s)
      ensures x[s].value == y[s].value
    {
      assert Draws(u, s) && Aligned(t, s) && Aligned(u, s);
    }
    RowFromDraws(t, idx, c, x, y);
  }

  /** Rows with the numbers first, first + 1, ... of a table whose row `first` starts at `ss`. */
  ghost predicate AreRows(rows: seq<Row>, t: Table, first: nat, at: RowMaker, ss: seq<Seed>)
    requires |ss| == STREAMS
  {
    forall k :: 0 <= k < |rows| ==> rows[k] == at(Ahead(ss, t, k), first + k)
  }

  lemma RowAdded(rows: seq<Row>, row: Row, t: Table, first: nat, at: RowMaker, ss: seq<Seed>, now: seq<Seed>)
    requires |ss| == STREAMS && FromDraws(at, t) && AreRows(rows, t, first, at, ss)
    requires Moved(t, |rows|, ss, now) && row == at(now, first + |rows|)
    ensures AreRows(rows + [row], t, first, at, ss)
  {
    MovedIsAhead(t, |rows|, ss, now);
  }

  /** These rows are made, and the streams are at the places for the next one. */
  ghost predicate MadeSoFar(rows: seq<Row>, t: Table, first: nat, at: RowMaker, was: seq<Seed>, now: seq<Seed>)
    requires |was| == STREAMS
  {
    Moved(t, |rows|, was, now) && AreRows(rows, t, first, at, was)
  }

  lemma MadeNext(rows: seq<Row>, row: Row, t: Table, first: nat, at: RowMaker, was: seq<Seed>, before: seq<Seed>,
                 after: seq<Seed>)
    requires |was| == |before| == STREAMS && FromDraws(at, t) && MadeSoFar(rows, t, first, at, was, before)
    requires row == at(before, first + |rows|) && Moved(t, 1, before, after)
    ensures MadeSoFar(rows + [row], t, first, at, was, after)
  {
    RowAdded(rows, row, t, first, at, was, before);
    MovedOn(t, |rows|, 1, was, before, after);
  }

  /** The row loop: row k is made from the places that k times the boundary gives, whatever the rows before
      it contained, and the loop leaves the streams there for the next rows. */
  method GenTbl(seeds: array<Seed>, t: Table, first: nat, count: nat, c: Config, colours: array<int>,
                ghost at: RowMaker) returns (rows: seq<Row>)
    requires ValidConfig(c) && InScale(t, c) && t != TNone && colours.Length == COLOURS
    requires IsPartTable(t) ==> 1 <= first && first + count - 1 <= PARTS * c.scale
    requires Valid(seeds[..]) && Makes(at, t, c)
    modifies seeds, colours
    ensures Valid(seeds[..]) && Moved(t, count, old(seeds[..]), seeds[..])
    ensures |rows| == count && AreRows(rows, t, first, at, old(seeds[..]))
  {
    MakerFromDraws(at, t, c);
    rows := [];
    ghost var was := seeds[..];
    for k := 0 to count
      invariant Valid(seeds[..]) && |rows| == k && MadeSoFar(rows, t, first, at, was, seeds[..])
    {
      ghost var before := seeds[..];
      var row := GenRow(seeds, t, first + k, c, colours, at);
      MadeNext(rows, row, t, first, at, was, before, seeds[..]);
      rows := rows + [row];
    }
  }

  // Several tables, one after the other.

  /** Rows of t move no stream that rows of u draw from. */
  ghost predicate Apart(t: Table, u: Table) {
    forall s :: 0 <= s < STREAMS && Aligned(t, s) ==> !Draws(u, s)
  }

  /** The tables that are made together: orders with lines, parts with part suppliers. */
  function Family(t: Table): Table {
    if IsOrderTable(t) then TOrder else if IsPartTable(t) then TPart else t
  }

  /** The family a stream belongs to. */
  function StreamFamily(s: int): Table {
    Family(Owner(s))
  }

  lemma DrawsOwn(u: Table, s: int)
    requires 0 <= s < STREAMS && Draws(u, s)
    ensures StreamFamily(s) == Family(u) && s != 5
  {
  }

  lemma AlignsOwn(t: Table, s: int)
    requires 0 <= s < STREAMS && Aligned(t, s) && t != TNone
    ensures StreamFamily(s) == Family(t) || s == 5
  {
    if Draws(t, s) {
      DrawsOwn(t, s);
    }
  }

  /** A stream that every table of the family draws from. */
  function Witness(t: Table): int {
    match Family(t)
    case TOrder => 13
    case TPart => 0
    case TSupp => 33
    case TCust => 27
    case TNation => 41
    case _ => 42
  }

  /** Tables are apart exactly when they are of different families. */
  lemma ApartIff(t: Table, u: Table)
    requires t != TNone && u != TNone
    ensures Apart(t, u) <==> Family(t) != Family(u)
  {
    if Family(t) == Family(u) {
      assert Draws(t, Witness(t)) && Draws(u, Witness(t));
    } else {
      forall s | 0 <= s < STREAMS && Aligned(t, s)
        ensures !Draws(u, s)
      {
        AlignsOwn(t, s);
        if Draws(u, s) {
          DrawsOwn(u, s);
        }
      }
    }
  }

  /** The streams the text pool draws from belong to no table. */
  lemma PoolApart(u: Table, x: seq<Seed>, y: seq<Seed>)
    requires |x| == |y| == STREAMS && forall s :: 0 <= s < STREAMS && s != 5 ==> x[s].value == y[s].value
    ensures SameDraws(u, x, y)
  {
  }

  lemma RowsFromDraws(rows: seq<Row>, t: Table, first: nat, at: RowMaker, x: seq<Seed>, y: seq<Seed>)
    requires SameDraws(t, x, y) && FromDraws(at, t) && AreRows(rows, t, first, at, x)
    ensures AreRows(rows, t, first, at, y)
  {
    forall k | 0 <= k < |rows|
      ensures rows[k] == at(Ahead(y, t, k), first + k)
    {
      assert SameDraws(t, Ahead(x, t, k), Ahead(y, t, k));
    }
  }

  /** The number of rows of a table. */
  function RowCount(t: Table, c: Config): nat
    requires Sized(c)
  {
    if t == TNation then c.nations
    else if t == TRegion then c.regions
    else if IsPartTable(t) then c.scale * PARTS
    else if t == TSupp then c.scale * SUPPLIERS
    else c.scale * if t == TCust then CUSTOMERS else CUSTOMERS * 10
  }

  /** The tables fit together: 80 parts with suppliers for each supplier as `SuppliedEightyTimes` counts them, and
      ten orders for each customer. */
  lemma RowCountsFit(c: Config)
    requires Sized(c)
    ensures RowCount(TPart, c) * SUPP_PER_PART == RowCount(TSupp, c) * 80 && RowCount(TSupp, c) == 10000 * c.scale
    ensures RowCount(TOrder, c) == RowCount(TLine, c) == 10 * RowCount(TCust, c)
    ensures RowCount(TCust, c) == 15 * RowCount(TSupp, c)
  {
  }

  /** The rows that the first n tables of the list made of u's family. */
  function RowsBefore(tables: seq<Table>, n: nat, u: Table, c: Config): nat
    requires n <= |tables| && Sized(c)
  {
    if n == 0 then 0
    else RowsBefore(tables, n - 1, u, c) + if Family(tables[n - 1]) == Family(u) then RowCount(tables[n - 1], c) else 0
  }

  lemma {:induction false} RowsBeforeApart(tables: seq<Table>, n: nat, u: Table, c: Config)
    requires n <= |tables| && Sized(c) && forall j :: 0 <= j < n ==> Family(tables[j]) != Family(u)
    ensures RowsBefore(tables, n, u, c) == 0
  {
    if n > 0 {
      RowsBeforeApart(tables, n - 1, u, c);
    }
  }

  lemma FamilyDraws(t: Table, u: Table, s: int)
    requires Family(t) == Family(u)
    ensures Draws(t, s) <==> Draws(u, s)
  {
  }

  /** Rows of a family move the streams of the whole family, and those of other families not at all. */
  lemma FamilyMoved(t: Table, u: Table, k: nat, before: seq<Seed>, after: seq<Seed>)
    requires t != TNone && u != TNone && Moved(t, k, before, after)
    ensures SameDraws(u, after, Ahead(before, u, if Family(t) == Family(u) then k else 0))
  {
    ApartIff(t, u);
    var ahead := Ahead(before, u, if Family(t) == Family(u) then k else 0);
    forall s | 0 <= s < STREAMS && Draws(u, s)
      ensures after[s].value == ahead[s].value
    {
      assert Aligned(u, s);
      if Family(t) == Family(u) {
        FamilyDraws(t, u, s);
        assert Aligned(t, s);
      } else {
        assert !Aligned(t, s);
      }
    }
  }

  lemma AheadAgain(u: Table, j: nat, k: nat, x: seq<Seed>, y: seq<Seed>)
    requires |x| == |y| == STREAMS && SameDraws(u, x, Ahead(y, u, j))
    ensures SameDraws(u, Ahead(x, u, k), Ahead(y, u, j + k))
  {
    forall s | 0 <= s < STREAMS && Draws(u, s)
      ensures Ahead(x, u, k)[s].value == Ahead(y, u, j + k)[s].value
    {
      assert Aligned(u, s);
      MoreRows(j, k, Boundary(s), y[s].value);
    }
  }

  lemma SameDrawsChain(u: Table, x: seq<Seed>, y: seq<Seed>, z: seq<Seed>)
    requires SameDraws(u, x, y) && SameDraws(u, y, z)
    ensures SameDraws(u, x, z)
  {
  }

  /** Every table finds its streams where the rows of its family made so far have moved them. */
  ghost predicate Placed(tables: seq<Table>, n: nat, c: Config, was: seq<Seed>, now: seq<Seed>)
    requires n <= |tables| && Sized(c) && |was| == STREAMS
  {
    forall u: Table :: PlacedOne(tables, n, c, was, now, u)
  }

  lemma PlacedFor(t: Table, u: Table, j: nat, k: nat, was: seq<Seed>, before: seq<Seed>, after: seq<Seed>)
    requires |was| == STREAMS && t != TNone && u != TNone
    requires |before| == STREAMS && SameDraws(u, before, Ahead(was, u, j)) && Moved(t, k, before, after)
    ensures SameDraws(u, after, Ahead(was, u, j + if Family(t) == Family(u) then k else 0))
  {
    var own := if Family(t) == Family(u) then k else 0;
    FamilyMoved(t, u, k, before, after);
    AheadAgain(u, j, own, before, was);
    SameDrawsChain(u, after, Ahead(before, u, own), Ahead(was, u, j + own));
  }

  /** Where table u finds its streams when n tables are made. */
  ghost predicate PlacedOne(tables: seq<Table>, n: nat, c: Config, was: seq<Seed>, now: seq<Seed>, u: Table)
    requires n <= |tables| && Sized(c) && |was| == STREAMS
  {
    u != TNone ==> SameDraws(u, now, Ahead(was, u, RowsBefore(tables, n, u, c)))
  }

  lemma PlacedOneNext(tables: seq<Table>, n: nat, c: Config, was: seq<Seed>, before: seq<Seed>, after: seq<Seed>,
                      u: Table)
    requires n < |tables| && Sized(c) && tables[n] != TNone
    requires |was| == |before| == STREAMS && PlacedOne(tables, n, c, was, before, u)
    requires Moved(tables[n], RowCount(tables[n], c), before, after)
    ensures PlacedOne(tables, n + 1, c, was, after, u)
  {
    if u != TNone {
      PlacedFor(tables[n], u, RowsBefore(tables, n, u, c), RowCount(tables[n], c), was, before, after);
    }
  }

  lemma PlacedNext(tables: seq<Table>, n: nat, c: Config, was: seq<Seed>, before: seq<Seed>, after: seq<Seed>)
    requires n < |tables| && Sized(c) && tables[n] != TNone
    requires |was| == |before| == STREAMS && Placed(tables, n, c, was, before)
    requires Moved(tables[n], RowCount(tables[n], c), before, after)
    ensures Placed(tables, n + 1, c, was, after)
  {
    var next := n + 1;
    forall u: Table
      ensures PlacedOne(tables, next, c, was, after, u)
    {
      assert PlacedOne(tables, n, c, was, before, u);
      PlacedOneNext(tables, n, c, was, before, after, u);
    }
  }

  /** All rows of a table; those of the state `was`, when the table draws the same there. */
  method GenFile(seeds: array<Seed>, t: Table, c: Config, colours: array<int>, ghost at: RowMaker,
                 ghost was: seq<Seed>) returns (rows: seq<Row>)
    requires ValidConfig(c) && InScale(t, c) && t != TNone && colours.Length == COLOURS && Valid(seeds[..])
      && Makes(at, t, c) && |was| == STREAMS
    modifies seeds, colours
    ensures Valid(seeds[..]) && Moved(t, RowCount(t, c), old(seeds[..]), seeds[..])
    ensures |rows| == RowCount(t, c)
    ensures SameDraws(t, old(seeds[..]), was) ==> AreRows(rows, t, 1, at, was)
  {
    ghost var before := seeds[..];
    rows := GenTbl(seeds, t, 1, RowCount(t, c), c, colours, at);
    if SameDraws(t, before, was) {
      MakerFromDraws(at, t, c);
      RowsFromDraws(rows, t, 1, at, before, was);
    }
  }

  /** File i holds all rows of its table, made from the places to which the earlier rows of its family moved
      the streams: for the first table of a family, the rows it would have alone. */
  ghost predicate IsFile(file: seq<Row>, tables: seq<Table>, i: nat, c: Config, at: Table -> RowMaker, was: seq<Seed>)
    requires i < |tables| && |was| == STREAMS && Sized(c)
  {
    && |file| == RowCount(tables[i], c)
    && AreRows(file, tables[i], 1, at(tables[i]), Ahead(was, tables[i], RowsBefore(tables, i, tables[i], c)))
  }

  /** Generating a list of tables. */
  method DbGen(seeds: array<Seed>, tables: seq<Table>, c: Config, colours: array<int>, ghost at: Table -> RowMaker)
    returns (files: seq<seq<Row>>)
    requires ValidConfig(c) && colours.Length == COLOURS && Valid(seeds[..])
    requires forall t <- tables :: t != TNone && InScale(t, c) && Makes(at(t), t, c)
    modifies seeds, colours
    ensures |files| == |tables| && forall i :: 0 <= i < |tables| ==> IsFile(files[i], tables, i, c, at, old(seeds[..]))
  {
    files := [];
    ghost var was := seeds[..];
    AtStart(tables, c, was);
    for i := 0 to |tables|
      invariant Valid(seeds[..]) && Placed(tables, i, c, was, seeds[..])
      invariant |files| == i && forall j :: 0 <= j < i ==> IsFile(files[j], tables, j, c, at, was)
    {
      ghost var before := seeds[..];
      assert PlacedOne(tables, i, c, was, before, tables[i]);
      var rows := GenFile(seeds, tables[i], c, colours, at(tables[i]),
        Ahead(was, tables[i], RowsBefore(tables, i, tables[i], c)));
      assert IsFile(rows, tables, i, c, at, was);
      PlacedNext(tables, i, c, was, before, seeds[..]);
      files := files + [rows];
    }
  }

  /** The first table of a family gets the rows it would have alone. */
  lemma FirstOfFamily(file: seq<Row>, tables: seq<Table>, i: nat, c: Config, at: Table -> RowMaker, was: seq<Seed>)
    requires i < |tables| && |was| == STREAMS && Sized(c) && IsFile(file, tables, i, c, at, was)
    requires forall j :: 0 <= j < i ==> Family(tables[j]) != Family(tables[i])
    requires tables[i] != TNone && Makes(at(tables[i]), tables[i], c)
    ensures AreRows(file, tables[i], 1, at(tables[i]), was)
  {
    var t := tables[i];
    RowsBeforeApart(tables, i, t, c);
    MakerFromDraws(at(t), t, c);
    assert SameDraws(t, Ahead(was, t, 0), was);
    RowsFromDraws(file, t, 1, at(t), Ahead(was, t, 0), was);
  }

  lemma AtStart(tables: seq<Table>, c: Config, was: seq<Seed>)
    requires Sized(c) && |was| == STREAMS
    ensures Placed(tables, 0, c, was, was)
  {
  }

  // The skip functions.

  method AdvanceStream(seeds: array<Seed>, s: int, calls: nat)
    requires Valid(seeds[..]) && 0 <= s < STREAMS
    modifies seeds
    ensures Valid(seeds[..])
    ensures seeds[..] == old(seeds[..])[s := old(seeds[s]).(value := Steps(calls, old(seeds[s].value)))]
  {
    StepsInRange(calls, seeds[s].value);
    var value := NthElement(calls, seeds[s].value);
    seeds[s] := seeds[s].(value := value);
  }

  /** The steps a skip of k rows of table t makes on stream s: the boundary of every stream the table owns,
      except for stream 39, which belongs to the lines and is never drawn. */
  function Skips(t: Table, s: int, k: nat): nat {
    if Owner(s) == t && s != 39 then k * Boundary(s) else 0
  }

  ghost predicate Skipped(before: seq<Seed>, after: seq<Seed>, t: Table, k: nat) {
    && |before| == |after| == STREAMS
    && forall s :: 0 <= s < STREAMS ==> after[s] == before[s].(value := Steps(Skips(t, s, k), before[s].value))
  }

  method SdPart(seeds: array<Seed>, k: nat)
    requires Valid(seeds[..])
    modifies seeds
    ensures Valid(seeds[..]) && Skipped(old(seeds[..]), seeds[..], TPart, k)
  {
    for i := 0 to 5
      invariant Valid(seeds[..])
      invariant forall s :: 0 <= s < STREAMS ==>
        seeds[s] == old(seeds[s]).(value := Steps(if s < i then k else 0, old(seeds[s].value)))
    {
      AdvanceStream(seeds, i, k);
    }
    AdvanceStream(seeds, 6, k * 2);
    AdvanceStream(seeds, 37, k * 92);
  }

  method SdPsupp(seeds: array<Seed>, k: nat)
    requires Valid(seeds[..])
    modifies seeds
    ensures Valid(seeds[..]) && Skipped(old(seeds[..]), seeds[..], TPsupp, k)
  {
    for j := 0 to SUPP_PER_PART
      invariant Valid(seeds[..])
      invariant forall s :: 0 <= s < STREAMS ==>
        seeds[s] == old(seeds[s]).(value := Steps(if s == 7 || s == 8 then j * k else if s == 9 then j * (2 * k)
          else 0, old(seeds[s].value)))
    {
      OneMoreRow(j, k, old(seeds[7].value));
      OneMoreRow(j, k, old(seeds[8].value));
      OneMoreRow(j, 2 * k, old(seeds[9].value));
      AdvanceStream(seeds, 7, k);
      AdvanceStream(seeds, 8, k);
      AdvanceStream(seeds, 9, k * 2);
    }
  }

  method SdSupp(seeds: array<Seed>, k: nat)
    requires Valid(seeds[..])
    modifies seeds
    ensures Valid(seeds[..]) && Skipped(old(seeds[..]), seeds[..], TSupp, k)
  {
    AdvanceStream(seeds, 33, k);
    AdvanceStream(seeds, 34, k * 3);
    AdvanceStream(seeds, 35, k);
    AdvanceStream(seeds, 32, k * 9);
    AdvanceStream(seeds, 36, k * 2);
    SdSuppComment(seeds, k);
  }

  /** The streams of the press phrases. */
  method SdSuppComment(seeds: array<Seed>, k: nat)
    requires Valid(seeds[..])
    modifies seeds
    ensures Valid(seeds[..])
    ensures forall s :: 0 <= s < STREAMS ==>
      seeds[s] == old(seeds[s]).(value := Steps(if 44 <= s then k else 0, old(seeds[s].value)))
  {
    AdvanceStream(seeds, 46, k);
    AdvanceStream(seeds, 44, k);
    AdvanceStream(seeds, 47, k);
    AdvanceStream(seeds, 45, k);
  }

  method SdCust(seeds: array<Seed>, k: nat)
    requires Valid(seeds[..])
    modifies seeds
    ensures Valid(seeds[..]) && Skipped(old(seeds[..]), seeds[..], TCust, k)
  {
    AdvanceStream(seeds, 26, k * 9);
    AdvanceStream(seeds, 31, k * 2);
    AdvanceStream(seeds, 27, k);
    SdCustColumns(seeds, k);
  }

  /** The streams of phone, balance and segment. */
  method SdCustColumns(seeds: array<Seed>, k: nat)
    requires Valid(seeds[..])
    modifies seeds
    ensures Valid(seeds[..])
    ensures forall s :: 0 <= s < STREAMS ==>
      seeds[s] == old(seeds[s]).(value := Steps(if s == 28 then 3 * k else if s == 29 || s == 30 then k
        else 0, old(seeds[s].value)))
  {
    AdvanceStream(seeds, 28, k * 3);
    AdvanceStream(seeds, 29, k);
    AdvanceStream(seeds, 30, k);
  }

  method SdOrder(seeds: array<Seed>, k: nat)
    requires Valid(seeds[..])
    modifies seeds
    ensures Valid(seeds[..]) && Skipped(old(seeds[..]), seeds[..], TOrder, k)
  {
    AdvanceStream(seeds, 43, k);
    AdvanceStream(seeds, 40, k);
    AdvanceStream(seeds, 12, k * 2);
    SdOrderColumns(seeds, k);
  }

  /** The streams of clerk, priority and date, and one that no row draws from. */
  method SdOrderColumns(seeds: array<Seed>, k: nat)
    requires Valid(seeds[..])
    modifies seeds
    ensures Valid(seeds[..])
    ensures forall s :: 0 <= s < STREAMS ==>
      seeds[s] == old(seeds[s]).(value := Steps(if s == 10 || s == 11 || s == 38 || s == 13 then k
        else 0, old(seeds[s].value)))
  {
    AdvanceStream(seeds, 10, k);
    AdvanceStream(seeds, 11, k);
    AdvanceStream(seeds, 38, k);
    AdvanceStream(seeds, 13, k);
  }

  /** One round of the line streams. */
  method SdLineRound(seeds: array<Seed>, k: nat)
    requires Valid(seeds[..])
    modifies seeds
    ensures Valid(seeds[..])
    ensures forall s :: 0 <= s < STREAMS ==>
      seeds[s] == old(seeds[s]).(value := Steps(if 14 <= s <= 24 then k else if s == 25 then 2 * k
        else 0, old(seeds[s].value)))
  {
    for i := 14 to 25
      invariant Valid(seeds[..])
      invariant forall s :: 0 <= s < STREAMS ==>
        seeds[s] == old(seeds[s]).(value := Steps(if 14 <= s < i then k else 0, old(seeds[s].value)))
    {
      AdvanceStream(seeds, i, k);
    }
    AdvanceStream(seeds, 25, k * 2);
  }

  /** The steps of j rounds on stream s. */
  function LineSkips(s: int, j: nat, k: nat): nat {
    if 14 <= s <= 24 then j * k else if s == 25 then j * (2 * k) else 0
  }

  lemma LineSkipsNext(s: int, j: nat, k: nat, v: int)
    ensures Steps(LineSkips(s, j + 1, k), v) == Steps(LineSkips(s, 1, k), Steps(LineSkips(s, j, k), v))
  {
    OneMoreRow(j, k, v);
    OneMoreRow(j, 2 * k, v);
  }

  ghost predicate LinesSkipped(before: seq<Seed>, after: seq<Seed>, j: nat, k: nat) {
    && |before| == |after| == STREAMS
    && forall s :: 0 <= s < STREAMS ==> after[s] == before[s].(value := Steps(LineSkips(s, j, k), before[s].value))
  }

  lemma LinesSkippedNext(before: seq<Seed>, between: seq<Seed>, after: seq<Seed>, j: nat, k: nat)
    requires LinesSkipped(before, between, j, k) && LinesSkipped(between, after, 1, k)
    ensures LinesSkipped(before, after, j + 1, k)
  {
    forall s | 0 <= s < STREAMS
      ensures after[s] == before[s].(value := Steps(LineSkips(s, j + 1, k), before[s].value))
    {
      LineSkipsNext(s, j, k, before[s].value);
    }
  }

  /** sdLineItem; with the child set to the part suppliers it also moves the order date and line count. */
  method SdLineItem(seeds: array<Seed>, child: Table, k: nat)
    requires Valid(seeds[..])
    modifies seeds
    ensures Valid(seeds[..])
    ensures child != TPsupp ==> Skipped(old(seeds[..]), seeds[..], TLine, k)
    ensures child == TPsupp ==> forall s :: 0 <= s < STREAMS ==>
      seeds[s].value == Steps(if s == 13 || s == 43 then k else Skips(TLine, s, k), old(seeds[s].value))
  {
    for j := 0 to MAX_LINES
      invariant Valid(seeds[..])
      invariant LinesSkipped(old(seeds[..]), seeds[..], j, k)
    {
      ghost var before := seeds[..];
      SdLineRound(seeds, k);
      LinesSkippedNext(old(seeds[..]), before, seeds[..], j, k);
    }
    LinesSkippedAll(k);
    if child == TPsupp {
      AdvanceStream(seeds, 13, k);
      AdvanceStream(seeds, 43, k);
    }
  }

  lemma LinesSkippedAll(k: nat)
    ensures forall s :: 0 <= s < STREAMS ==> LineSkips(s, MAX_LINES, k) == Skips(TLine, s, k)
  {
  }

  /** The streams a row draws from moved by k rows. */
  ghost predicate DrawsMoved(t: Table, k: nat, before: seq<Seed>, after: seq<Seed>) {
    && |before| == |after| == STREAMS
    && forall s :: 0 <= s < STREAMS && Draws(t, s) ==> after[s].value == Steps(Jump(k, s), before[s].value)
  }

  /** The steps the entry of a table and the entry of its child skip on stream s for k rows. */
  function EntrySkips(t: Table, s: int, k: nat): nat {
    if t == TNation || t == TRegion || Owner(s) == TNone || s == 39 then 0
    else if Owner(s) == Parent(t) || Owner(s) == Child(Parent(t)) then Jump(k, s)
    else 0
  }

  ghost function EntrySkipped(ss: seq<Seed>, t: Table, k: nat): seq<Seed>
    requires |ss| == STREAMS
  {
    seq(STREAMS, s requires 0 <= s < STREAMS => ss[s].(value := Steps(EntrySkips(t, s, k), ss[s].value)))
  }

  /** Skip k rows of a table by its entry in the list of tables and, when it has a child, by the child's entry. */
  method SkipRows(seeds: array<Seed>, t: Table, k: nat)
    requires t != TNone && Valid(seeds[..])
    modifies seeds
    ensures Valid(seeds[..]) && seeds[..] == EntrySkipped(old(seeds[..]), t, k)
  {
    match t
    case TPart | TPartPsupp =>
      SdPart(seeds, k);
      SdPsupp(seeds, k);
    case TPsupp =>
      SdPsupp(seeds, k);
    case TSupp =>
      SdSupp(seeds, k);
    case TCust =>
      SdCust(seeds, k);
    case TOrder | TOrderLine =>
      SdOrder(seeds, k);
      SdLineItem(seeds, TNone, k);
    case TLine =>
      SdLineItem(seeds, TNone, k);
    case TNation | TRegion =>
  }

  /** The tables whose entries skip every stream their rows draw from.  The entries of lines and of part suppliers
      do not skip the orders and parts they are made with, and those of nations and regions skip nothing. */
  predicate Skippable(t: Table) {
    t in {TPart, TPartPsupp, TSupp, TCust, TOrder, TOrderLine}
  }

  ghost predicate SkipsItsDraws(t: Table) {
    forall ss: seq<Seed>, k: nat :: |ss| == STREAMS ==> DrawsMoved(t, k, ss, EntrySkipped(ss, t, k))
  }

  /** A stream that rows of the table draw from and its entry does not skip. */
  function Unskipped(t: Table): int {
    match t
    case TLine => 13
    case TPsupp => 0
    case TNation => 41
    case _ => 42
  }

  lemma StepsFromOne()
    ensures Steps(1, 1) == 16807 && Steps(2, 1) == 282475249
  {
    assert Steps(1, 1) == Iterate(A, 0, (A * 1) % M);
    assert Steps(2, 1) == Iterate(A, 1, (A * 1) % M) == Iterate(A, 0, (A * 16807) % M);
  }

  /** Skipping a table by its entries moves its rows' streams like generating exactly for these tables. */
  lemma SkippableIff(t: Table)
    requires t != TNone
    ensures SkipsItsDraws(t) <==> Skippable(t)
  {
    if Skippable(t) {
      forall ss: seq<Seed>, k: nat | |ss| == STREAMS
        ensures DrawsMoved(t, k, ss, EntrySkipped(ss, t, k))
      {
        SkipsDraws(t, k, ss);
      }
    } else {
      var ss, s := seq(STREAMS, i => Seed(1, 0)), Unskipped(t);
      StepsFromOne();
      assert Draws(t, s) && EntrySkips(t, s, 1) == 0 && Jump(1, s) == Boundary(s);
      assert EntrySkipped(ss, t, 1)[s].value == 1 != Steps(Boundary(s), 1);
      assert !DrawsMoved(t, 1, ss, EntrySkipped(ss, t, 1));
    }
  }

  // Orders of large scales.

  const CKEY_STREAM := 40

  /** The place of the customer keys after an order: one draw, 64 bits wide for large scales, and then the stream is
      at its boundary. */
  function CustKeyMoved(scale: int, v: int): int {
    if scale >= 30000 then NextRand64(v) else NextRand(v)
  }

  /** random64, on a value that was just drawn; negation wraps and the remainder has the sign of its operand. */
  function Ranged64(lower: int, upper: int, value: int): int
    requires lower <= upper
  {
    var n := if value < 0 then Wrap(-value) else value;
    lower + if n < 0 then -(-n % (upper - lower + 1)) else n % (upper - lower + 1)
  }

  /** The skip function steps the 31-bit generator at every scale: it moves the customer keys like an order only below
      scale 30000. */
  lemma CustKeysSkippedIff(scale: int)
    ensures CustKeyMoved(scale, StartValue(CKEY_STREAM)) == Steps(1, StartValue(CKEY_STREAM)) <==> scale < 30000
  {
    var v := StartValue(CKEY_STREAM);
    assert Steps(1, v) == Iterate(A, 0, (A * v) % M) == NextRand(v);
    NextRand64Is(v, 293860184, -2172803120398045468);
    assert NextRand(v) == 528280723;
  }

  /** The customer of an order from the value drawn at scale 30000. */
  function LargeCust(value: int): int {
    Repaired(Ranged64(1, CUSTOMERS * 30000, value), CUSTOMERS * 30000)
  }

  lemma NextRand64Is(seed: int, k: int, value: int)
    requires seed * RNG_A + RNG_C == WORD * k + value && -HALF < value < HALF
    ensures NextRand64(seed) == value
  {
    DivModIs(seed * RNG_A + HALF, k, value - RNG_C + HALF, WORD);
  }

  lemma DrawnAfterOrder()
    ensures NextRand64(NextRand64(851767375)) == -5962429889278993899
  {
    NextRand64Is(851767375, 293860184, -2172803120398045468);
    NextRand64Is(-2172803120398045468, -749618197691610215, -5962429889278993899);
  }

  lemma DrawnAfterSkip()
    ensures Steps(1, 851767375) == 528280723 && NextRand64(528280723) == 459414908470133464
  {
    assert Steps(1, 851767375) == Iterate(A, 0, (A * 851767375) % M);
    NextRand64Is(528280723, 182257122, 459414908470133464);
  }

  lemma CustAfterOrder()
    ensures LargeCust(-5962429889278993899) == 3778993900
  {
    assert Ranged64(1, 4500000000, -5962429889278993899) == 3778993900;
  }

  lemma CustAfterSkip()
    ensures LargeCust(459414908470133464) == 3970133465
  {
    assert Ranged64(1, 4500000000, 459414908470133464) == 3970133465;
  }

  /** At scale 30000 the second order has another customer when the first was skipped than when it was made. */
  lemma LargeScaleDiffers(v: int)
    requires v == StartValue(CKEY_STREAM)
    ensures LargeCust(NextRand64(CustKeyMoved(30000, v))) == 3778993900
    ensures LargeCust(NextRand64(Steps(1, v))) == 3970133465
  {
    DrawnAfterOrder();
    DrawnAfterSkip();
    CustAfterOrder();
    CustAfterSkip();
  }

  lemma SkipsDraws(t: Table, k: nat, ss: seq<Seed>)
    requires |ss| == STREAMS && Skippable(t)
    ensures DrawsMoved(t, k, ss, EntrySkipped(ss, t, k))
  {
    forall s | 0 <= s < STREAMS && Draws(t, s)
      ensures EntrySkips(t, s, k) == Jump(k, s)
    {
    }
  }

  /** A row made k rows after skipping `skip` rows is the row made skip + k rows after the start. */
  lemma RowAfterSkip(t: Table, skip: nat, k: nat, ss: seq<Seed>, skipped: seq<Seed>)
    requires DrawsMoved(t, skip, ss, skipped)
    ensures SameDraws(t, Ahead(skipped, t, k), Ahead(ss, t, skip + k))
  {
    var x, y := Ahead(skipped, t, k), Ahead(ss, t, skip + k);
    forall s | 0 <= s < STREAMS && Draws(t, s)
      ensures x[s].value == y[s].value
    {
      assert Aligned(t, s);
      MoreRows(skip, k, Boundary(s), ss[s].value);
    }
  }

  /** Skipping is generating: the rows made after skipping are, row by row, those of generating the whole table. */
  lemma SkippingIsGenerating(all: seq<Row>, rest: seq<Row>, t: Table, skip: nat, first: nat, at: RowMaker,
                             ss: seq<Seed>, skipped: seq<Seed>)
    requires FromDraws(at, t) && DrawsMoved(t, skip, ss, skipped) && |all| == skip + |rest|
    requires AreRows(all, t, first, at, ss) && AreRows(rest, t, first + skip, at, skipped)
    ensures rest == all[skip..]
  {
    forall k | 0 <= k < |rest|
      ensures rest[k] == all[skip + k]
    {
      assert first + skip + k == first + (skip + k);
      RowAfterSkip(t, skip, k, ss, skipped);
    }
  }

  /** A part of a table made on its own: skip to its first row, then run the row loop. */
  method GenChunk(seeds: array<Seed>, t: Table, skip: nat, count: nat, c: Config, colours: array<int>,
                  ghost at: RowMaker, ghost all: seq<Row>)
    returns (rows: seq<Row>)
    requires ValidConfig(c) && InScale(t, c) && Skippable(t) && colours.Length == COLOURS
    requires IsPartTable(t) ==> skip + count <= PARTS * c.scale
    requires Valid(seeds[..]) && Makes(at, t, c) && |all| == skip + count && AreRows(all, t, 1, at, seeds[..])
    modifies seeds, colours
    ensures rows == all[skip..]
  {
    ghost var ss := seeds[..];
    SkipRows(seeds, t, skip);
    SkipsDraws(t, skip, ss);
    MakerFromDraws(at, t, c);
    rows := GenTbl(seeds, t, 1 + skip, count, c, colours, at);
    SkippingIsGenerating(all, rows, t, skip, 1, at, ss, EntrySkipped(ss, t, skip));
  }
}
