/** Orders and their lines. */
module Orders {
  import opened Aggregates
  import opened Generators
  import opened Streams
  import opened Distributions
  import opened Parts
  import opened Calendar
  import opened Division
  import opened Bits

  const CUSTOMERS := 150000   // per unit of scale
  const MAX_LINES := 7
  const LAST_ORDER_DAY := START_DATE + TOT_DATE - (121 + 30) - 1

  /** makeSparse: shift the index left by two bits above its last three. */
  function MakeSparse(idx: nat): nat {
    Or(Or(idx / 8 * 4, And(0, 3)) * 8, And(idx, 7))
  }

  /** The same in arithmetic: only the first 8 of every 32 keys are used. */
  function Spread(idx: nat): nat {
    idx / 8 * 32 + idx % 8
  }

  lemma SparseBits(idx: nat)
    ensures MakeSparse(idx) == Spread(idx)
  {
    OrZero(idx / 8 * 4);
    AndSeven(idx);
    OrBelowEight(idx / 8 * 4, idx % 8);
    assert idx / 8 * 4 * 8 == 8 * (idx / 8 * 4);
  }

  /** The index of an order key. */
  function Dense(key: nat): nat {
    key / 32 * 8 + key % 8
  }

  lemma SpreadInverse(idx: nat)
    ensures Dense(Spread(idx)) == idx && Spread(idx) % 32 < 8
  {
    var q, r := idx / 8, idx % 8;
    DivModIs(Spread(idx), q, r, 32);
    DivModIs(Spread(idx), 4 * q, r, 8);
  }

  lemma SparseInverse(idx: nat)
    ensures Dense(MakeSparse(idx)) == idx && MakeSparse(idx) % 32 < 8
  {
    SparseBits(idx);
    SpreadInverse(idx);
  }

  lemma SpreadIncreases(i: nat, j: nat)
    requires i < j
    ensures Spread(i) < Spread(j)
  {
    assert i == 8 * (i / 8) + i % 8 && j == 8 * (j / 8) + j % 8;
  }

  lemma SparseIncreases(i: nat, j: nat)
    requires i < j
    ensures MakeSparse(i) < MakeSparse(j)
  {
    SparseBits(i);
    SparseBits(j);
    SpreadIncreases(i, j);
  }

  /** Customers whose key is divisible by 3 have no orders: the next key, or the last but one at the end. */
  function Repaired(drawn: int, ockeyMax: int): int {
    if drawn % 3 != 0 then drawn else if drawn == ockeyMax then drawn - 1 else drawn + 1
  }

  function Distance(x: int, y: int): int {
    if x <= y then y - x else x - y
  }

  /** The key-repair loop: the nearest key that 3 does not divide, upwards unless there is none above. */
  method RepairCustKey(drawn: int, ockeyMax: int) returns (key: int)
    requires 1 <= drawn <= ockeyMax && ockeyMax % 3 == 0
    ensures 1 <= key <= ockeyMax && key % 3 != 0
    ensures key == Repaired(drawn, ockeyMax)
    ensures key < drawn ==> drawn == ockeyMax
    ensures forall other :: 1 <= other <= ockeyMax && other % 3 != 0 ==> Distance(drawn, key) <= Distance(drawn, other)
  {
    key := drawn;
    var delta := 1;
    while key % 3 == 0
      invariant
        || (key == drawn && delta == 1)
        || (key == drawn == ockeyMax && drawn % 3 == 0 && delta == -1)
        || (drawn % 3 == 0 && key == if drawn == ockeyMax then drawn - 1 else drawn + 1)
      decreases key % 3 == 0, delta
    {
      key := key + delta;
      if key > ockeyMax {
        key := ockeyMax;
      }
      delta := -delta;
    }
  }

  // Lines.

  datatype LineItem = LineItem(number: int, partKey: int, suppKey: int, quantity: int, ePrice: int, discount: int,
                               tax: int,
                               instruct: int, mode: int, comment: Text,
                               shipped: bool, returnFlag: Option<int>, sDate: int, cDate: int, rDate: int) {
    /** What the line adds to the order's total price. */
    function Charge(): int {
      ePrice * (100 - discount) / 100 * (100 + tax) / 100
    }
  }

  predicate InTable(date: int) {
    0 <= date - START_DATE < TOT_DATE
  }

  /** A line of an order of day `day`.  Status F is `shipped`; return flag N is None. */
  ghost predicate ValidLine(line: LineItem, day: int, scale: int)
    requires scale >= 1
  {
    && 1 <= line.quantity <= 50 && 0 <= line.discount <= 10 && 0 <= line.tax <= 8
    && (exists i | 0 <= i < SUPP_PER_PART :: (line.partKey, i) in Supplied(line.suppKey, scale))
    && line.ePrice == RpbRoutine(line.partKey) * line.quantity
    && InTable(line.sDate) && InTable(line.cDate) && InTable(line.rDate)
    && day + 1 <= line.sDate <= day + 121 && day + 30 <= line.cDate <= day + 90
         && line.sDate + 1 <= line.rDate <= line.sDate + 30
    && (line.shipped <==> line.sDate <= CURRENT_DAY)
    && (line.returnFlag.None? <==> CURRENT_DAY < line.rDate)
  }

  /** A line that is not shipped has not been returned. */
  lemma OpenLineNotReturned(line: LineItem, day: int, scale: int)
    requires scale >= 1 && ValidLine(line, day, scale) && !line.shipped
    ensures line.returnFlag.None?
  {
  }

  /** The distributions an order picks from. */
  datatype Dists = Dists(priorities: Dist, instructions: Dist, modes: Dist, flags: Dist)

  ghost predicate ValidDists(ds: Dists) {
    ValidDist(ds.priorities) && ValidDist(ds.instructions) && ValidDist(ds.modes) && ValidDist(ds.flags)
  }

  /** The quantities, prices and text of line i, counted from 0, from the draws since the row started. */
  ghost function NumbersAt(start: seq<Seed>, i: nat, scale: int, ds: Dists): LineItem
    requires |start| == STREAMS && scale >= 1
  {
    var quantity, partKey := At(start, 14, i + 1, 1, 50), At(start, 19, i + 1, 1, PARTS * scale);
    LineItem(i + 1, partKey, PartSuppBridge(partKey, At(start, 20, i + 1, 0, 3), scale), quantity,
      RpbRoutine(partKey) * quantity,
             At(start, 15, i + 1, 0, 10), At(start, 16, i + 1, 0, 8),
             PickAt(start, 17, i + 1, ds.instructions.members), PickAt(start, 18, i + 1, ds.modes.members),
             TextAt(start, 25, 2 * i + 1, 10, 43), false, None, 0, 0, 0)
  }

  /** Line i, when the lines before it drew `flags` return flags. */
  ghost function LineAt(start: seq<Seed>, i: nat, flags: nat, day: int, scale: int, ds: Dists): LineItem
    requires |start| == STREAMS && scale >= 1
  {
    var sDate := At(start, 21, i + 1, 1, 121) + day;
    var rDate := At(start, 23, i + 1, 1, 30) + sDate;
    NumbersAt(start, i, scale, ds).(
      sDate := sDate, cDate := At(start, 22, i + 1, 30, 90) + day, rDate := rDate, shipped := sDate <= CURRENT_DAY,
      returnFlag := if rDate <= CURRENT_DAY then Some(PickAt(start, 24, flags + 1, ds.flags.members)) else None)
  }

  /** The return flags a list of lines drew. */
  function Flags(lines: seq<LineItem>): nat {
    if lines == [] then 0
    else Flags(lines[..|lines| - 1]) + if lines[|lines| - 1].returnFlag.Some? then 1 else 0
  }

  function Charges(lines: seq<LineItem>): int {
    if lines == [] then 0 else Charges(lines[..|lines| - 1]) + lines[|lines| - 1].Charge()
  }

  lemma {:induction false} FlagsBound(lines: seq<LineItem>)
    ensures Flags(lines) <= |lines|
  {
    if lines != [] {
      FlagsBound(lines[..|lines| - 1]);
    }
  }

  /** What discount and tax in percent make of a price, in units of 10^-4 cents. */
  function ExactCharge(line: LineItem): int {
    line.ePrice * (100 - line.discount) * (100 + line.tax)
  }

  /** Both divisions cut off: a charge is below the exact one by less than 2 + tax / 100 cents. */
  lemma ChargeCutsOff(line: LineItem)
    requires 0 <= line.ePrice && 0 <= line.discount <= 100 && 0 <= line.tax
    ensures 0 <= ExactCharge(line) - 10000 * line.Charge() < 20000 + 100 * line.tax
  {
    var x, f := line.ePrice * (100 - line.discount), 100 + line.tax;
    assert 0 <= x && x == 100 * (x / 100) + x % 100 && ExactCharge(line) == x * f;
    assert x * f == 100 * (x / 100 * f) + x % 100 * f;
    MulMonotone(x % 100, 99, f);
    assert line.Charge() == x / 100 * f / 100;
  }

  /** Without discount and tax a line is charged its price, and nothing at full discount. */
  lemma ChargeEnds(line: LineItem)
    ensures line.discount == 0 && line.tax == 0 ==> line.Charge() == line.ePrice
    ensures line.discount == 100 ==> line.Charge() == 0
  {
  }

  /** The total of an order is at most the exact charges of its lines, and less than two cents and the tax of one
      cent below for each. */
  lemma {:induction false} TotalCutsOff(lines: seq<LineItem>)
    requires forall line <- lines :: 0 <= line.ePrice && 0 <= line.discount <= 100 && 0 <= line.tax <= 100
    ensures 0 <= ExactCharges(lines) - 10000 * Charges(lines) <= 30000 * |lines|
  {
    if lines != [] {
      var n := |lines| - 1;
      assert lines[n] in lines && forall line <- lines[..n] :: line in lines;
      TotalCutsOff(lines[..n]);
      ChargeCutsOff(lines[n]);
    }
  }

  function ExactCharges(lines: seq<LineItem>): int {
    if lines == [] then 0 else ExactCharges(lines[..|lines| - 1]) + ExactCharge(lines[|lines| - 1])
  }

  /** The lines that are shipped. */
  function Shipped(lines: seq<LineItem>): nat {
    if lines == [] then 0
    else Shipped(lines[..|lines| - 1]) + if lines[|lines| - 1].shipped then 1 else 0
  }

  lemma {:induction false} ShippedCount(lines: seq<LineItem>)
    ensures Shipped(lines) <= |lines|
    ensures Shipped(lines) == |lines| <==> forall i :: 0 <= i < |lines| ==> lines[i].shipped
    ensures Shipped(lines) == 0 <==> forall i :: 0 <= i < |lines| ==> !lines[i].shipped
  {
    if lines != [] {
      ShippedCount(lines[..|lines| - 1]);
    }
  }

  lemma LineAdded(lines: seq<LineItem>, line: LineItem)
    ensures Flags(lines + [line]) == Flags(lines) + if line.returnFlag.Some? then 1 else 0
    ensures Shipped(lines + [line]) == Shipped(lines) + if line.shipped then 1 else 0
    ensures Charges(lines + [line]) == Charges(lines) + line.Charge()
  {
    assert (lines + [line])[..|lines|] == lines;
  }

  ghost function LinesAt(start: seq<Seed>, n: nat, day: int, scale: int, ds: Dists): (lines: seq<LineItem>)
    requires |start| == STREAMS && scale >= 1
    ensures |lines| == n
  {
    if n == 0 then []
    else
      var before := LinesAt(start, n - 1, day, scale, ds);
      before + [LineAt(start, n - 1, Flags(before), day, scale, ds)]
  }

  /** Where each stream of the lines stands when i lines with `flags` return flags have been made. */
  ghost predicate AtLine(start: seq<Seed>, ss: seq<Seed>, i: nat, flags: nat) {
    && |start| == |ss| == STREAMS
    && (forall s :: 14 <= s <= 23 ==> ss[s].usage == start[s].usage + i)
    && ss[24].usage == start[24].usage + flags
    && ss[25].usage == start[25].usage + 2 * i
  }

  /** The order's own draws are done: one each for customer, date, priority, clerk and line count, two for the
      comment. */
  ghost predicate HeaderDone(start: seq<Seed>, ss: seq<Seed>) {
    && |start| == |ss| == STREAMS
    && forall s :: 0 <= s < STREAMS && !(14 <= s <= 25) ==>
         ss[s].usage == start[s].usage + if s == 12 then 2 else if Draws(TOrder, s) then 1 else 0
  }

  /** The streams inside the line loop. */
  ghost predicate InRow(start: seq<Seed>, ss: seq<Seed>, i: nat, flags: nat) {
    Valid(ss) && Drew(start, ss) && HeaderDone(start, ss) && AtLine(start, ss, i, flags)
  }

  /** The part of a line and one of its suppliers. */
  method LineSupplier(seeds: array<Seed>, i: nat, scale: int, ghost start: seq<Seed>)
    returns (partKey: int, suppKey: int)
    requires scale >= 1 && Valid(seeds[..]) && Drew(start, seeds[..])
    requires seeds[19].usage == start[19].usage + i && seeds[20].usage == start[20].usage + i
    modifies seeds
    ensures Valid(seeds[..]) && Drew(start, seeds[..])
    ensures forall s :: 0 <= s < STREAMS ==> seeds[s].usage == old(seeds[s].usage) + if s == 19 || s == 20 then 1 else 0
    ensures partKey == At(start, 19, i + 1, 1, PARTS * scale)
    ensures suppKey == PartSuppBridge(partKey, At(start, 20, i + 1, 0, 3), scale)
    ensures exists j | 0 <= j < SUPP_PER_PART :: (partKey, j) in Supplied(suppKey, scale)
  {
    partKey := Random(seeds, 1, PARTS * scale, 19, start);
    var suppNum := Random(seeds, 0, 3, 20, start);
    suppKey := PartSuppBridge(partKey, suppNum, scale);
    assert (partKey, suppNum) in Supplied(suppKey, scale);
  }

  /** Quantity, discount and tax of a line. */
  method LineTerms(seeds: array<Seed>, i: nat, ghost start: seq<Seed>) returns (quantity: int, discount: int, tax: int)
    requires Valid(seeds[..]) && Drew(start, seeds[..])
    requires forall s :: 14 <= s <= 16 ==> seeds[s].usage == start[s].usage + i
    modifies seeds
    ensures Valid(seeds[..]) && Drew(start, seeds[..])
    ensures forall s :: 0 <= s < STREAMS ==> seeds[s].usage == old(seeds[s].usage) + if 14 <= s <= 16 then 1 else 0
    ensures quantity == At(start, 14, i + 1, 1, 50) && discount == At(start, 15, i + 1, 0, 10)
      && tax == At(start, 16, i + 1, 0, 8)
    ensures 1 <= quantity <= 50 && 0 <= discount <= 10 && 0 <= tax <= 8
  {
    quantity := Random(seeds, 1, 50, 14, start);
    discount := Random(seeds, 0, 10, 15, start);
    tax := Random(seeds, 0, 8, 16, start);
  }

  /** Instructions, mode and comment of a line. */
  method LineText(seeds: array<Seed>, i: nat, ds: Dists, ghost start: seq<Seed>)
    returns (instruct: int, mode: int, comment: Text)
    requires ValidDists(ds) && Valid(seeds[..]) && Drew(start, seeds[..])
    requires seeds[17].usage == start[17].usage + i && seeds[18].usage == start[18].usage + i
      && seeds[25].usage == start[25].usage + 2 * i
    modifies seeds
    ensures Valid(seeds[..]) && Drew(start, seeds[..])
    ensures forall s :: 0 <= s < STREAMS ==>
      seeds[s].usage == old(seeds[s].usage) + if 17 <= s <= 18 then 1 else if s == 25 then 2 else 0
    ensures instruct == PickAt(start, 17, i + 1, ds.instructions.members)
      && mode == PickAt(start, 18, i + 1, ds.modes.members)
    ensures comment == TextAt(start, 25, 2 * i + 1, 10, 43)
  {
    instruct := PickStr(seeds, ds.instructions.members, ds.instructions.weights, 17, start);
    mode := PickStr(seeds, ds.modes.members, ds.modes.weights, 18, start);
    comment := MakeText(seeds, 10, 43, 25, start);
  }

  /** The quantities, prices and text of a line. */
  method LineNumbers(seeds: array<Seed>, i: nat, ghost flags: nat, scale: int, ds: Dists, ghost start: seq<Seed>)
    returns (line: LineItem)
    requires scale >= 1 && ValidDists(ds) && Valid(seeds[..]) && Drew(start, seeds[..])
      && AtLine(start, seeds[..], i, flags)
    modifies seeds
    ensures Valid(seeds[..]) && Drew(start, seeds[..])
    ensures forall s :: 0 <= s < STREAMS ==>
      seeds[s].usage == old(seeds[s].usage) + if 14 <= s <= 20 then 1 else if s == 25 then 2 else 0
    ensures line == NumbersAt(start, i, scale, ds)
    ensures 1 <= line.quantity <= 50 && 0 <= line.discount <= 10 && 0 <= line.tax <= 8
    ensures exists j | 0 <= j < SUPP_PER_PART :: (line.partKey, j) in Supplied(line.suppKey, scale)
  {
    var quantity, discount, tax := LineTerms(seeds, i, start);
    var instruct, mode, comment := LineText(seeds, i, ds, start);
    var partKey, suppKey := LineSupplier(seeds, i, scale, start);
    var rPrice := RpbRoutine(partKey);
    line := LineItem(i + 1, partKey, suppKey, quantity, rPrice * quantity, discount, tax, instruct, mode, comment,
      false, None, 0, 0, 0);
  }

  /** The dates and flags of a line. */
  method LineDates(seeds: array<Seed>, i: nat, ghost flags: nat, day: int, ds: Dists, ghost start: seq<Seed>)
    returns (sDate: int, cDate: int, rDate: int, shipped: bool, returnFlag: Option<int>)
    requires START_DATE <= day <= LAST_ORDER_DAY && ValidDists(ds) && Valid(seeds[..]) && Drew(start, seeds[..])
    requires seeds[21].usage == start[21].usage + i && seeds[22].usage == start[22].usage + i
      && seeds[23].usage == start[23].usage + i
    requires seeds[24].usage == start[24].usage + flags
    modifies seeds
    ensures Valid(seeds[..]) && Drew(start, seeds[..])
    ensures forall s :: 0 <= s < STREAMS ==>
      seeds[s].usage == old(seeds[s].usage) + if 21 <= s <= 23 || (s == 24 && returnFlag.Some?) then 1 else 0
    ensures sDate == At(start, 21, i + 1, 1, 121) + day && cDate == At(start, 22, i + 1, 30, 90) + day
      && rDate == At(start, 23, i + 1, 1, 30) + sDate
    ensures InTable(sDate) && InTable(cDate) && InTable(rDate)
    ensures day + 1 <= sDate <= day + 121 && day + 30 <= cDate <= day + 90 && sDate + 1 <= rDate <= sDate + 30
    ensures shipped <==> sDate <= CURRENT_DAY
    ensures returnFlag == if rDate <= CURRENT_DAY then Some(PickAt(start, 24, flags + 1, ds.flags.members)) else None
  {
    sDate := Random(seeds, 1, 121, 21, start);
    sDate := sDate + day;
    cDate := Random(seeds, 30, 90, 22, start);
    cDate := cDate + day;
    rDate := Random(seeds, 1, 30, 23, start);
    rDate := rDate + sDate;
    JulianDecides(rDate);
    JulianDecides(sDate);
    returnFlag := None;
    var received := Julian(rDate);
    if received <= CURRENT_DATE {
      var flag := PickStr(seeds, ds.flags.members, ds.flags.weights, 24, start);
      returnFlag := Some(flag);
    }
    var sent := Julian(sDate);
    shipped := sent <= CURRENT_DATE;
  }

  /** One line of an order. */
  method MakeLine(seeds: array<Seed>, i: nat, ghost flags: nat, day: int, scale: int, ds: Dists,
                  ghost start: seq<Seed>) returns (line: LineItem)
    requires scale >= 1 && START_DATE <= day <= LAST_ORDER_DAY && ValidDists(ds) && InRow(start, seeds[..], i, flags)
    modifies seeds
    ensures InRow(start, seeds[..], i + 1, flags + if line.returnFlag.Some? then 1 else 0)
    ensures line == LineAt(start, i, flags, day, scale, ds) && ValidLine(line, day, scale)
  {
    var numbers := LineNumbers(seeds, i, flags, scale, ds, start);
    var sDate, cDate, rDate, shipped, returnFlag := LineDates(seeds, i, flags, day, ds, start);
    line := numbers.(shipped := shipped, returnFlag := returnFlag, sDate := sDate, cDate := cDate, rDate := rDate);
  }

  ghost predicate ValidLines(lines: seq<LineItem>, day: int, scale: int)
    requires scale >= 1
  {
    forall i :: 0 <= i < |lines| ==> lines[i].number == i + 1 && ValidLine(lines[i], day, scale)
  }

  lemma ValidLineAdded(start: seq<Seed>, lines: seq<LineItem>, line: LineItem, day: int, scale: int, ds: Dists)
    requires |start| == STREAMS && scale >= 1 && lines == LinesAt(start, |lines|, day, scale, ds)
      && ValidLines(lines, day, scale)
    requires line == LineAt(start, |lines|, Flags(lines), day, scale, ds) && ValidLine(line, day, scale)
    ensures lines + [line] == LinesAt(start, |lines| + 1, day, scale, ds) && ValidLines(lines + [line], day, scale)
  {
  }

  /** The line loop, with the total price and the number of shipped lines. */
  method MakeLines(seeds: array<Seed>, lineCount: nat, day: int, scale: int, ds: Dists, ghost start: seq<Seed>)
    returns (lines: seq<LineItem>, total: int, oCnt: int)
    requires scale >= 1 && START_DATE <= day <= LAST_ORDER_DAY && ValidDists(ds) && InRow(start, seeds[..], 0, 0)
    modifies seeds
    ensures InRow(start, seeds[..], lineCount, Flags(lines))
    ensures lines == LinesAt(start, lineCount, day, scale, ds)
    ensures ValidLines(lines, day, scale)
    ensures total == Charges(lines)
    ensures oCnt == Shipped(lines)
  {
    lines, total, oCnt := [], 0, 0;
    for i := 0 to lineCount
      invariant InRow(start, seeds[..], i, Flags(lines))
      invariant lines == LinesAt(start, i, day, scale, ds)
      invariant ValidLines(lines, day, scale)
      invariant total == Charges(lines) && oCnt == Shipped(lines)
    {
      var line := MakeLine(seeds, i, Flags(lines), day, scale, ds, start);
      total := total + line.ePrice * (100 - line.discount) / 100 * (100 + line.tax) / 100;
      if line.shipped {
        oCnt := oCnt + 1;
      }
      LineAdded(lines, line);
      ValidLineAdded(start, lines, line, day, scale, ds);
      lines := lines + [line];
    }
  }

  // Orders.

  datatype Status = F | O | P

  datatype Order = Order(key: int, custKey: int, status: Status, totalPrice: int, day: int, priority: int, clerk: int,
                         comment: Text,
                         lines: seq<LineItem>)

  ghost predicate ValidOrder(order: Order, idx: nat, scale: int)
    requires scale >= 1
  {
    && order.key == MakeSparse(idx)
    && 1 <= order.custKey <= CUSTOMERS * scale && order.custKey % 3 != 0
    && START_DATE <= order.day <= LAST_ORDER_DAY
    && 1 <= order.clerk <= 1000 * scale
    && 1 <= |order.lines| <= MAX_LINES
    && ValidLines(order.lines, order.day, scale)
    && order.totalPrice == Charges(order.lines)
    && (order.status == F <==> forall i :: 0 <= i < |order.lines| ==> order.lines[i].shipped)
    && (order.status == O <==> forall i :: 0 <= i < |order.lines| ==> !order.lines[i].shipped)
  }

  /** Clerks: a thousand per unit of scale. */
  function Clerks(scale: int): int {
    if 1000 < scale * 1000 then scale * 1000 else 1000
  }

  /** Every clerk of the scale is drawn by some seed. */
  lemma EveryClerk(scale: int, clerk: int) returns (seed: int)
    requires 1 <= scale < 30000 && 1 <= clerk <= 1000 * scale
    ensures 0 <= seed < M && Scaled(1, Clerks(scale), seed) == clerk
  {
    seed := SomeSeed(1, 1000 * scale, clerk);
  }

  /** The order without its lines, and its number of lines. */
  ghost function HeaderAt(start: seq<Seed>, idx: nat, scale: int, ds: Dists): (Order, int)
    requires |start| == STREAMS
  {
    (Order(MakeSparse(idx), Repaired(At(start, 40, 1, 1, CUSTOMERS * scale), CUSTOMERS * scale), O, 0,
           At(start, 13, 1, START_DATE, LAST_ORDER_DAY), PickAt(start, 38, 1, ds.priorities.members),
             At(start, 11, 1, 1, Clerks(scale)),
           TextAt(start, 12, 1, 19, 78), []),
     At(start, 43, 1, 1, MAX_LINES))
  }

  function StatusOf(lines: seq<LineItem>): Status {
    if forall i :: 0 <= i < |lines| ==> lines[i].shipped then F
    else if exists i :: 0 <= i < |lines| && lines[i].shipped then P
    else O
  }

  /** The status by counting, as the loop does it. */
  lemma StatusByCount(lines: seq<LineItem>, status: Status)
    requires lines != []
    requires status == if Shipped(lines) == |lines| then F else if Shipped(lines) > 0 then P else O
    ensures status == StatusOf(lines)
    ensures status == F <==> forall i :: 0 <= i < |lines| ==> lines[i].shipped
    ensures status == O <==> forall i :: 0 <= i < |lines| ==> !lines[i].shipped
  {
    ShippedCount(lines);
    assert lines[0].shipped || !lines[0].shipped;
  }

  /** No stream is drawn beyond its boundary. */
  lemma RowInBounds(start: seq<Seed>, ss: seq<Seed>, lines: seq<LineItem>)
    requires |lines| <= MAX_LINES && InRow(start, ss, |lines|, Flags(lines))
    ensures OrderUse(start, ss)
  {
    FlagsBound(lines);
  }

  /** The boundaries are the most an order can draw: seven lines with return flags draw every stream that far. */
  lemma FullOrder(start: seq<Seed>, ss: seq<Seed>, s: int)
    requires InRow(start, ss, MAX_LINES, MAX_LINES) && 0 <= s < STREAMS && Draws(TOrder, s)
    ensures ss[s].usage == start[s].usage + Boundary(s)
  {
  }

  /** An order draws its own streams to the boundary and those of the lines at most so far. */
  ghost predicate OrderUse(start: seq<Seed>, ss: seq<Seed>) {
    && |start| == |ss| == STREAMS
    && (forall s :: 0 <= s < STREAMS && Draws(TOrder, s) && Owner(s) == TLine
         ==> ss[s].usage <= start[s].usage + Boundary(s))
    && (forall s :: 0 <= s < STREAMS && Draws(TOrder, s) && Owner(s) != TLine
         ==> ss[s].usage == start[s].usage + Boundary(s))
    && (forall s :: 0 <= s < STREAMS && !Draws(TOrder, s) ==> ss[s].usage == start[s].usage)
  }

  ghost function OrderAt(start: seq<Seed>, idx: nat, scale: int, ds: Dists): Order
    requires |start| == STREAMS && scale >= 1
  {
    var (header, lineCount) := HeaderAt(start, idx, scale, ds);
    var lines := LinesAt(start, if lineCount < 0 then 0 else lineCount, header.day, scale, ds);
    header.(lines := lines, totalPrice := Charges(lines), status := StatusOf(lines))
  }

  /** Customer and date. */
  method HeaderKeys(seeds: array<Seed>, scale: int, ghost start: seq<Seed>) returns (custKey: int, day: int)
    requires 1 <= scale < 30000 && Valid(seeds[..]) && Drew(start, seeds[..])
    requires seeds[40].usage == start[40].usage && seeds[13].usage == start[13].usage
    modifies seeds
    ensures Valid(seeds[..]) && Drew(start, seeds[..])
    ensures forall s :: 0 <= s < STREAMS ==> seeds[s].usage == old(seeds[s].usage) + if s == 40 || s == 13 then 1 else 0
    ensures custKey == Repaired(At(start, 40, 1, 1, CUSTOMERS * scale), CUSTOMERS * scale)
      && day == At(start, 13, 1, START_DATE, LAST_ORDER_DAY)
    ensures 1 <= custKey <= CUSTOMERS * scale && custKey % 3 != 0 && START_DATE <= day <= LAST_ORDER_DAY
  {
    var drawn := Random(seeds, 1, CUSTOMERS * scale, 40, start);
    assert CUSTOMERS * scale == 3 * (50000 * scale);
    custKey := RepairCustKey(drawn, CUSTOMERS * scale);
    day := Random(seeds, START_DATE, LAST_ORDER_DAY, 13, start);
  }

  /** Everything of an order but its lines. */
  method Header(seeds: array<Seed>, idx: nat, scale: int, ds: Dists, ghost start: seq<Seed>)
    returns (header: Order, lineCount: int)
    requires 1 <= scale < 30000 && ValidDists(ds) && Valid(start) && Drew(start, start) && seeds[..] == start
    modifies seeds
    ensures InRow(start, seeds[..], 0, 0)
    ensures (header, lineCount) == HeaderAt(start, idx, scale, ds)
    ensures 1 <= header.custKey <= CUSTOMERS * scale && header.custKey % 3 != 0
    ensures START_DATE <= header.day <= LAST_ORDER_DAY && 1 <= lineCount <= MAX_LINES
    ensures 1 <= header.clerk <= 1000 * scale
  {
    var custKey, day := HeaderKeys(seeds, scale, start);
    var priority, clerk, comment, count := HeaderText(seeds, scale, ds, start);
    header := Order(MakeSparse(idx), custKey, O, 0, day, priority, clerk, comment, []);
    lineCount := count;
  }

  /** Priority, clerk, comment and line count. */
  method HeaderText(seeds: array<Seed>, scale: int, ds: Dists, ghost start: seq<Seed>)
    returns (priority: int, clerk: int, comment: Text, lineCount: int)
    requires 1 <= scale < 30000 && ValidDists(ds) && Valid(seeds[..]) && Drew(start, seeds[..])
    requires seeds[38].usage == start[38].usage && seeds[11].usage == start[11].usage
    requires seeds[12].usage == start[12].usage && seeds[43].usage == start[43].usage
    modifies seeds
    ensures Valid(seeds[..]) && Drew(start, seeds[..])
    ensures forall s :: 0 <= s < STREAMS ==>
      seeds[s].usage == old(seeds[s].usage) + if s == 38 || s == 11 || s == 43 then 1 else if s == 12 then 2 else 0
    ensures priority == PickAt(start, 38, 1, ds.priorities.members) && clerk == At(start, 11, 1, 1, Clerks(scale))
    ensures comment == TextAt(start, 12, 1, 19, 78) && lineCount == At(start, 43, 1, 1, MAX_LINES)
    ensures 1 <= lineCount <= MAX_LINES && 1 <= clerk <= 1000 * scale
  {
    priority := PickStr(seeds, ds.priorities.members, ds.priorities.weights, 38, start);
    clerk := Random(seeds, 1, Clerks(scale), 11, start);
    comment := MakeText(seeds, 19, 78, 12, start);
    lineCount := Random(seeds, 1, MAX_LINES, 43, start);
  }

  method MakeOrder(seeds: array<Seed>, idx: nat, scale: int, ds: Dists, ghost start: seq<Seed>) returns (order: Order)
    requires 1 <= scale < 30000 && ValidDists(ds) && Valid(start) && Drew(start, start) && seeds[..] == start
    modifies seeds
    ensures Valid(seeds[..]) && Drew(start, seeds[..]) && OrderUse(start, seeds[..])
    ensures order == OrderAt(start, idx, scale, ds) && ValidOrder(order, idx, scale)
  {
    var header, lineCount := Header(seeds, idx, scale, ds, start);
    var lines, total, oCnt := MakeLines(seeds, lineCount, header.day, scale, ds, start);
    var status := O;
    if oCnt > 0 {
      status := P;
    }
    if oCnt == |lines| {
      status := F;
    }
    StatusByCount(lines, status);
    RowInBounds(start, seeds[..], lines);
    order := header.(status := status, totalPrice := total, lines := lines);
  }

  // An order depends on nothing but the places of its streams.

  lemma LineFromDraws(x: seq<Seed>, y: seq<Seed>, i: nat, flags: nat, day: int, scale: int, ds: Dists)
    requires scale >= 1 && SameDraws(TOrder, x, y)
    ensures LineAt(x, i, flags, day, scale, ds) == LineAt(y, i, flags, day, scale, ds)
  {
    assert forall s :: 14 <= s <= 25 ==> Draws(TOrder, s) && x[s].value == y[s].value;
  }

  lemma {:induction false} LinesFromDraws(x: seq<Seed>, y: seq<Seed>, n: nat, day: int, scale: int, ds: Dists)
    requires scale >= 1 && SameDraws(TOrder, x, y)
    ensures LinesAt(x, n, day, scale, ds) == LinesAt(y, n, day, scale, ds)
  {
    if n > 0 {
      LinesFromDraws(x, y, n - 1, day, scale, ds);
      LineFromDraws(x, y, n - 1, Flags(LinesAt(x, n - 1, day, scale, ds)), day, scale, ds);
    }
  }

  lemma OrderFromDraws(x: seq<Seed>, y: seq<Seed>, idx: nat, scale: int, ds: Dists)
    requires scale >= 1 && SameDraws(TOrder, x, y)
    ensures OrderAt(x, idx, scale, ds) == OrderAt(y, idx, scale, ds)
  {
    assert forall s :: s in {11, 12, 13, 38, 40, 43} ==> Draws(TOrder, s) && x[s].value == y[s].value;
    var (header, lineCount) := HeaderAt(x, idx, scale, ds);
    LinesFromDraws(x, y, if lineCount < 0 then 0 else lineCount, header.day, scale, ds);
  }
}
