/** The New-Order transaction: the client-side form, which reads all stock rows first and inserts the order
    lines with one statement, and the stored procedure, which reads, updates and inserts item by item. */
module NewOrders {
  import opened Aggregates
  import opened Schema
  import opened Checks
  import opened Consistency
  import opened Division

  const UNUSED_ITEM := -1   // the item id that asks for the rollback

  datatype Item = Item(id: int, supplyW: int, quantity: int)

  datatype Input = Input(w: int, d: int, c: int, items: seq<Item>, allLocal: bool) {
    function District(): DKey { DKey(w, d) }
    function Customer(): CKey { CKey(w, d, c) }
    function StockKey(i: nat): SKey
      requires i < |items|
    {
      SKey(items[i].supplyW, items[i].id)
    }

    /** The key of the i-th line, counted from 0, when the order is number o. */
    function LineKey(o: int, i: int): LKey { LKey(w, d, o, i + 1) }
  }

  predicate DistinctItems(items: seq<Item>) {
    forall i, j :: 0 <= i < j < |items| ==> items[i].id != items[j].id
  }

  predicate RollbackItemLast(items: seq<Item>) {
    forall i :: 0 <= i < |items| - 1 ==> items[i].id != UNUSED_ITEM
  }

  predicate GeneratedItem(x: Item, W: int) {
    (x.id == UNUSED_ITEM || 1 <= x.id <= ITEMS) && 1 <= x.supplyW <= W && 1 <= x.quantity <= 10
  }

  /** What the input generation promises about an order. */
  predicate Generated(t: Input, W: int) {
    && IsDistrict(W, t.w, t.d) && 1 <= t.c <= CUSTOMERS
    && 5 <= |t.items| <= 15
    && DistinctItems(t.items) && RollbackItemLast(t.items)
    && (forall i :: 0 <= i < |t.items| ==> GeneratedItem(t.items[i], W))
    && (t.allLocal <==> forall i :: 0 <= i < |t.items| ==> t.items[i].supplyW == t.w)
  }

  predicate HasDistrict(db: Db, t: Input) {
    t.District() in db.district
  }

  /** The customer and the warehouse, which both forms read with one join. */
  predicate HasBuyer(db: Db, t: Input) {
    t.Customer() in db.customer && t.w in db.warehouse
  }

  /** Rule for the new stock level: refill by 91 when fewer than 10 would be left. */
  function Restock(quantity: int, ordered: int): int {
    if quantity - ordered < 10 then quantity - ordered + 91 else quantity - ordered
  }

  /** Take the next order id, insert the order and its row in the queue of undelivered orders. */
  function Opened(db: Db, t: Input): Db
    requires HasDistrict(db, t)
  {
    var o := db.district[t.District()].nextOID;
    db.(district := db.district[t.District() := db.district[t.District()].(nextOID := o + 1)],
        orders := db.orders[OKey(t.w, t.d, o) := Order(t.c, None, |t.items|, t.allLocal)],
        newOrder := db.newOrder[OKey(t.w, t.d, o) := NewOrder])
  }

  predicate AllKnown(db: Db, t: Input) {
    forall i :: 0 <= i < |t.items| ==> t.items[i].id in db.item
  }

  predicate AllStocked(db: Db, t: Input) {
    forall i :: 0 <= i < |t.items| ==> t.StockKey(i) in db.stock
  }

  function LineKeyOf(db: Db, t: Input, i: nat): LKey
    requires HasDistrict(db, t)
  {
    t.LineKey(db.district[t.District()].nextOID, i)
  }

  // The tables have primary keys, so that an INSERT of a key that is there fails.

  predicate OrderKeyFree(db: Db, t: Input)
    requires HasDistrict(db, t)
  {
    var k := OKey(t.w, t.d, db.district[t.District()].nextOID);
    k !in db.orders && k !in db.newOrder
  }

  predicate LineKeysFree(db: Db, t: Input)
    requires HasDistrict(db, t)
  {
    forall i :: 0 <= i < |t.items| ==> LineKeyOf(db, t, i) !in db.orderLine
  }

  /** The INSERTs of the first n lines find their keys free and, when foreign keys are checked, their stock rows. */
  predicate LinesInsertable(db: Db, t: Input, n: nat)
    requires n <= |t.items| && HasDistrict(db, t)
  {
    forall i :: 0 <= i < n ==> LineKeyOf(db, t, i) !in db.orderLine && (db.foreignKeys ==> t.StockKey(i) in db.stock)
  }

  /** The customer's discount and the warehouse's tax, which one join reads. */
  datatype Buyer = Buyer(discount: int, wTax: int)

  function Found(db: Db, t: Input): Option<Buyer> {
    if HasBuyer(db, t) then Some(Buyer(db.customer[t.Customer()].discount, db.warehouse[t.w].tax)) else None
  }

  function AmountFor(x: Item, price: int, dTax: int, buyer: Option<Buyer>): Option<int> {
    if buyer.Some? then Some(Amount(x.quantity, price, buyer.value.wTax, dTax, buyer.value.discount)) else None
  }

  /** The line of an item.  Without the customer or the warehouse its amount is NULL. */
  function LineFor(db: Db, t: Input, i: nat): OrderLine
    requires HasDistrict(db, t) && i < |t.items| && t.items[i].id in db.item
  {
    var x := t.items[i];
    OrderLine(x.id, x.supplyW, None, x.quantity, AmountFor(x, db.item[x.id], db.district[t.District()].tax,
      Found(db, t)))
  }

  /** UPDATE stock: the new quantity is absolute, the counters are relative. */
  function StockRow(row: Stock, quantity: int, x: Item, w: int): Stock {
    Stock(quantity, row.ytd + x.quantity, row.orderCnt + 1, row.remoteCnt + if x.supplyW != w then 1 else 0)
  }

  /** One stock update, whose quantity was computed from what `read` held; without a row it changes nothing. */
  function UpdateStock(stock: map<SKey, Stock>, read: map<SKey, Stock>, x: Item, w: int): (after: map<SKey, Stock>)
    ensures after.Keys == stock.Keys
  {
    var s := SKey(x.supplyW, x.id);
    if s in stock && s in read then stock[s := StockRow(stock[s], Restock(read[s].quantity, x.quantity), x, w)]
      else stock
  }

  // The client-side form.

  /** The first n updates, whose quantities were all computed from `db.stock`. */
  function UpdatedStock(db: Db, t: Input, n: nat): map<SKey, Stock>
    requires n <= |t.items|
  {
    if n == 0 then db.stock else UpdateStock(UpdatedStock(db, t, n - 1), db.stock, t.items[n - 1], t.w)
  }

  function InsertedLines(db: Db, t: Input, n: nat): map<LKey, OrderLine>
    requires n <= |t.items| && HasDistrict(db, t) && AllKnown(db, t)
  {
    if n == 0 then db.orderLine
    else InsertedLines(db, t, n - 1)[LineKeyOf(db, t, n - 1) := LineFor(db, t, n - 1)]
  }

  /** The outcome when an item is unknown: the first unknown item decides. */
  function UnknownItem(db: Db, items: seq<Item>): Outcome
    requires exists i :: 0 <= i < |items| && items[i].id !in db.item
  {
    if items[0].id !in db.item then
      if items[0].id == UNUSED_ITEM then RolledBack else Failed
    else UnknownItem(db, items[1..])
  }

  /** The client gives up on every row it does not find. */
  function ClientNewOrder(db: Db, t: Input): Result {
    if !HasBuyer(db, t) || !HasDistrict(db, t) || !OrderKeyFree(db, t) then Result(db, Failed)
    else if !AllKnown(db, t) then Result(db, UnknownItem(db, t.items))
    else if !AllStocked(db, t) || !LineKeysFree(db, t) then Result(db, Failed)
    else
      Result(Opened(db, t).(stock := UpdatedStock(db, t, |t.items|), orderLine := InsertedLines(db, t, |t.items|)),
             Committed)
  }

  // The stored procedure.

  datatype Placed = Placed(stock: map<SKey, Stock>, orderLine: map<LKey, OrderLine>)

  /** Read and update the stock row of one item and insert its line. */
  function Place(p: Placed, k: LKey, line: OrderLine, x: Item): Placed {
    Placed(UpdateStock(p.stock, p.stock, x, k.w), p.orderLine[k := line])
  }

  /** The second pass over the items. */
  function PlacedLines(db: Db, t: Input, n: nat): (p: Placed)
    requires n <= |t.items| && HasDistrict(db, t) && AllKnown(db, t)
    ensures p.stock.Keys == db.stock.Keys
  {
    if n == 0 then Placed(db.stock, db.orderLine)
    else Place(PlacedLines(db, t, n - 1), LineKeyOf(db, t, n - 1), LineFor(db, t, n - 1), t.items[n - 1])
  }

  function Closed(db: Db, t: Input): Db
    requires HasDistrict(db, t) && AllKnown(db, t)
  {
    var p := PlacedLines(db, t, |t.items|);
    Opened(db, t).(stock := p.stock, orderLine := p.orderLine)
  }

  /** An ordered item that the catalogue does not know, other than the one that asks for the rollback. */
  predicate WrongItem(db: Db, t: Input) {
    exists i :: 0 <= i < |t.items| && t.items[i].id != UNUSED_ITEM && t.items[i].id !in db.item
  }

  /** The procedure checks nothing it selects: what is not found is NULL.  A NULL order id, a key that is
      taken and a reference that a foreign key does not find stop an INSERT. */
  function ProcNewOrder(db: Db, t: Input): Result {
    if !HasDistrict(db, t) || !OrderKeyFree(db, t) then Result(db, Failed)
    else if db.foreignKeys && t.Customer() !in db.customer then Result(db, Failed)
    else if WrongItem(db, t) then Result(db, Failed)
    else if exists i :: 0 <= i < |t.items| && t.items[i].id == UNUSED_ITEM then Result(db, RolledBack)
    else if !LinesInsertable(db, t, |t.items|) then Result(db, Failed)
    else
      Result(Closed(db, t), Committed)
  }

  // Refinement.

  lemma {:induction false} PlacedLinesUntouched(db: Db, t: Input, n: nat, s: SKey)
    requires n <= |t.items| && HasDistrict(db, t) && AllKnown(db, t) && s in db.stock
    requires forall i :: 0 <= i < n ==> t.StockKey(i) != s
    ensures PlacedLines(db, t, n).stock[s] == db.stock[s]
  {
    if n > 0 {
      PlacedLinesUntouched(db, t, n - 1, s);
      assert t.StockKey(n - 1) != s;
    }
  }

  lemma {:induction false} LinesAgree(db: Db, t: Input, n: nat)
    requires n <= |t.items| && HasDistrict(db, t) && AllKnown(db, t)
    ensures PlacedLines(db, t, n).orderLine == InsertedLines(db, t, n)
  {
    if n > 0 {
      LinesAgree(db, t, n - 1);
    }
  }

  /** The lines placed so far do not take the keys of the later ones. */
  lemma {:induction false} LaterKeys(db: Db, t: Input, n: nat)
    requires n <= |t.items| && HasDistrict(db, t) && AllKnown(db, t)
    ensures forall i :: n <= i ==> (LineKeyOf(db, t, i) in PlacedLines(db, t, n).orderLine
      <==> LineKeyOf(db, t, i) in db.orderLine)
  {
    if n > 0 {
      LaterKeys(db, t, n - 1);
    }
  }

  lemma {:induction false} StockAgrees(db: Db, t: Input, n: nat)
    requires n <= |t.items| && HasDistrict(db, t) && AllKnown(db, t) && AllStocked(db, t) && DistinctItems(t.items)
    ensures PlacedLines(db, t, n).stock == UpdatedStock(db, t, n)
  {
    if n > 0 {
      StockAgrees(db, t, n - 1);
      var s := t.StockKey(n - 1);
      forall i | 0 <= i < n - 1
        ensures t.StockKey(i) != s
      {
        assert t.items[i].id != t.items[n - 1].id;
      }
      PlacedLinesUntouched(db, t, n - 1, s);
      UpdateAgrees(PlacedLines(db, t, n - 1).stock, db.stock, t.items[n - 1], t.w);
    }
  }

  /** A row that was not updated since it was read. */
  lemma UpdateAgrees(stock: map<SKey, Stock>, read: map<SKey, Stock>, x: Item, w: int)
    requires SKey(x.supplyW, x.id) in stock && SKey(x.supplyW, x.id) in read
    requires stock[SKey(x.supplyW, x.id)] == read[SKey(x.supplyW, x.id)]
    ensures UpdateStock(stock, stock, x, w) == UpdateStock(stock, read, x, w)
  {
  }

  lemma {:induction false} UnknownItemOutcome(db: Db, items: seq<Item>)
    requires exists i :: 0 <= i < |items| && items[i].id !in db.item
    requires RollbackItemLast(items) && UNUSED_ITEM !in db.item
    ensures UnknownItem(db, items) == RolledBack <==>
      forall i :: 0 <= i < |items| ==> items[i].id == UNUSED_ITEM || items[i].id in db.item
    ensures UnknownItem(db, items) != Committed
  {
    if items[0].id in db.item {
      UnknownItemOutcome(db, items[1..]);
    } else if items[0].id == UNUSED_ITEM {
      assert |items| == 1;
    }
  }

  /** The guards of the procedure. */
  predicate ProcFails(db: Db, t: Input) {
    || !HasDistrict(db, t) || !OrderKeyFree(db, t)
    || (db.foreignKeys && t.Customer() !in db.customer)
    || WrongItem(db, t)
    || (AllKnown(db, t) && (!LineKeysFree(db, t) || (db.foreignKeys && !AllStocked(db, t))))
  }

  /** The two forms leave the same database and outcome exactly when the procedure fails too, or the customer
      and warehouse exist and so do the stock rows of an order whose items are all known.  (On a missing
      customer, warehouse or stock row the client gives up and the procedure goes on.) */
  lemma NewOrderFormsAgree(db: Db, t: Input)
    requires DistinctItems(t.items) && RollbackItemLast(t.items) && UNUSED_ITEM !in db.item
    ensures ClientNewOrder(db, t) == ProcNewOrder(db, t)
       <==> ProcFails(db, t) || (HasBuyer(db, t) && (!AllKnown(db, t) || AllStocked(db, t)))
  {
    if HasBuyer(db, t) && HasDistrict(db, t) && OrderKeyFree(db, t) {
      if !AllKnown(db, t) {
        UnknownItemOutcome(db, t.items);
      } else if AllStocked(db, t) {
        LinesAgree(db, t, |t.items|);
        StockAgrees(db, t, |t.items|);
      }
    }
  }

  /** The procedure is all or nothing: it places the whole order, or changes nothing. */
  lemma ProcNewOrderEffect(db: Db, t: Input)
    requires UNUSED_ITEM !in db.item
    ensures ProcNewOrder(db, t).outcome == if ProcFails(db, t) then Failed else if AllKnown(db, t) then Committed
      else RolledBack
    ensures ProcNewOrder(db, t).db == if !ProcFails(db, t) && AllKnown(db, t) then Closed(db, t) else db
  {
  }

  // What a line costs.

  /** The exact price of a line, in units of 10^-8 cents. */
  function ExactAmount(quantity: int, price: int, wTax: int, dTax: int, discount: int): int {
    quantity * price * (10000 + wTax + dTax) * (10000 - discount)
  }

  /** The amount is within half a cent of the exact price. */
  lemma AmountRounds(quantity: int, price: int, wTax: int, dTax: int, discount: int)
    ensures var error := 100000000 * Amount(quantity, price, wTax, dTax, discount)
        - ExactAmount(quantity, price, wTax, dTax, discount);
      -50000000 < error <= 50000000
  {
  }

  /** Quantity times price without tax and discount, and nothing at full discount. */
  lemma AmountEnds(quantity: int, price: int, wTax: int, dTax: int)
    ensures Amount(quantity, price, 0, 0, 0) == quantity * price
    ensures Amount(quantity, price, wTax, dTax, 10000) == 0
  {
    assert ExactAmount(quantity, price, 0, 0, 0) == quantity * price * 100000000;
  }

  /** The first factor is at most the second, and neither product is negative. */
  lemma ProductIncreases(a: int, b: int, x: int, y: int)
    requires 0 <= a <= b && 0 <= x <= y
    ensures 0 <= a * x <= b * y
  {
    assert (b - a) * x >= 0 && b * (y - x) >= 0;
  }

  /** A line never costs less for more pieces, a higher price, more tax or less discount. */
  lemma AmountIncreases(q: int, p: int, w: int, d: int, c: int, q': int, p': int, w': int, d': int, c': int)
    requires 0 <= q <= q' && 0 <= p <= p' && 0 <= w <= w' && 0 <= d <= d' && 0 <= c' <= c <= 10000
    ensures 0 <= Amount(q, p, w, d, c) <= Amount(q', p', w', d', c')
  {
    ProductIncreases(q, q', p, p');
    ProductIncreases(q * p, q' * p', 10000 + w + d, 10000 + w' + d');
    ProductIncreases(q * p * (10000 + w + d), q' * p' * (10000 + w' + d'), 10000 - c, 10000 - c');
    DivMonotone(ExactAmount(q, p, w, d, c) + 50000000, ExactAmount(q', p', w', d', c') + 50000000, 100000000);
  }

  /** The placed lines are those of the items. */
  lemma {:induction false} PlacedLineIs(db: Db, t: Input, n: nat, i: nat)
    requires i < n <= |t.items| && HasDistrict(db, t) && AllKnown(db, t)
    ensures LineKeyOf(db, t, i) in PlacedLines(db, t, n).orderLine
    ensures PlacedLines(db, t, n).orderLine[LineKeyOf(db, t, i)] == LineFor(db, t, i)
  {
    if i < n - 1 {
      PlacedLineIs(db, t, n - 1, i);
    }
  }

  /** Line i holds the item, its supplier and its quantity, is not delivered and costs the exact price up to half
      a cent. */
  ghost predicate Charged(db: Db, t: Input, i: nat, line: OrderLine)
    requires i < |t.items| && HasDistrict(db, t) && HasBuyer(db, t) && AllKnown(db, t)
  {
    var x, buyer := t.items[i], db.customer[t.Customer()];
    var exact := ExactAmount(x.quantity, db.item[x.id], db.warehouse[t.w].tax, db.district[t.District()].tax,
      buyer.discount);
    && line.i == x.id && line.supplyW == x.supplyW && line.quantity == x.quantity && line.deliveryD.None?
    && line.amount.Some? && -50000000 < 100000000 * line.amount.value - exact <= 50000000
  }

  /** Every line of a New-Order that a client or, with a known buyer, a procedure commits. */
  lemma LinesCharged(db: Db, t: Input, i: nat)
    requires DistinctItems(t.items) && RollbackItemLast(t.items) && UNUSED_ITEM !in db.item && i < |t.items|
    requires HasBuyer(db, t) && ProcNewOrder(db, t).outcome == Committed
    ensures LineKeyOf(db, t, i) in ProcNewOrder(db, t).db.orderLine
    ensures Charged(db, t, i, ProcNewOrder(db, t).db.orderLine[LineKeyOf(db, t, i)])
    ensures ClientNewOrder(db, t).outcome == Committed ==> ClientNewOrder(db, t) == ProcNewOrder(db, t)
  {
    ProcNewOrderEffect(db, t);
    NewOrderFormsAgree(db, t);
    PlacedLineIs(db, t, |t.items|, i);
    var x := t.items[i];
    AmountRounds(x.quantity, db.item[x.id], db.warehouse[t.w].tax, db.district[t.District()].tax,
                 db.customer[t.Customer()].discount);
  }

  // Inputs on which the forms differ.

  /** One warehouse with one district, one customer and five items, all in stock. */
  const FIVE := Db(
    map[1 := Warehouse(0, 0)],
    map[DKey(1, 1) := District(0, 1, 0)],
    map[CKey(1, 1, 1) := Customer("ANN", "BARBARBAR", false, 0, Some(0), 0, 0, 0)],
    [], map[], map[], map[],
    map[SKey(1, 1) := FULL, SKey(1, 2) := FULL, SKey(1, 3) := FULL, SKey(1, 4) := FULL, SKey(1, 5) := FULL],
    map[1 := 100, 2 := 100, 3 := 100, 4 := 100, 5 := 100], false)

  const FULL := Stock(50, 0, 0, 0)

  /** An order of one piece of each. */
  const ONE_EACH := Input(1, 1, 1, [Item(1, 1, 1), Item(2, 1, 1), Item(3, 1, 1), Item(4, 1, 1), Item(5, 1, 1)], true)

  lemma OneEachGenerated()
    ensures Generated(ONE_EACH, 1)
  {
    var items := ONE_EACH.items;
    assert forall i | 0 <= i < 5 :: items[i] == Item(i + 1, 1, 1);
    assert forall i | 0 <= i < 5 :: GeneratedItem(items[i], 1);
  }

  /** Without the stock row of the last item, only the procedure places the order. */
  lemma MissingStockDiffers()
    ensures Generated(ONE_EACH, 1)
    ensures var db := FIVE.(stock := FIVE.stock - {SKey(1, 5)});
      && ClientNewOrder(db, ONE_EACH) == Result(db, Failed)
      && ProcNewOrder(db, ONE_EACH).outcome == Committed
      && LKey(1, 1, 1, 5) in ProcNewOrder(db, ONE_EACH).db.orderLine
  {
    OneEachGenerated();
    var db := FIVE.(stock := FIVE.stock - {SKey(1, 5)});
    OneEachPlaced(db);
    assert ONE_EACH.StockKey(4) !in db.stock;
  }

  /** Without the customer, only the procedure places the order, and its lines have no amounts. */
  lemma MissingCustomerDiffers()
    ensures Generated(ONE_EACH, 1)
    ensures var db := FIVE.(customer := map[]);
      && ClientNewOrder(db, ONE_EACH) == Result(db, Failed)
      && ProcNewOrder(db, ONE_EACH).outcome == Committed
      && LKey(1, 1, 1, 5) in ProcNewOrder(db, ONE_EACH).db.orderLine
      && ProcNewOrder(db, ONE_EACH).db.orderLine[LKey(1, 1, 1, 5)].amount == None
  {
    OneEachGenerated();
    OneEachPlaced(FIVE.(customer := map[]));
  }

  /** The procedure places the order whether or not stock and customer are there. */
  lemma OneEachPlaced(db: Db)
    requires db == FIVE.(customer := db.customer, stock := db.stock)
    ensures ProcNewOrder(db, ONE_EACH).outcome == Committed
    ensures LKey(1, 1, 1, 5) in ProcNewOrder(db, ONE_EACH).db.orderLine
    ensures ProcNewOrder(db, ONE_EACH).db.orderLine[LKey(1, 1, 1, 5)].amount.Some? <==> HasBuyer(db, ONE_EACH)
  {
    assert forall i | 0 <= i < 5 :: ONE_EACH.items[i] == Item(i + 1, 1, 1);
    assert AllKnown(db, ONE_EACH) && LinesInsertable(db, ONE_EACH, 5);
    PlacedLineKeys(db, ONE_EACH, 5);
    assert LKey(1, 1, 1, 5).Order() == LineKeyOf(db, ONE_EACH, 0).Order();
  }

  /** In a valid order book the next order id and its lines are free. */
  lemma KeysFree(db: Db, t: Input)
    requires OrderBook(db) && Queue(db) && Lines(db) && HasDistrict(db, t)
    ensures OrderKeyFree(db, t) && LineKeysFree(db, t)
  {
    assert OKey(t.w, t.d, db.district[t.District()].nextOID) !in db.orders;
    forall i | 0 <= i < |t.items|
      ensures LineKeyOf(db, t, i) !in db.orderLine
    {
      assert LineKeyOf(db, t, i).Order() !in db.orders;
    }
  }

  // Preservation of the invariant.

  lemma {:induction false} PlacedLineKeys(db: Db, t: Input, n: nat)
    requires n <= |t.items| && HasDistrict(db, t) && AllKnown(db, t)
    requires forall k <- db.orderLine :: k.Order() != LineKeyOf(db, t, 0).Order()
    ensures var p := PlacedLines(db, t, n);
      && (forall k <- db.orderLine :: k in p.orderLine && p.orderLine[k] == db.orderLine[k])
      && (forall k :: k in p.orderLine <==>
           k in db.orderLine || (k.Order() == LineKeyOf(db, t, 0).Order() && 1 <= k.n <= n))
      && (forall k <- p.orderLine :: k !in db.orderLine ==>
           p.orderLine[k].deliveryD.None? && (p.orderLine[k].amount.Some? <==> HasBuyer(db, t)))
  {
    if n > 0 {
      PlacedLineKeys(db, t, n - 1);
    }
  }

  lemma PlacedLineFresh(db: Db, t: Input, n: nat)
    requires n <= |t.items| && HasDistrict(db, t) && AllKnown(db, t)
    requires forall k <- db.orderLine :: k.Order() != LineKeyOf(db, t, 0).Order()
    ensures LineKeyOf(db, t, n) !in PlacedLines(db, t, n).orderLine
  {
    PlacedLineKeys(db, t, n);
  }

  /** One placed line is counted in its own stock row and in no other. */
  lemma LineCounted(p: Placed, k: LKey, line: OrderLine, x: Item, s: SKey)
    requires s in p.stock && RowTotals(p.stock[s], p.orderLine, s)
    requires k !in p.orderLine && ORDERS < k.o
    requires line.i == x.id && line.supplyW == x.supplyW && line.quantity == x.quantity && 1 <= x.quantity <= 10
    ensures RowTotals(Place(p, k, line, x).stock[s], Place(p, k, line, x).orderLine, s)
  {
    SumInsert(p.orderLine, QuantityFrom(s), k, line);
    SumInsert(p.orderLine, LineFrom(s), k, line);
    SumInsert(p.orderLine, RemoteLineFrom(s), k, line);
  }

  lemma {:induction false} LinesCounted(db: Db, t: Input, n: nat, s: SKey)
    requires n <= |t.items| && HasDistrict(db, t) && AllKnown(db, t)
    requires forall k <- db.orderLine :: k.Order() != LineKeyOf(db, t, 0).Order()
    requires ORDERS < db.district[t.District()].nextOID
    requires forall i :: 0 <= i < |t.items| ==> 1 <= t.items[i].quantity <= 10
    requires s in db.stock && RowTotals(db.stock[s], db.orderLine, s)
    ensures RowTotals(PlacedLines(db, t, n).stock[s], PlacedLines(db, t, n).orderLine, s)
  {
    if n > 0 {
      LinesCounted(db, t, n - 1, s);
      PlacedLineFresh(db, t, n - 1);
      LineCounted(PlacedLines(db, t, n - 1), LineKeyOf(db, t, n - 1), LineFor(db, t, n - 1), t.items[n - 1], s);
    }
  }

  /** Lines of a fresh order are undelivered, so nobody's delivered amount changes. */
  lemma {:induction false} DeliveredUnchanged(db: Db, t: Input, n: nat, orders: map<OKey, Order>, c: CKey)
    requires n <= |t.items| && HasDistrict(db, t) && AllKnown(db, t)
    requires forall k <- db.orderLine :: k.Order() != LineKeyOf(db, t, 0).Order()
    requires forall k <- db.orderLine :: k.Order() in db.orders
    requires forall k <- db.orders :: k in orders && orders[k] == db.orders[k]
    ensures Sum(PlacedLines(db, t, n).orderLine, DeliveredAmount(orders, c)) == Delivered(db, c)
  {
    if n == 0 {
      SumSame(db.orderLine, db.orderLine, DeliveredAmount(db.orders, c), DeliveredAmount(orders, c));
    } else {
      DeliveredUnchanged(db, t, n - 1, orders, c);
      PlacedLineFresh(db, t, n - 1);
      SumInsert(PlacedLines(db, t, n - 1).orderLine, DeliveredAmount(orders, c), LineKeyOf(db, t, n - 1),
        LineFor(db, t, n - 1));
    }
  }

  lemma NewOrderKeepsOrders(db: Db, t: Input)
    requires OrderBook(db) && HasDistrict(db, t) && HasBuyer(db, t) && AllKnown(db, t) && 5 <= |t.items| <= 15
    ensures OrderBook(Closed(db, t))
  {
    var o := db.district[t.District()].nextOID;
    assert OKey(t.w, t.d, o) !in db.orders;
  }

  lemma NewOrderKeepsQueue(db: Db, t: Input)
    requires OrderBook(db) && Queue(db) && HasDistrict(db, t) && AllKnown(db, t)
    ensures Queue(Closed(db, t))
  {
    var o := db.district[t.District()].nextOID;
    assert OKey(t.w, t.d, o) !in db.orders;
  }

  lemma NewOrderKeepsLines(db: Db, t: Input)
    requires OrderBook(db) && Lines(db) && HasDistrict(db, t) && HasBuyer(db, t) && AllKnown(db, t)
    ensures Lines(Closed(db, t))
  {
    assert LineKeyOf(db, t, 0).Order() !in db.orders;
    PlacedLineKeys(db, t, |t.items|);
    var after := Closed(db, t);
    forall k
      ensures k in after.orderLine <==> k.Order() in after.orders && 1 <= k.n <= after.orders[k.Order()].olCnt
    {
      if k.Order() == LineKeyOf(db, t, 0).Order() {
        assert k !in db.orderLine;
      } else {
        assert k in after.orderLine <==> k in db.orderLine;
      }
    }
  }

  lemma NewOrderKeepsYtd(db: Db, t: Input)
    requires Ytd(db) && HasDistrict(db, t) && AllKnown(db, t)
    ensures Ytd(Closed(db, t))
  {
    var district := Closed(db, t).district;
    forall w <- db.warehouse
      ensures Sum(district, DistrictYtdIn(w)) == Sum(db.district, DistrictYtdIn(w))
    {
      SumSame(db.district, district, DistrictYtdIn(w), DistrictYtdIn(w));
    }
  }

  lemma NewOrderKeepsBalance(db: Db, t: Input, c: CKey)
    requires HasDistrict(db, t) && AllKnown(db, t) && c in db.customer && Balance(db, c)
    requires forall k <- db.orderLine :: k.Order() != LineKeyOf(db, t, 0).Order() && k.Order() in db.orders
    requires LineKeyOf(db, t, 0).Order() !in db.orders
    ensures Balance(Closed(db, t), c)
  {
    DeliveredUnchanged(db, t, |t.items|, Closed(db, t).orders, c);
  }

  lemma NewOrderKeepsBalances(db: Db, t: Input)
    requires OrderBook(db) && Lines(db) && Balances(db) && HasDistrict(db, t) && AllKnown(db, t)
    ensures Balances(Closed(db, t))
  {
    assert LineKeyOf(db, t, 0).Order() !in db.orders;
    assert Closed(db, t).customer == db.customer;
    forall c <- db.customer
      ensures Balance(Closed(db, t), c)
    {
      NewOrderKeepsBalance(db, t, c);
    }
  }

  lemma NewOrderKeepsStock(db: Db, t: Input)
    requires OrderBook(db) && Lines(db) && HasDistrict(db, t) && AllKnown(db, t)
    requires forall i :: 0 <= i < |t.items| ==> 1 <= t.items[i].quantity <= 10
    requires StockTotals(db.stock, db.orderLine)
    ensures StockTotals(Closed(db, t).stock, Closed(db, t).orderLine)
  {
    assert LineKeyOf(db, t, 0).Order() !in db.orders;
    forall s <- db.stock
      ensures RowTotals(Closed(db, t).stock[s], Closed(db, t).orderLine, s)
    {
      LinesCounted(db, t, |t.items|, s);
    }
  }

  lemma GeneratedRows(db: Db, t: Input, W: int)
    requires Rows(db, W) && Generated(t, W)
    ensures HasDistrict(db, t) && HasBuyer(db, t) && UNUSED_ITEM !in db.item
    ensures AllKnown(db, t) ==> AllStocked(db, t) && Rows(Closed(db, t), W)
  {
    if AllKnown(db, t) {
      assert forall i | 0 <= i < |t.items| :: GeneratedItem(t.items[i], W) && t.items[i].id in db.item;
    }
  }

  lemma PlacedKeepsConsistent(db: Db, t: Input, W: int)
    requires Consistent(db, W) && Generated(t, W) && AllKnown(db, t)
    ensures HasDistrict(db, t) && Consistent(Closed(db, t), W)
  {
    GeneratedRows(db, t, W);
    NewOrderKeepsOrders(db, t);
    NewOrderKeepsQueue(db, t);
    NewOrderKeepsLines(db, t);
    NewOrderKeepsYtd(db, t);
    NewOrderKeepsBalances(db, t);
    NewOrderKeepsStock(db, t);
  }

  /** Every New-Order, in either form, keeps the database consistent. */
  lemma NewOrderKeepsConsistent(db: Db, t: Input, W: int)
    requires Consistent(db, W) && Generated(t, W)
    ensures ClientNewOrder(db, t) == ProcNewOrder(db, t)
    ensures Consistent(ProcNewOrder(db, t).db, W)
    ensures ProcNewOrder(db, t).outcome == if AllKnown(db, t) then Committed else RolledBack
  {
    GeneratedRows(db, t, W);
    KeysFree(db, t);
    NewOrderFormsAgree(db, t);
    ProcNewOrderEffect(db, t);
    if AllKnown(db, t) {
      PlacedKeepsConsistent(db, t, W);
    }
  }

  // Stock levels over time.

  /** Between the two states every stock row kept s_quantity + s_ytd modulo the refill of 91. */
  ghost predicate SameResidues(before: map<SKey, Stock>, after: map<SKey, Stock>) {
    && before.Keys == after.Keys
    && forall s <- before :: (after[s].quantity + after[s].ytd) % 91 == (before[s].quantity + before[s].ytd) % 91
  }

  lemma ResiduesCompose(a: map<SKey, Stock>, b: map<SKey, Stock>, c: map<SKey, Stock>)
    requires SameResidues(a, b) && SameResidues(b, c)
    ensures SameResidues(a, c)
  {
  }

  lemma PlaceKeepsResidues(p: Placed, k: LKey, line: OrderLine, x: Item)
    ensures SameResidues(p.stock, Place(p, k, line, x).stock)
  {
    var s := SKey(x.supplyW, x.id);
    if s in p.stock {
      var total := p.stock[s].quantity + p.stock[s].ytd;
      assert (total + 91) % 91 == total % 91;
    }
  }

  lemma {:induction false} PlacedKeepsResidues(db: Db, t: Input, n: nat)
    requires n <= |t.items| && HasDistrict(db, t) && AllKnown(db, t)
    ensures SameResidues(db.stock, PlacedLines(db, t, n).stock)
  {
    if n > 0 {
      PlacedKeepsResidues(db, t, n - 1);
      PlaceKeepsResidues(PlacedLines(db, t, n - 1), LineKeyOf(db, t, n - 1), LineFor(db, t, n - 1), t.items[n - 1]);
    }
  }

  lemma NewOrderKeepsResidues(db: Db, t: Input)
    requires UNUSED_ITEM !in db.item
    ensures SameResidues(db.stock, ProcNewOrder(db, t).db.stock)
  {
    ProcNewOrderEffect(db, t);
    if !ProcFails(db, t) && AllKnown(db, t) {
      PlacedKeepsResidues(db, t, |t.items|);
    }
  }
}
