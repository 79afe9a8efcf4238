/** Columns that no check query reads: what they count, over every run. */
module Counters {
  import opened Aggregates
  import opened Schema
  import opened Checks
  import opened Consistency
  import opened Loading
  import opened Runs
  import NewOrders
  import Payments
  import Deliveries

  function PaymentBy(c: CKey): History -> int {
    (row: History) => if row.c == c then 1 else 0
  }

  /** Orders of the customer that a Delivery has given a carrier; the loader delivered those before. */
  function DeliveryTo(c: CKey): (OKey, Order) -> int {
    (k: OKey, row: Order) =>
      if CKey(k.w, k.d, row.c) == c && row.carrier.Some? && FIRST_UNDELIVERED <= k.o then 1 else 0
  }

  function OrderOf(c: CKey): (OKey, Order) -> int {
    (k: OKey, row: Order) => if CKey(k.w, k.d, row.c) == c then 1 else 0
  }

  /** c_payment_cnt counts the customer's payments, and c_delivery_cnt the deliveries. */
  ghost predicate Tallied(db: Db, c: CKey)
    requires c in db.customer
  {
    && db.customer[c].paymentCnt == SumRows(db.history, PaymentBy(c))
    && db.customer[c].deliveryCnt == Sum(db.orders, DeliveryTo(c))
  }

  ghost predicate AllTallied(db: Db) {
    forall c <- db.customer :: Tallied(db, c)
  }

  /** o_all_local says whether all lines of the order are supplied by its own warehouse. */
  ghost predicate Local(db: Db, k: OKey)
    requires k in db.orders
  {
    db.orders[k].allLocal <==> forall l <- db.orderLine :: l.Order() == k ==> db.orderLine[l].supplyW == k.w
  }

  ghost predicate AllLocal(db: Db) {
    forall k <- db.orders :: Local(db, k)
  }

  ghost predicate Counted(db: Db) {
    AllTallied(db) && AllLocal(db)
  }

  // The loaded database.

  lemma LoadedTallies(db: Db, W: int)
    requires Loaded(db, W)
    ensures AllTallied(db)
  {
    forall c <- db.customer
      ensures Tallied(db, c)
    {
      assert LoadedCustomer(c, db.customer[c]);
      PaymentsAre(db.history, AllDistricts(W), c);
      SumZero(db.orders, DeliveryTo(c));
    }
  }

  /** One payment of each customer is loaded. */
  lemma PaymentsAre(history: seq<History>, ds: set<DKey>, c: CKey)
    requires LoadedHistory(history, ds, NOWHERE, 0) && c in Payers(history)
    ensures SumRows(history, PaymentBy(c)) == 1
  {
    CustomerPayments(history, ds, c);
    SumRowsScaled(history, PaymentBy(c), PaidBy(c), 1000);
  }

  lemma {:induction false} SumRowsScaled(rows: seq<History>, f: History -> int, g: History -> int, factor: int)
    requires forall row <- rows :: g(row) == factor * f(row)
    ensures SumRows(rows, g) == factor * SumRows(rows, f)
  {
    if rows != [] {
      var n := |rows| - 1;
      assert rows[n] in rows && forall row <- rows[..n] :: row in rows;
      SumRowsScaled(rows[..n], f, g, factor);
    }
  }

  lemma LoadedLocal(db: Db, W: int)
    requires Loaded(db, W)
    ensures AllLocal(db)
  {
    forall k <- db.orders
      ensures Local(db, k)
    {
      assert LoadedOrder(db.orders[k], k.o);
      assert forall l <- db.orderLine :: LoadedLine(l, db.orderLine[l]);
    }
  }

  lemma LoadedCounted(db: Db, W: int)
    requires Loaded(db, W)
    ensures Counted(db)
  {
    LoadedTallies(db, W);
    LoadedLocal(db, W);
  }

  // New-Order.

  lemma NewOrderTallies(db: Db, t: NewOrders.Input)
    requires AllTallied(db) && OrderBook(db) && NewOrders.HasDistrict(db, t) && NewOrders.AllKnown(db, t)
    ensures AllTallied(NewOrders.Closed(db, t))
  {
    var k, after := OKey(t.w, t.d, db.district[t.District()].nextOID), NewOrders.Closed(db, t);
    assert k !in db.orders;
    forall c <- db.customer
      ensures Tallied(after, c)
    {
      SumInsert(db.orders, DeliveryTo(c), k, after.orders[k]);
      assert Tallied(db, c);
    }
  }

  /** The lines of the new order are those of its items. */
  lemma NewOrderLocal(db: Db, t: NewOrders.Input, W: int)
    requires AllLocal(db) && OrderBook(db) && Lines(db) && NewOrders.HasDistrict(db, t) && NewOrders.AllKnown(db, t)
    requires NewOrders.Generated(t, W)
    ensures AllLocal(NewOrders.Closed(db, t))
  {
    var k, after := NewOrders.LineKeyOf(db, t, 0).Order(), NewOrders.Closed(db, t);
    assert k !in db.orders && k == OKey(t.w, t.d, db.district[t.District()].nextOID);
    NewOrders.PlacedLineKeys(db, t, |t.items|);
    forall i | 0 <= i < |t.items|
      ensures NewOrders.LineKeyOf(db, t, i) in after.orderLine
      ensures after.orderLine[NewOrders.LineKeyOf(db, t, i)].supplyW == t.items[i].supplyW
    {
      NewOrders.PlacedLineIs(db, t, |t.items|, i);
    }
    LinesOfItems(db, t);
    forall x <- after.orders
      ensures Local(after, x)
    {
      if x in db.orders {
        assert Local(db, x) && x != k;
      }
    }
  }

  lemma LinesOfItems(db: Db, t: NewOrders.Input)
    requires NewOrders.HasDistrict(db, t) && NewOrders.AllKnown(db, t)
    requires forall k <- db.orderLine :: k.Order() != NewOrders.LineKeyOf(db, t, 0).Order()
    ensures var after, k := NewOrders.Closed(db, t), NewOrders.LineKeyOf(db, t, 0).Order();
      (forall l <- after.orderLine :: l.Order() == k ==> after.orderLine[l].supplyW == k.w)
        <==> forall i :: 0 <= i < |t.items| ==> t.items[i].supplyW == t.w
  {
    var after, k := NewOrders.Closed(db, t), NewOrders.LineKeyOf(db, t, 0).Order();
    NewOrders.PlacedLineKeys(db, t, |t.items|);
    forall i | 0 <= i < |t.items|
      ensures var l := NewOrders.LineKeyOf(db, t, i);
        l.Order() == k && l in after.orderLine && after.orderLine[l].supplyW == t.items[i].supplyW
    {
      NewOrders.PlacedLineIs(db, t, |t.items|, i);
    }
    forall l <- after.orderLine | l.Order() == k
      ensures 1 <= l.n <= |t.items| && l == NewOrders.LineKeyOf(db, t, l.n - 1)
    {
    }
  }

  lemma NewOrderCounted(db: Db, t: NewOrders.Input, W: int)
    requires Consistent(db, W) && Counted(db) && NewOrders.Generated(t, W)
    ensures Counted(NewOrders.ProcNewOrder(db, t).db)
  {
    NewOrders.GeneratedRows(db, t, W);
    NewOrders.ProcNewOrderEffect(db, t);
    if !NewOrders.ProcFails(db, t) && NewOrders.AllKnown(db, t) {
      NewOrderTallies(db, t);
      NewOrderLocal(db, t, W);
    }
  }

  // Payment.

  lemma PayingTallies(db: Db, t: Payments.Input, c: CKey)
    requires AllTallied(db) && c in db.customer
    ensures AllTallied(Payments.Paying(db, t, c))
  {
    var after := Payments.Paying(db, t, c);
    assert after.customer.Keys == db.customer.Keys;
    forall x <- after.customer
      ensures Tallied(after, x)
    {
      assert Tallied(db, x);
      SumRowsAppend(db.history, PaymentBy(x), History(c, t.w, t.d, t.amount));
    }
  }

  lemma SameOrdersLocal(db: Db, after: Db)
    requires AllLocal(db) && after.orders == db.orders && after.orderLine == db.orderLine
    ensures AllLocal(after)
  {
    forall k <- after.orders
      ensures Local(after, k)
    {
      assert Local(db, k);
    }
  }

  lemma PaymentCounted(db: Db, t: Payments.Input, ids: seq<int>, W: int)
    requires Rows(db, W) && Balances(db) && Counted(db) && Payments.Generated(t, W) && Payments.IsListing(db, t, ids)
    ensures Counted(Payments.ProcPayment(db, t, ids).db)
  {
    Payments.PaymentEffect(db, t, ids, W);
    if t.lookup.ById? || ids != [] {
      PayingTallies(db, t, Payments.Chosen(t, ids));
      SameOrdersLocal(db, Payments.Paying(db, t, Payments.Chosen(t, ids)));
    }
  }

  // Delivery.

  lemma DeliveryTallied(db: Db, after: Db, k: OKey, carrier: int, amount: Option<int>, x: CKey)
    requires x in db.customer && Tallied(db, x) && k in db.orders && db.orders[k].carrier.None?
    requires FIRST_UNDELIVERED <= k.o && after.orders == db.orders[k := db.orders[k].(carrier := Some(carrier))]
    requires after.history == db.history
    requires after.customer == Deliveries.Credit(db.customer, CKey(k.w, k.d, db.orders[k].c), amount)
    ensures x in after.customer && Tallied(after, x)
  {
    SumUpdate(db.orders, DeliveryTo(x), k, after.orders[k]);
  }

  lemma OneCarrier(orders: map<OKey, Order>, k: OKey, carrier: int)
    requires k in orders
    ensures Deliveries.SetCarrier(orders, {k}, carrier) == orders[k := orders[k].(carrier := Some(carrier))]
  {
  }

  lemma DeliverTallies(db: Db, t: Deliveries.Input, k: OKey)
    requires AllTallied(db) && OrderBook(db) && Queue(db) && k in db.newOrder
    ensures AllTallied(Deliveries.DeliverOrder(db, t, k))
  {
    var after, amount := Deliveries.DeliverOrder(db, t, k), Deliveries.OrderSum(db.orderLine, k);
    assert k in db.orders && db.orders[k].carrier.None? && FIRST_UNDELIVERED <= k.o;
    OneCarrier(db.orders, k, t.carrier);
    forall x <- db.customer
      ensures x in after.customer && Tallied(after, x)
    {
      assert Tallied(db, x);
      DeliveryTallied(db, after, k, t.carrier, amount, x);
    }
  }

  lemma DeliverLocal(db: Db, t: Deliveries.Input, k: OKey)
    requires AllLocal(db)
    ensures AllLocal(Deliveries.DeliverOrder(db, t, k))
  {
    var after := Deliveries.DeliverOrder(db, t, k);
    assert after.orderLine.Keys == db.orderLine.Keys;
    assert forall l <- db.orderLine :: after.orderLine[l].supplyW == db.orderLine[l].supplyW;
    forall x <- after.orders
      ensures Local(after, x)
    {
      assert Local(db, x);
    }
  }

  lemma DeliverDistrictCounted(db: Db, t: Deliveries.Input, d: int)
    requires Book(db) && Counted(db)
    ensures Counted(Deliveries.DeliverDistrict(db, t, d))
  {
    match Deliveries.Oldest(db.newOrder, DKey(t.w, d))
    case None =>
    case Some(o) =>
      DeliverTallies(db, t, OKey(t.w, d, o));
      DeliverLocal(db, t, OKey(t.w, d, o));
  }

  lemma DeliveryCounted(db: Db, t: Deliveries.Input, W: int)
    requires Consistent(db, W) && Counted(db)
    ensures Counted(Deliveries.ProcDelivery(db, t).db)
  {
    var P := (x: Db) => Consistent(x, W) && Counted(x);
    forall x, d | P(x)
      ensures P(Deliveries.DeliverDistrict(x, t, d))
    {
      Deliveries.DeliverDistrictKeepsConsistent(x, t, d, W);
      DeliverDistrictCounted(x, t, d);
    }
    Deliveries.DistrictsPreserve(db, t, DISTRICTS, P);
  }

  // Runs.

  lemma StepCounted(db: Db, call: Call, W: int)
    requires Consistent(db, W) && Counted(db) && Legal(db, call, W)
    ensures Counted(Step(db, call))
  {
    StepKeepsConsistent(db, call, W);
    match call.txn
    case NewOrderTxn(t) =>
      NewOrderCounted(db, t, W);
    case PaymentTxn(t) =>
      PaymentCounted(db, t, call.answer, W);
    case DeliveryTxn(t) =>
      DeliveryCounted(db, t, W);
  }

  /** After every run from the loaded database each customer's payments and deliveries are counted, and every
      order says rightly whether all its lines are local. */
  lemma RunCounted(db: Db, calls: seq<Call>, W: int)
    requires Loaded(db, W) && LegalRun(db, calls, W)
    ensures Counted(Run(db, calls))
  {
    LoadedIsConsistent(db, W);
    LoadedCounted(db, W);
    var P := (x: Db) => Consistent(x, W) && Counted(x);
    forall x, call: Call | P(x) && Legal(x, call, W)
      ensures P(Step(x, call))
    {
      StepKeepsConsistent(x, call, W);
      StepCounted(x, call, W);
    }
    RunPreserves(db, calls, W, P);
  }

  // Whose orders a run places.

  ghost function OrdersOf(db: Db, c: CKey): int {
    Sum(db.orders, OrderOf(c))
  }

  /** 1 when the call is a New-Order of the customer without the item that asks for the rollback. */
  function Orders(call: Call, c: CKey): int {
    if call.txn.NewOrderTxn? && call.txn.n.Customer() == c
      && forall x <- call.txn.n.items :: x.id != NewOrders.UNUSED_ITEM then 1 else 0
  }

  function OrdersIn(calls: seq<Call>, c: CKey): int {
    if calls == [] then 0 else Orders(calls[0], c) + OrdersIn(calls[1..], c)
  }

  lemma PlacedOwner(db: Db, t: NewOrders.Input, c: CKey)
    requires OrderBook(db) && NewOrders.HasDistrict(db, t) && NewOrders.AllKnown(db, t)
    ensures OrdersOf(NewOrders.Closed(db, t), c) == OrdersOf(db, c) + if t.Customer() == c then 1 else 0
  {
    var k := OKey(t.w, t.d, db.district[t.District()].nextOID);
    assert k !in db.orders;
    SumInsert(db.orders, OrderOf(c), k, NewOrders.Closed(db, t).orders[k]);
  }

  lemma KnownItems(db: Db, t: NewOrders.Input, W: int)
    requires Rows(db, W) && NewOrders.Generated(t, W)
    ensures NewOrders.AllKnown(db, t) <==> forall x <- t.items :: x.id != NewOrders.UNUSED_ITEM
  {
    assert forall i | 0 <= i < |t.items| :: NewOrders.GeneratedItem(t.items[i], W) && t.items[i] in t.items;
  }

  lemma NewOrderPlaces(db: Db, t: NewOrders.Input, W: int, c: CKey)
    requires Rows(db, W) && OrderBook(db) && Queue(db) && Lines(db) && NewOrders.Generated(t, W)
    ensures OrdersOf(NewOrders.ProcNewOrder(db, t).db, c)
         == OrdersOf(db, c) + Orders(Call(NewOrderTxn(t), true, []), c)
  {
    KnownItems(db, t, W);
    NewOrders.GeneratedRows(db, t, W);
    NewOrders.KeysFree(db, t);
    NewOrders.ProcNewOrderEffect(db, t);
    if NewOrders.AllKnown(db, t) {
      assert !NewOrders.ProcFails(db, t);
      PlacedOwner(db, t, c);
    }
  }

  lemma DeliverKeepsOwners(db: Db, t: Deliveries.Input, k: OKey, c: CKey)
    ensures OrdersOf(Deliveries.DeliverOrder(db, t, k), c) == OrdersOf(db, c)
  {
    var after := Deliveries.DeliverOrder(db, t, k);
    assert after.orders.Keys == db.orders.Keys;
    SumSame(db.orders, after.orders, OrderOf(c), OrderOf(c));
  }

  lemma {:induction false} DeliveriesKeepOwners(db: Db, t: Deliveries.Input, n: nat, c: CKey)
    ensures OrdersOf(Deliveries.DeliverDistricts(db, t, n), c) == OrdersOf(db, c)
  {
    if n > 0 {
      DeliveriesKeepOwners(db, t, n - 1, c);
      var before := Deliveries.DeliverDistricts(db, t, n - 1);
      match Deliveries.Oldest(before.newOrder, DKey(t.w, n))
      case None =>
      case Some(o) => DeliverKeepsOwners(before, t, OKey(t.w, n, o), c);
    }
  }

  /** A run adds to a customer's orders exactly those it places for the customer. */
  lemma {:induction false} RunOrders(db: Db, calls: seq<Call>, W: int, c: CKey)
    requires Consistent(db, W) && LegalRun(db, calls, W)
    ensures OrdersOf(Run(db, calls), c) == OrdersOf(db, c) + OrdersIn(calls, c)
    decreases |calls|
  {
    if calls != [] {
      StepOrders(db, calls[0], W, c);
      StepKeepsConsistent(db, calls[0], W);
      RunOrders(Step(db, calls[0]), calls[1..], W, c);
    }
  }

  lemma ProcOrders(db: Db, call: Call, W: int, c: CKey)
    requires Rows(db, W) && OrderBook(db) && Queue(db) && Lines(db) && Generated(call.txn, W) && call.storedProcs
    ensures OrdersOf(Step(db, call), c) == OrdersOf(db, c) + Orders(call, c)
  {
    match call.txn
    case NewOrderTxn(t) =>
      NewOrderPlaces(db, t, W, c);
    case PaymentTxn(t) =>
      assert Payments.ProcPayment(db, t, call.answer).db.orders == db.orders;
    case DeliveryTxn(t) =>
      DeliveriesKeepOwners(db, t, DISTRICTS, c);
  }

  lemma StepOrders(db: Db, call: Call, W: int, c: CKey)
    requires Consistent(db, W) && Legal(db, call, W)
    ensures OrdersOf(Step(db, call), c) == OrdersOf(db, c) + Orders(call, c)
  {
    StepKeepsConsistent(db, call, W);
    ProcOrders(db, call.(storedProcs := true), W, c);
  }

  // What fits the columns.

  /** The ranges of the prices, taxes and discounts. */
  ghost predicate Priced(db: Db) {
    && (forall i <- db.item :: 100 <= db.item[i] <= 10000)
    && (forall w <- db.warehouse :: 0 <= db.warehouse[w].tax <= MAX_TAX)
    && (forall d <- db.district :: 0 <= db.district[d].tax <= MAX_TAX)
    && (forall c <- db.customer :: 0 <= db.customer[c].discount <= MAX_DISCOUNT)
  }

  /** ol_amount is DECIMAL(6,2). */
  predicate Fits(amount: Option<int>) {
    amount.Some? && 0 <= amount.value <= 999999
  }

  ghost predicate AmountsFit(orderLine: map<LKey, OrderLine>) {
    forall k <- orderLine :: Fits(orderLine[k].amount)
  }

  ghost predicate CarriersKnown(orders: map<OKey, Order>) {
    forall k <- orders :: orders[k].carrier.Some? ==> 1 <= orders[k].carrier.value <= 10
  }

  ghost predicate InColumns(db: Db) {
    Priced(db) && AmountsFit(db.orderLine) && CarriersKnown(db.orders)
  }

  lemma LoadedInColumns(db: Db, W: int)
    requires Loaded(db, W)
    ensures InColumns(db)
  {
  }

  /** The dearest line costs 1400.00. */
  lemma AmountInRange(q: int, p: int, w: int, d: int, c: int)
    requires 0 <= q <= 10 && 0 <= p <= 10000 && 0 <= w <= MAX_TAX && 0 <= d <= MAX_TAX && 0 <= c <= MAX_DISCOUNT
    ensures 0 <= Amount(q, p, w, d, c) <= 140000
  {
    NewOrders.AmountIncreases(q, p, w, d, c, 10, 10000, MAX_TAX, MAX_TAX, 0);
  }

  lemma {:induction false} PlacedAmountsFit(db: Db, t: NewOrders.Input, W: int, n: nat)
    requires n <= |t.items| && NewOrders.HasDistrict(db, t) && NewOrders.HasBuyer(db, t) && NewOrders.AllKnown(db, t)
    requires NewOrders.Generated(t, W) && Priced(db) && AmountsFit(db.orderLine)
    ensures AmountsFit(NewOrders.PlacedLines(db, t, n).orderLine)
  {
    if n > 0 {
      PlacedAmountsFit(db, t, W, n - 1);
      var x := t.items[n - 1];
      assert NewOrders.GeneratedItem(x, W);
      AmountInRange(x.quantity, db.item[x.id], db.warehouse[t.w].tax, db.district[t.District()].tax,
                    db.customer[t.Customer()].discount);
    }
  }

  lemma NewOrderInColumns(db: Db, t: NewOrders.Input, W: int)
    requires Rows(db, W) && InColumns(db) && NewOrders.Generated(t, W)
    ensures InColumns(NewOrders.ProcNewOrder(db, t).db)
  {
    NewOrders.GeneratedRows(db, t, W);
    NewOrders.ProcNewOrderEffect(db, t);
    if NewOrders.AllKnown(db, t) {
      PlacedAmountsFit(db, t, W, |t.items|);
    }
  }

  lemma PayingInColumns(db: Db, t: Payments.Input, c: CKey)
    requires InColumns(db)
    ensures InColumns(Payments.Paying(db, t, c))
  {
    var after := Payments.Paying(db, t, c);
    assert after.district.Keys == db.district.Keys && after.warehouse.Keys == db.warehouse.Keys;
    assert after.customer.Keys == db.customer.Keys;
  }

  lemma DeliverInColumns(db: Db, t: Deliveries.Input, k: OKey)
    requires InColumns(db) && 1 <= t.carrier <= 10
    ensures InColumns(Deliveries.DeliverOrder(db, t, k))
  {
    var after := Deliveries.DeliverOrder(db, t, k);
    assert after.orders.Keys == db.orders.Keys && after.orderLine.Keys == db.orderLine.Keys;
    assert after.customer.Keys == db.customer.Keys;
    assert forall l <- db.orderLine :: after.orderLine[l].amount == db.orderLine[l].amount;
  }

  lemma DeliveryInColumns(db: Db, t: Deliveries.Input)
    requires InColumns(db) && 1 <= t.carrier <= 10
    ensures InColumns(Deliveries.ProcDelivery(db, t).db)
  {
    forall x, d | InColumns(x)
      ensures InColumns(Deliveries.DeliverDistrict(x, t, d))
    {
      match Deliveries.Oldest(x.newOrder, DKey(t.w, d))
      case None =>
      case Some(o) => DeliverInColumns(x, t, OKey(t.w, d, o));
    }
    Deliveries.DistrictsPreserve(db, t, DISTRICTS, x => InColumns(x));
  }

  lemma ProcInColumns(db: Db, call: Call, W: int)
    requires Rows(db, W) && InColumns(db) && Generated(call.txn, W) && call.storedProcs
    ensures InColumns(Step(db, call))
  {
    match call.txn
    case NewOrderTxn(t) =>
      NewOrderInColumns(db, t, W);
    case PaymentTxn(t) =>
      if t.lookup.ById? || call.answer != [] {
        assert t.lookup.ByName? ==> Payments.NumberedMiddle(call.answer) == Payments.Middle(call.answer);
        PayingInColumns(db, t, Payments.Chosen(t, call.answer));
      }
    case DeliveryTxn(t) =>
      DeliveryInColumns(db, t);
  }

  lemma StepInColumns(db: Db, call: Call, W: int)
    requires Consistent(db, W) && InColumns(db) && Legal(db, call, W)
    ensures InColumns(Step(db, call))
  {
    StepKeepsConsistent(db, call, W);
    ProcInColumns(db, call.(storedProcs := true), W);
  }

  /** After every run from the loaded database each line has an amount that fits its column, and each delivered
      order one of the ten carriers. */
  lemma RunInColumns(db: Db, calls: seq<Call>, W: int)
    requires Loaded(db, W) && LegalRun(db, calls, W)
    ensures InColumns(Run(db, calls))
  {
    LoadedIsConsistent(db, W);
    LoadedInColumns(db, W);
    var P := (x: Db) => Consistent(x, W) && InColumns(x);
    forall x, call: Call | P(x) && Legal(x, call, W)
      ensures P(Step(x, call))
    {
      StepKeepsConsistent(x, call, W);
      StepInColumns(x, call, W);
    }
    RunPreserves(db, calls, W, P);
  }
}
