/** Foreign keys: what the guards of the transactions are for, over every database. */
module References {
  import opened Aggregates
  import opened Schema
  import opened Runs
  import NewOrders
  import Payments
  import Deliveries

  predicate OrderRefers(customer: map<CKey, Customer>, k: OKey, row: Order) {
    CKey(k.w, k.d, row.c) in customer
  }

  predicate LineRefers(stock: map<SKey, Stock>, line: OrderLine) {
    SKey(line.supplyW, line.i) in stock
  }

  predicate PaymentRefers(customer: map<CKey, Customer>, district: map<DKey, District>, row: History) {
    row.c in customer && DKey(row.w, row.d) in district
  }

  ghost predicate LinesRefer(stock: map<SKey, Stock>, orderLine: map<LKey, OrderLine>) {
    forall k <- orderLine :: LineRefers(stock, orderLine[k])
  }

  /** Orders have customers, queue rows and lines have orders, lines have stock rows, and payments have customers and
      districts. */
  ghost predicate Referring(db: Db) {
    && (forall k <- db.orders :: OrderRefers(db.customer, k, db.orders[k]))
    && (forall k <- db.newOrder :: k in db.orders)
    && (forall k <- db.orderLine :: k.Order() in db.orders)
    && LinesRefer(db.stock, db.orderLine)
    && (forall row <- db.history :: PaymentRefers(db.customer, db.district, row))
  }

  lemma LineAddedRefers(stock: map<SKey, Stock>, orderLine: map<LKey, OrderLine>, k: LKey, line: OrderLine)
    requires LinesRefer(stock, orderLine) && LineRefers(stock, line)
    ensures LinesRefer(stock, orderLine[k := line])
  {
  }

  lemma {:induction false} PlacedLinesRefer(db: Db, t: NewOrders.Input, n: nat)
    requires n <= |t.items| && NewOrders.HasDistrict(db, t) && NewOrders.AllKnown(db, t) && NewOrders.AllStocked(db, t)
    requires LinesRefer(db.stock, db.orderLine)
    ensures LinesRefer(db.stock, NewOrders.PlacedLines(db, t, n).orderLine)
  {
    if n > 0 {
      PlacedLinesRefer(db, t, n - 1);
      assert t.StockKey(n - 1) in db.stock;
      LineAddedRefers(db.stock, NewOrders.PlacedLines(db, t, n - 1).orderLine, NewOrders.LineKeyOf(db, t, n - 1),
                      NewOrders.LineFor(db, t, n - 1));
    }
  }

  lemma {:induction false} PlacedLinesOrder(db: Db, t: NewOrders.Input, n: nat)
    requires n <= |t.items| && NewOrders.HasDistrict(db, t) && NewOrders.AllKnown(db, t)
    ensures forall k <- NewOrders.PlacedLines(db, t, n).orderLine ::
      k in db.orderLine || k.Order() == NewOrders.LineKeyOf(db, t, 0).Order()
  {
    if n > 0 {
      PlacedLinesOrder(db, t, n - 1);
    }
  }

  lemma StockKeysOnly(x: map<SKey, Stock>, y: map<SKey, Stock>, orderLine: map<LKey, OrderLine>)
    requires LinesRefer(x, orderLine) && x.Keys == y.Keys
    ensures LinesRefer(y, orderLine)
  {
    forall k <- orderLine
      ensures LineRefers(y, orderLine[k])
    {
      assert LineRefers(x, orderLine[k]);
    }
  }

  lemma ClosedRefers(db: Db, t: NewOrders.Input)
    requires Referring(db) && NewOrders.HasDistrict(db, t) && NewOrders.AllKnown(db, t) && NewOrders.AllStocked(db, t)
    requires t.Customer() in db.customer
    ensures Referring(NewOrders.Closed(db, t))
  {
    PlacedLinesRefer(db, t, |t.items|);
    PlacedLinesOrder(db, t, |t.items|);
    var after := NewOrders.Closed(db, t);
    assert after.district.Keys == db.district.Keys;
    StockKeysOnly(db.stock, after.stock, after.orderLine);
  }

  lemma NewOrderRefers(db: Db, t: NewOrders.Input, W: int)
    requires Referring(db) && NewOrders.Generated(t, W) && NewOrders.UNUSED_ITEM !in db.item
    ensures Referring(NewOrders.ClientNewOrder(db, t).db)
    ensures db.foreignKeys ==> Referring(NewOrders.ProcNewOrder(db, t).db)
  {
    if NewOrders.ProcNewOrder(db, t).db != db && db.foreignKeys {
      ClosedRefers(db, t);
    }
    if NewOrders.ClientNewOrder(db, t).db != db {
      NewOrders.LinesAgree(db, t, |t.items|);
      NewOrders.StockAgrees(db, t, |t.items|);
      ClosedRefers(db, t);
    }
  }

  lemma PayingRefers(db: Db, t: Payments.Input, c: CKey)
    requires Referring(db) && c in db.customer && t.District() in db.district
    ensures Referring(Payments.Paying(db, t, c))
  {
    var after := Payments.Paying(db, t, c);
    assert after.customer.Keys == db.customer.Keys && after.district.Keys == db.district.Keys;
  }

  lemma PaymentRefersOn(db: Db, t: Payments.Input, ids: seq<int>)
    requires Referring(db) && Payments.IsListing(db, t, ids)
    ensures Referring(Payments.ClientPayment(db, t, ids).db)
    ensures db.foreignKeys ==> Referring(Payments.ProcPayment(db, t, ids).db)
  {
    if t.lookup.ById? || ids != [] {
      assert t.lookup.ByName? ==> Payments.NumberedMiddle(ids) == Payments.Middle(ids);
      var c := Payments.Chosen(t, ids);
      if c in db.customer && t.District() in db.district {
        PayingRefers(db, t, c);
      }
    }
  }

  lemma DeliverRefers(db: Db, t: Deliveries.Input, k: OKey, buyer: Option<CKey>, amount: Option<int>)
    requires Referring(db)
    ensures Referring(Deliveries.Effect(db, t, k, buyer, amount))
  {
    var after := Deliveries.Effect(db, t, k, buyer, amount);
    assert after.customer.Keys == db.customer.Keys && after.orders.Keys == db.orders.Keys;
    assert after.orderLine.Keys == db.orderLine.Keys;
  }

  lemma {:induction false} StepsRefer(db: Db, t: Deliveries.Input, n: nat)
    requires Referring(db)
    ensures Referring(Deliveries.ClientSteps(db, t, n)) && Referring(Deliveries.ProcSteps(db, t, n))
  {
    if n > 0 {
      StepsRefer(db, t, n - 1);
      var k := Deliveries.SelectedKey(db, t.w, n);
      DeliverRefers(Deliveries.ClientSteps(db, t, n - 1), t, k,
        if k.o == Deliveries.NO_ORDER then None else Some(Deliveries.SlotCustomer(db.orders, k)),
        Some(Deliveries.SlotAmount(db.orderLine, k)));
      DeliverRefers(Deliveries.ProcSteps(db, t, n - 1), t, k, Deliveries.Buyer(db.orders, k),
        Deliveries.OrderSum(db.orderLine, k));
    }
  }

  lemma DeliveryRefers(db: Db, t: Deliveries.Input)
    requires Referring(db)
    ensures Referring(Deliveries.ClientDelivery(db, t).db) && Referring(Deliveries.ProcDelivery(db, t).db)
  {
    Deliveries.FormsAsSteps(db, t);
    StepsRefer(db, t, DISTRICTS);
  }

  /** On any database whose rows refer to rows that are there, every call keeps it so: the client because it reads
      what it refers to, the procedures when the tables have foreign keys. */
  lemma StepRefers(db: Db, call: Call, W: int)
    requires Referring(db) && Legal(db, call, W) && NewOrders.UNUSED_ITEM !in db.item
    ensures db.foreignKeys || !call.storedProcs ==> Referring(Step(db, call))
  {
    match call.txn
    case NewOrderTxn(t) =>
      NewOrderRefers(db, t, W);
    case PaymentTxn(t) =>
      PaymentRefersOn(db, t, call.answer);
    case DeliveryTxn(t) =>
      DeliveryRefers(db, t);
  }
}
