/** The stored procedures, loop by loop, each proved against its function. */
module ProcTxns {
  import opened Aggregates
  import opened Schema
  import opened Database
  import NewOrders
  import Payments
  import Deliveries
  import ClientTxns

  /** The first pass: prices, the wanted rollback, and None for an unknown item. */
  method LookUpPrices(item: map<int, int>, items: seq<NewOrders.Item>) returns (r: Option<(bool, seq<int>)>)
    ensures r.None? <==> exists i :: 0 <= i < |items| && items[i].id != NewOrders.UNUSED_ITEM && items[i].id !in item
    ensures r.Some? ==> var (rollback, prices) := r.value;
      && (rollback <==> exists i :: 0 <= i < |items| && items[i].id == NewOrders.UNUSED_ITEM)
      && |prices| == |items|
      && forall i :: 0 <= i < |items| && items[i].id in item && items[i].id != NewOrders.UNUSED_ITEM
           ==> prices[i] == item[items[i].id]
  {
    var rollback, prices := false, [];
    for i := 0 to |items|
      invariant |prices| == i
      invariant forall j :: 0 <= j < i ==>
        items[j].id == NewOrders.UNUSED_ITEM || (items[j].id in item && prices[j] == item[items[j].id])
      invariant rollback <==> exists j :: 0 <= j < i && items[j].id == NewOrders.UNUSED_ITEM
    {
      if items[i].id == NewOrders.UNUSED_ITEM {
        rollback := true;
        prices := prices + [0];
        continue;
      }
      if items[i].id !in item {
        return None;
      }
      prices := prices + [item[items[i].id]];
    }
    return Some((rollback, prices));
  }

  /** The body of the second pass: stock lookup, stock update, line insert.  False when the line's key is taken
      or a foreign key does not find the stock row. */
  method PlaceItem(db: Tables, k: LKey, x: NewOrders.Item, amount: Option<int>) returns (ok: bool)
    modifies db
    ensures ok <==> k !in old(db.orderLine) && (db.foreignKeys ==> SKey(x.supplyW, x.id) in old(db.stock))
    ensures ok ==> var p := NewOrders.Place(NewOrders.Placed(old(db.stock), old(db.orderLine)), k,
      OrderLine(x.id, x.supplyW, None, x.quantity, amount), x);
      db.Contents() == old(db.Contents()).(stock := p.stock, orderLine := p.orderLine)
  {
    var s := SKey(x.supplyW, x.id);
    if s in db.stock {
      var quantity := db.stock[s].quantity - x.quantity;
      if quantity < 10 {
        quantity := quantity + 91;
      }
      var remote := if x.supplyW != k.w then 1 else 0;
      var row := db.stock[s];
      db.stock := db.stock[s := Stock(quantity, row.ytd + x.quantity, row.orderCnt + 1, row.remoteCnt + remote)];
    }
    if k in db.orderLine || (db.foreignKeys && s !in db.stock) {
      return false;
    }
    db.orderLine := db.orderLine[k := OrderLine(x.id, x.supplyW, None, x.quantity, amount)];
    return true;
  }

  /** The second pass.  False when an insert failed. */
  method PlaceItems(db: Tables, ghost before: Db, t: NewOrders.Input, o: int, prices: seq<int>, dTax: int,
                    buyer: Option<NewOrders.Buyer>) returns (ok: bool)
    requires NewOrders.HasDistrict(before, t) && NewOrders.AllKnown(before, t) && |prices| == |t.items|
    requires db.stock == before.stock && db.orderLine == before.orderLine && db.foreignKeys == before.foreignKeys
    requires o == before.district[t.District()].nextOID && dTax == before.district[t.District()].tax
    requires buyer == NewOrders.Found(before, t)
    requires forall i :: 0 <= i < |t.items| ==> prices[i] == before.item[t.items[i].id]
    modifies db
    ensures ok <==> NewOrders.LinesInsertable(before, t, |t.items|)
    ensures ok ==> var p := NewOrders.PlacedLines(before, t, |t.items|);
      db.Contents() == old(db.Contents()).(stock := p.stock, orderLine := p.orderLine)
  {
    for i := 0 to |t.items|
      invariant db.Contents() == old(db.Contents()).(stock := db.stock, orderLine := db.orderLine)
      invariant NewOrders.Placed(db.stock, db.orderLine) == NewOrders.PlacedLines(before, t, i)
      invariant NewOrders.LinesInsertable(before, t, i)
    {
      NewOrders.LaterKeys(before, t, i);
      assert NewOrders.LineKeyOf(before, t, i) == t.LineKey(o, i);
      var amount := NewOrders.AmountFor(t.items[i], prices[i], dTax, buyer);
      assert NewOrders.LinesInsertable(before, t, i + 1) <==>
        t.LineKey(o, i) !in db.orderLine && (db.foreignKeys ==> t.StockKey(i) in db.stock);
      var placed := PlaceItem(db, t.LineKey(o, i), t.items[i], amount);
      if !placed {
        return false;
      }
    }
    return true;
  }

  /** tpcc_new_order: one pass over the items for the prices, and one that reads, updates and inserts. */
  method ProcNewOrder(db: Tables, t: NewOrders.Input) returns (outcome: Outcome)
    modifies db
    ensures Result(db.Contents(), outcome) == NewOrders.ProcNewOrder(old(db.Contents()), t)
  {
    var saved := db.Contents();
    var buyer := NewOrders.Found(saved, t);
    if t.District() !in db.district {
      return Failed;
    }
    var o, dTax := db.district[t.District()].nextOID, db.district[t.District()].tax;
    var isOpen := ClientTxns.OpenOrder(db, t, o);
    if !isOpen {
      db.Rollback(saved);
      return Failed;
    }
    var looked := LookUpPrices(db.item, t.items);
    if looked.None? {
      db.Rollback(saved);
      return Failed;
    }
    var (rollback, prices) := looked.value;
    if rollback {
      db.Rollback(saved);
      return RolledBack;
    }
    assert NewOrders.AllKnown(saved, t);
    var ok := PlaceItems(db, saved, t, o, prices, dTax, buyer);
    if !ok {
      db.Rollback(saved);
      return Failed;
    }
    return Committed;
  }

  /** tpcc_payment; `ids` is what the server answered to the query by name. */
  method ProcPayment(db: Tables, t: Payments.Input) returns (outcome: Outcome, ghost ids: seq<int>)
    modifies db
    ensures Payments.IsListing(old(db.Contents()), t, ids)
    ensures Result(db.Contents(), outcome) == Payments.ProcPayment(old(db.Contents()), t, ids)
  {
    var saved := db.Contents();
    ids := Payments.OrderedExists(saved, t, Payments.Named(saved, t));
    db.district := Payments.PayDistrict(db.district, t.District(), t.amount);
    db.warehouse := Payments.PayWarehouse(db.warehouse, t.w, t.amount);
    var c;
    if t.lookup.ByName? {
      var count := |Payments.Named(db.Contents(), t)|;
      Payments.ListingFromCustomers(db.Contents(), saved, t, ids);
      Payments.ListingCount(saved, t, ids);
      if count == 0 {
        db.Rollback(saved);
        return Failed, ids;
      }
      if count % 2 == 1 {
        count := count + 1;
      }
      var pos := count / 2;
      var rows := ClientTxns.SelectByLast(db, t);
      ids := rows;
      Payments.ListingFromCustomers(db.Contents(), saved, t, rows);
      Payments.ListingCount(saved, t, rows);
      c := rows[pos - 1];
    } else {
      c := t.lookup.c;
    }
    db.customer := Payments.PayCustomer(db.customer, t.Key(c), t.amount);
    if db.foreignKeys && (t.Key(c) !in db.customer || t.District() !in db.district) {
      db.Rollback(saved);
      return Failed, ids;
    }
    db.history := db.history + [History(t.Key(c), t.w, t.d, t.amount)];
    return Committed, ids;
  }

  /** tpcc_delivery: finish one district before the next. */
  method ProcDelivery(db: Tables, t: Deliveries.Input) returns (outcome: Outcome)
    modifies db
    ensures Result(db.Contents(), outcome) == Deliveries.ProcDelivery(old(db.Contents()), t)
  {
    ghost var start := db.Contents();
    for d := 1 to DISTRICTS + 1
      invariant db.Contents() == Deliveries.DeliverDistricts(start, t, d - 1)
    {
      DeliverDistrict(db, t, d);
    }
    return Committed;
  }

  /** The body of the district loop. */
  method DeliverDistrict(db: Tables, t: Deliveries.Input, d: int)
    modifies db
    ensures db.Contents() == Deliveries.DeliverDistrict(old(db.Contents()), t, d)
  {
    ghost var before := db.Contents();
    var o := ClientTxns.SelectOldest(db.newOrder, DKey(t.w, d));
    if o.None? {
      return;
    }
    var k := OKey(t.w, d, o.value);
    db.newOrder := db.newOrder - {k};
    var buyer := Deliveries.Buyer(db.orders, k);
    db.orders := Deliveries.SetCarrier(db.orders, {k}, t.carrier);
    db.orderLine := Deliveries.MarkDelivered(db.orderLine, {k}, t.when);
    var amount, _ := ClientTxns.SumAmount(db.orderLine, k);
    Deliveries.OrderSumUnaffected(before.orderLine, {k}, t.when, k);
    if buyer.Some? {
      db.customer := Deliveries.Credit(db.customer, buyer.value, amount);
    }
    assert db.Contents() == Deliveries.DeliverOrder(before, t, k);
  }
}
