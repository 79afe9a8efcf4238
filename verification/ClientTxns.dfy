/** The transactions as the client runs them, statement by statement, each proved against its function. */
module ClientTxns {
  import opened Aggregates
  import opened Schema
  import opened Database
  import NewOrders
  import Payments
  import Deliveries

  /** The client's map from item id to position in the order. */
  ghost predicate Positions(itemsMap: map<int, nat>, items: seq<NewOrders.Item>) {
    && (forall i :: 0 <= i < |items| && items[i].id != NewOrders.UNUSED_ITEM
         ==> items[i].id in itemsMap && itemsMap[items[i].id] == i)
    && (forall id <- itemsMap :: itemsMap[id] < |items| && items[itemsMap[id]].id == id)
  }

  method BuildItemsMap(items: seq<NewOrders.Item>) returns (itemsMap: map<int, nat>)
    requires NewOrders.DistinctItems(items)
    ensures Positions(itemsMap, items)
  {
    itemsMap := map[];
    for i := 0 to |items|
      invariant forall j :: 0 <= j < i && items[j].id != NewOrders.UNUSED_ITEM ==>
        items[j].id in itemsMap && itemsMap[items[j].id] == j
      invariant forall id <- itemsMap :: itemsMap[id] < i && items[itemsMap[id]].id == id
    {
      if items[i].id != NewOrders.UNUSED_ITEM {
        itemsMap := itemsMap[items[i].id := i];
      }
    }
  }

  /** Process 6: read the item rows, in whatever order they come, into the positions of the order. */
  method ReadPrices(item: map<int, int>, items: seq<NewOrders.Item>, itemsMap: map<int, nat>)
    returns (prices: seq<Option<int>>)
    requires Positions(itemsMap, items) && NewOrders.UNUSED_ITEM !in item
    ensures |prices| == |items|
    ensures forall i :: 0 <= i < |items| ==> prices[i] == if items[i].id in item then Some(item[items[i].id]) else None
  {
    prices := seq(|items|, i => None);
    var rows := set x <- items | x.id in item :: x.id;
    while rows != {}
      invariant |prices| == |items|
      invariant forall id <- rows :: id in item && id in itemsMap
      invariant forall i :: 0 <= i < |items| ==>
        prices[i] == if items[i].id in item && items[i].id !in rows then Some(item[items[i].id]) else None
      decreases rows
    {
      var id :| id in rows;
      rows := rows - {id};
      prices := prices[itemsMap[id] := Some(item[id])];
    }
  }

  /** The first item without a row decides how the transaction ends. */
  method FindUnknown(ghost db: Db, items: seq<NewOrders.Item>, prices: seq<Option<int>>) returns (r: Option<Outcome>)
    requires |prices| == |items|
    requires forall i :: 0 <= i < |items| ==> (prices[i].Some? <==> items[i].id in db.item)
    ensures r.None? <==> forall i :: 0 <= i < |items| ==> items[i].id in db.item
    ensures r.Some? ==> r.value == NewOrders.UnknownItem(db, items)
  {
    for i := 0 to |items|
      invariant forall j :: 0 <= j < i ==> items[j].id in db.item
      invariant (exists j :: 0 <= j < |items| && items[j].id !in db.item) ==>
        (exists j :: 0 <= j < |items[i..]| && items[i..][j].id !in db.item)
          && NewOrders.UnknownItem(db, items) == NewOrders.UnknownItem(db, items[i..])
    {
      if prices[i].None? {
        assert items[i..][0] == items[i];
        if items[i].id == NewOrders.UNUSED_ITEM {
          return Some(RolledBack);
        }
        return Some(Failed);
      }
      assert items[i..][1..] == items[i + 1..];
    }
    return None;
  }

  /** Process 7: read the stock rows, in whatever order they come, and compute the new quantities. */
  method ReadStock(stock: map<SKey, Stock>, t: NewOrders.Input, itemsMap: map<int, nat>)
    returns (quantities: seq<Option<int>>)
    requires Positions(itemsMap, t.items) && forall i :: 0 <= i < |t.items| ==> t.items[i].id != NewOrders.UNUSED_ITEM
    ensures |quantities| == |t.items|
    ensures forall i :: 0 <= i < |t.items| ==>
      quantities[i] == if t.StockKey(i) in stock
                       then Some(NewOrders.Restock(stock[t.StockKey(i)].quantity, t.items[i].quantity)) else None
  {
    quantities := seq(|t.items|, i => None);
    var rows := set x <- t.items | SKey(x.supplyW, x.id) in stock :: SKey(x.supplyW, x.id);
    assert forall k <- rows :: k.i in itemsMap && t.StockKey(itemsMap[k.i]) == k;
    while rows != {}
      invariant |quantities| == |t.items|
      invariant forall k <- rows :: k in stock && k.i in itemsMap && t.StockKey(itemsMap[k.i]) == k
      invariant forall i :: 0 <= i < |t.items| ==>
        quantities[i] == if t.StockKey(i) in stock && t.StockKey(i) !in rows
                         then Some(NewOrders.Restock(stock[t.StockKey(i)].quantity, t.items[i].quantity)) else None
      decreases rows
    {
      var k :| k in rows;
      rows := rows - {k};
      var i := itemsMap[k.i];
      quantities := quantities[i := Some(NewOrders.Restock(stock[k].quantity, t.items[i].quantity))];
    }
  }

  /** Process 8: update the stock row of each item.  False when a row is missing. */
  method UpdateStockRows(db: Tables, ghost before: Db, t: NewOrders.Input, quantities: seq<Option<int>>)
    returns (ok: bool)
    requires db.stock == before.stock && |quantities| == |t.items|
    requires forall i :: 0 <= i < |t.items| ==>
      quantities[i] == if t.StockKey(i) in db.stock
                       then Some(NewOrders.Restock(db.stock[t.StockKey(i)].quantity, t.items[i].quantity)) else None
    modifies db
    ensures db.Contents() == old(db.Contents()).(stock := db.stock)
    ensures ok <==> NewOrders.AllStocked(before, t)
    ensures ok ==> db.stock == NewOrders.UpdatedStock(before, t, |t.items|)
  {
    for i := 0 to |t.items|
      invariant db.Contents() == old(db.Contents()).(stock := db.stock)
      invariant db.stock == NewOrders.UpdatedStock(before, t, i) && db.stock.Keys == before.stock.Keys
      invariant forall j :: 0 <= j < i ==> t.StockKey(j) in before.stock
    {
      if quantities[i].None? {
        return false;
      }
      UpdateStockRow(db, t.StockKey(i), t.items[i], quantities[i].value, t.w);
    }
    return true;
  }

  /** UPDATE stock for one item. */
  method UpdateStockRow(db: Tables, s: SKey, x: NewOrders.Item, quantity: int, w: int)
    requires s in db.stock
    modifies db
    ensures db.Contents()
         == old(db.Contents()).(stock := old(db.stock)[s := NewOrders.StockRow(old(db.stock)[s], quantity, x, w)])
  {
    var row := db.stock[s];
    var remote := if x.supplyW != w then 1 else 0;
    db.stock := db.stock[s := Stock(quantity, row.ytd + x.quantity, row.orderCnt + 1, row.remoteCnt + remote)];
  }

  /** Process 9: insert all lines with one statement, or none when a key is taken. */
  method InsertLines(db: Tables, ghost before: Db, t: NewOrders.Input, o: int, lines: seq<OrderLine>) returns (ok: bool)
    requires NewOrders.HasDistrict(before, t) && NewOrders.AllKnown(before, t)
      && o == before.district[t.District()].nextOID
    requires db.orderLine == before.orderLine && |lines| == |t.items|
    requires forall i :: 0 <= i < |lines| ==> lines[i] == NewOrders.LineFor(before, t, i)
    modifies db
    ensures ok <==> NewOrders.LineKeysFree(before, t)
    ensures ok ==> db.Contents() == old(db.Contents()).(orderLine := NewOrders.InsertedLines(before, t, |t.items|))
  {
    assert forall i: nat :: NewOrders.LineKeyOf(before, t, i) == t.LineKey(o, i);
    if exists i :: 0 <= i < |lines| && t.LineKey(o, i) in db.orderLine {
      return false;
    }
    for i := 0 to |lines|
      invariant db.Contents() == old(db.Contents()).(orderLine := NewOrders.InsertedLines(before, t, i))
    {
      db.orderLine := db.orderLine[t.LineKey(o, i) := lines[i]];
    }
    return true;
  }

  /** Processes 3 to 5: take the order id, insert the order and its row in the queue.  False when a key is taken
      or a foreign key does not find the customer. */
  method OpenOrder(db: Tables, t: NewOrders.Input, o: int) returns (ok: bool)
    requires NewOrders.HasDistrict(db.Contents(), t) && o == db.district[t.District()].nextOID
    modifies db
    ensures ok <==> NewOrders.OrderKeyFree(old(db.Contents()), t) && (db.foreignKeys ==> t.Customer() in db.customer)
    ensures db.customer == old(db.customer)
    ensures ok ==> db.Contents() == NewOrders.Opened(old(db.Contents()), t)
  {
    db.district := db.district[t.District() := db.district[t.District()].(nextOID := o + 1)];
    var k := OKey(t.w, t.d, o);
    if k in db.orders || (db.foreignKeys && t.Customer() !in db.customer) {
      return false;
    }
    db.orders := db.orders[k := Order(t.c, None, |t.items|, t.allLocal)];
    if k in db.newOrder {
      return false;
    }
    db.newOrder := db.newOrder[k := NewOrder];
    return true;
  }

  method RunNewOrder(db: Tables, t: NewOrders.Input) returns (outcome: Outcome)
    requires NewOrders.DistinctItems(t.items) && NewOrders.RollbackItemLast(t.items)
    requires NewOrders.UNUSED_ITEM !in db.item
    modifies db
    ensures Result(db.Contents(), outcome) == NewOrders.ClientNewOrder(old(db.Contents()), t)
  {
    var itemsMap := BuildItemsMap(t.items);
    var saved := db.Contents();
    if t.w !in db.warehouse || t.Customer() !in db.customer {
      return Failed;
    }
    var buyer := NewOrders.Buyer(db.customer[t.Customer()].discount, db.warehouse[t.w].tax);
    if t.District() !in db.district {
      return Failed;
    }
    var o, dTax := db.district[t.District()].nextOID, db.district[t.District()].tax;
    var isOpen := OpenOrder(db, t, o);
    if !isOpen {
      db.Rollback(saved);
      return Failed;
    }

    var prices := ReadPrices(db.item, t.items, itemsMap);
    var unknown := FindUnknown(saved, t.items, prices);
    if unknown.Some? {
      db.Rollback(saved);
      return unknown.value;
    }
    assert NewOrders.AllKnown(saved, t);

    var quantities := ReadStock(db.stock, t, itemsMap);
    var stocked := UpdateStockRows(db, saved, t, quantities);
    if !stocked {
      db.Rollback(saved);
      return Failed;
    }
    var lines := seq(|t.items|, i requires 0 <= i < |t.items| =>
      OrderLine(t.items[i].id, t.items[i].supplyW, None, t.items[i].quantity,
                NewOrders.AmountFor(t.items[i], prices[i].GetOr(0), dTax, Some(buyer))));
    var inserted := InsertLines(db, saved, t, o, lines);
    if !inserted {
      db.Rollback(saved);
      return Failed;
    }
    return Committed;
  }

  /** SELECT c_id ... ORDER BY c_first, by a scan of the customers in whatever order they come. */
  method SelectByLast(db: Tables, t: Payments.Input) returns (ids: seq<int>)
    requires t.lookup.ByName?
    ensures Payments.IsListing(db.Contents(), t, ids)
  {
    ghost var all := Payments.Named(db.Contents(), t);
    ids := [];
    var rest := Payments.Named(db.Contents(), t);
    while rest != {}
      invariant rest <= all && Payments.Ordered(db.Contents(), t, ids, all - rest)
      decreases rest
    {
      var c :| c in rest;
      Payments.InsertedOrdered(db.Contents(), t, ids, all - rest, c);
      ids := Payments.Inserted(ids, Payments.Place(db.Contents(), t, ids, c), c);
      assert all - rest + {c} == all - (rest - {c});
      rest := rest - {c};
    }
    assert all - rest == all;
  }

  /** Process 5: the customer with the id, or the middle of the listing by name; None when nobody has the name. */
  method ChooseCustomer(db: Tables, t: Payments.Input) returns (c: Option<int>, ghost ids: seq<int>)
    ensures Payments.IsListing(db.Contents(), t, ids)
    ensures c.None? <==> t.lookup.ByName? && ids == []
    ensures c.Some? ==> t.Key(c.value) == Payments.Chosen(t, ids)
  {
    if t.lookup.ById? {
      return Some(t.lookup.c), [];
    }
    var list := SelectByLast(db, t);
    if |list| == 0 {
      return None, list;
    }
    return Some(list[(|list| + 1) / 2 - 1]), list;
  }

  /** Charge the customer and insert the history row. */
  method Charge(db: Tables, t: Payments.Input, k: CKey)
    requires k in db.customer && db.customer[k].balance.Some?
    modifies db
    ensures db.Contents() == old(db.Contents()).(customer := Payments.PayCustomer(old(db.customer), k, t.amount),
                                                 history := old(db.history) + [History(k, t.w, t.d, t.amount)])
  {
    var row := db.customer[k];
    db.customer := db.customer[k := row.(balance := Some(row.balance.value - t.amount),
      ytdPayment := row.ytdPayment + t.amount, paymentCnt := row.paymentCnt + 1)];
    db.history := db.history + [History(k, t.w, t.d, t.amount)];
  }

  /** The client's payment; `ids` is what the server answered to the query by name. */
  method RunPayment(db: Tables, t: Payments.Input) returns (outcome: Outcome, ghost ids: seq<int>)
    modifies db
    ensures Payments.IsListing(old(db.Contents()), t, ids)
    ensures Result(db.Contents(), outcome) == Payments.ClientPayment(old(db.Contents()), t, ids)
  {
    var saved := db.Contents();
    ids := Payments.OrderedExists(saved, t, Payments.Named(saved, t));
    db.district := Payments.PayDistrict(db.district, t.District(), t.amount);
    if t.District() !in db.district {
      db.Rollback(saved);
      return Failed, ids;
    }
    db.warehouse := Payments.PayWarehouse(db.warehouse, t.w, t.amount);
    if t.w !in db.warehouse {
      db.Rollback(saved);
      return Failed, ids;
    }
    var c;
    c, ids := ChooseCustomer(db, t);
    Payments.ListingFromCustomers(db.Contents(), saved, t, ids);
    if c.None? || t.Key(c.value) !in db.customer || db.customer[t.Key(c.value)].balance.None? {
      db.Rollback(saved);
      return Failed, ids;
    }
    Charge(db, t, t.Key(c.value));
    return Committed, ids;
  }

  /** SELECT ... ORDER BY no_o_id ASC LIMIT 1, by a scan of the queue. */
  method SelectOldest(queue: map<OKey, NewOrder>, d: DKey) returns (o: Option<int>)
    ensures o == Deliveries.Oldest(queue, d)
  {
    o := None;
    var rest := queue.Keys;
    while rest != {}
      invariant rest <= queue.Keys
      invariant o.None? ==> forall k <- queue :: k !in rest ==> DKey(k.w, k.d) != d
      invariant o.Some? ==> OKey(d.w, d.d, o.value) in queue
      invariant o.Some? ==> forall k <- queue :: k !in rest && DKey(k.w, k.d) == d ==> o.value <= k.o
      decreases rest
    {
      var k :| k in rest;
      rest := rest - {k};
      if DKey(k.w, k.d) == d && (o.None? || k.o < o.value) {
        o := Some(k.o);
      }
    }
    if o.Some? {
      Deliveries.OldestIs(queue, d, o.value);
    } else {
      Deliveries.OldestIsNone(queue, d);
    }
  }

  /** SELECT SUM(ol_amount) for one order, by a scan of the lines; and whether it has lines. */
  method SumAmount(orderLine: map<LKey, OrderLine>, o: OKey) returns (sum: Option<int>, lines: bool)
    ensures sum == Deliveries.OrderSum(orderLine, o) && (lines <==> Deliveries.HasLines(orderLine, o))
  {
    var amount, rest := 0, orderLine;
    while rest != map[]
      invariant amount + Sum(rest, Deliveries.AmountOf(o)) == Sum(orderLine, Deliveries.AmountOf(o))
      decreases |rest|
    {
      var k :| k in rest;
      SumRemove(rest, Deliveries.AmountOf(o), k);
      if k.Order() == o && rest[k].amount.Some? {
        amount := amount + rest[k].amount.value;
      }
      rest := rest - {k};
    }
    sum := if exists k <- orderLine :: k.Order() == o && orderLine[k].amount.Some? then Some(amount) else None;
    lines := exists k <- orderLine :: k.Order() == o;
  }

  /** The selects that open a Delivery: NO_ORDER stays in the slots of empty districts. */
  method SelectOrders(db: Tables, w: int) returns (orders: seq<int>)
    ensures |orders| == DISTRICTS
    ensures forall i :: 0 <= i < DISTRICTS ==> orders[i] == Deliveries.SelectedOrder(db.Contents(), w, i + 1)
  {
    orders := seq(DISTRICTS, i => Deliveries.NO_ORDER);
    for i := 0 to DISTRICTS
      invariant |orders| == DISTRICTS
      invariant forall j :: 0 <= j < i ==> orders[j] == Deliveries.SelectedOrder(db.Contents(), w, j + 1)
      invariant forall j :: i <= j < DISTRICTS ==> orders[j] == Deliveries.NO_ORDER
    {
      var o := SelectOldest(db.newOrder, DKey(w, i + 1));
      if o.Some? {
        orders := orders[i := o.value];
      }
    }
  }

  /** The key list of the batched statements. */
  method KeyList(w: int, orders: seq<int>, ghost before: Db) returns (ks: set<OKey>)
    requires |orders| == DISTRICTS
    requires forall i :: 0 <= i < DISTRICTS ==> orders[i] == Deliveries.SelectedOrder(before, w, i + 1)
    ensures ks == Deliveries.SelectedKeys(before, w, DISTRICTS)
  {
    ks := {};
    for i := 0 to DISTRICTS
      invariant ks == Deliveries.SelectedKeys(before, w, i)
    {
      ks := ks + {OKey(w, i + 1, orders[i])};
      Deliveries.SelectedKeysNext(before, w, i + 1);
      assert OKey(w, i + 1, orders[i]) == Deliveries.SelectedKey(before, w, i + 1);
    }
  }

  /** Read o_c_id of the selected orders into the slots of their districts. */
  method ReadBuyers(orders: map<OKey, Order>, w: int, selected: seq<int>) returns (cids: seq<int>)
    requires |selected| == DISTRICTS
    ensures |cids| == DISTRICTS
    ensures forall i :: 0 <= i < DISTRICTS ==>
      CKey(w, i + 1, cids[i]) == Deliveries.SlotCustomer(orders, OKey(w, i + 1, selected[i]))
  {
    cids := seq(DISTRICTS, i => 0);
    var rows := set i | 0 <= i < DISTRICTS && OKey(w, i + 1, selected[i]) in orders;
    while rows != {}
      invariant |cids| == DISTRICTS
      invariant forall i <- rows :: 0 <= i < DISTRICTS && OKey(w, i + 1, selected[i]) in orders && cids[i] == 0
      invariant forall i :: 0 <= i < DISTRICTS && i !in rows ==>
        CKey(w, i + 1, cids[i]) == Deliveries.SlotCustomer(orders, OKey(w, i + 1, selected[i]))
      decreases rows
    {
      var i :| i in rows;
      rows := rows - {i};
      cids := cids[i := orders[OKey(w, i + 1, selected[i])].c];
    }
  }

  /** Read the sum of the lines of each selected order, 0 where there are no lines.  None when a sum is NULL. */
  method ReadAmounts(orderLine: map<LKey, OrderLine>, w: int, selected: seq<int>) returns (amounts: Option<seq<int>>)
    requires |selected| == DISTRICTS
    ensures amounts.None? <==>
      exists i :: 0 <= i < DISTRICTS && Deliveries.NullSum(orderLine, OKey(w, i + 1, selected[i]))
    ensures amounts.Some? ==> |amounts.value| == DISTRICTS
    ensures amounts.Some? ==> forall i :: 0 <= i < DISTRICTS ==>
      amounts.value[i] == Deliveries.SlotAmount(orderLine, OKey(w, i + 1, selected[i]))
  {
    var read := [];
    for i := 0 to DISTRICTS
      invariant |read| == i
      invariant forall j :: 0 <= j < i ==>
        !Deliveries.NullSum(orderLine, OKey(w, j + 1, selected[j]))
          && read[j] == Deliveries.SlotAmount(orderLine, OKey(w, j + 1, selected[j]))
    {
      var sum, lines := SumAmount(orderLine, OKey(w, i + 1, selected[i]));
      if lines && sum.None? {
        return None;
      }
      read := read + [sum.GetOr(0)];
    }
    return Some(read);
  }

  /** Credit the customer of each selected order. */
  method CreditCustomers(db: Tables, ghost before: Db, w: int, selected: seq<int>, cids: seq<int>, amounts: seq<int>)
    requires |selected| == |cids| == |amounts| == DISTRICTS && db.customer == before.customer
    requires forall i :: 0 <= i < DISTRICTS ==> selected[i] == Deliveries.SelectedOrder(before, w, i + 1)
    requires forall i :: 0 <= i < DISTRICTS ==>
      CKey(w, i + 1, cids[i]) == Deliveries.SlotCustomer(before.orders, OKey(w, i + 1, selected[i]))
    requires forall i :: 0 <= i < DISTRICTS ==>
      amounts[i] == Deliveries.SlotAmount(before.orderLine, OKey(w, i + 1, selected[i]))
    modifies db
    ensures db.Contents() == old(db.Contents()).(customer := Deliveries.CreditedCustomers(before, w, DISTRICTS))
  {
    for i := 0 to DISTRICTS
      invariant db.Contents() == old(db.Contents()).(customer := Deliveries.CreditedCustomers(before, w, i))
    {
      assert Deliveries.SelectedKey(before, w, i + 1) == OKey(w, i + 1, selected[i]);
      if selected[i] != Deliveries.NO_ORDER {
        db.customer := Deliveries.Credit(db.customer, CKey(w, i + 1, cids[i]), Some(amounts[i]));
      }
    }
  }

  /** Marking lines as delivered changes no sum, and setting a carrier no customer. */
  lemma SlotsUnaffected(before: Db, ks: set<OKey>, t: Deliveries.Input)
    ensures forall k ::
      Deliveries.SlotCustomer(Deliveries.SetCarrier(before.orders, ks, t.carrier), k)
      == Deliveries.SlotCustomer(before.orders, k)
    ensures forall k ::
      Deliveries.OrderSum(Deliveries.MarkDelivered(before.orderLine, ks, t.when), k)
      == Deliveries.OrderSum(before.orderLine, k)
    ensures forall k ::
      Deliveries.HasLines(Deliveries.MarkDelivered(before.orderLine, ks, t.when), k)
      <==> Deliveries.HasLines(before.orderLine, k)
  {
    forall k
      ensures Deliveries.OrderSum(Deliveries.MarkDelivered(before.orderLine, ks, t.when), k)
        == Deliveries.OrderSum(before.orderLine, k)
      ensures Deliveries.HasLines(Deliveries.MarkDelivered(before.orderLine, ks, t.when), k)
        <==> Deliveries.HasLines(before.orderLine, k)
    {
      Deliveries.OrderSumUnaffected(before.orderLine, ks, t.when, k);
    }
  }

  method RunDelivery(db: Tables, t: Deliveries.Input) returns (outcome: Outcome)
    modifies db
    ensures Result(db.Contents(), outcome) == Deliveries.ClientDelivery(old(db.Contents()), t)
  {
    var before := db.Contents();
    var selected := SelectOrders(db, t.w);
    var ks := KeyList(t.w, selected, before);
    db.newOrder := db.newOrder - ks;
    db.orders := Deliveries.SetCarrier(db.orders, ks, t.carrier);
    SlotsUnaffected(before, ks, t);
    var cids := ReadBuyers(db.orders, t.w, selected);
    db.orderLine := Deliveries.MarkDelivered(db.orderLine, ks, t.when);
    var amounts := ReadAmounts(db.orderLine, t.w, selected);
    assert forall i | 0 <= i < DISTRICTS :: OKey(t.w, i + 1, selected[i]) == Deliveries.SelectedKey(before, t.w, i + 1);
    if amounts.None? {
      db.Rollback(before);
      return Failed;
    }
    assert forall d | 1 <= d <= DISTRICTS :: Deliveries.SelectedKey(before, t.w, d) == OKey(t.w, d, selected[d - 1]);
    CreditCustomers(db, before, t.w, selected, cids, amounts.value);
    return Committed;
  }
}
