/** The loader: one method per table, run by the threads of `prepareWorkload` with a stride. */
module Loader {
  import opened Aggregates
  import opened Schema
  import opened Counting
  import opened Loading
  import opened Payments
  import opened Database

  method LoadItem(db: Tables)
    requires LoadedItems(db.item, 0)
    modifies db
    ensures db.Contents() == old(db.Contents()).(item := db.item)
    ensures LoadedItems(db.item, ITEMS)
  {
    for i := 0 to ITEMS
      invariant db.Contents() == old(db.Contents()).(item := db.item)
      invariant LoadedItems(db.item, i)
    {
      var price := RandInt(100, 10000);
      db.item := db.item[i + 1 := price];
    }
  }

  method LoadWarehouse(db: Tables, w: int, ghost ws: set<int>)
    requires LoadedWarehouses(db.warehouse, ws)
    modifies db
    ensures db.Contents() == old(db.Contents()).(warehouse := db.warehouse)
    ensures LoadedWarehouses(db.warehouse, ws + {w})
  {
    var tax := RandInt(0, 2000);
    db.warehouse := db.warehouse[w := Warehouse(30000000, tax)];
  }

  method LoadStock(db: Tables, w: int, ghost ws: set<int>)
    requires LoadedStock(db.stock, ws, w, 0)
    modifies db
    ensures db.Contents() == old(db.Contents()).(stock := db.stock)
    ensures LoadedStock(db.stock, ws, w, ITEMS)
  {
    for i := 0 to ITEMS
      invariant db.Contents() == old(db.Contents()).(stock := db.stock)
      invariant LoadedStock(db.stock, ws, w, i)
    {
      var quantity := RandInt(10, 100);
      db.stock := db.stock[SKey(w, i + 1) := Stock(quantity, 0, 0, 0)];
    }
  }

  method LoadDistrict(db: Tables, w: int, ghost ws: set<int>)
    requires LoadedDistricts(db.district, ws, w, 0)
    modifies db
    ensures db.Contents() == old(db.Contents()).(district := db.district)
    ensures LoadedDistricts(db.district, ws, w, DISTRICTS)
  {
    for i := 0 to DISTRICTS
      invariant db.Contents() == old(db.Contents()).(district := db.district)
      invariant LoadedDistricts(db.district, ws, w, i)
    {
      var tax := RandInt(0, 2000);
      db.district := db.district[DKey(w, i + 1) := District(3000000, 3001, tax)];
    }
  }

  /** First names are text the loader makes up. */
  method RandName() returns (name: string)
  {
    name := *;
  }

  lemma CustomerLoaded(customer: map<CKey, Customer>, ds: set<DKey>, d: DKey, n: nat, row: Customer)
    requires LoadedCustomers(customer, ds, d, n) && LoadedCustomer(CKey(d.w, d.d, n + 1), row)
    ensures LoadedCustomers(customer[CKey(d.w, d.d, n + 1) := row], ds, d, n + 1)
  {
  }

  /** The row of customer i + 1 of district d. */
  method RandCustomer(ghost d: DKey, i: nat) returns (row: Customer)
    ensures LoadedCustomer(CKey(d.w, d.d, i + 1), row)
  {
    var n := i;
    if i >= 1000 {
      n := RandInt(0, 999);
    }
    var last := LastName(n);
    var first := RandName();
    var credit := RandInt(0, 9);
    var discount := RandInt(0, 5000);
    row := Customer(first, last, credit == 0, discount, Some(-1000), 1000, 1, 0);
  }

  method LoadCustomer(db: Tables, d: DKey, ghost ds: set<DKey>)
    requires LoadedCustomers(db.customer, ds, d, 0)
    modifies db
    ensures db.Contents() == old(db.Contents()).(customer := db.customer)
    ensures LoadedCustomers(db.customer, ds, d, CUSTOMERS)
  {
    for i := 0 to CUSTOMERS
      invariant db.Contents() == old(db.Contents()).(customer := db.customer)
      invariant LoadedCustomers(db.customer, ds, d, i)
    {
      var row := RandCustomer(d, i);
      CustomerLoaded(db.customer, ds, d, i, row);
      db.customer := db.customer[CKey(d.w, d.d, i + 1) := row];
    }
  }

  method LoadHistory(db: Tables, d: DKey, ghost ds: set<DKey>)
    requires LoadedHistory(db.history, ds, d, 0) && d !in ds
    modifies db
    ensures db.Contents() == old(db.Contents()).(history := db.history)
    ensures LoadedHistory(db.history, ds, d, CUSTOMERS)
  {
    for i := 0 to CUSTOMERS
      invariant db.Contents() == old(db.Contents()).(history := db.history)
      invariant LoadedHistory(db.history, ds, d, i)
    {
      var c := CKey(d.w, d.d, i + 1);
      ghost var before := db.history;
      db.history := db.history + [History(c, d.w, d.d, 1000)];
      assert c !in Payers(before);
      assert forall j | 0 <= j < |before| :: before[j].c in Payers(before);
      assert Payers(db.history) == Payers(before) + {c};
    }
  }

  /** A random permutation of 0 .. n - 1, shuffled by swaps. */
  method RandPerm(n: nat) returns (p: seq<int>)
    ensures |p| == n && Permutation(p)
  {
    p := seq(n, i => i);
    var i := n - 1;
    while i > 0
      invariant |p| == n && Permutation(p)
    {
      var j := RandInt(0, i);
      SwappedPermutation(p, i, j);
      p := Swapped(p, i, j);
      i := i - 1;
    }
  }

  /** The first n orders of district d, for the shuffled customers and the line counts drawn so far. */
  ghost predicate OrdersInserted(before: map<OKey, Order>, after: map<OKey, Order>, d: DKey, cids: seq<int>,
                                 olCnts: seq<int>, n: nat)
    requires n <= |cids| && n <= |olCnts|
  {
    && (forall k :: k in after <==> k in before || (DKey(k.w, k.d) == d && 1 <= k.o <= n))
    && (forall k <- before :: k in after && after[k] == before[k])
    && (forall k <- after :: DKey(k.w, k.d) == d && 1 <= k.o <= n ==>
          LoadedOrder(after[k], k.o) && after[k].c == cids[k.o - 1] + 1 && after[k].olCnt == olCnts[k.o - 1])
  }

  lemma OrderInserted(before: map<OKey, Order>, after: map<OKey, Order>, ds: set<DKey>, d: DKey, cids: seq<int>,
                      olCnts: seq<int>, n: nat, row: Order)
    requires LoadedOrders(before, ds, d, 0) && d !in ds && n < |cids| && n == |olCnts|
    requires OrdersInserted(before, after, d, cids, olCnts, n)
    requires LoadedOrder(row, n + 1) && row.c == cids[n] + 1
    ensures OrdersInserted(before, after[OKey(d.w, d.d, n + 1) := row], d, cids, olCnts + [row.olCnt], n + 1)
  {
  }

  lemma OrdersInsertedAll(before: map<OKey, Order>, after: map<OKey, Order>, ds: set<DKey>, d: DKey, cids: seq<int>,
                          olCnts: seq<int>)
    requires LoadedOrders(before, ds, d, 0) && d !in ds && |cids| == ORDERS && Permutation(cids) && |olCnts| == ORDERS
    requires OrdersInserted(before, after, d, cids, olCnts, ORDERS)
    ensures LoadedOrders(after, ds, d, ORDERS)
  {
    forall k <- after, x <- after | k.w == x.w && k.d == x.d && after[k].c == after[x].c
      ensures k == x
    {
      if DKey(k.w, k.d) == d {
        assert cids[k.o - 1] == cids[x.o - 1];
      } else {
        assert k in before && x in before;
      }
    }
  }

  method LoadOrder(db: Tables, d: DKey, ghost ds: set<DKey>) returns (olCnts: seq<int>)
    requires LoadedOrders(db.orders, ds, d, 0) && d !in ds
    modifies db
    ensures db.Contents() == old(db.Contents()).(orders := db.orders)
    ensures LoadedOrders(db.orders, ds, d, ORDERS)
    ensures forall k <- old(db.orders) :: k in db.orders && db.orders[k] == old(db.orders)[k]
    ensures |olCnts| == ORDERS && forall k <- db.orders :: DKey(k.w, k.d) == d ==> db.orders[k].olCnt == olCnts[k.o - 1]
  {
    var cids := RandPerm(ORDERS);
    ghost var before := db.orders;
    olCnts := [];
    for i := 0 to ORDERS
      invariant db.Contents() == old(db.Contents()).(orders := db.orders)
      invariant |olCnts| == i && OrdersInserted(before, db.orders, d, cids, olCnts, i)
    {
      var o := i + 1;
      var carrier := None;
      if o < 2101 {
        var id := RandInt(1, 10);
        carrier := Some(id);
      }
      var olCnt := RandInt(5, 15);
      var row := Order(cids[i] + 1, carrier, olCnt, true);
      OrderInserted(before, db.orders, ds, d, cids, olCnts, i, row);
      olCnts := olCnts + [olCnt];
      db.orders := db.orders[OKey(d.w, d.d, o) := row];
    }
    OrdersInsertedAll(before, db.orders, ds, d, cids, olCnts);
  }

  method LoadNewOrder(db: Tables, d: DKey, ghost ds: set<DKey>)
    requires LoadedNewOrders(db.newOrder, ds, d, 0)
    modifies db
    ensures db.Contents() == old(db.Contents()).(newOrder := db.newOrder)
    ensures LoadedNewOrders(db.newOrder, ds, d, NEW_ORDERS)
  {
    for i := 0 to NEW_ORDERS
      invariant db.Contents() == old(db.Contents()).(newOrder := db.newOrder)
      invariant LoadedNewOrders(db.newOrder, ds, d, i)
    {
      db.newOrder := db.newOrder[OKey(d.w, d.d, 2101 + i) := NewOrder];
    }
  }

  lemma LineLoaded(orderLine: map<LKey, OrderLine>, orders: map<OKey, Order>, ds: set<DKey>, d: DKey, o: nat, n: nat,
                   line: OrderLine)
    requires LoadedLines(orderLine, orders, ds, d, o, n) && d !in ds
    requires OKey(d.w, d.d, o + 1) in orders && n < orders[OKey(d.w, d.d, o + 1)].olCnt
    requires LoadedLine(LKey(d.w, d.d, o + 1, n + 1), line)
    ensures LoadedLines(orderLine[LKey(d.w, d.d, o + 1, n + 1) := line], orders, ds, d, o, n + 1)
  {
    assert LKey(d.w, d.d, o + 1, n + 1).Order() == OKey(d.w, d.d, o + 1);
  }

  lemma OrderOfLinesLoaded(orderLine: map<LKey, OrderLine>, orders: map<OKey, Order>, ds: set<DKey>, d: DKey, o: nat)
    requires OKey(d.w, d.d, o + 1) in orders
    requires LoadedLines(orderLine, orders, ds, d, o, orders[OKey(d.w, d.d, o + 1)].olCnt)
    ensures LoadedLines(orderLine, orders, ds, d, o + 1, 0)
  {
    forall k: LKey | DKey(k.w, k.d) == d && k.o == o + 1
      ensures k.Order() == OKey(d.w, d.d, o + 1)
    {
    }
  }

  method LoadOrderLine(db: Tables, d: DKey, olCnts: seq<int>, when: int, ghost ds: set<DKey>)
    requires LoadedOrders(db.orders, ds, d, ORDERS) && LoadedLines(db.orderLine, db.orders, ds, d, 0, 0) && d !in ds
    requires |olCnts| == ORDERS
    requires forall k <- db.orders :: DKey(k.w, k.d) == d ==> db.orders[k].olCnt == olCnts[k.o - 1]
    modifies db
    ensures db.Contents() == old(db.Contents()).(orderLine := db.orderLine)
    ensures LoadedLines(db.orderLine, db.orders, ds, d, ORDERS, 0)
  {
    ghost var orders := db.orders;
    for i := 0 to ORDERS
      invariant db.Contents() == old(db.Contents()).(orderLine := db.orderLine)
      invariant LoadedLines(db.orderLine, orders, ds, d, i, 0)
    {
      assert OKey(d.w, d.d, i + 1) in orders && orders[OKey(d.w, d.d, i + 1)].olCnt == olCnts[i];
      for j := 0 to olCnts[i]
        invariant db.Contents() == old(db.Contents()).(orderLine := db.orderLine)
        invariant LoadedLines(db.orderLine, orders, ds, d, i, j)
      {
        var id := RandInt(1, 100000);
        var deliveryD, amount := None, Some(0);
        if i + 1 < 2101 {
          deliveryD := Some(when);
        } else {
          var cents := RandInt(1, 999999);
          amount := Some(cents);
        }
        var line := OrderLine(id, d.w, deliveryD, 5, amount);
        LineLoaded(db.orderLine, orders, ds, d, i, j, line);
        db.orderLine := db.orderLine[LKey(d.w, d.d, i + 1, j + 1) := line];
      }
      OrderOfLinesLoaded(db.orderLine, orders, ds, d, i);
    }
  }

  /** One pass of the warehouse loop. */
  method LoadWarehouseRows(db: Tables, w: int, ghost ws: set<int>)
    requires LoadedTop(db.Contents(), ws) && w !in ws
    modifies db
    ensures LoadedTop(db.Contents(), ws + {w})
    ensures db.Contents() == old(db.Contents()).(warehouse := db.warehouse, stock := db.stock, district := db.district)
  {
    LoadWarehouse(db, w, ws);
    LoadStock(db, w, ws);
    LoadDistrict(db, w, ws);
  }

  /** The tables of a district that is loaded completely. */
  lemma DistrictLoaded(db: Db, ds: set<DKey>, d: DKey)
    requires LoadedCustomers(db.customer, ds, d, CUSTOMERS) && LoadedHistory(db.history, ds, d, CUSTOMERS)
    requires LoadedOrders(db.orders, ds, d, ORDERS) && LoadedNewOrders(db.newOrder, ds, d, NEW_ORDERS)
    requires LoadedLines(db.orderLine, db.orders, ds, d, ORDERS, 0)
    ensures LoadedContents(db, ds + {d})
  {
  }

  /** One pass of the district loop. */
  method LoadDistrictRows(db: Tables, d: DKey, when: int, ghost ds: set<DKey>)
    requires LoadedContents(db.Contents(), ds) && d !in ds
    modifies db
    ensures LoadedContents(db.Contents(), ds + {d})
    ensures db.Contents() == old(db.Contents()).(customer := db.customer, history := db.history, orders := db.orders,
                                                 newOrder := db.newOrder, orderLine := db.orderLine)
  {
    LoadCustomer(db, d, ds);
    LoadHistory(db, d, ds);
    var olCnts := LoadOrder(db, d, ds);
    LoadNewOrder(db, d, ds);
    LoadOrderLine(db, d, olCnts, when, ds);
    DistrictLoaded(db.Contents(), ds, d);
  }
}
