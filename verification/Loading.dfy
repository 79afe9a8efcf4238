/** What the loader writes, table by table, as predicates over the set of warehouses and of districts loaded
    so far; and the proof that a fully loaded database is consistent. */
module Loading {
  import opened Aggregates
  import opened Schema
  import opened Checks
  import opened Consistency
  import opened Deliveries
  import opened Payments

  /** Taxes and discounts are at most 20% and 50%. */
  const MAX_TAX := 2000
  const MAX_DISCOUNT := 5000

  ghost predicate LoadedItems(item: map<int, int>, n: int) {
    && (forall i :: i in item <==> 1 <= i <= n)
    && (forall i <- item :: 100 <= item[i] <= 10000)
  }

  ghost predicate LoadedWarehouses(warehouse: map<int, Warehouse>, ws: set<int>) {
    warehouse.Keys == ws && forall w <- warehouse :: warehouse[w].ytd == 30000000 && 0 <= warehouse[w].tax <= MAX_TAX
  }

  ghost predicate LoadedStock(stock: map<SKey, Stock>, ws: set<int>, w: int, n: int) {
    && (forall k :: k in stock <==> (k.w in ws && 1 <= k.i <= ITEMS) || (k.w == w && 1 <= k.i <= n))
    && (forall k <- stock :: 10 <= stock[k].quantity <= 100)
    && (forall k <- stock :: stock[k].ytd == stock[k].orderCnt == stock[k].remoteCnt == 0)
  }

  ghost predicate LoadedDistricts(district: map<DKey, District>, ws: set<int>, w: int, n: int) {
    && (forall k :: k in district <==> (k.w in ws && 1 <= k.d <= DISTRICTS) || (k.w == w && 1 <= k.d <= n))
    && (forall k <- district :: district[k].ytd == 3000000 && district[k].nextOID == ORDERS + 1)
    && (forall k <- district :: 0 <= district[k].tax <= MAX_TAX)
  }

  const LAST_NAMES := 1000   // the first customers of a district have all of them

  ghost predicate LoadedCustomer(k: CKey, row: Customer) {
    && row.balance == Some(-1000) && row.ytdPayment == 1000 && row.paymentCnt == 1 && row.deliveryCnt == 0
    && 0 <= row.discount <= MAX_DISCOUNT
    && (1 <= k.c <= LAST_NAMES ==> row.last == LastName(k.c - 1))
  }

  ghost predicate LoadedCustomers(customer: map<CKey, Customer>, ds: set<DKey>, d: DKey, n: int) {
    && (forall k :: k in customer <==>
         (DKey(k.w, k.d) in ds && 1 <= k.c <= CUSTOMERS) || (DKey(k.w, k.d) == d && 1 <= k.c <= n))
    && (forall k <- customer :: LoadedCustomer(k, customer[k]))
  }

  function Payers(history: seq<History>): set<CKey> {
    set row <- history :: row.c
  }

  ghost predicate LoadedHistory(history: seq<History>, ds: set<DKey>, d: DKey, n: int) {
    && (forall i, j :: 0 <= i < j < |history| ==> history[i].c != history[j].c)
    && (forall c :: c in Payers(history) <==>
         (DKey(c.w, c.d) in ds && 1 <= c.c <= CUSTOMERS) || (DKey(c.w, c.d) == d && 1 <= c.c <= n))
    && (forall i :: 0 <= i < |history| ==> history[i] == History(history[i].c, history[i].c.w, history[i].c.d, 1000))
  }

  ghost predicate LoadedOrder(row: Order, o: int) {
    && 1 <= row.c <= CUSTOMERS && 5 <= row.olCnt <= 15 && row.allLocal
    && if FIRST_UNDELIVERED <= o then row.carrier.None? else row.carrier.Some? && 1 <= row.carrier.value <= 10
  }

  ghost predicate LoadedOrders(orders: map<OKey, Order>, ds: set<DKey>, d: DKey, n: int) {
    && (forall k :: k in orders <==>
         (DKey(k.w, k.d) in ds && 1 <= k.o <= ORDERS) || (DKey(k.w, k.d) == d && 1 <= k.o <= n))
    && (forall k <- orders :: LoadedOrder(orders[k], k.o))
    && (forall k <- orders, x <- orders :: k.w == x.w && k.d == x.d && orders[k].c == orders[x].c ==> k == x)
  }

  ghost predicate LoadedNewOrders(newOrder: map<OKey, NewOrder>, ds: set<DKey>, d: DKey, n: int) {
    forall k :: k in newOrder <==>
      (DKey(k.w, k.d) in ds && FIRST_UNDELIVERED <= k.o < FIRST_UNDELIVERED + NEW_ORDERS)
      || (DKey(k.w, k.d) == d && FIRST_UNDELIVERED <= k.o < FIRST_UNDELIVERED + n)
  }

  ghost predicate LoadedLine(k: LKey, line: OrderLine) {
    && line.supplyW == k.w && line.quantity == 5 && 1 <= line.i <= ITEMS
    && if k.o < FIRST_UNDELIVERED then line.deliveryD.Some? && line.amount == Some(0)
       else line.deliveryD.None? && line.amount.Some? && 1 <= line.amount.value <= 999999
  }

  /** Lines of whole districts, and of district d: of its first `o` orders, and the first n of order o + 1. */
  ghost predicate LoadedLines(orderLine: map<LKey, OrderLine>, orders: map<OKey, Order>, ds: set<DKey>, d: DKey,
                              o: int, n: int) {
    && (forall k :: k in orderLine <==>
          && k.Order() in orders && 1 <= k.n <= orders[k.Order()].olCnt
          && (DKey(k.w, k.d) in ds || (DKey(k.w, k.d) == d && (k.o <= o || (k.o == o + 1 && k.n <= n)))))
    && (forall k <- orderLine :: LoadedLine(k, orderLine[k]))
  }

  const NOWHERE := DKey(0, 0)   // no district is being loaded

  ghost predicate LoadedTop(db: Db, ws: set<int>) {
    && LoadedWarehouses(db.warehouse, ws)
    && LoadedStock(db.stock, ws, 0, 0)
    && LoadedDistricts(db.district, ws, 0, 0)
  }

  ghost predicate LoadedContents(db: Db, ds: set<DKey>) {
    && LoadedCustomers(db.customer, ds, NOWHERE, 0)
    && LoadedHistory(db.history, ds, NOWHERE, 0)
    && LoadedOrders(db.orders, ds, NOWHERE, 0)
    && LoadedNewOrders(db.newOrder, ds, NOWHERE, 0)
    && LoadedLines(db.orderLine, db.orders, ds, NOWHERE, 0, 0)
  }

  /** The database after the warehouses in ws and the contents of the districts in ds were loaded. */
  ghost predicate LoadedPart(db: Db, ws: set<int>, ds: set<DKey>) {
    LoadedTop(db, ws) && LoadedContents(db, ds)
  }

  function AllWarehouses(W: int): set<int> {
    set w | 1 <= w <= W && IsDistrict(W, w, 1)
  }

  function AllDistricts(W: int): set<DKey> {
    set w, d | 1 <= w <= W && 1 <= d <= DISTRICTS :: DKey(w, d)
  }

  ghost predicate Loaded(db: Db, W: int) {
    LoadedItems(db.item, ITEMS) && LoadedPart(db, AllWarehouses(W), AllDistricts(W))
  }

  // Sums over the loaded tables.

  function HistoryTable(history: seq<History>): map<CKey, History> {
    if history == [] then map[]
    else HistoryTable(history[..|history| - 1])[history[|history| - 1].c := history[|history| - 1]]
  }

  lemma {:induction false} HistoryTableRows(history: seq<History>)
    requires forall i, j :: 0 <= i < j < |history| ==> history[i].c != history[j].c
    ensures forall i :: 0 <= i < |history| ==>
      history[i].c in HistoryTable(history) && HistoryTable(history)[history[i].c] == history[i]
    ensures HistoryTable(history).Keys == Payers(history)
  {
    if history != [] {
      var n := |history| - 1;
      HistoryTableRows(history[..n]);
      assert history == history[..n] + [history[n]];
    }
  }

  function OfTable(f: History -> int): (CKey, History) -> int {
    (c: CKey, row: History) => f(row)
  }

  lemma HistoryAsTable(history: seq<History>, f: History -> int)
    requires forall i, j :: 0 <= i < j < |history| ==> history[i].c != history[j].c
    ensures SumRows(history, f) == Sum(HistoryTable(history), OfTable(f))
  {
    var table := HistoryTable(history);
    HistoryTableRows(history);
    forall c <- table
      ensures exists i :: 0 <= i < |history| && history[i].c == c && table[c] == history[i]
    {
      assert c in Payers(history);
    }
    SumRowsAsTable(history, f, (row: History) => row.c, table, OfTable(f));
  }

  /** When the rows a WHERE clause keeps belong to the n customers key(0), ..., each paid 1000. */
  lemma LoadedPayments(history: seq<History>, ds: set<DKey>, f: History -> int, key: int -> CKey, n: nat)
    requires LoadedHistory(history, ds, NOWHERE, 0)
    requires forall i, j | 0 <= i < j < n :: key(i) != key(j)
    requires forall i | 0 <= i < n :: key(i) in Payers(history)
    requires forall row <- history :: f(row) == if exists i :: 0 <= i < n && key(i) == row.c then 1000 else 0
    ensures SumRows(history, f) == 1000 * n
  {
    var table := HistoryTable(history);
    HistoryAsTable(history, f);
    HistoryTableRows(history);
    forall c <- table
      ensures table[c].c == c && table[c] in history
    {
      var i :| 0 <= i < |history| && history[i].c == c;
    }
    SumRange(table, OfTable(f), key, 0, n, 1000);
  }

  lemma CustomerPayments(history: seq<History>, ds: set<DKey>, c: CKey)
    requires LoadedHistory(history, ds, NOWHERE, 0) && c in Payers(history)
    ensures SumRows(history, PaidBy(c)) == 1000
  {
    var key := i => if i == 0 then c else c;
    assert key(0) == c;
    LoadedPayments(history, ds, PaidBy(c), key, 1);
  }

  lemma DistrictPayments(history: seq<History>, ds: set<DKey>, d: DKey)
    requires LoadedHistory(history, ds, NOWHERE, 0) && d in ds
    ensures SumRows(history, PaidInDistrict(d)) == 3000000
  {
    var key := i => CKey(d.w, d.d, i + 1);
    forall row <- history
      ensures PaidInDistrict(d)(row) == if exists i :: 0 <= i < CUSTOMERS && key(i) == row.c then 1000 else 0
    {
      assert row.c in Payers(history);
      if DKey(row.w, row.d) == d {
        assert key(row.c.c - 1) == row.c;
      }
    }
    LoadedPayments(history, ds, PaidInDistrict(d), key, CUSTOMERS);
  }

  lemma WarehousePayments(history: seq<History>, ds: set<DKey>, w: int)
    requires LoadedHistory(history, ds, NOWHERE, 0)
    requires forall d :: DKey(w, d) in ds <==> 1 <= d <= DISTRICTS
    ensures SumRows(history, PaidIn(w)) == 30000000
  {
    var key := i => CKey(w, i / CUSTOMERS + 1, i % CUSTOMERS + 1);
    forall row <- history
      ensures PaidIn(w)(row) == if exists i :: 0 <= i < DISTRICTS * CUSTOMERS && key(i) == row.c then 1000 else 0
    {
      assert row.c in Payers(history);
      if row.w == w {
        assert DKey(row.c.w, row.c.d) in ds;
        assert key((row.c.d - 1) * CUSTOMERS + row.c.c - 1) == row.c;
      }
    }
    forall i | 0 <= i < DISTRICTS * CUSTOMERS
      ensures key(i) in Payers(history)
    {
      assert DKey(w, i / CUSTOMERS + 1) in ds;
    }
    LoadedPayments(history, ds, PaidIn(w), key, DISTRICTS * CUSTOMERS);
  }

  lemma DistrictsOf(db: Db, ws: set<int>, w: int)
    requires LoadedDistricts(db.district, ws, 0, 0) && w in ws
    ensures Sum(db.district, DistrictYtdIn(w)) == 30000000
  {
    var key := d => DKey(w, d);
    forall k <- db.district
      ensures DistrictYtdIn(w)(k, db.district[k]) == 0 || exists i :: 1 <= i < DISTRICTS + 1 && key(i) == k
    {
      if k.w == w {
        assert key(k.d) == k;
      }
    }
    SumRange(db.district, DistrictYtdIn(w), key, 1, DISTRICTS + 1, 3000000);
  }

  // The loaded database is consistent.

  lemma LoadedOrderBook(db: Db, ws: set<int>, ds: set<DKey>)
    requires LoadedPart(db, ws, ds) && 0 !in ws
    requires forall d :: d in ds <==> d.w in ws && 1 <= d.d <= DISTRICTS
    ensures OrderBook(db)
  {
  }

  lemma LoadedQueue(db: Db, ds: set<DKey>)
    requires LoadedContents(db, ds) && NOWHERE !in ds
    ensures Queue(db) && Lines(db)
  {
  }

  lemma LoadedBook(db: Db, ws: set<int>, ds: set<DKey>)
    requires LoadedPart(db, ws, ds) && 0 !in ws
    requires forall d :: d in ds <==> d.w in ws && 1 <= d.d <= DISTRICTS
    ensures OrderBook(db) && Queue(db) && Lines(db)
  {
    LoadedOrderBook(db, ws, ds);
    LoadedQueue(db, ds);
  }

  lemma LoadedYtd(db: Db, ws: set<int>, ds: set<DKey>)
    requires LoadedPart(db, ws, ds) && 0 !in ws
    requires forall d :: d in ds <==> d.w in ws && 1 <= d.d <= DISTRICTS
    ensures Ytd(db)
  {
    forall w <- db.warehouse
      ensures db.warehouse[w].ytd == Sum(db.district, DistrictYtdIn(w)) == SumRows(db.history, PaidIn(w))
    {
      DistrictsOf(db, ws, w);
      WarehousePayments(db.history, ds, w);
    }
    forall d <- db.district
      ensures db.district[d].ytd == SumRows(db.history, PaidInDistrict(d))
    {
      DistrictPayments(db.history, ds, d);
    }
  }

  lemma LoadedBalances(db: Db, ws: set<int>, ds: set<DKey>)
    requires LoadedPart(db, ws, ds) && NOWHERE !in ds
    ensures Balances(db)
  {
    forall c <- db.customer
      ensures Delivered(db, c) == 0 && Paid(db, c) == 1000
    {
      CustomerPayments(db.history, ds, c);
      SumZero(db.orderLine, DeliveredAmount(db.orders, c));
    }
  }

  lemma LoadedStockTotals(db: Db, ws: set<int>, ds: set<DKey>)
    requires LoadedPart(db, ws, ds)
    ensures StockTotals(db.stock, db.orderLine)
  {
    forall s <- db.stock
      ensures RowTotals(db.stock[s], db.orderLine, s)
    {
      assert forall k <- db.orderLine :: k.o <= ORDERS;
      SumZero(db.orderLine, QuantityFrom(s));
      SumZero(db.orderLine, LineFrom(s));
      SumZero(db.orderLine, RemoteLineFrom(s));
    }
  }

  lemma LoadedBacklog(db: Db, ws: set<int>, ds: set<DKey>, d: DKey)
    requires LoadedPart(db, ws, ds) && OrderBook(db) && Queue(db) && d in db.district && d in ds
    ensures Backlog(db, d) == 2100
  {
    OrdersCounted(db, d);
    assert IsMin(db.newOrder, d, FIRST_UNDELIVERED);
    QueueCounted(db, d, FIRST_UNDELIVERED);
  }

  lemma LoadedRows(db: Db, W: int)
    requires Loaded(db, W)
    ensures Rows(db, W)
  {
  }

  lemma LoadedBacklogs(db: Db, W: int)
    requires Loaded(db, W) && OrderBook(db) && Queue(db)
    ensures forall d | d in db.district :: Backlog(db, d) == 2100
  {
    forall d | d in db.district
      ensures Backlog(db, d) == 2100
    {
      LoadedBacklog(db, AllWarehouses(W), AllDistricts(W), d);
    }
  }

  /** The loaded database satisfies the invariant. */
  lemma LoadedIsConsistent(db: Db, W: int)
    requires Loaded(db, W)
    ensures Consistent(db, W)
    ensures forall d | d in db.district :: Backlog(db, d) == 2100
  {
    var ws, ds := AllWarehouses(W), AllDistricts(W);
    LoadedRows(db, W);
    LoadedBook(db, ws, ds);
    LoadedYtd(db, ws, ds);
    LoadedBalances(db, ws, ds);
    LoadedStockTotals(db, ws, ds);
    LoadedBacklogs(db, W);
  }

  lemma StrictChecks(db: Db, W: int, w: int)
    requires Consistent(db, W)
    requires forall d | d in db.district :: Backlog(db, d) == 2100
    ensures AllConditions(db, w, true)
  {
    ConsistentPassesChecks(db, W, w);
    forall d: DKey | d.w == w && HasRows(db.orders, d)
      ensures OrderCount(db, d) - NewOrderCount(db, d) == 2100
    {
      assert d in db.district;
    }
  }

  /** The loaded database passes every check, with 3.3.2.11 in its strict form. */
  lemma LoadedPassesChecks(db: Db, W: int, w: int)
    requires Loaded(db, W)
    ensures AllConditions(db, w, true)
  {
    LoadedIsConsistent(db, W);
    StrictChecks(db, W, w);
  }

  // History has no unique key, so a loader that inserts a batch twice goes unnoticed until the check.

  lemma {:induction false} SumRowsConcat(rows: seq<History>, more: seq<History>, f: History -> int)
    ensures SumRows(rows + more, f) == SumRows(rows, f) + SumRows(more, f)
    decreases |more|
  {
    if more == [] {
      assert rows + more == rows;
    } else {
      var n := |more| - 1;
      SumRowsConcat(rows, more[..n], f);
      assert rows + more == rows + more[..n] + [more[n]];
      SumRowsAppend(rows + more[..n], f, more[n]);
    }
  }

  lemma {:induction false} PaidInPositive(batch: seq<History>, w: int)
    requires forall row <- batch :: row.amount == 1000
    ensures SumRows(batch, PaidIn(w)) >= if exists row <- batch :: row.w == w then 1000 else 0
    decreases |batch|
  {
    if batch != [] {
      var n := |batch| - 1;
      assert batch == batch[..n] + [batch[n]];
      PaidInPositive(batch[..n], w);
    }
  }

  lemma LoadedWarehouseHistory(db: Db, W: int, w: int)
    requires Loaded(db, W) && 1 <= w <= W
    ensures w in db.warehouse && db.warehouse[w].ytd == SumRows(db.history, PaidIn(w))
  {
    WarehousePayments(db.history, AllDistricts(W), w);
  }

  /** Condition 3.3.2.8 fails as soon as one batch of the loaded history is there twice. */
  lemma RepeatedHistoryFailsCheck(db: Db, W: int, batch: seq<History>, i: nat)
    requires Loaded(db, W) && i < |batch| && 1 <= batch[i].w <= W
    requires forall row <- batch :: row.amount == 1000
    ensures !Condition8(db.(history := db.history + batch), batch[i].w)
  {
    LoadedWarehouseHistory(db, W, batch[i].w);
    MorePaidFailsCheck(db, batch, i);
  }

  lemma MorePaidFailsCheck(db: Db, batch: seq<History>, i: nat)
    requires i < |batch| && forall row <- batch :: row.amount == 1000
    requires batch[i].w in db.warehouse && db.warehouse[batch[i].w].ytd == SumRows(db.history, PaidIn(batch[i].w))
    ensures !Condition8(db.(history := db.history + batch), batch[i].w)
  {
    assert batch[i] in db.history + batch;
    SumRowsConcat(db.history, batch, PaidIn(batch[i].w));
    PaidInPositive(batch, batch[i].w);
  }
}
