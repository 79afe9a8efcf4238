/** The inductive invariant behind the check queries.  It is stronger than their conjunction: it fixes
    which rows exist, and it has no exception for groups without rows. */
module Consistency {
  import opened Aggregates
  import opened Counting
  import opened Schema
  import opened Checks

  predicate IsDistrict(W: int, w: int, d: int) {
    1 <= w <= W && 1 <= d <= DISTRICTS
  }

  /** The rows the loader writes and no transaction adds or removes. */
  ghost predicate Rows(db: Db, W: int) {
    && (forall w :: w in db.warehouse <==> 1 <= w <= W)
    && (forall k :: k in db.district <==> IsDistrict(W, k.w, k.d))
    && (forall k :: k in db.customer <==> IsDistrict(W, k.w, k.d) && 1 <= k.c <= CUSTOMERS)
    && (forall k :: k in db.stock <==> 1 <= k.w <= W && 1 <= k.i <= ITEMS)
    && (forall i :: i in db.item <==> 1 <= i <= ITEMS)
  }

  ghost predicate IsOrder(db: Db, k: OKey) {
    DKey(k.w, k.d) in db.district && 1 <= k.o < db.district[DKey(k.w, k.d)].nextOID
  }

  /** Order ids are 1 .. d_next_o_id - 1 and every order belongs to a customer. */
  ghost predicate OrderBook(db: Db) {
    && (forall d <- db.district :: ORDERS < db.district[d].nextOID)
    && (forall k :: k in db.orders <==> IsOrder(db, k))
    && (forall k <- db.orders :: CKey(k.w, k.d, db.orders[k].c) in db.customer && 5 <= db.orders[k].olCnt <= 15)
  }

  /** The undelivered orders are a suffix of the order ids of their district, and only they have no carrier. */
  ghost predicate Queue(db: Db) {
    && (forall k <- db.newOrder :: k in db.orders && FIRST_UNDELIVERED <= k.o)
    && (forall k <- db.newOrder, x <- db.orders :: x.w == k.w && x.d == k.d && k.o <= x.o ==> x in db.newOrder)
    && (forall k <- db.orders :: db.orders[k].carrier.None? <==> k in db.newOrder)
  }

  /** The lines of an order are numbered 1 .. o_ol_cnt, are delivered exactly when the order is, and have amounts. */
  ghost predicate Lines(db: Db) {
    && (forall k :: k in db.orderLine <==> k.Order() in db.orders && 1 <= k.n <= db.orders[k.Order()].olCnt)
    && (forall k <- db.orderLine :: db.orderLine[k].deliveryD.None? <==> db.orders[k.Order()].carrier.None?)
    && (forall k <- db.orderLine :: db.orderLine[k].amount.Some?)
  }

  ghost predicate Book(db: Db) {
    OrderBook(db) && Queue(db) && Lines(db)
  }

  ghost predicate Ytd(db: Db) {
    && (forall w <- db.warehouse ::
          db.warehouse[w].ytd == Sum(db.district, DistrictYtdIn(w)) == SumRows(db.history, PaidIn(w)))
    && (forall d <- db.district :: db.district[d].ytd == SumRows(db.history, PaidInDistrict(d)))
  }

  ghost predicate Balance(db: Db, c: CKey)
    requires c in db.customer
  {
    && db.customer[c].balance == Some(Delivered(db, c) - Paid(db, c))
    && db.customer[c].ytdPayment == Paid(db, c)
  }

  ghost predicate Balances(db: Db) {
    forall c <- db.customer :: Balance(db, c)
  }

  // What order lines placed since the load contribute to one stock row.  Loaded orders are 1 .. ORDERS.

  predicate Draws(s: SKey, k: LKey, line: OrderLine) {
    ORDERS < k.o && SKey(line.supplyW, line.i) == s
  }

  function QuantityFrom(s: SKey): (LKey, OrderLine) -> int {
    (k: LKey, line: OrderLine) => if Draws(s, k, line) then line.quantity else 0
  }

  function LineFrom(s: SKey): (LKey, OrderLine) -> int {
    (k: LKey, line: OrderLine) => if Draws(s, k, line) then 1 else 0
  }

  function RemoteLineFrom(s: SKey): (LKey, OrderLine) -> int {
    (k: LKey, line: OrderLine) => if Draws(s, k, line) && line.supplyW != k.w then 1 else 0
  }

  ghost predicate RowTotals(row: Stock, orderLine: map<LKey, OrderLine>, s: SKey) {
    && 10 <= row.quantity <= 100
    && row.ytd == Sum(orderLine, QuantityFrom(s))
    && row.orderCnt == Sum(orderLine, LineFrom(s))
    && row.remoteCnt == Sum(orderLine, RemoteLineFrom(s))
  }

  /** Stock counters are the totals of the order lines placed since the load. */
  ghost predicate StockTotals(stock: map<SKey, Stock>, orderLine: map<LKey, OrderLine>) {
    forall s <- stock :: RowTotals(stock[s], orderLine, s)
  }

  ghost predicate Consistent(db: Db, W: int) {
    Rows(db, W) && Book(db) && Ytd(db) && Balances(db) && StockTotals(db.stock, db.orderLine)
  }

  /** A district with undelivered orders has an oldest one. */
  lemma {:induction false} OldestExists(queue: map<OKey, NewOrder>, d: DKey, o: int)
    requires OKey(d.w, d.d, o) in queue
    ensures exists x :: IsMin(queue, d, x)
    decreases |set k | k in queue && k.o < o|
  {
    if !IsMin(queue, d, o) {
      var x :| OKey(d.w, d.d, x) in queue && x < o;
      var younger, older := set k | k in queue && k.o < o, set k | k in queue && k.o < x;
      assert OKey(d.w, d.d, x) in younger - older;
      assert older < younger;
      ProperSubsetCount(older, younger);
      OldestExists(queue, d, x);
    }
  }

  function OrderKey(d: DKey): int -> OKey {
    i => OKey(d.w, d.d, i)
  }

  function LineKey(o: OKey): int -> LKey {
    i => LKey(o.w, o.d, o.o, i)
  }

  lemma OrdersCounted(db: Db, d: DKey)
    requires OrderBook(db) && d in db.district
    ensures OrderCount(db, d) == db.district[d].nextOID - 1
  {
    forall k <- db.orders
      ensures OrderIn(d)(k, db.orders[k]) == 0 || exists i :: 1 <= i < db.district[d].nextOID && OrderKey(d)(i) == k
    {
      if DKey(k.w, k.d) == d {
        assert OrderKey(d)(k.o) == k;
      }
    }
    SumRange(db.orders, OrderIn(d), OrderKey(d), 1, db.district[d].nextOID, 1);
  }

  /** Clause 3.3.2.3 and 3.3.2.2: the queue runs without a gap from its oldest entry to the newest order. */
  lemma QueueCounted(db: Db, d: DKey, lo: int)
    requires OrderBook(db) && Queue(db) && d in db.district && IsMin(db.newOrder, d, lo)
    ensures IsMax(db.newOrder, d, db.district[d].nextOID - 1)
    ensures NewOrderCount(db, d) == db.district[d].nextOID - lo
  {
    var hi := db.district[d].nextOID;
    forall i | lo <= i < hi
      ensures OrderKey(d)(i) in db.newOrder
    {
      assert OKey(d.w, d.d, i) in db.orders;
    }
    forall k <- db.newOrder
      ensures NewOrderIn(d)(k, db.newOrder[k]) == 0 || exists i :: lo <= i < hi && OrderKey(d)(i) == k
    {
      if DKey(k.w, k.d) == d {
        assert OrderKey(d)(k.o) == k;
      }
    }
    SumRange(db.newOrder, NewOrderIn(d), OrderKey(d), lo, hi, 1);
    assert OrderKey(d)(hi - 1) in db.newOrder;
  }

  /** Clause 3.3.2.6, for every order. */
  lemma LinesCounted(db: Db, k: OKey)
    requires Lines(db) && k in db.orders && 0 <= db.orders[k].olCnt
    ensures LinesOf(db, k) == db.orders[k].olCnt
  {
    var n := db.orders[k].olCnt;
    forall x <- db.orderLine
      ensures LineOf(k)(x, db.orderLine[x]) == 0 || exists i :: 1 <= i < n + 1 && LineKey(k)(i) == x
    {
      if x.Order() == k {
        assert LineKey(k)(x.n) == x;
      }
    }
    forall i | 1 <= i < n + 1
      ensures LineKey(k)(i) in db.orderLine
    {
      assert LineKey(k)(i).Order() == k;
    }
    SumRange(db.orderLine, LineOf(k), LineKey(k), 1, n + 1, 1);
  }

  function LineOfOneIn(orders: map<OKey, Order>, d: DKey): (LKey, OrderLine) -> int {
    (k: LKey, line: OrderLine) => if DKey(k.w, k.d) == d && k.Order() in orders then 1 else 0
  }

  /** Clause 3.3.2.4, by induction over the orders: take one order and its lines away. */
  lemma {:induction false} LinesSummed(db: Db, d: DKey, orders: map<OKey, Order>)
    requires Lines(db) && orders.Keys <= db.orders.Keys
    requires forall k <- orders :: orders[k] == db.orders[k] && 0 <= orders[k].olCnt
    ensures Sum(orders, OlCntIn(d)) == Sum(db.orderLine, LineOfOneIn(orders, d))
    decreases |orders|
  {
    if orders == map[] {
      SumZero(db.orderLine, LineOfOneIn(orders, d));
    } else {
      var k :| k in orders;
      var rest := orders - {k};
      SumRemove(orders, OlCntIn(d), k);
      LinesSummed(db, d, rest);
      if DKey(k.w, k.d) == d {
        LinesCounted(db, k);
        SumShift(db.orderLine, db.orderLine, LineOfOneIn(rest, d), LineOfOneIn(orders, d), LineOf(k));
      } else {
        SumSame(db.orderLine, db.orderLine, LineOfOneIn(rest, d), LineOfOneIn(orders, d));
      }
    }
  }

  lemma OlCntsSummed(db: Db, d: DKey)
    requires OrderBook(db) && Lines(db)
    ensures OlCntSum(db, d) == LineCount(db, d)
  {
    LinesSummed(db, d, db.orders);
    SumSame(db.orderLine, db.orderLine, LineOfOneIn(db.orders, d), LineIn(d));
  }

  lemma QueueConditions(db: Db, w: int)
    requires Book(db)
    ensures Condition2(db, w) && Condition3(db, w) && Condition11(db, w, false)
  {
    forall d: DKey | d.w == w && HasRows(db.newOrder, d)
      ensures d in db.district && IsMax(db.orders, d, db.district[d].nextOID - 1)
      ensures IsMax(db.newOrder, d, db.district[d].nextOID - 1)
      ensures OrderCount(db, d) - NewOrderCount(db, d) >= 2100
      ensures forall lo :: IsMin(db.newOrder, d, lo) ==> NewOrderCount(db, d) == db.district[d].nextOID - lo
    {
      var o :| OKey(d.w, d.d, o) in db.newOrder;
      OldestExists(db.newOrder, d, o);
      var lo :| IsMin(db.newOrder, d, lo);
      OrdersCounted(db, d);
      QueueCounted(db, d, lo);
      assert OKey(d.w, d.d, db.district[d].nextOID - 1) in db.orders;
    }
  }

  lemma LineConditions(db: Db, w: int)
    requires OrderBook(db) && Lines(db)
    ensures Condition4(db, w) && Condition6(db, w) && Condition7(db, w)
  {
    forall d: DKey
      ensures OlCntSum(db, d) == LineCount(db, d)
    {
      OlCntsSummed(db, d);
    }
    forall k <- db.orders
      ensures LinesOf(db, k) == db.orders[k].olCnt
    {
      LinesCounted(db, k);
    }
  }

  lemma BalanceConditions(db: Db, w: int)
    requires Balances(db)
    ensures Condition10(db, w) && Condition12(db, w)
  {
    assert forall c | c in db.customer && Balance(db, c) :: BalanceMatches(db, c) && CreditMatches(db, c);
  }

  /** Every condition the check verifies after a run follows from the invariant. */
  lemma ConsistentPassesChecks(db: Db, W: int, w: int)
    requires Consistent(db, W)
    ensures AllConditions(db, w, false)
  {
    QueueConditions(db, w);
    LineConditions(db, w);
    BalanceConditions(db, w);
  }
}
