/** What the checks notice: a consistent database in which one statement of a transaction was lost, or a row.
    Each lemma says for every warehouse whether a condition still holds. */
module Damage {
  import opened Aggregates
  import opened Schema
  import opened Checks
  import opened Consistency
  import NewOrders
  import Payments
  import Deliveries

  function DistrictOf(k: OKey): DKey {
    DKey(k.w, k.d)
  }

  /** The rows of district d are the same in both tables. */
  ghost predicate SameKeys<V>(x: map<OKey, V>, y: map<OKey, V>, d: DKey) {
    forall o :: OKey(d.w, d.d, o) in x <==> OKey(d.w, d.d, o) in y
  }

  lemma SameKeysSameBounds<V>(x: map<OKey, V>, y: map<OKey, V>, d: DKey)
    requires SameKeys(x, y, d)
    ensures HasRows(x, d) <==> HasRows(y, d)
    ensures forall o :: (IsMin(x, d, o) <==> IsMin(y, d, o)) && (IsMax(x, d, o) <==> IsMax(y, d, o))
  {
  }

  // Lost statements of a Delivery.

  /** An order was delivered, but not deleted from the queue. */
  lemma QueueDeleteLost(db: Db, t: Deliveries.Input, k: OKey, w: int)
    requires Queue(db) && k in db.newOrder
    ensures Condition5(Deliveries.DeliverOrder(db, t, k).(newOrder := db.newOrder), w) <==> w != k.w
  {
    var after := Deliveries.DeliverOrder(db, t, k).(newOrder := db.newOrder);
    assert k in after.orders && after.orders[k].carrier.Some? && k in after.newOrder;
  }

  /** The order got no carrier. */
  lemma CarrierLost(db: Db, t: Deliveries.Input, k: OKey, w: int)
    requires Queue(db) && k in db.newOrder
    ensures Condition5(Deliveries.DeliverOrder(db, t, k).(orders := db.orders), w) <==> w != k.w
  {
    var after := Deliveries.DeliverOrder(db, t, k).(orders := db.orders);
    assert k in after.orders && after.orders[k].carrier.None? && k !in after.newOrder;
  }

  lemma CarrierMissing(db: Db, t: Deliveries.Input, k: OKey, w: int)
    requires Book(db) && k in db.newOrder
    ensures Condition7(Deliveries.DeliverOrder(db, t, k).(orders := db.orders), w) <==> w != k.w
  {
    var after, l := Deliveries.DeliverOrder(db, t, k).(orders := db.orders), LKey(k.w, k.d, k.o, 1);
    LinesDelivered(db, t, k, l);
    if w == k.w {
      assert l in after.orderLine && after.orderLine[l].deliveryD.Some? && after.orders[k].carrier.None?;
    }
  }

  lemma LinesDelivered(db: Db, t: Deliveries.Input, k: OKey, l: LKey)
    requires Book(db) && k in db.newOrder && l == LKey(k.w, k.d, k.o, 1)
    ensures l.Order() == k && k in db.orders && db.orders[k].carrier.None? && db.orders[k].olCnt >= 5
    ensures l in db.orderLine && db.orderLine[l].deliveryD.None?
    ensures l in Deliveries.MarkDelivered(db.orderLine, {k}, t.when)
    ensures Deliveries.MarkDelivered(db.orderLine, {k}, t.when)[l].deliveryD.Some?
    ensures Deliveries.SetCarrier(db.orders, {k}, t.carrier)[k].carrier.Some?
  {
    assert l.Order() == k && l in db.orderLine;
  }

  /** Its lines got no date of delivery. */
  lemma DatesLost(db: Db, t: Deliveries.Input, k: OKey, w: int)
    requires Book(db) && k in db.newOrder
    ensures Condition7(Deliveries.DeliverOrder(db, t, k).(orderLine := db.orderLine), w) <==> w != k.w
  {
    var after, l := Deliveries.DeliverOrder(db, t, k).(orderLine := db.orderLine), LKey(k.w, k.d, k.o, 1);
    LinesDelivered(db, t, k, l);
    if w == k.w {
      assert l in after.orderLine && after.orderLine[l].deliveryD.None? && after.orders[k].carrier.Some?;
    }
  }

  /** The buyer was not credited. */
  lemma DeliveredGrew(db: Db, t: Deliveries.Input, k: OKey, c: CKey)
    requires Book(db) && Balances(db) && k in db.newOrder && c in db.customer
    ensures var after := Deliveries.DeliverOrder(db, t, k).(customer := db.customer);
      && Paid(after, c) == Paid(db, c)
      && Delivered(after, c) == Delivered(db, c)
           + if c == Deliveries.SlotCustomer(db.orders, k) then Sum(db.orderLine, Deliveries.AmountOf(k)) else 0
  {
    Deliveries.DeliveredShifts(db, t, k, c);
  }

  lemma BuyerHasDelivered(db: Db, t: Deliveries.Input, k: OKey)
    requires Book(db) && k in db.newOrder
    ensures Deliveries.SlotCustomer(db.orders, k) in db.customer
    ensures HasDelivered(Deliveries.DeliverOrder(db, t, k).(customer := db.customer),
                         Deliveries.SlotCustomer(db.orders, k))
  {
    var l := LKey(k.w, k.d, k.o, 1);
    LinesDelivered(db, t, k, l);
    var after := Deliveries.DeliverOrder(db, t, k).(customer := db.customer);
    assert DeliveredTo(after.orders, Deliveries.SlotCustomer(db.orders, k), l, after.orderLine[l]);
  }

  /** Lines worth `more` were delivered to a customer whose row stayed as it was. */
  lemma DeliveredMore(db: Db, after: Db, c: CKey, more: int)
    requires c in db.customer && Balance(db, c) && after.customer == db.customer && after.history == db.history
    requires Delivered(after, c) == Delivered(db, c) + more && (more != 0 ==> HasDelivered(after, c))
    ensures BalanceMatches(after, c) <==> more == 0 || !HasPaid(db, c)
    ensures CreditMatches(after, c) <==> more == 0
  {
    assert Paid(after, c) == Paid(db, c) && (HasPaid(after, c) <==> HasPaid(db, c));
  }

  lemma CreditLost(db: Db, t: Deliveries.Input, k: OKey, w: int)
    requires Book(db) && Balances(db) && k in db.newOrder
    ensures var after, none := Deliveries.DeliverOrder(db, t, k).(customer := db.customer),
        w != k.w || Sum(db.orderLine, Deliveries.AmountOf(k)) == 0;
      && (Condition10(after, w) <==> none || !HasPaid(db, Deliveries.SlotCustomer(db.orders, k)))
      && (Condition12(after, w) <==> none)
  {
    BuyerHasDelivered(db, t, k);
    var after, buyer := Deliveries.DeliverOrder(db, t, k).(customer := db.customer),
      Deliveries.SlotCustomer(db.orders, k);
    forall c <- db.customer
      ensures var none := c != buyer || Sum(db.orderLine, Deliveries.AmountOf(k)) == 0;
        && (BalanceMatches(after, c) <==> none || !HasPaid(db, c))
        && (CreditMatches(after, c) <==> none)
    {
      DeliveredGrew(db, t, k, c);
      DeliveredMore(db, after, c, Delivered(after, c) - Delivered(db, c));
    }
    assert buyer in after.customer && after.customer == db.customer;
  }

  // Lost rows.

  /** A row of the queue is gone. */
  lemma QueueRowLost(db: Db, k: OKey, w: int)
    requires Queue(db) && k in db.newOrder
    ensures Condition5(db.(newOrder := db.newOrder - {k}), w) <==> w != k.w
  {
    assert k in db.orders;
  }

  /** The oldest row of a district's queue, from which it runs to the newest order. */
  lemma QueueBounds(db: Db, k: OKey) returns (lo: int)
    requires OrderBook(db) && Queue(db) && k in db.newOrder
    ensures DistrictOf(k) in db.district && IsMin(db.newOrder, DistrictOf(k), lo)
    ensures lo <= k.o < db.district[DistrictOf(k)].nextOID
    ensures forall o :: OKey(k.w, k.d, o) in db.newOrder <==> lo <= o < db.district[DistrictOf(k)].nextOID
  {
    assert OKey(k.w, k.d, k.o) == k;
    OldestExists(db.newOrder, DistrictOf(k), k.o);
    lo :| IsMin(db.newOrder, DistrictOf(k), lo);
    assert OKey(k.w, k.d, lo) in db.orders && k in db.orders;
    forall o
      ensures OKey(k.w, k.d, o) in db.newOrder <==> lo <= o < db.district[DistrictOf(k)].nextOID
    {
      assert OKey(k.w, k.d, o) in db.newOrder ==> OKey(k.w, k.d, o) in db.orders;
      if lo <= o < db.district[DistrictOf(k)].nextOID {
        assert OKey(k.w, k.d, o) in db.orders;
      }
    }
  }

  /** The first and the last of the ids lo .. hi without x. */
  lemma BoundsWithout(rest: map<OKey, NewOrder>, d: DKey, lo: int, hi: int, x: int, a: int, b: int)
    requires lo <= x <= hi && forall o :: OKey(d.w, d.d, o) in rest <==> lo <= o <= hi && o != x
    requires IsMin(rest, d, a) && IsMax(rest, d, b)
    ensures a == if x == lo then lo + 1 else lo
    ensures b == if x == hi then hi - 1 else hi
  {
    assert OKey(d.w, d.d, a) in rest && OKey(d.w, d.d, b) in rest;
    assert x != lo ==> OKey(d.w, d.d, lo) in rest;
    assert x != hi ==> OKey(d.w, d.d, hi) in rest;
    assert x == lo < hi ==> OKey(d.w, d.d, lo + 1) in rest;
    assert x == hi > lo ==> OKey(d.w, d.d, hi - 1) in rest;
  }

  lemma InnerBounds(rest: map<OKey, NewOrder>, d: DKey, lo: int, hi: int, x: int)
    requires lo < x < hi && forall o :: OKey(d.w, d.d, o) in rest <==> lo <= o <= hi && o != x
    ensures IsMin(rest, d, lo) && IsMax(rest, d, hi)
  {
  }

  lemma IsBound(queue: map<OKey, NewOrder>, d: DKey, lo: int, hi: int, x: int)
    requires lo <= x <= hi && forall o :: OKey(d.w, d.d, o) in queue <==> lo <= o <= hi
    ensures IsMin(queue, d, x) <==> x == lo
    ensures IsMax(queue, d, x) <==> x == hi
  {
    assert OKey(d.w, d.d, lo) in queue && OKey(d.w, d.d, hi) in queue;
  }

  /** A queue without one of its rows has a gap, unless it was the first or the last. */
  lemma GapWithout(db: Db, k: OKey)
    requires OrderBook(db) && Queue(db) && k in db.newOrder
    ensures NoGap(db.(newOrder := db.newOrder - {k}), DistrictOf(k))
      <==> IsMin(db.newOrder, DistrictOf(k), k.o) || IsMax(db.newOrder, DistrictOf(k), k.o)
  {
    var d, rest := DistrictOf(k), db.newOrder - {k};
    var lo := QueueBounds(db, k);
    var hi := db.district[d].nextOID - 1;
    QueueCounted(db, d, lo);
    SumRemove(db.newOrder, NewOrderIn(d), k);
    IsBound(db.newOrder, d, lo, hi, k.o);
    RestIs(db.newOrder, d, lo, hi, k);
    GapIff(db.(newOrder := rest), d, lo, hi, k.o);
  }

  lemma RestIs(queue: map<OKey, NewOrder>, d: DKey, lo: int, hi: int, k: OKey)
    requires d == DistrictOf(k) && forall o :: OKey(d.w, d.d, o) in queue <==> lo <= o <= hi
    ensures forall o :: OKey(d.w, d.d, o) in queue - {k} <==> lo <= o <= hi && o != k.o
  {
    forall o
      ensures OKey(d.w, d.d, o) in queue - {k} <==> lo <= o <= hi && o != k.o
    {
      assert OKey(d.w, d.d, o) == k <==> o == k.o;
    }
  }

  lemma GapIff(after: Db, d: DKey, lo: int, hi: int, x: int)
    requires lo <= x <= hi && forall o :: OKey(d.w, d.d, o) in after.newOrder <==> lo <= o <= hi && o != x
    requires NewOrderCount(after, d) == hi - lo
    ensures NoGap(after, d) <==> x == lo || x == hi
  {
    if lo < x < hi {
      InnerBounds(after.newOrder, d, lo, hi, x);
    } else {
      forall a, b | IsMin(after.newOrder, d, a) && IsMax(after.newOrder, d, b)
        ensures NewOrderCount(after, d) == b - a + 1
      {
        BoundsWithout(after.newOrder, d, lo, hi, x, a, b);
      }
    }
  }

  /** Other districts do not lose anything with row k. */
  lemma OtherQueues(db: Db, k: OKey, d: DKey)
    requires Book(db) && k in db.newOrder && d != DistrictOf(k)
    ensures NoGap(db.(newOrder := db.newOrder - {k}), d)
    ensures d in db.district ==> NewestMatches(db.(newOrder := db.newOrder - {k}), d)
  {
    QueueConditions(db, d.w);
    SumRemove(db.newOrder, NewOrderIn(d), k);
    assert NoGap(db, d) && (d in db.district ==> NewestMatches(db, d));
    SameQueue(db, db.newOrder - {k}, d);
  }

  lemma SameQueue(db: Db, rest: map<OKey, NewOrder>, d: DKey)
    requires SameKeys(rest, db.newOrder, d) && Sum(rest, NewOrderIn(d)) == NewOrderCount(db, d)
    requires NoGap(db, d) && (d in db.district ==> NewestMatches(db, d))
    ensures NoGap(db.(newOrder := rest), d) && (d in db.district ==> NewestMatches(db.(newOrder := rest), d))
  {
    SameKeysSameBounds(rest, db.newOrder, d);
  }

  lemma QueueGapNoticed(db: Db, k: OKey, w: int)
    requires Book(db) && k in db.newOrder
    ensures Condition3(db.(newOrder := db.newOrder - {k}), w)
      <==> w != k.w || IsMin(db.newOrder, DistrictOf(k), k.o) || IsMax(db.newOrder, DistrictOf(k), k.o)
  {
    GapWithout(db, k);
    forall d: DKey | d != DistrictOf(k)
      ensures NoGap(db.(newOrder := db.newOrder - {k}), d)
    {
      OtherQueues(db, k, d);
    }
  }

  /** Without its last row, the queue does not end in the newest order, unless nothing is left of it. */
  lemma NewestWithout(db: Db, k: OKey)
    requires Book(db) && k in db.newOrder
    ensures DistrictOf(k) in db.district
    ensures NewestMatches(db.(newOrder := db.newOrder - {k}), DistrictOf(k))
      <==> !IsMax(db.newOrder, DistrictOf(k), k.o) || IsMin(db.newOrder, DistrictOf(k), k.o)
  {
    var d, rest := DistrictOf(k), db.newOrder - {k};
    var lo := QueueBounds(db, k);
    var hi := db.district[d].nextOID - 1;
    IsBound(db.newOrder, d, lo, hi, k.o);
    RestIs(db.newOrder, d, lo, hi, k);
    assert IsMax(db.orders, d, hi) by {
      assert OKey(d.w, d.d, hi) in db.orders;
    }
    if lo < k.o == hi {
      assert OKey(d.w, d.d, lo) in rest && !IsMax(rest, d, hi);
    } else if k.o < hi {
      assert OKey(d.w, d.d, hi) in rest;
    }
  }

  lemma QueueEndNoticed(db: Db, k: OKey, w: int)
    requires Book(db) && k in db.newOrder
    ensures Condition2(db.(newOrder := db.newOrder - {k}), w)
      <==> w != k.w || !IsMax(db.newOrder, DistrictOf(k), k.o) || IsMin(db.newOrder, DistrictOf(k), k.o)
  {
    NewestWithout(db, k);
    forall d <- db.district | d != DistrictOf(k)
      ensures NewestMatches(db.(newOrder := db.newOrder - {k}), d)
    {
      OtherQueues(db, k, d);
    }
  }

  // Lines.

  /** An order has at least five lines, and so has its district. */
  lemma DistrictHasLines(db: Db, o: OKey)
    requires Book(db) && o in db.orders
    ensures LinesOf(db, o) == db.orders[o].olCnt >= 5 && LineCount(db, DistrictOf(o)) >= 5
    ensures OlCntSum(db, DistrictOf(o)) == LineCount(db, DistrictOf(o))
  {
    LinesCounted(db, o);
    OlCntsSummed(db, DistrictOf(o));
    SumMonotone(db.orderLine, LineOf(o), LineIn(DistrictOf(o)));
  }

  /** The lines differ by one, of order o. */
  ghost predicate OneLineOff(db: Db, after: Db, o: OKey, diff: int) {
    && o in db.orders && after.orders == db.orders && (diff == 1 || diff == -1)
    && (forall x <- db.orders :: LinesOf(after, x) == LinesOf(db, x) + if x == o then diff else 0)
    && (forall d: DKey :: LineCount(after, d) == LineCount(db, d) + if d == DistrictOf(o) then diff else 0)
  }

  lemma OneLineNoticed(db: Db, after: Db, o: OKey, diff: int, w: int)
    requires Book(db) && OneLineOff(db, after, o, diff)
    ensures Condition4(after, w) <==> w != o.w
    ensures Condition6(after, w) <==> w != o.w
  {
    DistrictHasLines(db, o);
    assert !OlCntMatches(after, o);
    forall x <- db.orders | x != o
      ensures OlCntMatches(after, x)
    {
      LinesCounted(db, x);
    }
    assert OKey(o.w, o.d, o.o) == o && !LinesMatch(after, DistrictOf(o));
    forall d: DKey | d != DistrictOf(o)
      ensures LinesMatch(after, d)
    {
      OlCntsSummed(db, d);
    }
  }

  /** A line is gone. */
  lemma LineLost(db: Db, k: LKey, w: int)
    requires Book(db) && k in db.orderLine
    ensures Condition4(db.(orderLine := db.orderLine - {k}), w) <==> w != k.w
    ensures Condition6(db.(orderLine := db.orderLine - {k}), w) <==> w != k.w
  {
    var after := db.(orderLine := db.orderLine - {k});
    forall x <- db.orders
      ensures LinesOf(after, x) == LinesOf(db, x) - if x == k.Order() then 1 else 0
    {
      SumRemove(db.orderLine, LineOf(x), k);
    }
    forall d: DKey
      ensures LineCount(after, d) == LineCount(db, d) - if d == DistrictOf(k.Order()) then 1 else 0
    {
      SumRemove(db.orderLine, LineIn(d), k);
    }
    OneLineNoticed(db, after, k.Order(), -1, w);
  }

  /** An order has a line too many. */
  lemma LineAdded(db: Db, k: LKey, line: OrderLine, w: int)
    requires Book(db) && k !in db.orderLine && k.Order() in db.orders
    ensures Condition4(db.(orderLine := db.orderLine[k := line]), w) <==> w != k.w
    ensures Condition6(db.(orderLine := db.orderLine[k := line]), w) <==> w != k.w
  {
    var after := db.(orderLine := db.orderLine[k := line]);
    forall x <- db.orders
      ensures LinesOf(after, x) == LinesOf(db, x) + if x == k.Order() then 1 else 0
    {
      SumInsert(db.orderLine, LineOf(x), k, line);
    }
    forall d: DKey
      ensures LineCount(after, d) == LineCount(db, d) + if d == DistrictOf(k.Order()) then 1 else 0
    {
      SumInsert(db.orderLine, LineIn(d), k, line);
    }
    OneLineNoticed(db, after, k.Order(), 1, w);
  }

  // Lost statements of a Payment.

  /** A payment of something, in a district and to a customer that exist. */
  ghost predicate Payable(db: Db, t: Payments.Input, c: CKey) {
    t.amount != 0 && t.District() in db.district && t.w in db.warehouse && c in db.customer
  }

  /** The district's total was not updated. */
  lemma DistrictYtdLost(db: Db, t: Payments.Input, c: CKey, w: int)
    requires Ytd(db) && Payable(db, t, c)
    ensures Condition1(Payments.Paying(db, t, c).(district := db.district), w) <==> w != t.w
    ensures Condition9(Payments.Paying(db, t, c).(district := db.district), w) <==> w != t.w
  {
    var after, row := Payments.Paying(db, t, c).(district := db.district), History(c, t.w, t.d, t.amount);
    assert after.history[|db.history|] == row && row in after.history;
    forall d <- db.district
      ensures SumRows(after.history, PaidInDistrict(d))
           == db.district[d].ytd + if d == t.District() then t.amount else 0
    {
      SumRowsAppend(db.history, PaidInDistrict(d), row);
    }
    assert !YtdMatches(after, t.District());
  }

  /** The warehouse's total was not updated. */
  lemma WarehouseYtdLost(db: Db, t: Payments.Input, c: CKey, w: int)
    requires Ytd(db) && Payable(db, t, c)
    ensures Condition1(Payments.Paying(db, t, c).(warehouse := db.warehouse), w) <==> w != t.w
    ensures Condition8(Payments.Paying(db, t, c).(warehouse := db.warehouse), w) <==> w != t.w
  {
    var after, row := Payments.Paying(db, t, c).(warehouse := db.warehouse), History(c, t.w, t.d, t.amount);
    assert after.history[|db.history|] == row && row in after.history;
    SumRowsAppend(db.history, PaidIn(w), row);
    SumUpdate(db.district, DistrictYtdIn(w), t.District(), after.district[t.District()]);
  }

  /** The payment was not entered in the history. */
  lemma HistoryRowLost(db: Db, t: Payments.Input, c: CKey, w: int)
    requires Ytd(db) && Payable(db, t, c)
    ensures Condition8(Payments.Paying(db, t, c).(history := db.history), w)
      <==> w != t.w || forall h <- db.history :: h.w != t.w
    ensures Condition9(Payments.Paying(db, t, c).(history := db.history), w)
      <==> w != t.w || forall h <- db.history :: DKey(h.w, h.d) != t.District()
  {
    var after := Payments.Paying(db, t, c).(history := db.history);
    assert YtdMatches(after, t.District()) <==> forall h <- db.history :: DKey(h.w, h.d) != t.District();
  }

  /** The customer was not charged: condition 3.3.2.12 does not see it. */
  lemma ChargeLost(db: Db, t: Payments.Input, c: CKey, w: int)
    requires Balances(db) && Payable(db, t, c)
    ensures var after := Payments.Paying(db, t, c).(customer := db.customer);
      && (Condition10(after, w) <==> w != c.w || !HasDelivered(db, c))
      && Condition12(after, w)
  {
    var after, row := Payments.Paying(db, t, c).(customer := db.customer), History(c, t.w, t.d, t.amount);
    assert after.history[|db.history|] == row && row in after.history;
    forall x <- db.customer
      ensures BalanceMatches(after, x) <==> x != c || !HasDelivered(db, c)
      ensures CreditMatches(after, x)
    {
      PaidMore(db, after, row, x);
    }
  }

  lemma PaidMore(db: Db, after: Db, row: History, x: CKey)
    requires x in db.customer && Balance(db, x) && row.amount != 0 && row in after.history
    requires after.history == db.history + [row] && after.customer == db.customer
    requires after.orders == db.orders && after.orderLine == db.orderLine
    ensures BalanceMatches(after, x) <==> x != row.c || !HasDelivered(db, x)
    ensures CreditMatches(after, x)
  {
    SumRowsAppend(db.history, PaidBy(x), row);
    assert HasDelivered(after, x) <==> HasDelivered(db, x);
  }

  /** Only one of the customer's two amounts was updated. */
  lemma HalfChargeLost(db: Db, t: Payments.Input, c: CKey, w: int)
    requires Balances(db) && Payable(db, t, c)
    ensures var after := Payments.Paying(db, t, c); var row := after.customer[c];
      && (Condition12(after.(customer := after.customer[c := row.(ytdPayment := db.customer[c].ytdPayment)]), w)
          <==> w != c.w || !HasDelivered(db, c))
      && (Condition12(after.(customer := after.customer[c := row.(balance := db.customer[c].balance)]), w)
          <==> w != c.w || !HasDelivered(db, c))
  {
    var after := Payments.Paying(db, t, c);
    var row := after.customer[c];
    var x := after.(customer := after.customer[c := row.(ytdPayment := db.customer[c].ytdPayment)]);
    var y := after.(customer := after.customer[c := row.(balance := db.customer[c].balance)]);
    forall k <- db.customer
      ensures CreditMatches(x, k) <==> k != c || !HasDelivered(db, c)
      ensures CreditMatches(y, k) <==> k != c || !HasDelivered(db, c)
    {
      assert Balance(db, k) && (HasDelivered(x, k) <==> HasDelivered(db, k)) && (HasDelivered(y, k)
        <==> HasDelivered(db, k));
      assert Delivered(x, k) == Delivered(db, k) == Delivered(y, k);
    }
    assert x.customer.Keys == db.customer.Keys == y.customer.Keys;
  }

  // Lost statements of a New-Order.

  /** An order that can be placed. */
  ghost predicate Placeable(db: Db, t: NewOrders.Input) {
    && Book(db) && NewOrders.HasDistrict(db, t) && NewOrders.HasBuyer(db, t) && NewOrders.AllKnown(db, t)
    && 5 <= |t.items| <= 15
  }

  function NewKey(db: Db, t: NewOrders.Input): OKey
    requires NewOrders.HasDistrict(db, t)
  {
    OKey(t.w, t.d, db.district[t.District()].nextOID)
  }

  lemma PlacedBook(db: Db, t: NewOrders.Input)
    requires Placeable(db, t)
    ensures Book(NewOrders.Closed(db, t)) && NewKey(db, t) !in db.orders && NewKey(db, t) !in db.newOrder
    ensures NewOrders.Closed(db, t).orders.Keys == db.orders.Keys + {NewKey(db, t)}
    ensures NewOrders.Closed(db, t).newOrder.Keys == db.newOrder.Keys + {NewKey(db, t)}
  {
    NewOrders.NewOrderKeepsOrders(db, t);
    NewOrders.NewOrderKeepsQueue(db, t);
    NewOrders.NewOrderKeepsLines(db, t);
  }

  lemma PlacedKeys(db: Db, t: NewOrders.Input)
    requires Placeable(db, t)
    ensures var after, k := NewOrders.Closed(db, t), NewKey(db, t);
      && k !in db.orders && k !in db.newOrder && DistrictOf(k) == t.District()
      && after.orders.Keys == db.orders.Keys + {k} && after.newOrder.Keys == db.newOrder.Keys + {k}
      && after.district.Keys == db.district.Keys && after.district[t.District()].nextOID == k.o + 1
      && (forall d <- db.district :: d != t.District() ==> after.district[d] == db.district[d])
  {
    PlacedBook(db, t);
  }

  /** In other districts the newest order is as before, whichever of the statements were lost. */
  lemma OtherNewest(db: Db, after: Db, d: DKey, k: OKey)
    requires Book(db) && d in db.district && d in after.district && d != DistrictOf(k)
    requires after.district[d] == db.district[d]
    requires after.orders.Keys == db.orders.Keys || after.orders.Keys == db.orders.Keys + {k}
    requires after.newOrder.Keys == db.newOrder.Keys || after.newOrder.Keys == db.newOrder.Keys + {k}
    ensures NewestMatches(after, d)
  {
    QueueConditions(db, d.w);
    assert NewestMatches(db, d);
    assert forall o :: OKey(d.w, d.d, o) != k;
    SameKeysSameBounds(after.orders, db.orders, d);
    SameKeysSameBounds(after.newOrder, db.newOrder, d);
  }

  lemma OthersNewest(db: Db, after: Db, k: OKey, w: int)
    requires Book(db) && DistrictOf(k) in db.district && after.district.Keys == db.district.Keys
    requires forall d <- db.district :: d != DistrictOf(k) ==> after.district[d] == db.district[d]
    requires after.orders.Keys == db.orders.Keys || after.orders.Keys == db.orders.Keys + {k}
    requires after.newOrder.Keys == db.newOrder.Keys || after.newOrder.Keys == db.newOrder.Keys + {k}
    ensures Condition2(after, w) <==> w != k.w || NewestMatches(after, DistrictOf(k))
  {
    forall d <- after.district | d != DistrictOf(k)
      ensures NewestMatches(after, d)
    {
      OtherNewest(db, after, d, k);
    }
  }

  /** The next order id was not updated. */
  lemma NextIdLost(db: Db, t: NewOrders.Input, w: int)
    requires Placeable(db, t)
    ensures Condition2(NewOrders.Closed(db, t).(district := db.district), w) <==> w != t.w
  {
    PlacedBook(db, t);
    var after, k := NewOrders.Closed(db, t).(district := db.district), NewKey(db, t);
    OthersNewest(db, after, k, w);
    assert OKey(k.w, k.d, k.o) in after.orders && OKey(k.w, k.d, k.o) in after.newOrder;
    assert DistrictOf(k) == t.District();
  }

  /** The newest order of the district is not there. */
  lemma NewestGone(after: Db, d: DKey, x: int)
    requires d in after.district && OKey(d.w, d.d, x) in after.orders
    requires OKey(d.w, d.d, after.district[d].nextOID - 1) !in after.orders
    requires OKey(d.w, d.d, after.district[d].nextOID - 1) in after.newOrder
    ensures !NewestMatches(after, d)
  {
  }

  /** The order was not inserted. */
  lemma OrderInsertLost(db: Db, t: NewOrders.Input, w: int)
    requires Placeable(db, t)
    ensures Condition2(NewOrders.Closed(db, t).(orders := db.orders), w) <==> w != t.w
  {
    PlacedKeys(db, t);
    assert OKey(t.w, t.d, 1) in db.orders;
    WithoutOrder(db, NewOrders.Closed(db, t).(orders := db.orders), NewKey(db, t), w);
  }

  lemma WithoutOrder(db: Db, after: Db, k: OKey, w: int)
    requires Book(db) && DistrictOf(k) in db.district && after.district.Keys == db.district.Keys
    requires forall d <- db.district :: d != DistrictOf(k) ==> after.district[d] == db.district[d]
    requires after.orders == db.orders && after.newOrder.Keys == db.newOrder.Keys + {k}
    requires OKey(k.w, k.d, 1) in db.orders && k !in db.orders && after.district[DistrictOf(k)].nextOID == k.o + 1
    ensures Condition2(after, w) <==> w != k.w
  {
    OthersNewest(db, after, k, w);
    NewestGone(after, DistrictOf(k), 1);
  }

  /** It was not entered in the queue. */
  lemma QueueInsertLost(db: Db, t: NewOrders.Input, w: int)
    requires Placeable(db, t)
    ensures Condition2(NewOrders.Closed(db, t).(newOrder := db.newOrder), w)
      <==> w != t.w || !HasRows(db.newOrder, t.District())
  {
    PlacedKeys(db, t);
    WithoutQueueRow(db, NewOrders.Closed(db, t).(newOrder := db.newOrder), NewKey(db, t), w);
  }

  lemma WithoutQueueRow(db: Db, after: Db, k: OKey, w: int)
    requires Book(db) && DistrictOf(k) in db.district && after.district.Keys == db.district.Keys
    requires forall d <- db.district :: d != DistrictOf(k) ==> after.district[d] == db.district[d]
    requires after.newOrder == db.newOrder && after.orders.Keys == db.orders.Keys + {k}
    requires k !in db.newOrder && after.district[DistrictOf(k)].nextOID == k.o + 1
    ensures Condition2(after, w) <==> w != k.w || !HasRows(db.newOrder, DistrictOf(k))
  {
    OthersNewest(db, after, k, w);
    assert OKey(k.w, k.d, k.o) == k && k in after.orders;
  }

  lemma QueueInsertMissing(db: Db, t: NewOrders.Input, w: int)
    requires Placeable(db, t)
    ensures Condition5(NewOrders.Closed(db, t).(newOrder := db.newOrder), w) <==> w != t.w
  {
    PlacedKeys(db, t);
    var after, k := NewOrders.Closed(db, t), NewKey(db, t);
    assert forall x <- db.orders :: after.orders[x] == db.orders[x];
    assert k in after.orders && after.orders[k].carrier.None?;
  }

  /** The sums of line counts, and the lines, before and after a New-Order. */
  lemma PlacedLineSums(db: Db, t: NewOrders.Input, d: DKey)
    requires Placeable(db, t)
    ensures OlCntSum(NewOrders.Closed(db, t), d) == OlCntSum(db, d) + if d == t.District() then |t.items| else 0
    ensures LineCount(NewOrders.Closed(db, t), d) == OlCntSum(NewOrders.Closed(db, t), d)
    ensures LineCount(db, d) == OlCntSum(db, d)
  {
    PlacedBook(db, t);
    OlCntsSummed(db, d);
    OlCntsSummed(NewOrders.Closed(db, t), d);
    SumInsert(db.orders, OlCntIn(d), NewKey(db, t), NewOrders.Closed(db, t).orders[NewKey(db, t)]);
  }

  /** Without the order, its lines are too many. */
  lemma OrderMissing(db: Db, t: NewOrders.Input, w: int)
    requires Placeable(db, t)
    ensures Condition4(NewOrders.Closed(db, t).(orders := db.orders), w) <==> w != t.w
  {
    var after := NewOrders.Closed(db, t).(orders := db.orders);
    forall d: DKey
      ensures LineCount(after, d) == OlCntSum(after, d) + if d == t.District() then |t.items| else 0
    {
      PlacedLineSums(db, t, d);
    }
    assert OKey(t.w, t.d, 1) in after.orders;
    DistrictHasLines(db, OKey(t.w, t.d, 1));
    assert DistrictOf(OKey(t.w, t.d, 1)) == t.District();
    assert !LinesMatch(after, t.District());
  }

  /** The lines were not inserted: condition 3.3.2.4 notices, ... */
  lemma LinesInsertLost(db: Db, t: NewOrders.Input, w: int)
    requires Placeable(db, t)
    ensures Condition4(NewOrders.Closed(db, t).(orderLine := db.orderLine), w) <==> w != t.w
  {
    var after := NewOrders.Closed(db, t).(orderLine := db.orderLine);
    forall d: DKey
      ensures OlCntSum(after, d) == LineCount(after, d) + if d == t.District() then |t.items| else 0
    {
      PlacedLineSums(db, t, d);
    }
    assert OKey(t.w, t.d, 1) in db.orders;
    DistrictHasLines(db, OKey(t.w, t.d, 1));
    assert DistrictOf(OKey(t.w, t.d, 1)) == t.District();
    assert OKey(t.w, t.d, 1) in after.orders && !LinesMatch(after, t.District());
  }

  /** ... and 3.3.2.6 does not. */
  lemma LinesMissing(db: Db, t: NewOrders.Input, w: int)
    requires Placeable(db, t)
    ensures Condition6(NewOrders.Closed(db, t).(orderLine := db.orderLine), w)
  {
    PlacedBook(db, t);
    var after := NewOrders.Closed(db, t).(orderLine := db.orderLine);
    forall k <- after.orders
      ensures OlCntMatches(after, k)
    {
      if k in db.orders {
        LinesCounted(db, k);
      } else {
        SumZero(db.orderLine, LineOf(k));
      }
    }
  }

  // Lost orders.

  /** Without order k a district has one order less than before. */
  lemma OrderLostFrom(db: Db, k: OKey, d: DKey)
    requires Book(db) && k in db.orders && (d == DistrictOf(k) ==> exists c <- db.customer :: DKey(c.w, c.d) == d)
    ensures BacklogMatches(db.(orders := db.orders - {k}), d, false)
      <==> d != DistrictOf(k) || !HasRows(db.newOrder, d) || Deliveries.Backlog(db, d) > 2100
  {
    QueueConditions(db, d.w);
    assert BacklogMatches(db, d, false);
    SumRemove(db.orders, OrderIn(d), k);
    OtherOrder(db, k, d);
    assert OKey(k.w, k.d, k.o) == k;
  }

  lemma OrderLost(db: Db, k: OKey, w: int)
    requires Book(db) && k in db.orders
    requires exists c <- db.customer :: DKey(c.w, c.d) == DistrictOf(k)
    ensures Condition11(db.(orders := db.orders - {k}), w, false)
      <==> w != k.w || !HasRows(db.newOrder, DistrictOf(k)) || Deliveries.Backlog(db, DistrictOf(k)) > 2100
  {
    forall d: DKey | d.w == w
      ensures BacklogMatches(db.(orders := db.orders - {k}), d, false)
        <==> d != DistrictOf(k) || !HasRows(db.newOrder, d) || Deliveries.Backlog(db, d) > 2100
    {
      OrderLostFrom(db, k, d);
    }
  }

  /** So does the strict form, where 2100 orders of each district were delivered. */
  lemma OrderMissed(db: Db, k: OKey, w: int)
    requires Book(db) && k in db.orders
    requires exists c <- db.customer :: DKey(c.w, c.d) == DistrictOf(k)
    requires forall d: DKey | d in db.district :: Deliveries.Backlog(db, d) == 2100
    ensures Condition11(db.(orders := db.orders - {k}), w, true) <==> w != k.w || !HasRows(db.newOrder, DistrictOf(k))
  {
    forall d: DKey | d.w == w
      ensures BacklogMatches(db.(orders := db.orders - {k}), d, true)
        <==> d != DistrictOf(k) || !HasRows(db.newOrder, d)
    {
      SumRemove(db.orders, OrderIn(d), k);
      OtherOrder(db, k, d);
      assert d.w == w && HasRows(db.orders, d) ==> d in db.district;
      assert OKey(k.w, k.d, k.o) == k;
    }
  }

  lemma OtherOrder(db: Db, k: OKey, d: DKey)
    requires Book(db) && k in db.orders
    ensures HasRows(db.orders - {k}, d) <==> HasRows(db.orders, d)
  {
    if d == DistrictOf(k) {
      var o := if k.o == 1 then 2 else 1;
      assert OKey(d.w, d.d, o) in db.orders && OKey(d.w, d.d, o) != k;
    } else {
      SameKeysSameBounds(db.orders - {k}, db.orders, d);
    }
  }

  /** In its strict form the condition also notices a lost row of the queue, unless it was the only one. */
  lemma QueueRowMissing(db: Db, k: OKey, w: int)
    requires Book(db) && k in db.newOrder
    requires exists c <- db.customer :: DKey(c.w, c.d) == DistrictOf(k)
    requires forall d: DKey | d in db.district :: Deliveries.Backlog(db, d) == 2100
    ensures Condition11(db.(newOrder := db.newOrder - {k}), w, true)
      <==> w != k.w || !HasRows(db.newOrder - {k}, DistrictOf(k))
  {
    var after := db.(newOrder := db.newOrder - {k});
    forall d: DKey | d.w == w
      ensures BacklogMatches(after, d, true) <==> d != DistrictOf(k) || !HasRows(after.newOrder, d)
    {
      SumRemove(db.newOrder, NewOrderIn(d), k);
      if o :| OKey(d.w, d.d, o) in db.orders {
        assert d in db.district;
      }
      assert OKey(k.w, k.d, k.o) == k && k in db.orders;
    }
  }

  // What no check notices.

  /** A database that lost all orders, lines, queue rows and payments passes every check. */
  lemma EmptyTablesPass(db: Db, W: int, w: int, freshlyLoaded: bool)
    requires Consistent(db, W)
    ensures AllConditions(db.(orders := map[], orderLine := map[], newOrder := map[], history := []), w, freshlyLoaded)
  {
  }

  /** So does one that lost only the payments, ... */
  lemma NoHistoryPasses(db: Db, W: int, w: int)
    requires Consistent(db, W)
    ensures AllConditions(db.(history := []), w, false)
  {
    ConsistentPassesChecks(db, W, w);
    SameButHistory(db, db.(history := []), w);
  }

  lemma SameButHistory(db: Db, after: Db, w: int)
    requires AllConditions(db, w, false) && after == db.(history := [])
    ensures AllConditions(after, w, false)
  {
    assert forall d: DKey | NoGap(db, d) && LinesMatch(db, d) :: NoGap(after, d) && LinesMatch(after, d);
  }

  /** ... or only the lines. */
  lemma NoLinesPasses(db: Db, W: int, w: int)
    requires Consistent(db, W)
    ensures AllConditions(db.(orderLine := map[]), w, false)
  {
    ConsistentPassesChecks(db, W, w);
    SameButLines(db, db.(orderLine := map[]), w);
  }

  lemma SameButLines(db: Db, after: Db, w: int)
    requires AllConditions(db, w, false) && after == db.(orderLine := map[])
    ensures AllConditions(after, w, false)
  {
    assert forall d: DKey | NoGap(db, d) :: NoGap(after, d) && LinesMatch(after, d);
  }
}
