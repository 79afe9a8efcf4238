/** The consistency conditions of clause 3.3.2 of the TPC-C specification, as the check queries state
    them for one warehouse.  A comparison with the NULL that SUM gives on no rows never selects a row, so
    the conditions that compare sums say nothing about groups without rows. */
module Checks {
  import opened Aggregates
  import opened Schema

  // Summands: what each row of a table contributes to the aggregate of one group.

  function DistrictYtdIn(w: int): (DKey, District) -> int {
    (k: DKey, row: District) => if k.w == w then row.ytd else 0
  }

  function PaidIn(w: int): History -> int {
    (row: History) => if row.w == w then row.amount else 0
  }

  function PaidInDistrict(k: DKey): History -> int {
    (row: History) => if DKey(row.w, row.d) == k then row.amount else 0
  }

  function PaidBy(c: CKey): History -> int {
    (row: History) => if row.c == c then row.amount else 0
  }

  /** The join of orders and order_line on the order key. */
  predicate DeliveredTo(orders: map<OKey, Order>, c: CKey, k: LKey, line: OrderLine) {
    && k.Order() in orders
    && CKey(k.w, k.d, orders[k.Order()].c) == c
    && line.deliveryD.Some?
  }

  function DeliveredAmount(orders: map<OKey, Order>, c: CKey): (LKey, OrderLine) -> int {
    (k: LKey, line: OrderLine) => if DeliveredTo(orders, c, k, line) then line.amount.GetOr(0) else 0
  }

  function OrderIn(d: DKey): (OKey, Order) -> int {
    (k: OKey, row: Order) => if DKey(k.w, k.d) == d then 1 else 0
  }

  function OlCntIn(d: DKey): (OKey, Order) -> int {
    (k: OKey, row: Order) => if DKey(k.w, k.d) == d then row.olCnt else 0
  }

  function NewOrderIn(d: DKey): (OKey, NewOrder) -> int {
    (k: OKey, row: NewOrder) => if DKey(k.w, k.d) == d then 1 else 0
  }

  function LineIn(d: DKey): (LKey, OrderLine) -> int {
    (k: LKey, line: OrderLine) => if DKey(k.w, k.d) == d then 1 else 0
  }

  function LineOf(o: OKey): (LKey, OrderLine) -> int {
    (k: LKey, line: OrderLine) => if k.Order() == o then 1 else 0
  }

  // Groups and aggregates.

  ghost function Delivered(db: Db, c: CKey): int {
    Sum(db.orderLine, DeliveredAmount(db.orders, c))
  }

  ghost function Paid(db: Db, c: CKey): int {
    SumRows(db.history, PaidBy(c))
  }

  ghost function OrderCount(db: Db, d: DKey): int {
    Sum(db.orders, OrderIn(d))
  }

  ghost function NewOrderCount(db: Db, d: DKey): int {
    Sum(db.newOrder, NewOrderIn(d))
  }

  ghost function OlCntSum(db: Db, d: DKey): int {
    Sum(db.orders, OlCntIn(d))
  }

  ghost function LineCount(db: Db, d: DKey): int {
    Sum(db.orderLine, LineIn(d))
  }

  ghost function LinesOf(db: Db, o: OKey): int {
    Sum(db.orderLine, LineOf(o))
  }

  ghost predicate HasRows<Row>(table: map<OKey, Row>, d: DKey) {
    exists o :: OKey(d.w, d.d, o) in table
  }

  ghost predicate IsMax<Row>(table: map<OKey, Row>, d: DKey, o: int) {
    OKey(d.w, d.d, o) in table && forall x :: OKey(d.w, d.d, x) in table ==> x <= o
  }

  ghost predicate IsMin<Row>(table: map<OKey, Row>, d: DKey, o: int) {
    OKey(d.w, d.d, o) in table && forall x :: OKey(d.w, d.d, x) in table ==> o <= x
  }

  ghost predicate HasDelivered(db: Db, c: CKey) {
    exists k <- db.orderLine :: DeliveredTo(db.orders, c, k, db.orderLine[k]) && db.orderLine[k].amount.Some?
  }

  ghost predicate HasPaid(db: Db, c: CKey) {
    exists h <- db.history :: h.c == c
  }

  // The conditions, for one group each, and for all groups of a warehouse.

  /** 3.3.2.1: W_YTD = sum(D_YTD). */
  ghost predicate Condition1(db: Db, w: int) {
    w in db.warehouse ==> Sum(db.district, DistrictYtdIn(w)) == db.warehouse[w].ytd
  }

  /** 3.3.2.2: D_NEXT_O_ID - 1 = max(O_ID) = max(NO_O_ID), where the district has orders and new orders. */
  ghost predicate NewestMatches(db: Db, d: DKey)
    requires d in db.district
  {
    HasRows(db.orders, d) && HasRows(db.newOrder, d) ==>
      IsMax(db.orders, d, db.district[d].nextOID - 1) && IsMax(db.newOrder, d, db.district[d].nextOID - 1)
  }

  ghost predicate Condition2(db: Db, w: int) {
    forall d <- db.district :: d.w == w ==> NewestMatches(db, d)
  }

  /** 3.3.2.3: max(NO_O_ID) - min(NO_O_ID) + 1 = the number of rows of NEW-ORDER. */
  ghost predicate NoGap(db: Db, d: DKey) {
    forall lo, hi :: IsMin(db.newOrder, d, lo) && IsMax(db.newOrder, d, hi) ==> NewOrderCount(db, d) == hi - lo + 1
  }

  ghost predicate Condition3(db: Db, w: int) {
    forall d: DKey :: d.w == w ==> NoGap(db, d)
  }

  /** 3.3.2.4: sum(O_OL_CNT) = the number of rows of ORDER-LINE, where the district has both. */
  ghost predicate LinesMatch(db: Db, d: DKey) {
    HasRows(db.orders, d) && LineCount(db, d) != 0 ==> OlCntSum(db, d) == LineCount(db, d)
  }

  ghost predicate Condition4(db: Db, w: int) {
    forall d: DKey :: d.w == w ==> LinesMatch(db, d)
  }

  /** 3.3.2.5: O_CARRIER_ID is null iff the order has a row in NEW-ORDER. */
  ghost predicate CarrierMatches(db: Db, k: OKey)
    requires k in db.orders
  {
    db.orders[k].carrier.None? <==> k in db.newOrder
  }

  ghost predicate Condition5(db: Db, w: int) {
    forall k <- db.orders :: k.w == w ==> CarrierMatches(db, k)
  }

  /** 3.3.2.6: O_OL_CNT = the number of lines of the order, for orders that have lines. */
  ghost predicate OlCntMatches(db: Db, k: OKey)
    requires k in db.orders
  {
    LinesOf(db, k) != 0 ==> db.orders[k].olCnt == LinesOf(db, k)
  }

  ghost predicate Condition6(db: Db, w: int) {
    forall k <- db.orders :: k.w == w ==> OlCntMatches(db, k)
  }

  /** 3.3.2.7: OL_DELIVERY_D is null iff O_CARRIER_ID is null. */
  ghost predicate DateMatches(db: Db, k: LKey)
    requires k in db.orderLine
  {
    k.Order() in db.orders ==> (db.orderLine[k].deliveryD.None? <==> db.orders[k.Order()].carrier.None?)
  }

  ghost predicate Condition7(db: Db, w: int) {
    forall k <- db.orderLine :: k.w == w ==> DateMatches(db, k)
  }

  /** 3.3.2.8: W_YTD = sum(H_AMOUNT), where the warehouse has history. */
  ghost predicate Condition8(db: Db, w: int) {
    w in db.warehouse && (exists h <- db.history :: h.w == w) ==>
      db.warehouse[w].ytd == SumRows(db.history, PaidIn(w))
  }

  /** 3.3.2.9: D_YTD = sum(H_AMOUNT), where the district has history. */
  ghost predicate YtdMatches(db: Db, d: DKey)
    requires d in db.district
  {
    (exists h <- db.history :: DKey(h.w, h.d) == d) ==> db.district[d].ytd == SumRows(db.history, PaidInDistrict(d))
  }

  ghost predicate Condition9(db: Db, w: int) {
    forall d <- db.district :: d.w == w ==> YtdMatches(db, d)
  }

  /** 3.3.2.10: C_BALANCE = sum(OL_AMOUNT of delivered lines) - sum(H_AMOUNT), where the customer has both. */
  ghost predicate BalanceMatches(db: Db, c: CKey)
    requires c in db.customer
  {
    HasDelivered(db, c) && HasPaid(db, c) && db.customer[c].balance.Some? ==>
      db.customer[c].balance.value == Delivered(db, c) - Paid(db, c)
  }

  ghost predicate Condition10(db: Db, w: int) {
    forall c <- db.customer :: c.w == w ==> BalanceMatches(db, c)
  }

  /** 3.3.2.11, freshly loaded or after a run: (orders) - (new orders) is 2100, or at least 2100, where the
      district has orders, new orders and customers. */
  ghost predicate BacklogMatches(db: Db, d: DKey, freshlyLoaded: bool) {
    && HasRows(db.orders, d) && HasRows(db.newOrder, d)
    && (exists c <- db.customer :: DKey(c.w, c.d) == d) ==>
      if freshlyLoaded then OrderCount(db, d) - NewOrderCount(db, d) == 2100
      else OrderCount(db, d) - NewOrderCount(db, d) >= 2100
  }

  ghost predicate Condition11(db: Db, w: int, freshlyLoaded: bool) {
    forall d: DKey :: d.w == w ==> BacklogMatches(db, d, freshlyLoaded)
  }

  /** 3.3.2.12: C_BALANCE + C_YTD_PAYMENT = sum(OL_AMOUNT of delivered lines), where the customer has any. */
  ghost predicate CreditMatches(db: Db, c: CKey)
    requires c in db.customer
  {
    HasDelivered(db, c) && db.customer[c].balance.Some? ==>
      db.customer[c].balance.value + db.customer[c].ytdPayment == Delivered(db, c)
  }

  ghost predicate Condition12(db: Db, w: int) {
    forall c <- db.customer :: c.w == w ==> CreditMatches(db, c)
  }

  /** Everything one call of `check` verifies for one warehouse, with the condition outside the default set. */
  ghost predicate AllConditions(db: Db, w: int, freshlyLoaded: bool) {
    && Condition1(db, w) && Condition2(db, w) && Condition3(db, w) && Condition4(db, w)
    && Condition5(db, w) && Condition6(db, w) && Condition7(db, w) && Condition8(db, w)
    && Condition9(db, w) && Condition10(db, w) && Condition11(db, w, freshlyLoaded) && Condition12(db, w)
  }
}
