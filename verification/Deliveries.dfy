/** The Delivery transaction: the client-side form, which selects the oldest undelivered order of each
    district and then runs one statement per table for all ten, and the stored procedure, which finishes one
    district after the other. */
module Deliveries {
  import opened Aggregates
  import opened Schema
  import opened Checks
  import opened Consistency

  const NO_ORDER := 0   // the client's order id for a district without undelivered orders

  datatype Input = Input(w: int, carrier: int, when: int)

  ghost predicate Generated(t: Input, W: int) {
    1 <= t.w <= W && 1 <= t.carrier <= 10
  }

  /** SELECT no_o_id ... ORDER BY no_o_id ASC LIMIT 1. */
  ghost function Oldest(queue: map<OKey, NewOrder>, d: DKey): (o: Option<int>)
    ensures o.Some? ==> IsMin(queue, d, o.value)
  {
    if exists x :: IsMin(queue, d, x) then
      var x :| IsMin(queue, d, x);
      Some(x)
    else None
  }

  lemma OldestIs(queue: map<OKey, NewOrder>, d: DKey, o: int)
    requires IsMin(queue, d, o)
    ensures Oldest(queue, d) == Some(o)
  {
  }

  lemma OldestIsNone(queue: map<OKey, NewOrder>, d: DKey)
    ensures Oldest(queue, d).None? <==> !HasRows(queue, d)
  {
    if o :| OKey(d.w, d.d, o) in queue {
      OldestExists(queue, d, o);
    }
  }

  // The statements, for a set of order keys.

  function SetCarrier(orders: map<OKey, Order>, ks: set<OKey>, carrier: int): map<OKey, Order> {
    map k <- orders :: if k in ks then orders[k].(carrier := Some(carrier)) else orders[k]
  }

  function MarkDelivered(orderLine: map<LKey, OrderLine>, ks: set<OKey>, when: int): map<LKey, OrderLine> {
    map k <- orderLine :: if k.Order() in ks then orderLine[k].(deliveryD := Some(when)) else orderLine[k]
  }

  /** SUM ignores NULL. */
  function AmountOf(o: OKey): (LKey, OrderLine) -> int {
    (k: LKey, line: OrderLine) => if k.Order() == o then line.amount.GetOr(0) else 0
  }

  ghost predicate HasLines(orderLine: map<LKey, OrderLine>, o: OKey) {
    exists k <- orderLine :: k.Order() == o
  }

  /** SELECT SUM(ol_amount): NULL when no line of the order has an amount. */
  ghost function OrderSum(orderLine: map<LKey, OrderLine>, o: OKey): Option<int> {
    if exists k <- orderLine :: k.Order() == o && orderLine[k].amount.Some? then Some(Sum(orderLine, AmountOf(o)))
      else None
  }

  function Credit(customer: map<CKey, Customer>, k: CKey, amount: Option<int>): map<CKey, Customer> {
    if k in customer
    then customer[k := customer[k].(balance := Plus(customer[k].balance, amount),
      deliveryCnt := customer[k].deliveryCnt + 1)]
    else customer
  }

  /** The statements for one order, and the credit of its buyer when there is one to credit. */
  function Effect(x: Db, t: Input, k: OKey, buyer: Option<CKey>, amount: Option<int>): Db {
    x.(newOrder := x.newOrder - {k},
       orders := SetCarrier(x.orders, {k}, t.carrier),
       orderLine := MarkDelivered(x.orderLine, {k}, t.when),
       customer := if buyer.Some? then Credit(x.customer, buyer.value, amount) else x.customer)
  }

  // The stored procedure.

  /** RETURNING o_c_id: NULL when there is no such order. */
  function Buyer(orders: map<OKey, Order>, k: OKey): Option<CKey> {
    if k in orders then Some(CKey(k.w, k.d, orders[k].c)) else None
  }

  ghost function DeliverOrder(db: Db, t: Input, k: OKey): Db {
    Effect(db, t, k, Buyer(db.orders, k), OrderSum(db.orderLine, k))
  }

  ghost function DeliverDistrict(db: Db, t: Input, d: int): Db {
    match Oldest(db.newOrder, DKey(t.w, d))
    case None => db
    case Some(o) => DeliverOrder(db, t, OKey(t.w, d, o))
  }

  /** Districts 1 .. n, one after the other. */
  ghost function DeliverDistricts(db: Db, t: Input, n: nat): Db {
    if n == 0 then db else DeliverDistrict(DeliverDistricts(db, t, n - 1), t, n)
  }

  ghost function ProcDelivery(db: Db, t: Input): Result {
    Result(DeliverDistricts(db, t, DISTRICTS), Committed)
  }

  // The client-side form.

  ghost function SelectedOrder(db: Db, w: int, d: int): int {
    Oldest(db.newOrder, DKey(w, d)).GetOr(NO_ORDER)
  }

  ghost function SelectedKey(db: Db, w: int, d: int): OKey {
    OKey(w, d, SelectedOrder(db, w, d))
  }

  /** The key list every batched statement uses, for the first n districts. */
  ghost function SelectedKeys(db: Db, w: int, n: nat): set<OKey> {
    set d | 1 <= d <= n :: SelectedKey(db, w, d)
  }

  /** The customer of an order; the client's slot holds 0 when there is no such order. */
  function SlotCustomer(orders: map<OKey, Order>, k: OKey): CKey {
    CKey(k.w, k.d, if k in orders then orders[k].c else 0)
  }

  /** The client's slot for the sum holds 0 when there are no lines. */
  ghost function SlotAmount(orderLine: map<LKey, OrderLine>, k: OKey): int {
    OrderSum(orderLine, k).GetOr(0)
  }

  /** The sum is NULL although there are lines: the client cannot read it and gives up. */
  ghost predicate NullSum(orderLine: map<LKey, OrderLine>, k: OKey) {
    HasLines(orderLine, k) && OrderSum(orderLine, k).None?
  }

  /** The customer updates of the first n districts, skipping those without an order. */
  ghost function CreditedCustomers(db: Db, w: int, n: nat): map<CKey, Customer> {
    if n == 0 then db.customer
    else
      var before, k := CreditedCustomers(db, w, n - 1), SelectedKey(db, w, n);
      if k.o == NO_ORDER then before
      else Credit(before, SlotCustomer(db.orders, k), Some(SlotAmount(db.orderLine, k)))
  }

  ghost function BatchedDelivery(db: Db, t: Input, n: nat): Db {
    var ks := SelectedKeys(db, t.w, n);
    db.(newOrder := db.newOrder - ks,
        orders := SetCarrier(db.orders, ks, t.carrier),
        orderLine := MarkDelivered(db.orderLine, ks, t.when),
        customer := CreditedCustomers(db, t.w, n))
  }

  ghost function ClientDelivery(db: Db, t: Input): Result {
    if exists d :: 1 <= d <= DISTRICTS && NullSum(db.orderLine, SelectedKey(db, t.w, d)) then Result(db, Failed)
    else Result(BatchedDelivery(db, t, DISTRICTS), Committed)
  }

  // Each form as a sequence of steps, one for each district, that only use what the district held at the start.

  ghost function ProcStep(x: Db, db: Db, t: Input, d: int): Db {
    match Oldest(db.newOrder, DKey(t.w, d))
    case None => x
    case Some(o) =>
      var k := OKey(t.w, d, o);
      Effect(x, t, k, Buyer(db.orders, k), OrderSum(db.orderLine, k))
  }

  ghost function ClientStep(x: Db, db: Db, t: Input, d: int): Db {
    var k := SelectedKey(db, t.w, d);
    Effect(x, t, k, if k.o == NO_ORDER then None else Some(SlotCustomer(db.orders, k)),
      Some(SlotAmount(db.orderLine, k)))
  }

  ghost function ProcSteps(db: Db, t: Input, n: nat): Db {
    if n == 0 then db else ProcStep(ProcSteps(db, t, n - 1), db, t, n)
  }

  ghost function ClientSteps(db: Db, t: Input, n: nat): Db {
    if n == 0 then db else ClientStep(ClientSteps(db, t, n - 1), db, t, n)
  }

  lemma OrderSumUnaffected(orderLine: map<LKey, OrderLine>, ks: set<OKey>, when: int, o: OKey)
    ensures OrderSum(MarkDelivered(orderLine, ks, when), o) == OrderSum(orderLine, o)
    ensures HasLines(MarkDelivered(orderLine, ks, when), o) <==> HasLines(orderLine, o)
  {
    var after := MarkDelivered(orderLine, ks, when);
    SumSame(orderLine, after, AmountOf(o), AmountOf(o));
    assert after.Keys == orderLine.Keys;
    assert forall k <- orderLine :: after[k].amount == orderLine[k].amount;
  }

  lemma SelectedKeysNext(db: Db, w: int, n: nat)
    requires n > 0
    ensures SelectedKeys(db, w, n) == SelectedKeys(db, w, n - 1) + {SelectedKey(db, w, n)}
  {
  }

  lemma StatementsCompose(orders: map<OKey, Order>, orderLine: map<LKey, OrderLine>, ks: set<OKey>, k: OKey, t: Input)
    ensures SetCarrier(SetCarrier(orders, ks, t.carrier), {k}, t.carrier) == SetCarrier(orders, ks + {k}, t.carrier)
    ensures MarkDelivered(MarkDelivered(orderLine, ks, t.when), {k}, t.when)
      == MarkDelivered(orderLine, ks + {k}, t.when)
  {
  }

  /** The batched statements do the same as a statement for each district. */
  lemma {:induction false} BatchIsSteps(db: Db, t: Input, n: nat)
    ensures BatchedDelivery(db, t, n) == ClientSteps(db, t, n)
  {
    if n == 0 {
      assert SelectedKeys(db, t.w, 0) == {};
    } else {
      BatchIsSteps(db, t, n - 1);
      var ks, k := SelectedKeys(db, t.w, n - 1), SelectedKey(db, t.w, n);
      SelectedKeysNext(db, t.w, n);
      StatementsCompose(db.orders, db.orderLine, ks, k, t);
      assert db.newOrder - (ks + {k}) == db.newOrder - ks - {k};
    }
  }

  predicate SameRow<K, V(==)>(x: map<K, V>, y: map<K, V>, k: K) {
    (k in x <==> k in y) && (k in x && k in y ==> x[k] == y[k])
  }

  ghost predicate SameOrders<V>(x: map<OKey, V>, y: map<OKey, V>, d: DKey) {
    forall k: OKey :: DKey(k.w, k.d) == d ==> SameRow(x, y, k)
  }

  ghost predicate SameLines(x: map<LKey, OrderLine>, y: map<LKey, OrderLine>, d: DKey) {
    forall k: LKey :: DKey(k.w, k.d) == d ==> SameRow(x, y, k)
  }

  ghost predicate SameCustomers(x: map<CKey, Customer>, y: map<CKey, Customer>, d: DKey) {
    forall k: CKey :: DKey(k.w, k.d) == d ==> SameRow(x, y, k)
  }

  /** x and y hold the same rows of district d in the tables a Delivery changes. */
  ghost predicate SameDistrict(x: Db, y: Db, d: DKey) {
    && SameOrders(x.newOrder, y.newOrder, d) && SameOrders(x.orders, y.orders, d)
    && SameLines(x.orderLine, y.orderLine, d) && SameCustomers(x.customer, y.customer, d)
  }

  lemma StatementsLocal(x: Db, y: Db, t: Input, k: OKey, d: DKey)
    requires SameDistrict(x, y, d)
    ensures SameOrders(x.newOrder - {k}, y.newOrder - {k}, d)
    ensures SameOrders(SetCarrier(x.orders, {k}, t.carrier), SetCarrier(y.orders, {k}, t.carrier), d)
    ensures SameLines(MarkDelivered(x.orderLine, {k}, t.when), MarkDelivered(y.orderLine, {k}, t.when), d)
  {
    forall o: OKey | DKey(o.w, o.d) == d
      ensures SameRow(x.newOrder - {k}, y.newOrder - {k}, o)
      ensures SameRow(SetCarrier(x.orders, {k}, t.carrier), SetCarrier(y.orders, {k}, t.carrier), o)
    {
      assert SameRow(x.newOrder, y.newOrder, o) && SameRow(x.orders, y.orders, o);
    }
    forall l: LKey | DKey(l.w, l.d) == d
      ensures SameRow(MarkDelivered(x.orderLine, {k}, t.when), MarkDelivered(y.orderLine, {k}, t.when), l)
    {
      assert SameRow(x.orderLine, y.orderLine, l);
    }
  }

  lemma StatementsElsewhere(x: Db, y: Db, t: Input, k: OKey, d: DKey)
    requires SameDistrict(x, y, d) && DKey(k.w, k.d) != d
    ensures SameOrders(x.newOrder - {k}, y.newOrder, d)
    ensures SameOrders(SetCarrier(x.orders, {k}, t.carrier), y.orders, d)
    ensures SameLines(MarkDelivered(x.orderLine, {k}, t.when), y.orderLine, d)
  {
    forall o: OKey | DKey(o.w, o.d) == d
      ensures SameRow(x.newOrder - {k}, y.newOrder, o)
      ensures SameRow(SetCarrier(x.orders, {k}, t.carrier), y.orders, o)
    {
      assert SameRow(x.newOrder, y.newOrder, o) && SameRow(x.orders, y.orders, o);
    }
    forall l: LKey | DKey(l.w, l.d) == d
      ensures SameRow(MarkDelivered(x.orderLine, {k}, t.when), y.orderLine, l)
    {
      assert SameRow(x.orderLine, y.orderLine, l);
    }
  }

  lemma CreditLocal(x: map<CKey, Customer>, y: map<CKey, Customer>, c: CKey, amount: Option<int>, d: DKey)
    requires SameCustomers(x, y, d)
    ensures SameCustomers(Credit(x, c, amount), Credit(y, c, amount), d)
    ensures DKey(c.w, c.d) != d ==> SameCustomers(Credit(x, c, amount), y, d)
  {
    forall k: CKey | DKey(k.w, k.d) == d
      ensures SameRow(Credit(x, c, amount), Credit(y, c, amount), k)
      ensures DKey(c.w, c.d) != d ==> SameRow(Credit(x, c, amount), y, k)
    {
      assert SameRow(x, y, k);
    }
  }

  /** The statements for an order do to a district what they find there, ... */
  lemma EffectLocal(x: Db, y: Db, t: Input, k: OKey, buyer: Option<CKey>, amount: Option<int>, d: DKey)
    requires SameDistrict(x, y, d)
    ensures SameDistrict(Effect(x, t, k, buyer, amount), Effect(y, t, k, buyer, amount), d)
  {
    StatementsLocal(x, y, t, k, d);
    if buyer.Some? {
      CreditLocal(x.customer, y.customer, buyer.value, amount, d);
      assert SameCustomers(Effect(x, t, k, buyer, amount).customer, Effect(y, t, k, buyer, amount).customer, d);
    }
  }

  /** ... and nothing to other districts. */
  lemma EffectElsewhere(x: Db, y: Db, t: Input, k: OKey, buyer: Option<CKey>, amount: Option<int>, d: DKey)
    requires SameDistrict(x, y, d) && DKey(k.w, k.d) != d && (buyer.Some? ==> DKey(buyer.value.w, buyer.value.d) != d)
    ensures SameDistrict(Effect(x, t, k, buyer, amount), y, d)
  {
    StatementsElsewhere(x, y, t, k, d);
    if buyer.Some? {
      CreditLocal(x.customer, y.customer, buyer.value, amount, d);
      assert SameCustomers(Effect(x, t, k, buyer, amount).customer, y.customer, d);
    }
  }

  /** What a sequence of steps leaves in a district is what the district's own step leaves there. */
  lemma {:induction false} ProcStepsLocal(db: Db, t: Input, n: nat, d: DKey)
    ensures SameDistrict(ProcSteps(db, t, n), if d.w == t.w && 1 <= d.d <= n then ProcStep(db, db, t, d.d) else db, d)
  {
    if n > 0 {
      ProcStepsLocal(db, t, n - 1, d);
      var x, k := ProcSteps(db, t, n - 1), SelectedKey(db, t.w, n);
      if d == DKey(t.w, n) {
        EffectLocal(x, db, t, k, Buyer(db.orders, k), OrderSum(db.orderLine, k), d);
      } else {
        EffectElsewhere(x, if d.w == t.w && 1 <= d.d <= n - 1 then ProcStep(db, db, t, d.d) else db, t, k,
                        Buyer(db.orders, k), OrderSum(db.orderLine, k), d);
      }
    }
  }

  lemma ClientStepLocal(x: Db, y: Db, db: Db, t: Input, n: int, d: DKey)
    requires SameDistrict(x, y, d)
    ensures SameDistrict(ClientStep(x, db, t, n), if d == DKey(t.w, n) then ClientStep(y, db, t, n) else y, d)
  {
    var k := SelectedKey(db, t.w, n);
    var buyer := if k.o == NO_ORDER then None else Some(SlotCustomer(db.orders, k));
    if d == DKey(t.w, n) {
      EffectLocal(x, y, t, k, buyer, Some(SlotAmount(db.orderLine, k)), d);
    } else {
      EffectElsewhere(x, y, t, k, buyer, Some(SlotAmount(db.orderLine, k)), d);
    }
  }

  lemma {:induction false} ClientStepsLocal(db: Db, t: Input, n: nat, d: DKey)
    ensures SameDistrict(ClientSteps(db, t, n), if d.w == t.w && 1 <= d.d <= n then ClientStep(db, db, t, d.d)
      else db, d)
  {
    if n > 0 {
      ClientStepsLocal(db, t, n - 1, d);
      ClientStepLocal(ClientSteps(db, t, n - 1), if d.w == t.w && 1 <= d.d <= n - 1 then ClientStep(db, db, t, d.d)
        else db, db, t, n, d);
    }
  }

  /** The oldest order of a district depends on the queue of the district only. */
  lemma OldestLocal(x: Db, y: Db, d: DKey)
    requires SameDistrict(x, y, d)
    ensures Oldest(x.newOrder, d) == Oldest(y.newOrder, d)
  {
    assert forall o :: IsMin(x.newOrder, d, o) <==> IsMin(y.newOrder, d, o);
    if o :| IsMin(y.newOrder, d, o) {
      OldestIs(x.newOrder, d, o);
      OldestIs(y.newOrder, d, o);
    }
  }

  lemma {:induction false} ProcStepsLines(db: Db, t: Input, n: nat, k: OKey)
    ensures OrderSum(ProcSteps(db, t, n).orderLine, k) == OrderSum(db.orderLine, k)
  {
    if n > 0 {
      ProcStepsLines(db, t, n - 1, k);
      OrderSumUnaffected(ProcSteps(db, t, n - 1).orderLine, {SelectedKey(db, t.w, n)}, t.when, k);
    }
  }

  /** The loop of the procedure, which reads each district after the earlier ones were delivered, makes these steps. */
  lemma {:induction false} LoopIsSteps(db: Db, t: Input, n: nat)
    ensures DeliverDistricts(db, t, n) == ProcSteps(db, t, n)
  {
    if n > 0 {
      LoopIsSteps(db, t, n - 1);
      var before, d := ProcSteps(db, t, n - 1), DKey(t.w, n);
      ProcStepsLocal(db, t, n - 1, d);
      OldestLocal(before, db, d);
      match Oldest(db.newOrder, d)
      case None =>
      case Some(o) =>
        ProcStepsLines(db, t, n - 1, OKey(t.w, n, o));
        assert SameRow(before.orders, db.orders, OKey(t.w, n, o));
    }
  }

  // When the two forms agree.

  /** No row is changed by the statements for order 0 that stand for a district without undelivered orders. */
  ghost predicate MarkerIdle(db: Db, t: Input, k: OKey) {
    && (k in db.orders ==> db.orders[k].carrier == Some(t.carrier))
    && (forall x <- db.orderLine :: x.Order() == k ==> db.orderLine[x].deliveryD == Some(t.when))
  }

  /** The two forms do the same to district d: an empty district has no rows under order id 0 to change; an
      order 0 in the queue, which the client takes for the marker, has nobody to credit; and an order to
      deliver has its row, or there is no customer 0, and it has lines, unless there is no balance to change. */
  ghost predicate DistrictAgrees(db: Db, t: Input, d: int) {
    var k := SelectedKey(db, t.w, d);
    match Oldest(db.newOrder, DKey(t.w, d))
    case None => MarkerIdle(db, t, k)
    case Some(o) =>
      if o == NO_ORDER then k in db.orders ==> SlotCustomer(db.orders, k) !in db.customer
      else if k !in db.orders then SlotCustomer(db.orders, k) !in db.customer
      else
        var c := SlotCustomer(db.orders, k);
        c in db.customer && db.customer[c].balance.Some? ==> OrderSum(db.orderLine, k).Some?
  }

  lemma EmptyAgrees(db: Db, t: Input, d: int)
    requires Oldest(db.newOrder, DKey(t.w, d)).None?
    ensures SameDistrict(ClientStep(db, db, t, d), ProcStep(db, db, t, d), DKey(t.w, d)) <==> DistrictAgrees(db, t, d)
  {
    var k, x := SelectedKey(db, t.w, d), ClientStep(db, db, t, d);
    OldestIsNone(db.newOrder, DKey(t.w, d));
    assert DistrictAgrees(db, t, d) <==> MarkerIdle(db, t, k);
    if SameDistrict(x, db, DKey(t.w, d)) {
      assert SameRow(x.orders, db.orders, k);
      forall l <- db.orderLine | l.Order() == k
        ensures db.orderLine[l].deliveryD == Some(t.when)
      {
        assert SameRow(x.orderLine, db.orderLine, l);
      }
    }
  }

  lemma MarkedAgrees(db: Db, t: Input, d: int)
    requires Oldest(db.newOrder, DKey(t.w, d)) == Some(NO_ORDER)
    ensures SameDistrict(ClientStep(db, db, t, d), ProcStep(db, db, t, d), DKey(t.w, d)) <==> DistrictAgrees(db, t, d)
  {
    var k := SelectedKey(db, t.w, d);
    var x, y := ClientStep(db, db, t, d), ProcStep(db, db, t, d);
    if SameDistrict(x, y, DKey(t.w, d)) && k in db.orders {
      assert SameRow(x.customer, y.customer, SlotCustomer(db.orders, k));
    }
  }

  lemma OrderAgrees(db: Db, t: Input, d: int)
    requires SelectedOrder(db, t.w, d) != NO_ORDER && !NullSum(db.orderLine, SelectedKey(db, t.w, d))
    ensures SameDistrict(ClientStep(db, db, t, d), ProcStep(db, db, t, d), DKey(t.w, d)) <==> DistrictAgrees(db, t, d)
  {
    var k := SelectedKey(db, t.w, d);
    var x, y := ClientStep(db, db, t, d), ProcStep(db, db, t, d);
    if SameDistrict(x, y, DKey(t.w, d)) {
      assert SameRow(x.customer, y.customer, SlotCustomer(db.orders, k));
    }
  }

  ghost predicate DeliveryAgrees(db: Db, t: Input) {
    forall d :: 1 <= d <= DISTRICTS ==> !NullSum(db.orderLine, SelectedKey(db, t.w, d)) && DistrictAgrees(db, t, d)
  }

  lemma StepsAgree(db: Db, t: Input, d: int)
    requires !NullSum(db.orderLine, SelectedKey(db, t.w, d))
    ensures SameDistrict(ClientStep(db, db, t, d), ProcStep(db, db, t, d), DKey(t.w, d)) <==> DistrictAgrees(db, t, d)
  {
    match Oldest(db.newOrder, DKey(t.w, d))
    case None => EmptyAgrees(db, t, d);
    case Some(o) =>
      if o == NO_ORDER {
        MarkedAgrees(db, t, d);
      } else {
        OrderAgrees(db, t, d);
      }
  }

  lemma SameRows<K, V>(x: map<K, V>, y: map<K, V>)
    requires forall k :: SameRow(x, y, k)
    ensures x == y
  {
    assert forall k :: SameRow(x, y, k) ==> (k in x <==> k in y);
    assert x.Keys == y.Keys;
    forall k | k in x
      ensures x[k] == y[k]
    {
      assert SameRow(x, y, k);
    }
  }

  lemma SameEverywhere(x: Db, y: Db)
    requires forall d: DKey :: SameDistrict(x, y, d)
    ensures x.newOrder == y.newOrder && x.orders == y.orders && x.orderLine == y.orderLine && x.customer == y.customer
  {
    forall k: OKey
      ensures SameRow(x.newOrder, y.newOrder, k) && SameRow(x.orders, y.orders, k)
    {
      assert SameDistrict(x, y, DKey(k.w, k.d));
      assert k == OKey(k.w, k.d, k.o);
      assert k in x.newOrder <==> k in y.newOrder;
    }
    forall k: LKey
      ensures SameRow(x.orderLine, y.orderLine, k)
    {
      assert SameDistrict(x, y, DKey(k.w, k.d));
    }
    forall k: CKey
      ensures SameRow(x.customer, y.customer, k)
    {
      assert SameDistrict(x, y, DKey(k.w, k.d));
    }
    SameRows(x.newOrder, y.newOrder);
    SameRows(x.orders, y.orders);
    SameRows(x.orderLine, y.orderLine);
    SameRows(x.customer, y.customer);
  }

  /** The tables a Delivery does not change. */
  predicate SameOthers(x: Db, y: Db) {
    && x.warehouse == y.warehouse && x.district == y.district && x.history == y.history
    && x.stock == y.stock && x.item == y.item && x.foreignKeys == y.foreignKeys
  }

  lemma {:induction false} OtherTables(db: Db, t: Input, n: nat)
    ensures SameOthers(ClientSteps(db, t, n), db) && SameOthers(ProcSteps(db, t, n), db)
  {
    if n > 0 {
      OtherTables(db, t, n - 1);
    }
  }

  lemma SameDistrictSym(x: Db, y: Db, d: DKey)
    requires SameDistrict(x, y, d)
    ensures SameDistrict(y, x, d)
  {
    assert forall k: OKey :: SameRow(y.newOrder, x.newOrder, k) <==> SameRow(x.newOrder, y.newOrder, k);
    assert forall k: OKey :: SameRow(y.orders, x.orders, k) <==> SameRow(x.orders, y.orders, k);
    assert forall k: LKey :: SameRow(y.orderLine, x.orderLine, k) <==> SameRow(x.orderLine, y.orderLine, k);
    assert forall k: CKey :: SameRow(y.customer, x.customer, k) <==> SameRow(x.customer, y.customer, k);
  }

  lemma SameDistrictTrans(x: Db, y: Db, z: Db, d: DKey)
    requires SameDistrict(x, y, d) && SameDistrict(y, z, d)
    ensures SameDistrict(x, z, d)
  {
    assert forall k: OKey ::
      SameRow(x.newOrder, y.newOrder, k) && SameRow(y.newOrder, z.newOrder, k) ==>
      SameRow(x.newOrder, z.newOrder, k);
    assert forall k: OKey ::
      SameRow(x.orders, y.orders, k) && SameRow(y.orders, z.orders, k) ==>
      SameRow(x.orders, z.orders, k);
    assert forall k: LKey ::
      SameRow(x.orderLine, y.orderLine, k) && SameRow(y.orderLine, z.orderLine, k) ==>
      SameRow(x.orderLine, z.orderLine, k);
    assert forall k: CKey ::
      SameRow(x.customer, y.customer, k) && SameRow(y.customer, z.customer, k) ==>
      SameRow(x.customer, z.customer, k);
  }

  lemma SameDistrictChain(x: Db, y: Db, a: Db, b: Db, d: DKey)
    requires SameDistrict(x, a, d) && SameDistrict(y, b, d)
    ensures SameDistrict(x, y, d) <==> SameDistrict(a, b, d)
  {
    SameDistrictSym(x, a, d);
    SameDistrictSym(y, b, d);
    if SameDistrict(x, y, d) {
      SameDistrictTrans(a, x, y, d);
      SameDistrictTrans(a, y, b, d);
    }
    if SameDistrict(a, b, d) {
      SameDistrictTrans(x, a, b, d);
      SameDistrictTrans(x, b, y, d);
    }
  }

  /** What the batch and the loop leave in district d compare as what its own steps leave there. */
  lemma ComparedByDistrict(db: Db, t: Input, d: DKey)
    ensures SameDistrict(ClientSteps(db, t, DISTRICTS), ProcSteps(db, t, DISTRICTS), d)
       <==> (d.w == t.w && 1 <= d.d <= DISTRICTS
             ==> SameDistrict(ClientStep(db, db, t, d.d), ProcStep(db, db, t, d.d), d))
  {
    ClientStepsLocal(db, t, DISTRICTS, d);
    ProcStepsLocal(db, t, DISTRICTS, d);
    var own := d.w == t.w && 1 <= d.d <= DISTRICTS;
    SameDistrictChain(ClientSteps(db, t, DISTRICTS), ProcSteps(db, t, DISTRICTS),
                      if own then ClientStep(db, db, t, d.d) else db, if own then ProcStep(db, db, t, d.d) else db, d);
  }

  lemma EqualIffSame(x: Db, y: Db)
    requires SameOthers(x, y)
    ensures x == y <==> forall d: DKey :: SameDistrict(x, y, d)
  {
    if forall d: DKey :: SameDistrict(x, y, d) {
      SameEverywhere(x, y);
    }
  }

  /** The batch and the loop leave the same database exactly when each district's own steps do. */
  lemma SameByDistrict(db: Db, t: Input)
    ensures ClientSteps(db, t, DISTRICTS) == ProcSteps(db, t, DISTRICTS)
       <==> forall d :: 1 <= d <= DISTRICTS
              ==> SameDistrict(ClientStep(db, db, t, d), ProcStep(db, db, t, d), DKey(t.w, d))
  {
    forall d: DKey
      ensures SameDistrict(ClientSteps(db, t, DISTRICTS), ProcSteps(db, t, DISTRICTS), d)
         <==> (d.w == t.w && 1 <= d.d <= DISTRICTS
               ==> SameDistrict(ClientStep(db, db, t, d.d), ProcStep(db, db, t, d.d), DKey(t.w, d.d)))
    {
      ComparedByDistrict(db, t, d);
      assert d == DKey(d.w, d.d);
    }
    OtherTables(db, t, DISTRICTS);
    EqualIffSame(ClientSteps(db, t, DISTRICTS), ProcSteps(db, t, DISTRICTS));
    assert forall d :: 1 <= d <= DISTRICTS ==> DKey(t.w, d).w == t.w;
  }

  lemma FormsAsSteps(db: Db, t: Input)
    ensures BatchedDelivery(db, t, DISTRICTS) == ClientSteps(db, t, DISTRICTS)
    ensures ProcDelivery(db, t) == Result(ProcSteps(db, t, DISTRICTS), Committed)
  {
    BatchIsSteps(db, t, DISTRICTS);
    LoopIsSteps(db, t, DISTRICTS);
  }

  /** The batched form leaves the same database and outcome as the district loop exactly when no sum is NULL
      and the two agree on every district. */
  lemma DeliveryFormsAgree(db: Db, t: Input)
    ensures ClientDelivery(db, t) == ProcDelivery(db, t) <==> DeliveryAgrees(db, t)
  {
    FormsAsSteps(db, t);
    SameByDistrict(db, t);
    if forall d :: 1 <= d <= DISTRICTS ==> !NullSum(db.orderLine, SelectedKey(db, t.w, d)) {
      forall d | 1 <= d <= DISTRICTS
        ensures SameDistrict(ClientStep(db, db, t, d), ProcStep(db, db, t, d), DKey(t.w, d))
          <==> DistrictAgrees(db, t, d)
      {
        StepsAgree(db, t, d);
      }
    }
  }

  /** An empty district and a row under order id 0. */
  const ZERO := Db(map[], map[], map[], [], map[OKey(1, 1, 0) := Order(1, None, 5, true)], map[], map[], map[], map[],
    false)

  /** The batch gives order 0 of a district without undelivered orders a carrier; the procedure does not. */
  lemma MarkerRowDiffers()
    ensures Generated(Input(1, 7, 0), 1)
    ensures ClientDelivery(ZERO, Input(1, 7, 0)) != ProcDelivery(ZERO, Input(1, 7, 0))
  {
    DeliveryFormsAgree(ZERO, Input(1, 7, 0));
    OldestIsNone(ZERO.newOrder, DKey(1, 1));
    assert !DistrictAgrees(ZERO, Input(1, 7, 0), 1);
  }

  // Preservation of the invariant.

  lemma DeliverKeepsOrders(db: Db, t: Input, k: OKey)
    requires OrderBook(db)
    ensures OrderBook(DeliverOrder(db, t, k))
  {
    var after := DeliverOrder(db, t, k);
    assert after.orders.Keys == db.orders.Keys && after.customer.Keys == db.customer.Keys;
  }

  lemma DeliverKeepsQueue(db: Db, t: Input, k: OKey)
    requires Queue(db) && IsMin(db.newOrder, DKey(k.w, k.d), k.o)
    ensures Queue(DeliverOrder(db, t, k))
  {
    var after := DeliverOrder(db, t, k);
    forall x <- after.newOrder, y <- after.orders | y.w == x.w && y.d == x.d && x.o <= y.o
      ensures y in after.newOrder
    {
      assert y in db.newOrder && y != k;
    }
  }

  lemma DeliverKeepsLines(db: Db, t: Input, k: OKey)
    requires Lines(db) && k in db.orders
    ensures Lines(DeliverOrder(db, t, k))
  {
    var after := DeliverOrder(db, t, k);
    assert after.orders.Keys == db.orders.Keys && after.orderLine.Keys == db.orderLine.Keys;
    assert forall x <- db.orders :: after.orders[x].olCnt == db.orders[x].olCnt;
  }

  /** Delivering an order moves its amount into the delivered amount of its buyer and of nobody else. */
  lemma DeliveredShifts(db: Db, t: Input, k: OKey, c: CKey)
    requires Lines(db) && k in db.orders && db.orders[k].carrier.None?
    ensures Delivered(DeliverOrder(db, t, k), c)
         == Delivered(db, c) + if c == SlotCustomer(db.orders, k) then Sum(db.orderLine, AmountOf(k)) else 0
  {
    var after := DeliverOrder(db, t, k);
    var f, g := DeliveredAmount(db.orders, c), DeliveredAmount(after.orders, c);
    forall x <- db.orderLine
      ensures g(x, after.orderLine[x]) == f(x, db.orderLine[x])
        + if c == SlotCustomer(db.orders, k) then AmountOf(k)(x, db.orderLine[x]) else 0
    {
      if x.Order() == k {
        assert db.orderLine[x].deliveryD.None?;
      }
    }
    if c == SlotCustomer(db.orders, k) {
      SumShift(db.orderLine, after.orderLine, f, g, AmountOf(k));
    } else {
      SumSame(db.orderLine, after.orderLine, f, g);
    }
  }

  /** An order of a valid book has lines, all with amounts. */
  lemma BookOrderSum(db: Db, k: OKey)
    requires OrderBook(db) && Lines(db) && k in db.orders
    ensures OrderSum(db.orderLine, k) == Some(Sum(db.orderLine, AmountOf(k)))
    ensures SlotCustomer(db.orders, k) in db.customer
  {
    assert LKey(k.w, k.d, k.o, 1).Order() == k;
    assert LKey(k.w, k.d, k.o, 1) in db.orderLine;
  }

  lemma DeliverKeepsBalance(db: Db, t: Input, k: OKey, c: CKey)
    requires Lines(db) && k in db.orders && db.orders[k].carrier.None? && c in db.customer && Balance(db, c)
    requires OrderSum(db.orderLine, k) == Some(Sum(db.orderLine, AmountOf(k)))
    ensures c in DeliverOrder(db, t, k).customer && Balance(DeliverOrder(db, t, k), c)
  {
    DeliveredShifts(db, t, k, c);
  }

  lemma DeliverKeepsBalances(db: Db, t: Input, k: OKey)
    requires Lines(db) && Balances(db) && k in db.orders && db.orders[k].carrier.None?
    requires OrderSum(db.orderLine, k) == Some(Sum(db.orderLine, AmountOf(k)))
    ensures Balances(DeliverOrder(db, t, k))
  {
    var after := DeliverOrder(db, t, k);
    assert after.customer.Keys == db.customer.Keys;
    forall c <- after.customer
      ensures Balance(after, c)
    {
      DeliverKeepsBalance(db, t, k, c);
    }
  }

  lemma DeliverKeepsStock(db: Db, t: Input, k: OKey)
    requires StockTotals(db.stock, db.orderLine)
    ensures StockTotals(db.stock, DeliverOrder(db, t, k).orderLine)
  {
    var before, after := db.orderLine, DeliverOrder(db, t, k).orderLine;
    forall s <- db.stock
      ensures Sum(after, QuantityFrom(s)) == Sum(before, QuantityFrom(s))
      ensures Sum(after, LineFrom(s)) == Sum(before, LineFrom(s))
      ensures Sum(after, RemoteLineFrom(s)) == Sum(before, RemoteLineFrom(s))
    {
      SumSame(before, after, QuantityFrom(s), QuantityFrom(s));
      SumSame(before, after, LineFrom(s), LineFrom(s));
      SumSame(before, after, RemoteLineFrom(s), RemoteLineFrom(s));
    }
  }

  lemma DeliverOrderKeepsConsistent(db: Db, t: Input, k: OKey, W: int)
    requires Consistent(db, W) && IsMin(db.newOrder, DKey(k.w, k.d), k.o)
    ensures Consistent(DeliverOrder(db, t, k), W)
  {
    DeliverKeepsOrders(db, t, k);
    DeliverKeepsQueue(db, t, k);
    DeliverKeepsLines(db, t, k);
    BookOrderSum(db, k);
    DeliverKeepsBalances(db, t, k);
    DeliverKeepsStock(db, t, k);
  }

  lemma DeliverDistrictKeepsConsistent(db: Db, t: Input, d: int, W: int)
    requires Consistent(db, W)
    ensures Consistent(DeliverDistrict(db, t, d), W)
  {
    match Oldest(db.newOrder, DKey(t.w, d))
    case None =>
    case Some(o) =>
      DeliverOrderKeepsConsistent(db, t, OKey(t.w, d, o), W);
  }

  /** What every district step keeps, the whole loop keeps. */
  lemma {:induction false} DistrictsPreserve(db: Db, t: Input, n: nat, P: Db -> bool)
    requires P(db)
    requires forall x, d | P(x) :: P(DeliverDistrict(x, t, d))
    ensures P(DeliverDistricts(db, t, n))
  {
    if n > 0 {
      DistrictsPreserve(db, t, n - 1, P);
    }
  }

  /** In a valid order book the two forms agree on every district, empty or not. */
  lemma BookAgrees(db: Db, t: Input)
    requires OrderBook(db) && Queue(db) && Lines(db)
    ensures DeliveryAgrees(db, t)
  {
    forall d | 1 <= d <= DISTRICTS
      ensures !NullSum(db.orderLine, SelectedKey(db, t.w, d)) && DistrictAgrees(db, t, d)
    {
      var k := SelectedKey(db, t.w, d);
      if k.o == NO_ORDER {
        assert k !in db.orders && k !in db.newOrder;
      } else {
        BookOrderSum(db, k);
      }
    }
  }

  /** Every Delivery keeps the database consistent, and its effect does not depend on the form. */
  lemma DeliveryKeepsConsistent(db: Db, t: Input, W: int)
    requires Consistent(db, W)
    ensures ClientDelivery(db, t) == ProcDelivery(db, t)
    ensures Consistent(ProcDelivery(db, t).db, W)
    ensures ProcDelivery(db, t).db.stock == db.stock
  {
    BookAgrees(db, t);
    DeliveryFormsAgree(db, t);
    var P := (x: Db) => Consistent(x, W) && x.stock == db.stock;
    forall x, d | P(x)
      ensures P(DeliverDistrict(x, t, d))
    {
      DeliverDistrictKeepsConsistent(x, t, d, W);
    }
    DistrictsPreserve(db, t, DISTRICTS, P);
  }

  // What a Delivery writes.

  /** The step of a district leaves these rows. */
  lemma DistrictWrites(db: Db, t: Input, k: OKey, x: OKey)
    requires x.w == k.w == t.w && x.d == k.d && 1 <= k.d <= DISTRICTS && IsMin(db.newOrder, DKey(k.w, k.d), k.o)
    ensures SameRow(ProcDelivery(db, t).db.newOrder, db.newOrder - {k}, x)
    ensures SameRow(ProcDelivery(db, t).db.orders, SetCarrier(db.orders, {k}, t.carrier), x)
    ensures forall l: LKey :: l.Order() == x ==>
      SameRow(ProcDelivery(db, t).db.orderLine, MarkDelivered(db.orderLine, {k}, t.when), l)
  {
    var d := DKey(k.w, k.d);
    LoopIsSteps(db, t, DISTRICTS);
    ProcStepsLocal(db, t, DISTRICTS, d);
    OldestIs(db.newOrder, d, k.o);
    assert SameDistrict(ProcDelivery(db, t).db, ProcStep(db, db, t, k.d), d);
  }

  /** The oldest order k of a district leaves the queue and gets the carrier, and its lines the date; every other
      order of the district and its lines stay as they are. */
  lemma DeliveryWrites(db: Db, t: Input, k: OKey, x: OKey)
    requires x.w == k.w == t.w && x.d == k.d && 1 <= k.d <= DISTRICTS && IsMin(db.newOrder, DKey(k.w, k.d), k.o)
    requires x in db.orders
    ensures var after := ProcDelivery(db, t).db;
      && (x in after.newOrder <==> x in db.newOrder && x != k)
      && x in after.orders
      && after.orders[x] == db.orders[x].(carrier := if x == k then Some(t.carrier) else db.orders[x].carrier)
    ensures var after := ProcDelivery(db, t).db.orderLine;
      forall l <- db.orderLine :: l.Order() == x ==>
        && l in after
        && after[l] == db.orderLine[l].(deliveryD := if x == k then Some(t.when) else db.orderLine[l].deliveryD)
  {
    DistrictWrites(db, t, k, x);
    var after := ProcDelivery(db, t).db.orderLine;
    forall l <- db.orderLine | l.Order() == x
      ensures l in after
      ensures after[l] == db.orderLine[l].(deliveryD := if x == k then Some(t.when) else db.orderLine[l].deliveryD)
    {
      assert SameRow(after, MarkDelivered(db.orderLine, {k}, t.when), l);
    }
  }

  // Counting deliveries: clause 3.3.2.11 with its exact right-hand side after a run.

  /** 1 when a Delivery in warehouse t.w finds an order in district d. */
  ghost function Delivers(db: Db, t: Input, d: DKey, n: nat): int {
    if d.w == t.w && 1 <= d.d <= n && HasRows(db.newOrder, d) then 1 else 0
  }

  ghost function Backlog(db: Db, d: DKey): int {
    OrderCount(db, d) - NewOrderCount(db, d)
  }

  lemma DeliverOrderCounted(db: Db, t: Input, k: OKey, d: DKey)
    requires k in db.newOrder
    ensures Backlog(DeliverOrder(db, t, k), d) == Backlog(db, d) + if DKey(k.w, k.d) == d then 1 else 0
  {
    SumSame(db.orders, DeliverOrder(db, t, k).orders, OrderIn(d), OrderIn(d));
    SumRemove(db.newOrder, NewOrderIn(d), k);
  }

  lemma {:induction false} DeliveriesCounted(db: Db, t: Input, n: nat, d: DKey)
    ensures Backlog(DeliverDistricts(db, t, n), d) == Backlog(db, d) + Delivers(db, t, d, n)
  {
    if n > 0 {
      DeliveriesCounted(db, t, n - 1, d);
      var before := DeliverDistricts(db, t, n - 1);
      LoopIsSteps(db, t, n - 1);
      ProcStepsLocal(db, t, n - 1, DKey(t.w, n));
      OldestLocal(before, db, DKey(t.w, n));
      OldestIsNone(db.newOrder, DKey(t.w, n));
      match Oldest(before.newOrder, DKey(t.w, n))
      case None =>
      case Some(o) =>
        DeliverOrderCounted(before, t, OKey(t.w, n, o), d);
    }
  }
}
