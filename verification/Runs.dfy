/** Whole runs of the workload: any finite sequence of transactions, each in either form. */
module Runs {
  import opened Aggregates
  import opened Schema
  import opened Checks
  import opened Consistency
  import opened Loading
  import NewOrders
  import Payments
  import Deliveries

  datatype Txn =
    | NewOrderTxn(n: NewOrders.Input)
    | PaymentTxn(p: Payments.Input)
    | DeliveryTxn(d: Deliveries.Input)

  /** A transaction, the form it is called in, and the server's answer to its query for customers by name. */
  datatype Call = Call(txn: Txn, storedProcs: bool, answer: seq<int>)

  ghost predicate Generated(txn: Txn, W: int) {
    match txn
    case NewOrderTxn(t) => NewOrders.Generated(t, W)
    case PaymentTxn(t) => Payments.Generated(t, W)
    case DeliveryTxn(t) => Deliveries.Generated(t, W)
  }

  /** The answer is one the server can give. */
  ghost predicate Answered(db: Db, call: Call) {
    call.txn.PaymentTxn? ==> Payments.IsListing(db, call.txn.p, call.answer)
  }

  ghost function Perform(db: Db, call: Call): Result {
    match call.txn
    case NewOrderTxn(t) =>
      if call.storedProcs then NewOrders.ProcNewOrder(db, t) else NewOrders.ClientNewOrder(db, t)
    case PaymentTxn(t) =>
      if call.storedProcs then Payments.ProcPayment(db, t, call.answer) else Payments.ClientPayment(db, t, call.answer)
    case DeliveryTxn(t) =>
      if call.storedProcs then Deliveries.ProcDelivery(db, t) else Deliveries.ClientDelivery(db, t)
  }

  ghost function Step(db: Db, call: Call): Db {
    Perform(db, call).db
  }

  ghost function Run(db: Db, calls: seq<Call>): Db
    decreases |calls|
  {
    if calls == [] then db else Run(Step(db, calls[0]), calls[1..])
  }

  ghost predicate Legal(db: Db, call: Call, W: int) {
    Generated(call.txn, W) && Answered(db, call)
  }

  ghost predicate LegalRun(db: Db, calls: seq<Call>, W: int)
    decreases |calls|
  {
    calls != [] ==> Legal(db, calls[0], W) && LegalRun(Step(db, calls[0]), calls[1..], W)
  }

  /** No transaction changes who the customers are and what they are called. */
  ghost predicate SameNames(x: Db, y: Db) {
    && x.customer.Keys == y.customer.Keys
    && forall k <- x.customer :: x.customer[k].first == y.customer[k].first && x.customer[k].last == y.customer[k].last
  }

  lemma {:induction false} DeliveriesKeepNames(db: Db, t: Deliveries.Input, n: nat)
    ensures SameNames(db, Deliveries.DeliverDistricts(db, t, n))
  {
    if n > 0 {
      DeliveriesKeepNames(db, t, n - 1);
    }
  }

  lemma {:induction false} CreditsKeepNames(db: Db, w: int, n: nat)
    ensures SameNames(db, db.(customer := Deliveries.CreditedCustomers(db, w, n)))
  {
    if n > 0 {
      CreditsKeepNames(db, w, n - 1);
    }
  }

  lemma NewOrderKeepsNames(db: Db, t: NewOrders.Input)
    ensures NewOrders.ClientNewOrder(db, t).db.customer == db.customer == NewOrders.ProcNewOrder(db, t).db.customer
  {
  }

  lemma PayingKeepsNames(db: Db, t: Payments.Input, c: CKey)
    ensures SameNames(db, Payments.Paying(db, t, c))
  {
  }

  lemma PaymentKeepsNames(db: Db, t: Payments.Input, ids: seq<int>)
    ensures SameNames(db, Payments.ClientPayment(db, t, ids).db) && SameNames(db, Payments.ProcPayment(db, t, ids).db)
  {
    if t.lookup.ById? || ids != [] {
      PayingKeepsNames(db, t, Payments.Chosen(t, ids));
      assert t.lookup.ByName? ==> Payments.NumberedMiddle(ids) == Payments.Middle(ids);
    }
  }

  lemma DeliveryKeepsNames(db: Db, t: Deliveries.Input)
    ensures SameNames(db, Deliveries.ClientDelivery(db, t).db) && SameNames(db, Deliveries.ProcDelivery(db, t).db)
  {
    DeliveriesKeepNames(db, t, DISTRICTS);
    CreditsKeepNames(db, t.w, DISTRICTS);
  }

  lemma StepKeepsNames(db: Db, call: Call)
    ensures SameNames(db, Step(db, call))
  {
    match call.txn
    case NewOrderTxn(t) =>
      NewOrderKeepsNames(db, t);
    case PaymentTxn(t) =>
      PaymentKeepsNames(db, t, call.answer);
    case DeliveryTxn(t) =>
      DeliveryKeepsNames(db, t);
  }

  /** Whether the two forms can only do the same: for a payment by name, nobody has the name or the median
      customer of the name shares the first name with no other. */
  ghost predicate Settled(db: Db, txn: Txn) {
    txn.PaymentTxn? && txn.p.lookup.ByName? ==>
      Payments.Named(db, txn.p) == {} || exists c :: Payments.IsMedian(db, txn.p, c)
  }

  lemma SettledByNames(x: Db, y: Db, txn: Txn)
    requires SameNames(x, y)
    ensures Settled(x, txn) <==> Settled(y, txn)
  {
    if txn.PaymentTxn? {
      var t := txn.p;
      assert Payments.Named(x, t) == Payments.Named(y, t);
      forall c
        ensures Payments.IsMedian(x, t, c) <==> Payments.IsMedian(y, t, c)
      {
        assert forall a :: Payments.First(x, t, a) == Payments.First(y, t, a);
        assert Payments.Earlier(x, t, c) == Payments.Earlier(y, t, c);
      }
    }
  }

  /** Every step keeps the invariant and the stock residues, in either form and whatever the server answers. */
  lemma StepKeepsConsistent(db: Db, call: Call, W: int)
    requires Consistent(db, W) && Legal(db, call, W)
    ensures Consistent(Step(db, call), W)
    ensures NewOrders.SameResidues(db.stock, Step(db, call).stock)
    ensures Perform(db, call) == Perform(db, call.(storedProcs := true))
  {
    match call.txn
    case NewOrderTxn(t) =>
      NewOrders.GeneratedRows(db, t, W);
      NewOrders.NewOrderKeepsConsistent(db, t, W);
      NewOrders.NewOrderKeepsResidues(db, t);
    case PaymentTxn(t) =>
      Payments.PaymentKeepsConsistent(db, t, call.answer, W);
    case DeliveryTxn(t) =>
      Deliveries.DeliveryKeepsConsistent(db, t, W);
  }

  ghost predicate SameEffect(db: Db, txn: Txn) {
    forall a: Call, b: Call :: a.txn == b.txn == txn && Answered(db, a) && Answered(db, b)
      ==> Perform(db, a) == Perform(db, b)
  }

  lemma SettledSameEffect(db: Db, txn: Txn, W: int, a: Call, b: Call)
    requires Consistent(db, W) && Settled(db, txn) && a.txn == b.txn == txn && Legal(db, a, W) && Legal(db, b, W)
    ensures Perform(db, a) == Perform(db, b)
  {
    StepKeepsConsistent(db, a, W);
    StepKeepsConsistent(db, b, W);
    if txn.PaymentTxn? {
      Payments.SettledCharges(db, txn.p, a.answer, b.answer, W);
    }
  }

  /** The effect of a transaction depends neither on its form nor on the server's answers exactly when it is settled. */
  lemma StepIgnoresForm(db: Db, txn: Txn, W: int)
    requires Consistent(db, W) && Generated(txn, W)
    ensures SameEffect(db, txn) <==> Settled(db, txn)
  {
    if Settled(db, txn) {
      forall a: Call, b: Call | a.txn == b.txn == txn && Answered(db, a) && Answered(db, b)
        ensures Perform(db, a) == Perform(db, b)
      {
        SettledSameEffect(db, txn, W, a, b);
      }
    } else {
      UnsettledStepDiffers(db, txn, W);
    }
  }

  /** What every legal step keeps, every legal run keeps. */
  lemma {:induction false} RunPreserves(db: Db, calls: seq<Call>, W: int, P: Db -> bool)
    requires P(db) && LegalRun(db, calls, W)
    requires forall x, call: Call | P(x) && Legal(x, call, W) :: P(Step(x, call))
    ensures P(Run(db, calls))
    decreases |calls|
  {
    if calls != [] {
      assert Legal(db, calls[0], W);
      RunPreserves(Step(db, calls[0]), calls[1..], W, P);
    }
  }

  /** Every legal run keeps the invariant; stock levels move by sales and refills only. */
  lemma RunKeepsConsistent(db: Db, calls: seq<Call>, W: int)
    requires Consistent(db, W) && LegalRun(db, calls, W)
    ensures Consistent(Run(db, calls), W)
    ensures NewOrders.SameResidues(db.stock, Run(db, calls).stock)
  {
    var P := (x: Db) => Consistent(x, W) && NewOrders.SameResidues(db.stock, x.stock);
    forall x, call: Call | P(x) && Legal(x, call, W)
      ensures P(Step(x, call))
    {
      StepKeepsConsistent(x, call, W);
      NewOrders.ResiduesCompose(db.stock, x.stock, Step(x, call).stock);
    }
    RunPreserves(db, calls, W, P);
  }

  // Independence of the form.

  ghost predicate Calls(calls: seq<Call>, txns: seq<Txn>) {
    |calls| == |txns| && forall i :: 0 <= i < |txns| ==> calls[i].txn == txns[i]
  }

  ghost predicate AllSettled(db: Db, txns: seq<Txn>) {
    forall i :: 0 <= i < |txns| ==> Settled(db, txns[i])
  }

  ghost predicate AllGenerated(txns: seq<Txn>, W: int) {
    forall i :: 0 <= i < |txns| ==> Generated(txns[i], W)
  }

  lemma SettledAfter(db: Db, call: Call, txns: seq<Txn>)
    requires txns != []
    ensures AllSettled(db, txns) <==> Settled(db, txns[0]) && AllSettled(Step(db, call), txns[1..])
  {
    StepKeepsNames(db, call);
    forall i | 0 <= i < |txns|
      ensures Settled(db, txns[i]) <==> Settled(Step(db, call), txns[i])
    {
      SettledByNames(db, Step(db, call), txns[i]);
    }
    if AllSettled(Step(db, call), txns[1..]) {
      forall i | 0 < i < |txns|
        ensures Settled(Step(db, call), txns[i])
      {
        assert txns[1..][i - 1] == txns[i];
      }
    }
  }

  /** Runs of the same settled transactions leave the same database, call by call in any forms. */
  lemma {:induction false} SettledRunsAgree(db: Db, txns: seq<Txn>, a: seq<Call>, b: seq<Call>, W: int)
    requires Consistent(db, W) && AllSettled(db, txns)
    requires Calls(a, txns) && Calls(b, txns) && LegalRun(db, a, W) && LegalRun(db, b, W)
    ensures Run(db, a) == Run(db, b)
    decreases |txns|
  {
    if txns != [] {
      StepKeepsConsistent(db, a[0], W);
      StepIgnoresForm(db, txns[0], W);
      assert Perform(db, a[0]) == Perform(db, b[0]);
      SettledAfter(db, a[0], txns);
      SettledRunsAgree(Step(db, a[0]), txns[1..], a[1..], b[1..], W);
    }
  }

  /** Every transaction can be called in the form asked for. */
  lemma CallExists(db: Db, txn: Txn, storedProcs: bool) returns (call: Call)
    ensures call.txn == txn && call.storedProcs == storedProcs && Answered(db, call)
  {
    var ids := [];
    if txn.PaymentTxn? {
      ids := Payments.OrderedExists(db, txn.p, Payments.Named(db, txn.p));
    }
    call := Call(txn, storedProcs, ids);
  }

  lemma {:induction false} RunExists(db: Db, txns: seq<Txn>, W: int) returns (calls: seq<Call>)
    requires AllGenerated(txns, W)
    ensures Calls(calls, txns) && LegalRun(db, calls, W)
    decreases |txns|
  {
    calls := [];
    if txns != [] {
      var call := CallExists(db, txns[0], true);
      var rest := RunExists(Step(db, call), txns[1..], W);
      FirstCall(db, call, rest, txns, W);
      calls := [call] + rest;
    }
  }

  /** A Delivery leaves the history alone. */
  lemma DeliveryKeepsHistory(db: Db, t: Deliveries.Input)
    ensures Deliveries.ClientDelivery(db, t).db.history == db.history == Deliveries.ProcDelivery(db, t).db.history
  {
    Deliveries.FormsAsSteps(db, t);
    Deliveries.OtherTables(db, t, DISTRICTS);
  }

  lemma PaymentKeepsHistory(db: Db, t: Payments.Input, ids: seq<int>)
    ensures db.history <= Payments.ClientPayment(db, t, ids).db.history
      && db.history <= Payments.ProcPayment(db, t, ids).db.history
  {
  }

  /** Steps only add to the history. */
  lemma StepKeepsHistory(db: Db, call: Call)
    ensures db.history <= Step(db, call).history
  {
    match call.txn
    case NewOrderTxn(t) =>
      assert NewOrders.ClientNewOrder(db, t).db.history == db.history == NewOrders.ProcNewOrder(db, t).db.history;
    case PaymentTxn(t) =>
      PaymentKeepsHistory(db, t, call.answer);
    case DeliveryTxn(t) =>
      DeliveryKeepsHistory(db, t);
  }

  lemma {:induction false} RunKeepsHistory(db: Db, calls: seq<Call>)
    ensures db.history <= Run(db, calls).history
    decreases |calls|
  {
    if calls != [] {
      StepKeepsHistory(db, calls[0]);
      RunKeepsHistory(Step(db, calls[0]), calls[1..]);
    }
  }

  /** The transaction can be called in two ways that make different entries in the history. */
  ghost predicate CanDiffer(db: Db, txn: Txn) {
    exists a: Call, b: Call ::
      a.txn == b.txn == txn && Answered(db, a) && Answered(db, b) && Diverge(Step(db, a), Step(db, b), |db.history|)
  }

  /** An unsettled payment can be entered in the history for two customers. */
  lemma UnsettledStepDiffers(db: Db, txn: Txn, W: int)
    requires Consistent(db, W) && Generated(txn, W) && !Settled(db, txn)
    ensures CanDiffer(db, txn)
  {
    var x, y := Payments.UnsettledCharges(db, txn.p, W);
    ChargesDiffer(db, txn.p, x, y);
  }

  lemma ChargesDiffer(db: Db, t: Payments.Input, x: seq<int>, y: seq<int>)
    requires Payments.IsListing(db, t, x) && Payments.IsListing(db, t, y)
    requires Diverge(Payments.ProcPayment(db, t, x).db, Payments.ProcPayment(db, t, y).db, |db.history|)
    ensures CanDiffer(db, PaymentTxn(t))
  {
    var a, b := Call(PaymentTxn(t), true, x), Call(PaymentTxn(t), true, y);
    assert Answered(db, a) && Answered(db, b) && Diverge(Step(db, a), Step(db, b), |db.history|);
  }

  /** The histories differ at place n, and will for ever. */
  ghost predicate Diverge(x: Db, y: Db, n: nat) {
    n < |x.history| && n < |y.history| && x.history[n] != y.history[n]
  }

  lemma RunsDiverge(x: Db, y: Db, a: seq<Call>, b: seq<Call>, n: nat)
    requires Diverge(x, y, n)
    ensures Run(x, a) != Run(y, b)
  {
    RunKeepsHistory(x, a);
    RunKeepsHistory(y, b);
  }

  lemma FirstCall(db: Db, call: Call, rest: seq<Call>, txns: seq<Txn>, W: int)
    requires txns != [] && call.txn == txns[0] && Generated(call.txn, W) && Answered(db, call)
    requires Calls(rest, txns[1..]) && LegalRun(Step(db, call), rest, W)
    ensures Calls([call] + rest, txns) && LegalRun(db, [call] + rest, W)
    ensures Run(db, [call] + rest) == Run(Step(db, call), rest)
  {
    assert ([call] + rest)[1..] == rest;
    forall i | 0 < i < |txns|
      ensures rest[i - 1].txn == txns[i]
    {
      assert txns[1..][i - 1] == txns[i];
    }
  }

  /** Two runs of the transactions that leave different databases. */
  ghost predicate RunsDiffer(db: Db, txns: seq<Txn>, a: seq<Call>, b: seq<Call>, W: int) {
    && Calls(a, txns) && Calls(b, txns) && LegalRun(db, a, W) && LegalRun(db, b, W)
    && Run(db, a) != Run(db, b)
  }

  lemma UnsettledFirst(db: Db, txns: seq<Txn>, W: int) returns (a: seq<Call>, b: seq<Call>)
    requires txns != [] && AllGenerated(txns, W) && CanDiffer(db, txns[0])
    ensures RunsDiffer(db, txns, a, b, W)
  {
    var p: Call, q: Call :|
      p.txn == q.txn == txns[0] && Answered(db, p) && Answered(db, q)
        && Diverge(Step(db, p), Step(db, q), |db.history|);
    var x := RunExists(Step(db, p), txns[1..], W);
    var y := RunExists(Step(db, q), txns[1..], W);
    RunsDiverge(Step(db, p), Step(db, q), x, y, |db.history|);
    FirstCall(db, p, x, txns, W);
    FirstCall(db, q, y, txns, W);
    a, b := [p] + x, [q] + y;
  }

  lemma UnsettledLater(db: Db, call: Call, txns: seq<Txn>, x: seq<Call>, y: seq<Call>, W: int)
    requires txns != [] && call.txn == txns[0] && Legal(db, call, W)
    requires RunsDiffer(Step(db, call), txns[1..], x, y, W)
    ensures RunsDiffer(db, txns, [call] + x, [call] + y, W)
  {
    FirstCall(db, call, x, txns, W);
    FirstCall(db, call, y, txns, W);
  }

  /** P holds in every state that legal steps reach, and lets unsettled transactions differ. */
  ghost predicate Keeps(P: Db -> bool, W: int) {
    && (forall x, call: Call | P(x) && Legal(x, call, W) :: P(Step(x, call)))
    && (forall x, txn | P(x) && Generated(txn, W) && !Settled(x, txn) :: CanDiffer(x, txn))
  }

  lemma {:induction false} UnsettledRunsDiffer(db: Db, txns: seq<Txn>, W: int, P: Db -> bool)
    returns (a: seq<Call>, b: seq<Call>)
    requires P(db) && Keeps(P, W) && AllGenerated(txns, W) && !AllSettled(db, txns)
    ensures RunsDiffer(db, txns, a, b, W)
    decreases |txns|
  {
    if Settled(db, txns[0]) {
      var call := CallExists(db, txns[0], true);
      assert Legal(db, call, W);
      SettledAfter(db, call, txns);
      var x, y := UnsettledRunsDiffer(Step(db, call), txns[1..], W, P);
      UnsettledLater(db, call, txns, x, y, W);
      a, b := [call] + x, [call] + y;
    } else {
      a, b := UnsettledFirst(db, txns, W);
    }
  }

  lemma ConsistentKeeps(W: int)
    ensures Keeps(x => Consistent(x, W), W)
  {
    forall x, call: Call | Consistent(x, W) && Legal(x, call, W)
      ensures Consistent(Step(x, call), W)
    {
      StepKeepsConsistent(x, call, W);
    }
    forall x, txn | Consistent(x, W) && Generated(txn, W) && !Settled(x, txn)
      ensures CanDiffer(x, txn)
    {
      UnsettledStepDiffers(x, txn, W);
    }
  }

  ghost predicate RunsAgree(db: Db, txns: seq<Txn>, W: int) {
    forall a, b :: Calls(a, txns) && Calls(b, txns) && LegalRun(db, a, W) && LegalRun(db, b, W)
      ==> Run(db, a) == Run(db, b)
  }

  /** The client-side workload and the stored procedures are interchangeable, call by call and whatever the
      server answers, exactly when in the database the run starts from every payment by name is settled. */
  lemma RunIgnoresForm(db: Db, txns: seq<Txn>, W: int)
    requires Consistent(db, W) && AllGenerated(txns, W)
    ensures RunsAgree(db, txns, W) <==> AllSettled(db, txns)
  {
    if AllSettled(db, txns) {
      forall a, b | Calls(a, txns) && Calls(b, txns) && LegalRun(db, a, W) && LegalRun(db, b, W)
        ensures Run(db, a) == Run(db, b)
      {
        SettledRunsAgree(db, txns, a, b, W);
      }
    } else {
      ConsistentKeeps(W);
      var a, b := UnsettledRunsDiffer(db, txns, W, x => Consistent(x, W));
    }
  }

  // No transaction of a run fails.

  /** Every last name is borne in every district, by the customer with its number. */
  ghost predicate NamesBorne(db: Db, W: int) {
    forall k: CKey :: IsDistrict(W, k.w, k.d) && 1 <= k.c <= LAST_NAMES ==> Bears(db, k)
  }

  predicate Bears(db: Db, k: CKey)
    requires 1 <= k.c <= LAST_NAMES
  {
    k in db.customer && db.customer[k].last == Payments.LastName(k.c - 1)
  }

  /** A payment by name always finds a customer. */
  lemma SomebodyNamed(db: Db, t: Payments.Input, W: int)
    requires NamesBorne(db, W) && Payments.Generated(t, W) && t.lookup.ByName?
    ensures Payments.Named(db, t) != {}
  {
    var n: nat :| n < 1000 && Payments.LastName(n) == t.lookup.last;
    assert Bears(db, t.Key(n + 1));
    BearerNamed(db, t, t.Key(n + 1));
  }

  lemma BearerNamed(db: Db, t: Payments.Input, k: CKey)
    requires t.lookup.ByName? && k == t.Key(k.c) && k in db.customer && db.customer[k].last == t.lookup.last
    ensures Payments.Named(db, t) != {}
  {
    assert k in db.customer.Keys;
    assert k.c in Payments.Named(db, t);
  }

  lemma LoadedNamesBorne(db: Db, W: int)
    requires Loaded(db, W)
    ensures NamesBorne(db, W)
  {
    forall k: CKey | IsDistrict(W, k.w, k.d) && 1 <= k.c <= LAST_NAMES
      ensures Bears(db, k)
    {
      assert DKey(k.w, k.d) in AllDistricts(W);
      assert k in db.customer && LoadedCustomer(k, db.customer[k]);
    }
  }

  lemma NamesStayBorne(x: Db, y: Db, W: int)
    requires NamesBorne(x, W) && SameNames(x, y)
    ensures NamesBorne(y, W)
  {
    forall k: CKey | IsDistrict(W, k.w, k.d) && 1 <= k.c <= LAST_NAMES
      ensures Bears(y, k)
    {
      assert Bears(x, k);
    }
  }

  /** A New-Order commits unless it asks for the rollback; Payments and Deliveries commit. */
  ghost predicate Succeeds(db: Db, call: Call) {
    Perform(db, call).outcome ==
      if call.txn.NewOrderTxn? && exists x <- call.txn.n.items :: x.id == NewOrders.UNUSED_ITEM then RolledBack
        else Committed
  }

  lemma StepSucceeds(db: Db, call: Call, W: int)
    requires Consistent(db, W) && NamesBorne(db, W) && Legal(db, call, W)
    ensures Succeeds(db, call)
  {
    match call.txn
    case NewOrderTxn(t) =>
      NewOrders.GeneratedRows(db, t, W);
      NewOrders.NewOrderKeepsConsistent(db, t, W);
      assert NewOrders.AllKnown(db, t) <==> forall i :: 0 <= i < |t.items| ==> t.items[i].id != NewOrders.UNUSED_ITEM;
    case PaymentTxn(t) =>
      if t.lookup.ByName? {
        SomebodyNamed(db, t, W);
      }
      Payments.PaymentKeepsConsistent(db, t, call.answer, W);
    case DeliveryTxn(t) =>
      Deliveries.DeliveryKeepsConsistent(db, t, W);
  }

  ghost predicate AllSucceed(db: Db, calls: seq<Call>)
    decreases |calls|
  {
    calls != [] ==> Succeeds(db, calls[0]) && AllSucceed(Step(db, calls[0]), calls[1..])
  }

  lemma {:induction false} RunSucceeds(db: Db, calls: seq<Call>, W: int)
    requires Consistent(db, W) && NamesBorne(db, W) && LegalRun(db, calls, W)
    ensures AllSucceed(db, calls)
    decreases |calls|
  {
    if calls != [] {
      StepSucceeds(db, calls[0], W);
      StepKeepsConsistent(db, calls[0], W);
      StepKeepsNames(db, calls[0]);
      NamesStayBorne(db, Step(db, calls[0]), W);
      RunSucceeds(Step(db, calls[0]), calls[1..], W);
    }
  }

  // Deliveries and checks.

  /** The deliveries a run makes in district d. */
  ghost function DeliveriesIn(db: Db, calls: seq<Call>, d: DKey): int
    decreases |calls|
  {
    if calls == [] then 0
    else
      (if calls[0].txn.DeliveryTxn? then Deliveries.Delivers(db, calls[0].txn.d, d, DISTRICTS) else 0)
      + DeliveriesIn(Step(db, calls[0]), calls[1..], d)
  }

  lemma NewOrderKeepsBacklog(db: Db, t: NewOrders.Input, d: DKey)
    requires OrderBook(db) && Queue(db) && NewOrders.UNUSED_ITEM !in db.item
    ensures Deliveries.Backlog(NewOrders.ProcNewOrder(db, t).db, d) == Deliveries.Backlog(db, d)
  {
    NewOrders.ProcNewOrderEffect(db, t);
    if !NewOrders.ProcFails(db, t) && NewOrders.AllKnown(db, t) {
      var k := OKey(t.w, t.d, db.district[t.District()].nextOID);
      var after := NewOrders.Closed(db, t);
      assert k !in db.orders && k !in db.newOrder;
      SumInsert(db.orders, OrderIn(d), k, after.orders[k]);
      SumInsert(db.newOrder, NewOrderIn(d), k, NewOrder);
    }
  }

  lemma PaymentKeepsBacklog(db: Db, t: Payments.Input, ids: seq<int>, d: DKey)
    ensures Deliveries.Backlog(Payments.ProcPayment(db, t, ids).db, d) == Deliveries.Backlog(db, d)
  {
  }

  lemma StepBacklog(db: Db, call: Call, W: int, d: DKey)
    requires Consistent(db, W) && Legal(db, call, W)
    ensures Deliveries.Backlog(Step(db, call), d)
         == Deliveries.Backlog(db, d) + if call.txn.DeliveryTxn?
           then Deliveries.Delivers(db, call.txn.d, d, DISTRICTS) else 0
  {
    StepKeepsConsistent(db, call, W);
    match call.txn
    case NewOrderTxn(t) =>
      NewOrders.GeneratedRows(db, t, W);
      NewOrderKeepsBacklog(db, t, d);
    case PaymentTxn(t) =>
      PaymentKeepsBacklog(db, t, call.answer, d);
    case DeliveryTxn(t) =>
      Deliveries.DeliveriesCounted(db, t, DISTRICTS, d);
  }

  /** Clause 3.3.2.11 with its exact value during a run: each delivery adds one. */
  lemma {:induction false} RunBacklog(db: Db, calls: seq<Call>, W: int, d: DKey)
    requires Consistent(db, W) && LegalRun(db, calls, W)
    ensures Deliveries.Backlog(Run(db, calls), d) == Deliveries.Backlog(db, d) + DeliveriesIn(db, calls, d)
    decreases |calls|
  {
    if calls != [] {
      StepKeepsConsistent(db, calls[0], W);
      StepBacklog(db, calls[0], W, d);
      RunBacklog(Step(db, calls[0]), calls[1..], W, d);
    }
  }

  /** From the loaded database, every run of generated transactions, in any mixture of forms, passes every
      check of clause 3.3.2 in every warehouse, and no transaction fails; orders minus undelivered orders are
      2100 plus the deliveries in every district. */
  lemma RunPassesChecks(db: Db, calls: seq<Call>, W: int, w: int, d: DKey)
    requires Loaded(db, W) && LegalRun(db, calls, W)
    ensures AllConditions(db, w, true)
    ensures AllConditions(Run(db, calls), w, false)
    ensures AllSucceed(db, calls)
    ensures d in db.district ==> Deliveries.Backlog(Run(db, calls), d) == 2100 + DeliveriesIn(db, calls, d)
  {
    LoadedPassesChecks(db, W, w);
    LoadedIsConsistent(db, W);
    RunKeepsConsistent(db, calls, W);
    ConsistentPassesChecks(Run(db, calls), W, w);
    LoadedNamesBorne(db, W);
    RunSucceeds(db, calls, W);
    RunBacklog(db, calls, W, d);
  }
}
