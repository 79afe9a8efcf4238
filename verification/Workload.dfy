/** The whole benchmark: load the database, run transactions, check. */
module Workload {
  import opened Schema
  import opened Checks
  import opened Consistency
  import opened Loading
  import opened Database
  import opened Runs
  import NewOrders
  import ClientTxns
  import ProcTxns

  /** A transaction and the form the workload is configured for. */
  datatype Request = Request(txn: Txn, storedProcs: bool)

  /** The call made for a request, with the server's answer. */
  ghost predicate Made(call: Call, r: Request) {
    call.txn == r.txn && call.storedProcs == r.storedProcs
  }

  ghost predicate AllMade(calls: seq<Call>, rs: seq<Request>) {
    |calls| == |rs| && forall i :: 0 <= i < |rs| ==> Made(calls[i], rs[i])
  }

  ghost predicate AllGenerated(rs: seq<Request>, W: int) {
    forall i :: 0 <= i < |rs| ==> Generated(rs[i].txn, W)
  }

  /** One transaction.  `call` records what the server answered on the way. */
  method RunCall(db: Tables, r: Request, ghost W: int) returns (ghost call: Call)
    requires Rows(db.Contents(), W) && Generated(r.txn, W)
    modifies db
    ensures Made(call, r) && Legal(old(db.Contents()), call, W)
    ensures db.Contents() == Step(old(db.Contents()), call)
  {
    ghost var answer := [];
    match r.txn {
      case NewOrderTxn(t) =>
        NewOrders.GeneratedRows(db.Contents(), t, W);
        if r.storedProcs {
          var _ := ProcTxns.ProcNewOrder(db, t);
        } else {
          var _ := ClientTxns.RunNewOrder(db, t);
        }
      case PaymentTxn(t) =>
        var outcome;
        if r.storedProcs {
          outcome, answer := ProcTxns.ProcPayment(db, t);
        } else {
          outcome, answer := ClientTxns.RunPayment(db, t);
        }
      case DeliveryTxn(t) =>
        if r.storedProcs {
          var _ := ProcTxns.ProcDelivery(db, t);
        } else {
          var _ := ClientTxns.RunDelivery(db, t);
        }
    }
    call := Call(r.txn, r.storedProcs, answer);
  }

  lemma RunFirst(db: Db, call: Call, rest: seq<Call>, rs: seq<Request>, W: int)
    requires rs != [] && Made(call, rs[0]) && Legal(db, call, W)
    requires AllMade(rest, rs[1..]) && LegalRun(Step(db, call), rest, W)
    ensures AllMade([call] + rest, rs) && LegalRun(db, [call] + rest, W)
    ensures Run(db, [call] + rest) == Run(Step(db, call), rest)
  {
    assert ([call] + rest)[1..] == rest;
    forall i | 0 < i < |rs|
      ensures Made(rest[i - 1], rs[i])
    {
      assert rs[1..][i - 1] == rs[i];
    }
  }

  /** A run of transactions. */
  method RunCalls(db: Tables, rs: seq<Request>, ghost W: int) returns (ghost calls: seq<Call>)
    requires Consistent(db.Contents(), W) && AllGenerated(rs, W)
    modifies db
    ensures AllMade(calls, rs) && LegalRun(old(db.Contents()), calls, W)
    ensures db.Contents() == Run(old(db.Contents()), calls)
    decreases |rs|
  {
    calls := [];
    if rs != [] {
      ghost var start := db.Contents();
      ghost var call := RunCall(db, rs[0], W);
      StepKeepsConsistent(start, call, W);
      ghost var rest := RunCalls(db, rs[1..], W);
      RunFirst(start, call, rest, rs, W);
      calls := [call] + rest;
    }
  }

  /** A run from the loader's database passes every check in every warehouse, and no transaction fails. */
  method Benchmark(db: Tables, rs: seq<Request>, ghost W: int) returns (ghost calls: seq<Call>)
    requires Loaded(db.Contents(), W) && AllGenerated(rs, W)
    modifies db
    ensures AllMade(calls, rs) && AllSucceed(old(db.Contents()), calls)
    ensures forall w :: AllConditions(db.Contents(), w, false)
  {
    ghost var start := db.Contents();
    LoadedIsConsistent(start, W);
    calls := RunCalls(db, rs, W);
    LoadedNamesBorne(start, W);
    RunSucceeds(start, calls, W);
    forall w
      ensures AllConditions(db.Contents(), w, false)
    {
      RunPassesChecks(start, calls, W, w, NOWHERE);
    }
  }
}
