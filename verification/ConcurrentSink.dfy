/** ConcurrentSink as interleaved steps: one producer, a bounded channel, one consumer per downstream sink and
    a wait group.  Errors of the downstream sinks are reported elsewhere and do not change these steps. */
module ConcurrentSink {
  import opened Counting

  type Row = int

  /** The producer inside no call, inside WriteRow before the channel took the row, or inside Flush. */
  datatype Producer = Idle | Sending(row: Row) | Waiting | Flushing(done: set<int>)

  /** A consumer before receiving, inside the downstream WriteRow, or before leaving the wait group. */
  datatype Consumer = Ready | Holding(row: Row) | Written

  datatype State = State(
    producer: Producer,
    queue: seq<Row>,
    consumers: seq<Consumer>,
    sinks: seq<seq<Row>>,     // what each downstream sink was given, in order
    wg: int,
    accepted: seq<Row>,       // history: every row a WriteRow call has started with
    owners: seq<int>,         // history: the consumer that received the j-th accepted row
    flushed: seq<seq<Row>>)   // history: what each downstream sink held when it was last flushed

  datatype Step =
    | BeginWrite(row: Row)    // writeWg.Add(1)
    | Send                    // writeCh <- row
    | Receive(i: int)         // <-writeCh
    | WriteDown(i: int)       // sink.WriteRow
    | Leave(i: int)           // writeWg.Add(-1)
    | BeginFlush
    | StartFlushing           // writeWg.Wait() returns
    | FlushOne(i: int)        // sink.Flush in its goroutine
    | EndFlush                // g.Wait() returns

  predicate IsConsumerStep(step: Step) {
    step.Receive? || step.WriteDown? || step.Leave?
  }

  predicate Enabled(s: State, step: Step) {
    match step
    case BeginWrite(_) => s.producer.Idle?
    case Send => s.producer.Sending? && |s.queue| < |s.consumers|
    case Receive(i) => 0 <= i < |s.consumers| && s.consumers[i].Ready? && s.queue != []
    case WriteDown(i) => 0 <= i < |s.consumers| && i < |s.sinks| && s.consumers[i].Holding?
    case Leave(i) => 0 <= i < |s.consumers| && s.consumers[i].Written?
    case BeginFlush => s.producer.Idle?
    case StartFlushing => s.producer.Waiting? && s.wg == 0
    case FlushOne(i) => s.producer.Flushing? && 0 <= i < |s.sinks| && i < |s.flushed| && i !in s.producer.done
    case EndFlush => s.producer.Flushing? && forall i :: 0 <= i < |s.sinks| ==> i in s.producer.done
  }

  function Next(s: State, step: Step): State
    requires Enabled(s, step)
  {
    match step
    case BeginWrite(row) => s.(producer := Sending(row), wg := s.wg + 1, accepted := s.accepted + [row])
    case Send => s.(producer := Idle, queue := s.queue + [s.producer.row])
    case Receive(i) => s.(queue := s.queue[1..], consumers := s.consumers[i := Holding(s.queue[0])],
      owners := s.owners + [i])
    case WriteDown(i) => s.(consumers := s.consumers[i := Written],
      sinks := s.sinks[i := s.sinks[i] + [s.consumers[i].row]])
    case Leave(i) => s.(consumers := s.consumers[i := Ready], wg := s.wg - 1)
    case BeginFlush => s.(producer := Waiting)
    case StartFlushing => s.(producer := Flushing({}))
    case FlushOne(i) => s.(producer := Flushing(s.producer.done + {i}), flushed := s.flushed[i := s.sinks[i]])
    case EndFlush => s.(producer := Idle)
  }

  function Initial(concurrency: nat): State {
    State(Idle, [], seq(concurrency, i => Ready), seq(concurrency, i => []), 0, [], [], seq(concurrency, i => []))
  }

  // The invariant.

  /** The consumers that have not left the wait group. */
  ghost function Busy(consumers: seq<Consumer>): int {
    if consumers == [] then 0
    else Busy(consumers[..|consumers| - 1]) + if consumers[|consumers| - 1].Ready? then 0 else 1
  }

  ghost function InSend(p: Producer): seq<Row> {
    if p.Sending? then [p.row] else []
  }

  ghost function InHand(c: Consumer): seq<Row> {
    if c.Holding? then [c.row] else []
  }

  /** The accepted rows that consumer i received, in the order they were accepted. */
  ghost function RowsOf(accepted: seq<Row>, owners: seq<int>, i: int): seq<Row>
    requires |owners| <= |accepted|
  {
    if owners == [] then []
    else
      var n := |owners| - 1;
      RowsOf(accepted, owners[..n], i) + if owners[n] == i then [accepted[n]] else []
  }

  ghost predicate Inv(s: State) {
    && |s.sinks| == |s.consumers| == |s.flushed|
    && |s.owners| <= |s.accepted| && |s.queue| <= |s.consumers|
    && (forall j :: 0 <= j < |s.owners| ==> 0 <= s.owners[j] < |s.sinks|)
    // the wait group counts the rows being sent, queued and held
    && s.wg == |InSend(s.producer)| + |s.queue| + Busy(s.consumers)
    // rows not yet received wait in the order they were accepted
    && s.accepted == s.accepted[..|s.owners|] + s.queue + InSend(s.producer)
    // each received row is at its consumer or in that consumer's sink
    && (forall i :: 0 <= i < |s.sinks| ==> s.sinks[i] + InHand(s.consumers[i]) == RowsOf(s.accepted, s.owners, i))
    // a flush has begun only when nothing was under way, and the sinks it has flushed hold nothing else
    && (s.producer.Flushing? ==>
          && s.wg == 0
          && (forall i <- s.producer.done :: 0 <= i < |s.sinks| && s.flushed[i] == s.sinks[i]))
  }

  lemma {:induction false} BusyUpdate(consumers: seq<Consumer>, i: int, c: Consumer)
    requires 0 <= i < |consumers|
    ensures Busy(consumers[i := c])
         == Busy(consumers) - (if consumers[i].Ready? then 0 else 1) + (if c.Ready? then 0 else 1)
  {
    var n := |consumers| - 1;
    if i < n {
      BusyUpdate(consumers[..n], i, c);
      assert consumers[i := c][..n] == consumers[..n][i := c];
    } else {
      assert consumers[i := c][..n] == consumers[..n];
    }
  }

  lemma {:induction false} BusyBounds(consumers: seq<Consumer>)
    ensures 0 <= Busy(consumers) <= |consumers|
    ensures Busy(consumers) == 0 <==> forall i :: 0 <= i < |consumers| ==> consumers[i].Ready?
  {
    if consumers != [] {
      BusyBounds(consumers[..|consumers| - 1]);
    }
  }

  /** Accepting more rows does not change who received the earlier ones. */
  lemma {:induction false} RowsOfExtended(accepted: seq<Row>, more: seq<Row>, owners: seq<int>, i: int)
    requires |owners| <= |accepted|
    ensures RowsOf(accepted + more, owners, i) == RowsOf(accepted, owners, i)
  {
    if owners != [] {
      RowsOfExtended(accepted, more, owners[..|owners| - 1], i);
    }
  }

  lemma RowsOfReceived(accepted: seq<Row>, owners: seq<int>, i: int, k: int)
    requires |owners| < |accepted|
    ensures RowsOf(accepted, owners + [k], i) == RowsOf(accepted, owners, i)
      + if k == i then [accepted[|owners|]] else []
  {
    assert (owners + [k])[..|owners|] == owners;
  }

  /** The first queued row is the first accepted row that nobody received. */
  lemma QueueShift(accepted: seq<Row>, n: nat, queue: seq<Row>, inSend: seq<Row>)
    requires n <= |accepted| && queue != [] && accepted == accepted[..n] + queue + inSend
    ensures n < |accepted| && accepted[n] == queue[0]
    ensures accepted == accepted[..n + 1] + queue[1..] + inSend
  {
    assert accepted[..n + 1] == accepted[..n] + [queue[0]];
    assert queue == [queue[0]] + queue[1..];
  }

  lemma ReceivedAtConsumer(s: State, i: int, j: int)
    requires Inv(s) && Enabled(s, Receive(i)) && 0 <= j < |s.sinks| && |s.owners| < |s.accepted|
    requires s.accepted[|s.owners|] == s.queue[0]
    ensures s.sinks[j] + InHand(s.consumers[i := Holding(s.queue[0])][j]) == RowsOf(s.accepted, s.owners + [i], j)
  {
    RowsOfReceived(s.accepted, s.owners, j, i);
  }

  lemma ReceiveKeepsInv(s: State, i: int)
    requires Inv(s) && Enabled(s, Receive(i))
    ensures Inv(Next(s, Receive(i)))
  {
    var after := Next(s, Receive(i));
    BusyUpdate(s.consumers, i, after.consumers[i]);
    BusyBounds(s.consumers);
    QueueShift(s.accepted, |s.owners|, s.queue, InSend(s.producer));
    forall j | 0 <= j < |s.sinks|
      ensures after.sinks[j] + InHand(after.consumers[j]) == RowsOf(after.accepted, after.owners, j)
    {
      ReceivedAtConsumer(s, i, j);
    }
  }

  lemma ConsumerStepKeepsInv(s: State, step: Step)
    requires Inv(s) && Enabled(s, step) && IsConsumerStep(step)
    ensures Inv(Next(s, step))
  {
    if step.Receive? {
      ReceiveKeepsInv(s, step.i);
    } else {
      BusyUpdate(s.consumers, step.i, Next(s, step).consumers[step.i]);
      BusyBounds(s.consumers);
    }
  }

  lemma ProducerStepKeepsInv(s: State, step: Step)
    requires Inv(s) && Enabled(s, step) && !IsConsumerStep(step)
    ensures Inv(Next(s, step))
  {
    var after := Next(s, step);
    match step
    case BeginWrite(row) =>
      forall i | 0 <= i < |s.sinks|
        ensures RowsOf(after.accepted, after.owners, i) == RowsOf(s.accepted, s.owners, i)
      {
        RowsOfExtended(s.accepted, [row], s.owners, i);
      }
      assert after.accepted[..|s.owners|] == s.accepted[..|s.owners|];
    case _ =>
  }

  lemma InitialInv(concurrency: nat)
    ensures Inv(Initial(concurrency))
  {
    BusyBounds(Initial(concurrency).consumers);
  }

  // Runs.

  ghost predicate LegalRun(s: State, steps: seq<Step>)
    decreases |steps|
  {
    steps != [] ==> Enabled(s, steps[0]) && LegalRun(Next(s, steps[0]), steps[1..])
  }

  ghost function Run(s: State, steps: seq<Step>): State
    requires LegalRun(s, steps)
    decreases |steps|
  {
    if steps == [] then s else Run(Next(s, steps[0]), steps[1..])
  }

  lemma {:induction false} RunKeepsInv(s: State, steps: seq<Step>)
    requires Inv(s) && LegalRun(s, steps)
    ensures Inv(Run(s, steps))
    decreases |steps|
  {
    if steps != [] {
      if IsConsumerStep(steps[0]) {
        ConsumerStepKeepsInv(s, steps[0]);
      } else {
        ProducerStepKeepsInv(s, steps[0]);
      }
      RunKeepsInv(Next(s, steps[0]), steps[1..]);
    }
  }

  /** Every accepted row is in exactly one downstream sink, in the order of acceptance within each. */
  ghost predicate HandedOver(s: State) {
    && |s.owners| == |s.accepted| && |s.sinks| == |s.consumers|
    && (forall j :: 0 <= j < |s.owners| ==> 0 <= s.owners[j] < |s.sinks|)
    && forall i :: 0 <= i < |s.sinks| ==> s.sinks[i] == RowsOf(s.accepted, s.owners, i)
  }

  lemma NothingUnderWay(s: State)
    requires Inv(s) && s.wg == 0
    ensures s.queue == [] && !s.producer.Sending? && HandedOver(s)
    ensures forall i :: 0 <= i < |s.consumers| ==> s.consumers[i].Ready?
  {
    BusyBounds(s.consumers);
  }

  /** In every run the downstream flushes happen only while all accepted rows have been handed over. */
  lemma FlushAfterHandover(concurrency: nat, steps: seq<Step>, i: int)
    requires LegalRun(Initial(concurrency), steps)
    requires Enabled(Run(Initial(concurrency), steps), FlushOne(i))
    ensures HandedOver(Run(Initial(concurrency), steps))
  {
    InitialInv(concurrency);
    RunKeepsInv(Initial(concurrency), steps);
    NothingUnderWay(Run(Initial(concurrency), steps));
  }

  // Counting rows: the sinks together hold the accepted rows, each as often as it was accepted.

  ghost function Together(accepted: seq<Row>, owners: seq<int>, n: nat): multiset<Row>
    requires |owners| <= |accepted|
  {
    if n == 0 then multiset{} else Together(accepted, owners, n - 1) + multiset(RowsOf(accepted, owners, n - 1))
  }

  lemma {:induction false} TogetherReceived(accepted: seq<Row>, owners: seq<int>, k: int, n: nat)
    requires |owners| < |accepted|
    ensures Together(accepted, owners + [k], n) == Together(accepted, owners, n)
      + if 0 <= k < n then multiset{accepted[|owners|]} else multiset{}
  {
    if n > 0 {
      TogetherReceived(accepted, owners, k, n - 1);
      RowsOfReceived(accepted, owners, n - 1, k);
    }
  }

  lemma {:induction false} TogetherNone(accepted: seq<Row>, n: nat)
    ensures Together(accepted, [], n) == multiset{}
  {
    if n > 0 {
      TogetherNone(accepted, n - 1);
    }
  }

  lemma {:induction false} TogetherAll(accepted: seq<Row>, owners: seq<int>, n: nat)
    requires |owners| <= |accepted|
    requires forall j :: 0 <= j < |owners| ==> 0 <= owners[j] < n
    ensures Together(accepted, owners, n) == multiset(accepted[..|owners|])
    decreases |owners|
  {
    if owners == [] {
      TogetherNone(accepted, n);
    } else {
      var m := |owners| - 1;
      var first, k := owners[..m], owners[m];
      assert owners == first + [k] && 0 <= k < n;
      TogetherAll(accepted, first, n);
      TogetherReceived(accepted, first, k, n);
      assert accepted[..m + 1] == accepted[..m] + [accepted[m]];
    }
  }

  ghost function AllSinks(sinks: seq<seq<Row>>, n: nat): multiset<Row>
    requires n <= |sinks|
  {
    if n == 0 then multiset{} else AllSinks(sinks, n - 1) + multiset(sinks[n - 1])
  }

  lemma {:induction false} SinksTogether(accepted: seq<Row>, owners: seq<int>, sinks: seq<seq<Row>>, n: nat)
    requires |owners| <= |accepted| && n <= |sinks|
    requires forall i :: 0 <= i < |sinks| ==> sinks[i] == RowsOf(accepted, owners, i)
    ensures AllSinks(sinks, n) == Together(accepted, owners, n)
  {
    if n > 0 {
      SinksTogether(accepted, owners, sinks, n - 1);
    }
  }

  /** Conservation: no row is lost, none is delivered twice. */
  lemma RowsConserved(s: State)
    requires HandedOver(s)
    ensures AllSinks(s.sinks, |s.sinks|) == multiset(s.accepted)
  {
    SinksTogether(s.accepted, s.owners, s.sinks, |s.sinks|);
    TogetherAll(s.accepted, s.owners, |s.sinks|);
    assert s.accepted[..|s.owners|] == s.accepted;
  }

  // Progress: a waiting Flush is never stuck.

  ghost function Work(c: Consumer): int {
    match c
    case Ready => 0
    case Holding(_) => 2
    case Written => 1
  }

  ghost function AllWork(consumers: seq<Consumer>): int {
    if consumers == [] then 0 else AllWork(consumers[..|consumers| - 1]) + Work(consumers[|consumers| - 1])
  }

  /** Consumer steps left before the wait group is empty. */
  ghost function StepsLeft(s: State): int {
    3 * |s.queue| + AllWork(s.consumers)
  }

  lemma {:induction false} AllWorkUpdate(consumers: seq<Consumer>, i: int, c: Consumer)
    requires 0 <= i < |consumers|
    ensures AllWork(consumers[i := c]) == AllWork(consumers) - Work(consumers[i]) + Work(c)
  {
    var n := |consumers| - 1;
    if i < n {
      AllWorkUpdate(consumers[..n], i, c);
      assert consumers[i := c][..n] == consumers[..n][i := c];
    } else {
      assert consumers[i := c][..n] == consumers[..n];
    }
  }

  lemma {:induction false} AllWorkPositive(consumers: seq<Consumer>)
    ensures 0 <= AllWork(consumers)
  {
    if consumers != [] {
      AllWorkPositive(consumers[..|consumers| - 1]);
    }
  }

  /** While a Flush waits, some consumer can move, and every consumer step brings the end one step nearer. */
  lemma WaitingProgresses(s: State) returns (step: Step)
    requires Inv(s) && s.producer.Waiting? && s.wg != 0
    ensures Enabled(s, step) && IsConsumerStep(step)
  {
    BusyBounds(s.consumers);
    if i :| 0 <= i < |s.consumers| && !s.consumers[i].Ready? {
      step := if s.consumers[i].Holding? then WriteDown(i) else Leave(i);
    } else {
      assert s.queue != [];
      step := Receive(0);
    }
  }

  lemma ConsumerStepNearsEnd(s: State, step: Step)
    requires Inv(s) && Enabled(s, step) && IsConsumerStep(step)
    ensures 0 <= StepsLeft(Next(s, step)) == StepsLeft(s) - 1
  {
    AllWorkUpdate(s.consumers, step.i, Next(s, step).consumers[step.i]);
    AllWorkPositive(Next(s, step).consumers);
  }

  // Runs of the consumers alone, while the producer is blocked.

  ghost predicate ConsumersOnly(steps: seq<Step>) {
    forall i :: 0 <= i < |steps| ==> IsConsumerStep(steps[i])
  }

  /** No consumer can move. */
  ghost predicate AtRest(s: State) {
    forall step :: IsConsumerStep(step) ==> !Enabled(s, step)
  }

  lemma {:induction false} ConsumersRun(s: State, steps: seq<Step>)
    requires Inv(s) && LegalRun(s, steps) && ConsumersOnly(steps)
    ensures Inv(Run(s, steps)) && Run(s, steps).producer == s.producer
    ensures |Run(s, steps).consumers| == |s.consumers|
    ensures 0 <= StepsLeft(Run(s, steps)) == StepsLeft(s) - |steps|
    decreases |steps|
  {
    if steps != [] {
      ConsumerStepKeepsInv(s, steps[0]);
      ConsumerStepNearsEnd(s, steps[0]);
      ConsumersRun(Next(s, steps[0]), steps[1..]);
    } else {
      AllWorkPositive(s.consumers);
    }
  }

  lemma {:induction false} AllWorkReady(consumers: seq<Consumer>)
    requires forall i :: 0 <= i < |consumers| ==> consumers[i].Ready?
    ensures AllWork(consumers) == 0
  {
    if consumers != [] {
      AllWorkReady(consumers[..|consumers| - 1]);
    }
  }

  /** Consumers rest only when all is handed over. */
  lemma RestMeansDone(s: State)
    requires Inv(s) && AtRest(s)
    ensures s.queue == [] && StepsLeft(s) == 0 && s.wg == |InSend(s.producer)|
  {
    forall i | 0 <= i < |s.consumers|
      ensures s.consumers[i].Ready?
    {
      assert !Enabled(s, WriteDown(i)) && !Enabled(s, Leave(i));
    }
    assert |s.consumers| > 0 ==> !Enabled(s, Receive(0));
    AllWorkReady(s.consumers);
    BusyBounds(s.consumers);
  }

  ghost predicate Reachable(s: State, concurrency: nat) {
    exists steps :: LegalRun(Initial(concurrency), steps) && Run(Initial(concurrency), steps) == s
  }

  lemma ReachableInv(s: State, concurrency: nat)
    requires Reachable(s, concurrency)
    ensures Inv(s)
  {
    var steps :| LegalRun(Initial(concurrency), steps) && Run(Initial(concurrency), steps) == s;
    InitialInv(concurrency);
    RunKeepsInv(Initial(concurrency), steps);
  }

  /** From every reachable state, a waiting Flush ends: no run of the consumers is longer than the steps left,
      and every one that cannot go on leaves the wait group empty. */
  lemma FlushEnds(s: State, concurrency: nat, steps: seq<Step>)
    requires Reachable(s, concurrency) && s.producer.Waiting?
    requires LegalRun(s, steps) && ConsumersOnly(steps)
    ensures |steps| <= StepsLeft(s)
    ensures AtRest(Run(s, steps)) <==> |steps| == StepsLeft(s)
    ensures AtRest(Run(s, steps)) ==> Run(s, steps).wg == 0 && Enabled(Run(s, steps), StartFlushing)
  {
    ReachableInv(s, concurrency);
    ConsumersRun(s, steps);
    if AtRest(Run(s, steps)) {
      RestMeansDone(Run(s, steps));
    } else if step :| IsConsumerStep(step) && Enabled(Run(s, steps), step) {
      ConsumerStepNearsEnd(Run(s, steps), step);
    }
  }

  /** A blocked Send is never stuck: every run of the consumers that cannot go on leaves room in the channel. */
  lemma SendEnds(s: State, concurrency: nat, steps: seq<Step>)
    requires Reachable(s, concurrency) && s.producer.Sending? && s.consumers != []
    requires LegalRun(s, steps) && ConsumersOnly(steps)
    ensures |steps| <= StepsLeft(s)
    ensures AtRest(Run(s, steps)) ==> Enabled(Run(s, steps), Send)
  {
    ReachableInv(s, concurrency);
    ConsumersRun(s, steps);
    if AtRest(Run(s, steps)) {
      RestMeansDone(Run(s, steps));
    }
  }

  // What holds when Flush returns.

  /** When Flush returns, every accepted row has been handed to its sink and flushed there. */
  lemma FlushReturns(concurrency: nat, steps: seq<Step>)
    requires LegalRun(Initial(concurrency), steps) && Enabled(Run(Initial(concurrency), steps), EndFlush)
    ensures var s := Run(Initial(concurrency), steps);
      HandedOver(s) && s.flushed == s.sinks && AllSinks(s.flushed, |s.flushed|) == multiset(s.accepted)
  {
    InitialInv(concurrency);
    RunKeepsInv(Initial(concurrency), steps);
    var s := Run(Initial(concurrency), steps);
    NothingUnderWay(s);
    RowsConserved(s);
    assert s.flushed == s.sinks;
  }

  ghost function FlushesOf(steps: seq<Step>, i: int): nat {
    if steps == [] then 0 else (if steps[0] == FlushOne(i) then 1 else 0) + FlushesOf(steps[1..], i)
  }

  /** While the producer is flushing, the sinks it has done are those with a flush. */
  lemma {:induction false} FlushesCounted(s: State, steps: seq<Step>, i: int)
    requires s.producer.Flushing? && LegalRun(s, steps) && EndFlush !in steps
    ensures Run(s, steps).producer.Flushing? && |Run(s, steps).sinks| == |s.sinks|
    ensures s.producer.done <= Run(s, steps).producer.done
    ensures FlushesOf(steps, i) == if i in Run(s, steps).producer.done && i !in s.producer.done then 1 else 0
    ensures FlushesOf(steps, i) > 0 ==> 0 <= i < |s.sinks|
    decreases |steps|
  {
    if steps != [] {
      assert steps[0] != EndFlush;
      FlushesCounted(Next(s, steps[0]), steps[1..], i);
    }
  }

  /** Between the end of the wait and the return of Flush each downstream sink is flushed exactly once. */
  lemma FlushedOnce(s: State, steps: seq<Step>, i: int)
    requires Enabled(s, StartFlushing) && LegalRun(Next(s, StartFlushing), steps) && EndFlush !in steps
    requires Enabled(Run(Next(s, StartFlushing), steps), EndFlush)
    ensures FlushesOf(steps, i) == if 0 <= i < |s.sinks| then 1 else 0
  {
    FlushesCounted(Next(s, StartFlushing), steps, i);
  }

  // A flushing producer returns.

  ghost predicate FlushesOnly(steps: seq<Step>) {
    forall k :: 0 <= k < |steps| ==> steps[k].FlushOne?
  }

  ghost predicate AllFlushed(s: State) {
    forall i :: !Enabled(s, FlushOne(i))
  }

  lemma {:induction false} FlushesRun(s: State, steps: seq<Step>)
    requires Inv(s) && s.producer.Flushing? && LegalRun(s, steps) && FlushesOnly(steps)
    ensures Inv(Run(s, steps)) && Run(s, steps).producer.Flushing? && |Run(s, steps).sinks| == |s.sinks|
    ensures |Run(s, steps).producer.done| == |s.producer.done| + |steps|
    decreases |steps|
  {
    if steps != [] {
      ProducerStepKeepsInv(s, steps[0]);
      FlushesRun(Next(s, steps[0]), steps[1..]);
    }
  }

  lemma FlushingProgresses(s: State)
    requires Inv(s) && s.producer.Flushing?
    ensures AllFlushed(s) <==> Enabled(s, EndFlush)
  {
    if AllFlushed(s) {
      forall i | 0 <= i < |s.sinks|
        ensures i in s.producer.done
      {
        assert !Enabled(s, FlushOne(i));
      }
    }
  }

  lemma DoneBounded(s: State)
    requires Inv(s) && s.producer.Flushing?
    ensures |s.producer.done| <= |s.sinks|
  {
    BelowCount(|s.sinks|);
    forall i <- s.producer.done
      ensures i in Below(|s.sinks|)
    {
    }
    SubsetCount(s.producer.done, Below(|s.sinks|));
  }

  /** From every reachable state of a flushing producer, no run of downstream flushes is longer than there are
      sinks left, and every one that cannot go on lets Flush return. */
  lemma FlushingEnds(s: State, concurrency: nat, steps: seq<Step>)
    requires Reachable(s, concurrency) && s.producer.Flushing? && LegalRun(s, steps) && FlushesOnly(steps)
    ensures |s.producer.done| + |steps| <= |s.sinks|
    ensures AllFlushed(Run(s, steps)) <==> Enabled(Run(s, steps), EndFlush)
  {
    ReachableInv(s, concurrency);
    FlushesRun(s, steps);
    DoneBounded(Run(s, steps));
    FlushingProgresses(Run(s, steps));
  }
}
