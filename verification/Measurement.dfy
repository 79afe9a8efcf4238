/** Interval and cumulative measurement: worker threads record samples while ticks detach the interval map. */
module Measurement {
  import opened Aggregates

  const ERR := "_ERR"

  /** What a worker measures: an operation and whether it failed.  The maps know it by its name only. */
  datatype Sample = Sample(op: string, failed: bool) {
    function Name(): string {
      if failed then op + ERR else op
    }

    /** The name that is created along with it. */
    function PairName(): string {
      if failed then op else op + ERR
    }
  }

  predicate HasSuffix(s: string) {
    |s| >= 4 && s[|s| - 4..] == ERR
  }

  function SplitOpStatus(name: string): Sample {
    if HasSuffix(name) then Sample(name[..|name| - 4], true) else Sample(name, false)
  }

  /** A name is split into its sample exactly for failures and for operations that do not end in the suffix. */
  lemma SplitInvertsName(k: Sample)
    ensures SplitOpStatus(k.Name()) == k <==> k.failed || !HasSuffix(k.op)
  {
    if k.failed {
      assert k.Name()[..|k.Name()| - 4] == k.op;
      assert k.Name()[|k.Name()| - 4..] == ERR;
    } else if HasSuffix(k.op) {
      assert SplitOpStatus(k.Name()).failed;
    }
  }

  /** A histogram object, known by the map and the name it was created for. */
  datatype Hist = Interval(tick: nat, name: string) | Total(name: string)

  /** Where a worker is inside `measure`: the interval map comes first. */
  datatype Worker =
    | Idle
    | LookingUp(sample: Sample, current: bool)              // before the read-locked lookup
    | Missed(sample: Sample, current: bool)                 // before the write-locked creation
    | Recording(sample: Sample, current: bool, hist: Hist)  // before Histogram.Measure

  datatype Window = Window(start: int, end: int)

  datatype State = State(
    workers: seq<Worker>,
    cur: map<string, Hist>,
    sum: map<string, Hist>,
    hists: map<Hist, int>,     // samples of every histogram ever created
    curStart: int,
    windows: seq<Window>,      // of the ticks taken so far
    done: seq<Sample>)         // history: the measurements that are complete

  datatype Step =
    | Measure(i: int, sample: Sample)
    | LookUp(i: int)
    | Create(i: int)
    | Record(i: int)
    | Tick(now: int)

  predicate Enabled(s: State, step: Step) {
    match step
    case Measure(i, _) => 0 <= i < |s.workers| && s.workers[i].Idle?
    case LookUp(i) => 0 <= i < |s.workers| && s.workers[i].LookingUp?
    case Create(i) => 0 <= i < |s.workers| && s.workers[i].Missed?
    case Record(i) => 0 <= i < |s.workers| && s.workers[i].Recording? && s.workers[i].hist in s.hists
    case Tick(_) => true
  }

  function MapOf(s: State, current: bool): map<string, Hist> {
    if current then s.cur else s.sum
  }

  /** The histogram a creation makes now. */
  function NewHist(s: State, current: bool, name: string): Hist {
    if current then Interval(|s.windows|, name) else Total(name)
  }

  function WithHist(s: State, current: bool, name: string): State {
    if name in MapOf(s, current) then s
    else
      var h := NewHist(s, current, name);
      var created := s.(hists := s.hists[h := 0]);
      if current then created.(cur := s.cur[name := h]) else created.(sum := s.sum[name := h])
  }

  /** Check again, create the histogram, and its twin when that is missing too. */
  function Created(s: State, current: bool, k: Sample): (r: State)
    ensures k.Name() in MapOf(r, current)
  {
    if k.Name() in MapOf(s, current) then s else WithHist(WithHist(s, current, k.Name()), current, k.PairName())
  }

  function Next(s: State, step: Step): State
    requires Enabled(s, step)
  {
    match step
    case Measure(i, sample) => s.(workers := s.workers[i := LookingUp(sample, true)])
    case LookUp(i) =>
      var w := s.workers[i];
      var m, name := MapOf(s, w.current), w.sample.Name();
      s.(workers := s.workers[i := if name in m then Recording(w.sample, w.current, m[name])
        else Missed(w.sample, w.current)])
    case Create(i) =>
      var w := s.workers[i];
      var after := Created(s, w.current, w.sample);
      after.(workers := s.workers[i := Recording(w.sample, w.current, MapOf(after, w.current)[w.sample.Name()])])
    case Record(i) =>
      var w := s.workers[i];
      s.(hists := s.hists[w.hist := s.hists[w.hist] + 1],
         workers := s.workers[i := if w.current then LookingUp(w.sample, false) else Idle],
         done := if w.current then s.done else s.done + [w.sample])
    case Tick(now) =>
      var next := map n <- s.sum :: Interval(|s.windows| + 1, n);
      s.(windows := s.windows + [Window(s.curStart, now)], curStart := now,
         cur := next, hists := s.hists + map h <- next.Values :: 0)
  }

  function Initial(workers: nat, startTime: int): State {
    State(seq(workers, i => Idle), map[], map[], map[], startTime, [], [])
  }

  // The invariant.

  /** Every name of a map was created for an operation of the set, together with the other name of that operation. */
  ghost predicate Twinned(m: map<string, Hist>, ops: set<string>) {
    forall n {:trigger HasTwin(m, ops, n)} :: n in m ==> HasTwin(m, ops, n)
  }

  ghost predicate HasTwin(m: map<string, Hist>, ops: set<string>, n: string) {
    exists op <- ops :: (n == op || n == op + ERR) && BothIn(m, op)
  }

  predicate BothIn(m: map<string, Hist>, op: string) {
    op in m && op + ERR in m
  }

  /** Map entries are histograms made for their name, and the newest of their kind. */
  ghost predicate Linked(s: State) {
    && (forall n <- s.cur :: s.cur[n] == Interval(|s.windows|, n) && s.cur[n] in s.hists)
    && (forall n <- s.sum :: s.sum[n] == Total(n) && s.sum[n] in s.hists)
    && (forall h <- s.hists :: h.Interval? ==> h.tick <= |s.windows| && (h.tick == |s.windows| ==> h.name in s.cur))
    && (forall h <- s.hists :: h.Total? ==> h.name in s.sum)
  }

  /** Workers measure operations of the set and hold histograms of their sample's name. */
  ghost predicate Workers(s: State, ops: set<string>) {
    && (forall i :: 0 <= i < |s.workers| && !s.workers[i].Idle? ==> s.workers[i].sample.op in ops)
    && (forall i :: 0 <= i < |s.workers| && s.workers[i].Recording? ==> Holds(s, s.workers[i]))
  }

  predicate Holds(s: State, w: Worker)
    requires w.Recording?
  {
    w.hist in s.hists && w.hist.name == w.sample.Name() && w.hist.Interval? == w.current
  }

  /** The tick windows follow each other without a gap, and the last one ends where the current one starts. */
  ghost predicate Contiguous(windows: seq<Window>, startTime: int, curStart: int) {
    && (forall j :: 0 <= j < |windows| - 1 ==> windows[j].end == windows[j + 1].start)
    && if windows == [] then curStart == startTime
       else windows[0].start == startTime && windows[|windows| - 1].end == curStart
  }

  function IntervalOf(name: string): (Hist, int) -> int {
    (h: Hist, samples: int) => if h.Interval? && h.name == name then samples else 0
  }

  function TotalOf(name: string): (Hist, int) -> int {
    (h: Hist, samples: int) => if h.Total? && h.name == name then samples else 0
  }

  /** Workers that have recorded a sample of the name in an interval and not yet in the total. */
  ghost function HalfDone(workers: seq<Worker>, name: string): int {
    if workers == [] then 0
    else HalfDone(workers[..|workers| - 1], name) + Half(workers[|workers| - 1], name)
  }

  function Half(w: Worker, name: string): int {
    if !w.Idle? && !w.current && w.sample.Name() == name then 1 else 0
  }

  /** The completed measurements of a name. */
  ghost function CountNamed(done: seq<Sample>, name: string): int {
    if done == [] then 0
    else CountNamed(done[..|done| - 1], name) + if done[|done| - 1].Name() == name then 1 else 0
  }

  /** The completed measurements are in the totals, and with those half done in the intervals ever taken. */
  ghost predicate Conserved(s: State, name: string) {
    && Sum(s.hists, TotalOf(name)) == CountNamed(s.done, name)
    && Sum(s.hists, IntervalOf(name)) == CountNamed(s.done, name) + HalfDone(s.workers, name)
  }

  ghost predicate Maps(s: State, ops: set<string>) {
    Twinned(s.cur, ops) && Twinned(s.sum, ops) && Linked(s)
  }

  ghost predicate Inv(s: State, startTime: int, ops: set<string>) {
    && Maps(s, ops) && Workers(s, ops) && Contiguous(s.windows, startTime, s.curStart)
    && (forall k <- s.done :: k.op in ops)
    && forall name :: Conserved(s, name)
  }

  lemma {:induction false} HalfDoneUpdate(workers: seq<Worker>, i: int, w: Worker, name: string)
    requires 0 <= i < |workers|
    ensures HalfDone(workers[i := w], name) == HalfDone(workers, name) - Half(workers[i], name) + Half(w, name)
  {
    var n := |workers| - 1;
    if i < n {
      HalfDoneUpdate(workers[..n], i, w, name);
      assert workers[i := w][..n] == workers[..n][i := w];
    } else {
      assert workers[i := w][..n] == workers[..n];
    }
  }

  lemma {:induction false} HalfDoneIdle(workers: seq<Worker>, name: string)
    requires forall i :: 0 <= i < |workers| ==> workers[i].Idle?
    ensures HalfDone(workers, name) == 0
  {
    if workers != [] {
      HalfDoneIdle(workers[..|workers| - 1], name);
    }
  }

  /** Histograms without samples do not change a total. */
  lemma {:induction false} AddEmpty(hists: map<Hist, int>, more: map<Hist, int>, f: (Hist, int) -> int)
    requires hists.Keys <= more.Keys
    requires forall h <- more :: if h in hists then more[h] == hists[h] else f(h, more[h]) == 0
    ensures Sum(more, f) == Sum(hists, f)
    decreases |more|
  {
    if h :| h in more && h !in hists {
      SumRemove(more, f, h);
      AddEmpty(hists, more - {h}, f);
    } else {
      assert more == hists;
    }
  }

  lemma WithHistKeepsSums(s: State, current: bool, created: string, name: string)
    requires created in MapOf(s, current) || NewHist(s, current, created) !in s.hists
    ensures Sum(WithHist(s, current, created).hists, IntervalOf(name)) == Sum(s.hists, IntervalOf(name))
    ensures Sum(WithHist(s, current, created).hists, TotalOf(name)) == Sum(s.hists, TotalOf(name))
  {
    if created !in MapOf(s, current) {
      SumInsert(s.hists, IntervalOf(name), NewHist(s, current, created), 0);
      SumInsert(s.hists, TotalOf(name), NewHist(s, current, created), 0);
    }
  }

  lemma WithHistAdds(s: State, current: bool, name: string)
    ensures MapOf(WithHist(s, current, name), current).Keys == MapOf(s, current).Keys + {name}
    ensures MapOf(WithHist(s, current, name), !current) == MapOf(s, !current)
    ensures s.hists.Keys <= WithHist(s, current, name).hists.Keys
    ensures WithHist(s, current, name).done == s.done
  {
  }

  lemma WithHistKeepsLinked(s: State, current: bool, name: string)
    requires Linked(s)
    ensures Linked(WithHist(s, current, name))
  {
    if name !in MapOf(s, current) {
      assert NewHist(s, current, name).name == name;
    }
  }

  /** Creating both names of an operation keeps every name with its twin. */
  lemma TwinsAdded(before: map<string, Hist>, after: map<string, Hist>, op: string, ops: set<string>)
    requires Twinned(before, ops) && op in ops && after.Keys == before.Keys + {op, op + ERR}
    ensures Twinned(after, ops)
  {
    forall n | n in after
      ensures HasTwin(after, ops, n)
    {
      if n in before {
        assert HasTwin(before, ops, n);
        var x :| x in ops && (n == x || n == x + ERR) && BothIn(before, x);
        assert BothIn(after, x);
      } else {
        assert BothIn(after, op);
      }
    }
  }

  lemma TwinnedByKeys(before: map<string, Hist>, after: map<string, Hist>, ops: set<string>)
    requires Twinned(before, ops) && after.Keys == before.Keys
    ensures Twinned(after, ops)
  {
    forall n | n in after
      ensures HasTwin(after, ops, n)
    {
      assert HasTwin(before, ops, n);
      var x :| x in ops && (n == x || n == x + ERR) && BothIn(before, x);
      assert BothIn(after, x);
    }
  }

  lemma CreatedAdds(s: State, current: bool, k: Sample)
    ensures s.hists.Keys <= Created(s, current, k).hists.Keys
    ensures MapOf(Created(s, current, k), !current) == MapOf(s, !current)
    ensures MapOf(Created(s, current, k), current).Keys
         == MapOf(s, current).Keys + if k.Name() in MapOf(s, current) then {} else {k.op, k.op + ERR}
    ensures Created(s, current, k).workers == s.workers && Created(s, current, k).done == s.done
    ensures Created(s, current, k).windows == s.windows && Created(s, current, k).curStart == s.curStart
  {
    if k.Name() !in MapOf(s, current) {
      WithHistAdds(s, current, k.Name());
      WithHistAdds(WithHist(s, current, k.Name()), current, k.PairName());
      assert {k.Name()} + {k.PairName()} == {k.op, k.op + ERR};
    }
  }

  lemma CreatedLinked(s: State, current: bool, k: Sample)
    requires Linked(s)
    ensures Linked(Created(s, current, k))
  {
    if k.Name() !in MapOf(s, current) {
      WithHistKeepsLinked(s, current, k.Name());
      WithHistKeepsLinked(WithHist(s, current, k.Name()), current, k.PairName());
    }
  }

  lemma CreatedTwinned(s: State, current: bool, k: Sample, ops: set<string>)
    requires Twinned(MapOf(s, current), ops) && k.op in ops
    ensures Twinned(MapOf(Created(s, current, k), current), ops)
  {
    CreatedAdds(s, current, k);
    if k.Name() !in MapOf(s, current) {
      TwinsAdded(MapOf(s, current), MapOf(Created(s, current, k), current), k.op, ops);
    }
  }

  lemma CreateKeepsMaps(s: State, i: int, ops: set<string>)
    requires Maps(s, ops) && Workers(s, ops) && Enabled(s, Create(i))
    ensures Maps(Next(s, Create(i)), ops)
    ensures s.hists.Keys <= Next(s, Create(i)).hists.Keys
  {
    var w := s.workers[i];
    CreatedAdds(s, w.current, w.sample);
    CreatedLinked(s, w.current, w.sample);
    CreatedTwinned(s, w.current, w.sample, ops);
  }

  lemma CreateKeepsSums(s: State, i: int, ops: set<string>, name: string)
    requires Maps(s, ops) && Enabled(s, Create(i))
    ensures Sum(Next(s, Create(i)).hists, IntervalOf(name)) == Sum(s.hists, IntervalOf(name))
    ensures Sum(Next(s, Create(i)).hists, TotalOf(name)) == Sum(s.hists, TotalOf(name))
    ensures Next(s, Create(i)).done == s.done
  {
    var w := s.workers[i];
    if w.sample.Name() !in MapOf(s, w.current) {
      WithHistKeepsSums(s, w.current, w.sample.Name(), name);
      WithHistKeepsLinked(s, w.current, w.sample.Name());
      WithHistAdds(s, w.current, w.sample.Name());
      WithHistKeepsSums(WithHist(s, w.current, w.sample.Name()), w.current, w.sample.PairName(), name);
    }
  }

  lemma CreateKeepsWorkers(s: State, i: int, ops: set<string>)
    requires Maps(s, ops) && Workers(s, ops) && Enabled(s, Create(i))
    ensures Workers(Next(s, Create(i)), ops)
  {
    CreateKeepsMaps(s, i, ops);
    CreatedAdds(s, s.workers[i].current, s.workers[i].sample);
    var after := Next(s, Create(i));
    assert Holds(after, after.workers[i]);
    forall j | 0 <= j < |s.workers| && j != i && s.workers[j].Recording?
      ensures Holds(after, s.workers[j])
    {
      assert Holds(s, s.workers[j]);
    }
  }

  lemma CreateConserves(s: State, i: int, ops: set<string>, name: string)
    requires Maps(s, ops) && Enabled(s, Create(i)) && Conserved(s, name)
    ensures Conserved(Next(s, Create(i)), name)
  {
    CreateKeepsSums(s, i, ops, name);
    HalfDoneUpdate(s.workers, i, Next(s, Create(i)).workers[i], name);
  }

  lemma CreateKeepsInv(s: State, i: int, startTime: int, ops: set<string>)
    requires Inv(s, startTime, ops) && Enabled(s, Create(i))
    ensures Inv(Next(s, Create(i)), startTime, ops)
  {
    CreateKeepsMaps(s, i, ops);
    CreateKeepsWorkers(s, i, ops);
    CreateKeepsSums(s, i, ops, "");
    forall name
      ensures Conserved(Next(s, Create(i)), name)
    {
      CreateConserves(s, i, ops, name);
    }
  }

  lemma RecordConserves(s: State, i: int, ops: set<string>, name: string)
    requires Workers(s, ops) && Enabled(s, Record(i)) && Conserved(s, name)
    ensures Conserved(Next(s, Record(i)), name)
  {
    var w := s.workers[i];
    assert Holds(s, w);
    SumUpdate(s.hists, IntervalOf(name), w.hist, s.hists[w.hist] + 1);
    SumUpdate(s.hists, TotalOf(name), w.hist, s.hists[w.hist] + 1);
    HalfDoneUpdate(s.workers, i, Next(s, Record(i)).workers[i], name);
    assert (s.done + [w.sample])[..|s.done|] == s.done;
  }

  lemma RecordKeepsMaps(s: State, i: int, ops: set<string>)
    requires Maps(s, ops) && Workers(s, ops) && Enabled(s, Record(i))
    ensures Maps(Next(s, Record(i)), ops) && Workers(Next(s, Record(i)), ops)
  {
    var after := Next(s, Record(i));
    assert after.hists.Keys == s.hists.Keys;
    forall j | 0 <= j < |s.workers| && j != i && s.workers[j].Recording?
      ensures Holds(after, s.workers[j])
    {
      assert Holds(s, s.workers[j]);
    }
  }

  lemma RecordKeepsInv(s: State, i: int, startTime: int, ops: set<string>)
    requires Inv(s, startTime, ops) && Enabled(s, Record(i))
    ensures Inv(Next(s, Record(i)), startTime, ops)
  {
    RecordKeepsMaps(s, i, ops);
    forall name
      ensures Conserved(Next(s, Record(i)), name)
    {
      RecordConserves(s, i, ops, name);
    }
  }

  lemma TickKeepsMaps(s: State, now: int, ops: set<string>)
    requires Maps(s, ops) && Workers(s, ops)
    ensures Maps(Next(s, Tick(now)), ops) && Workers(Next(s, Tick(now)), ops)
    ensures Next(s, Tick(now)).cur.Keys == s.sum.Keys
    ensures s.hists.Keys <= Next(s, Tick(now)).hists.Keys
  {
    var after := Next(s, Tick(now));
    var next := map h <- after.cur.Values :: 0;
    assert after.hists == s.hists + next && after.cur.Keys == s.sum.Keys;
    assert forall n <- after.cur :: after.cur[n] in after.cur.Values;
    forall h | h in next
      ensures h.Interval? && h.tick == |s.windows| + 1 && h.name in after.cur
    {
    }
    TwinnedByKeys(s.sum, after.cur, ops);
    forall j | 0 <= j < |s.workers| && s.workers[j].Recording?
      ensures Holds(after, s.workers[j])
    {
      assert Holds(s, s.workers[j]);
    }
  }

  lemma TickConserves(s: State, now: int, ops: set<string>, name: string)
    requires Maps(s, ops) && Conserved(s, name)
    ensures Conserved(Next(s, Tick(now)), name)
  {
    var after := Next(s, Tick(now));
    var next := map h <- after.cur.Values :: 0;
    assert after.hists == s.hists + next;
    forall h | h in next
      ensures h !in s.hists
    {
      assert h.Interval? && h.tick == |s.windows| + 1;
    }
    AddEmpty(s.hists, after.hists, IntervalOf(name));
    AddEmpty(s.hists, after.hists, TotalOf(name));
  }

  lemma TickKeepsInv(s: State, now: int, startTime: int, ops: set<string>)
    requires Inv(s, startTime, ops)
    ensures Inv(Next(s, Tick(now)), startTime, ops)
    ensures Next(s, Tick(now)).cur.Keys == s.sum.Keys
  {
    TickKeepsMaps(s, now, ops);
    forall name
      ensures Conserved(Next(s, Tick(now)), name)
    {
      TickConserves(s, now, ops, name);
    }
  }

  lemma MoveKeepsInv(s: State, step: Step, startTime: int, ops: set<string>)
    requires Inv(s, startTime, ops) && Enabled(s, step) && (step.Measure? || step.LookUp?)
    requires step.Measure? ==> step.sample.op in ops
    ensures Inv(Next(s, step), startTime, ops)
  {
    var after := Next(s, step);
    forall name
      ensures Conserved(after, name)
    {
      HalfDoneUpdate(s.workers, step.i, after.workers[step.i], name);
      assert Conserved(s, name);
    }
    forall j | 0 <= j < |s.workers| && after.workers[j].Recording?
      ensures Holds(after, after.workers[j])
    {
      assert j != step.i ==> Holds(s, s.workers[j]);
    }
  }

  // Runs.

  ghost predicate LegalRun(s: State, steps: seq<Step>)
    decreases |steps|
  {
    steps != [] ==> Enabled(s, steps[0]) && LegalRun(Next(s, steps[0]), steps[1..])
  }

  ghost function Run(s: State, steps: seq<Step>): State
    requires LegalRun(s, steps)
    decreases |steps|
  {
    if steps == [] then s else Run(Next(s, steps[0]), steps[1..])
  }

  /** The run measures operations of the set only. */
  ghost predicate Over(steps: seq<Step>, ops: set<string>) {
    forall i :: 0 <= i < |steps| && steps[i].Measure? ==> steps[i].sample.op in ops
  }

  lemma StepKeepsInv(s: State, step: Step, startTime: int, ops: set<string>)
    requires Inv(s, startTime, ops) && Enabled(s, step) && (step.Measure? ==> step.sample.op in ops)
    ensures Inv(Next(s, step), startTime, ops)
  {
    match step
    case Create(i) => CreateKeepsInv(s, i, startTime, ops);
    case Record(i) => RecordKeepsInv(s, i, startTime, ops);
    case Tick(now) => TickKeepsInv(s, now, startTime, ops);
    case _ => MoveKeepsInv(s, step, startTime, ops);
  }

  lemma {:induction false} RunKeepsInv(s: State, steps: seq<Step>, startTime: int, ops: set<string>)
    requires Inv(s, startTime, ops) && LegalRun(s, steps) && Over(steps, ops)
    ensures Inv(Run(s, steps), startTime, ops)
    decreases |steps|
  {
    if steps != [] {
      StepKeepsInv(s, steps[0], startTime, ops);
      RunKeepsInv(Next(s, steps[0]), steps[1..], startTime, ops);
    }
  }

  lemma InitialInv(workers: nat, startTime: int, ops: set<string>)
    ensures Inv(Initial(workers, startTime), startTime, ops)
  {
    forall name
      ensures Conserved(Initial(workers, startTime), name)
    {
      HalfDoneIdle(Initial(workers, startTime).workers, name);
    }
  }

  /** Over any interleaving, windows are contiguous, and once no worker is inside a measurement both the samples
      of all intervals of a name and its cumulative samples are the completed measurements of that name. */
  lemma SamplesConserved(workers: nat, startTime: int, steps: seq<Step>, ops: set<string>, name: string)
    requires LegalRun(Initial(workers, startTime), steps) && Over(steps, ops)
    ensures var s := Run(Initial(workers, startTime), steps);
      && Contiguous(s.windows, startTime, s.curStart)
      && ((forall i :: 0 <= i < |s.workers| ==> s.workers[i].Idle?) ==>
            && Sum(s.hists, IntervalOf(name)) == CountNamed(s.done, name)
            && if name in s.sum then s.sum[name] in s.hists && s.hists[s.sum[name]] == CountNamed(s.done, name)
               else CountNamed(s.done, name) == 0)
  {
    InitialInv(workers, startTime, ops);
    RunKeepsInv(Initial(workers, startTime), steps, startTime, ops);
    var s := Run(Initial(workers, startTime), steps);
    assert Conserved(s, name);
    TotalIsOne(s, name);
    if forall i :: 0 <= i < |s.workers| ==> s.workers[i].Idle? {
      HalfDoneIdle(s.workers, name);
    }
  }

  /** There is one cumulative histogram per name. */
  lemma TotalIsOne(s: State, name: string)
    requires Linked(s)
    ensures Sum(s.hists, TotalOf(name)) == if name in s.sum then s.hists[s.sum[name]] else 0
  {
    if name in s.sum {
      SumRemove(s.hists, TotalOf(name), s.sum[name]);
      SumZero(s.hists - {s.sum[name]}, TotalOf(name));
    } else {
      SumZero(s.hists, TotalOf(name));
    }
  }

  // Operations named like the failures of others.

  /** No operation is named like the failures of another. */
  ghost predicate NoClash(ops: set<string>) {
    forall op <- ops :: op + ERR !in ops
  }

  lemma SameOp(a: string, b: string)
    requires a + ERR == b + ERR
    ensures a == b
  {
    assert a == (a + ERR)[..|a + ERR| - 4] && b == (b + ERR)[..|b + ERR| - 4];
  }

  ghost predicate Distinguishes(ops: set<string>) {
    forall a: Sample, b: Sample :: a.op in ops && b.op in ops && a.Name() == b.Name() ==> a == b
  }

  /** Different samples have different names exactly when no operation is named like the failures of another. */
  lemma NamesDistinctIff(ops: set<string>)
    ensures Distinguishes(ops) <==> NoClash(ops)
  {
    if NoClash(ops) {
      forall a: Sample, b: Sample | a.op in ops && b.op in ops && a.Name() == b.Name()
        ensures a == b
      {
        if a.failed && b.failed {
          SameOp(a.op, b.op);
        }
      }
    } else {
      var op :| op in ops && op + ERR in ops;
      assert Sample(op, true).Name() == Sample(op + ERR, false).Name();
    }
  }

  ghost function Count(done: seq<Sample>, k: Sample): int {
    if done == [] then 0 else Count(done[..|done| - 1], k) + if done[|done| - 1] == k then 1 else 0
  }

  /** Without such operations, a name counts the measurements of one sample. */
  lemma {:induction false} CountedApart(done: seq<Sample>, ops: set<string>, k: Sample)
    requires NoClash(ops) && k.op in ops && forall x <- done :: x.op in ops
    ensures CountNamed(done, k.Name()) == Count(done, k)
  {
    NamesDistinctIff(ops);
    if done != [] {
      assert done[|done| - 1] in done;
      CountedApart(done[..|done| - 1], ops, k);
    }
  }

  ghost predicate Together(m: map<string, Hist>, op: string) {
    op in m <==> op + ERR in m
  }

  lemma TwinnedTogether(m: map<string, Hist>, ops: set<string>, op: string)
    requires Twinned(m, ops) && NoClash(ops) && op in ops
    ensures Together(m, op)
  {
    if op in m {
      assert HasTwin(m, ops, op);
      var x :| x in ops && (op == x || op == x + ERR) && BothIn(m, x);
    }
    if op + ERR in m {
      assert HasTwin(m, ops, op + ERR);
      var x :| x in ops && (op + ERR == x || op + ERR == x + ERR) && BothIn(m, x);
      if op + ERR == x + ERR {
        SameOp(op, x);
      }
    }
  }

  ghost predicate MeasuredIn(steps: seq<Step>, op: string) {
    exists i :: 0 <= i < |steps| && steps[i].Measure? && steps[i].sample.op == op
  }

  /** Every run over the operations keeps the two names of each measured one together, in both maps. */
  ghost predicate KeepsTogether(workers: nat, startTime: int, ops: set<string>) {
    forall steps, op ::
      LegalRun(Initial(workers, startTime), steps) && Over(steps, ops) && MeasuredIn(steps, op) ==>
        && Together(Run(Initial(workers, startTime), steps).cur, op)
        && Together(Run(Initial(workers, startTime), steps).sum, op)
  }

  lemma {:induction false} RunsCompose(s: State, a: seq<Step>, b: seq<Step>)
    requires LegalRun(s, a) && LegalRun(Run(s, a), b)
    ensures LegalRun(s, a + b) && Run(s, a + b) == Run(Run(s, a), b)
    decreases |a|
  {
    if a == [] {
      assert a + b == b;
    } else {
      assert (a + b)[1..] == a[1..] + b;
      RunsCompose(Next(s, a[0]), a[1..], b);
    }
  }

  /** Steps of worker 0 on a name that is there, on one that was missed, and on a new one. */
  const FOUND := [LookUp(0), Record(0)]
  const MISSED := [Create(0), Record(0)]
  const NEW := [LookUp(0), Create(0), Record(0)]

  lemma OneStep(s: State, step: Step)
    requires Enabled(s, step)
    ensures LegalRun(s, [step]) && Run(s, [step]) == Next(s, step)
  {
    assert [step][1..] == [];
  }

  lemma OneMoreStep(s: State, steps: seq<Step>, step: Step)
    requires LegalRun(s, steps) && Enabled(Run(s, steps), step)
    ensures LegalRun(s, steps + [step]) && Run(s, steps + [step]) == Next(Run(s, steps), step)
  {
    OneStep(Run(s, steps), step);
    RunsCompose(s, steps, [step]);
  }

  /** The names a map gains when a sample is looked up in it. */
  function Gained(m: map<string, Hist>, k: Sample): set<string> {
    if k.Name() in m then {} else {k.op, k.op + ERR}
  }

  /** Worker 0 looks a name up in one map and records a sample. */
  ghost predicate Recorded(s: State, r: State, k: Sample, current: bool)
    requires s.workers != []
  {
    && r.workers == s.workers[0 := if current then LookingUp(k, false) else Idle]
    && MapOf(r, current).Keys == MapOf(s, current).Keys + Gained(MapOf(s, current), k)
    && MapOf(r, !current) == MapOf(s, !current)
    && r.done == if current then s.done else s.done + [k]
  }

  lemma FinishRecording(s: State, k: Sample, current: bool)
    requires Linked(s) && s.workers != [] && k.Name() in MapOf(s, current)
    requires s.workers[0] == Recording(k, current, MapOf(s, current)[k.Name()])
    ensures Enabled(s, Record(0)) && Linked(Next(s, Record(0)))
    ensures Recorded(s, Next(s, Record(0)), k, current)
  {
    assert Next(s, Record(0)).hists.Keys == s.hists.Keys;
  }

  lemma RecordFound(s: State, k: Sample, current: bool)
    requires Linked(s) && s.workers != [] && s.workers[0] == LookingUp(k, current) && k.Name() in MapOf(s, current)
    ensures LegalRun(s, FOUND) && Recorded(s, Run(s, FOUND), k, current) && Linked(Run(s, FOUND))
  {
    OneStep(s, LookUp(0));
    FinishRecording(Next(s, LookUp(0)), k, current);
    OneMoreStep(s, [LookUp(0)], Record(0));
    assert FOUND == [LookUp(0)] + [Record(0)];
  }

  /** A creation has given worker 0 the histogram of its name. */
  ghost predicate Readied(s: State, r: State, k: Sample, current: bool)
    requires s.workers != []
  {
    && Linked(r) && r.done == s.done && MapOf(r, !current) == MapOf(s, !current)
    && MapOf(r, current).Keys == MapOf(s, current).Keys + Gained(MapOf(s, current), k)
    && k.Name() in MapOf(r, current)
    && r.workers == s.workers[0 := Recording(k, current, MapOf(r, current)[k.Name()])]
  }

  lemma CreateNow(s: State, k: Sample, current: bool)
    requires Linked(s) && s.workers != [] && s.workers[0] == Missed(k, current)
    ensures Readied(s, Next(s, Create(0)), k, current)
  {
    CreatedAdds(s, current, k);
    CreatedLinked(s, current, k);
  }

  lemma ReadiedRecorded(s: State, a: State, r: State, k: Sample, current: bool)
    requires s.workers != [] && Readied(s, a, k, current) && Recorded(a, r, k, current)
    ensures Recorded(s, r, k, current)
  {
  }

  /** From the missed lookup on. */
  lemma RecordMissed(s: State, k: Sample, current: bool)
    requires Linked(s) && s.workers != [] && s.workers[0] == Missed(k, current)
    ensures LegalRun(s, MISSED) && Recorded(s, Run(s, MISSED), k, current) && Linked(Run(s, MISSED))
  {
    CreateNow(s, k, current);
    OneStep(s, Create(0));
    var a := Next(s, Create(0));
    FinishRecording(a, k, current);
    ReadiedRecorded(s, a, Next(a, Record(0)), k, current);
    OneMoreStep(s, [Create(0)], Record(0));
    assert MISSED == [Create(0)] + [Record(0)];
  }

  lemma LookUpRecorded(s: State, a: State, r: State, k: Sample, current: bool)
    requires s.workers != [] && a == s.(workers := s.workers[0 := Missed(k, current)]) && Recorded(a, r, k, current)
    ensures Recorded(s, r, k, current)
  {
  }

  lemma RecordNew(s: State, k: Sample, current: bool)
    requires Linked(s) && s.workers != [] && s.workers[0] == LookingUp(k, current) && k.Name() !in MapOf(s, current)
    ensures LegalRun(s, NEW) && Recorded(s, Run(s, NEW), k, current) && Linked(Run(s, NEW))
  {
    var a := s.(workers := s.workers[0 := Missed(k, current)]);
    assert a == Next(s, LookUp(0)) && Linked(a);
    OneStep(s, LookUp(0));
    RecordMissed(a, k, current);
    RunsCompose(s, [LookUp(0)], MISSED);
    assert NEW == [LookUp(0)] + MISSED;
    LookUpRecorded(s, a, Run(a, MISSED), k, current);
  }

  lemma RecordOne(s: State, k: Sample, current: bool) returns (steps: seq<Step>)
    requires Linked(s) && s.workers != [] && s.workers[0] == LookingUp(k, current)
    ensures LegalRun(s, steps) && Recorded(s, Run(s, steps), k, current) && Linked(Run(s, steps))
    ensures forall i :: 0 <= i < |steps| ==> !steps[i].Measure?
  {
    if k.Name() in MapOf(s, current) {
      RecordFound(s, k, current);
      steps := FOUND;
    } else {
      RecordNew(s, k, current);
      steps := NEW;
    }
  }

  /** A measurement from beginning to end. */
  ghost predicate Measured(s: State, r: State, k: Sample) {
    && r.workers == s.workers && r.done == s.done + [k]
    && r.cur.Keys == s.cur.Keys + Gained(s.cur, k)
    && r.sum.Keys == s.sum.Keys + Gained(s.sum, k)
  }

  /** The only measurement of the steps. */
  ghost predicate MeasuresOnly(steps: seq<Step>, k: Sample) {
    && steps != [] && steps[0] == Measure(0, k)
    && forall i :: 0 < i < |steps| ==> !steps[i].Measure?
  }

  /** Worker 0 measures a sample. */
  lemma MeasureOne(s: State, k: Sample) returns (steps: seq<Step>)
    requires Linked(s) && s.workers != [] && s.workers[0].Idle?
    ensures LegalRun(s, steps) && MeasuresOnly(steps, k)
    ensures Linked(Run(s, steps)) && Measured(s, Run(s, steps), k)
  {
    OneStep(s, Measure(0, k));
    var a := Next(s, Measure(0, k));
    var first := RecordOne(a, k, true);
    var b := Run(a, first);
    var second := RecordOne(b, k, false);
    RunsCompose(s, [Measure(0, k)], first);
    RunsCompose(s, [Measure(0, k)] + first, second);
    steps := [Measure(0, k)] + first + second;
    assert Run(b, second).workers == s.workers;
  }

  lemma BothMeasured(a: seq<Step>, b: seq<Step>, p: Sample, q: Sample)
    requires MeasuresOnly(a, p) && MeasuresOnly(b, q)
    ensures Over(a + b, {p.op, q.op}) && MeasuredIn(a + b, q.op)
  {
    assert (a + b)[|a|] == b[0];
    forall j | 0 <= j < |a + b| && (a + b)[j].Measure?
      ensures (a + b)[j].sample.op in {p.op, q.op}
    {
      assert (a + b)[j] == if j < |a| then a[j] else b[j - |a|];
    }
  }

  lemma MeasureTwo(s: State, p: Sample, q: Sample) returns (steps: seq<Step>, m: State)
    requires Linked(s) && s.workers != [] && s.workers[0].Idle?
    ensures LegalRun(s, steps) && Over(steps, {p.op, q.op}) && MeasuredIn(steps, q.op)
    ensures Measured(s, m, p) && Measured(m, Run(s, steps), q)
  {
    var a := MeasureOne(s, p);
    m := Run(s, a);
    var b := MeasureOne(m, q);
    RunsCompose(s, a, b);
    BothMeasured(a, b, p, q);
    steps := a + b;
  }

  /** After a success of op, a success of the operation named like its failures creates no twin. */
  lemma ClashingRun(workers: nat, startTime: int, op: string) returns (steps: seq<Step>)
    requires workers > 0
    ensures LegalRun(Initial(workers, startTime), steps) && Over(steps, {op, op + ERR}) && MeasuredIn(steps, op + ERR)
    ensures var s := Run(Initial(workers, startTime), steps);
      && s.cur.Keys == s.sum.Keys == {op, op + ERR}
      && s.done == [Sample(op, false), Sample(op + ERR, false)]
  {
    var start, p, q := Initial(workers, startTime), Sample(op, false), Sample(op + ERR, false);
    var m;
    steps, m := MeasureTwo(start, p, q);
    assert start.cur.Keys == {} && start.sum.Keys == {};
    assert Gained(start.cur, p) == {op, op + ERR} == Gained(start.sum, p);
    assert q.Name() in m.cur.Keys && q.Name() in m.sum.Keys;
    assert start.done == [];
  }

  lemma ErrGrows(op: string)
    ensures op + ERR + ERR !in {op, op + ERR}
  {
    assert |op + ERR + ERR| > |op + ERR| > |op|;
  }

  /** Every run keeps the two names of each measured operation together exactly when no operation is named like
      the failures of another. */
  lemma TogetherIff(workers: nat, startTime: int, ops: set<string>)
    requires workers > 0
    ensures KeepsTogether(workers, startTime, ops) <==> NoClash(ops)
  {
    if NoClash(ops) {
      forall steps, op | LegalRun(Initial(workers, startTime), steps) && Over(steps, ops) && MeasuredIn(steps, op)
        ensures Together(Run(Initial(workers, startTime), steps).cur, op)
        ensures Together(Run(Initial(workers, startTime), steps).sum, op)
      {
        InitialInv(workers, startTime, ops);
        RunKeepsInv(Initial(workers, startTime), steps, startTime, ops);
        TwinnedTogether(Run(Initial(workers, startTime), steps).cur, ops, op);
        TwinnedTogether(Run(Initial(workers, startTime), steps).sum, ops, op);
      }
    } else {
      var op :| op in ops && op + ERR in ops;
      var steps := ClashingRun(workers, startTime, op);
      assert Over(steps, ops);
      ErrGrows(op);
      assert op + ERR + ERR !in Run(Initial(workers, startTime), steps).cur.Keys;
      assert !Together(Run(Initial(workers, startTime), steps).cur, op + ERR);
    }
  }

  /** The samples of a name and the failures measured after a clashing run. */
  lemma ClashCounts(op: string)
    ensures CountNamed([Sample(op, false), Sample(op + ERR, false)], op + ERR) == 1
    ensures Count([Sample(op, false), Sample(op + ERR, false)], Sample(op, true)) == 0
  {
    var a, b := Sample(op, false), Sample(op + ERR, false);
    assert |op + ERR| > |op|;
    assert [a, b][..1] == [a] && [a][..0] == [];
    assert CountNamed([a], op + ERR) == 0 && Count([a], Sample(op, true)) == 0;
  }

  /** Two operations q1 and q1_ERR: the second has no twin, and its success is counted as a failure of the first. */
  lemma NamedLikeFailures() returns (steps: seq<Step>)
    ensures LegalRun(Initial(1, 0), steps) && Over(steps, {"q1", "q1_ERR"}) && MeasuredIn(steps, "q1_ERR")
    ensures var s := Run(Initial(1, 0), steps);
      && "q1_ERR_ERR" !in s.cur && "q1_ERR_ERR" !in s.sum
      && Count(s.done, Sample("q1", true)) == 0
      && "q1_ERR" in s.sum && s.sum["q1_ERR"] in s.hists && s.hists[s.sum["q1_ERR"]] == 1
  {
    var op := "q1";
    assert op + ERR == "q1_ERR" && op + ERR + ERR == "q1_ERR_ERR";
    steps := ClashingRun(1, 0, op);
    var s := Run(Initial(1, 0), steps);
    ErrGrows(op);
    ClashCounts(op);
    assert op + ERR in s.sum.Keys;
    ClashTotal(s, steps, op);
  }

  lemma ClashTotal(s: State, steps: seq<Step>, op: string)
    requires LegalRun(Initial(1, 0), steps) && Over(steps, {op, op + ERR}) && s == Run(Initial(1, 0), steps)
    requires op + ERR in s.sum
    ensures s.sum[op + ERR] in s.hists && s.hists[s.sum[op + ERR]] == CountNamed(s.done, op + ERR)
  {
    InitialInv(1, 0, {op, op + ERR});
    RunKeepsInv(Initial(1, 0), steps, 0, {op, op + ERR});
    TotalIsOne(s, op + ERR);
    assert Conserved(s, op + ERR);
  }
}
