/** The batching sink and its retry protocol against a server whose answers may be lost. */
module SqlSink {
  import opened Aggregates

  // Driver errors and their classes.

  /** An error without a server state, a PostgreSQL error, or a MySQL error. */
  datatype Error = Plain | Pg(state: string) | MySql(number: int, state: string)

  datatype Class = FailFatal | RetryRolledBack | RetryOutcomeUnknown

  function SqlState(e: Error): string {
    match e
    case Plain => ""
    case Pg(state) => state
    case MySql(_, state) => state
  }

  predicate IsDuplicateKey(e: Error) {
    if e.MySql? then e.number == 1062 else SqlState(e) == "23505"
  }

  const UNKNOWN_STATES := {"", "08000", "08003", "08006", "08007", "57P01", "57P02", "57014", "40003"}
  const ROLLED_BACK_STATES := {"40001", "40P01", "55P03", "53200", "53300", "57P03", "57P05", "08001", "08004",
    "MTB01", "MTB02", "MTB03", "MTF01"}

  function ClassifyFailure(e: Error): Class {
    if e.MySql? then
      if |e.state| >= 2 && e.state[..2] == "25" then FailFatal else RetryOutcomeUnknown
    else if SqlState(e) in UNKNOWN_STATES then RetryOutcomeUnknown
    else if SqlState(e) in ROLLED_BACK_STATES then RetryRolledBack
    else FailFatal
  }

  // The server.

  datatype Row<K, V> = Row(key: K, data: V)

  /** Whether the table has a unique key, and the error a violation of it raises. */
  datatype Schema = Schema(unique: bool, duplicate: Error)

  ghost predicate ValidSchema(schema: Schema) {
    IsDuplicateKey(schema.duplicate)
  }

  /** A batch the unique key admits. */
  predicate Fresh<K(==), V>(table: seq<Row<K, V>>, batch: seq<Row<K, V>>) {
    && (forall i, j :: 0 <= i < |table| && 0 <= j < |batch| ==> table[i].key != batch[j].key)
    && (forall i, j :: 0 <= i < j < |batch| ==> batch[i].key != batch[j].key)
  }

  /** What happens to one INSERT of a batch: it runs and the answer arrives; it runs but the client sees an
      error instead of the answer; or it does not run. */
  datatype Reply = Answer | AnswerLost(e: Error) | Refused(e: Error)

  /** The failure classes are right: only errors of unknown outcome may follow a commit, and a duplicate key
      is reported only by a statement that ran. */
  predicate Sound(r: Reply) {
    match r
    case Answer => true
    case AnswerLost(e) => !IsDuplicateKey(e) && ClassifyFailure(e) == RetryOutcomeUnknown
    case Refused(e) => !IsDuplicateKey(e)
  }

  /** The table after one attempt, and the error the client sees. */
  ghost function Exec<K, V>(schema: Schema, table: seq<Row<K, V>>, batch: seq<Row<K, V>>, r: Reply): (seq<Row<K, V>>,
                            Option<Error>) {
    var conflict := schema.unique && !Fresh(table, batch);
    match r
    case Answer => if conflict then (table, Some(schema.duplicate)) else (table + batch, None)
    case AnswerLost(e) => (if conflict then table else table + batch, Some(e))
    case Refused(e) => (table, Some(e))
  }

  /** One attempt, and whether the context was cancelled during it or in the pause after it. */
  datatype Attempt = Attempt(reply: Reply, cancelled: bool, cancelledInPause: bool)

  ghost predicate SoundScript(script: seq<Attempt>) {
    forall i :: 0 <= i < |script| ==> Sound(script[i].reply)
  }

  const GOOD := Attempt(Answer, false, false)

  /** The environment's i-th move; when the script ends, all goes well. */
  function Move(script: seq<Attempt>, i: nat): Attempt {
    if i < |script| then script[i] else GOOD
  }

  /** The retry protocol from attempt i: the table it leaves and whether it reports success. */
  ghost function Retry<K, V>(schema: Schema, table: seq<Row<K, V>>, batch: seq<Row<K, V>>, script: seq<Attempt>,
                             retryCount: nat, i: nat, unknown: bool): (seq<Row<K, V>>, bool)
    decreases retryCount + 1 - i
  {
    if i > retryCount then (table, false)
    else
      var (after, err) := Exec(schema, table, batch, Move(script, i).reply);
      if err.None? then (after, true)
      else if IsDuplicateKey(err.value) then (after, unknown)
      else if Move(script, i).cancelled || ClassifyFailure(err.value) == FailFatal then (after, false)
      else if i < retryCount && Move(script, i).cancelledInPause then (after, false)
      else Retry(schema, after, batch, script, retryCount, i + 1, unknown
        || ClassifyFailure(err.value) == RetryOutcomeUnknown)
  }

  /** Flush of a batch. */
  ghost function Flushed<K, V>(schema: Schema, table: seq<Row<K, V>>, batch: seq<Row<K, V>>, script: seq<Attempt>,
                               retryCount: nat): (seq<Row<K, V>>, bool) {
    if batch == [] then (table, true) else Retry(schema, table, batch, script, retryCount, 0, false)
  }

  /** With a unique key and fresh keys, every state of the protocol has inserted the batch not at all, or once
      and after an attempt of unknown outcome. */
  lemma {:induction false} RetryExactlyOnce<K, V>(schema: Schema, table: seq<Row<K, V>>, now: seq<Row<K, V>>,
                                                  batch: seq<Row<K, V>>, script: seq<Attempt>, retryCount: nat, i: nat,
                                                  unknown: bool)
    requires ValidSchema(schema) && schema.unique && SoundScript(script) && batch != [] && Fresh(table, batch)
    requires now == table || (now == table + batch && unknown)
    ensures var (after, ok) := Retry(schema, now, batch, script, retryCount, i, unknown);
      && (ok ==> after == table + batch)
      && (after == table || after == table + batch)
    decreases retryCount + 1 - i
  {
    if i <= retryCount {
      var r := Move(script, i).reply;
      assert Sound(r);
      if now == table + batch {
        assert now[|table|] == batch[0];
        assert !Fresh(now, batch);
      }
      var (after, err) := Exec(schema, now, batch, r);
      if err.Some? && !IsDuplicateKey(err.value) {
        RetryExactlyOnce(schema, table, after, batch, script, retryCount, i + 1, unknown
          || ClassifyFailure(err.value) == RetryOutcomeUnknown);
      }
    }
  }

  /** A batch that the unique key does not admit is never inserted. */
  lemma {:induction false} RetryRejected<K, V>(schema: Schema, table: seq<Row<K, V>>, batch: seq<Row<K, V>>,
                                               script: seq<Attempt>, retryCount: nat, i: nat, unknown: bool)
    requires schema.unique && !Fresh(table, batch)
    ensures Retry(schema, table, batch, script, retryCount, i, unknown).0 == table
    decreases retryCount + 1 - i
  {
    if i <= retryCount {
      var (after, err) := Exec(schema, table, batch, Move(script, i).reply);
      if err.Some? {
        RetryRejected(schema, table, batch, script, retryCount, i + 1, unknown
          || ClassifyFailure(err.value) == RetryOutcomeUnknown);
      }
    }
  }

  /** Success means the batch is in the table once, whatever the network does. */
  ghost predicate SuccessMeansOnce<K, V>(schema: Schema, table: seq<Row<K, V>>, batch: seq<Row<K, V>>,
                                         retryCount: nat) {
    forall script :: SoundScript(script) && Flushed(schema, table, batch, script, retryCount).1 ==>
      Flushed(schema, table, batch, script, retryCount).0 == table + batch
  }

  /** A lost answer, then a second insertion. */
  lemma InsertedTwice<K, V>(schema: Schema, table: seq<Row<K, V>>, batch: seq<Row<K, V>>, retryCount: nat)
    requires ValidSchema(schema) && !schema.unique && batch != [] && retryCount > 0
    ensures Flushed(schema, table, batch, [Attempt(AnswerLost(Plain), false, false), GOOD], retryCount)
      == (table + batch + batch, true)
  {
    var script := [Attempt(AnswerLost(Plain), false, false), GOOD];
    assert Move(script, 0) == script[0] && Move(script, 1) == GOOD;
    assert Exec(schema, table, batch, AnswerLost(Plain)) == (table + batch, Some(Plain));
    assert Retry(schema, table + batch, batch, script, retryCount, 1, true) == (table + batch + batch, true);
  }

  /** A lost connection, then a duplicate key that other rows cause. */
  lemma TakenForInserted<K, V>(schema: Schema, table: seq<Row<K, V>>, batch: seq<Row<K, V>>, retryCount: nat)
    requires ValidSchema(schema) && schema.unique && !Fresh(table, batch) && batch != [] && retryCount > 0
    ensures Flushed(schema, table, batch, [Attempt(Refused(Plain), false, false), GOOD], retryCount) == (table, true)
  {
    var script := [Attempt(Refused(Plain), false, false), GOOD];
    assert Move(script, 0) == script[0] && Move(script, 1) == GOOD;
    assert Retry(schema, table, batch, script, retryCount, 1, true) == (table, true);
  }

  /** Exactly-once delivery holds precisely for tables with a unique key and fresh batch keys, or when nothing
      is ever retried.  The history table has no unique key. */
  lemma ExactlyOnceIff<K, V>(schema: Schema, table: seq<Row<K, V>>, batch: seq<Row<K, V>>, retryCount: nat)
    requires ValidSchema(schema) && batch != []
    ensures SuccessMeansOnce(schema, table, batch, retryCount)
      <==> retryCount == 0 || (schema.unique && Fresh(table, batch))
  {
    if schema.unique && Fresh(table, batch) {
      forall script | SoundScript(script)
        ensures Flushed(schema, table, batch, script, retryCount).1
          ==> Flushed(schema, table, batch, script, retryCount).0 == table + batch
      {
        RetryExactlyOnce(schema, table, table, batch, script, retryCount, 0, false);
      }
    } else if retryCount > 0 {
      var script := [Attempt(if schema.unique then Refused(Plain) else AnswerLost(Plain), false, false), GOOD];
      assert SoundScript(script);
      if schema.unique {
        TakenForInserted(schema, table, batch, retryCount);
        assert |table| != |table + batch|;
      } else {
        InsertedTwice(schema, table, batch, retryCount);
        assert |table + batch + batch| != |table + batch|;
      }
      assert Flushed(schema, table, batch, script, retryCount).1;
    }
  }

  /** When Flush fails, a table with a unique key holds the batch at most once. */
  lemma AtMostOnce<K, V>(schema: Schema, table: seq<Row<K, V>>, batch: seq<Row<K, V>>, script: seq<Attempt>,
                         retryCount: nat)
    requires ValidSchema(schema) && schema.unique && SoundScript(script)
    ensures var after := Flushed(schema, table, batch, script, retryCount).0; after == table || after == table + batch
  {
    if batch != [] {
      if Fresh(table, batch) {
        RetryExactlyOnce(schema, table, table, batch, script, retryCount, 0, false);
      } else {
        RetryRejected(schema, table, batch, script, retryCount, 0, false);
      }
    }
  }

  // How often a batch is tried.

  /** The same error n times, and then a good answer. */
  function RefusedTimes(e: Error, n: nat): seq<Attempt> {
    seq(n, i => Attempt(Refused(e), false, false))
  }

  /** A refused batch is tried once more for every retry left, unless the error is one that retrying cannot fix. */
  lemma {:induction false} RefusedRetry<K, V>(schema: Schema, table: seq<Row<K, V>>, batch: seq<Row<K, V>>, e: Error,
                                              n: nat, retryCount: nat, i: nat, unknown: bool)
    requires !schema.unique || Fresh(table, batch)
    requires !IsDuplicateKey(e) && i <= n && i <= retryCount
    ensures Retry(schema, table, batch, RefusedTimes(e, n), retryCount, i, unknown)
         == if i == n || (ClassifyFailure(e) != FailFatal && n <= retryCount) then (table + batch, true)
            else (table, false)
    decreases retryCount - i
  {
    if i < n && i < retryCount && ClassifyFailure(e) != FailFatal {
      RefusedRetry(schema, table, batch, e, n, retryCount, i + 1, unknown || ClassifyFailure(e) == RetryOutcomeUnknown);
    }
  }

  /** After n refusals the batch is in the table exactly when the error is transient and there are n retries. */
  lemma RefusedFlush<K, V>(schema: Schema, table: seq<Row<K, V>>, batch: seq<Row<K, V>>, e: Error, n: nat,
                           retryCount: nat)
    requires (!schema.unique || Fresh(table, batch)) && !IsDuplicateKey(e) && batch != [] && n > 0
    ensures Flushed(schema, table, batch, RefusedTimes(e, n), retryCount)
         == if ClassifyFailure(e) != FailFatal && n <= retryCount then (table + batch, true) else (table, false)
  {
    RefusedRetry(schema, table, batch, e, n, retryCount, 0, false);
  }

  /** A cancellation ends the flush after one attempt. */
  lemma CancelledFlush<K, V>(schema: Schema, table: seq<Row<K, V>>, batch: seq<Row<K, V>>, e: Error,
                             rest: seq<Attempt>, retryCount: nat, inPause: bool)
    requires (!schema.unique || Fresh(table, batch)) && !IsDuplicateKey(e) && batch != [] && retryCount > 0
    ensures Flushed(schema, table, batch, [Attempt(AnswerLost(e), !inPause, inPause)] + rest, retryCount)
         == (table + batch, false)
  {
    assert Move([Attempt(AnswerLost(e), !inPause, inPause)] + rest, 0) == Attempt(AnswerLost(e), !inPause, inPause);
  }

  /** The classes the retry tests ask for. */
  lemma TestedClasses()
    ensures forall state <- ["", "08006", "08007", "57P01", "57014", "40003", "08003"] ::
      ClassifyFailure(Pg(state)) == RetryOutcomeUnknown
    ensures forall state <- ["40001", "40P01", "55P03", "53300", "57P03", "08001"] ::
      ClassifyFailure(Pg(state)) == RetryRolledBack
    ensures forall state <- ["MTB01", "MTB02", "MTB03", "MTF01"] ::
      ClassifyFailure(Pg(state)) == RetryRolledBack
    ensures forall state <- ["25006", "23505", "23503", "42601", "53100", "58030", "XX000", "08P01", "57P04"] ::
      ClassifyFailure(Pg(state)) == FailFatal
    ensures ClassifyFailure(Plain) == ClassifyFailure(MySql(1205, "HY000")) == RetryOutcomeUnknown
    ensures ClassifyFailure(MySql(1213, "40001")) == RetryOutcomeUnknown
    ensures ClassifyFailure(MySql(1792, "25006")) == FailFatal
    ensures IsDuplicateKey(Pg("23505")) && !IsDuplicateKey(Pg("23503")) && !IsDuplicateKey(Plain)
    ensures IsDuplicateKey(MySql(1062, "23000")) && !IsDuplicateKey(MySql(1452, "23000"))
  {
    assert "25006"[..2] == "25" && "HY000"[..2] == "HY" && "40001"[..2] == "40";
  }

  /** Data errors, integrity violations, invalid transaction states, syntax errors, system errors and internal
      errors are never retried. */
  lemma PermanentClasses(state: string)
    requires |state| == 5 && state[..2] in {"22", "23", "25", "42", "58", "XX"}
    ensures ClassifyFailure(Pg(state)) == FailFatal
  {
    var prefix := state[..2];
    assert state[0] == prefix[0] && state[1] == prefix[1];
    assert forall s <- UNKNOWN_STATES + ROLLED_BACK_STATES ::
      s == "" || (s[0] == '0' && s[1] == '8') || (s[0] == '4' && s[1] == '0') || s[0] == 'M'
      || (s[0] == '5' && s[1] != '8');
  }

  // The sink.

  class Server<K(==), V> {
    const schema: Schema
    var table: seq<Row<K, V>>

    constructor (schema: Schema)
      ensures this.schema == schema && table == []
    {
      this.schema := schema;
      table := [];
    }

    method Execute(batch: seq<Row<K, V>>, r: Reply) returns (err: Option<Error>)
      modifies this
      ensures (table, err) == Exec(schema, old(table), batch, r)
    {
      var conflict := schema.unique && !Fresh(table, batch);
      match r
      case Answer =>
        if conflict {
          return Some(schema.duplicate);
        }
        table := table + batch;
        return None;
      case AnswerLost(e) =>
        if !conflict {
          table := table + batch;
        }
        return Some(e);
      case Refused(e) =>
        return Some(e);
    }
  }

  class Sink<K(==), V> {
    const server: Server<K, V>
    const maxBatchRows: nat
    const retryCount: nat
    var buf: seq<Row<K, V>>
    var bufferedRows: nat

    ghost predicate Valid()
      reads this
    {
      bufferedRows == |buf| < maxBatchRows
    }

    constructor (server: Server<K, V>, retryCount: nat)
      ensures Valid() && this.server == server && this.retryCount == retryCount && maxBatchRows == 1024 && buf == []
    {
      this.server, this.retryCount, maxBatchRows := server, retryCount, 1024;
      buf, bufferedRows := [], 0;
    }

    method ExecWithRetry(script: seq<Attempt>) returns (ok: bool)
      modifies server
      ensures (server.table, ok) == Retry(server.schema, old(server.table), buf, script, retryCount, 0, false)
    {
      var outcomeUnknown := false;
      for i := 0 to 1 + retryCount
        invariant Retry(server.schema, server.table, buf, script, retryCount, i, outcomeUnknown)
               == Retry(server.schema, old(server.table), buf, script, retryCount, 0, false)
      {
        var move := Move(script, i);
        var err := server.Execute(buf, move.reply);
        if err.None? {
          return true;
        }
        var failure := ClassifyFailure(err.value);
        if IsDuplicateKey(err.value) {
          return outcomeUnknown;
        }
        if move.cancelled {
          return false;
        }
        if failure == FailFatal {
          return false;
        }
        outcomeUnknown := outcomeUnknown || failure == RetryOutcomeUnknown;
        if i < retryCount && move.cancelledInPause {
          return false;
        }
      }
      return false;
    }

    method Flush(script: seq<Attempt>) returns (ok: bool)
      requires bufferedRows == |buf|
      modifies this, server
      ensures (server.table, ok) == Flushed(server.schema, old(server.table), old(buf), script, retryCount)
      ensures buf == [] && bufferedRows == 0
    {
      if |buf| == 0 {
        return true;
      }
      ok := ExecWithRetry(script);
      bufferedRows := 0;
      buf := [];
    }

    method WriteRow(row: Row<K, V>, script: seq<Attempt>) returns (ok: bool)
      requires Valid()
      modifies this, server
      ensures Valid()
      ensures var batch := old(buf) + [row];
        if |batch| < maxBatchRows then ok && buf == batch && server.table == old(server.table)
        else buf == [] && (server.table, ok) == Flushed(server.schema, old(server.table), batch, script, retryCount)
    {
      buf := buf + [row];
      bufferedRows := bufferedRows + 1;
      if bufferedRows >= maxBatchRows {
        ok := Flush(script);
        return;
      }
      return true;
    }
  }

  /** What exactly-once delivery needs: a unique key and fresh keys, or no retries. */
  ghost predicate Reliable<K, V>(schema: Schema, table: seq<Row<K, V>>, rows: seq<Row<K, V>>, retryCount: nat) {
    retryCount == 0 || (schema.unique && Fresh(table, rows))
  }

  /** A loader's use of a sink: write all rows, then flush.  Without an error the table is exactly what was
      there and the rows in order; with one it holds a prefix of them, nothing twice. */
  method LoadRows<K(==), V>(server: Server<K, V>, rows: seq<Row<K, V>>, scripts: seq<seq<Attempt>>, retryCount: nat)
    returns (ok: bool)
    requires ValidSchema(server.schema) && Reliable(server.schema, server.table, rows, retryCount)
    requires |scripts| == |rows| + 1 && forall i :: 0 <= i < |scripts| ==> SoundScript(scripts[i])
    modifies server
    ensures ok ==> server.table == old(server.table) + rows
    ensures exists n :: 0 <= n <= |rows| && server.table == old(server.table) + rows[..n]
  {
    var sink := new Sink<K, V>(server, retryCount);
    ghost var start, done := server.table, 0;
    for i := 0 to |rows|
      invariant sink.server == server && fresh(sink) && sink.Valid() && sink.retryCount == retryCount
      invariant 0 <= done <= i && server.table == start + rows[..done] && sink.buf == rows[done..i]
    {
      ghost var n := WrittenSoFar(server.schema, start, rows, done, i + 1, scripts[i], retryCount);
      assert rows[done..i] + [rows[i]] == rows[done..i + 1];
      var written := sink.WriteRow(rows[i], scripts[i]);
      if sink.buf == [] {
        done := n;
      }
      if !written {
        return false;
      }
    }
    ghost var n := WrittenSoFar(server.schema, start, rows, done, |rows|, scripts[|rows|], retryCount);
    ok := sink.Flush(scripts[|rows|]);
    done := n;
    assert rows[..|rows|] == rows;
  }

  /** Without retries, one attempt inserts the batch or not, and success means that it did. */
  lemma OneAttempt<K, V>(schema: Schema, table: seq<Row<K, V>>, batch: seq<Row<K, V>>, script: seq<Attempt>)
    ensures var (after, ok) := Retry(schema, table, batch, script, 0, 0, false);
      && (ok ==> after == table + batch)
      && (after == table || after == table + batch)
  {
  }

  /** Flushing rows[from..to] extends the loaded prefix to `to`, or on failure perhaps not at all. */
  lemma WrittenSoFar<K, V>(schema: Schema, start: seq<Row<K, V>>, rows: seq<Row<K, V>>, from: nat, to: nat,
                           script: seq<Attempt>, retryCount: nat)
    returns (n: nat)
    requires ValidSchema(schema) && SoundScript(script) && from <= to <= |rows|
      && Reliable(schema, start, rows, retryCount)
    ensures var (after, ok) := Flushed(schema, start + rows[..from], rows[from..to], script, retryCount);
      from <= n <= to && after == start + rows[..n] && (ok ==> n == to)
  {
    var table, batch := start + rows[..from], rows[from..to];
    assert table + batch == start + rows[..to];
    if batch != [] {
      if retryCount == 0 {
        OneAttempt(schema, table, batch, script);
      } else {
        assert Fresh(table, batch);
        RetryExactlyOnce(schema, table, table, batch, script, retryCount, 0, false);
      }
    }
    n := if Flushed(schema, table, batch, script, retryCount).0 == start + rows[..to] then to else from;
  }
}
