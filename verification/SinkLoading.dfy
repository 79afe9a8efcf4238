/** Loading through sinks: when every sink reports success, the server's tables are the loader's tables. */
module SinkLoading {
  import opened Schema
  import opened Checks
  import opened Loading
  import Sinks = SqlSink

  // Rows of a sink and tables.

  /** The table that rows with different keys form. */
  function TableOf<K(==), V>(rows: seq<Sinks.Row<K, V>>): map<K, V> {
    if rows == [] then map[]
    else TableOf(rows[..|rows| - 1])[rows[|rows| - 1].key := rows[|rows| - 1].data]
  }

  ghost function KeysOf<K, V>(rows: seq<Sinks.Row<K, V>>): set<K> {
    set row <- rows :: row.key
  }

  /** Rows that list a table, one for each key. */
  ghost predicate Lists<K, V>(rows: seq<Sinks.Row<K, V>>, table: map<K, V>) {
    && (forall i, j :: 0 <= i < j < |rows| ==> rows[i].key != rows[j].key)
    && (forall row <- rows :: row.key in table && table[row.key] == row.data)
    && table.Keys == KeysOf(rows)
  }

  lemma RestListed<K, V>(rest: seq<Sinks.Row<K, V>>, last: Sinks.Row<K, V>, table: map<K, V>)
    requires Lists(rest + [last], table)
    ensures Lists(rest, table - {last.key})
  {
    var rows := rest + [last];
    assert forall i | 0 <= i < |rest| :: rows[i] == rest[i] && rows[i].key != rows[|rest|].key;
    assert forall row <- rest :: row in rows;
    assert rows[|rest|] == last && KeysOf(rows) == KeysOf(rest) + {last.key};
  }

  lemma {:induction false} ListedTable<K, V>(rows: seq<Sinks.Row<K, V>>, table: map<K, V>)
    requires Lists(rows, table)
    ensures TableOf(rows) == table
  {
    if rows == [] {
      assert table == map[];
    } else {
      var last, rest := rows[|rows| - 1], rows[..|rows| - 1];
      assert rows == rest + [last] && last in rows;
      RestListed(rest, last, table);
      ListedTable(rest, table - {last.key});
      PutBack(table, last.key, last.data);
    }
  }

  lemma PutBack<K, V>(table: map<K, V>, k: K, v: V)
    requires k in table && table[k] == v
    ensures (table - {k})[k := v] == table
  {
  }

  lemma ListsNext<K, V>(rows: seq<Sinks.Row<K, V>>, listed: map<K, V>, k: K, v: V)
    requires Lists(rows, listed) && k !in listed
    ensures Lists(rows + [Sinks.Row(k, v)], listed[k := v])
  {
    var more := rows + [Sinks.Row(k, v)];
    assert forall i | 0 <= i < |rows| :: rows[i] in rows && rows[i].key in listed;
    assert KeysOf(more) == KeysOf(rows) + {k};
  }

  method ListRows<K(==), V>(table: map<K, V>) returns (rows: seq<Sinks.Row<K, V>>)
    ensures Lists(rows, table)
  {
    rows := [];
    var rest := table.Keys;
    ghost var listed: map<K, V> := map[];
    while rest != {}
      invariant Lists(rows, listed) && rest == table.Keys - listed.Keys
      invariant listed.Keys <= table.Keys && forall k <- listed :: listed[k] == table[k]
      decreases rest
    {
      var k :| k in rest;
      ListsNext(rows, listed, k, table[k]);
      rows := rows + [Sinks.Row(k, table[k])];
      listed := listed[k := table[k]];
      rest := rest - {k};
    }
    forall k <- table
      ensures k in listed
    {
      assert k !in table.Keys - listed.Keys;
    }
    assert listed == table;
  }

  /** Any behaviour of server and network that the failure classes allow, for the i-th write of a load. */
  ghost predicate SoundWeather(weather: nat -> seq<Sinks.Attempt>) {
    forall i: nat :: Sinks.SoundScript(weather(i))
  }

  method Scripts(weather: nat -> seq<Sinks.Attempt>, n: nat) returns (scripts: seq<seq<Sinks.Attempt>>)
    requires SoundWeather(weather)
    ensures |scripts| == n && forall i :: 0 <= i < n ==> Sinks.SoundScript(scripts[i])
  {
    scripts := [];
    for i := 0 to n
      invariant |scripts| == i && forall j :: 0 <= j < i ==> Sinks.SoundScript(scripts[j])
    {
      scripts := scripts + [weather(i)];
    }
  }

  /** Load a keyed table that is empty at the start. */
  method LoadTable<K(==), V>(table: map<K, V>, duplicate: Sinks.Error, weather: nat -> seq<Sinks.Attempt>,
                     retryCount: nat)
    returns (ok: bool, loaded: map<K, V>)
    requires Sinks.IsDuplicateKey(duplicate) && SoundWeather(weather)
    ensures ok ==> loaded == table
  {
    var server := new Sinks.Server<K, V>(Sinks.Schema(true, duplicate));
    var rows := ListRows(table);
    var scripts := Scripts(weather, |rows| + 1);
    ok := Sinks.LoadRows(server, rows, scripts, retryCount);
    loaded := TableOf(server.table);
    if ok {
      assert server.table == rows;
      ListedTable(rows, table);
    }
  }

  // History.

  /** Rows without a key. */
  function Keyless(history: seq<History>): seq<Sinks.Row<(), History>> {
    seq(|history|, i requires 0 <= i < |history| => Sinks.Row((), history[i]))
  }

  function HistoryOf(rows: seq<Sinks.Row<(), History>>): seq<History> {
    seq(|rows|, i requires 0 <= i < |rows| => rows[i].data)
  }

  /** Load the history, which has no key, without retries. */
  method LoadHistory(history: seq<History>, duplicate: Sinks.Error, weather: nat -> seq<Sinks.Attempt>)
    returns (ok: bool, loaded: seq<History>)
    requires Sinks.IsDuplicateKey(duplicate) && SoundWeather(weather)
    ensures ok ==> loaded == history
  {
    var server := new Sinks.Server<(), History>(Sinks.Schema(false, duplicate));
    var rows := Keyless(history);
    var scripts := Scripts(weather, |rows| + 1);
    ok := Sinks.LoadRows(server, rows, scripts, 0);
    loaded := HistoryOf(server.table);
    if ok {
      assert server.table == rows;
    }
  }

  /** The keyed tables of a database, for any number of retries. */
  method LoadKeyed(db: Db, duplicate: Sinks.Error, weather: nat -> seq<Sinks.Attempt>, retryCount: nat)
    returns (ok: bool, loaded: Db)
    requires Sinks.IsDuplicateKey(duplicate) && SoundWeather(weather)
    ensures ok ==> loaded == db.(history := [])
  {
    var a, warehouse := LoadTable(db.warehouse, duplicate, weather, retryCount);
    var b, district := LoadTable(db.district, duplicate, weather, retryCount);
    var c, customer := LoadTable(db.customer, duplicate, weather, retryCount);
    var d, orders := LoadTable(db.orders, duplicate, weather, retryCount);
    var e, newOrder := LoadTable(db.newOrder, duplicate, weather, retryCount);
    var f, orderLine := LoadTable(db.orderLine, duplicate, weather, retryCount);
    var g, stock := LoadTable(db.stock, duplicate, weather, retryCount);
    var h, item := LoadTable(db.item, duplicate, weather, retryCount);
    ok := a && b && c && d && e && f && g && h;
    loaded := Db(warehouse, district, customer, [], orders, newOrder, orderLine, stock, item, db.foreignKeys);
  }

  /** Without retries, success of all sinks means that the server holds exactly the loader's database. */
  method LoadDatabase(db: Db, duplicate: Sinks.Error, weather: nat -> seq<Sinks.Attempt>, ghost W: int)
    returns (ok: bool, loaded: Db)
    requires Sinks.IsDuplicateKey(duplicate) && SoundWeather(weather) && Loaded(db, W)
    ensures ok ==> loaded == db && Loaded(loaded, W)
  {
    var keyed, history;
    keyed, loaded := LoadKeyed(db, duplicate, weather, 0);
    ok, history := LoadHistory(db.history, duplicate, weather);
    ok := keyed && ok;
    loaded := loaded.(history := history);
  }

  /** One lost answer. */
  const LOST := [Sinks.Attempt(Sinks.AnswerLost(Sinks.Plain), false, false), Sinks.GOOD]

  lemma HistoryTwice(before: seq<History>, batch: seq<History>, duplicate: Sinks.Error, retryCount: nat)
    requires batch != [] && Sinks.IsDuplicateKey(duplicate) && retryCount > 0
    ensures Sinks.SoundScript(LOST)
    ensures Sinks.Flushed(Sinks.Schema(false, duplicate), Keyless(before), Keyless(batch), LOST, retryCount)
         == (Keyless(before + batch + batch), true)
  {
    Sinks.InsertedTwice(Sinks.Schema(false, duplicate), Keyless(before), Keyless(batch), retryCount);
    assert Keyless(before) + Keyless(batch) + Keyless(batch) == Keyless(before + batch + batch);
  }

  /** With retries, the loss of one answer can insert the last batch of the history twice; all sinks report
      success, and the check of a warehouse fails. */
  lemma RetriedHistoryFailsCheck(db: Db, W: int, before: seq<History>, batch: seq<History>, duplicate: Sinks.Error,
                                 retryCount: nat)
    requires Loaded(db, W) && db.history == before + batch && batch != []
    requires Sinks.IsDuplicateKey(duplicate) && retryCount > 0
    ensures Sinks.SoundScript(LOST)
    ensures Sinks.Flushed(Sinks.Schema(false, duplicate), Keyless(before), Keyless(batch), LOST, retryCount)
         == (Keyless(db.history + batch), true)
    ensures !Condition8(db.(history := db.history + batch), batch[0].w)
  {
    HistoryTwice(before, batch, duplicate, retryCount);
    BatchOfLoaded(db, W, before, batch);
    RepeatedHistoryFailsCheck(db, W, batch, 0);
  }

  lemma BatchOfLoaded(db: Db, W: int, before: seq<History>, batch: seq<History>)
    requires Loaded(db, W) && db.history == before + batch
    ensures forall row <- batch :: row.amount == 1000 && 1 <= row.w <= W
  {
    forall i | 0 <= i < |batch|
      ensures batch[i].amount == 1000 && 1 <= batch[i].w <= W
    {
      var row := db.history[|before| + i];
      assert row == batch[i] && row.c in Payers(db.history);
    }
  }
}
