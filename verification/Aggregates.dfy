/** SQL aggregates over tables.

    A keyed table is a `map` from primary key to row, and a table without a key is a `seq` of rows.
    `Sum` is SUM over a keyed table, where the summand is 0 on rows the WHERE clause rejects;
    COUNT(*) is the SUM of 1.  The lemmas say how one INSERT or UPDATE changes an aggregate. */
module Aggregates {

  datatype Option<+T> = None | Some(value: T) {
    function GetOr(default: T): T {
      match this
      case Some(v) => v
      case None => default
    }
  }

  ghost function Sum<K, V>(table: map<K, V>, f: (K, V) -> int): int {
    if table == map[] then 0
    else
      var k :| k in table;
      f(k, table[k]) + Sum(table - {k}, f)
  }

  lemma {:induction false} SumRemove<K, V>(table: map<K, V>, f: (K, V) -> int, k: K)
    requires k in table
    ensures Sum(table, f) == f(k, table[k]) + Sum(table - {k}, f)
    decreases |table|
  {
    var x :| x in table && Sum(table, f) == f(x, table[x]) + Sum(table - {x}, f);
    if x != k {
      SumRemove(table - {x}, f, k);
      SumRemove(table - {k}, f, x);
      assert table - {x} - {k} == table - {k} - {x};
    }
  }

  lemma SumInsert<K, V>(table: map<K, V>, f: (K, V) -> int, k: K, row: V)
    requires k !in table
    ensures Sum(table[k := row], f) == Sum(table, f) + f(k, row)
  {
    SumRemove(table[k := row], f, k);
    assert table[k := row] - {k} == table;
  }

  lemma SumUpdate<K, V>(table: map<K, V>, f: (K, V) -> int, k: K, row: V)
    requires k in table
    ensures Sum(table[k := row], f) == Sum(table, f) - f(k, table[k]) + f(k, row)
  {
    SumRemove(table[k := row], f, k);
    SumRemove(table, f, k);
    assert table[k := row] - {k} == table - {k};
  }

  /** An UPDATE that changes each row's contribution by `delta` changes the total by the sum of the deltas. */
  lemma {:induction false} SumShift<K, V>(before: map<K, V>, after: map<K, V>, f: (K, V) -> int, g: (K, V) -> int,
                                          delta: (K, V) -> int)
    requires before.Keys == after.Keys
    requires forall k <- before :: g(k, after[k]) == f(k, before[k]) + delta(k, before[k])
    ensures Sum(after, g) == Sum(before, f) + Sum(before, delta)
    decreases |before|
  {
    if before == map[] {
      assert after == map[];
    } else {
      var k :| k in before;
      SumRemove(before, f, k);
      SumRemove(before, delta, k);
      SumRemove(after, g, k);
      SumShift(before - {k}, after - {k}, f, g, delta);
    }
  }

  lemma {:induction false} SumZero<K, V>(table: map<K, V>, f: (K, V) -> int)
    requires forall k <- table :: f(k, table[k]) == 0
    ensures Sum(table, f) == 0
    decreases |table|
  {
    if table != map[] {
      var k :| k in table;
      SumRemove(table, f, k);
      SumZero(table - {k}, f);
    }
  }

  /** Two tables whose rows contribute the same have the same total. */
  lemma SumSame<K, V>(before: map<K, V>, after: map<K, V>, f: (K, V) -> int, g: (K, V) -> int)
    requires before.Keys == after.Keys
    requires forall k <- before :: g(k, after[k]) == f(k, before[k])
    ensures Sum(after, g) == Sum(before, f)
  {
    var zero := (k: K, row: V) => 0;
    SumShift(before, after, f, g, zero);
    SumZero(before, zero);
  }

  /** A larger summand has a larger total. */
  lemma {:induction false} SumMonotone<K, V>(table: map<K, V>, f: (K, V) -> int, g: (K, V) -> int)
    requires forall k <- table :: f(k, table[k]) <= g(k, table[k])
    ensures Sum(table, f) <= Sum(table, g)
    decreases |table|
  {
    if table != map[] {
      var k :| k in table;
      SumRemove(table, f, k);
      SumRemove(table, g, k);
      SumMonotone(table - {k}, f, g);
    }
  }

  /** When the rows the WHERE clause keeps are exactly key(lo), ..., key(hi - 1) and each contributes
      `each`, the total is `each` times their number. */
  lemma {:induction false} SumRange<K, V>(table: map<K, V>, f: (K, V) -> int, key: int -> K, lo: int, hi: int,
                                          each: int)
    requires lo <= hi
    requires forall i, j | lo <= i < j < hi :: key(i) != key(j)
    requires forall i | lo <= i < hi :: key(i) in table && f(key(i), table[key(i)]) == each
    requires forall k <- table :: f(k, table[k]) == 0 || exists i :: lo <= i < hi && key(i) == k
    ensures Sum(table, f) == each * (hi - lo)
    decreases hi - lo
  {
    if lo == hi {
      SumZero(table, f);
    } else {
      var last := key(hi - 1);
      SumRemove(table, f, last);
      SumRange(table - {last}, f, key, lo, hi - 1, each);
      assert each * (hi - lo) == each * (hi - 1 - lo) + each;
    }
  }

  /** SUM over a table that has no key. */
  ghost function SumRows<V>(rows: seq<V>, f: V -> int): int {
    if rows == [] then 0 else SumRows(rows[..|rows| - 1], f) + f(rows[|rows| - 1])
  }

  lemma SumRowsAppend<V>(rows: seq<V>, f: V -> int, row: V)
    ensures SumRows(rows + [row], f) == SumRows(rows, f) + f(row)
  {
    assert (rows + [row])[..|rows|] == rows;
  }

  /** Rows with distinct tags can be summed as a keyed table. */
  lemma {:induction false} SumRowsAsTable<K, V>(rows: seq<V>, f: V -> int, tag: V -> K, table: map<K, V>,
                                                g: (K, V) -> int)
    requires forall i, j | 0 <= i < j < |rows| :: tag(rows[i]) != tag(rows[j])
    requires forall i | 0 <= i < |rows| :: tag(rows[i]) in table && table[tag(rows[i])] == rows[i]
    requires forall k <- table :: exists i :: 0 <= i < |rows| && tag(rows[i]) == k
    requires forall k <- table :: g(k, table[k]) == f(table[k])
    ensures SumRows(rows, f) == Sum(table, g)
    decreases |rows|
  {
    if rows == [] {
      assert table == map[];
    } else {
      var n := |rows| - 1;
      var k := tag(rows[n]);
      SumRemove(table, g, k);
      forall x <- table - {k}
        ensures exists i :: 0 <= i < n && tag(rows[..n][i]) == x
      {
        var i :| 0 <= i < |rows| && tag(rows[i]) == x;
        assert i != n;
        assert tag(rows[..n][i]) == x;
      }
      SumRowsAsTable(rows[..n], f, tag, table - {k}, g);
    }
  }
}
