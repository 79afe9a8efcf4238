/** The Payment transaction, client-side and as a stored procedure. */
module Payments {
  import opened Aggregates
  import opened Counting
  import opened Schema
  import opened Checks
  import opened Consistency

  /** The customer is named by id or by last name. */
  datatype Lookup = ById(c: int) | ByName(last: string)

  datatype Input = Input(w: int, d: int, cw: int, cd: int, lookup: Lookup, amount: int) {
    function District(): DKey { DKey(w, d) }
    function Key(c: int): CKey { CKey(cw, cd, c) }
  }

  // Last names: three syllables for a number below 1000.

  const SYLLABLES := ["BAR", "OUGHT", "ABLE", "PRI", "PRES", "ESE", "ANTI", "CALLY", "ATION", "EING"]

  function LastName(n: nat): string
    requires n < 1000
  {
    SYLLABLES[n / 100] + SYLLABLES[n % 100 / 10] + SYLLABLES[n % 10]
  }

  /** The names in the order of their digits. */
  lemma SomeLastNames()
    ensures LastName(0) == "BARBARBAR" && LastName(371) == "PRICALLYOUGHT" && LastName(999) == "EINGEINGEING"
  {
    assert SYLLABLES[3] == "PRI" && SYLLABLES[7] == "CALLY" && SYLLABLES[1] == "OUGHT";
  }

  /** No syllable begins another. */
  lemma SyllableRead(i: nat, j: nat, x: string, y: string)
    requires i < 10 && j < 10 && SYLLABLES[i] + x == SYLLABLES[j] + y
    ensures i == j && x == y
  {
    var s := SYLLABLES[i] + x;
    assert s[0] == SYLLABLES[i][0] == SYLLABLES[j][0];
    assert s[1] == SYLLABLES[i][1] == SYLLABLES[j][1];
    assert s[2] == SYLLABLES[i][2] == SYLLABLES[j][2];
    assert x == s[|SYLLABLES[i]|..] && y == s[|SYLLABLES[j]|..];
  }

  lemma SameSyllable(i: nat, j: nat)
    requires i < 10 && j < 10 && SYLLABLES[i] == SYLLABLES[j]
    ensures i == j
  {
    SyllableRead(i, j, "", "");
  }

  lemma Regrouped(p: string, q: string, r: string)
    ensures p + q + r == p + (q + r)
  {
  }

  lemma NameRead(a: nat, b: nat, c: nat, x: nat, y: nat, z: nat)
    requires a < 10 && b < 10 && c < 10 && x < 10 && y < 10 && z < 10
    requires SYLLABLES[a] + (SYLLABLES[b] + SYLLABLES[c]) == SYLLABLES[x] + (SYLLABLES[y] + SYLLABLES[z])
    ensures a == x && b == y && c == z
  {
    SyllableRead(a, x, SYLLABLES[b] + SYLLABLES[c], SYLLABLES[y] + SYLLABLES[z]);
    SyllableRead(b, y, SYLLABLES[c], SYLLABLES[z]);
    SameSyllable(c, z);
  }

  lemma DigitsMake(n: nat)
    ensures n == 100 * (n / 100) + 10 * (n % 100 / 10) + n % 10
  {
  }

  /** The thousand names are different. */
  lemma LastNamesDiffer(m: nat, n: nat)
    requires m < 1000 && n < 1000 && LastName(m) == LastName(n)
    ensures m == n
  {
    Regrouped(SYLLABLES[m / 100], SYLLABLES[m % 100 / 10], SYLLABLES[m % 10]);
    Regrouped(SYLLABLES[n / 100], SYLLABLES[n % 100 / 10], SYLLABLES[n % 10]);
    DigitsMake(m);
    DigitsMake(n);
    NameRead(m / 100, m % 100 / 10, m % 10, n / 100, n % 100 / 10, n % 10);
  }

  predicate IsLastName(last: string) {
    exists n: nat :: n < 1000 && LastName(n) == last
  }

  predicate Generated(t: Input, W: int) {
    && IsDistrict(W, t.w, t.d) && IsDistrict(W, t.cw, t.cd)
    && (match t.lookup
        case ById(c) => 1 <= c <= CUSTOMERS
        case ByName(last) => IsLastName(last))
    && 100 <= t.amount <= 500000
  }

  // The query for the customers of a name, ordered by first name.

  /** The order of strings. */
  predicate NotAfter(a: string, b: string) {
    a == "" || (b != "" && (a[0] < b[0] || (a[0] == b[0] && NotAfter(a[1..], b[1..]))))
  }

  lemma {:induction false} NotAfterTotal(a: string, b: string)
    ensures NotAfter(a, b) || NotAfter(b, a)
    ensures NotAfter(a, b) && NotAfter(b, a) <==> a == b
  {
    if a != "" && b != "" && a[0] == b[0] {
      NotAfterTotal(a[1..], b[1..]);
      assert a == [a[0]] + a[1..] && b == [b[0]] + b[1..];
    }
  }

  lemma {:induction false} NotAfterTransitive(a: string, b: string, c: string)
    requires NotAfter(a, b) && NotAfter(b, c)
    ensures NotAfter(a, c)
  {
    if a != "" && a[0] == b[0] && b[0] == c[0] {
      NotAfterTransitive(a[1..], b[1..], c[1..]);
    }
  }

  /** The ids of the customers with the name. */
  function Named(db: Db, t: Input): set<int> {
    set k <- db.customer.Keys | t.lookup.ByName? && k == t.Key(k.c) && db.customer[k].last == t.lookup.last :: k.c
  }

  function First(db: Db, t: Input, c: int): string {
    if t.Key(c) in db.customer then db.customer[t.Key(c)].first else ""
  }

  /** The given ids, each once and ordered by first name; ids of one first name come in any order. */
  ghost predicate Ordered(db: Db, t: Input, ids: seq<int>, s: set<int>) {
    && (forall i, j :: 0 <= i < j < |ids| ==> ids[i] != ids[j])
    && (forall c :: c in ids <==> c in s)
    && (forall i, j :: 0 <= i < j < |ids| ==> NotAfter(First(db, t, ids[i]), First(db, t, ids[j])))
  }

  /** A possible answer of the server to SELECT c_id ... WHERE c_last = last ORDER BY c_first. */
  ghost predicate IsListing(db: Db, t: Input, ids: seq<int>) {
    t.lookup.ByName? ==> Ordered(db, t, ids, Named(db, t))
  }

  /** The client's choice from the listing. */
  function Middle(ids: seq<int>): int
    requires ids != []
  {
    ids[(|ids| + 1) / 2 - 1]
  }

  /** The procedure's choice: round an odd count up and take the row numbered half the count, from 1. */
  function NumberedMiddle(ids: seq<int>): int
    requires ids != []
  {
    var count := if |ids| % 2 == 1 then |ids| + 1 else |ids|;
    ids[count / 2 - 1]
  }

  /** The customer an answer chooses. */
  function Chosen(t: Input, ids: seq<int>): CKey
    requires t.lookup.ById? || ids != []
  {
    t.Key(if t.lookup.ById? then t.lookup.c else Middle(ids))
  }

  // Listings.

  /** The place of c among ids ordered by first name. */
  function Place(db: Db, t: Input, ids: seq<int>, c: int): (p: nat)
    ensures p <= |ids|
  {
    if ids == [] || NotAfter(First(db, t, c), First(db, t, ids[0])) then 0
    else 1 + Place(db, t, ids[1..], c)
  }

  lemma {:induction false} PlaceBounds(db: Db, t: Input, ids: seq<int>, c: int)
    requires forall i, j :: 0 <= i < j < |ids| ==> NotAfter(First(db, t, ids[i]), First(db, t, ids[j]))
    ensures forall i :: 0 <= i < Place(db, t, ids, c) ==> NotAfter(First(db, t, ids[i]), First(db, t, c))
    ensures forall i :: Place(db, t, ids, c) <= i < |ids| ==> NotAfter(First(db, t, c), First(db, t, ids[i]))
  {
    if ids != [] {
      NotAfterTotal(First(db, t, c), First(db, t, ids[0]));
      if NotAfter(First(db, t, c), First(db, t, ids[0])) {
        forall i | 0 < i < |ids|
          ensures NotAfter(First(db, t, c), First(db, t, ids[i]))
        {
          NotAfterTransitive(First(db, t, c), First(db, t, ids[0]), First(db, t, ids[i]));
        }
      } else {
        PlaceBounds(db, t, ids[1..], c);
        forall i | 0 <= i < Place(db, t, ids, c)
          ensures NotAfter(First(db, t, ids[i]), First(db, t, c))
        {
          assert i > 0 ==> ids[i] == ids[1..][i - 1];
        }
        forall i | Place(db, t, ids, c) <= i < |ids|
          ensures NotAfter(First(db, t, c), First(db, t, ids[i]))
        {
          assert ids[i] == ids[1..][i - 1];
        }
      }
    }
  }

  function Inserted(ids: seq<int>, p: nat, c: int): seq<int>
    requires p <= |ids|
  {
    ids[..p] + [c] + ids[p..]
  }

  lemma InsertedAt(ids: seq<int>, p: nat, c: int, i: int)
    requires p <= |ids| && 0 <= i <= |ids|
    ensures Inserted(ids, p, c)[i] == if i < p then ids[i] else if i == p then c else ids[i - 1]
  {
  }

  lemma InsertedMembers(ids: seq<int>, p: nat, c: int)
    requires p <= |ids|
    ensures forall x :: x in Inserted(ids, p, c) <==> x in ids || x == c
  {
    assert ids == ids[..p] + ids[p..];
  }

  lemma InsertedOrdered(db: Db, t: Input, ids: seq<int>, s: set<int>, c: int)
    requires Ordered(db, t, ids, s) && c !in s
    ensures Ordered(db, t, Inserted(ids, Place(db, t, ids, c), c), s + {c})
  {
    PlaceBounds(db, t, ids, c);
    var p := Place(db, t, ids, c);
    var all := Inserted(ids, p, c);
    InsertedMembers(ids, p, c);
    forall i, j | 0 <= i < j < |all|
      ensures all[i] != all[j] && NotAfter(First(db, t, all[i]), First(db, t, all[j]))
    {
      InsertedAt(ids, p, c, i);
      InsertedAt(ids, p, c, j);
      assert c !in ids;
    }
  }

  /** The server can always answer. */
  lemma {:induction false} OrderedExists(db: Db, t: Input, s: set<int>) returns (ids: seq<int>)
    ensures Ordered(db, t, ids, s)
  {
    if c :| c in s {
      var rest := OrderedExists(db, t, s - {c});
      InsertedOrdered(db, t, rest, s - {c}, c);
      ids := Inserted(rest, Place(db, t, rest, c), c);
      assert s - {c} + {c} == s;
    } else {
      ids := [];
    }
  }

  /** Listings depend on the customers only. */
  lemma ListingFromCustomers(x: Db, y: Db, t: Input, ids: seq<int>)
    requires x.customer == y.customer
    ensures Named(x, t) == Named(y, t) && (IsListing(x, t, ids) <==> IsListing(y, t, ids))
  {
    assert forall c :: First(x, t, c) == First(y, t, c);
  }

  // Ties.

  /** The customers of the name whose first name comes strictly before c's. */
  function Earlier(db: Db, t: Input, c: int): set<int> {
    set x <- Named(db, t) | NotAfter(First(db, t, x), First(db, t, c)) && First(db, t, x) != First(db, t, c)
  }

  /** No other customer of the name has c's first name. */
  predicate Alone(db: Db, t: Input, c: int) {
    forall x <- Named(db, t) :: First(db, t, x) == First(db, t, c) ==> x == c
  }

  /** c is the one median of the customers of the name, ordered by first name. */
  predicate IsMedian(db: Db, t: Input, c: int) {
    c in Named(db, t) && Alone(db, t, c) && |Earlier(db, t, c)| == (|Named(db, t)| + 1) / 2 - 1
  }

  lemma OrderedCount(db: Db, t: Input, ids: seq<int>, s: set<int>)
    requires Ordered(db, t, ids, s)
    ensures Values(ids) == s && |ids| == |s|
  {
    DistinctCount(ids);
    assert forall c :: c in Values(ids) <==> c in s;
  }

  lemma ListingCount(db: Db, t: Input, ids: seq<int>)
    requires t.lookup.ByName? && IsListing(db, t, ids)
    ensures |ids| == |Named(db, t)|
  {
    OrderedCount(db, t, ids, Named(db, t));
  }

  lemma EmptyListing(db: Db, t: Input, ids: seq<int>)
    requires t.lookup.ByName? && IsListing(db, t, ids)
    ensures ids == [] <==> Named(db, t) == {}
  {
    OrderedCount(db, t, ids, Named(db, t));
    assert Named(db, t) == Values(ids);
  }

  /** In every listing, a customer alone with the first name stands behind exactly the earlier ones. */
  lemma PositionAlone(db: Db, t: Input, ids: seq<int>, p: int)
    requires t.lookup.ByName? && IsListing(db, t, ids) && 0 <= p < |ids| && Alone(db, t, ids[p])
    ensures |Earlier(db, t, ids[p])| == p
  {
    var before := ids[..p];
    DistinctCount(before);
    forall x
      ensures x in Values(before) <==> x in Earlier(db, t, ids[p])
    {
      if x in Named(db, t) {
        var i :| 0 <= i < |ids| && ids[i] == x;
        NotAfterTotal(First(db, t, ids[p]), First(db, t, x));
        if i < p {
          assert before[i] == x;
        } else if i > p {
          assert NotAfter(First(db, t, ids[p]), First(db, t, ids[i]));
        }
      }
    }
    assert Values(before) == Earlier(db, t, ids[p]);
  }

  /** The median is in the middle of every listing. */
  lemma MedianIsMiddle(db: Db, t: Input, ids: seq<int>, c: int)
    requires t.lookup.ByName? && IsListing(db, t, ids) && IsMedian(db, t, c)
    ensures ids != [] && Middle(ids) == c
  {
    ListingCount(db, t, ids);
    var p :| 0 <= p < |ids| && ids[p] == c;
    PositionAlone(db, t, ids, p);
  }

  lemma MiddleIsMedian(db: Db, t: Input, ids: seq<int>)
    requires t.lookup.ByName? && IsListing(db, t, ids) && ids != []
    ensures IsMedian(db, t, Middle(ids)) <==> Alone(db, t, Middle(ids))
  {
    ListingCount(db, t, ids);
    var p := (|ids| + 1) / 2 - 1;
    assert ids[p] in ids;
    if Alone(db, t, ids[p]) {
      PositionAlone(db, t, ids, p);
    }
  }

  /** Customers with one first name can change places. */
  lemma SwappedListing(db: Db, t: Input, ids: seq<int>, p: int, q: int)
    requires t.lookup.ByName? && IsListing(db, t, ids) && 0 <= p < |ids| && 0 <= q < |ids|
    requires First(db, t, ids[p]) == First(db, t, ids[q])
    ensures IsListing(db, t, ids[p := ids[q]][q := ids[p]])
  {
    var other := ids[p := ids[q]][q := ids[p]];
    forall c
      ensures c in other <==> c in ids
    {
      if c in ids {
        var i :| 0 <= i < |ids| && ids[i] == c;
        assert other[if i == p then q else if i == q then p else i] == c;
      }
      if c in other {
        var i :| 0 <= i < |other| && other[i] == c;
        assert ids[if i == p then q else if i == q then p else i] == c;
      }
    }
    assert forall i | 0 <= i < |ids| :: First(db, t, other[i]) == First(db, t, ids[i]);
  }

  /** All answers of the server choose the same customer exactly when no other customer of the name shares
      the chosen customer's first name. */
  lemma ChoiceFixedIff(db: Db, t: Input, ids: seq<int>)
    requires t.lookup.ByName? && IsListing(db, t, ids) && ids != []
    ensures (forall other :: IsListing(db, t, other) ==> other != [] && Middle(other) == Middle(ids))
      <==> Alone(db, t, Middle(ids))
  {
    var m := Middle(ids);
    if Alone(db, t, m) {
      MiddleIsMedian(db, t, ids);
      forall other | IsListing(db, t, other)
        ensures other != [] && Middle(other) == m
      {
        MedianIsMiddle(db, t, other, m);
      }
    } else {
      var c :| c in Named(db, t) && First(db, t, c) == First(db, t, m) && c != m;
      var q :| 0 <= q < |ids| && ids[q] == c;
      var p := (|ids| + 1) / 2 - 1;
      SwappedListing(db, t, ids, p, q);
      var other := ids[p := ids[q]][q := ids[p]];
      assert IsListing(db, t, other) && Middle(other) == c;
    }
  }

  /** The customer chosen by name is the median of the listing by first name. */
  lemma MiddleSplits(db: Db, t: Input, ids: seq<int>) returns (before: seq<int>, after: seq<int>)
    requires t.lookup.ByName? && IsListing(db, t, ids) && ids != []
    ensures t.Key(Middle(ids)) in db.customer && db.customer[t.Key(Middle(ids))].last == t.lookup.last
    ensures ids == before + [Middle(ids)] + after
    ensures |before| <= |after| <= |before| + 1
    ensures forall c <- before :: NotAfter(First(db, t, c), First(db, t, Middle(ids)))
    ensures forall c <- after :: NotAfter(First(db, t, Middle(ids)), First(db, t, c))
  {
    var m := (|ids| + 1) / 2 - 1;
    before, after := ids[..m], ids[m + 1..];
    assert Middle(ids) in ids;
  }

  // The UPDATE statements; without a matching row they change nothing, and a NULL balance stays NULL.

  function PayDistrict(district: map<DKey, District>, k: DKey, amount: int): map<DKey, District> {
    if k in district then district[k := district[k].(ytd := district[k].ytd + amount)] else district
  }

  function PayWarehouse(warehouse: map<int, Warehouse>, w: int, amount: int): map<int, Warehouse> {
    if w in warehouse then warehouse[w := warehouse[w].(ytd := warehouse[w].ytd + amount)] else warehouse
  }

  function PayCustomer(customer: map<CKey, Customer>, k: CKey, amount: int): map<CKey, Customer> {
    if k in customer
    then customer[k := customer[k].(balance := Plus(customer[k].balance, Some(-amount)),
                                    ytdPayment := customer[k].ytdPayment + amount,
                                    paymentCnt := customer[k].paymentCnt + 1)]
    else customer
  }

  function Paying(db: Db, t: Input, c: CKey): Db {
    db.(district := PayDistrict(db.district, t.District(), t.amount),
        warehouse := PayWarehouse(db.warehouse, t.w, t.amount),
        customer := PayCustomer(db.customer, c, t.amount),
        history := db.history + [History(c, t.w, t.d, t.amount)])
  }

  /** The client reads every row it updates and gives up when one is missing, or the balance is NULL.
      `ids` is the answer to its query by name. */
  function ClientPayment(db: Db, t: Input, ids: seq<int>): Result {
    if t.District() !in db.district || t.w !in db.warehouse || (t.lookup.ByName? && ids == []) then Result(db, Failed)
    else
      var c := t.Key(if t.lookup.ById? then t.lookup.c else Middle(ids));
      if c !in db.customer || db.customer[c].balance.None? then Result(db, Failed)
      else Result(Paying(db, t, c), Committed)
  }

  /** The procedure gives up when nobody has the name, or the history row refers to a row that a foreign key
      does not find.  `ids` is the answer to its own query by name. */
  function ProcPayment(db: Db, t: Input, ids: seq<int>): Result {
    if t.lookup.ByName? && ids == [] then Result(db, Failed)
    else
      var c := t.Key(if t.lookup.ById? then t.lookup.c else NumberedMiddle(ids));
      if db.foreignKeys && (c !in db.customer || t.District() !in db.district) then Result(db, Failed)
      else Result(Paying(db, t, c), Committed)
  }

  // When the two forms agree.

  ghost predicate FormsAgree(db: Db, t: Input) {
    forall a, b :: IsListing(db, t, a) && IsListing(db, t, b) ==> ClientPayment(db, t, a) == ProcPayment(db, t, b)
  }

  /** The guards of the procedure. */
  predicate ProcFails(db: Db, t: Input) {
    || (t.lookup.ByName? && Named(db, t) == {})
    || (db.foreignKeys && (t.District() !in db.district || (t.lookup.ById? && t.Key(t.lookup.c) !in db.customer)))
  }

  /** The customer that every answer to the queries charges. */
  predicate IsCharged(db: Db, t: Input, c: int) {
    match t.lookup
    case ById(x) => c == x && t.Key(c) in db.customer
    case ByName(_) => IsMedian(db, t, c)
  }

  /** Everything the client reads exists, and the name chooses one customer. */
  ghost predicate Payable(db: Db, t: Input) {
    && t.District() in db.district && t.w in db.warehouse
    && exists c :: IsCharged(db, t, c) && t.Key(c) in db.customer && db.customer[t.Key(c)].balance.Some?
  }

  lemma PayableAgrees(db: Db, t: Input, a: seq<int>, b: seq<int>)
    requires Payable(db, t) && IsListing(db, t, a) && IsListing(db, t, b)
    ensures ClientPayment(db, t, a) == ProcPayment(db, t, b)
    ensures ProcPayment(db, t, b).outcome == Committed
    ensures exists c ::
      IsCharged(db, t, c) && t.Key(c) in db.customer
      && ProcPayment(db, t, b).db == Paying(db, t, t.Key(c))
  {
    var c :| IsCharged(db, t, c) && t.Key(c) in db.customer && db.customer[t.Key(c)].balance.Some?;
    if t.lookup.ByName? {
      MedianIsMiddle(db, t, a, c);
      MedianIsMiddle(db, t, b, c);
      assert NumberedMiddle(b) == Middle(b);
    }
  }

  lemma ProcFailsAgrees(db: Db, t: Input, a: seq<int>, b: seq<int>)
    requires ProcFails(db, t) && IsListing(db, t, a) && IsListing(db, t, b)
    ensures ClientPayment(db, t, a) == ProcPayment(db, t, b) == Result(db, Failed)
  {
    if t.lookup.ByName? {
      EmptyListing(db, t, a);
      EmptyListing(db, t, b);
    }
  }

  /** Otherwise some answers of the server make them differ. */
  lemma Disagree(db: Db, t: Input) returns (a: seq<int>, b: seq<int>)
    requires !ProcFails(db, t) && !Payable(db, t)
    ensures IsListing(db, t, a) && IsListing(db, t, b) && ClientPayment(db, t, a) != ProcPayment(db, t, b)
  {
    a := [];
    b := [];
    if t.lookup.ById? {
      assert t.Key(t.lookup.c) in db.customer ==> IsCharged(db, t, t.lookup.c);
      return;
    }
    b := OrderedExists(db, t, Named(db, t));
    a := b;
    var m := Middle(b);
    assert m in b && t.Key(m) in db.customer && NumberedMiddle(b) == m;
    ChoiceFixedIff(db, t, b);
    MiddleIsMedian(db, t, b);
    if !Alone(db, t, m) {
      a :| IsListing(db, t, a) && !(a != [] && Middle(a) == m);
      if a != [] {
        PayingsDiffer(db, t, t.Key(Middle(a)), t.Key(m));
      }
    }
  }

  /** Charging different customers leaves different databases. */
  lemma PayingsDiffer(db: Db, t: Input, a: CKey, b: CKey)
    requires a != b
    ensures Paying(db, t, a) != Paying(db, t, b)
  {
    var n := |db.history|;
    assert Paying(db, t, a).history[n].c == a && Paying(db, t, b).history[n].c == b;
  }

  /** The two forms agree, whatever the server answers to their queries, exactly when the procedure fails
      anyway, or all rows exist and no tie leaves the choice of the customer open. */
  lemma PaymentFormsAgree(db: Db, t: Input)
    ensures FormsAgree(db, t) <==> ProcFails(db, t) || Payable(db, t)
  {
    if ProcFails(db, t) || Payable(db, t) {
      forall a, b | IsListing(db, t, a) && IsListing(db, t, b)
        ensures ClientPayment(db, t, a) == ProcPayment(db, t, b)
      {
        if ProcFails(db, t) {
          ProcFailsAgrees(db, t, a, b);
        } else {
          PayableAgrees(db, t, a, b);
        }
      }
    } else {
      var _, _ := Disagree(db, t);
    }
  }

  /** Two customers of one name. */
  const TWINS := Db(
    map[1 := Warehouse(0, 0)],
    map[DKey(1, 1) := District(0, 1, 0)],
    map[CKey(1, 1, 1) := Customer("AL", "BARBARBAR", false, 0, Some(0), 0, 0, 0),
        CKey(1, 1, 2) := Customer("AL", "BARBARBAR", false, 0, Some(0), 0, 0, 0)],
    [], map[], map[], map[], map[], map[], false)

  /** All rows exist, and the two queries may list the twins in different orders. */
  lemma TieDiffers()
    ensures var t := Input(1, 1, 1, 1, ByName("BARBARBAR"), 100);
      && Generated(t, 1)
      && IsListing(TWINS, t, [1, 2]) && IsListing(TWINS, t, [2, 1])
      && ClientPayment(TWINS, t, [1, 2]).outcome == ProcPayment(TWINS, t, [2, 1]).outcome == Committed
      && ClientPayment(TWINS, t, [1, 2]) != ProcPayment(TWINS, t, [2, 1])
  {
    var t := Input(1, 1, 1, 1, ByName("BARBARBAR"), 100);
    forall c
      ensures c in Named(TWINS, t) <==> c == 1 || c == 2
    {
      if c == 1 || c == 2 {
        assert t.Key(c) in TWINS.customer.Keys && t.Key(c).c == c;
      }
    }
    assert LastName(0) == "BARBARBAR";
    NotAfterTotal("AL", "AL");
    PayingsDiffer(TWINS, t, CKey(1, 1, 1), CKey(1, 1, 2));
  }

  lemma PayingKeepsYtd(db: Db, t: Input, c: CKey)
    requires Ytd(db) && t.District() in db.district && t.w in db.warehouse
    ensures Ytd(Paying(db, t, c))
  {
    var after, row := Paying(db, t, c), History(c, t.w, t.d, t.amount);
    forall w <- db.warehouse
      ensures after.warehouse[w].ytd == Sum(after.district, DistrictYtdIn(w))
      ensures after.warehouse[w].ytd == SumRows(after.history, PaidIn(w))
    {
      SumUpdate(db.district, DistrictYtdIn(w), t.District(), after.district[t.District()]);
      SumRowsAppend(db.history, PaidIn(w), row);
    }
    forall d <- db.district
      ensures after.district[d].ytd == SumRows(after.history, PaidInDistrict(d))
    {
      SumRowsAppend(db.history, PaidInDistrict(d), row);
    }
  }

  lemma PayingKeepsBalance(db: Db, t: Input, c: CKey, x: CKey)
    requires c in db.customer && x in db.customer && Balance(db, x)
    ensures x in Paying(db, t, c).customer && Balance(Paying(db, t, c), x)
  {
    SumRowsAppend(db.history, PaidBy(x), History(c, t.w, t.d, t.amount));
    assert Delivered(Paying(db, t, c), x) == Delivered(db, x);
  }

  lemma PayingKeepsBalances(db: Db, t: Input, c: CKey)
    requires Balances(db) && c in db.customer
    ensures Balances(Paying(db, t, c))
  {
    var after := Paying(db, t, c);
    assert after.customer.Keys == db.customer.Keys;
    forall x <- after.customer
      ensures Balance(after, x)
    {
      PayingKeepsBalance(db, t, c, x);
    }
  }

  lemma PayingKeepsBook(db: Db, t: Input, c: CKey)
    requires Book(db)
    ensures Book(Paying(db, t, c))
  {
    var after := Paying(db, t, c);
    assert after.district.Keys == db.district.Keys && after.customer.Keys == db.customer.Keys;
    assert forall d <- db.district :: after.district[d].nextOID == db.district[d].nextOID;
  }

  lemma PayingKeepsConsistent(db: Db, t: Input, c: CKey, W: int)
    requires Consistent(db, W) && t.District() in db.district && t.w in db.warehouse && c in db.customer
    ensures Consistent(Paying(db, t, c), W)
  {
    PayingKeepsBook(db, t, c);
    PayingKeepsYtd(db, t, c);
    PayingKeepsBalances(db, t, c);
  }

  lemma PaymentEffect(db: Db, t: Input, ids: seq<int>, W: int)
    requires Rows(db, W) && Balances(db) && Generated(t, W) && IsListing(db, t, ids)
    ensures ClientPayment(db, t, ids) == ProcPayment(db, t, ids)
    ensures ProcPayment(db, t, ids) == if t.lookup.ByName? && ids == [] then Result(db, Failed)
      else Result(Paying(db, t, Chosen(t, ids)), Committed)
    ensures t.lookup.ById? || ids != [] ==> Chosen(t, ids) in db.customer
  {
    if t.lookup.ByName? && ids != [] {
      assert Middle(ids) in ids && NumberedMiddle(ids) == Middle(ids);
    }
  }

  /** Every Payment keeps the database consistent, in either form and whatever the server answers. */
  lemma PaymentKeepsConsistent(db: Db, t: Input, ids: seq<int>, W: int)
    requires Consistent(db, W) && Generated(t, W) && IsListing(db, t, ids)
    ensures ClientPayment(db, t, ids) == ProcPayment(db, t, ids)
    ensures Consistent(ProcPayment(db, t, ids).db, W)
    ensures ProcPayment(db, t, ids).outcome == if t.lookup.ByName? && Named(db, t) == {} then Failed else Committed
    ensures ProcPayment(db, t, ids).db.stock == db.stock
  {
    PaymentEffect(db, t, ids, W);
    if t.lookup.ByName? {
      EmptyListing(db, t, ids);
    }
    if t.lookup.ById? || ids != [] {
      PayingKeepsConsistent(db, t, Chosen(t, ids), W);
    }
  }

  /** In a consistent database the forms agree, whatever the server answers to their queries, exactly when
      nobody has the name or the median is alone with the first name. */
  lemma ConsistentFormsAgree(db: Db, t: Input, W: int)
    requires Consistent(db, W) && Generated(t, W)
    ensures FormsAgree(db, t) <==> t.lookup.ById? || Named(db, t) == {} || exists c :: IsMedian(db, t, c)
  {
    PaymentFormsAgree(db, t);
    if c :| IsMedian(db, t, c) {
      assert t.lookup.ByName? ==> IsCharged(db, t, c);
    }
    if t.lookup.ById? {
      assert IsCharged(db, t, t.lookup.c);
    }
  }

  /** Where a name settles the customer, all answers lead to the same payment. */
  lemma SettledCharges(db: Db, t: Input, a: seq<int>, b: seq<int>, W: int)
    requires Rows(db, W) && Balances(db) && Generated(t, W) && IsListing(db, t, a) && IsListing(db, t, b)
    requires t.lookup.ByName? ==> Named(db, t) == {} || exists c :: IsMedian(db, t, c)
    ensures ProcPayment(db, t, a) == ProcPayment(db, t, b)
  {
    PaymentEffect(db, t, a, W);
    PaymentEffect(db, t, b, W);
    if t.lookup.ByName? {
      EmptyListing(db, t, a);
      EmptyListing(db, t, b);
      if c :| IsMedian(db, t, c) {
        MedianIsMiddle(db, t, a, c);
        MedianIsMiddle(db, t, b, c);
      }
    }
  }

  /** Otherwise the procedure can charge two customers. */
  lemma UnsettledCharges(db: Db, t: Input, W: int) returns (a: seq<int>, b: seq<int>)
    requires Rows(db, W) && Balances(db) && Generated(t, W)
    requires t.lookup.ByName? && Named(db, t) != {} && forall c :: !IsMedian(db, t, c)
    ensures IsListing(db, t, a) && IsListing(db, t, b)
    ensures var n := |db.history|;
      && |ProcPayment(db, t, a).db.history| == |ProcPayment(db, t, b).db.history| == n + 1
      && ProcPayment(db, t, a).db.history[n] != ProcPayment(db, t, b).db.history[n]
  {
    a := OrderedExists(db, t, Named(db, t));
    EmptyListing(db, t, a);
    MiddleIsMedian(db, t, a);
    ChoiceFixedIff(db, t, a);
    b :| IsListing(db, t, b) && !(b != [] && Middle(b) == Middle(a));
    EmptyListing(db, t, b);
    PaymentEffect(db, t, a, W);
    PaymentEffect(db, t, b, W);
  }
}
