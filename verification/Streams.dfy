/** The 48 random streams of the TPC-H generator and their per-row boundary discipline. */
module Streams {
  import opened Generators

  datatype Table = TNone | TPart | TPsupp | TSupp | TCust | TOrder | TLine | TOrderLine | TPartPsupp | TNation | TRegion

  datatype Seed = Seed(value: int, usage: int)

  const STREAMS := 48
  const MAX_STREAM := 47   // the row functions loop below this, so the last stream is not realigned

  /** The table a stream belongs to. */
  function Owner(s: int): Table {
    if s <= 4 then TPart
    else if s == 5 then TNone
    else if s == 6 || s == 37 then TPart
    else if s <= 9 then TPsupp
    else if s <= 13 || s == 38 || s == 40 || s == 43 then TOrder
    else if s <= 25 || s == 39 then TLine
    else if s <= 31 then TCust
    else if s == 41 then TNation
    else if s == 42 then TRegion
    else TSupp
  }

  /** How many draws of a stream a row may use. */
  function Boundary(s: int): nat {
    if s == 37 then 92
    else if s == 7 || s == 8 then 4
    else if s == 9 then 8
    else if 14 <= s <= 24 then 7
    else if s == 25 then 14
    else if s == 26 || s == 32 then 9
    else if s == 28 || s == 34 then 3
    else if s == 6 || s == 12 || s == 31 || s == 36 || s == 41 || s == 42 then 2
    else 1
  }

  ghost predicate Valid(ss: seq<Seed>) {
    |ss| == STREAMS && forall i :: 0 <= i < STREAMS ==> 0 < ss[i].value < M
  }

  /** The start value of each stream. */
  function StartValue(s: int): (value: int)
    ensures 0 < value < M
  {
    match s
    case 0 => 1 case 1 => 46831694 case 2 => 1841581359 case 3 => 1193163244
    case 4 => 727633698 case 5 => 933588178 case 6 => 804159733 case 7 => 1671059989
    case 8 => 1051288424 case 9 => 1961692154 case 10 => 1227283347 case 11 => 1171034773
    case 12 => 276090261 case 13 => 1066728069 case 14 => 209208115 case 15 => 554590007
    case 16 => 721958466 case 17 => 1371272478 case 18 => 675466456 case 19 => 1808217256
    case 20 => 2095021727 case 21 => 1769349045 case 22 => 904914315 case 23 => 373135028
    case 24 => 717419739 case 25 => 1095462486 case 26 => 881155353 case 27 => 1489529863
    case 28 => 1521138112 case 29 => 298370230 case 30 => 1140279430 case 31 => 1335826707
    case 32 => 706178559 case 33 => 110356601 case 34 => 884434366 case 35 => 962338209
    case 36 => 1341315363 case 37 => 709314158 case 38 => 591449447 case 39 => 431918286
    case 40 => 851767375 case 41 => 606179079 case 42 => 1500869201 case 43 => 1434868289
    case 44 => 263032577 case 45 => 753643799 case 46 => 202794285
    case _ => 715851524
  }

  method InitSeeds() returns (seeds: array<Seed>)
    ensures fresh(seeds) && Valid(seeds[..])
    ensures forall i :: 0 <= i < STREAMS ==> seeds[i] == Seed(StartValue(i), 0)
  {
    seeds := new Seed[STREAMS](s => Seed(StartValue(s), 0));
  }

  /** Between the two states every stream made as many steps as its usage grew. */
  ghost predicate Drew(before: seq<Seed>, after: seq<Seed>) {
    && |before| == |after| == STREAMS
    && forall i :: 0 <= i < STREAMS ==>
         before[i].usage <= after[i].usage && after[i].value == Steps(after[i].usage - before[i].usage, before[i].value)
  }

  /** One draw from stream s. */
  ghost function Drawn(ss: seq<Seed>, s: int): seq<Seed>
    requires 0 <= s < |ss|
  {
    ss[s := Seed(NextRand(ss[s].value), ss[s].usage + 1)]
  }

  lemma DrawnKeepsDrew(start: seq<Seed>, ss: seq<Seed>, s: int)
    requires Drew(start, ss) && Valid(ss) && 0 <= s < STREAMS
    ensures Drew(start, Drawn(ss, s)) && Valid(Drawn(ss, s))
  {
    var n := ss[s].usage - start[s].usage;
    StepsCompose(n, 1, start[s].value);
    assert Steps(1, ss[s].value) == Steps(0, NextRand(ss[s].value));
    StepsInRange(1, ss[s].value);
  }

  /** Advance stream s by one and return its new value. */
  method Draw(seeds: array<Seed>, s: int, ghost start: seq<Seed>) returns (value: int)
    requires Valid(seeds[..]) && Drew(start, seeds[..]) && 0 <= s < STREAMS
    modifies seeds
    ensures seeds[..] == Drawn(old(seeds[..]), s)
    ensures Valid(seeds[..]) && Drew(start, seeds[..])
    ensures value == seeds[s].value
  {
    DrawnKeepsDrew(start, seeds[..], s);
    value := NextRand(seeds[s].value);
    seeds[s] := Seed(value, seeds[s].usage + 1);
  }

  /** The n-th draw of stream s since `start`, scaled into lower .. upper. */
  ghost function At(start: seq<Seed>, s: int, n: nat, lower: int, upper: int): int
    requires 0 <= s < |start|
  {
    Scaled(lower, upper, Steps(n, start[s].value))
  }

  /** random: a value in lower .. upper from one draw of stream s. */
  method Random(seeds: array<Seed>, lower: int, upper: int, s: int, ghost start: seq<Seed>) returns (r: int)
    requires Valid(seeds[..]) && Drew(start, seeds[..]) && 0 <= s < STREAMS && lower <= upper
    modifies seeds
    ensures seeds[..] == Drawn(old(seeds[..]), s)
    ensures Valid(seeds[..]) && Drew(start, seeds[..])
    ensures lower <= r <= upper && r == At(start, s, seeds[s].usage - start[s].usage, lower, upper)
  {
    var value := Draw(seeds, s, start);
    ScaledInRange(lower, upper, value);
    r := Scaled(lower, upper, value);
  }

  /** The state in which only stream s differs, by n draws. */
  ghost predicate DrawnTimes(before: seq<Seed>, after: seq<Seed>, s: int, n: int) {
    && |before| == |after| && 0 <= s < |after|
    && after[s].usage == before[s].usage + n
    && forall i :: 0 <= i < |after| && i != s ==> after[i] == before[i]
  }

  /** A random string: its length, and the draw each group of five characters is spelled from. */
  datatype RandString = RandString(length: int, groups: seq<int>)

  /** Groups of five characters in a string of the given length. */
  function Groups(length: nat): nat {
    (length + 4) / 5
  }

  lemma GroupsNext(i: nat)
    ensures Groups(i + 1) == Groups(i) + if i % 5 == 0 then 1 else 0
  {
  }

  ghost function StringAt(start: seq<Seed>, s: int, min: nat, max: int): RandString
    requires 0 <= s < |start|
  {
    var length := At(start, s, 1, min, max);
    RandString(length, GroupsAt(start[s].value, Groups(if length < 0 then 0 else length)))
  }

  ghost function GroupsAt(value: int, n: nat): seq<int> {
    if n == 0 then [] else GroupsAt(value, n - 1) + [Steps(n + 1, value)]
  }

  /** aRand: a length, and one more draw for every five characters. */
  method ARand(seeds: array<Seed>, min: int, max: int, s: int, ghost start: seq<Seed>) returns (a: RandString)
    requires Valid(seeds[..]) && Drew(start, seeds[..]) && 0 <= s < STREAMS && 0 <= min <= max
    requires seeds[s].usage == start[s].usage
    modifies seeds
    ensures Valid(seeds[..]) && Drew(start, seeds[..])
    ensures a == StringAt(start, s, min, max) && min <= a.length <= max && |a.groups| == Groups(a.length)
    ensures DrawnTimes(old(seeds[..]), seeds[..], s, 1 + |a.groups|)
  {
    var length := Random(seeds, min, max, s, start);
    var groups := [];
    for i := 0 to length
      invariant Valid(seeds[..]) && Drew(start, seeds[..])
      invariant |groups| == Groups(i) && groups == GroupsAt(start[s].value, Groups(i))
      invariant DrawnTimes(old(seeds[..]), seeds[..], s, 1 + |groups|)
    {
      GroupsNext(i);
      if i % 5 == 0 {
        var group := Draw(seeds, s, start);
        groups := groups + [group];
      }
    }
    assert length == At(start, s, 1, min, max);
    a := RandString(length, groups);
  }

  /** vStr(25, s): addresses have 10 to 40 characters and take at most 9 draws. */
  method VStr25(seeds: array<Seed>, s: int, ghost start: seq<Seed>) returns (a: RandString)
    requires Valid(seeds[..]) && Drew(start, seeds[..]) && 0 <= s < STREAMS
    requires seeds[s].usage == start[s].usage
    modifies seeds
    ensures Valid(seeds[..]) && Drew(start, seeds[..])
    ensures a == StringAt(start, s, 10, 40) && 10 <= a.length <= 40 && 2 <= |a.groups| <= 8
    ensures DrawnTimes(old(seeds[..]), seeds[..], s, 1 + |a.groups|)
  {
    a := ARand(seeds, 10, 40, s, start);
  }

  const TEXT_POOL_SIZE := 300 * 1024 * 1024

  /** A slice of the text pool. */
  datatype Text = Text(offset: int, length: int)

  /** The text made from the draws n and n + 1 of stream s. */
  ghost function TextAt(start: seq<Seed>, s: int, n: nat, min: int, max: int): Text
    requires 0 <= s < |start|
  {
    Text(At(start, s, n, 0, TEXT_POOL_SIZE - max), At(start, s, n + 1, min, max))
  }

  /** makeText: a slice of the text pool, in bounds. */
  method MakeText(seeds: array<Seed>, min: int, max: int, s: int, ghost start: seq<Seed>) returns (text: Text)
    requires Valid(seeds[..]) && Drew(start, seeds[..]) && 0 <= s < STREAMS && 0 <= min <= max <= TEXT_POOL_SIZE
    modifies seeds
    ensures Valid(seeds[..]) && Drew(start, seeds[..])
    ensures text == TextAt(start, s, old(seeds[s].usage) - start[s].usage + 1, min, max)
    ensures min <= text.length <= max && 0 <= text.offset && text.offset + text.length <= TEXT_POOL_SIZE
    ensures DrawnTimes(old(seeds[..]), seeds[..], s, 2)
  {
    var offset := Random(seeds, 0, TEXT_POOL_SIZE - max, s, start);
    var length := Random(seeds, min, max, s, start);
    text := Text(offset, length);
  }

  datatype Phone = Phone(country: int, aCode: int, exChg: int, number: int)

  ghost function PhoneAt(start: seq<Seed>, s: int, nation: int): Phone
    requires 0 <= s < |start|
  {
    Phone(10 + nation % 90, At(start, s, 1, 100, 999), At(start, s, 2, 100, 999), At(start, s, 3, 1000, 9999))
  }

  /** genPhone: three draws. */
  method GenPhone(seeds: array<Seed>, nation: int, s: int, ghost start: seq<Seed>) returns (phone: Phone)
    requires Valid(seeds[..]) && Drew(start, seeds[..]) && 0 <= s < STREAMS
    requires seeds[s].usage == start[s].usage
    modifies seeds
    ensures Valid(seeds[..]) && Drew(start, seeds[..])
    ensures phone == PhoneAt(start, s, nation)
    ensures 100 <= phone.aCode <= 999 && 100 <= phone.exChg <= 999 && 1000 <= phone.number <= 9999
    ensures DrawnTimes(old(seeds[..]), seeds[..], s, 3)
  {
    var aCode := Random(seeds, 100, 999, s, start);
    var exChg := Random(seeds, 100, 999, s, start);
    var number := Random(seeds, 1000, 9999, s, start);
    phone := Phone(10 + nation % 90, aCode, exChg, number);
  }

  // Rows.

  function Child(t: Table): Table {
    match t
    case TPart => TPsupp
    case TOrder => TLine
    case _ => TNone
  }

  /** The combined tables stand for their parent. */
  function Parent(t: Table): Table {
    match t
    case TOrderLine => TOrder
    case TPartPsupp => TPart
    case _ => t
  }

  /** The streams a row of a table draws from.  A row of a child table is made with its parent's. */
  predicate Draws(t: Table, s: int) {
    0 <= s < STREAMS &&
    match t
    case TOrder | TLine | TOrderLine => 11 <= s <= 25 || s == 38 || s == 40 || s == 43
    case TPart | TPsupp | TPartPsupp => 0 <= s <= 4 || 6 <= s <= 9 || s == 37
    case TSupp => 32 <= s <= 36 || 44 <= s <= 47
    case TCust => 26 <= s <= 31
    case TNation => s == 41
    case TRegion => s == 42
    case TNone => false
  }

  /** Two states in which a row of t draws the same. */
  ghost predicate SameDraws(t: Table, x: seq<Seed>, y: seq<Seed>) {
    && |x| == |y| == STREAMS
    && forall s :: 0 <= s < STREAMS && Draws(t, s) ==> x[s].value == y[s].value
  }

  /** The streams rowStop realigns after a row of table t.  Tables without a child also move the stream of no table. */
  predicate Realigned(t: Table, s: int) {
    0 <= s < MAX_STREAM && (Owner(s) == Parent(t) || Owner(s) == Child(Parent(t)))
  }

  method RowStart(seeds: array<Seed>)
    requires Valid(seeds[..])
    modifies seeds
    ensures Valid(seeds[..])
    ensures forall i :: 0 <= i < STREAMS ==> seeds[i] == if i < MAX_STREAM then old(seeds[i]).(usage := 0)
      else old(seeds[i])
  {
    for i := 0 to MAX_STREAM
      invariant forall j :: 0 <= j < STREAMS ==> seeds[j] == if j < i then old(seeds[j]).(usage := 0) else old(seeds[j])
    {
      seeds[i] := seeds[i].(usage := 0);
    }
  }

  method RowStop(seeds: array<Seed>, t: Table)
    requires Valid(seeds[..])
    requires forall i :: Realigned(t, i) ==> seeds[i].usage <= Boundary(i)
    modifies seeds
    ensures Valid(seeds[..])
    ensures forall i :: 0 <= i < STREAMS ==>
      seeds[i] == if Realigned(t, i) then old(seeds[i]).(value :=
        Steps(Boundary(i) - old(seeds[i]).usage, old(seeds[i]).value)) else old(seeds[i])
  {
    for i := 0 to MAX_STREAM
      invariant Valid(seeds[..])
      invariant forall j :: 0 <= j < STREAMS ==>
        seeds[j] == if j < i && Realigned(t, j) then old(seeds[j]).(value :=
          Steps(Boundary(j) - old(seeds[j]).usage, old(seeds[j]).value)) else old(seeds[j])
    {
      if Owner(i) == Parent(t) || Owner(i) == Child(Parent(t)) {
        StepsInRange(Boundary(i) - seeds[i].usage, seeds[i].value);
        var value := NthElement(Boundary(i) - seeds[i].usage, seeds[i].value);
        seeds[i] := seeds[i].(value := value);
      }
    }
  }

  /** A row leaves every realigned stream `Boundary` steps further, whatever it drew; and the stream that is
      not realigned as many steps further as it drew. */
  lemma RowAligned(before: seq<Seed>, start: seq<Seed>, made: seq<Seed>, after: seq<Seed>, t: Table, s: int)
    requires Drew(start, made) && |before| == |after| == STREAMS && 0 <= s < STREAMS
    requires start[s] == if s < MAX_STREAM then before[s].(usage := 0) else before[s]
    requires Realigned(t, s) ==> made[s].usage <= Boundary(s)
    requires after[s] == if Realigned(t, s) then made[s].(value := Steps(Boundary(s) - made[s].usage, made[s].value))
      else made[s]
    ensures after[s].value == Steps(if Realigned(t, s) then Boundary(s)
      else made[s].usage - start[s].usage, before[s].value)
  {
    if Realigned(t, s) {
      StepsCompose(made[s].usage, Boundary(s) - made[s].usage, before[s].value);
    }
  }
}
