/** The first rows of the generated tables, column by column as the tests of the generator list them: at scale 1,
    from the start seeds.  Texts are known by their lengths. */
module FirstRows {
  import opened Division
  import opened Generators
  import opened Streams
  import opened Distributions
  import opened Parts
  import opened Orders
  import opened Parties
  import opened Driver
  import opened Money
  import opened Decimal

  /** The place of stream s for row k + 1. */
  ghost function PlaceOf(k: nat, s: int): int {
    Steps(k * Boundary(s), StartValue(s))
  }

  ghost predicate IsPlace(start: seq<Seed>, k: nat) {
    |start| == STREAMS && forall s {:trigger PlaceOf(k, s)} :: 0 <= s < STREAMS ==> start[s].value == PlaceOf(k, s)
  }

  /** These are the places to which the rows before it move the start seeds. */
  lemma PlaceIsAhead(t: Table, k: nat, start: seq<Seed>, ss: seq<Seed>)
    requires IsPlace(start, k)
    requires |ss| == STREAMS && forall s :: 0 <= s < STREAMS ==> ss[s] == Seed(StartValue(s), 0)
    ensures SameDraws(t, start, Ahead(ss, t, k))
  {
    forall s | 0 <= s < STREAMS && Draws(t, s)
      ensures start[s].value == Ahead(ss, t, k)[s].value
    {
      assert Aligned(t, s) && start[s].value == PlaceOf(k, s);
    }
  }

  lemma {:induction false} StepsScale(n: nat, z: int)
    requires 0 <= z < M
    ensures Steps(n, z) == Steps(n, 1) * z % M
  {
    if n > 0 {
      StepsScale(n - 1, NextRand(z));
      StepsScale(n - 1, NextRand(1));
      var p := Steps(n - 1, 1);
      assert Steps(n, 1) == p * A % M;
      MulMod(p, z * A);
      MulMod(z, p * A);
      assert p * (z * A) == z * (p * A);
    }
  }

  lemma Next(n: nat, x: int, y: int)
    requires Steps(n, 1) == x && x * A % M == y
    ensures Steps(n + 1, 1) == y
  {
    StepsCompose(n, 1, 1);
    assert Steps(1, x) == Steps(0, NextRand(x));
  }

  /** The factor of n steps. */
  function Factor(n: nat): int {
    match n
    case 0 => 1
    case 1 => 16807
    case 2 => 282475249
    case 3 => 1622650073
    case 4 => 984943658
    case 5 => 1144108930
    case 6 => 470211272
    case 7 => 101027544
    case 8 => 1457850878
    case 9 => 1458777923
    case 10 => 2007237709
    case 11 => 823564440
    case 12 => 1115438165
    case 13 => 1784484492
    case 14 => 74243042
    case 15 => 114807987
    case 16 => 1137522503
    case 17 => 1441282327
    case _ => 0
  }

  lemma NextFactor(n: nat)
    requires n < 17
    ensures Factor(n) * A % M == Factor(n + 1)
  {
  }

  lemma {:induction false} FactorIs(n: nat)
    requires n <= 17
    ensures Steps(n, 1) == Factor(n)
  {
    if n > 0 {
      FactorIs(n - 1);
      NextFactor(n - 1);
      Next(n - 1, Factor(n - 1), Factor(n));
    }
  }

  lemma StepsBy(n: nat, z: int)
    requires n <= 17 && 0 <= z < M
    ensures Steps(n, z) == Factor(n) * z % M
  {
    StepsScale(n, z);
    FactorIs(n);
  }

  /** Two steps of a stream: from its start seed to its place for the row, and from there to a draw. */
  datatype Walk = Walk(seed: int, toPlace: int, place: int, toDraw: int, drawn: int)

  /** `walk` leads to the n-th draw of row k + 1 from stream s.  The quotients are those of the two products. */
  predicate Leads(walk: Walk, k: nat, s: int, n: nat) {
    && 0 <= s < STREAMS && k * Boundary(s) <= 17 && n <= 17 && StartValue(s) == walk.seed
    && 0 <= walk.place < M && Factor(k * Boundary(s)) * walk.seed == M * walk.toPlace + walk.place
    && 0 <= walk.drawn < M && Factor(n) * walk.place == M * walk.toDraw + walk.drawn
  }

  lemma LeadsTo(walk: Walk, start: seq<Seed>, k: nat, s: int, n: nat)
    requires Leads(walk, k, s, n) && IsPlace(start, k)
    ensures start[s].value == walk.place && Steps(n, walk.place) == walk.drawn
  {
    assert start[s].value == PlaceOf(k, s);
    StepsBy(k * Boundary(s), walk.seed);
    StepsBy(n, walk.place);
    DivModIs(Factor(k * Boundary(s)) * walk.seed, walk.toPlace, walk.place, M);
    DivModIs(Factor(n) * walk.place, walk.toDraw, walk.drawn, M);
  }

  /** A column made by a draw. */
  lemma Column(start: seq<Seed>, k: nat, s: int, n: nat, walk: Walk, lower: int, upper: int, value: int)
    requires IsPlace(start, k) && Leads(walk, k, s, n) && Scaled(lower, upper, walk.drawn) == value
    ensures At(start, s, n, lower, upper) == value
  {
    LeadsTo(walk, start, k, s, n);
  }

  /** Members of weight 1 are picked by number. */
  lemma EvenlyPicked(members: seq<int>, j: int)
    requires forall i :: 0 <= i < |members| ==> members[i] == i + 1
    requires 1 <= j <= |members|
    ensures Picked(members, j) == j - 1
  {
    assert Picks(members, j, j - 1);
  }

  function Even(n: nat): (d: Dist)
    ensures |d.members| == n && forall i :: 0 <= i < n ==> d.members[i] == i + 1
  {
    Dist(seq(n, i => 1), seq(n, i requires 0 <= i => i + 1))
  }

  lemma Pick(start: seq<Seed>, k: nat, s: int, n: nat, walk: Walk, count: nat, pos: int)
    requires IsPlace(start, k) && Leads(walk, k, s, n) && Scaled(1, count, walk.drawn) == pos + 1
    requires 0 <= pos < count
    ensures PickAt(start, s, n, Even(count).members) == pos
  {
    Column(start, k, s, n, walk, 1, count, pos + 1);
    EvenlyPicked(Even(count).members, pos + 1);
  }

  // Customers.

  lemma FirstCustomerPhone(start: seq<Seed>)
    requires IsPlace(start, 0)
    ensures PhoneAt(start, 28, 15) == Phone(25, 989, 741, 2988)
  {
    Column(start, 0, 28, 1, Walk(1521138112, 0, 1521138112, 11904, 2122914496), 100, 999, 989);
    Column(start, 0, 28, 2, Walk(1521138112, 0, 1521138112, 200087142, 1530623014), 100, 999, 741);
    Column(start, 0, 28, 3, Walk(1521138112, 0, 1521138112, 1149380053, 474388885), 1000, 9999, 2988);
  }

  /** Nation 15, 25-989-741-2988, 711.56, BUILDING. */
  lemma FirstCustomer(start: seq<Seed>, pool: string)
    requires IsPlace(start, 0)
    ensures var row := CustAt(start, 1, 25, Even(5), pool);
      && row.nation == 15 && row.phone == PhoneAt(start, 28, 15) && row.balance == 71156 && row.segment == 1
    ensures CustAt(start, 1, 25, Even(5), pool).address.length == 17
    ensures TextAt(start, 31, 1, 29, 116).length == 62
  {
    Column(start, 0, 27, 1, Walk(1489529863, 0, 1489529863, 11657, 1311534362), 0, 24, 15);
    Column(start, 0, 29, 1, Walk(298370230, 0, 298370230, 2335, 334139865), -99999, 999999, 71156);
    Pick(start, 0, 30, 1, Walk(1140279430, 0, 1140279430, 8924, 532314182), 5, 1);
    Column(start, 0, 26, 1, Walk(881155353, 0, 881155353, 6896, 530788159), 10, 40, 17);
    Column(start, 0, 31, 2, Walk(1335826707, 0, 1335826707, 175711690, 818941613), 29, 116, 62);
  }

  lemma SecondCustomerPhone(start: seq<Seed>)
    requires IsPlace(start, 1)
    ensures PhoneAt(start, 28, 13) == Phone(23, 768, 687, 3665)
  {
    Column(start, 1, 28, 1, Walk(1521138112, 1149380053, 474388885, 3712, 1594692531), 100, 999, 768);
    Column(start, 1, 28, 2, Walk(1521138112, 1149380053, 474388885, 62400064, 1401453957), 100, 999, 687);
    Column(start, 1, 28, 3, Walk(1521138112, 1149380053, 474388885, 358450766, 636015003), 1000, 9999, 3665);
  }

  /** Nation 13, 23-768-687-3665, 121.65, AUTOMOBILE. */
  lemma SecondCustomer(start: seq<Seed>, pool: string)
    requires IsPlace(start, 1)
    ensures var row := CustAt(start, 2, 25, Even(5), pool);
      && row.nation == 13 && row.phone == PhoneAt(start, 28, 13) && row.balance == 12165 && row.segment == 0
    ensures CustAt(start, 2, 25, Even(5), pool).address.length == 30
    ensures TextAt(start, 31, 1, 29, 116).length == 63
  {
    Column(start, 1, 27, 1, Walk(1489529863, 11657, 1311534362, 10264, 1185869326), 0, 24, 13);
    Column(start, 1, 29, 1, Walk(298370230, 2335, 334139865, 2615, 218974150), -99999, 999999, 12165);
    Pick(start, 1, 30, 1, Walk(1140279430, 8924, 532314182, 4166, 187583472), 5, 0);
    Column(start, 1, 26, 1, Walk(881155353, 598565664, 593975211, 4648, 1437380021), 10, 40, 30);
    Column(start, 1, 31, 2, Walk(1335826707, 175711690, 818941613, 107721768, 842708741), 29, 116, 63);
  }

  // Suppliers.

  /** Nation 17, 27-918-335-1736, 5755.94. */
  lemma FirstSupplier(start: seq<Seed>, pool: string)
    requires IsPlace(start, 0)
    ensures var row := SuppAt(start, 1, 25, pool);
      row.nation == 17 && row.phone == PhoneAt(start, 34, 17) && row.balance == 575594
    ensures PhoneAt(start, 34, 17) == Phone(27, 918, 335, 1736)
    ensures SuppAt(start, 1, 25, pool).address.length == 35
    ensures TextAt(start, 36, 1, 25, 100).length == 28
  {
    Column(start, 0, 33, 1, Walk(110356601, 0, 110356601, 863, 1485005646), 0, 24, 17);
    Column(start, 0, 35, 1, Walk(962338209, 0, 962338209, 7531, 1318933106), -99999, 999999, 575594);
    Column(start, 0, 34, 1, Walk(884434366, 0, 884434366, 6921, 1954068475), 100, 999, 918);
    Column(start, 0, 34, 2, Walk(884434366, 0, 884434366, 116336540, 561445754), 100, 999, 335);
    Column(start, 0, 34, 3, Walk(884434366, 0, 884434366, 668283314, 175642560), 1000, 9999, 1736);
    Column(start, 0, 32, 1, Walk(706178559, 0, 706178559, 5526, 1748407791), 10, 40, 35);
    Column(start, 0, 36, 2, Walk(1341315363, 0, 1341315363, 176433656, 110526955), 25, 100, 28);
  }

  lemma SecondSupplierPhone(start: seq<Seed>)
    requires IsPlace(start, 1)
    ensures PhoneAt(start, 34, 5) == Phone(15, 679, 861, 2259)
  {
    Column(start, 1, 34, 1, Walk(884434366, 668283314, 175642560, 1374, 1381974942), 100, 999, 679);
    Column(start, 1, 34, 2, Walk(884434366, 668283314, 175642560, 23103633, 1817207889), 100, 999, 861);
    Column(start, 1, 34, 3, Walk(884434366, 668283314, 175642560, 132716453, 300562789), 1000, 9999, 2259);
  }

  /** Nation 5, 15-679-861-2259, 4032.68. */
  lemma SecondSupplier(start: seq<Seed>, pool: string)
    requires IsPlace(start, 1)
    ensures var row := SuppAt(start, 2, 25, pool);
      row.nation == 5 && row.phone == PhoneAt(start, 34, 5) && row.balance == 403268
    ensures SuppAt(start, 2, 25, pool).address.length == 21
    ensures TextAt(start, 36, 1, 25, 100).length == 39
  {
    Column(start, 1, 33, 1, Walk(110356601, 863, 1485005646, 11622, 434946888), 0, 24, 5);
    Column(start, 1, 35, 1, Walk(962338209, 7531, 1318933106, 10322, 982508208), -99999, 999999, 403268);
    Column(start, 1, 32, 1, Walk(706178559, 479704557, 16273578, 127, 779602277), 10, 40, 21);
    Column(start, 1, 36, 2, Walk(1341315363, 176433656, 110526955, 14538471, 409953058), 25, 100, 39);
  }

  /** The draws that decide whether and how the comment of the first supplier is pressed: it is not, and the files
      do not show them. */
  lemma FirstSupplierPress(start: seq<Seed>, pool: string)
    requires IsPlace(start, 0)
    ensures CommentDrawsAt(start, pool).badPress == 1430 && CommentDrawsAt(start, pool).types == 29
    ensures At(start, 44, 1, 0, 9) == 5 && At(start, 47, 1, 0, 4) == 2
  {
    Column(start, 0, 46, 1, Walk(202794285, 0, 202794285, 1587, 307000206), 1, 10000, 1430);
    Column(start, 0, 45, 1, Walk(753643799, 0, 753643799, 5898, 632779787), 0, 100, 29);
    Column(start, 0, 44, 1, Walk(263032577, 0, 263032577, 2058, 1267176113), 0, 9, 5);
    Column(start, 0, 47, 1, Walk(715851524, 0, 715851524, 5602, 1113173374), 0, 4, 2);
  }

  // Parts and their suppliers.

  /** Manufacturer 1, brand 13, PROMO BURNISHED COPPER, size 7, 901.00. */
  lemma FirstPart(start: seq<Seed>)
    requires IsPlace(start, 0)
    ensures var row := PartAt(start, 1, 1, Even(150), Even(40));
      row.mfgr == 1 && row.brand == 13 && row.retailPrice == 90100
    ensures var row := PartAt(start, 1, 1, Even(150), Even(40));
      row.kind == 134 && row.container == 29
    ensures var row := PartAt(start, 1, 1, Even(150), Even(40));
      row.size == 7 && row.comment.length == 15
  {
    Column(start, 0, 0, 1, Walk(1, 0, 1, 0, 16807), 1, 5, 1);
    Column(start, 0, 1, 1, Walk(46831694, 0, 46831694, 366, 1121266256), 1, 5, 3);
    Pick(start, 0, 2, 1, Walk(1841581359, 0, 1841581359, 14412, 1923580149), 150, 134);
    Pick(start, 0, 4, 1, Walk(727633698, 0, 727633698, 5694, 1567676268), 40, 29);
    Column(start, 0, 3, 1, Walk(1193163244, 0, 1193163244, 9338, 292346222), 1, 50, 7);
    Column(start, 0, 6, 2, Walk(804159733, 0, 804159733, 105777392, 1272639893), 5, 22, 15);
  }

  /** Manufacturer 1, brand 13, LARGE BRUSHED BRASS, size 1, 902.00. */
  lemma SecondPart(start: seq<Seed>)
    requires IsPlace(start, 1)
    ensures var row := PartAt(start, 2, 1, Even(150), Even(40));
      row.mfgr == 1 && row.brand == 13 && row.retailPrice == 90200
    ensures var row := PartAt(start, 2, 1, Even(150), Even(40));
      row.size == 1 && row.comment.length == 16
  {
    Column(start, 1, 0, 1, Walk(1, 0, 16807, 0, 282475249), 1, 5, 1);
    Column(start, 1, 1, 1, Walk(46831694, 366, 1121266256, 8775, 952962167), 1, 5, 3);
    Column(start, 1, 3, 1, Walk(1193163244, 9338, 292346222, 2288, 20368818), 1, 50, 1);
    Column(start, 1, 6, 2, Walk(804159733, 105777392, 1272639893, 167400236, 1348567665), 5, 22, 16);
  }

  lemma SecondPartKind(start: seq<Seed>)
    requires IsPlace(start, 1)
    ensures var row := PartAt(start, 2, 1, Even(150), Even(40));
      row.kind == 97 && row.container == 8
  {
    Pick(start, 1, 2, 1, Walk(1841581359, 14412, 1923580149, 15054, 1392742305), 150, 97);
    Pick(start, 1, 4, 1, Walk(727633698, 5694, 1567676268, 12269, 458171233), 40, 8);
  }

  /** 3325 pieces from supplier 2 at 771.64. */
  lemma FirstPartFirst(start: seq<Seed>)
    requires IsPlace(start, 0)
    ensures var row := PartSuppAt(start, 1, 0, 1);
      row.suppKey == 2 && row.qty == 3325 && row.cost == 77164 && row.comment.length == 192
  {
    Column(start, 0, 7, 1, Walk(1671059989, 0, 1671059989, 13078, 714099657), 1, 9999, 3325);
    Column(start, 0, 8, 1, Walk(1051288424, 0, 1051288424, 8227, 1656578299), 100, 100000, 77164);
    Column(start, 0, 9, 2, Walk(1961692154, 0, 1961692154, 258036646, 2050768384), 49, 198, 192);
  }

  /** 4069 pieces from supplier 7502 at 357.84. */
  lemma FirstPartLast(start: seq<Seed>)
    requires IsPlace(start, 0)
    ensures var row := PartSuppAt(start, 1, 3, 1);
      row.suppKey == 7502 && row.qty == 4069 && row.cost == 35784 && row.comment.length == 155
  {
    Column(start, 0, 7, 4, Walk(1671059989, 0, 1671059989, 766431884, 873698814), 1, 9999, 4069);
    Column(start, 0, 8, 4, Walk(1051288424, 0, 1051288424, 482173574, 767070614), 100, 100000, 35784);
    Column(start, 0, 9, 8, Walk(1961692154, 0, 1961692154, 1331723588, 1520445776), 49, 198, 155);
  }

  /** 8895 pieces from supplier 3 at 378.49. */
  lemma SecondPartFirst(start: seq<Seed>)
    requires IsPlace(start, 1)
    ensures var row := PartSuppAt(start, 2, 0, 1);
      row.suppKey == 3 && row.qty == 8895 && row.cost == 37849 && row.comment.length == 103
  {
    Column(start, 1, 7, 1, Walk(1671059989, 766431884, 873698814, 6837, 1910272359), 1, 9999, 8895);
    Column(start, 1, 8, 1, Walk(1051288424, 482173574, 767070614, 6003, 811476557), 100, 100000, 37849);
    Column(start, 1, 9, 2, Walk(1961692154, 1331723588, 1520445776, 199996074, 787396346), 49, 198, 103);
  }

  /** The first five entries after five swaps with later places. */
  lemma FiveSwaps(sources: seq<int>)
    requires Sources(COLOURS, sources) && |sources| == 5
    requires forall i, j :: 0 <= i < j < 5 ==> sources[i] != sources[j] && sources[i] >= 5
    requires sources[4] >= 5
    ensures Spelled(COLOURS, sources)[..5] == sources
  {
    forall i | 0 <= i < 5
      ensures Spelled(COLOURS, sources)[i] == sources[i]
    {
      EntryDrawn(COLOURS, sources, i);
      Undisturbed(sources[..i], sources[i]);
    }
  }

  /** A place that no swap touches keeps its member. */
  lemma {:induction false} Undisturbed(sources: seq<int>, x: int)
    requires Sources(COLOURS, sources) && |sources| <= x < COLOURS && x !in sources
    ensures Spelled(COLOURS, sources)[x] == x
  {
    if sources != [] {
      Undisturbed(sources[..|sources| - 1], x);
    }
  }

  /** goldenrod, lavender, spring, chocolate, lace. */
  lemma FirstColours(start: seq<Seed>)
    requires IsPlace(start, 0)
    ensures PartAt(start, 1, 1, Even(150), Even(40)).colours == [32, 41, 82, 15, 40]
  {
    Column(start, 0, 37, 1, Walk(709314158, 0, 709314158, 5551, 761329009), 0, 91, 32);
    Column(start, 0, 37, 2, Walk(709314158, 0, 709314158, 93301615, 949085437), 1, 91, 41);
    Column(start, 0, 37, 3, Walk(709314158, 0, 709314158, 535961552, 1917893390), 2, 91, 82);
    Column(start, 0, 37, 4, Walk(709314158, 0, 709314158, 325327032, 304664260), 3, 91, 15);
    Column(start, 0, 37, 5, Walk(709314158, 0, 709314158, 377899344, 891203372), 4, 91, 40);
    LeadsTo(Walk(709314158, 0, 709314158, 5551, 761329009), start, 0, 37, 1);
    var n := COLOURS;
    var sources := SourcesAt(start, 37, n, n);
    DrawnSources(start, 37, n, n);
    FirstEntriesKept(n, sources, 5);
    assert sources[..5] == [32, 41, 82, 15, 40];
    FiveSwaps(sources[..5]);
  }

  // Nations and regions.

  /** The codes and the comments of Algeria and Argentina. */
  lemma FirstNations(first: seq<Seed>, second: seq<Seed>, c: Config)
    requires IsPlace(first, 0) && IsPlace(second, 1) && c.scale >= 1
    ensures RowAt(first, TNation, 1, c).code == 0 && RowAt(second, TNation, 2, c).code == 1
    ensures TextAt(first, 41, 1, 28, 115).length == 51 && TextAt(second, 41, 1, 28, 115).length == 76
  {
    Column(first, 0, 41, 2, Walk(606179079, 0, 606179079, 79735455, 580511286), 28, 115, 51);
    Column(second, 1, 41, 2, Walk(606179079, 79735455, 580511286, 76359170, 1186667224), 28, 115, 76);
  }

  /** The codes and the comments of Africa and America. */
  lemma FirstRegions(first: seq<Seed>, second: seq<Seed>, c: Config)
    requires IsPlace(first, 0) && IsPlace(second, 1) && c.scale >= 1
    ensures RowAt(first, TRegion, 1, c).code == 0 && RowAt(second, TRegion, 2, c).code == 1
    ensures TextAt(first, 42, 1, 28, 115).length == 115 && TextAt(second, 42, 1, 28, 115).length == 31
  {
    Column(first, 0, 42, 2, Walk(1500869201, 0, 1500869201, 197421014, 2129747991), 28, 115, 115);
    Column(second, 1, 42, 2, Walk(1500869201, 197421014, 2129747991, 280142340, 82660779), 28, 115, 31);
  }

  // Orders.

  /** Keys of the first ten orders. */
  lemma FirstKeys()
    ensures MakeSparse(1) == 1 && MakeSparse(7) == 7 && MakeSparse(8) == 32 && MakeSparse(10) == 34
  {
    SparseBits(1);
    SparseBits(7);
    SparseBits(8);
    SparseBits(10);
  }

  function Choices(): Dists {
    Dists(Even(5), Even(4), Even(7), Even(2))
  }

  /** Customer 36901, 1996-01-02, six lines; 5-LOW, clerk 951. */
  lemma FirstOrder(start: seq<Seed>)
    requires IsPlace(start, 0)
    ensures var (order, lineCount) := HeaderAt(start, 1, 1, Choices());
      order.custKey == 36901 && order.day == 93463 && lineCount == 6
    ensures var order := HeaderAt(start, 1, 1, Choices()).0;
      order.priority == 4 && order.clerk == 951 && order.comment.length == 34
  {
    Column(start, 0, 40, 1, Walk(851767375, 0, 851767375, 6666, 528280723), 1, 150000, 36900);
    Column(start, 0, 13, 1, Walk(1066728069, 0, 1066728069, 8348, 1305170527), 92001, 94406, 93463);
    Column(start, 0, 43, 1, Walk(1434868289, 0, 1434868289, 11229, 1737461060), 1, 7, 6);
    Pick(start, 0, 38, 1, Walk(591449447, 0, 591449447, 4628, 1936537413), 5, 4);
    Column(start, 0, 11, 1, Walk(1171034773, 0, 1171034773, 9164, 2041288703), 1, 1000, 951);
    Column(start, 0, 12, 2, Walk(276090261, 0, 276090261, 36316302, 557936595), 19, 78, 34);
  }

  /** 17 pieces of part 155190 from supplier 7706, 21168.23. */
  lemma FirstLine(start: seq<Seed>)
    requires IsPlace(start, 0)
    ensures var line := NumbersAt(start, 0, 1, Choices());
      line.partKey == 155190 && line.quantity == 17 && line.ePrice == 2116823
    ensures NumbersAt(start, 0, 1, Choices()).suppKey == 7706
    ensures var line := NumbersAt(start, 0, 1, Choices());
      line.discount == 4 && line.tax == 2
    ensures var line := NumbersAt(start, 0, 1, Choices());
      line.instruct == 0 && line.mode == 3 && line.comment.length == 23
  {
    Column(start, 0, 14, 1, Walk(209208115, 0, 209208115, 1637, 730058666), 1, 50, 17);
    Column(start, 0, 19, 1, Walk(1808217256, 0, 1808217256, 14151, 1666332895), 1, 200000, 155190);
    Column(start, 0, 20, 1, Walk(2095021727, 0, 2095021727, 16396, 888289477), 0, 3, 1);
    Column(start, 0, 15, 1, Walk(554590007, 0, 554590007, 4340, 915219669), 0, 10, 4);
    Column(start, 0, 16, 1, Walk(721958466, 0, 721958466, 5650, 673332512), 0, 8, 2);
    Pick(start, 0, 17, 1, Walk(1371272478, 0, 1371272478, 10732, 182038142), 4, 0);
    Pick(start, 0, 18, 1, Walk(675466456, 0, 675466456, 5286, 966167950), 7, 3);
    Column(start, 0, 25, 2, Walk(1095462486, 0, 1095462486, 144094712, 863834350), 10, 43, 23);
  }

  /** 1996-03-13, 1996-02-12, 1996-03-22; not shipped. */
  lemma FirstLineDates(start: seq<Seed>)
    requires IsPlace(start, 0)
    ensures var line := LineAt(start, 0, 0, 93463, 1, Choices());
      && line.sDate == 93534 && line.cDate == 93504 && line.rDate == 93543
      && line.shipped == false && line.returnFlag.None?
  {
    Column(start, 0, 21, 1, Walk(1769349045, 0, 1769349045, 13847, 1243339306), 1, 121, 71);
    Column(start, 0, 22, 1, Walk(904914315, 0, 904914315, 7082, 415704151), 30, 90, 41);
    Column(start, 0, 23, 1, Walk(373135028, 0, 373135028, 2920, 628166356), 1, 30, 9);
  }

  /** Customer 78002, 1996-12-01, one line; 1-URGENT, clerk 880. */
  lemma SecondOrder(start: seq<Seed>)
    requires IsPlace(start, 1)
    ensures var (order, lineCount) := HeaderAt(start, 2, 1, Choices());
      order.custKey == 78002 && order.day == 93797 && lineCount == 1
  {
    Column(start, 1, 40, 1, Walk(851767375, 6666, 528280723, 4134, 1116714763), 1, 150000, 78002);
    Column(start, 1, 13, 1, Walk(1066728069, 8348, 1305170527, 10214, 1603076831), 92001, 94406, 93797);
    Column(start, 1, 43, 1, Walk(1434868289, 11229, 1737461060, 13598, 25403514), 1, 7, 1);
  }

  lemma SecondOrderText(start: seq<Seed>)
    requires IsPlace(start, 1)
    ensures var order := HeaderAt(start, 2, 1, Choices()).0;
      order.priority == 0 && order.clerk == 880 && order.comment.length == 56
  {
    Pick(start, 1, 38, 1, Walk(591449447, 4628, 1936537413, 15156, 122146359), 5, 0);
    Column(start, 1, 11, 1, Walk(1171034773, 9164, 2041288703, 15975, 1887970496), 1, 1000, 880);
    Column(start, 1, 12, 2, Walk(276090261, 36316302, 557936595, 73389745, 1353837140), 19, 78, 56);
  }

  /** 38 pieces of part 106170 from supplier 1191, 44694.46. */
  lemma SecondOrderLine(start: seq<Seed>)
    requires IsPlace(start, 1)
    ensures var line := NumbersAt(start, 0, 1, Choices());
      line.partKey == 106170 && line.quantity == 38 && line.ePrice == 4469446
    ensures var line := NumbersAt(start, 0, 1, Choices());
      line.discount == 0 && line.tax == 5
  {
    Column(start, 1, 14, 1, Walk(209208115, 9842115, 1028926155, 8052, 1623561441), 1, 50, 38);
    Column(start, 1, 19, 1, Walk(1808217256, 85066886, 1805886022, 14133, 1139988703), 1, 200000, 106170);
    Column(start, 1, 15, 1, Walk(554590007, 26090474, 76674130, 600, 171914710), 0, 10, 0);
    Column(start, 1, 16, 1, Walk(721958466, 33964258, 2052498578, 16063, 1313778685), 0, 8, 5);
  }

  lemma SecondOrderLineSupplier(start: seq<Seed>)
    requires IsPlace(start, 1)
    ensures NumbersAt(start, 0, 1, Choices()).suppKey == 1191
  {
    Column(start, 1, 19, 1, Walk(1808217256, 85066886, 1805886022, 14133, 1139988703), 1, 200000, 106170);
    Column(start, 1, 20, 1, Walk(2095021727, 98559493, 231337517, 1810, 1144247149), 0, 3, 2);
  }

  lemma SecondOrderLineText(start: seq<Seed>)
    requires IsPlace(start, 1)
    ensures var line := NumbersAt(start, 0, 1, Choices());
      line.instruct == 2 && line.mode == 2 && line.comment.length == 31
  {
    Pick(start, 1, 17, 1, Walk(1371272478, 64510987, 972804443, 7613, 1131268890), 4, 2);
    Pick(start, 1, 18, 1, Walk(675466456, 31777060, 404326244, 3164, 872923800), 7, 2);
    Column(start, 1, 25, 2, Walk(1095462486, 37872450, 310697262, 40868430, 1343504028), 10, 43, 31);
  }

  /** 1997-01-28, 1997-01-14, 1997-02-02; not shipped. */
  lemma SecondOrderLineDates(start: seq<Seed>)
    requires IsPlace(start, 1)
    ensures var line := LineAt(start, 0, 0, 93797, 1, Choices());
      && line.sDate == 93855 && line.cDate == 93841 && line.rDate == 93860
      && line.shipped == false && line.returnFlag.None?
  {
    Column(start, 1, 21, 1, Walk(1769349045, 83238346, 1656767618, 12966, 1020388724), 1, 121, 58);
    Column(start, 1, 22, 1, Walk(904914315, 42571346, 1409113498, 11028, 520901770), 30, 90, 44);
    Column(start, 1, 23, 1, Walk(373135028, 17553994, 404675114, 3167, 293930949), 1, 30, 5);
  }

  /** Shipped and accepted: flag A. */
  lemma ThirdOrderThirdDates(start: seq<Seed>)
    requires IsPlace(start, 2)
    ensures var line := LineAt(start, 2, 2, 92653, 1, Choices());
      && line.sDate == 92747 && line.cDate == 92692 && line.rDate == 92754
      && line.shipped == true && line.returnFlag.Some?
    ensures PickAt(start, 24, 3, Choices().flags.members) == 1
  {
    Column(start, 2, 21, 3, Walk(1769349045, 61170130, 1600730780, 1209520696, 1652288628), 1, 121, 94);
    Column(start, 2, 22, 3, Walk(904914315, 31284797, 1537731571, 1161918159, 332708810), 30, 90, 39);
    Column(start, 2, 23, 3, Walk(373135028, 12900065, 922738121, 697225835, 472112588), 1, 30, 7);
    Pick(start, 2, 24, 3, Walk(717419739, 24802714, 1097988080, 829645636, 2050215348), 2, 1);
  }

  lemma OneLine(start: seq<Seed>, idx: nat, scale: int, ds: Dists)
    requires |start| == STREAMS && scale >= 1 && HeaderAt(start, idx, scale, ds).1 == 1
    ensures var line := LineAt(start, 0, 0, HeaderAt(start, idx, scale, ds).0.day, scale, ds);
      && OrderAt(start, idx, scale, ds).lines == [line] && OrderAt(start, idx, scale, ds).totalPrice == line.Charge()
      && OrderAt(start, idx, scale, ds).status == if line.shipped then F else O
  {
    var day := HeaderAt(start, idx, scale, ds).0.day;
    var line := LineAt(start, 0, 0, day, scale, ds);
    assert LinesAt(start, 0, day, scale, ds) == [];
    LineAdded([], line);
    assert [] + [line] == [line] && LinesAt(start, 1, day, scale, ds) == [line];
  }

  lemma ChargedBy(start: seq<Seed>, i: nat, flags: nat, day: int, scale: int, ds: Dists)
    requires |start| == STREAMS && scale >= 1
    ensures var line, numbers := LineAt(start, i, flags, day, scale, ds), NumbersAt(start, i, scale, ds);
      line.ePrice == numbers.ePrice && line.discount == numbers.discount && line.tax == numbers.tax
  {
  }

  lemma SecondOrderCharge(line: LineItem)
    requires line.ePrice == 4469446 && line.discount == 0 && line.tax == 5
    ensures line.Charge() == 4692918
  {
  }

  /** 46929.18, and nothing shipped. */
  lemma SecondOrderTotal(start: seq<Seed>)
    requires IsPlace(start, 1)
    ensures var order := OrderAt(start, 2, 1, Choices());
      |order.lines| == 1 && order.totalPrice == 4692918 && order.status == O
  {
    SecondOrder(start);
    SecondOrderLine(start);
    SecondOrderLineDates(start);
    ChargedBy(start, 0, 0, 93797, 1, Choices());
    SecondOrderCharge(LineAt(start, 0, 0, 93797, 1, Choices()));
    OneLine(start, 2, 1, Choices());
  }

  // Amounts.

  lemma ThreeDigits(n: nat)
    requires 100 <= n < 1000
    ensures Digits(n) == [Digit(n / 100), Digit(n / 10 % 10), Digit(n % 10)]
  {
    assert Digits(n) == Digits(n / 10) + [Digit(n % 10)];
    assert Digits(n / 10) == Digits(n / 10 / 10) + [Digit(n / 10 % 10)];
  }

  /** Amounts as the files show them. */
  lemma ShownAmounts()
    ensures FmtMoney(71156) == "711.56" && FmtMoney(-28384) == "-283.84" && FmtMoney(90100) == "901.00"
  {
    ThreeDigits(711);
    ThreeDigits(283);
    ThreeDigits(901);
  }
}
