/** Customers, suppliers, and the text pool their comments come from. */
module Parties {
  import opened Streams
  import opened Distributions
  import opened Parts

  // The text pool.

  /** The first k sentences, each followed by a space. */
  ghost function Prose(sentence: nat -> string, k: nat): string {
    if k == 0 then "" else Prose(sentence, k - 1) + sentence(k - 1) + " "
  }

  /** initTextPool: write sentences until the pool is full; the last one is cut. */
  method InitTextPool(size: nat, sentence: nat -> string) returns (pool: string, k: nat)
    ensures |pool| == size
    ensures size <= |Prose(sentence, k)| && pool == Prose(sentence, k)[..size]
  {
    pool, k := "", 0;
    while |pool| < size
      invariant |pool| <= size && |pool| <= |Prose(sentence, k)| && pool == Prose(sentence, k)[..|pool|]
      invariant |pool| < size ==> pool == Prose(sentence, k)
      decreases size - |pool|
    {
      var text := sentence(k);
      var needed := size - |pool|;
      k := k + 1;
      if needed >= |text| + 1 {
        pool := pool + (text + " ");
      } else {
        pool := pool + text[..needed];
      }
    }
  }

  /** The characters of a text. */
  function Slice(pool: string, text: Text): (r: string)
  {
    if 0 <= text.offset && 0 <= text.length && text.offset + text.length <= |pool|
    then pool[text.offset..text.offset + text.length] else ""
  }

  /** makeText, as characters of the pool. */
  method PoolText(seeds: array<Seed>, pool: string, min: int, max: int, s: int, ghost start: seq<Seed>)
    returns (text: string)
    requires |pool| == TEXT_POOL_SIZE && 0 <= min <= max <= TEXT_POOL_SIZE
    requires Valid(seeds[..]) && Drew(start, seeds[..]) && 0 <= s < STREAMS && seeds[s].usage == start[s].usage
    modifies seeds
    ensures Valid(seeds[..]) && Drew(start, seeds[..])
    ensures DrawnTimes(old(seeds[..]), seeds[..], s, 2)
    ensures text == Slice(pool, TextAt(start, s, 1, min, max)) && min <= |text| <= max
  {
    var t := MakeText(seeds, min, max, s, start);
    text := Slice(pool, t);
  }

  /** The boundary of the address streams is what the longest address draws. */
  lemma LongestAddress(length: int)
    requires 10 <= length <= 40
    ensures 1 + Groups(length) <= Boundary(26) == Boundary(32) == 1 + Groups(40)
  {
  }

  // Customers.

  datatype Cust = Cust(key: int, address: RandString, nation: int, phone: Phone, balance: int, segment: int,
                       comment: string)

  /** The customer the draws since `start` spell. */
  ghost function CustAt(start: seq<Seed>, idx: int, nations: int, segments: Dist, pool: string): Cust
    requires |start| == STREAMS
  {
    var nation := At(start, 27, 1, 0, nations - 1);
    Cust(idx, StringAt(start, 26, 10, 40), nation, PhoneAt(start, 28, nation), At(start, 29, 1, -99999, 999999),
         PickAt(start, 30, 1, segments.members), Slice(pool, TextAt(start, 31, 1, 29, 116)))
  }

  method MakeCust(seeds: array<Seed>, idx: int, nations: int, segments: Dist, pool: string, ghost start: seq<Seed>)
    returns (cust: Cust)
    requires nations >= 1 && ValidDist(segments) && |pool| == TEXT_POOL_SIZE
    requires seeds[..] == start && Valid(start) && Drew(start, start)
    modifies seeds
    ensures Valid(seeds[..]) && Drew(start, seeds[..])
    ensures forall s :: 0 <= s < STREAMS && s != 26 ==>
      seeds[s].usage == start[s].usage + if Owner(s) == TCust then Boundary(s) else 0
    ensures seeds[26].usage <= start[26].usage + 9
    ensures cust == CustAt(start, idx, nations, segments, pool)
    ensures 10 <= cust.address.length <= 40 && 0 <= cust.nation < nations && -99999 <= cust.balance <= 999999
      && 29 <= |cust.comment| <= 116
  {
    var address := VStr25(seeds, 26, start);
    var nation := Random(seeds, 0, nations - 1, 27, start);
    var phone := GenPhone(seeds, nation, 28, start);
    var balance := Random(seeds, -99999, 999999, 29, start);
    var segment := PickStr(seeds, segments.members, segments.weights, 30, start);
    var comment := PoolText(seeds, pool, 29, 116, 31, start);
    cust := Cust(idx, address, nation, phone, balance, segment, comment);
  }

  /** A customer depends on nothing but the places of its streams. */
  lemma CustFromDraws(x: seq<Seed>, y: seq<Seed>, idx: int, nations: int, segments: Dist, pool: string)
    requires SameDraws(TCust, x, y)
    ensures CustAt(x, idx, nations, segments, pool) == CustAt(y, idx, nations, segments, pool)
  {
    assert forall s :: 26 <= s <= 31 ==> Draws(TCust, s) && x[s].value == y[s].value;
  }

  // Suppliers.

  const BASE := "Customer "
  const COMPLAIN := "Complaints"
  const COMMEND := "Recommends"

  function Splice(text: string, at: int, word: string): (r: string)
    requires 0 <= at && at + |word| <= |text|
    ensures |r| == |text|
  {
    text[..at] + word + text[at + |word|..]
  }

  /** A supplier comment with bad or good press: the two words at their places and the text otherwise. */
  ghost predicate Pressed(text: string, r: string, offset: int, noise: int, word: string) {
    && |r| == |text| && |word| == 10 && 0 <= offset && 0 <= noise && offset + 9 + noise + 10 <= |r|
    && r[offset..offset + 9] == BASE
    && r[offset + 9 + noise..offset + 9 + noise + 10] == word
    && forall i :: 0 <= i < |r| && !(offset <= i < offset + 9) && !(offset + 9 + noise <= i < offset + 9 + noise + 10)
         ==> r[i] == text[i]
  }

  /** The two splices do just that. */
  lemma SplicesPress(text: string, offset: int, noise: int, word: string)
    requires |word| == 10 && 0 <= noise && 0 <= offset && offset + 19 + noise <= |text|
    ensures Pressed(text, Splice(Splice(text, offset, BASE), 9 + offset + noise, word), offset, noise, word)
  {
    var once := Splice(text, offset, BASE);
    assert once[offset..offset + 9] == BASE;
    assert Splice(once, 9 + offset + noise, word)[offset..offset + 9] == once[offset..offset + 9];
  }

  /** What a comment is made of: pool text and four draws. */
  datatype CommentDraws = CommentDraws(text: string, badPress: int, types: int, noise: int, offset: int)

  ghost function CommentDrawsAt(start: seq<Seed>, pool: string): CommentDraws
    requires |start| == STREAMS
  {
    var text := Slice(pool, TextAt(start, 36, 1, 25, 100));
    var noise := At(start, 44, 1, 0, |text| - 19);
    CommentDraws(text, At(start, 46, 1, 1, 10000), At(start, 45, 1, 0, 100), noise,
      At(start, 47, 1, 0, |text| - (19 + noise)))
  }

  predicate RoomForPress(d: CommentDraws) {
    0 <= d.noise && 0 <= d.offset && d.offset + 19 + d.noise <= |d.text|
  }

  /** Pool text, pressed in ten of ten thousand cases. */
  function CommentOf(d: CommentDraws): string {
    if d.badPress <= 10 && RoomForPress(d)
    then Splice(Splice(d.text, d.offset, BASE), 9 + d.offset + d.noise, if d.types < 50 then COMPLAIN else COMMEND)
    else d.text
  }

  /** Draws up to 10 of 10000 press the comment, half of the hundred types with a complaint; otherwise it is the
      text. */
  lemma PressedComment(d: CommentDraws)
    requires RoomForPress(d)
    ensures d.badPress > 10 ==> CommentOf(d) == d.text
    ensures d.badPress <= 10 && d.types < 50 ==> Pressed(d.text, CommentOf(d), d.offset, d.noise, "Complaints")
    ensures d.badPress <= 10 && d.types >= 50 ==> Pressed(d.text, CommentOf(d), d.offset, d.noise, "Recommends")
  {
    SplicesPress(d.text, d.offset, d.noise, if d.types < 50 then COMPLAIN else COMMEND);
  }

  method SuppComment(seeds: array<Seed>, pool: string, ghost start: seq<Seed>) returns (comment: string)
    requires |pool| == TEXT_POOL_SIZE && Valid(seeds[..]) && Drew(start, seeds[..])
    requires forall s :: 0 <= s < STREAMS && (s == 36 || 44 <= s) ==> seeds[s].usage == start[s].usage
    modifies seeds
    ensures Valid(seeds[..]) && Drew(start, seeds[..])
    ensures forall s :: 0 <= s < STREAMS ==>
      seeds[s].usage == old(seeds[s].usage) + if s == 36 then 2 else if 44 <= s <= 47 then 1 else 0
    ensures 25 <= |comment| <= 100 && comment == CommentOf(CommentDrawsAt(start, pool))
      && RoomForPress(CommentDrawsAt(start, pool))
  {
    var text := PoolText(seeds, pool, 25, 100, 36, start);
    var badPress := Random(seeds, 1, 10000, 46, start);
    var types := Random(seeds, 0, 100, 45, start);
    var noise := Random(seeds, 0, |text| - 19, 44, start);
    var offset := Random(seeds, 0, |text| - (19 + noise), 47, start);
    comment := text;
    if badPress <= 10 {
      comment := Splice(comment, offset, BASE);
      comment := Splice(comment, 9 + offset + noise, if types < 50 then COMPLAIN else COMMEND);
    }
    assert CommentDrawsAt(start, pool) == CommentDraws(text, badPress, types, noise, offset);
  }

  datatype Supp = Supp(key: int, address: RandString, nation: int, phone: Phone, balance: int, comment: string)

  /** The supplier the draws since `start` spell. */
  ghost function SuppAt(start: seq<Seed>, idx: int, nations: int, pool: string): Supp
    requires |start| == STREAMS
  {
    var nation := At(start, 33, 1, 0, nations - 1);
    Supp(idx, StringAt(start, 32, 10, 40), nation, PhoneAt(start, 34, nation), At(start, 35, 1, -99999, 999999),
         CommentOf(CommentDrawsAt(start, pool)))
  }

  method MakeSupp(seeds: array<Seed>, idx: int, nations: int, pool: string, ghost start: seq<Seed>) returns (supp: Supp)
    requires nations >= 1 && |pool| == TEXT_POOL_SIZE
    requires seeds[..] == start && Valid(start) && Drew(start, start)
    modifies seeds
    ensures Valid(seeds[..]) && Drew(start, seeds[..])
    ensures forall s :: 0 <= s < STREAMS && s != 32 ==>
      seeds[s].usage == start[s].usage + if Owner(s) == TSupp then Boundary(s) else 0
    ensures seeds[32].usage <= start[32].usage + 9
    ensures supp == SuppAt(start, idx, nations, pool)
    ensures 10 <= supp.address.length <= 40 && 0 <= supp.nation < nations && -99999 <= supp.balance <= 999999
      && 25 <= |supp.comment| <= 100
  {
    var address := VStr25(seeds, 32, start);
    var nation := Random(seeds, 0, nations - 1, 33, start);
    var phone := GenPhone(seeds, nation, 34, start);
    var balance := Random(seeds, -99999, 999999, 35, start);
    var comment := SuppComment(seeds, pool, start);
    supp := Supp(idx, address, nation, phone, balance, comment);
  }

  /** A supplier depends on nothing but the places of its streams. */
  lemma SuppFromDraws(x: seq<Seed>, y: seq<Seed>, idx: int, nations: int, pool: string)
    requires SameDraws(TSupp, x, y)
    ensures SuppAt(x, idx, nations, pool) == SuppAt(y, idx, nations, pool)
  {
    assert forall s :: s in {32, 33, 34, 35, 36, 44, 45, 46, 47} ==> Draws(TSupp, s) && x[s].value == y[s].value;
    assert CommentDrawsAt(x, pool) == CommentDrawsAt(y, pool);
  }
}
