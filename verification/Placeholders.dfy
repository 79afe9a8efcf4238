/** Rewriting `?` placeholders to `$1`, `$2`, ... */
module Placeholders {
  import opened Decimal

  function Placeholder(i: nat): string {
    "$" + Digits(i)
  }

  /** One pass from the left. */
  function Numbered(query: string, i: nat): string {
    if query == "" then ""
    else if query[0] == '?' then Placeholder(i) + Numbered(query[1..], i + 1)
    else [query[0]] + Numbered(query[1..], i)
  }

  function Marks(query: string): nat {
    if query == "" then 0 else Marks(query[1..]) + if query[0] == '?' then 1 else 0
  }

  /** strings.Replace(query, "?", with, 1). */
  function ReplaceFirst(query: string, with: string): string {
    if query == "" then ""
    else if query[0] == '?' then with + query[1..]
    else [query[0]] + ReplaceFirst(query[1..], with)
  }

  lemma {:induction false} DigitsNoMark(n: nat)
    ensures '?' !in Digits(n)
  {
    if n >= 10 {
      DigitsNoMark(n / 10);
    }
  }

  lemma {:induction false} NumberedAfter(prefix: string, rest: string, i: nat)
    requires '?' !in prefix
    ensures Numbered(prefix + rest, i) == prefix + Numbered(rest, i)
    ensures Marks(prefix + rest) == Marks(rest)
  {
    if prefix == "" {
      assert prefix + rest == rest;
    } else {
      assert (prefix + rest)[1..] == prefix[1..] + rest;
      NumberedAfter(prefix[1..], rest, i);
      assert prefix == [prefix[0]] + prefix[1..];
    }
  }

  lemma {:induction false} NoMarks(query: string, i: nat)
    ensures Marks(query) == 0 <==> '?' !in query
    ensures Marks(query) == 0 ==> Numbered(query, i) == query && ReplaceFirst(query, Placeholder(i)) == query
  {
    if query != "" {
      NoMarks(query[1..], i);
      assert query == [query[0]] + query[1..];
    }
  }

  /** Replacing the first mark and numbering on from i + 1 is numbering from i. */
  lemma {:induction false} ReplaceOne(query: string, i: nat)
    requires Marks(query) > 0
    ensures Numbered(ReplaceFirst(query, Placeholder(i)), i + 1) == Numbered(query, i)
    ensures Marks(ReplaceFirst(query, Placeholder(i))) == Marks(query) - 1
  {
    if query[0] == '?' {
      DigitsNoMark(i);
      NumberedAfter(Placeholder(i), query[1..], i + 1);
    } else {
      ReplaceOne(query[1..], i);
      var rest := ReplaceFirst(query[1..], Placeholder(i));
      assert ([query[0]] + rest)[1..] == rest;
    }
  }

  lemma ReplaceChanges(query: string, i: nat)
    ensures ReplaceFirst(query, Placeholder(i)) == query <==> Marks(query) == 0
  {
    NoMarks(query, i);
    if Marks(query) > 0 {
      ReplaceOne(query, i);
    }
  }

  /** convertToPQ: replace one mark at a time until nothing changes. */
  method ConvertToPQ(query: string, driver: string) returns (r: string)
    ensures r == if driver == "postgres" then Numbered(query, 1) else query
  {
    r := query;
    if driver == "postgres" {
      var i := 1;
      while true
        invariant i >= 1 && Numbered(r, i) == Numbered(query, 1)
        decreases Marks(r)
      {
        var prev := r;
        ReplaceChanges(prev, i);
        r := ReplaceFirst(r, Placeholder(i));
        if prev == r {
          NoMarks(r, i);
          break;
        }
        ReplaceOne(prev, i);
        i := i + 1;
      }
    }
  }

  /** The result holds the query's text with no mark left. */
  lemma {:induction false} NoMarkRemains(query: string, i: nat)
    ensures '?' !in Numbered(query, i)
  {
    if query != "" {
      DigitsNoMark(i);
      NoMarkRemains(query[1..], i + 1);
      NoMarkRemains(query[1..], i);
    }
  }
}
