/** Work shared by threads: thread t of T takes items t % T, t % T + T, t % T + 2T, ... below n. */
module Strides {
  import opened Division

  /** The thread that takes item x: x % T, by subtraction. */
  ghost function Taker(x: nat, T: nat): (t: nat)
    requires T > 0
    ensures t < T && t <= x
  {
    if x < T then x else Taker(x - T, T)
  }

  /** The items taken once threads 0 .. t - 1 are finished and thread t has reached item i. */
  ghost predicate Taken(T: nat, t: nat, i: nat, x: nat)
    requires T > 0
  {
    Taker(x, T) < t || (Taker(x, T) == t && x < i)
  }

  lemma {:induction false} TakerIsMod(x: nat, T: nat)
    requires T > 0
    ensures Taker(x, T) == x % T
  {
    if x < T {
      DivModIs(x, 0, x, T);
    } else {
      TakerIsMod(x - T, T);
      DivModIs(x, (x - T) / T + 1, (x - T) % T, T);
    }
  }

  lemma {:induction false} TakerUnique(x: nat, y: nat, T: nat)
    requires T > 0 && x <= y < x + T && Taker(x, T) == Taker(y, T)
    ensures x == y
  {
    if T <= x {
      TakerUnique(x - T, y - T, T);
    }
  }

  /** One stride takes item i and nothing else. */
  lemma StrideTakes(T: nat, t: nat, i: nat, x: nat)
    requires t < T && Taker(i, T) == t
    ensures Taken(T, t, i + T, x) <==> Taken(T, t, i, x) || x == i
    ensures !Taken(T, t, i, i)
  {
    if Taken(T, t, i + T, x) && !Taken(T, t, i, x) {
      TakerUnique(i, x, T);
    }
  }

  /** When a thread has passed n, the next one starts. */
  lemma ThreadFinished(T: nat, t: nat, i: nat, n: nat, x: nat)
    requires t < T && n <= i && x < n
    ensures Taken(T, t, i, x) <==> Taken(T, t + 1, t + 1, x)
  {
  }
}
