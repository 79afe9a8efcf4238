/** Quotients and remainders by a divisor that is not a literal. */
module Division {

  lemma SmallMultiple(T: int, d: int)
    requires T > 0 && -T < T * d < T
    ensures d == 0
  {
  }

  lemma DivModIs(x: int, q: int, r: int, T: int)
    requires T > 0 && x == T * q + r && 0 <= r < T
    ensures x / T == q && x % T == r
  {
    assert T * (x / T - q) == r - x % T;
    SmallMultiple(T, x / T - q);
  }

  lemma MulMonotone(x: int, c: int, y: int)
    requires 0 <= x <= c && 0 <= y
    ensures 0 <= x * y <= c * y
  {
    assert (c - x) * y >= 0;
  }

  /** Adding multiples of the divisor does not change the remainder. */
  lemma ModShift(x: int, n: int, T: int)
    requires T > 0
    ensures (x + T * n) % T == x % T
  {
    DivModIs(x + T * n, x / T + n, x % T, T);
  }

  /** Equal remainders of numbers less than the divisor apart. */
  lemma SameResidue(x: int, y: int, T: int)
    requires T > 0 && -T < y - x < T && x % T == y % T
    ensures x == y
  {
    assert y - x == T * (y / T - x / T);
    SmallMultiple(T, y / T - x / T);
  }

  lemma AtLeastOnce(d: int, k: int)
    requires d > 0 && k >= 1
    ensures d * k >= d
  {
    assert d * (k - 1) >= 0;
  }

  lemma DivMonotone(x: int, y: int, d: int)
    requires d > 0 && x <= y
    ensures x / d <= y / d
  {
    var a, b := x / d, y / d;
    assert x == d * a + x % d && y == d * b + y % d;
    assert d * (a - b) == d * a - d * b;
    if a > b {
      AtLeastOnce(d, a - b);
    }
  }

  /** A quotient rounded up is the smallest factor that reaches n. */
  lemma RoundedUp(n: int, d: int, k: int)
    requires d > 0
    ensures (n + d - 1) / d <= k <==> n <= k * d
  {
    var f := (n + d - 1) / d;
    assert n + d - 1 == d * f + (n + d - 1) % d;
    if f <= k {
      assert d * (k - f) >= 0;
      assert d * (k - f) == k * d - d * f;
    } else {
      AtLeastOnce(d, f - k);
      assert d * (f - k) == d * f - k * d;
    }
  }

  /** Counting on, remainders start again at the divisor. */
  lemma NextResidue(x: int, T: int)
    requires T > 0
    ensures (x + 1) % T == if x % T == T - 1 then 0 else x % T + 1
    ensures (x + 1) / T == if x % T == T - 1 then x / T + 1 else x / T
  {
    if x % T == T - 1 {
      DivModIs(x + 1, x / T + 1, 0, T);
    } else {
      DivModIs(x + 1, x / T, x % T + 1, T);
    }
  }
}
