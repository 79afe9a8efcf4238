/** The two random number generators and their jump-ahead routines. */
module Generators {
  import opened Division

  // The multiplicative generator modulo 2^31 - 1.

  const M := 2147483647
  const A := 16807
  const A_INVERSE := 1407677000   // modulo M

  function NextRand(seed: int): int {
    (seed * A) % M
  }

  /** n multiplications by a, one after the other. */
  ghost function Iterate(a: int, n: nat, z: int): int {
    if n == 0 then z else Iterate(a, n - 1, (a * z) % M)
  }

  /** n steps of the generator. */
  ghost function Steps(n: nat, seed: int): int {
    Iterate(A, n, seed)
  }

  lemma MulMod(a: int, x: int)
    ensures (a * (x % M)) % M == (a * x) % M
  {
    var q := x / M;
    assert a * x == a * (x % M) + M * (a * q) by {
      assert x == x % M + M * q;
    }
    ModShift(a * (x % M), a * q, M);
  }

  /** Two multiplications by a are one by a * a. */
  lemma TwoSteps(a: int, z: int)
    ensures (a * ((a * z) % M)) % M == (((a * a) % M) * z) % M
  {
    MulMod(a, a * z);
    MulMod(z, a * a);
    assert a * (a * z) == z * (a * a);
    assert ((a * a) % M) * z == z * ((a * a) % M);
  }

  lemma {:induction false} IterateSquare(a: int, k: nat, z: int)
    ensures Iterate(a, 2 * k, z) == Iterate((a * a) % M, k, z)
  {
    if k > 0 {
      TwoSteps(a, z);
      IterateSquare(a, k - 1, (((a * a) % M) * z) % M);
    }
  }

  /** nthElement: jump n steps ahead by binary powering.  Products stay below 2^62. */
  method NthElement(n: nat, startSeed: int) returns (z: int)
    requires 0 <= startSeed < M
    ensures z == Steps(n, startSeed)
  {
    var mult, i := A, n;
    z := startSeed;
    while i > 0
      invariant 0 <= z < M && 0 <= mult < M
      invariant Iterate(mult, i, z) == Steps(n, startSeed)
    {
      FitsInt64(mult, z);
      FitsInt64(mult, mult);
      IterateHalves(mult, i, z);
      if i % 2 != 0 {
        z := (mult * z) % M;
      }
      i := i / 2;
      mult := (mult * mult) % M;
    }
  }

  lemma FitsInt64(x: int, y: int)
    requires 0 <= x < M && 0 <= y < M
    ensures 0 <= x * y < 0x4000_0000_0000_0000
  {
    MulMonotone(x, M, y);
  }

  /** One round of the powering loop. */
  lemma IterateHalves(a: int, n: nat, z: int)
    requires n > 0
    ensures Iterate(a, n, z) == Iterate((a * a) % M, n / 2, if n % 2 != 0 then (a * z) % M else z)
  {
    if n % 2 != 0 {
      assert Iterate(a, n, z) == Iterate(a, 2 * (n / 2), (a * z) % M);
      IterateSquare(a, n / 2, (a * z) % M);
    } else {
      IterateSquare(a, n / 2, z);
    }
  }

  /** Jumps compose. */
  lemma {:induction false} StepsCompose(m: nat, n: nat, z: int)
    ensures Steps(m + n, z) == Steps(n, Steps(m, z))
  {
    if m > 0 {
      StepsCompose(m - 1, n, NextRand(z));
    }
  }

  /** The generator runs backwards by the inverse multiplier. */
  lemma Backwards(z: int)
    requires 0 <= z < M
    ensures (A_INVERSE * NextRand(z)) % M == z
  {
    MulMod(A_INVERSE, A * z);
    assert A_INVERSE * (A * z) == (A_INVERSE * A) * z;
    MulMod(z, A_INVERSE * A);
    assert (A_INVERSE * A) % M == 1;
  }

  /** A seed in 1 .. M - 1 stays there forever. */
  lemma {:induction false} StepsInRange(n: nat, z: int)
    requires 0 < z < M
    ensures 0 < Steps(n, z) < M
  {
    if n > 0 {
      Backwards(z);
      StepsInRange(n - 1, NextRand(z));
    }
  }

  /** Different seeds never meet. */
  lemma {:induction false} StepsInjective(n: nat, x: int, y: int)
    requires 0 <= x < M && 0 <= y < M && Steps(n, x) == Steps(n, y)
    ensures x == y
  {
    if n > 0 {
      StepsInjective(n - 1, NextRand(x), NextRand(y));
      Backwards(x);
      Backwards(y);
    }
  }

  /** unifInt scales a seed into low .. high. */
  function Scaled(low: int, high: int, value: int): int {
    low + value * (high - low + 1) / M
  }

  lemma ScaledInRange(low: int, high: int, value: int)
    requires low <= high && 0 <= value < M
    ensures low <= Scaled(low, high, value) <= high
  {
    var range := high - low + 1;
    MulMonotone(value, M - 1, range);
    assert (M - 1) * range == M * range - range;
    var q := value * range / M;
    assert M * q <= value * range < M * (q + 1);
    assert 0 <= q < range;
  }

  /** A larger seed never gives a smaller value. */
  lemma ScaledIncreases(low: int, high: int, x: int, y: int)
    requires low <= high && 0 <= x <= y
    ensures Scaled(low, high, x) <= Scaled(low, high, y)
  {
    var range := high - low + 1;
    assert (y - x) * range >= 0;
    DivMonotone(x * range, y * range, M);
  }

  /** The smallest seed gives the lower end and the largest the upper end. */
  lemma ScaledEnds(low: int, high: int)
    requires low <= high && high - low + 1 <= M
    ensures Scaled(low, high, 0) == low && Scaled(low, high, M - 1) == high
  {
    var range := high - low + 1;
    assert (M - 1) * range == M * (range - 1) + (M - range);
    DivModIs((M - 1) * range, range - 1, M - range, M);
  }

  /** The first seed that gives the q-th value of a range, from 0. */
  function FirstSeed(q: int, range: int): int
    requires range > 0
  {
    (q * M + range - 1) / range
  }

  /** A value of the range is hit by consecutive seeds. */
  lemma ScaledHits(low: int, high: int, v: int, value: int)
    requires low <= high && low <= v <= high
    ensures Scaled(low, high, value) == v
      <==> FirstSeed(v - low, high - low + 1) <= value < FirstSeed(v - low + 1, high - low + 1)
  {
    var q, range := v - low, high - low + 1;
    RoundedUp(q * M, range, value);
    RoundedUp((q + 1) * M, range, value);
    var n := value * range;
    assert n == M * (n / M) + n % M;
    if q * M <= n < (q + 1) * M {
      DivModIs(n, q, n - q * M, M);
    }
  }

  /** All values of a range are hit by equally many seeds, up to one. */
  lemma HitsEven(q: int, range: int)
    requires 0 < range
    ensures M / range <= FirstSeed(q + 1, range) - FirstSeed(q, range) <= M / range + 1
  {
    var n, k := q * M + range - 1, M / range;
    assert (q + 1) * M + range - 1 == n + M;
    var f, g := n / range, (n + M) / range;
    assert n == range * f + n % range && n + M == range * g + (n + M) % range && M == range * k + M % range;
    assert range * (g - f - k) == n % range + M % range - (n + M) % range;
    OneApart(g - f - k, range);
  }

  /** Every value of a range that is not longer than the seeds are many is drawn by some seed. */
  lemma SomeSeed(low: int, high: int, v: int) returns (seed: int)
    requires low <= v <= high && high - low + 1 <= M
    ensures 0 <= seed < M && Scaled(low, high, seed) == v
  {
    var q, range := v - low, high - low + 1;
    seed := FirstSeed(q, range);
    assert q * M >= 0;
    DivMonotone(0, q * M + range - 1, range);
    assert (range - 1 - q) * M >= 0;
    RoundedUp(q * M, range, M - 1);
    HitsEven(q, range);
    DivMonotone(range, M, range);
    ScaledHits(low, high, v, seed);
  }

  lemma OneApart(d: int, range: int)
    requires 0 < range && -range < range * d < 2 * range
    ensures 0 <= d <= 1
  {
    if d < 0 {
      AtLeastOnce(range, -d);
    } else if d > 1 {
      AtLeastOnce(range, d - 1);
    }
  }

  // The 64-bit linear congruential generator, with wrapping signed arithmetic.

  const WORD := 0x1_0000_0000_0000_0000
  const HALF := 0x8000_0000_0000_0000
  const RNG_A := 6364136223846793005
  const RNG_C := 1

  /** The signed 64-bit value congruent to x. */
  function Wrap(x: int): int {
    (x + HALF) % WORD - HALF
  }

  function NextRand64(seed: int): int {
    Wrap(Wrap(seed * RNG_A) + RNG_C)
  }

  ghost function Steps64(n: nat, seed: int): int {
    if n == 0 then seed else NextRand64(Steps64(n - 1, seed))
  }

  ghost function Pow(a: int, n: nat): int {
    if n == 0 then 1 else a * Pow(a, n - 1)
  }

  /** 1 + a + ... + a^(n - 1). */
  ghost function Geometric(a: int, n: nat): int {
    if n == 0 then 0 else a * Geometric(a, n - 1) + 1
  }

  lemma WrapOfSum(x: int, k: int)
    ensures Wrap(x + WORD * k) == Wrap(x)
  {
    ModShift(x + HALF, k, WORD);
  }

  /** Wrapping an operand first does not change a wrapped sum or product. */
  lemma WrapAdd(x: int, y: int)
    ensures Wrap(Wrap(x) + y) == Wrap(x + y)
  {
    var k := (x + HALF) / WORD;
    assert x == Wrap(x) + WORD * k;
    WrapOfSum(Wrap(x) + y, k);
  }

  lemma WrapMul(x: int, y: int)
    ensures Wrap(Wrap(x) * y) == Wrap(x * y)
  {
    var k := (x + HALF) / WORD;
    assert x == Wrap(x) + WORD * k;
    assert x * y == Wrap(x) * y + WORD * (k * y);
    WrapOfSum(Wrap(x) * y, k * y);
  }

  /** n steps are one affine map. */
  lemma {:induction false} Steps64Affine(n: nat, seed: int)
    requires Wrap(seed) == seed
    ensures Steps64(n, seed) == Wrap(seed * Pow(RNG_A, n) + Geometric(RNG_A, n))
  {
    if n > 0 {
      Steps64Affine(n - 1, seed);
      var p, g := Pow(RNG_A, n - 1), Geometric(RNG_A, n - 1);
      var x := seed * p + g;
      WrapMul(x, RNG_A);
      WrapAdd(x * RNG_A, RNG_C);
      WrapMul(Wrap(x), 1);
      assert x * RNG_A + 1 == seed * (RNG_A * p) + (RNG_A * g + 1);
    }
  }

  lemma {:induction false} PowAdd(a: int, m: nat, n: nat)
    ensures Pow(a, m + n) == Pow(a, m) * Pow(a, n)
  {
    if m > 0 {
      PowAdd(a, m - 1, n);
      assert a * (Pow(a, m - 1) * Pow(a, n)) == a * Pow(a, m - 1) * Pow(a, n);
    }
  }

  lemma {:induction false} GeometricAdd(a: int, m: nat, n: nat)
    ensures Geometric(a, m + n) == Geometric(a, m) * Pow(a, n) + Geometric(a, n)
  {
    if n > 0 {
      GeometricAdd(a, m, n - 1);
      var g, p := Geometric(a, m), Pow(a, n - 1);
      assert a * (g * p + Geometric(a, n - 1)) + 1 == g * (a * p) + (a * Geometric(a, n - 1) + 1);
    }
  }

  /** n >> bit, for n >= 0. */
  function Shr(n: nat, bit: nat): nat {
    if bit == 0 then n else Shr(n, bit - 1) / 2
  }

  /** What the loop has accumulated for the leading bits m of the count. */
  ghost predicate Accumulated(aPow: int, dSum: int, m: nat) {
    aPow == Wrap(Pow(RNG_A, m)) && dSum == Wrap(Geometric(RNG_A, m))
  }

  /** Appending a zero bit to the count: square the power, extend the sum. */
  lemma DoubleCount(aPow: int, dSum: int, m: nat)
    requires Accumulated(aPow, dSum, m)
    ensures Accumulated(Wrap(aPow * aPow), Wrap(dSum * Wrap(aPow + 1)), 2 * m)
  {
    var p, g := Pow(RNG_A, m), Geometric(RNG_A, m);
    PowAdd(RNG_A, m, m);
    GeometricAdd(RNG_A, m, m);
    WrapMul(p, Wrap(p));
    assert Wrap(p) * p == p * Wrap(p);
    WrapMul(p, p);
    WrapAdd(p, 1);
    WrapMul(g, Wrap(p + 1));
    assert Wrap(p + 1) * g == g * Wrap(p + 1);
    WrapMul(p + 1, g);
    assert (p + 1) * g == g * p + g;
  }

  /** Turning the appended bit into a one. */
  lemma IncrementCount(aPow: int, dSum: int, m: nat)
    requires Accumulated(aPow, dSum, m)
    ensures Accumulated(Wrap(aPow * RNG_A), Wrap(dSum + aPow), m + 1)
  {
    var p, g := Pow(RNG_A, m), Geometric(RNG_A, m);
    WrapMul(p, RNG_A);
    WrapAdd(g, Wrap(p));
    WrapAdd(p, g);
    GeometricAdd(RNG_A, 1, m);
    assert Geometric(RNG_A, 1) == 1;
  }

  /** advanceRand64: jump n steps ahead in the 64-bit generator. */
  method AdvanceRand64(seed: int, count: nat) returns (r: int)
    requires Wrap(seed) == seed
    ensures r == Steps64(count, seed)
  {
    var aPow, dSum := RNG_A, RNG_C;
    if count == 0 {
      return seed;
    }
    var bit := 0;
    while Shr(count, bit) != 1
      invariant 0 <= bit && Shr(count, bit) >= 1
      decreases Shr(count, bit)
    {
      bit := bit + 1;
    }
    assert Accumulated(aPow, dSum, 1) by {
      assert Pow(RNG_A, 1) == RNG_A * Pow(RNG_A, 0) && Geometric(RNG_A, 1) == RNG_A * Geometric(RNG_A, 0) + 1;
    }
    while true
      invariant 0 <= bit && Accumulated(aPow, dSum, Shr(count, bit))
      decreases bit
    {
      bit := bit - 1;
      if bit < 0 {
        break;
      }
      DoubleCount(aPow, dSum, Shr(count, bit + 1));
      dSum := Wrap(dSum * Wrap(aPow + 1));
      aPow := Wrap(aPow * aPow);
      if Shr(count, bit) % 2 == 1 {
        IncrementCount(aPow, dSum, 2 * Shr(count, bit + 1));
        dSum := Wrap(dSum + aPow);
        aPow := Wrap(aPow * RNG_A);
      }
    }
    FinalStep(seed, aPow, dSum, count);
    return Wrap(Wrap(seed * aPow) + Wrap(dSum * RNG_C));
  }

  lemma FinalStep(seed: int, aPow: int, dSum: int, count: nat)
    requires Wrap(seed) == seed && Accumulated(aPow, dSum, count)
    ensures Wrap(Wrap(seed * aPow) + Wrap(dSum * RNG_C)) == Steps64(count, seed)
  {
    var p, g := Pow(RNG_A, count), Geometric(RNG_A, count);
    Steps64Affine(count, seed);
    WrapAdd(seed * aPow, Wrap(dSum));
    WrapMul(p, seed);
    WrapAdd(seed * Wrap(p), dSum);
    assert seed * Wrap(p) == Wrap(p) * seed && seed * p == p * seed;
    WrapAdd(g, 0);
    WrapAdd(g, seed * Wrap(p));
    WrapAdd(seed * Wrap(p), g);
    WrapAdd(seed * p, g);
  }
}
