/** Bitwise operations on non-negative numbers. */
module Bits {

  function Or(a: nat, b: nat): nat
    decreases a + b
  {
    if a == 0 && b == 0 then 0
    else 2 * Or(a / 2, b / 2) + if a % 2 == 1 || b % 2 == 1 then 1 else 0
  }

  function And(a: nat, b: nat): nat {
    if a == 0 || b == 0 then 0
    else 2 * And(a / 2, b / 2) + if a % 2 == 1 && b % 2 == 1 then 1 else 0
  }

  lemma {:induction false} OrZero(a: nat)
    ensures Or(a, 0) == a
  {
    if a > 0 {
      OrZero(a / 2);
    }
  }

  /** Bits 0 .. 2 of a number. */
  lemma AndSeven(a: nat)
    ensures And(a, 7) == a % 8
  {
    var b, c := a / 2, a / 4;
    assert b / 2 == c;
    assert And(c, 1) == c % 2;
    assert And(b, 3) == 2 * And(c, 1) + b % 2;
    assert And(a, 7) == 2 * And(b, 3) + a % 2;
  }

  lemma OrBit(a: nat, b: nat)
    ensures Or(2 * a, b) == 2 * Or(a, b / 2) + b % 2
  {
  }

  /** A multiple of 8 and a number below 8 have no bit in common. */
  lemma OrBelowEight(a: nat, r: nat)
    requires r < 8
    ensures Or(8 * a, r) == 8 * a + r
  {
    OrBit(4 * a, r);
    OrBit(2 * a, r / 2);
    OrBit(a, r / 4);
    OrZero(a);
    assert 2 * (4 * a) == 8 * a && 2 * (2 * a) == 4 * a && r / 2 / 2 == r / 4 && r / 4 / 2 == 0;
  }
}
