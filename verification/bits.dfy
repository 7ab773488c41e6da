/** Go's bitwise operators on non-negative integers, defined bit by bit, and what they compute. */
module Bits {
  import opened Division

  function And(x: nat, y: nat): nat {
    if x == 0 || y == 0 then 0 else 2 * And(x / 2, y / 2) + if x % 2 == 1 && y % 2 == 1 then 1 else 0
  }

  function Or(x: nat, y: nat): nat {
    if x == 0 then y else if y == 0 then x
    else 2 * Or(x / 2, y / 2) + if x % 2 == 1 || y % 2 == 1 then 1 else 0
  }

  function ShiftRight(x: nat, k: nat): nat
    decreases k
  {
    if k == 0 then x else ShiftRight(x / 2, k - 1)
  }

  function ShiftLeft(x: nat, k: nat): nat
    decreases k
  {
    if k == 0 then x else 2 * ShiftLeft(x, k - 1)
  }

  /** The complement of the low `width` bits. */
  function Complement(x: nat, width: nat): nat
    decreases width
  {
    if width == 0 then 0 else 2 * Complement(x / 2, width - 1) + 1 - x % 2
  }

  function Pow2(k: nat): (p: nat)
    ensures p > 0
  {
    if k == 0 then 1 else 2 * Pow2(k - 1)
  }

  /** The highest bit a number can have is set exactly when the number reaches it. */
  lemma {:induction false} TopBit(x: nat, k: nat)
    requires x < 2 * Pow2(k)
    ensures And(x, Pow2(k)) != 0 <==> x >= Pow2(k)
  {
    if k > 0 && x > 0 { TopBit(x / 2, k - 1); }
  }

  /** The low bits are a remainder. */
  lemma {:induction false} LowBits(x: nat)
    ensures And(x, 15) == x % 16
  {
    assert And(x, 15) == 2 * And(x / 2, 7) + x % 2 by { AndOdd(x, 7); }
    assert And(x / 2, 7) == x / 2 % 8 by { LowThree(x / 2); }
    RemainderOfHalf(x, 8);
  }

  lemma {:induction false} RemainderOfHalf(x: nat, d: nat)
    requires d > 0
    ensures 2 * (x / 2 % d) + x % 2 == x % (2 * d)
  {
    var h := x / 2;
    var q, r := h / d, h % d;
    var s := 2 * r + x % 2;
    assert h == d * q + r;
    assert x == 2 * (d * q + r) + x % 2 == (2 * d) * q + s;
    QuotientIs(x, 2 * d, q, s);
    assert x == (2 * d) * (x / (2 * d)) + x % (2 * d);
  }

  lemma {:induction false} LowThree(x: nat)
    ensures And(x, 7) == x % 8
  {
    assert And(x, 7) == 2 * And(x / 2, 3) + x % 2 by { AndOdd(x, 3); }
    assert And(x / 2, 3) == x / 2 % 4 by { LowTwo(x / 2); }
    RemainderOfHalf(x, 4);
  }

  lemma {:induction false} LowTwo(x: nat)
    ensures And(x, 3) == x % 4
  {
    assert And(x, 3) == 2 * And(x / 2, 1) + x % 2 by { AndOdd(x, 1); }
    assert And(x / 2, 1) == x / 2 % 2 by { AndOdd(x / 2, 0); }
    RemainderOfHalf(x, 2);
  }

  lemma {:induction false} AndOdd(x: nat, y: nat)
    ensures And(x, 2 * y + 1) == 2 * And(x / 2, y) + x % 2
  {
    assert (2 * y + 1) / 2 == y && (2 * y + 1) % 2 == 1;
  }

  lemma {:induction false} OrEven(x: nat, y: nat)
    ensures Or(2 * x, y) == 2 * Or(x, y / 2) + y % 2
  {
    assert 2 * x / 2 == x && 2 * x % 2 == 0;
  }

  /** Fields that do not overlap add up. */
  lemma {:induction false} OrBelow(x: nat, n: nat, k: nat)
    requires k < Pow2(n)
    ensures Or(ShiftLeft(x, n), k) == ShiftLeft(x, n) + k
  {
    if n > 0 {
      OrBelow(x, n - 1, k / 2);
      OrEven(ShiftLeft(x, n - 1), k);
    }
  }

  lemma {:induction false} ShiftLeftFour(x: nat)
    ensures ShiftLeft(x, 4) == 16 * x
  {
    assert ShiftLeft(x, 4) == 2 * ShiftLeft(x, 3) && ShiftLeft(x, 2) == 2 * ShiftLeft(x, 1);
  }

  lemma {:induction false} Powers()
    ensures Pow2(4) == 16 && Pow2(7) == 128 && Pow2(8) == 256 && ShiftLeft(1, 7) == 128
  {
    assert Pow2(2) == 4 && Pow2(6) == 4 * Pow2(4);
    assert ShiftLeft(1, 3) == 8 && ShiftLeft(1, 5) == 4 * ShiftLeft(1, 3);
  }

  /** A sign bit above three exponent bits. */
  lemma {:induction false} OrSign(sign: nat, e: nat)
    requires (sign == 0 || sign == 0x80) && e < 8
    ensures Or(sign, ShiftLeft(e, 4)) == sign + 16 * e
  {
    ShiftLeftFour(e);
    Powers();
    OrBelow(1, 7, 16 * e);
  }

  /** A nibble below a multiple of sixteen. */
  lemma {:induction false} OrNibble(x: nat, k: nat)
    requires k < 16
    ensures Or(16 * x, k) == 16 * x + k
  {
    ShiftLeftFour(x);
    Powers();
    OrBelow(x, 4, k);
  }

  /** Shifting right divides. */
  lemma {:induction false} ShiftRightIs(x: nat, k: nat)
    ensures ShiftRight(x, k) == x / Pow2(k)
  {
    if k > 0 {
      ShiftRightIs(x / 2, k - 1);
      HalvedFirst(x, Pow2(k - 1));
    }
  }

  lemma {:induction false} HalvedFirst(x: nat, d: nat)
    requires d > 0
    ensures x / 2 / d == x / (2 * d)
  {
    var h := x / 2;
    var q, r := h / d, h % d;
    assert h == d * q + r;
    assert x == 2 * (d * q + r) + x % 2 == (2 * d) * q + (2 * r + x % 2);
    QuotientIs(x, 2 * d, q, 2 * r + x % 2);
  }

  /** Complementing eight bits is subtracting from 255. */
  lemma {:induction false} ComplementIs(x: nat, width: nat)
    requires x < Pow2(width)
    ensures Complement(x, width) == Pow2(width) - 1 - x
  {
    if width > 0 { ComplementIs(x / 2, width - 1); }
  }
}
