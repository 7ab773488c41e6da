/** Checked int64 arithmetic and the decimal rendering of the money package. */
module Money {
  import opened Division
  import opened Wrappers

  const MIN: int := -0x8000_0000_0000_0000
  const MAX: int := 0x7FFF_FFFF_FFFF_FFFF
  const RANGE: int := 0x1_0000_0000_0000_0000

  predicate Fits(x: int) { MIN <= x <= MAX }

  type int64 = x: int | MIN <= x <= MAX

  /** Two's complement: what is left of x in 64 bits. */
  function Wrap(x: int): int64 {
    (x - MIN) % RANGE + MIN
  }

  function Mag(x: int): (r: int)
    ensures r >= 0
  {
    if x >= 0 then x else -x
  }

  /** Division toward zero. */
  function Quotient(a: int, b: int): int
    requires b != 0
  {
    var q := Mag(a) / Mag(b);
    if (a >= 0) == (b > 0) then q else -q
  }

  function Remainder(a: int, b: int): int
    requires b != 0
  {
    a - b * Quotient(a, b)
  }

  datatype Amount = Amount(minor: int64, currency: string)

  datatype Error = CurrencyMismatch | DivideByZero | Overflow

  function UpperChar(c: char): char {
    if 'a' <= c <= 'z' then (c as int - 32) as char else c
  }

  function Code(currency: string): string {
    seq(|currency|, i requires 0 <= i < |currency| => UpperChar(currency[i]))
  }

  /** The same character, or the small and the capital form of one letter. */
  predicate SameLetter(c: char, d: char) {
    || c == d
    || ('a' <= c <= 'z' && c as int - d as int == 'a' as int - 'A' as int)
    || ('a' <= d <= 'z' && d as int - c as int == 'a' as int - 'A' as int)
  }

  /** Two currencies share a code exactly when they differ in case at most; a code has no small letters. */
  lemma {:induction false} SameCodeIff(a: string, b: string)
    ensures Code(a) == Code(b) <==> |a| == |b| && forall i :: 0 <= i < |a| ==> SameLetter(a[i], b[i])
    ensures forall i :: 0 <= i < |a| ==> !('a' <= Code(a)[i] <= 'z') && SameLetter(Code(a)[i], a[i])
  {
    if Code(a) == Code(b) {
      assert |a| == |Code(a)| == |Code(b)| == |b|;
      forall i | 0 <= i < |a| ensures SameLetter(a[i], b[i]) {
        assert Code(a)[i] == UpperChar(a[i]) && Code(b)[i] == UpperChar(b[i]);
      }
    }
  }

  predicate AddOverflows(a: int64, b: int64) {
    (b > 0 && a as int > MAX - b as int) || (b < 0 && (a as int) < MIN - b as int)
  }

  predicate SubOverflows(a: int64, b: int64) {
    (b < 0 && a as int > MAX + b as int) || (b > 0 && (a as int) < MIN + b as int)
  }

  function Add(m: Amount, other: Amount): Result<Amount, Error> {
    if Code(m.currency) != Code(other.currency) then Err(CurrencyMismatch)
    else if AddOverflows(m.minor, other.minor) then Err(Overflow)
    else Ok(Amount(Wrap(m.minor as int + other.minor as int), m.currency))
  }

  function Sub(m: Amount, other: Amount): Result<Amount, Error> {
    if Code(m.currency) != Code(other.currency) then Err(CurrencyMismatch)
    else if SubOverflows(m.minor, other.minor) then Err(Overflow)
    else Ok(Amount(Wrap(m.minor as int - other.minor as int), m.currency))
  }

  /** The product is divided back by the factor, in wrapping arithmetic, to see whether it survived. */
  function MulInt(m: Amount, factor: int64): Result<Amount, Error> {
    if factor == 0 then Ok(Amount(0, m.currency))
    else
      var product := Wrap(m.minor as int * factor as int);
      if m.minor != 0 && Wrap(Quotient(product, factor)) != m.minor then Err(Overflow)
      else Ok(Amount(product, m.currency))
  }

  function DivInt(m: Amount, divisor: int64): Result<Amount, Error> {
    if divisor == 0 then Err(DivideByZero) else Ok(Amount(Wrap(Quotient(m.minor, divisor)), m.currency))
  }

  // ----- each step against unbounded integers

  lemma {:induction false} WrapFits(x: int)
    requires Fits(x)
    ensures Wrap(x) == x
  {
  }

  lemma {:induction false} WrapMoves(x: int) returns (k: int)
    ensures Wrap(x) == x - k * RANGE
    ensures !Fits(x) ==> k != 0
  {
    k := (x - MIN) / RANGE;
    assert x - MIN == RANGE * k + (x - MIN) % RANGE;
  }

  /** The result a step must have: the exact value, or Overflow when 64 bits cannot hold it. */
  function Checked(exact: int, currency: string): Result<Amount, Error> {
    if Fits(exact) then Ok(Amount(exact, currency)) else Err(Overflow)
  }

  lemma {:induction false} AddSubExact(m: Amount, other: Amount)
    requires Code(m.currency) == Code(other.currency)
    ensures Add(m, other) == Checked(m.minor as int + other.minor as int, m.currency)
    ensures Sub(m, other) == Checked(m.minor as int - other.minor as int, m.currency)
  {
    if Fits(m.minor as int + other.minor as int) { WrapFits(m.minor as int + other.minor as int); }
    if Fits(m.minor as int - other.minor as int) { WrapFits(m.minor as int - other.minor as int); }
  }

  lemma {:induction false} QuotientError(a: int, b: int)
    requires b != 0
    ensures -Mag(b) < a - b * Quotient(a, b) < Mag(b)
  {
    var c, d := Mag(a), Mag(b);
    var q := c / d;
    assert c == d * q + c % d;
    assert b * -q == -(b * q);
    if b < 0 { assert b * q == -(d * q); }
  }

  lemma {:induction false} QuotientOfProduct(m: int, f: int)
    requires f != 0
    ensures Quotient(m * f, f) == m
  {
    var q := Quotient(m * f, f);
    QuotientError(m * f, f);
    assert m * f - f * q == f * (m - q);
    if f > 0 {
      SmallMultiple(f, m - q);
    } else {
      assert f * (m - q) == -f * (q - m);
      SmallMultiple(-f, q - m);
    }
  }

  /** MulInt is exact, errors included, except for the one pair whose check itself overflows. */
  lemma {:induction false} MulExactIff(m: Amount, factor: int64)
    ensures MulInt(m, factor) == Checked(m.minor as int * factor as int, m.currency)
            <==> !(m.minor as int == MIN && factor == -1)
  {
    var p := m.minor as int * factor as int;
    if factor == 0 {
      assert p == 0;
    } else if m.minor as int == MIN && factor == -1 {
      assert p == 0x8000_0000_0000_0000 && Wrap(p) as int == MIN;
      assert Quotient(MIN, -1) == 0x8000_0000_0000_0000;
    } else if Fits(p) {
      WrapFits(p);
      QuotientOfProduct(m.minor, factor);
      WrapFits(m.minor);
    } else {
      WrongProduct(m.minor, factor);
    }
  }

  lemma {:induction false} WrongProduct(m: int64, f: int64)
    requires f != 0 && !Fits(m as int * f as int) && !(m as int == MIN && f == -1)
    ensures m != 0 && Wrap(Quotient(Wrap(m as int * f as int), f)) != m
  {
    var p := m as int * f as int;
    var k := WrapMoves(p);
    var w := Wrap(p) as int;
    var q := Quotient(w, f);
    QuotientError(w, f);
    assert k >= 1 ==> k * RANGE >= RANGE;
    assert k <= -1 ==> k * RANGE <= -RANGE;
    assert q == m as int ==> f as int * q == p;
    QuotientRange(w, f);
    if Fits(q) { WrapFits(q); }
  }

  lemma {:induction false} HalfAtMost(c: nat, d: nat)
    requires d >= 2
    ensures 2 * (c / d) <= c
  {
    var q := c / d;
    assert c == d * q + c % d;
    assert (d - 2) * q >= 0 && (d - 2) * q == d * q - 2 * q;
  }

  /** Dividing an int64 leaves int64 only for the most negative amount by -1. */
  lemma {:induction false} QuotientRange(w: int, f: int)
    requires Fits(w) && f != 0
    ensures !Fits(Quotient(w, f)) ==> w == MIN && f == -1
  {
    if Mag(f) == 1 { assert Mag(w) / 1 == Mag(w); } else { HalfAtMost(Mag(w), Mag(f)); }
  }

  /** DivInt rounds toward zero, with the same single exception. */
  lemma {:induction false} DivExactIff(m: Amount, divisor: int64)
    requires divisor != 0
    ensures DivInt(m, divisor) == Checked(Quotient(m.minor, divisor), m.currency)
      <==> !(m.minor as int == MIN && divisor == -1)
  {
    QuotientRange(m.minor, divisor);
    if m.minor as int == MIN && divisor == -1 {
      assert Quotient(MIN, -1) == 0x8000_0000_0000_0000;
    } else {
      WrapFits(Quotient(m.minor, divisor));
    }
  }

  // ----- chains of operations

  datatype Op = Plus(other: Amount) | Minus(other: Amount) | Times(factor: int64)

  function Apply(m: Amount, op: Op): Result<Amount, Error> {
    match op
    case Plus(other) => Add(m, other)
    case Minus(other) => Sub(m, other)
    case Times(factor) => MulInt(m, factor)
  }

  function Run(m: Amount, ops: seq<Op>): Result<Amount, Error>
    decreases |ops|
  {
    if ops == [] then Ok(m)
    else
      var r := Apply(m, ops[0]);
      if r.Err? then r else Run(r.value, ops[1..])
  }

  function Exact(x: int, op: Op): int {
    match op
    case Plus(other) => x + other.minor as int
    case Minus(other) => x - other.minor as int
    case Times(factor) => x * factor as int
  }

  predicate Mismatched(currency: string, op: Op) {
    !op.Times? && Code(currency) != Code(op.other.currency)
  }

  /** The same computation over unbounded integers, checked after each step. */
  function Reference(x: int, currency: string, ops: seq<Op>): Result<int, Error>
    decreases |ops|
  {
    if ops == [] then Ok(x)
    else if Mismatched(currency, ops[0]) then Err(CurrencyMismatch)
    else if !Fits(Exact(x, ops[0])) then Err(Overflow)
    else Reference(Exact(x, ops[0]), currency, ops[1..])
  }

  /** No step that is reached multiplies the most negative amount by -1. */
  ghost predicate Safe(x: int, currency: string, ops: seq<Op>)
    decreases |ops|
  {
    ops == []
    || Mismatched(currency, ops[0])
    || (!(x == MIN && ops[0] == Times(-1))
        && (Fits(Exact(x, ops[0])) ==> Safe(Exact(x, ops[0]), currency, ops[1..])))
  }

  /** The package's result and the exact one are the same value or the same error. */
  ghost predicate Agrees(m: Amount, ops: seq<Op>) {
    match Run(m, ops)
    case Ok(v) => Reference(m.minor, m.currency, ops) == Ok(v.minor as int) && v.currency == m.currency
    case Err(e) => Reference(m.minor, m.currency, ops) == Err(e)
  }

  /** One step outside the excluded pair is exact. */
  lemma {:induction false} StepIsExact(m: Amount, op: Op)
    requires !(m.minor as int == MIN && op == Times(-1))
    ensures Apply(m, op) ==
            if Mismatched(m.currency, op) then Err(CurrencyMismatch) else Checked(Exact(m.minor, op), m.currency)
  {
    match op
    case Plus(other) => if !Mismatched(m.currency, op) { AddSubExact(m, other); }
    case Minus(other) => if !Mismatched(m.currency, op) { AddSubExact(m, other); }
    case Times(factor) => MulExactIff(m, factor);
  }

  lemma {:induction false} SafeChain(m: Amount, ops: seq<Op>)
    requires Safe(m.minor, m.currency, ops)
    ensures Agrees(m, ops)
    decreases |ops|
  {
    if ops != [] {
      if Mismatched(m.currency, ops[0]) {
        assert Apply(m, ops[0]) == Err(CurrencyMismatch);
      } else {
        StepIsExact(m, ops[0]);
        var r := Apply(m, ops[0]);
        if r.Ok? { SafeChain(r.value, ops[1..]); }
      }
    }
  }

  lemma {:induction false} SafePrefix(x: int, currency: string, ops: seq<Op>, k: nat)
    requires Safe(x, currency, ops) && k <= |ops|
    ensures Safe(x, currency, ops[..k])
    decreases k
  {
    if k > 0 && !Mismatched(currency, ops[0]) {
      assert ops[..k][1..] == ops[1..][..k - 1];
      if Fits(Exact(x, ops[0])) { SafePrefix(Exact(x, ops[0]), currency, ops[1..], k - 1); }
    }
  }

  /** The step that multiplies the most negative amount by -1 is where the two part. */
  lemma {:induction false} UnsafeChain(m: Amount, ops: seq<Op>) returns (k: nat)
    requires !Safe(m.minor, m.currency, ops)
    ensures k <= |ops| && !Agrees(m, ops[..k])
    decreases |ops|
  {
    if m.minor as int == MIN && ops[0] == Times(-1) {
      k := 1;
      assert ops[..1] == [Times(-1)] && [Times(-1)][1..] == [];
      MinTimesMinusOne(m.currency);
    } else {
      StepIsExact(m, ops[0]);
      var r := Apply(m, ops[0]);
      var j := UnsafeChain(r.value, ops[1..]);
      k := j + 1;
      assert ops[..k][1..] == ops[1..][..j];
    }
  }

  /**
    A chain is exact after every step, with the same first error at the same step, iff no step that is
    reached multiplies the most negative amount by -1.
   */
  lemma {:induction false} ChainIsExactIff(m: Amount, ops: seq<Op>)
    ensures (forall k :: 0 <= k <= |ops| ==> Agrees(m, ops[..k])) <==> Safe(m.minor, m.currency, ops)
  {
    if Safe(m.minor, m.currency, ops) {
      forall k | 0 <= k <= |ops| ensures Agrees(m, ops[..k]) {
        SafePrefix(m.minor, m.currency, ops, k);
        SafeChain(m, ops[..k]);
      }
    } else {
      var k := UnsafeChain(m, ops);
    }
  }

  /** The excluded step really is wrong: no error, and the sign is lost. */
  lemma {:induction false} MinTimesMinusOne(currency: string)
    ensures MulInt(Amount(MIN, currency), -1) == Ok(Amount(MIN, currency))
  {
    assert Wrap(MIN * -1) as int == MIN;
  }

  /** And so is the same division. */
  lemma {:induction false} MinOverMinusOne(currency: string)
    ensures DivInt(Amount(MIN, currency), -1) == Ok(Amount(MIN, currency))
  {
    assert Quotient(MIN, -1) == 0x8000_0000_0000_0000;
    assert Wrap(0x8000_0000_0000_0000) as int == MIN;
  }
}
