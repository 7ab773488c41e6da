/** How the money package prints an amount, and a decimal parser that reads it back. */
module MoneyText {
  import opened Wrappers
  import opened Money

  predicate IsDigit(c: char) { '0' <= c <= '9' }

  function DigitChar(d: int): (c: char)
    requires 0 <= d < 10
    ensures IsDigit(c) && c as int - '0' as int == d
  {
    ('0' as int + d) as char
  }

  /** The decimal digits of a number, without leading zeros. */
  function Digits(n: nat): (s: string)
    ensures s != [] && forall i :: 0 <= i < |s| ==> IsDigit(s[i])
  {
    if n < 10 then [DigitChar(n)] else Digits(n / 10) + [DigitChar(n % 10)]
  }

  /** FormatInt in base ten. */
  function Itoa(x: int): string {
    if x < 0 then ['-'] + Digits(-x) else Digits(x)
  }

  function Pow10(k: nat): (p: nat)
    ensures p > 0
  {
    if k == 0 then 1 else 10 * Pow10(k - 1)
  }

  function Zeros(n: nat): (s: string)
    ensures |s| == n && forall i :: 0 <= i < n ==> s[i] == '0'
  {
    seq(n, _ => '0')
  }

  function Padded(s: string, width: nat): string {
    if |s| < width then Zeros(width - |s|) + s else s
  }

  /** The number part: sign, whole units, and `scale` decimals; negation wraps in int64. */
  function Number(minor: int64, scale: nat): string {
    var sign := if minor < 0 then ['-'] else [];
    var abs := if minor < 0 then Wrap(-(minor as int)) else minor;
    if scale == 0 then sign + Itoa(abs)
    else
      var divisor := Pow10(scale);
      sign + Itoa(Quotient(abs, divisor)) + ['.'] + Padded(Itoa(Remainder(abs, divisor)), scale)
  }

  type Scales = map<string, nat>

  function Render(scales: Scales, m: Amount): string {
    var code := Code(m.currency);
    if code !in scales then Itoa(m.minor) + " <unknown:" + m.currency + ">"
    else Number(m.minor, scales[code]) + [' '] + code
  }

  // ----- the parser

  /** How many digits a text starts with. */
  function Span(s: string): (n: nat)
    ensures n <= |s|
  {
    if s == [] || !IsDigit(s[0]) then 0 else 1 + Span(s[1..])
  }

  function Value(digits: string): int {
    if digits == [] then 0
    else 10 * Value(digits[..|digits| - 1]) + (digits[|digits| - 1] as int - '0' as int)
  }

  /** Exactly `width` digits, a space, and the code after it. */
  function ParseFraction(width: nat, u: string): Option<(int, string)> {
    if Span(u) == width && width < |u| && u[width] == ' ' then Some((Value(u[..width]), u[width + 1..])) else None
  }

  function Combine(whole: int, scale: nat, fraction: Option<(int, string)>): Option<(int, string)> {
    if fraction.Some? then Some((whole * Pow10(scale) + fraction.value.0, fraction.value.1)) else None
  }

  /** An unsigned amount at the given scale, then a space, then the code. */
  function ParseUnsigned(scale: nat, s: string): Option<(int, string)> {
    var n := Span(s);
    if n == 0 || n == |s| then None
    else if scale == 0 then ParseFraction(n, s)
    else if s[n] != '.' then None
    else Combine(Value(s[..n]), scale, ParseFraction(scale, s[n + 1..]))
  }

  function Signed(parse: string -> Option<(int, string)>, s: string): Option<(int, string)> {
    if s != [] && s[0] == '-' then
      var r := parse(s[1..]);
      if r.Some? then Some((-r.value.0, r.value.1)) else None
    else parse(s)
  }

  function Unsigned(scale: nat): string -> Option<(int, string)> {
    t => ParseUnsigned(scale, t)
  }

  function Parse(scale: nat, s: string): Option<(int, string)> {
    Signed(Unsigned(scale), s)
  }

  // ----- the parser inverts the printer

  lemma {:induction false} ValueOfDigits(n: nat)
    ensures Value(Digits(n)) == n
  {
    if n >= 10 {
      ValueOfDigits(n / 10);
      var s := Digits(n);
      assert s[..|s| - 1] == Digits(n / 10);
      assert n == 10 * (n / 10) + n % 10;
    } else {
      assert Digits(n)[..0] == [];
    }
  }

  lemma {:induction false} ValueIgnoresZeros(k: nat, s: string)
    ensures Value(Zeros(k) + s) == Value(s)
  {
    var t := Zeros(k) + s;
    if s == [] {
      assert t == Zeros(k);
      if k > 0 {
        assert t[..|t| - 1] == Zeros(k - 1) + [];
        ValueIgnoresZeros(k - 1, []);
      }
    } else {
      assert t[..|t| - 1] == Zeros(k) + s[..|s| - 1];
      ValueIgnoresZeros(k, s[..|s| - 1]);
    }
  }

  lemma {:induction false} DigitsWidth(n: nat, k: nat)
    requires k > 0 && n < Pow10(k)
    ensures |Digits(n)| <= k
  {
    if n >= 10 {
      assert k > 1;
      DigitsWidth(n / 10, k - 1);
    }
  }

  lemma {:induction false} PaddedDigits(n: nat, k: nat)
    requires k > 0 && n < Pow10(k)
    ensures var s := Padded(Digits(n), k);
      |s| == k && Value(s) == n && forall i :: 0 <= i < |s| ==> IsDigit(s[i])
  {
    DigitsWidth(n, k);
    ValueOfDigits(n);
    ValueIgnoresZeros(k - |Digits(n)|, Digits(n));
    if |Digits(n)| == k { assert Zeros(0) + Digits(n) == Digits(n); }
  }

  lemma {:induction false} SpanOf(digits: string, rest: string)
    requires forall i :: 0 <= i < |digits| ==> IsDigit(digits[i])
    requires rest == [] || !IsDigit(rest[0])
    ensures Span(digits + rest) == |digits|
  {
    if digits == [] {
      assert digits + rest == rest;
    } else {
      SpanOf(digits[1..], rest);
      assert (digits + rest)[1..] == digits[1..] + rest;
    }
  }

  lemma {:induction false} NonNegative(a: int, p: int)
    requires a >= 0 && p > 0
    ensures a / p >= 0 && a == (a / p) * p + a % p
  {
    var q := a / p;
    assert a == p * q + a % p;
    assert q <= -1 ==> p * (q + 1) <= 0;
    assert p * (q + 1) == p * q + p && p * q == q * p;
  }

  function Whole(a: nat, p: nat): (q: nat)
    requires p > 0
    ensures q == a / p && a == q * p + a % p
  {
    NonNegative(a, p);
    a / p
  }

  /** A non-negative amount as it is printed. */
  function Plain(a: nat, scale: nat): (s: string)
    ensures s != [] && IsDigit(s[0])
  {
    if scale == 0 then Digits(a)
    else Digits(Whole(a, Pow10(scale))) + ['.'] + Padded(Digits(a % Pow10(scale)), scale)
  }

  lemma {:induction false} ParseParts(q: nat, r: nat, scale: nat, code: string)
    requires scale > 0 && r < Pow10(scale)
    ensures ParseUnsigned(scale, Digits(q) + ['.'] + Padded(Digits(r), scale) + [' '] + code) ==
      Some((q * Pow10(scale) + r, code))
  {
    PaddedDigits(r, scale);
    ValueOfDigits(q);
    ParseDecimal(Digits(q), Padded(Digits(r), scale), scale, code);
  }

  lemma {:induction false} ParsePlain(a: nat, scale: nat, code: string)
    ensures ParseUnsigned(scale, Plain(a, scale) + [' '] + code) == Some((a, code))
  {
    if scale == 0 {
      ParseWhole(Digits(a), code);
      ValueOfDigits(a);
    } else {
      var p := Pow10(scale);
      var q := Whole(a, p);
      ParseParts(q, a % p, scale, code);
    }
  }

  lemma {:induction false} ParseFractionOf(frac: string, code: string)
    requires forall i :: 0 <= i < |frac| ==> IsDigit(frac[i])
    ensures Span(frac + [' '] + code) == |frac|
    ensures ParseFraction(|frac|, frac + [' '] + code) == Some((Value(frac), code))
  {
    var u := frac + [' '] + code;
    SpanOf(frac, [' '] + code);
    assert frac + ([' '] + code) == u;
    assert u[..|frac|] == frac && u[|frac| + 1..] == code;
  }

  lemma {:induction false} ParseWhole(whole: string, code: string)
    requires whole != [] && forall i :: 0 <= i < |whole| ==> IsDigit(whole[i])
    ensures ParseUnsigned(0, whole + [' '] + code) == Some((Value(whole), code))
  {
    ParseFractionOf(whole, code);
  }

  lemma {:induction false} ParseDecimal(whole: string, frac: string, scale: nat, code: string)
    requires whole != [] && forall i :: 0 <= i < |whole| ==> IsDigit(whole[i])
    requires scale > 0 && |frac| == scale && forall i :: 0 <= i < |frac| ==> IsDigit(frac[i])
    ensures ParseUnsigned(scale, whole + ['.'] + frac + [' '] + code) ==
      Combine(Value(whole), scale, Some((Value(frac), code)))
  {
    var u := frac + [' '] + code;
    var s := whole + ['.'] + frac + [' '] + code;
    assert s == whole + (['.'] + u);
    SpanOf(whole, ['.'] + u);
    assert s[..|whole|] == whole && s[|whole| + 1..] == u;
    ParseFractionOf(frac, code);
  }

  lemma {:induction false} NumberIsPlain(minor: int64, scale: nat)
    requires minor as int != MIN
    ensures Number(minor, scale) == (if minor < 0 then ['-'] else []) + Plain(Mag(minor), scale)
  {
    var a := Mag(minor);
    if minor < 0 { WrapFits(a); }
    if scale > 0 {
      var p := Pow10(scale);
      var q := Whole(a, p);
      assert p * q == q * p;
      assert Quotient(a, p) == q && Remainder(a, p) == a % p;
      var sign, x, y := if minor < 0 then ['-'] else [], Digits(q), Padded(Digits(a % p), scale);
      assert sign + x + ['.'] + y == sign + (x + ['.'] + y);
    }
  }

  lemma {:induction false} Pow10Bound(k: nat)
    requires k <= 8
    ensures Pow10(k) <= 100_000_000
  {
    assert Pow10(1) == 10 && Pow10(2) == 100 && Pow10(3) == 1000 && Pow10(4) == 10_000;
    assert Pow10(5) == 100_000 && Pow10(6) == 1_000_000 && Pow10(7) == 10_000_000 && Pow10(8) == 100_000_000;
  }

  lemma {:induction false} AtLeastOne(c: nat, d: nat)
    requires 0 < d <= c
    ensures c / d >= 1
  {
    assert c == d * (c / d) + c % d;
  }

  /** The most negative amount: its magnitude is printed with a second minus sign. */
  lemma {:induction false} NumberOfMin(scale: nat)
    requires scale <= 8
    ensures |Number(MIN, scale)| >= 2 && Number(MIN, scale)[0] == '-' && Number(MIN, scale)[1] == '-'
  {
    assert Wrap(-MIN) as int == MIN;
    Pow10Bound(scale);
    AtLeastOne(Mag(MIN), Pow10(scale));
  }

  /** What Register admits. */
  ghost predicate Registered(scales: Scales) {
    forall c :: c in scales ==> scales[c] <= 8
  }

  /** Reading back what String printed gives the amount and the code, for every amount but the most negative. */
  lemma {:induction false} ParseInvertsRenderIff(scales: Scales, m: Amount)
    requires Registered(scales) && Code(m.currency) in scales
    ensures Parse(scales[Code(m.currency)], Render(scales, m)) == Some((m.minor as int, Code(m.currency)))
            <==> m.minor as int != MIN
  {
    var code := Code(m.currency);
    var scale := scales[code];
    if m.minor as int == MIN {
      NumberOfMin(scale);
      NoNumberAfterTwoSigns(scale, Number(m.minor, scale) + [' '] + code);
    } else {
      NumberIsPlain(m.minor, scale);
      ParseSigned(m.minor < 0, Mag(m.minor), scale, code);
    }
  }

  lemma {:induction false} NoNumberAfterTwoSigns(scale: nat, s: string)
    requires |s| >= 2 && s[0] == '-' && s[1] == '-'
    ensures Parse(scale, s) == None
  {
    assert Span(s[1..]) == 0;
  }

  lemma {:induction false} ParseSign(
      parse: string -> Option<(int, string)>, negative: bool, text: string, v: int, code: string)
    requires text != [] && IsDigit(text[0]) && parse(text) == Some((v, code))
    ensures Signed(parse, (if negative then ['-'] else []) + text) == Some((if negative then -v else v, code))
  {
    if negative {
      assert (['-'] + text)[1..] == text;
    } else {
      assert [] + text == text;
    }
  }

  lemma {:induction false} ParseSigned(negative: bool, a: nat, scale: nat, code: string)
    ensures var sign: string := if negative then ['-'] else [];
      Parse(scale, sign + Plain(a, scale) + [' '] + code) == Some((if negative then -(a as int) else a, code))
  {
    var sign: string, plain := if negative then ['-'] else [], Plain(a, scale);
    ParseUnsignedPlain(a, scale, code);
    ParseSign(Unsigned(scale), negative, plain + [' '] + code, a, code);
    Regather(sign, plain, [' '], code);
  }

  lemma {:induction false} ParseUnsignedPlain(a: nat, scale: nat, code: string)
    ensures var text := Plain(a, scale) + [' '] + code;
      text != [] && IsDigit(text[0]) && Unsigned(scale)(text) == Some((a, code))
  {
    ParsePlain(a, scale, code);
  }

  lemma {:induction false} Regather(a: string, b: string, c: string, d: string)
    ensures a + b + c + d == a + (b + c + d)
  {
  }
}
