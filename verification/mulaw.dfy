/**
  G.711 mu-law companding as audio/codec implements it, and the second encoder that
  voice/holdfiller/twilio carries.  The code follows Tables 2a and 2b of ITU-T G.711.
 */
module Mulaw {
  import opened Pcm
  import Bits

  const BIAS := 132
  const CLIP := 32635
  const HOLD_CLIP := 8191

  /** The decode table, sixteen code points to a row. */
  function TableRow(r: nat): (row: seq<Sample>)
    requires r < 16
    ensures |row| == 16
  {
    match r
      case 0 => [-32124, -31100, -30076, -29052, -28028, -27004, -25980, -24956, -23932, -22908, -21884, -20860, -19836, -18812, -17788, -16764]
      case 1 => [-15996, -15484, -14972, -14460, -13948, -13436, -12924, -12412, -11900, -11388, -10876, -10364, -9852, -9340, -8828, -8316]
      case 2 => [-7932, -7676, -7420, -7164, -6908, -6652, -6396, -6140, -5884, -5628, -5372, -5116, -4860, -4604, -4348, -4092]
      case 3 => [-3900, -3772, -3644, -3516, -3388, -3260, -3132, -3004, -2876, -2748, -2620, -2492, -2364, -2236, -2108, -1980]
      case 4 => [-1884, -1820, -1756, -1692, -1628, -1564, -1500, -1436, -1372, -1308, -1244, -1180, -1116, -1052, -988, -924]
      case 5 => [-876, -844, -812, -780, -748, -716, -684, -652, -620, -588, -556, -524, -492, -460, -428, -396]
      case 6 => [-372, -356, -340, -324, -308, -292, -276, -260, -244, -228, -212, -196, -180, -164, -148, -132]
      case 7 => [-120, -112, -104, -96, -88, -80, -72, -64, -56, -48, -40, -32, -24, -16, -8, 0]
      case 8 => [32124, 31100, 30076, 29052, 28028, 27004, 25980, 24956, 23932, 22908, 21884, 20860, 19836, 18812, 17788, 16764]
      case 9 => [15996, 15484, 14972, 14460, 13948, 13436, 12924, 12412, 11900, 11388, 10876, 10364, 9852, 9340, 8828, 8316]
      case 10 => [7932, 7676, 7420, 7164, 6908, 6652, 6396, 6140, 5884, 5628, 5372, 5116, 4860, 4604, 4348, 4092]
      case 11 => [3900, 3772, 3644, 3516, 3388, 3260, 3132, 3004, 2876, 2748, 2620, 2492, 2364, 2236, 2108, 1980]
      case 12 => [1884, 1820, 1756, 1692, 1628, 1564, 1500, 1436, 1372, 1308, 1244, 1180, 1116, 1052, 988, 924]
      case 13 => [876, 844, 812, 780, 748, 716, 684, 652, 620, 588, 556, 524, 492, 460, 428, 396]
      case 14 => [372, 356, 340, 324, 308, 292, 276, 260, 244, 228, 212, 196, 180, 164, 148, 132]
      case _ => [120, 112, 104, 96, 88, 80, 72, 64, 56, 48, 40, 32, 24, 16, 8, 0]
  }

  function Table(b: Byte): Sample {
    TableRow(b / 16)[b % 16]
  }

  /** 2^e for the eight segments. */
  function Pow(e: nat): (p: nat)
    requires e < 8
    ensures p > 0
  {
    if e == 0 then 1 else if e == 1 then 2 else if e == 2 then 4 else if e == 3 then 8
    else if e == 4 then 16 else if e == 5 then 32 else if e == 6 then 64 else 128
  }

  /** The segment of a biased magnitude: the position of its highest bit, counted from bit 7. */
  function Segment(m: nat): (e: nat)
    ensures e < 8
  {
    if m >= 16384 then 7 else if m >= 8192 then 6 else if m >= 4096 then 5 else if m >= 2048 then 4
    else if m >= 1024 then 3 else if m >= 512 then 2 else if m >= 256 then 1 else 0
  }

  function Abs(x: int): nat {
    if x < 0 then -x else x
  }

  function Distance(x: int, y: int): nat {
    Abs(x - y)
  }

  function Biased(clip: nat, a: nat): nat {
    (if a > clip then clip else a) + BIAS
  }

  /** The step of segment e that a biased magnitude falls in: 16 .. 31. */
  function Interval(m: nat): nat {
    m / (8 * Pow(Segment(m)))
  }

  /** The code point of a sample, for an encoder that saturates at `clip`. */
  function EncodeWith(clip: nat, x: int): int {
    var m := Biased(clip, Abs(x));
    255 - ((if x < 0 then 128 else 0) + Segment(m) * 16 + Interval(m) % 16)
  }

  function Encode(x: Sample): Byte {
    EncodeBits(CLIP, x);
    EncodeWith(CLIP, x)
  }

  /** The magnitude the middle of step q of segment e stands for. */
  function Level(e: nat, q: nat): int
    requires e < 8
  {
    (8 * q + 4) * Pow(e) - BIAS
  }

  /** What a code point stands for: sign, segment and step, read off its complement. */
  function Decode(b: Byte): int {
    var c := (255 - b) % 128;
    var magnitude := Level(c / 16, 16 + c % 16);
    if b < 128 then -magnitude else magnitude
  }

  // ----- the table is the law

  function RowLevel(r: nat, c: nat): int
    requires r < 16 && c < 16
  {
    if r < 8 then -Level(7 - r, 31 - c) else Level(15 - r, 31 - c)
  }

  lemma {:induction false} Rows0To3(r: nat, c: nat)
    requires 0 <= r < 4 && c < 16
    ensures TableRow(r)[c] == RowLevel(r, c)
  {
  }

  lemma {:induction false} Rows4To7(r: nat, c: nat)
    requires 4 <= r < 8 && c < 16
    ensures TableRow(r)[c] == RowLevel(r, c)
  {
  }

  lemma {:induction false} Rows8To11(r: nat, c: nat)
    requires 8 <= r < 12 && c < 16
    ensures TableRow(r)[c] == RowLevel(r, c)
  {
  }

  lemma {:induction false} Rows12To15(r: nat, c: nat)
    requires 12 <= r < 16 && c < 16
    ensures TableRow(r)[c] == RowLevel(r, c)
  {
  }

  lemma {:induction false} Complement(r: nat, c: nat)
    requires r < 16 && c < 16
    ensures (255 - (16 * r + c)) % 128 == 16 * (if r < 8 then 7 - r else 15 - r) + (15 - c)
  {
  }

  lemma {:induction false} TableIsLevel(b: Byte)
    ensures Table(b) == RowLevel(b / 16, b % 16)
  {
    var r, c := b / 16, b % 16;
    if r < 4 { Rows0To3(r, c); } else if r < 8 { Rows4To7(r, c); } else if r < 12 { Rows8To11(r, c); }
      else { Rows12To15(r, c); }
  }

  lemma {:induction false} LevelIsDecode(b: Byte)
    ensures RowLevel(b / 16, b % 16) == Decode(b)
  {
    var r, c := b / 16, b % 16;
    assert b == 16 * r + c;
    Complement(r, c);
    DecodeParts(b, if r < 8 then 7 - r else 15 - r, 15 - c);
  }

  /** All 256 table entries are the values the formula gives. */
  lemma {:induction false} TableIsDecode(b: Byte)
    ensures Table(b) == Decode(b)
  {
    TableIsLevel(b);
    LevelIsDecode(b);
  }

  lemma {:induction false} DecodeParts(b: Byte, e: nat, k: nat)
    requires e < 8 && k < 16 && (255 - b) % 128 == 16 * e + k
    ensures Decode(b) == if b < 128 then -Level(e, 16 + k) else Level(e, 16 + k)
  {
    assert (16 * e + k) / 16 == e && (16 * e + k) % 16 == k;
  }

  // ----- one magnitude

  lemma {:induction false} IntervalFacts(m: nat)
    requires BIAS <= m <= 32767
    ensures var p := Pow(Segment(m));
      && 128 * p <= m < 256 * p
      && 16 <= Interval(m) <= 31
      && 8 * (Interval(m) * p) <= m < 8 * (Interval(m) * p) + 8 * p
  {
    var e := Segment(m);
    if e == 0 {} else if e == 1 {} else if e == 2 {} else if e == 3 {}
    else if e == 4 {} else if e == 5 {} else if e == 6 {} else {}
  }

  /** The magnitude that encoding and decoding turn magnitude a into. */
  function Requantised(clip: nat, a: nat): int {
    var m := Biased(clip, a);
    Level(Segment(m), Interval(m))
  }

  lemma {:induction false} RequantisedFacts(clip: nat, a: nat)
    requires clip <= CLIP
    ensures var m := Biased(clip, a);
      var p := Pow(Segment(m));
      && 132 * p <= Requantised(clip, a) + BIAS <= 252 * p
      && m - 4 * p <= Requantised(clip, a) + BIAS <= m + 4 * p
      && 128 * p <= m < 256 * p
  {
    var m := Biased(clip, a);
    IntervalFacts(m);
    var p, q := Pow(Segment(m)), Interval(m);
    assert (8 * q + 4) * p == 8 * (q * p) + 4 * p;
    assert (8 * q + 4) * p >= 132 * p && (8 * q + 4) * p <= 252 * p by {
      assert (8 * q + 4 - 132) * p >= 0;
      assert (252 - 8 * q - 4) * p >= 0;
    }
  }

  /** A code point decodes to the requantised sample; its bits say sign, segment and step. */
  lemma {:induction false} EncodeBits(clip: nat, x: int)
    requires clip <= CLIP
    ensures 0 <= EncodeWith(clip, x) < 256
    ensures Decode(EncodeWith(clip, x)) == if x < 0 then -Requantised(clip, Abs(x)) else Requantised(clip, Abs(x))
  {
    var m := Biased(clip, Abs(x));
    IntervalFacts(m);
    var e, k := Segment(m), Interval(m) - 16;
    assert Interval(m) % 16 == k;
    var b := EncodeWith(clip, x);
    assert (255 - b) % 128 == 16 * e + k;
    DecodeParts(b, e, k);
  }

  // ----- the quantiser laws

  function Quantise(x: Sample): int {
    Decode(Encode(x))
  }

  lemma {:induction false} QuantiseIs(x: Sample)
    ensures Quantise(x) == if x < 0 then -Requantised(CLIP, Abs(x)) else Requantised(CLIP, Abs(x))
    ensures 0 <= Requantised(CLIP, Abs(x)) <= 32124
  {
    EncodeBits(CLIP, x);
    RequantisedFacts(CLIP, Abs(x));
  }

  /** The error is at most a thirty-second of the magnitude, plus a constant. */
  lemma {:induction false} ErrorBound(x: Sample)
    ensures 32 * Distance(Quantise(x), x) <= Abs(x) + 132
  {
    QuantiseIs(x);
    RequantisedFacts(CLIP, Abs(x));
    if Abs(x) > CLIP { assert Requantised(CLIP, Abs(x)) == 32124; }
  }

  lemma {:induction false} SegmentsGrow(m: nat, n: nat)
    requires Segment(m) < Segment(n)
    ensures 2 * Pow(Segment(m)) <= Pow(Segment(n))
  {
  }

  lemma {:induction false} StepsGrow(m: nat, m': nat)
    requires m <= m' && Segment(m) == Segment(m')
    ensures Level(Segment(m), Interval(m)) <= Level(Segment(m'), Interval(m'))
  {
    var e := Segment(m);
    if e == 0 {} else if e == 1 {} else if e == 2 {} else if e == 3 {}
    else if e == 4 {} else if e == 5 {} else if e == 6 {} else {}
  }

  lemma {:induction false} RequantisedMonotone(clip: nat, a: nat, a': nat)
    requires clip <= CLIP && a <= a'
    ensures Requantised(clip, a) <= Requantised(clip, a')
  {
    var m, m' := Biased(clip, a), Biased(clip, a');
    if Segment(m) == Segment(m') {
      StepsGrow(m, m');
    } else {
      RequantisedFacts(clip, a);
      RequantisedFacts(clip, a');
      SegmentsGrow(m, m');
    }
  }

  /** Louder stays louder, across the sign too. */
  lemma {:induction false} OrderPreserving(x: Sample, y: Sample)
    requires x <= y
    ensures Quantise(x) <= Quantise(y)
  {
    QuantiseIs(x);
    QuantiseIs(y);
    if x >= 0 { RequantisedMonotone(CLIP, x, y); }
    if y < 0 { RequantisedMonotone(CLIP, Abs(y), Abs(x)); }
  }

  lemma {:induction false} LevelIsFixed(e: nat, q: nat)
    requires e < 8 && 16 <= q <= 31
    ensures 0 <= Level(e, q) <= 32124
    ensures Segment(Level(e, q) + BIAS) == e && Interval(Level(e, q) + BIAS) == q
  {
    if e == 0 {} else if e == 1 {} else if e == 2 {} else if e == 3 {}
    else if e == 4 {} else if e == 5 {} else if e == 6 {} else {}
  }

  /** A value that has been through the codec once comes out of it unchanged. */
  lemma {:induction false} Idempotent(x: Sample)
    ensures -32768 <= Quantise(x) < 32768 && Quantise(Quantise(x)) == Quantise(x)
  {
    QuantiseIs(x);
    var m := Biased(CLIP, Abs(x));
    IntervalFacts(m);
    LevelIsFixed(Segment(m), Interval(m));
    QuantiseIs(Quantise(x));
  }

  /** Re-encoding a decoded byte gives the byte back, except that negative zero becomes zero. */
  lemma {:induction false} EncodeOfDecode(b: Byte)
    ensures -32768 <= Decode(b) < 32768
    ensures Encode(Decode(b)) == if b == 0x7F then 0xFF else b
  {
    var c := (255 - b) % 128;
    var e, k := c / 16, c % 16;
    assert c == 16 * e + k;
    LevelIsFixed(e, 16 + k);
    assert (16 + k) % 16 == k;
    LevelZero(e, 16 + k);
  }

  lemma {:induction false} LevelZero(e: nat, q: nat)
    requires e < 8 && 16 <= q <= 31
    ensures Level(e, q) == 0 <==> e == 0 && q == 16
  {
    if e == 0 {} else if e == 1 {} else if e == 2 {} else if e == 3 {}
    else if e == 4 {} else if e == 5 {} else if e == 6 {} else {}
  }

  /** The hold filler's encoder saturates at 8191, yet its bytes agree exactly up to 8571. */
  lemma {:induction false} HoldFillerAgreesIff(x: Sample)
    ensures EncodeWith(HOLD_CLIP, x) == Encode(x) <==> Abs(x) <= 8571
  {
    var m := Biased(CLIP, Abs(x));
    IntervalFacts(m);
    if Abs(x) > HOLD_CLIP {
      assert Segment(8323) == 6 && Interval(8323) == 16;
      if Segment(m) == 6 { assert Interval(m) == m / 512; }
    }
  }

  // ----- the encoders as loops, and whole streams

  /** A full-scale sample: the hold filler sends it a quarter as loud. */
  lemma {:induction false} HoldFillerClips()
    ensures Decode(Encode(32767)) == 32124 && EncodeWith(HOLD_CLIP, 32767) == 0x9F && Decode(0x9F) == 8316
  {
  }

  lemma {:induction false} MaskIs(e: nat)
    requires e < 8
    ensures 128 * Pow(e) == Bits.Pow2(e + 7)
  {
    assert Bits.Pow2(7) == 128;
    if e > 0 { MaskIs(e - 1); }
  }

  /** The search of encodeMulaw: a mask is shifted down until it meets the highest bit. */
  method FindExponent(mag: nat) returns (exponent: int)
    requires BIAS <= mag <= 32767
    ensures exponent == Segment(mag)
  {
    exponent := 7;
    var expMask := 0x4000;
    MaskIs(7);
    for i := 0 to 8
      invariant i < 8 && exponent == 7 - i
      invariant expMask == 128 * Pow(exponent) == Bits.Pow2(exponent + 7)
      invariant mag < 2 * expMask
    {
      Bits.TopBit(mag, exponent + 7);
      if Bits.And(mag, expMask) != 0 {
        break;
      }
      MaskIs(exponent - 1);
      exponent := exponent - 1;
      expMask := Bits.ShiftRight(expMask, 1);
    }
  }

  /** The four bits below the highest one. */
  lemma {:induction false} MantissaIs(m: nat, e: nat)
    requires e < 8
    ensures Bits.And(Bits.ShiftRight(m, e + 3), 0x0F) == m / (8 * Pow(e)) % 16
  {
    Bits.ShiftRightIs(m, e + 3);
    StepIs(e);
    Bits.LowBits(Bits.ShiftRight(m, e + 3));
  }

  lemma {:induction false} StepIs(e: nat)
    requires e < 8
    ensures 8 * Pow(e) == Bits.Pow2(e + 3)
  {
    assert Bits.Pow2(3) == 8;
    if e > 0 { StepIs(e - 1); }
  }

  /** Packing sign, exponent and mantissa into a byte and inverting it. */
  lemma {:induction false} PackedIs(sign: nat, e: nat, k: nat)
    requires (sign == 0 || sign == 0x80) && e < 8 && k < 16
    ensures Bits.Complement(Bits.Or(Bits.Or(sign, Bits.ShiftLeft(e, 4)), k), 8) == 255 - (sign + e * 16 + k)
  {
    var high := if sign == 0 then e else 8 + e;
    var packed := Bits.Or(Bits.Or(sign, Bits.ShiftLeft(e, 4)), k);
    assert packed == 16 * high + k by { Bits.OrSign(sign, e); Bits.OrNibble(high, k); }
    Inverted(packed);
  }

  lemma {:induction false} Inverted(x: nat)
    requires x < 256
    ensures Bits.Complement(x, 8) == 255 - x
  {
    Bits.Powers();
    Bits.ComplementIs(x, 8);
  }

  /** The last two lines of both encoders. */
  method Pack(sign: nat, exponent: nat, mag: nat) returns (code: nat)
    requires (sign == 0 || sign == 0x80) && exponent < 8
    ensures code == 255 - (sign + exponent * 16 + mag / (8 * Pow(exponent)) % 16)
  {
    var mantissa := Bits.And(Bits.ShiftRight(mag, exponent + 3), 0x0F);
    MantissaIs(mag, exponent);
    PackedIs(sign, exponent, mantissa);
    code := Bits.Complement(Bits.Or(Bits.Or(sign, Bits.ShiftLeft(exponent, 4)), mantissa), 8);
  }

  method EncodeMulaw(sample: Sample) returns (code: Byte)
    ensures code == Encode(sample)
  {
    var sign, mag := 0, sample as int;
    if mag < 0 {
      sign, mag := 0x80, -mag;
    }
    if mag > CLIP {
      mag := CLIP;
    }
    mag := mag + BIAS;
    var exponent := FindExponent(mag);
    EncodeBits(CLIP, sample);
    var packed := Pack(sign, exponent, mag);
    return packed;
  }

  /** The hold filler's search stops at exponent 0 without testing further. */
  method FindExponentGuarded(sample: nat) returns (exponent: nat)
    requires BIAS <= sample <= 32767
    ensures exponent == Segment(sample)
  {
    exponent := 7;
    var expMask := 0x4000;
    MaskIs(7);
    Bits.TopBit(sample, 14);
    while Bits.And(sample, expMask) == 0 && exponent > 0
      invariant exponent <= 7 && expMask == 128 * Pow(exponent) && sample < 2 * expMask
      invariant Bits.And(sample, expMask) != 0 <==> sample >= expMask
      decreases exponent
    {
      MaskIs(exponent - 1);
      exponent := exponent - 1;
      expMask := Bits.ShiftRight(expMask, 1);
      Bits.TopBit(sample, exponent + 7);
    }
  }

  method LinearToMulaw(value: Sample) returns (code: Byte)
    ensures code == EncodeWith(HOLD_CLIP, value)
  {
    var sign, sample := 0, value as int;
    if sample < 0 {
      sample, sign := -sample, 0x80;
    }
    if sample > HOLD_CLIP {
      sample := HOLD_CLIP;
    }
    sample := sample + BIAS;
    var exponent := FindExponentGuarded(sample);
    EncodeBits(HOLD_CLIP, value);
    var packed := Pack(sign, exponent, sample);
    return packed;
  }

  function Encoded(pcm: seq<Sample>): (r: seq<Byte>)
    ensures |r| == |pcm| && forall i :: 0 <= i < |pcm| ==> r[i] == Encode(pcm[i])
  {
    seq(|pcm|, i requires 0 <= i < |pcm| => Encode(pcm[i]))
  }

  function Decoded(mulaw: seq<Byte>): (r: seq<Sample>)
    ensures |r| == |mulaw| && forall i :: 0 <= i < |mulaw| ==> r[i] == Table(mulaw[i])
  {
    seq(|mulaw|, i requires 0 <= i < |mulaw| => Table(mulaw[i]))
  }

  method PCM16ToMulaw(pcm: seq<Sample>) returns (mulaw: seq<Byte>)
    ensures mulaw == Encoded(pcm)
  {
    var out := new Byte[|pcm|];
    for i := 0 to |pcm|
      invariant forall k :: 0 <= k < i ==> out[k] == Encode(pcm[k])
    {
      var code := EncodeMulaw(pcm[i]);
      out[i] := code;
    }
    return out[..];
  }

  method MulawToPCM16(mulaw: seq<Byte>) returns (pcm: seq<Sample>)
    ensures pcm == Decoded(mulaw)
  {
    var out := new Sample[|mulaw|];
    for i := 0 to |mulaw|
      invariant forall k :: 0 <= k < i ==> out[k] == Table(mulaw[k])
    {
      out[i] := Table(mulaw[i]);
    }
    return out[..];
  }

  /** The hold filler's stream encoder: the same bytes for every stream that stays within 8571. */
  method HoldFillerPCM16ToMulaw(pcm: seq<Sample>) returns (mulaw: seq<Byte>)
    ensures |mulaw| == |pcm| && forall i :: 0 <= i < |pcm| ==> mulaw[i] == EncodeWith(HOLD_CLIP, pcm[i])
    ensures mulaw == Encoded(pcm) <==> forall i :: 0 <= i < |pcm| ==> Abs(pcm[i]) <= 8571
  {
    var out := new Byte[|pcm|];
    for i := 0 to |pcm|
      invariant forall k :: 0 <= k < i ==> out[k] == EncodeWith(HOLD_CLIP, pcm[k])
    {
      var code := LinearToMulaw(pcm[i]);
      out[i] := code;
    }
    mulaw := out[..];
    forall i | 0 <= i < |pcm| ensures mulaw[i] == Encoded(pcm)[i] <==> Abs(pcm[i]) <= 8571 {
      HoldFillerAgreesIff(pcm[i]);
    }
  }

  lemma {:induction false} SampleLaws(x: Sample)
    ensures Table(Encode(x)) == Quantise(x)
    ensures 32 * Distance(Table(Encode(x)), x) <= Abs(x) + 132
    ensures Table(Encode(Table(Encode(x)))) == Table(Encode(x))
  {
    TableIsDecode(Encode(x));
    ErrorBound(x);
    Idempotent(x);
    TableIsDecode(Encode(Table(Encode(x))));
  }

  /** Sending a whole PCM stream through the codec and back keeps length, order and, the second time, values. */
  lemma {:induction false} StreamLaws(pcm: seq<Sample>)
    ensures var back := Decoded(Encoded(pcm));
      && |back| == |pcm|
      && (forall i :: 0 <= i < |pcm| ==> 32 * Distance(back[i], pcm[i]) <= Abs(pcm[i]) + 132)
      && Decoded(Encoded(back)) == back
  {
    var back := Decoded(Encoded(pcm));
    var again := Decoded(Encoded(back));
    forall i | 0 <= i < |pcm| ensures 32 * Distance(back[i], pcm[i]) <= Abs(pcm[i]) + 132 && again[i] == back[i] {
      SampleLaws(pcm[i]);
      assert back[i] == Table(Encode(pcm[i])) && again[i] == Table(Encode(back[i]));
    }
  }

  lemma {:induction false} StreamOrder(pcm: seq<Sample>, i: nat, j: nat)
    requires i < |pcm| && j < |pcm| && pcm[i] <= pcm[j]
    ensures Decoded(Encoded(pcm))[i] <= Decoded(Encoded(pcm))[j]
  {
    SampleLaws(pcm[i]);
    SampleLaws(pcm[j]);
    OrderPreserving(pcm[i], pcm[j]);
  }
}
