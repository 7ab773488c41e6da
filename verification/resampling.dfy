/** The rate conversions and byte bridges of audio/codec, and how they behave at frame boundaries. */
module Resampling {
  import opened Pcm
  import opened Mulaw

  /** Go's integer division by two: toward zero. */
  function Half(x: int): int {
    if x >= 0 then x / 2 else -(-x / 2)
  }

  function Mid(a: Sample, b: Sample): (m: Sample)
    ensures a <= m <= b || b <= m <= a
  {
    Half(a as int + b as int)
  }

  /** Sample i, then the point half way to sample i + 1; the last sample is repeated. */
  function Upsampled(s: seq<Sample>): (r: seq<Sample>)
    ensures |r| == 2 * |s|
  {
    if s == [] then []
    else [s[0], if |s| > 1 then Mid(s[0], s[1]) else s[0]] + Upsampled(s[1..])
  }

  function Downsampled(s: seq<Sample>): (r: seq<Sample>)
    ensures |r| == |s| / 3 && forall i :: 0 <= i < |r| ==> r[i] == s[3 * i]
  {
    seq(|s| / 3, i requires 0 <= i < |s| / 3 => s[3 * i])
  }

  lemma {:induction false} DropTwo(s: seq<Sample>, k: nat)
    requires 2 <= k && k + 1 < |s|
    ensures s[k] == s[2..][k - 2] && s[k + 1] == s[2..][k - 1]
  {
  }

  lemma {:induction false} UpsampledAt(s: seq<Sample>, i: nat)
    requires i < |s|
    ensures Upsampled(s)[2 * i] == s[i]
    ensures Upsampled(s)[2 * i + 1] == if i + 1 < |s| then Mid(s[i], s[i + 1]) else s[i]
  {
    if i > 0 {
      UpsampledAt(s[1..], i - 1);
      assert Upsampled(s)[2..] == Upsampled(s[1..]);
      DropTwo(Upsampled(s), 2 * i);
    }
  }

  /** Every sample is kept, and every interpolated one is the mean of its two neighbours, rounded toward zero. */
  lemma {:induction false} InterpolationStaysBetween(s: seq<Sample>, i: nat)
    requires i + 1 < |s|
    ensures var u := Upsampled(s);
      && u[2 * i] == s[i] && u[2 * (i + 1)] == s[i + 1]
      && (s[i] <= u[2 * i + 1] <= s[i + 1] || s[i + 1] <= u[2 * i + 1] <= s[i])
      && var twice, sum := 2 * (u[2 * i + 1] as int), s[i] as int + s[i + 1] as int;
         -1 <= twice - sum <= 1 && (if sum >= 0 then 0 <= twice <= sum else sum <= twice <= 0)
  {
    UpsampledAt(s, i);
    UpsampledAt(s, i + 1);
  }

  method Upsample8to16(samples: seq<Sample>) returns (r: seq<Sample>)
    ensures r == Upsampled(samples)
  {
    if |samples| == 0 {
      return [];
    }
    ghost var want := Upsampled(samples);
    var out := new Sample[|samples| * 2];
    for i := 0 to |samples|
      invariant out[..2 * i] == want[..2 * i]
    {
      UpsampledAt(samples, i);
      out[i * 2] := samples[i];
      if i < |samples| - 1 {
        out[i * 2 + 1] := Mid(samples[i], samples[i + 1]);
      } else {
        out[i * 2 + 1] := samples[i];
      }
      assert out[..2 * (i + 1)] == out[..2 * i] + [want[2 * i], want[2 * i + 1]];
      assert want[..2 * (i + 1)] == want[..2 * i] + [want[2 * i], want[2 * i + 1]];
    }
    assert out[..] == out[..2 * |samples|];
    return out[..];
  }

  method Downsample24to8(samples: seq<Sample>) returns (r: seq<Sample>)
    ensures r == Downsampled(samples)
  {
    var outLen := |samples| / 3;
    var out := new Sample[outLen];
    for i := 0 to outLen
      invariant forall k :: 0 <= k < i ==> out[k] == samples[3 * k]
    {
      out[i] := samples[i * 3];
    }
    return out[..];
  }

  function ToPcm16k(mulaw: seq<Byte>): seq<Byte> {
    Bytes(Upsampled(Decoded(mulaw)))
  }

  function ToMulaw8k(data: seq<Byte>): seq<Byte> {
    Encoded(Downsampled(Samples(data)))
  }

  method Mulaw8kToPCM16LE16k(mulaw: seq<Byte>) returns (r: seq<Byte>)
    ensures r == ToPcm16k(mulaw)
  {
    var pcm8k := MulawToPCM16(mulaw);
    var pcm16k := Upsample8to16(pcm8k);
    r := Int16LEToBytes(pcm16k);
  }

  method PCM16LE24kToMulaw8k(data: seq<Byte>) returns (r: seq<Byte>)
    ensures r == ToMulaw8k(data)
  {
    var pcm24k := BytesToInt16LE(data);
    var pcm8k := Downsample24to8(pcm24k);
    r := PCM16ToMulaw(pcm8k);
  }

  // ----- 24 kHz to 8 kHz: cutting anywhere on a 6-byte boundary changes nothing

  lemma {:induction false} DownsampledConcat(a: seq<Sample>, b: seq<Sample>)
    requires |a| % 3 == 0
    ensures Downsampled(a + b) == Downsampled(a) + Downsampled(b)
  {
    var l, r := Downsampled(a + b), Downsampled(a) + Downsampled(b);
    forall i | 0 <= i < |l| ensures l[i] == r[i] {
      if 3 * i >= |a| { assert (a + b)[3 * i] == b[3 * (i - |a| / 3)]; }
    }
  }

  lemma {:induction false} EncodedConcat(a: seq<Sample>, b: seq<Sample>)
    ensures Encoded(a + b) == Encoded(a) + Encoded(b)
  {
  }

  /** PCM16LE24kToMulaw8k distributes over concatenation at every 6-byte boundary. */
  lemma {:induction false} DownFramesIndependently(a: seq<Byte>, b: seq<Byte>)
    requires |a| % 6 == 0
    ensures ToMulaw8k(a + b) == ToMulaw8k(a) + ToMulaw8k(b)
  {
    SamplesConcat(a, b);
    DownsampledConcat(Samples(a), Samples(b));
    EncodedConcat(Downsampled(Samples(a)), Downsampled(Samples(b)));
  }

  // ----- 8 kHz to 16 kHz: only the last interpolated sample of the first frame may differ

  /** Joined, the point after the last sample of s is half way to t; apart, it repeats that sample. */
  lemma {:induction false} UpsampledConcat(s: seq<Sample>, t: seq<Sample>)
    requires s != [] && t != []
    ensures var n := 2 * |s| - 1;
      && Upsampled(s + t) == Upsampled(s)[..n] + [Mid(s[|s| - 1], t[0])] + Upsampled(t)
      && Upsampled(s) == Upsampled(s)[..n] + [s[|s| - 1]]
  {
    UpsampledLast(s);
    if |s| == 1 { ConcatOne(s, t); } else {
      UpsampledConcat(s[1..], t);
      ConcatMore(s, t);
    }
  }

  lemma {:induction false} ConcatOne(s: seq<Sample>, t: seq<Sample>)
    requires |s| == 1 && t != []
    ensures Upsampled(s + t) == Upsampled(s)[..1] + [Mid(s[0], t[0])] + Upsampled(t)
  {
    assert (s + t)[1..] == t && (s + t)[0] == s[0] && (s + t)[1] == t[0];
    assert Upsampled(s + t) == [s[0], Mid(s[0], t[0])] + Upsampled(t);
    assert Upsampled(s)[..1] == [s[0]];
  }

  lemma {:induction false} ConcatMore(s: seq<Sample>, t: seq<Sample>)
    requires |s| > 1 && t != []
    requires var n, rest := 2 * |s| - 3, s[1..];
      Upsampled(rest + t) == Upsampled(rest)[..n] + [Mid(s[|s| - 1], t[0])] + Upsampled(t)
    ensures Upsampled(s + t) == Upsampled(s)[..2 * |s| - 1] + [Mid(s[|s| - 1], t[0])] + Upsampled(t)
  {
    var head, up, mid, back := [s[0], Mid(s[0], s[1])], Upsampled(s[1..]), [Mid(s[|s| - 1], t[0])], Upsampled(t);
    UpsampledHead(s);
    JoinedHead(s, t);
    Prepend(head, up, 2 * |s| - 3, mid, back);
  }

  lemma {:induction false} UpsampledHead(s: seq<Sample>)
    requires |s| > 1
    ensures Upsampled(s) == [s[0], Mid(s[0], s[1])] + Upsampled(s[1..])
  {
  }

  lemma {:induction false} JoinedHead(s: seq<Sample>, t: seq<Sample>)
    requires |s| > 1
    ensures Upsampled(s + t) == [s[0], Mid(s[0], s[1])] + Upsampled(s[1..] + t)
  {
    assert (s + t)[1..] == s[1..] + t && (s + t)[0] == s[0] && (s + t)[1] == s[1];
  }

  lemma {:induction false} Prepend<T>(head: seq<T>, u: seq<T>, m: nat, mid: seq<T>, v: seq<T>)
    requires m <= |u|
    ensures head + (u[..m] + mid + v) == (head + u)[..|head| + m] + mid + v
  {
    assert (head + u)[..|head| + m] == head + u[..m];
  }

  lemma {:induction false} UpsampledLast(s: seq<Sample>)
    requires s != []
    ensures var n := 2 * |s| - 1; Upsampled(s) == Upsampled(s)[..n] + [s[|s| - 1]]
  {
    UpsampledAt(s, |s| - 1);
  }

  lemma {:induction false} DecodedConcat(a: seq<Byte>, b: seq<Byte>)
    ensures Decoded(a + b) == Decoded(a) + Decoded(b)
  {
  }

  /** Both results, cut around the one interpolated sample that belongs to the joint. */
  lemma {:induction false} AroundTheJoint(a: seq<Byte>, b: seq<Byte>) returns (front: seq<Byte>, back: seq<Byte>)
    requires a != [] && b != []
    ensures |front| == 4 * |a| - 2 && |back| == 4 * |b|
    ensures ToPcm16k(a + b) == front + Bytes([Mid(Table(a[|a| - 1]), Table(b[0]))]) + back
    ensures ToPcm16k(a) + ToPcm16k(b) == front + Bytes([Table(a[|a| - 1])]) + back
  {
    var s, t := Decoded(a), Decoded(b);
    var first, x, y := Upsampled(s)[..2 * |s| - 1], Mid(s[|s| - 1], t[0]), s[|s| - 1];
    front, back := Bytes(first), Bytes(Upsampled(t));
    DecodedConcat(a, b);
    UpsampledConcat(s, t);
    Spliced(first, x, Upsampled(t));
    assert ToPcm16k(a + b) == front + Bytes([x]) + back;
    BytesConcat(first, [y]);
    assert ToPcm16k(a) == front + Bytes([y]);
  }

  /**
    Mulaw8kToPCM16LE16k of two frames joined and of the two frames apart have the same length, four
    bytes per byte, and agree everywhere but in the two bytes of one interpolated sample; there they
    agree exactly when the bytes at the joint stand for the same level.
   */
  lemma {:induction false} UpFramesDifferInOneSample(a: seq<Byte>, b: seq<Byte>)
    requires a != [] && b != []
    ensures var joined, apart, cut := ToPcm16k(a + b), ToPcm16k(a) + ToPcm16k(b), 4 * |a| - 2;
      && |joined| == |apart| == 4 * (|a| + |b|)
      && joined[..cut] == apart[..cut]
      && (joined[cut..cut + 2] == apart[cut..cut + 2] <==> Table(a[|a| - 1]) == Table(b[0]))
      && joined[cut + 2..] == apart[cut + 2..]
  {
    var front, back := AroundTheJoint(a, b);
    var x, y := Mid(Table(a[|a| - 1]), Table(b[0])), Table(a[|a| - 1]);
    JointIff(a[|a| - 1], b[0]);
    SameEnds(front, Bytes([x]), Bytes([y]), back);
    BytesDecide(x, y);
  }

  /** The interpolated sample at a joint is the repeated one iff both bytes stand for the same level. */
  lemma {:induction false} JointIff(last: Byte, first: Byte)
    ensures Mid(Table(last), Table(first)) == Table(last) <==> Table(last) == Table(first)
  {
    var j := TableByFours(last);
    var k := TableByFours(first);
    MidIsFirstIff(Table(last), Table(first), j, k);
  }

  lemma {:induction false} BytesDecide(x: Sample, y: Sample)
    ensures Bytes([x]) == Bytes([y]) <==> x == y
  {
    SamplesOfBytes([x]);
    SamplesOfBytes([y]);
    assert [x][0] == x && [y][0] == y;
  }

  /** Every level of the code is a multiple of four, so half way to another level is never the level itself. */
  lemma {:induction false} TableByFours(b: Byte) returns (k: int)
    ensures Table(b) == 4 * k
  {
    var r, c := b / 16, b % 16;
    var e := if r < 8 then 7 - r else 15 - r;
    k := LevelByFours(e, 31 - c);
    TableIsLevel(b);
    if r < 8 { k := -k; }
  }

  lemma {:induction false} LevelByFours(e: nat, q: nat) returns (k: int)
    requires e < 8
    ensures Level(e, q) == 4 * k
  {
    var h := 2 * q + 1;
    if e == 0 { k := h - 33; } else if e == 1 { k := 2 * h - 33; }
    else if e == 2 { k := 4 * h - 33; } else if e == 3 { k := 8 * h - 33; }
    else if e == 4 { k := 16 * h - 33; } else if e == 5 { k := 32 * h - 33; }
    else if e == 6 { k := 64 * h - 33; } else { k := 128 * h - 33; }
  }

  lemma {:induction false} MidIsFirstIff(x: Sample, y: Sample, j: int, k: int)
    requires x == 4 * j && y == 4 * k
    ensures Mid(x, y) == x <==> x == y
  {
  }

  /** Exactly when frames can be converted one by one. */
  lemma {:induction false} UpFramesAgreeIff(a: seq<Byte>, b: seq<Byte>)
    ensures ToPcm16k(a + b) == ToPcm16k(a) + ToPcm16k(b) <==>
            a == [] || b == [] || Table(a[|a| - 1]) == Table(b[0])
  {
    if a == [] || b == [] {
      assert a + b == if a == [] then b else a;
    } else {
      var joined, apart, cut := ToPcm16k(a + b), ToPcm16k(a) + ToPcm16k(b), 4 * |a| - 2;
      UpFramesDifferInOneSample(a, b);
      Rejoin(joined, cut);
      Rejoin(apart, cut);
    }
  }

  lemma {:induction false} Rejoin(s: seq<Byte>, cut: nat)
    requires cut + 2 <= |s|
    ensures s == s[..cut] + s[cut..cut + 2] + s[cut + 2..]
  {
  }

  lemma {:induction false} DifferAt(x: Byte, y: Byte)
    requires Table(x) != Table(y)
    ensures ToPcm16k([x] + [y]) != ToPcm16k([x]) + ToPcm16k([y])
  {
    UpFramesAgreeIff([x], [y]);
  }

  /** Full scale up, then full scale down. */
  lemma {:induction false} UpFramesCanDiffer()
    ensures ToPcm16k([0x80] + [0x00]) != ToPcm16k([0x80]) + ToPcm16k([0x00])
  {
    assert TableRow(8)[0] == 32124 && TableRow(0)[0] == -32124;
    DifferAt(0x80, 0x00);
  }

  lemma {:induction false} Spliced(front: seq<Sample>, x: Sample, back: seq<Sample>)
    ensures Bytes(front + [x] + back) == Bytes(front) + Bytes([x]) + Bytes(back)
  {
    BytesConcat(front + [x], back);
    BytesConcat(front, [x]);
  }

  lemma {:induction false} SameEnds(front: seq<Byte>, x: seq<Byte>, y: seq<Byte>, back: seq<Byte>)
    requires |x| == |y| == 2
    ensures (front + x + back)[..|front|] == (front + y + back)[..|front|]
    ensures (front + x + back)[|front|..|front| + 2] == x && (front + y + back)[|front|..|front| + 2] == y
    ensures (front + x + back)[|front| + 2..] == (front + y + back)[|front| + 2..]
  {
  }
}
