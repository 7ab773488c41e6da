/** Signed 16-bit PCM samples and their little-endian bytes. */
module Pcm {
  type Byte = b: int | 0 <= b < 256

  type Sample = s: int | -32768 <= s < 32768

  function FromBytes(lo: Byte, hi: Byte): Sample {
    var u := lo + 256 * hi;
    if u >= 32768 then u - 65536 else u
  }

  function Low(s: Sample): Byte {
    s % 256
  }

  function High(s: Sample): Byte {
    if s >= 0 then s / 256 else s / 256 + 256
  }

  lemma {:induction false} BytesRoundTrip(s: Sample)
    ensures FromBytes(Low(s), High(s)) == s
  {
    assert s == 256 * (s / 256) + s % 256;
  }

  /** The whole samples of a byte stream; a trailing odd byte is ignored. */
  function Samples(data: seq<Byte>): (r: seq<Sample>)
    ensures |r| == |data| / 2
    ensures forall i :: 0 <= i < |r| ==> r[i] == FromBytes(data[2 * i], data[2 * i + 1])
  {
    seq(|data| / 2, i requires 0 <= i < |data| / 2 => FromBytes(data[2 * i], data[2 * i + 1]))
  }

  function Bytes(pcm: seq<Sample>): (r: seq<Byte>)
    ensures |r| == 2 * |pcm|
  {
    if pcm == [] then [] else [Low(pcm[0]), High(pcm[0])] + Bytes(pcm[1..])
  }

  /** Cutting a stream at a sample boundary cuts its samples there. */
  lemma {:induction false} SamplesConcat(a: seq<Byte>, b: seq<Byte>)
    requires |a| % 2 == 0
    ensures Samples(a + b) == Samples(a) + Samples(b)
  {
    var l, r := Samples(a + b), Samples(a) + Samples(b);
    assert |l| == |r|;
    forall i | 0 <= i < |l| ensures l[i] == r[i] {
      if 2 * i < |a| {
        assert (a + b)[2 * i] == a[2 * i] && (a + b)[2 * i + 1] == a[2 * i + 1];
      } else {
        var j := i - |a| / 2;
        assert 2 * j == 2 * i - |a|;
        assert (a + b)[2 * i] == b[2 * j] && (a + b)[2 * i + 1] == b[2 * j + 1];
      }
    }
  }

  /** Decoding the bytes of a PCM stream gives the stream back. */
  lemma {:induction false} SamplesOfBytes(pcm: seq<Sample>)
    ensures Samples(Bytes(pcm)) == pcm
  {
    if pcm != [] {
      var head := [Low(pcm[0]), High(pcm[0])];
      SamplesConcat(head, Bytes(pcm[1..]));
      SamplesOfBytes(pcm[1..]);
      BytesRoundTrip(pcm[0]);
      assert Samples(head) == [pcm[0]];
    }
  }

  lemma {:induction false} BytesConcat(a: seq<Sample>, b: seq<Sample>)
    ensures Bytes(a + b) == Bytes(a) + Bytes(b)
  {
    if a == [] {
      assert a + b == b;
    } else {
      var head := [Low(a[0]), High(a[0])];
      var x, y := Bytes(a[1..]), Bytes(b);
      assert Bytes(a + b) == head + (x + y) by {
        BytesConcat(a[1..], b);
        assert (a + b)[1..] == a[1..] + b;
      }
      assert head + (x + y) == (head + x) + y;
    }
  }

  method BytesToInt16LE(data: seq<Byte>) returns (r: seq<Sample>)
    ensures r == Samples(data)
  {
    var n := |data| / 2;
    var out := new Sample[n];
    for i := 0 to n
      invariant forall k :: 0 <= k < i ==> out[k] == Samples(data)[k]
    {
      out[i] := FromBytes(data[i * 2], data[i * 2 + 1]);
    }
    return out[..];
  }

  method Int16LEToBytes(pcm: seq<Sample>) returns (r: seq<Byte>)
    ensures r == Bytes(pcm)
  {
    var out := new Byte[2 * |pcm|];
    for i := 0 to |pcm|
      invariant out[..2 * i] == Bytes(pcm[..i])
    {
      BytesConcat(pcm[..i], [pcm[i]]);
      assert pcm[..i + 1] == pcm[..i] + [pcm[i]];
      var lo, hi := Low(pcm[i]), High(pcm[i]);
      out[i * 2], out[i * 2 + 1] := lo, hi;
      assert out[..2 * (i + 1)] == out[..2 * i] + [lo, hi];
    }
    assert pcm[..|pcm|] == pcm && out[..] == out[..2 * |pcm|];
    return out[..];
  }
}
