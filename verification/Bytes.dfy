/** Bytes, 16-bit little-endian samples and the concatenation of chunk lists. */
module Bytes {
  type byte = b: int | 0 <= b < 256
  type bytes = seq<byte>

  /** One 16-bit signed sample. */
  type sample = s: int | -32768 <= s <= 32767

  function Flatten<T>(chunks: seq<seq<T>>): seq<T> {
    if chunks == [] then [] else chunks[0] + Flatten(chunks[1..])
  }

  lemma {:induction false} Associate<T>(a: seq<T>, b: seq<T>, c: seq<T>)
    ensures (a + b) + c == a + (b + c)
  {
  }

  lemma {:induction false} Whole<T>(s: seq<T>)
    ensures s[..|s|] == s && s[|s|..] == [] && s + [] == s && [] + s == s
  {
  }

  /** Cutting a concatenation inside its second part. */
  lemma {:induction false} CutLater<T>(a: seq<T>, b: seq<T>, n: nat)
    requires n <= |b|
    ensures (a + b)[..|a| + n] == a + b[..n] && (a + b)[|a| + n..] == b[n..]
  {
  }

  lemma {:induction false} FlattenAppend<T>(a: seq<seq<T>>, b: seq<seq<T>>)
    ensures Flatten(a + b) == Flatten(a) + Flatten(b)
  {
    if a == [] {
      assert a + b == b;
    } else {
      assert (a + b)[1..] == a[1..] + b;
      FlattenAppend(a[1..], b);
    }
  }

  lemma {:induction false} FlattenNothing<T>()
    ensures Flatten<T>([]) == []
  {
  }

  lemma {:induction false} FlattenOne<T>(x: seq<T>)
    ensures Flatten([x]) == x
  {
  }

  lemma {:induction false} FlattenTake<T>(chunks: seq<seq<T>>, i: nat)
    requires i < |chunks|
    ensures Flatten(chunks[..i + 1]) == Flatten(chunks[..i]) + chunks[i]
  {
    assert chunks[..i + 1] == chunks[..i] + [chunks[i]];
    FlattenAppend(chunks[..i], [chunks[i]]);
    assert Flatten([chunks[i]]) == chunks[i];
  }

  function Zeros(n: nat): (z: bytes)
    ensures |z| == n
  {
    seq(n, _ => 0)
  }

  // --- 16-bit little-endian samples --------------------------------------------------

  function SampleOf(lo: byte, hi: byte): sample {
    var u := lo + 256 * hi;
    if u < 32768 then u else u - 65536
  }

  function LowByte(s: sample): byte {
    if s < 0 then (s + 65536) % 256 else s % 256
  }

  function HighByte(s: sample): byte {
    if s < 0 then (s + 65536) / 256 else s / 256
  }

  lemma {:induction false} SampleRoundTrip(s: sample)
    ensures SampleOf(LowByte(s), HighByte(s)) == s
  {
  }

  /** Low byte first, in two's complement. */
  lemma {:induction false} LittleEndian(lo: byte, hi: byte)
    ensures var u := lo + 256 * hi; SampleOf(lo, hi) == u || SampleOf(lo, hi) == u - 65536
    ensures hi < 128 <==> SampleOf(lo, hi) >= 0
  {
  }

  /** The whole samples of a byte string; a trailing odd byte is not one. */
  function Samples(data: bytes): (r: seq<sample>)
    ensures |r| == |data| / 2
  {
    seq(|data| / 2, i requires 0 <= i < |data| / 2 => SampleOf(data[2 * i], data[2 * i + 1]))
  }

  function EncodeSamples(xs: seq<sample>): (r: bytes)
    ensures |r| == 2 * |xs|
  {
    seq(2 * |xs|, i requires 0 <= i < 2 * |xs| =>
      if i % 2 == 0 then LowByte(xs[i / 2]) else HighByte(xs[i / 2]))
  }

  lemma {:induction false} EncodeSamplesAppend(a: seq<sample>, b: seq<sample>)
    ensures EncodeSamples(a + b) == EncodeSamples(a) + EncodeSamples(b)
  {
    var l, r := EncodeSamples(a + b), EncodeSamples(a) + EncodeSamples(b);
    assert |l| == |r|;
    forall i | 0 <= i < |l|
      ensures l[i] == r[i]
    {
      if i < 2 * |a| {
        assert (a + b)[i / 2] == a[i / 2];
      } else {
        var j := i - 2 * |a|;
        assert j % 2 == i % 2 && i / 2 - |a| == j / 2;
        assert (a + b)[i / 2] == b[j / 2];
      }
    }
  }

  /** Reading back what was written: the two 16-bit conversions are inverse. */
  lemma {:induction false} SamplesOfEncoding(xs: seq<sample>)
    ensures Samples(EncodeSamples(xs)) == xs
  {
    var enc := EncodeSamples(xs);
    forall i | 0 <= i < |xs|
      ensures Samples(enc)[i] == xs[i]
    {
      assert enc[2 * i] == LowByte(xs[i]) && enc[2 * i + 1] == HighByte(xs[i]);
      SampleRoundTrip(xs[i]);
    }
  }

  lemma {:induction false} SampleAt(data: bytes, i: nat)
    requires i < |data| / 2
    ensures Samples(data)[i] == SampleOf(data[2 * i], data[2 * i + 1])
  {
  }

  /** Cutting after an even number of bytes cuts between two samples. */
  lemma {:induction false} SamplesAppend(a: bytes, b: bytes)
    requires |a| % 2 == 0
    ensures Samples(a + b) == Samples(a) + Samples(b)
  {
    var l, r := Samples(a + b), Samples(a) + Samples(b);
    assert |l| == |r|;
    forall i | 0 <= i < |l|
      ensures l[i] == r[i]
    {
      if i >= |a| / 2 {
        var j := i - |a| / 2;
        assert (a + b)[2 * i] == b[2 * j] && (a + b)[2 * i + 1] == b[2 * j + 1];
      }
    }
  }
}
