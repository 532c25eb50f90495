/** The WAV container (owen-voice/app/dsp.py, wav_wrap and wav_unwrap); chunk layout as in chapter 2 of the
    IBM/Microsoft Multimedia Programming Interface and Data Specifications 1.0. */
module Wav {
  import opened Bytes

  datatype Option<T> = None | Some(value: T)

  // --- little-endian fields ----------------------------------------------------------

  function Range(width: nat): (n: nat)
    ensures n >= 1
  {
    if width == 0 then 1 else 256 * Range(width - 1)
  }

  /** `n.to_bytes(width, "little")` */
  function Le(n: nat, width: nat): (r: bytes)
    ensures |r| == width
  {
    if width == 0 then [] else [n % 256] + Le(n / 256, width - 1)
  }

  /** `int.from_bytes(b, "little")` */
  function FromLe(b: bytes): nat {
    if b == [] then 0
    else
      var low: int := b[0];
      low + 256 * FromLe(b[1..])
  }

  lemma {:induction false} LeRoundTrip(n: nat, width: nat)
    requires n < Range(width)
    ensures FromLe(Le(n, width)) == n
  {
    if width > 0 {
      LeRoundTrip(n / 256, width - 1);
      assert Le(n, width)[1..] == Le(n / 256, width - 1);
    }
  }

  // --- the container -----------------------------------------------------------------

  const RIFF: bytes := [0x52, 0x49, 0x46, 0x46]
  const WAVE: bytes := [0x57, 0x41, 0x56, 0x45]
  const FMT: bytes := [0x66, 0x6D, 0x74, 0x20]
  const DATA: bytes := [0x64, 0x61, 0x74, 0x61]

  /** The header fields raise when a value does not fit its width. */
  function WavWrap(pcm: bytes, rate: nat := 8000, channels: nat := 1): Option<bytes> {
    var byteRate := rate * channels * 2;
    if 36 + |pcm| >= Range(4) || channels >= Range(2) || rate >= Range(4) || byteRate >= Range(4) || channels * 2 >= Range(2) then None
    else
      Some(RIFF + Le(36 + |pcm|, 4) + WAVE
           + FMT + Le(16, 4) + (Le(1, 2) + Le(channels, 2) + Le(rate, 4) + Le(byteRate, 4) + Le(channels * 2, 2) + Le(16, 2))
           + DATA + Le(|pcm|, 4) + pcm)
  }

  function Clamp(i: nat, n: nat): (r: nat)
    ensures r <= n && r <= i
  {
    if i < n then i else n
  }

  /** The body of the chunk at the head, as far as it is present. */
  function Body(s: bytes): bytes
    requires |s| >= 8
  {
    s[8..8 + Clamp(FromLe(s[4..8]), |s| - 8)]
  }

  /** What follows the chunk at the head and its pad byte. */
  function AfterChunk(s: bytes): (r: bytes)
    requires |s| >= 8
    ensures |r| < |s|
  {
    var size := FromLe(s[4..8]);
    s[Clamp(8 + size + size % 2, |s|)..]
  }

  /** The body of the first data chunk of a chunk sequence. */
  function FirstData(s: bytes): bytes
    decreases |s|
  {
    if |s| < 8 then [] else if s[..4] == DATA then Body(s) else FirstData(AfterChunk(s))
  }

  function Unwrapped(data: bytes): bytes {
    if !(RIFF <= data) || |data| < 12 then data else FirstData(data[12..])
  }

  /** `wav_unwrap`: it terminates on every input and returns the first data chunk. */
  method WavUnwrap(data: bytes) returns (pcm: bytes)
    ensures pcm == Unwrapped(data)
  {
    hide FirstData, FromLe;
    if !(RIFF <= data) || |data| < 12 { return data; }
    var pos := 12;
    while pos + 8 <= |data|
      invariant 12 <= pos
      invariant FirstData(data[Clamp(pos, |data|)..]) == FirstData(data[12..])
      decreases |data| - pos
    {
      FirstDataStep(data, pos);
      var cid := data[pos..pos + 4];
      var size := FromLe(data[pos + 4..pos + 8]);
      if cid == DATA {
        return data[pos + 8..pos + 8 + Clamp(size, |data| - (pos + 8))];
      }
      pos := pos + 8 + size + size % 2;
    }
    FirstDataShort(data[Clamp(pos, |data|)..]);
    return [];
  }

  lemma {:induction false} FirstDataShort(s: bytes)
    requires |s| < 8
    ensures FirstData(s) == []
  {
  }

  lemma {:induction false} FirstDataUnfolds(s: bytes)
    requires |s| >= 8
    ensures FirstData(s) == if s[..4] == DATA then Body(s) else FirstData(AfterChunk(s))
  {
    hide Body, AfterChunk;
  }

  lemma {:induction false} FirstDataStep(data: bytes, pos: nat)
    requires pos + 8 <= |data|
    ensures var size := FromLe(data[pos + 4..pos + 8]);
      FirstData(data[pos..]) ==
        if data[pos..pos + 4] == DATA then data[pos + 8..pos + 8 + Clamp(size, |data| - (pos + 8))]
        else FirstData(data[Clamp(pos + 8 + size + size % 2, |data|)..])
  {
    hide FromLe, FirstData;
    var s := data[pos..];
    FirstDataUnfolds(s);
    var size := FromLe(data[pos + 4..pos + 8]);
    assert s[4..8] == data[pos + 4..pos + 8];
    assert s[..4] == data[pos..pos + 4];
    if s[..4] == DATA {
      var n := Clamp(size, |s| - 8);
      assert s[8..8 + n] == data[pos + 8..pos + 8 + n];
    } else {
      var next := Clamp(8 + size + size % 2, |s|);
      assert s[next..] == data[pos + next..];
    }
  }

  // --- any list of chunks ------------------------------------------------------------

  datatype Chunk = Chunk(id: bytes, body: bytes)

  predicate Skippable(c: Chunk) { |c.id| == 4 && c.id != DATA && |c.body| < Range(4) }

  /** A chunk on the wire: an odd-sized body is followed by one pad byte. */
  function EncodeChunk(c: Chunk): bytes {
    c.id + Le(|c.body|, 4) + c.body + Zeros(|c.body| % 2)
  }

  function EncodeChunks(cs: seq<Chunk>): bytes {
    if cs == [] then [] else EncodeChunk(cs[0]) + EncodeChunks(cs[1..])
  }

  lemma {:induction false} SkipOne(c: Chunk, rest: bytes)
    requires Skippable(c)
    ensures FirstData(EncodeChunk(c) + rest) == FirstData(rest)
  {
    hide FromLe, Le, Range;
    var s := EncodeChunk(c) + rest;
    LeRoundTrip(|c.body|, 4);
    assert s[4..8] == Le(|c.body|, 4);
    assert s[..4] == c.id;
    var next := 8 + |c.body| + |c.body| % 2;
    assert |EncodeChunk(c)| == next;
    assert s[next..] == rest;
  }

  lemma {:induction false} SkipChunks(cs: seq<Chunk>, rest: bytes)
    requires forall i :: 0 <= i < |cs| ==> Skippable(cs[i])
    ensures FirstData(EncodeChunks(cs) + rest) == FirstData(rest)
  {
    hide FirstData, EncodeChunk, Skippable;
    if cs == [] {
      assert [] + rest == rest;
    } else {
      SkipOne(cs[0], EncodeChunks(cs[1..]) + rest);
      assert EncodeChunk(cs[0]) + EncodeChunks(cs[1..]) + rest == EncodeChunk(cs[0]) + (EncodeChunks(cs[1..]) + rest);
      SkipChunks(cs[1..], rest);
    }
  }

  lemma {:induction false} DataBody(declared: nat, body: bytes, after: bytes)
    requires declared < Range(4) && |body| <= declared && (|body| < declared ==> after == [])
    ensures FirstData(DATA + Le(declared, 4) + body + after) == body
  {
    hide FromLe, Le, Range;
    var s := DATA + Le(declared, 4) + body + after;
    LeRoundTrip(declared, 4);
    assert s[..4] == DATA && s[4..8] == Le(declared, 4);
    assert s[8..8 + |body|] == body;
  }

  lemma {:induction false} AfterHeader(size: bytes, form: bytes, a: bytes, b: bytes)
    requires |size| == 4 && |form| == 4
    ensures var data := RIFF + size + form + a + b; RIFF <= data && |data| >= 12 && data[12..] == a + b
  {
    var data := RIFF + size + form + a + b;
    assert data == (RIFF + size + form) + (a + b);
    assert data[..4] == RIFF;
  }

  /** Whatever chunks come first (LIST, fact, odd sizes padded) and whatever follows, the result is the
      body of the first data chunk; a body cut short gives what is there. */
  lemma {:induction false} UnwrapFindsFirstData(size: bytes, form: bytes, before: seq<Chunk>, declared: nat, body: bytes, after: bytes)
    requires |size| == 4 && |form| == 4 && forall i :: 0 <= i < |before| ==> Skippable(before[i])
    requires declared < Range(4) && |body| <= declared && (|body| < declared ==> after == [])
    ensures Unwrapped(RIFF + size + form + EncodeChunks(before) + (DATA + Le(declared, 4) + body + after)) == body
  {
    hide FirstData, EncodeChunks, Le, Skippable, Range;
    var chunk := DATA + Le(declared, 4) + body + after;
    AfterHeader(size, form, EncodeChunks(before), chunk);
    SkipChunks(before, chunk);
    DataBody(declared, body, after);
  }

  /** A file without a data chunk has no audio. */
  lemma {:induction false} UnwrapWithoutData(size: bytes, form: bytes, chunks: seq<Chunk>, tail: bytes)
    requires |size| == 4 && |form| == 4 && |tail| < 8 && forall i :: 0 <= i < |chunks| ==> Skippable(chunks[i])
    ensures Unwrapped(RIFF + size + form + EncodeChunks(chunks) + tail) == []
  {
    hide FirstData, EncodeChunks, Skippable;
    AfterHeader(size, form, EncodeChunks(chunks), tail);
    SkipChunks(chunks, tail);
    FirstDataShort(tail);
  }

  /** Wrapping then unwrapping gives the samples back, for every payload the 32-bit sizes can describe. */
  lemma {:induction false} UnwrapOfWrap(pcm: bytes, rate: nat, channels: nat)
    requires WavWrap(pcm, rate, channels).Some?
    ensures Unwrapped(WavWrap(pcm, rate, channels).value) == pcm
  {
    hide FirstData, Le, Range, Unwrapped;
    var fields := Le(1, 2) + Le(channels, 2) + Le(rate, 4) + Le(rate * channels * 2, 4) + Le(channels * 2, 2) + Le(16, 2);
    var fmt := Chunk(FMT, fields);
    SixteenFits();
    OneChunk(fmt);
    UnwrapFindsFirstData(Le(36 + |pcm|, 4), WAVE, [fmt], |pcm|, pcm, []);
    assert EncodeChunk(fmt) == FMT + Le(16, 4) + fields;
    assert WavWrap(pcm, rate, channels).value
        == RIFF + Le(36 + |pcm|, 4) + WAVE + EncodeChunk(fmt) + (DATA + Le(|pcm|, 4) + pcm + []);
  }

  lemma {:induction false} SixteenFits()
    ensures 16 < Range(4)
  {
    assert Range(2) == 256 * Range(1) && Range(4) == 256 * Range(3) && Range(3) == 256 * Range(2);
  }

  lemma {:induction false} OneChunk(c: Chunk)
    ensures EncodeChunks([c]) == EncodeChunk(c)
  {
    assert [c][1..] == [];
  }

  function FormatFields(rate: nat, channels: nat): bytes {
    Le(1, 2) + (Le(channels, 2) + (Le(rate, 4) + (Le(rate * channels * 2, 4) + (Le(channels * 2, 2) + Le(16, 2)))))
  }

  lemma {:induction false} FormatLayout(rate: nat, channels: nat)
    requires channels < Range(2) && rate < Range(4) && rate * channels * 2 < Range(4) && channels * 2 < Range(2)
    ensures var f := FormatFields(rate, channels);
      && |f| == 16
      && FromLe(f[0..2]) == 1 && FromLe(f[2..4]) == channels && FromLe(f[4..8]) == rate
      && FromLe(f[8..12]) == rate * channels * 2 && FromLe(f[12..14]) == channels * 2 && FromLe(f[14..16]) == 16
  {
    TwoBytes();
    hide Le, FromLe, Range;
    var n := rate * channels * 2;
    var a, b, c, d, e, g := Le(1, 2), Le(channels, 2), Le(rate, 4), Le(n, 4), Le(channels * 2, 2), Le(16, 2);
    LeRoundTrip(1, 2);
    LeRoundTrip(channels, 2);
    LeRoundTrip(rate, 4);
    LeRoundTrip(n, 4);
    LeRoundTrip(channels * 2, 2);
    LeRoundTrip(16, 2);
    SixFields(a, b, c, d, e, g);
  }

  lemma {:induction false} TwoBytes()
    ensures Range(2) == 65536
  {
    assert Range(1) == 256;
  }

  lemma {:induction false} SixFields(a: bytes, b: bytes, c: bytes, d: bytes, e: bytes, g: bytes)
    requires |a| == |b| == |e| == |g| == 2 && |c| == |d| == 4
    ensures var f := a + (b + (c + (d + (e + g))));
      && |f| == 16
      && f[0..2] == a && f[2..4] == b && f[4..8] == c && f[8..12] == d && f[12..14] == e && f[14..16] == g
  {
  }

  /** The layout any player relies on: the RIFF size counts everything after itself, the format chunk describes
      uncompressed 16-bit samples at this rate, and the data chunk declares and holds the payload. */
  lemma {:induction false} WrapLayout(pcm: bytes, rate: nat, channels: nat)
    requires WavWrap(pcm, rate, channels).Some?
    ensures var w := WavWrap(pcm, rate, channels).value;
      && |w| == 44 + |pcm|
      && w[0..4] == RIFF && FromLe(w[4..8]) == |w| - 8 && w[8..12] == WAVE
      && w[12..16] == FMT && FromLe(w[16..20]) == 16 && w[20..36] == FormatFields(rate, channels)
      && w[36..40] == DATA && FromLe(w[40..44]) == |pcm| && w[44..] == pcm
  {
    SixteenFits();
    LeRoundTrip(36 + |pcm|, 4);
    LeRoundTrip(16, 4);
    LeRoundTrip(|pcm|, 4);
    hide Le, FromLe, Range, FormatFields;
    var f := FormatFields(rate, channels);
    FormatIs(rate, channels);
    SevenParts(Le(36 + |pcm|, 4), Le(16, 4), f, Le(|pcm|, 4), pcm);
  }

  lemma {:induction false} FormatIs(rate: nat, channels: nat)
    ensures |FormatFields(rate, channels)| == 16
    ensures FormatFields(rate, channels)
         == Le(1, 2) + Le(channels, 2) + Le(rate, 4) + Le(rate * channels * 2, 4) + Le(channels * 2, 2) + Le(16, 2)
  {
    hide Le;
  }

  lemma {:induction false} SevenParts(size: bytes, fmtSize: bytes, f: bytes, dataSize: bytes, pcm: bytes)
    requires |size| == |fmtSize| == |dataSize| == 4 && |f| == 16
    ensures var w := RIFF + size + WAVE + FMT + fmtSize + f + DATA + dataSize + pcm;
      && |w| == 44 + |pcm|
      && w[0..4] == RIFF && w[4..8] == size && w[8..12] == WAVE && w[12..16] == FMT && w[16..20] == fmtSize
      && w[20..36] == f && w[36..40] == DATA && w[40..44] == dataSize && w[44..] == pcm
  {
  }

  lemma {:induction false} RangesAre()
    ensures Range(2) == 65536 && Range(4) == 0x1_0000_0000
  {
    assert Range(1) == 256 && Range(2) == 65536 && Range(3) == 0x100_0000;
  }

  /** Wrapping fails exactly when one of the header's fields does not fit: the sizes, the rate and the byte rate
      in 32 bits, the channels and the frame size in 16. */
  lemma {:induction false} WrapsExactlyWhen(pcm: bytes, rate: nat, channels: nat)
    ensures WavWrap(pcm, rate, channels).Some? <==>
      && |pcm| + 36 < 0x1_0000_0000 && rate < 0x1_0000_0000 && rate * channels * 2 < 0x1_0000_0000
      && channels < 65536 && channels * 2 < 65536
  {
    hide Range, Le;
    RangesAre();
  }

  /** The default call fails exactly for payloads of 4 GiB and more (less the 36 header bytes). */
  lemma {:induction false} WrapFits(pcm: bytes)
    ensures WavWrap(pcm).Some? <==> |pcm| < 0x1_0000_0000 - 36
  {
    assert Range(1) == 256 && Range(2) == 65536 && Range(3) == 0x100_0000 && Range(4) == 0x1_0000_0000;
  }
}
