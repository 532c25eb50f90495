/** The AudioSocket wire codec (owen-voice/app/audiosocket.py): one type byte, a big-endian 16-bit
    length, the payload. */
module AudioSocket {
  import opened Bytes

  const KIND_TERMINATE: byte := 0x00
  const KIND_UUID: byte := 0x01
  const KIND_AUDIO: byte := 0x10
  const KIND_ERROR: byte := 0xFF

  const HEADER_LEN: nat := 3
  const MAX_PAYLOAD: nat := 0xFFFF
  const AUDIO_FRAME_BYTES: nat := 320

  datatype Frame = Frame(kind: byte, payload: bytes) {
    predicate IsAudio() { kind == KIND_AUDIO }
    predicate IsTerminate() { kind == KIND_TERMINATE }
    predicate IsUuid() { kind == KIND_UUID }
    predicate IsError() { kind == KIND_ERROR }
    predicate IsDtmf() { kind == 0x02 || kind == 0x03 }
  }

  /** A frame whose length fits the 16-bit field. */
  type WireFrame = f: Frame | |f.payload| <= MAX_PAYLOAD witness Frame(0, [])

  datatype Result<T> = Ok(value: T) | PayloadTooLong(length: nat)

  /** `encode`: the kind is masked to a byte, an over-long payload is refused. */
  function Encode(kind: int, payload: bytes): Result<bytes> {
    if |payload| > MAX_PAYLOAD then PayloadTooLong(|payload|)
    else Ok([kind % 256, |payload| / 256, |payload| % 256] + payload)
  }

  function EncodeFrame(f: WireFrame): (r: bytes)
    ensures |r| == HEADER_LEN + |f.payload|
    ensures Encode(f.kind, f.payload) == Ok(r)
  {
    Encode(f.kind, f.payload).value
  }

  /** The layout every peer relies on: the kind, the length with its high byte first, the payload. */
  lemma {:induction false} FrameLayout(f: WireFrame)
    ensures var r := EncodeFrame(f);
      r[0] == f.kind && 256 * (r[1] as int) + r[2] as int == |f.payload| && r[HEADER_LEN..] == f.payload
  {
  }

  function EncodeAll(fs: seq<WireFrame>): bytes
  {
    if fs == [] then [] else EncodeFrame(fs[0]) + EncodeAll(fs[1..])
  }

  lemma {:induction false} EncodeAllAppend(a: seq<WireFrame>, b: seq<WireFrame>)
    ensures EncodeAll(a + b) == EncodeAll(a) + EncodeAll(b)
  {
    if a == [] {
      assert a + b == b;
    } else {
      hide EncodeFrame;
      assert (a + b)[1..] == a[1..] + b;
      EncodeAllAppend(a[1..], b);
    }
  }

  // --- reading -----------------------------------------------------------------------

  /** `int.from_bytes(.., "big")` of two bytes. */
  function BigEndian(hi: byte, lo: byte): (n: nat)
    ensures n <= MAX_PAYLOAD
  {
    var h: int := hi;
    256 * h + lo
  }

  /** The length of the frame at the head of `buf`, header included. */
  function HeadLength(buf: bytes): nat
    requires |buf| >= HEADER_LEN
  {
    HEADER_LEN + BigEndian(buf[1], buf[2])
  }

  predicate Complete(buf: bytes) { |buf| >= HEADER_LEN && |buf| >= HeadLength(buf) }

  lemma {:induction false} CompleteIsLong(buf: bytes)
    requires Complete(buf)
    ensures HEADER_LEN <= |buf| && HeadLength(buf) <= |buf|
  {
  }

  function Head(buf: bytes): WireFrame
    requires Complete(buf)
  {
    Frame(buf[0], buf[HEADER_LEN..HeadLength(buf)])
  }

  datatype Parsed = Parsed(frames: seq<WireFrame>, rest: bytes)

  /** The frames of a byte stream and the bytes of the unfinished one. */
  function Parse(stream: bytes): Parsed
    decreases |stream|
  {
    if !Complete(stream) then Parsed([], stream)
    else
      var tail := Parse(stream[HeadLength(stream)..]);
      Parsed([Head(stream)] + tail.frames, tail.rest)
  }

  lemma {:induction false} HeadEncodes(buf: bytes)
    requires Complete(buf)
    ensures EncodeFrame(Head(buf)) == buf[..HeadLength(buf)]
  {
    var f := Head(buf);
    assert |f.payload| / 256 == buf[1] && |f.payload| % 256 == buf[2];
  }

  lemma {:induction false} EncodedHead(f: WireFrame, rest: bytes)
    ensures var s := EncodeFrame(f) + rest;
      Complete(s) && Head(s) == f && HeadLength(s) == |EncodeFrame(f)| && s[HeadLength(s)..] == rest
  {
    var s := EncodeFrame(f) + rest;
    assert BigEndian(s[1], s[2]) == |f.payload|;
  }

  lemma {:induction false} ParseUnfolds(stream: bytes)
    ensures if !Complete(stream) then Parse(stream) == Parsed([], stream)
            else var later := Parse(stream[HeadLength(stream)..]); Parse(stream) == Parsed([Head(stream)] + later.frames, later.rest)
  {
    hide Complete, HeadLength, Head;
  }

  lemma {:induction false} EncodeAllCons(f: WireFrame, fs: seq<WireFrame>)
    ensures EncodeAll([f] + fs) == EncodeFrame(f) + EncodeAll(fs)
  {
    hide EncodeFrame;
    assert ([f] + fs)[1..] == fs;
  }

  lemma {:induction false} EncodeNothing()
    ensures EncodeAll([]) == []
  {
  }

  /** Nothing is lost: the frames, encoded again, and the unfinished bytes are the stream. */
  lemma {:induction false} ParseKeepsEveryByte(stream: bytes)
    ensures var p := Parse(stream);
      EncodeAll(p.frames) + p.rest == stream && !Complete(p.rest)
    decreases |stream|
  {
    hide Parse, Complete, HeadLength, Head, EncodeFrame, EncodeAll;
    ParseUnfolds(stream);
    if Complete(stream) {
      CompleteIsLong(stream);
      var end := HeadLength(stream);
      var later := Parse(stream[end..]);
      HeadEncodes(stream);
      ParseKeepsEveryByte(stream[end..]);
      EncodeAllCons(Head(stream), later.frames);
      Associate(stream[..end], EncodeAll(later.frames), later.rest);
      Rejoin(stream, end);
    } else {
      EncodeNothing();
      Whole(stream);
    }
  }

  lemma {:induction false} Rejoin(s: bytes, k: nat)
    requires k <= |s|
    ensures s[..k] + s[k..] == s
  {
  }

  /** There is only one way to read a stream: any frames and unfinished bytes that make it up are
      the ones `Parse` finds. */
  lemma {:induction false} ParseIsUnique(fs: seq<WireFrame>, rest: bytes)
    requires !Complete(rest)
    ensures Parse(EncodeAll(fs) + rest) == Parsed(fs, rest)
  {
    if fs == [] {
      assert EncodeAll(fs) + rest == rest;
    } else {
      var later := EncodeAll(fs[1..]) + rest;
      assert EncodeAll(fs) + rest == EncodeFrame(fs[0]) + later;
      EncodedHead(fs[0], later);
      ParseIsUnique(fs[1..], rest);
    }
  }

  /** Reading may stop anywhere and resume with the bytes left over. */
  lemma {:induction false} ParseResumes(a: bytes, b: bytes)
    ensures var p := Parse(a); var q := Parse(p.rest + b);
      Parse(a + b) == Parsed(p.frames + q.frames, q.rest)
  {
    hide Parse, Complete, EncodeAll;
    var p := Parse(a);
    var q := Parse(p.rest + b);
    ParseKeepsEveryByte(a);
    ParseKeepsEveryByte(p.rest + b);
    EncodeAllAppend(p.frames, q.frames);
    assert a + b == EncodeAll(p.frames) + (p.rest + b);
    assert a + b == EncodeAll(p.frames + q.frames) + q.rest;
    ParseIsUnique(p.frames + q.frames, q.rest);
  }

  class FrameParser {
    var buf: bytes

    constructor ()
      ensures buf == []
    {
      buf := [];
    }

    /** Appends bytes and takes out every frame that is now complete. */
    method Feed(data: bytes) returns (frames: seq<WireFrame>)
      modifies this
      ensures Parse(old(buf) + data) == Parsed(frames, buf)
    {
      hide Parse, Complete, BigEndian;
      buf := buf + data;
      ghost var all := buf;
      frames := [];
      assert [] + Parse(buf).frames == Parse(buf).frames;
      while true
        invariant Parse(all) == Parsed(frames + Parse(buf).frames, Parse(buf).rest)
        decreases |buf|
      {
        ParseStep(buf);
        if |buf| < HEADER_LEN {
          assert frames + [] == frames;
          return;
        }
        var end := HEADER_LEN + BigEndian(buf[1], buf[2]);
        if |buf| < end {
          assert frames + [] == frames;
          return;
        }
        var kind := buf[0];
        var payload := buf[HEADER_LEN..end];
        var later := buf[end..];
        assert frames + ([Frame(kind, payload)] + Parse(later).frames)
            == frames + [Frame(kind, payload)] + Parse(later).frames;
        buf := later;
        var frame: WireFrame := Frame(kind, payload);
        frames := frames + [frame];
      }
    }
  }

  lemma {:induction false} ParseStep(buf: bytes)
    ensures |buf| < HEADER_LEN ==> Parse(buf) == Parsed([], buf)
    ensures |buf| >= HEADER_LEN ==> var end := HEADER_LEN + BigEndian(buf[1], buf[2]);
      if |buf| < end then Parse(buf) == Parsed([], buf)
      else Parse(buf) == Parsed([Frame(buf[0], buf[HEADER_LEN..end])] + Parse(buf[end..]).frames, Parse(buf[end..]).rest)
  {
  }

  /** Whatever the segmentation, the frames and the unfinished bytes are those of the stream. */
  method ParseChunks(chunks: seq<bytes>) returns (frames: seq<WireFrame>, buffered: bytes)
    ensures Parse(Flatten(chunks)) == Parsed(frames, buffered)
  {
    hide Parse, Flatten;
    var parser := new FrameParser();
    frames := [];
    assert chunks[..0] == [];
    ParseStep([]);
    FlattenNothing<byte>();
    for i := 0 to |chunks|
      invariant Parse(Flatten(chunks[..i])) == Parsed(frames, parser.buf)
      invariant fresh(parser)
    {
      FlattenTake(chunks, i);
      ParseResumes(Flatten(chunks[..i]), chunks[i]);
      var more := parser.Feed(chunks[i]);
      frames := frames + more;
    }
    assert chunks[..|chunks|] == chunks;
    buffered := parser.buf;
  }

  /** The two directions together: encoding frames and cutting the bytes anywhere gives the frames
      back with nothing left over. */
  lemma {:induction false} DecodeEncoded(fs: seq<WireFrame>, chunks: seq<bytes>)
    requires Flatten(chunks) == EncodeAll(fs)
    ensures Parse(Flatten(chunks)) == Parsed(fs, [])
  {
    ParseIsUnique(fs, []);
    assert EncodeAll(fs) + [] == EncodeAll(fs);
  }

  /** `encode` refuses exactly the payloads that no reader could have produced, and reads back as
      the masked kind otherwise. */
  lemma {:induction false} EncodeThenParse(kind: int, payload: bytes)
    ensures Encode(kind, payload).PayloadTooLong? <==> |payload| > MAX_PAYLOAD
    ensures Encode(kind, payload).Ok? ==> Parse(Encode(kind, payload).value) == Parsed([Frame(kind % 256, payload)], [])
  {
    if |payload| <= MAX_PAYLOAD {
      var f := Frame(kind % 256, payload);
      assert Encode(kind, payload).value == EncodeFrame(f) == EncodeAll([f]);
      DecodeEncoded([f], [EncodeAll([f])]);
      assert Flatten([EncodeAll([f])]) == EncodeAll([f]);
    }
  }
}
