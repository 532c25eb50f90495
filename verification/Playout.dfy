/** The outbound audio queue (owen-voice/app/pipeline.py, class Playout) and the frame splitter it uses
    (owen-voice/app/dsp.py, chunk_frames). A tick is one pass of the pump's 20 ms loop. */
module Playout {
  import opened Bytes
  import opened AudioSocket

  const PRIME_FRAMES: nat := 20

  // --- chunk_frames ------------------------------------------------------------------

  /** Frames of `size` bytes, the last one filled up with silence. */
  function ChunkFrames(pcm: bytes, size: nat): seq<bytes>
    requires size > 0
  {
    if pcm == [] then []
    else if |pcm| < size then [pcm + Zeros(size - |pcm|)]
    else [pcm[..size]] + ChunkFrames(pcm[size..], size)
  }

  predicate AllOfSize(frames: seq<bytes>, size: nat) { forall i :: 0 <= i < |frames| ==> |frames[i]| == size }

  /** Nothing is lost or reordered: the frames are the input followed by less than one frame of
      silence, and every frame is full. */
  lemma {:induction false} ChunkFramesIsPaddedInput(pcm: bytes, size: nat)
    requires size > 0
    ensures AllOfSize(ChunkFrames(pcm, size), size)
    ensures exists pad: nat :: pad < size && Flatten(ChunkFrames(pcm, size)) == pcm + Zeros(pad)
    decreases |pcm|
  {
    if pcm == [] {
      assert Flatten(ChunkFrames(pcm, size)) == pcm + Zeros(0);
    } else if |pcm| < size {
      FlattenOne(pcm + Zeros(size - |pcm|));
    } else {
      ChunkFramesIsPaddedInput(pcm[size..], size);
      var rest := ChunkFrames(pcm[size..], size);
      assert ChunkFrames(pcm, size) == [pcm[..size]] + rest;
      var pad: nat :| pad < size && Flatten(rest) == pcm[size..] + Zeros(pad);
      hide ChunkFrames;
      assert ([pcm[..size]] + rest)[1..] == rest;
      assert Flatten([pcm[..size]] + rest) == pcm[..size] + (pcm[size..] + Zeros(pad));
      assert pcm[..size] + pcm[size..] == pcm;
    }
  }

  function Clamp(i: nat, n: nat): nat { if i < n then i else n }

  /** The loop of `chunk_frames`. */
  method SplitFrames(pcm: bytes, size: nat) returns (out: seq<bytes>)
    requires size > 0
    ensures out == ChunkFrames(pcm, size)
  {
    hide ChunkFrames;
    out := [];
    var i := 0;
    assert pcm[0..] == pcm && [] + ChunkFrames(pcm, size) == ChunkFrames(pcm, size);
    while i < |pcm|
      invariant 0 <= i
      invariant out + ChunkFrames(pcm[Clamp(i, |pcm|)..], size) == ChunkFrames(pcm, size)
      decreases |pcm| - i
    {
      var f := pcm[i..Clamp(i + size, |pcm|)];
      NextChunk(pcm, i, size);
      if |f| < size {
        f := f + Zeros(size - |f|);
      }
      ghost var rest := ChunkFrames(pcm[Clamp(i + size, |pcm|)..], size);
      assert out + ([f] + rest) == (out + [f]) + rest;
      out := out + [f];
      i := i + size;
    }
    NoChunk(size);
    assert pcm[|pcm|..] == [] && out + [] == out;
  }

  lemma {:induction false} NoChunk(size: nat)
    requires size > 0
    ensures ChunkFrames([], size) == []
  {
  }

  lemma {:induction false} NextChunk(pcm: bytes, i: nat, size: nat)
    requires size > 0 && i < |pcm|
    ensures var end := Clamp(i + size, |pcm|);
      ChunkFrames(pcm[i..], size) ==
        [if end - i < size then pcm[i..end] + Zeros(size - (end - i)) else pcm[i..end]] + ChunkFrames(pcm[end..], size)
  {
    var end := Clamp(i + size, |pcm|);
    if i + size <= |pcm| {
      assert pcm[i..][..size] == pcm[i..end] && pcm[i..][size..] == pcm[end..];
    } else {
      assert pcm[i..] == pcm[i..end] && pcm[end..] == [];
    }
  }

  // --- the queue ---------------------------------------------------------------------

  datatype Op = Enqueue(pcm: bytes) | MarkComplete | BeginUtterance | Clear | Tick

  datatype State = State(
    q: seq<bytes>, playing: bool, complete: bool, written: seq<bytes>, dropped: nat, underruns: nat)

  const SILENT := State([], false, false, [], 0, 0)

  /** Whether a tick finds playback running after its first decision. */
  function PlayingNow(s: State): bool {
    if !s.playing then |s.q| >= PRIME_FRAMES || (s.complete && s.q != []) else s.q != []
  }

  function Step(s: State, op: Op): State {
    match op
    case Enqueue(pcm) => s.(q := s.q + ChunkFrames(pcm, AUDIO_FRAME_BYTES))
    case MarkComplete => s.(complete := true)
    case BeginUtterance => s.(complete := false)
    case Clear => s.(q := [], playing := false, complete := false, dropped := s.dropped + |s.q|)
    case Tick =>
      var playing := PlayingNow(s);
      var t := s.(playing := playing, underruns := s.underruns + if s.playing && s.q == [] && !s.complete then 1 else 0);
      if playing && s.q != [] then t.(q := s.q[1..], written := s.written + [s.q[0]]) else t
  }

  function StateAt(ops: seq<Op>, n: nat): State
    requires n <= |ops|
  {
    if n == 0 then SILENT else Step(StateAt(ops, n - 1), ops[n - 1])
  }

  /** Every frame ever queued, in order. */
  function Enqueued(ops: seq<Op>, n: nat): seq<bytes>
    requires n <= |ops|
  {
    if n == 0 then []
    else Enqueued(ops, n - 1) + if ops[n - 1].Enqueue? then ChunkFrames(ops[n - 1].pcm, AUDIO_FRAME_BYTES) else []
  }

  /** How many of them have left the queue, by being written or dropped. */
  function Gone(ops: seq<Op>, n: nat): nat
    requires n <= |ops|
  {
    |StateAt(ops, n).written| + StateAt(ops, n).dropped
  }

  lemma {:induction false} Next(ops: seq<Op>, n: nat)
    requires n < |ops|
    ensures StateAt(ops, n + 1) == Step(StateAt(ops, n), ops[n])
    ensures Enqueued(ops, n + 1)
         == Enqueued(ops, n) + if ops[n].Enqueue? then ChunkFrames(ops[n].pcm, AUDIO_FRAME_BYTES) else []
  {
  }

  lemma {:induction false} QueueStep(s: State, op: Op, all: seq<bytes>, gone: nat)
    requires gone == |s.written| + s.dropped && |all| == gone + |s.q| && s.q == all[gone..]
    ensures var t := Step(s, op); var more := if op.Enqueue? then ChunkFrames(op.pcm, AUDIO_FRAME_BYTES) else [];
      |t.written| + t.dropped + |t.q| == |all + more| && t.q == (all + more)[|t.written| + t.dropped..]
  {
    hide ChunkFrames, PlayingNow;
    if op.Enqueue? {
      var more := ChunkFrames(op.pcm, AUDIO_FRAME_BYTES);
      assert (all + more)[gone..] == all[gone..] + more;
    } else {
      assert all + [] == all;
      assert gone < |all| ==> all[gone..][1..] == all[gone + 1..];
    }
  }

  /** Conservation: what was queued is what left plus what waits, and what waits is the newest part. */
  lemma {:induction false} NothingLost(ops: seq<Op>, n: nat)
    requires n <= |ops|
    ensures |Enqueued(ops, n)| == |StateAt(ops, n).written| + StateAt(ops, n).dropped + |StateAt(ops, n).q|
    ensures StateAt(ops, n).q == Enqueued(ops, n)[Gone(ops, n)..]
  {
    if n > 0 {
      NothingLost(ops, n - 1);
      Next(ops, n - 1);
      hide ChunkFrames, StateAt, Enqueued, Step;
      QueueStep(StateAt(ops, n - 1), ops[n - 1], Enqueued(ops, n - 1), Gone(ops, n - 1));
    }
  }

  /** What tick `i` puts on the wire, as an index into everything ever queued. */
  predicate Writes(ops: seq<Op>, i: nat, index: nat)
    requires i < |ops|
  {
    && ops[i].Tick? && |StateAt(ops, i + 1).written| == |StateAt(ops, i).written| + 1
    && index == Gone(ops, i)
  }

  lemma {:induction false} WrittenFrame(ops: seq<Op>, i: nat, index: nat)
    requires i < |ops| && Writes(ops, i, index)
    ensures index < |Enqueued(ops, i)| && Gone(ops, i + 1) == index + 1
    ensures StateAt(ops, i + 1).written == StateAt(ops, i).written + [Enqueued(ops, i)[index]]
  {
    NothingLost(ops, i);
    Next(ops, i);
    hide ChunkFrames, StateAt, Enqueued, PlayingNow;
  }

  lemma {:induction false} GoneGrows(ops: seq<Op>, i: nat, j: nat)
    requires i <= j <= |ops|
    ensures Gone(ops, i) <= Gone(ops, j)
    decreases j
  {
    if i < j {
      GoneGrows(ops, i, j - 1);
      Next(ops, j - 1);
      hide ChunkFrames, StateAt, Enqueued, PlayingNow;
    }
  }

  /** Frames are written in the order they were queued, each at most once. */
  lemma {:induction false} WrittenInOrder(ops: seq<Op>, i: nat, j: nat, a: nat, b: nat)
    requires i < j < |ops| && Writes(ops, i, a) && Writes(ops, j, b)
    ensures a < b
  {
    hide ChunkFrames, StateAt, Enqueued, PlayingNow;
    WrittenFrame(ops, i, a);
    GoneGrows(ops, i + 1, j);
  }

  /** Barge-in: nothing queued before a clear is written after it. */
  lemma {:induction false} ClearIsFinal(ops: seq<Op>, c: nat, i: nat, index: nat)
    requires c < i < |ops| && ops[c] == Clear && Writes(ops, i, index)
    ensures index >= |Enqueued(ops, c)|
  {
    NothingLost(ops, c);
    GoneGrows(ops, c + 1, i);
    Next(ops, c);
    hide ChunkFrames, StateAt, Enqueued, PlayingNow;
  }

  /** Playback starts, or starts again after running dry or a clear, only with a full jitter buffer or
      a finished utterance. */
  lemma {:induction false} StartsPrimed(ops: seq<Op>, i: nat, index: nat)
    requires i < |ops| && Writes(ops, i, index) && !StateAt(ops, i).playing
    ensures var s := StateAt(ops, i);
      s.q != [] && (|s.q| >= PRIME_FRAMES || s.complete) && s.written + [s.q[0]] == StateAt(ops, i + 1).written
  {
    Next(ops, i);
    hide ChunkFrames, StateAt, Enqueued;
  }

  /** A tick puts a frame on the wire exactly when one is queued and playback is running, or the jitter buffer
      is full, or the utterance is complete. */
  lemma {:induction false} WritesExactlyWhen(ops: seq<Op>, i: nat)
    requires i < |ops| && ops[i].Tick?
    ensures var s := StateAt(ops, i);
      Writes(ops, i, Gone(ops, i)) <==> s.q != [] && (s.playing || |s.q| >= PRIME_FRAMES || s.complete)
  {
    Next(ops, i);
    hide ChunkFrames, StateAt, Enqueued;
  }

  /** Once started, playback runs until the queue is found empty or is cleared. */
  lemma {:induction false} PlaysOnExactlyWhen(ops: seq<Op>, i: nat)
    requires i < |ops|
    ensures var s := StateAt(ops, i);
      StateAt(ops, i + 1).playing <==>
        (s.playing && !ops[i].Clear? && !(ops[i].Tick? && s.q == []))
        || (!s.playing && ops[i].Tick? && s.q != [] && (|s.q| >= PRIME_FRAMES || s.complete))
  {
    Next(ops, i);
    hide ChunkFrames, StateAt, Enqueued;
  }

  predicate Completes(ops: seq<Op>, j: nat, n: nat)
    requires j < n <= |ops|
  {
    ops[j] == MarkComplete && forall k :: j < k < n ==> ops[k] != BeginUtterance && ops[k] != Clear
  }

  /** An utterance counts as complete exactly since it was marked so, until the next one begins or the queue
      is cleared. */
  lemma {:induction false} CompleteExactlySince(ops: seq<Op>, n: nat)
    requires n <= |ops|
    ensures StateAt(ops, n).complete <==> exists j :: 0 <= j < n && Completes(ops, j, n)
  {
    hide ChunkFrames, PlayingNow;
    if n > 0 {
      var m := n - 1;
      CompleteExactlySince(ops, m);
      Next(ops, m);
      hide StateAt, Enqueued;
      if StateAt(ops, n).complete {
        if ops[m] == MarkComplete {
          assert Completes(ops, m, n);
        } else {
          var j :| 0 <= j < m && Completes(ops, j, m);
          assert Completes(ops, j, n);
        }
      }
      if j :| 0 <= j < n && Completes(ops, j, n) {
        assert j < m ==> Completes(ops, j, m);
      }
    }
  }

  // --- what the far end gets ---------------------------------------------------------

  lemma {:induction false} FullStep(s: State, op: Op, all: seq<bytes>)
    requires AllOfSize(all, AUDIO_FRAME_BYTES) && AllOfSize(s.written, AUDIO_FRAME_BYTES) && AllOfSize(s.q, AUDIO_FRAME_BYTES)
    ensures AllOfSize(all + if op.Enqueue? then ChunkFrames(op.pcm, AUDIO_FRAME_BYTES) else [], AUDIO_FRAME_BYTES)
    ensures AllOfSize(Step(s, op).written, AUDIO_FRAME_BYTES)
  {
    hide ChunkFrames, PlayingNow;
    if op.Enqueue? {
      ChunkFramesIsPaddedInput(op.pcm, AUDIO_FRAME_BYTES);
    }
  }

  lemma {:induction false} FullFrames(ops: seq<Op>, n: nat)
    requires n <= |ops|
    ensures AllOfSize(Enqueued(ops, n), AUDIO_FRAME_BYTES)
    ensures AllOfSize(StateAt(ops, n).written, AUDIO_FRAME_BYTES)
  {
    if n > 0 {
      FullFrames(ops, n - 1);
      Next(ops, n - 1);
      NothingLost(ops, n - 1);
      hide ChunkFrames, StateAt, Enqueued, Step;
      FullStep(StateAt(ops, n - 1), ops[n - 1], Enqueued(ops, n - 1));
    }
  }

  function OnTheWire(frames: seq<bytes>): (r: seq<WireFrame>)
    requires AllOfSize(frames, AUDIO_FRAME_BYTES)
    ensures |r| == |frames|
  {
    seq(|frames|, i requires 0 <= i < |frames| => Frame(KIND_AUDIO, frames[i]))
  }

  /** A peer that parses the bytes written gets exactly the written frames, each a full 20 ms. */
  lemma {:induction false} WireCarriesTheFrames(ops: seq<Op>, n: nat)
    requires n <= |ops|
    ensures AllOfSize(StateAt(ops, n).written, AUDIO_FRAME_BYTES)
    ensures Parse(EncodeAll(OnTheWire(StateAt(ops, n).written))) == Parsed(OnTheWire(StateAt(ops, n).written), [])
  {
    FullFrames(ops, n);
    hide StateAt, Enqueued, Parse, EncodeAll;
    var frames := OnTheWire(StateAt(ops, n).written);
    FlattenOne(EncodeAll(frames));
    DecodeEncoded(frames, [EncodeAll(frames)]);
  }

  // --- a finished utterance plays out ------------------------------------------------

  function Ticks(s: State, k: nat): State {
    if k == 0 then s else Step(Ticks(s, k - 1), Tick)
  }

  lemma {:induction false} OneTick(s: State)
    requires s.complete
    ensures var t := Step(s, Tick);
      && t.complete && t.underruns == s.underruns && t.dropped == s.dropped
      && t.q == (if s.q == [] then [] else s.q[1..])
      && t.written == (if s.q == [] then s.written else s.written + [s.q[0]])
  {
  }

  /** Once the utterance is complete, each tick plays the next frame until all have been played, and no
      underrun is counted however long the silence after it lasts. */
  lemma {:induction false} CompleteUtterancePlaysOut(s: State, k: nat)
    requires s.complete
    ensures var t := Ticks(s, k); var n := if k < |s.q| then k else |s.q|;
      && t.complete && t.q == s.q[n..] && t.written == s.written + s.q[..n]
      && t.underruns == s.underruns && t.dropped == s.dropped
  {
    hide Step;
    if k == 0 {
      assert s.written + [] == s.written;
    } else {
      CompleteUtterancePlaysOut(s, k - 1);
      OneTick(Ticks(s, k - 1));
      if k - 1 < |s.q| {
        OneMore(s.q, k - 1);
        Associate(s.written, s.q[..k - 1], [s.q[k - 1]]);
      }
    }
  }

  lemma {:induction false} OneMore(q: seq<bytes>, k: nat)
    requires k < |q|
    ensures q[k..] != [] && q[k..][0] == q[k] && q[k..][1..] == q[k + 1..] && q[..k + 1] == q[..k] + [q[k]]
  {
  }

  /** An underrun is counted exactly when playback was running, nothing was queued and more was expected. */
  lemma {:induction false} UnderrunsAreMidUtterance(ops: seq<Op>, n: nat)
    requires n < |ops|
    ensures var s, t := StateAt(ops, n), StateAt(ops, n + 1);
      && t.underruns == s.underruns + (if ops[n].Tick? && s.playing && s.q == [] && !s.complete then 1 else 0)
      && (t.underruns > s.underruns ==> !t.playing && t.written == s.written)
  {
    Next(ops, n);
    hide ChunkFrames, StateAt, Enqueued;
  }

  /** What an operation does to playback. */
  datatype Change = Started | PlayedOut | Interrupted | RanDry | Unchanged

  function ChangeAt(ops: seq<Op>, i: nat): Change
    requires i < |ops|
  {
    var s, t := StateAt(ops, i), StateAt(ops, i + 1);
    if !s.playing && t.playing then Started
    else if s.playing && !t.playing then if ops[i].Clear? then Interrupted else if s.complete then PlayedOut else RanDry
    else Unchanged
  }

  function Count(ops: seq<Op>, n: nat, c: Change): nat
    requires n <= |ops|
  {
    if n == 0 then 0 else Count(ops, n - 1, c) + if ChangeAt(ops, n - 1) == c then 1 else 0
  }

  lemma {:induction false} ChangeIs(s: State, op: Op)
    ensures s.playing && !Step(s, op).playing <==> (op.Clear? && s.playing) || (op.Tick? && s.playing && s.q == [])
  {
    hide ChunkFrames;
  }

  /** Over every run: each start of playback stops at most once, by playing its utterance out, by a barge-in
      or by running dry; it runs on if it has not stopped; and the counter counts exactly the last kind. */
  lemma {:induction false} EveryStartStopsOnce(ops: seq<Op>, n: nat)
    requires n <= |ops|
    ensures StateAt(ops, n).underruns == Count(ops, n, RanDry)
    ensures Count(ops, n, Started) == Count(ops, n, PlayedOut) + Count(ops, n, Interrupted) + Count(ops, n, RanDry)
                                      + if StateAt(ops, n).playing then 1 else 0
  {
    hide StateAt, Step, Count;
    if n == 0 {
      CountNothing(ops);
    } else {
      EveryStartStopsOnce(ops, n - 1);
      Next(ops, n - 1);
      ChangeIs(StateAt(ops, n - 1), ops[n - 1]);
      UnderrunsAreMidUtterance(ops, n - 1);
      CountNext(ops, n - 1, RanDry);
      CountNext(ops, n - 1, Started);
      CountNext(ops, n - 1, PlayedOut);
      CountNext(ops, n - 1, Interrupted);
    }
  }

  lemma {:induction false} CountNothing(ops: seq<Op>)
    ensures StateAt(ops, 0) == SILENT && forall c :: Count(ops, 0, c) == 0
  {
  }

  lemma {:induction false} CountNext(ops: seq<Op>, n: nat, c: Change)
    requires n < |ops|
    ensures Count(ops, n + 1, c) == Count(ops, n, c) + if ChangeAt(ops, n) == c then 1 else 0
  {
    hide ChangeAt;
  }

  // --- the clock ---------------------------------------------------------------------

  const FRAME_PERIOD: real := 0.02

  function MaxReal(a: real, b: real): real { if a < b then b else a }

  /** When pass `k` of the pump begins, if pass `i` works for `work[i]` seconds: it sleeps until a
      deadline that advances by exactly one period a pass. */
  function BeginsAt(t0: real, work: seq<real>, k: nat): real
    requires k <= |work|
  {
    if k == 0 then t0 else MaxReal(BeginsAt(t0, work, k - 1) + work[k - 1], t0 + FRAME_PERIOD * k as real)
  }

  function Backlog(work: seq<real>, k: nat): real
    requires k <= |work|
  {
    if k == 0 then 0.0 else MaxReal(Backlog(work, k - 1) + work[k - 1] - FRAME_PERIOD, 0.0)
  }

  /** No drift: pass k begins at t0 + 0.02 k plus the work not yet caught up with, which is nothing as
      long as no pass works longer than a period. */
  lemma {:induction false} CadenceDoesNotDrift(t0: real, work: seq<real>, k: nat)
    requires k <= |work|
    ensures BeginsAt(t0, work, k) == t0 + FRAME_PERIOD * k as real + Backlog(work, k)
    ensures (forall i :: 0 <= i < k ==> work[i] <= FRAME_PERIOD) ==> Backlog(work, k) == 0.0
  {
    if k > 0 {
      CadenceDoesNotDrift(t0, work, k - 1);
    }
  }

  // --- the source's class ------------------------------------------------------------

  class PlayoutQueue {
    var q: seq<bytes>
    var playing: bool
    var complete: bool
    var written: seq<bytes>
    var underruns: nat
    ghost var dropped: nat

    constructor ()
      ensures View() == SILENT
    {
      q, playing, complete, written, underruns, dropped := [], false, false, [], 0, 0;
    }

    ghost function View(): State
      reads this
    {
      State(q, playing, complete, written, dropped, underruns)
    }

    method EnqueueAudio(pcm: bytes) returns (count: nat)
      modifies this
      ensures View() == Step(old(View()), Enqueue(pcm)) && count == |q| - |old(q)|
    {
      var frames := SplitFrames(pcm, AUDIO_FRAME_BYTES);
      q := q + frames;
      count := |frames|;
    }

    method SetComplete()
      modifies this
      ensures View() == Step(old(View()), MarkComplete)
    {
      complete := true;
    }

    method NewUtterance()
      modifies this
      ensures View() == Step(old(View()), BeginUtterance)
    {
      complete := false;
    }

    method DropAll() returns (count: nat)
      modifies this
      ensures View() == Step(old(View()), Clear) && count == |old(q)|
    {
      count := |q|;
      dropped := dropped + count;
      q := [];
      playing := false;
      complete := false;
    }

    /** One pass of `_pump`, without the sleep. */
    method Pump()
      modifies this
      ensures View() == Step(old(View()), Tick)
    {
      if !playing {
        if |q| >= PRIME_FRAMES || (complete && q != []) {
          playing := true;
        }
      } else if q == [] {
        if !complete {
          underruns := underruns + 1;
        }
        playing := false;
      }
      if playing && q != [] {
        var frame := q[0];
        q := q[1..];
        written := written + [frame];
      }
    }
  }
}
