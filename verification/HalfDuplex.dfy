module HalfDuplex {
  /** One call end to end: received frames and the playout queue together (owen-voice/app/pipeline.py,
      `Conversation.on_frame` with `Playout`). Whether we are speaking is no longer given: it is whether the
      queue holds anything when the frame arrives. */

  import opened Bytes
  import Local = LocalTurns
  import Out = Playout
  import Vad = TurnDetection

  /** A frame arrives (its `speaking` mark is ignored), or something happens to playout: speech is queued,
      an utterance begins or is complete, a pass of the pump. */
  datatype Act = Hear(frame: Local.Heard) | Play(op: Out.Op)

  datatype Call = Call(talk: Local.State, out: Out.State)

  function Arriving(c: Call, f: Local.Heard): Local.Heard { f.(speaking := c.out.q != []) }

  function OpsOf(cfg: Local.Settings, c: Call, a: Act): seq<Out.Op> {
    match a
    case Hear(f) => if Local.BargesIn(cfg, c.talk, Arriving(c, f)) then [Out.Clear] else []
    case Play(op) => [op]
  }

  function Step(cfg: Local.Settings, c: Call, a: Act): Call {
    match a
    case Hear(f) =>
      var h := Arriving(c, f);
      Call(Local.OnFrame(cfg, c.talk, h).0, if Local.BargesIn(cfg, c.talk, h) then Out.Step(c.out, Out.Clear) else c.out)
    case Play(op) => c.(out := Out.Step(c.out, op))
  }

  function CallAt(cfg: Local.Settings, acts: seq<Act>, n: nat): Call
    requires n <= |acts|
  {
    if n == 0 then Call(Local.QUIET, Out.SILENT) else Step(cfg, CallAt(cfg, acts, n - 1), acts[n - 1])
  }

  /** The frames received, each marked with whether playout had anything queued. */
  function Frames(cfg: Local.Settings, acts: seq<Act>, n: nat): seq<Local.Heard>
    requires n <= |acts|
  {
    if n == 0 then []
    else
      Frames(cfg, acts, n - 1)
      + if acts[n - 1].Hear? then [Arriving(CallAt(cfg, acts, n - 1), acts[n - 1].frame)] else []
  }

  /** Everything that happened to playout, the clears of barge-ins included. */
  function Ops(cfg: Local.Settings, acts: seq<Act>, n: nat): seq<Out.Op>
    requires n <= |acts|
  {
    if n == 0 then [] else Ops(cfg, acts, n - 1) + OpsOf(cfg, CallAt(cfg, acts, n - 1), acts[n - 1])
  }

  lemma {:induction false} Next(cfg: Local.Settings, acts: seq<Act>, n: nat)
    requires n < |acts|
    ensures CallAt(cfg, acts, n + 1) == Step(cfg, CallAt(cfg, acts, n), acts[n])
    ensures Frames(cfg, acts, n + 1)
         == Frames(cfg, acts, n) + if acts[n].Hear? then [Arriving(CallAt(cfg, acts, n), acts[n].frame)] else []
    ensures Ops(cfg, acts, n + 1) == Ops(cfg, acts, n) + OpsOf(cfg, CallAt(cfg, acts, n), acts[n])
  {
  }

  lemma {:induction false} LocalPrefix(cfg: Local.Settings, fs: seq<Local.Heard>, more: seq<Local.Heard>, k: nat)
    requires k <= |fs|
    ensures Local.StateAt(cfg, fs + more, k) == Local.StateAt(cfg, fs, k)
  {
    hide Local.OnFrame;
    if k > 0 {
      LocalPrefix(cfg, fs, more, k - 1);
    }
  }

  lemma {:induction false} OutPrefix(ops: seq<Out.Op>, more: seq<Out.Op>, k: nat)
    requires k <= |ops|
    ensures Out.StateAt(ops + more, k) == Out.StateAt(ops, k) && Out.Enqueued(ops + more, k) == Out.Enqueued(ops, k)
  {
    hide Out.Step, Out.ChunkFrames;
    if k > 0 {
      OutPrefix(ops, more, k - 1);
    }
  }

  lemma {:induction false} LocalStep(cfg: Local.Settings, fs: seq<Local.Heard>, f: Local.Heard)
    ensures Local.StateAt(cfg, fs + [f], |fs| + 1) == Local.OnFrame(cfg, Local.StateAt(cfg, fs, |fs|), f).0
    ensures Local.HandedAt(cfg, fs + [f], |fs|) == Local.OnFrame(cfg, Local.StateAt(cfg, fs, |fs|), f).1
  {
    hide Local.OnFrame;
    LocalPrefix(cfg, fs, [f], |fs|);
  }

  lemma {:induction false} OutStep(ops: seq<Out.Op>, op: Out.Op)
    ensures Out.StateAt(ops + [op], |ops| + 1) == Out.Step(Out.StateAt(ops, |ops|), op)
  {
    hide Out.Step;
    OutPrefix(ops, [op], |ops|);
  }

  lemma {:induction false} Start(cfg: Local.Settings, acts: seq<Act>)
    ensures CallAt(cfg, acts, 0) == Call(Local.QUIET, Out.SILENT) && Frames(cfg, acts, 0) == [] && Ops(cfg, acts, 0) == []
    ensures Local.StateAt(cfg, [], 0) == Local.QUIET && Out.StateAt([], 0) == Out.SILENT
  {
  }

  /** The half that listens runs as its own model says, on the frames so marked. */
  lemma {:induction false} TalkRunsOnFrames(cfg: Local.Settings, acts: seq<Act>, n: nat)
    requires n <= |acts|
    ensures CallAt(cfg, acts, n).talk == Local.StateAt(cfg, Frames(cfg, acts, n), |Frames(cfg, acts, n)|)
  {
    hide *;
    if n == 0 {
      Start(cfg, acts);
    } else {
      var m := n - 1;
      TalkRunsOnFrames(cfg, acts, m);
      Next(cfg, acts, m);
      var c, fs := CallAt(cfg, acts, m), Frames(cfg, acts, m);
      StepTalks(cfg, c, acts[m]);
      Whole(fs);
      if acts[m].Hear? {
        LocalStep(cfg, fs, Arriving(c, acts[m].frame));
      }
    }
  }

  lemma {:induction false} StepTalks(cfg: Local.Settings, c: Call, a: Act)
    ensures Step(cfg, c, a).talk == if a.Hear? then Local.OnFrame(cfg, c.talk, Arriving(c, a.frame)).0 else c.talk
  {
  }

  /** So does playout, on everything that happened to it, the clears of barge-ins included. */
  lemma {:induction false} PlayoutRunsOnOps(cfg: Local.Settings, acts: seq<Act>, n: nat)
    requires n <= |acts|
    ensures CallAt(cfg, acts, n).out == Out.StateAt(Ops(cfg, acts, n), |Ops(cfg, acts, n)|)
  {
    hide *;
    if n == 0 {
      Start(cfg, acts);
    } else {
      var m := n - 1;
      PlayoutRunsOnOps(cfg, acts, m);
      Next(cfg, acts, m);
      var c, ops := CallAt(cfg, acts, m), Ops(cfg, acts, m);
      StepPlays(cfg, c, acts[m]);
      Whole(ops);
      if OpsOf(cfg, c, acts[m]) != [] {
        OutStep(ops, OpsOf(cfg, c, acts[m])[0]);
      }
    }
  }

  lemma {:induction false} StepPlays(cfg: Local.Settings, c: Call, a: Act)
    ensures var ops := OpsOf(cfg, c, a); var r := Step(cfg, c, a);
      (ops == [] && r.out == c.out) || (ops == [ops[0]] && r.out == Out.Step(c.out, ops[0]))
  {
    hide Local.BargesIn, Local.OnFrame, Out.Step;
  }

  lemma {:induction false} FrameIs(cfg: Local.Settings, acts: seq<Act>, j: nat, n: nat)
    requires j < n <= |acts| && acts[j].Hear?
    ensures |Frames(cfg, acts, j)| < |Frames(cfg, acts, n)|
    ensures Frames(cfg, acts, n)[|Frames(cfg, acts, j)|] == Arriving(CallAt(cfg, acts, j), acts[j].frame)
    decreases n
  {
    hide *;
    Next(cfg, acts, n - 1);
    if j < n - 1 {
      FrameIs(cfg, acts, j, n - 1);
    }
  }

  /** The utterance handed to a turn when act `n` is a received frame. */
  function HandedAt(cfg: Local.Settings, acts: seq<Act>, n: nat): Local.Option<bytes>
    requires n < |acts| && acts[n].Hear?
  {
    Local.OnFrame(cfg, CallAt(cfg, acts, n).talk, Arriving(CallAt(cfg, acts, n), acts[n].frame)).1
  }

  /** Every frame received since frame number `lo` found the playout queue empty. */
  predicate SilentSince(cfg: Local.Settings, acts: seq<Act>, n: nat, lo: nat)
    requires n <= |acts|
  {
    forall j :: 0 <= j < n && acts[j].Hear? && |Frames(cfg, acts, j)| >= lo ==> CallAt(cfg, acts, j).out.q == []
  }

  /** An utterance is all the audio received from frame number `lo` on. */
  predicate HeardFrom(frames: seq<Local.Heard>, lo: nat, audio: bytes) {
    lo < |frames| && audio == Flatten(Local.Pcms(frames[lo..]))
  }

  lemma {:induction false} UnmarkedIsSilent(cfg: Local.Settings, acts: seq<Act>, n: nat, lo: nat)
    requires n <= |acts|
    requires forall k :: lo <= k < |Frames(cfg, acts, n)| ==> !Frames(cfg, acts, n)[k].speaking
    ensures SilentSince(cfg, acts, n, lo)
  {
    hide CallAt, Frames;
    forall j | 0 <= j < n && acts[j].Hear? && |Frames(cfg, acts, j)| >= lo
      ensures CallAt(cfg, acts, j).out.q == []
    {
      FrameIs(cfg, acts, j, n);
      assert !Frames(cfg, acts, n)[|Frames(cfg, acts, j)|].speaking;
    }
  }

  lemma {:induction false} LocalHandsOver(cfg: Local.Settings, fs: seq<Local.Heard>, f: Local.Heard) returns (lo: nat)
    requires cfg.halfDuplex && Local.HandedAt(cfg, fs + [f], |fs|).Some?
    ensures HeardFrom(fs + [f], lo, Local.HandedAt(cfg, fs + [f], |fs|).value)
    ensures forall k :: lo <= k < |fs + [f]| ==> !(fs + [f])[k].speaking
  {
    hide Local.HandedAt, Local.Pcms, Vad.SpanStart, Vad.QuietEnough, Flatten;
    var all := fs + [f];
    Local.HalfDuplexHearsOnlyTheCaller(cfg, all, |fs|);
    lo := Vad.SpanStart(cfg.vad, Local.Trace(all), |fs|);
    assert all[lo..|fs| + 1] == all[lo..];
  }

  /** With half duplex on, whatever is queued, played, completed or cleared meanwhile: an utterance handed to
      a turn is all the audio received from some frame on, and every one of these frames arrived while the
      playout queue was empty. */
  lemma {:induction false} TurnsHearOnlyTheCaller(cfg: Local.Settings, acts: seq<Act>, n: nat) returns (lo: nat)
    requires cfg.halfDuplex && n < |acts| && acts[n].Hear? && HandedAt(cfg, acts, n).Some?
    ensures HeardFrom(Frames(cfg, acts, n + 1), lo, HandedAt(cfg, acts, n).value)
    ensures SilentSince(cfg, acts, n + 1, lo)
  {
    hide Step, CallAt, Frames, Ops, OpsOf, Arriving, Local.StateAt, Local.OnFrame, Local.HandedAt, HeardFrom, SilentSince;
    var fs, f := Frames(cfg, acts, n), Arriving(CallAt(cfg, acts, n), acts[n].frame);
    Next(cfg, acts, n);
    TalkRunsOnFrames(cfg, acts, n);
    LocalStep(cfg, fs, f);
    lo := LocalHandsOver(cfg, fs, f);
    UnmarkedIsSilent(cfg, acts, n + 1, lo);
  }

  lemma {:induction false} OpsGrow(cfg: Local.Settings, acts: seq<Act>, j: nat, n: nat)
    requires j <= n <= |acts|
    ensures Ops(cfg, acts, j) <= Ops(cfg, acts, n)
    decreases n
  {
    hide *;
    if j < n {
      Next(cfg, acts, n - 1);
      OpsGrow(cfg, acts, j, n - 1);
    }
  }

  /** Once the caller barges in no turn is live. */
  lemma {:induction false} BargeInStopsTheTurn(cfg: Local.Settings, acts: seq<Act>, n: nat)
    requires n < |acts| && acts[n].Hear?
    requires Local.BargesIn(cfg, CallAt(cfg, acts, n).talk, Arriving(CallAt(cfg, acts, n), acts[n].frame))
    ensures CallAt(cfg, acts, n + 1).talk.live == {}
  {
    hide *;
    Next(cfg, acts, n);
    var c := CallAt(cfg, acts, n);
    StepTalks(cfg, c, acts[n]);
    TalkRunsOnFrames(cfg, acts, n);
    Local.AtMostOneLiveTurn(cfg, Frames(cfg, acts, n), |Frames(cfg, acts, n)|);
    Local.BargeInCancels(cfg, c.talk, Arriving(c, acts[n].frame));
  }

  lemma {:induction false} BargeInClears(cfg: Local.Settings, c: Call, f: Local.Heard)
    requires Local.BargesIn(cfg, c.talk, Arriving(c, f))
    ensures OpsOf(cfg, c, Hear(f)) == [Out.Clear]
  {
  }

  /** And nothing queued before is ever written, in half duplex or not. */
  lemma {:induction false} BargeInSilencesUs(cfg: Local.Settings, acts: seq<Act>, n: nat, i: nat, index: nat)
    requires n < |acts| && acts[n].Hear?
    requires Local.BargesIn(cfg, CallAt(cfg, acts, n).talk, Arriving(CallAt(cfg, acts, n), acts[n].frame))
    requires var ops := Ops(cfg, acts, |acts|); |Ops(cfg, acts, n)| < i < |ops| && Out.Writes(ops, i, index)
    ensures index >= |Out.Enqueued(Ops(cfg, acts, n), |Ops(cfg, acts, n)|)|
  {
    hide *;
    var ops, before := Ops(cfg, acts, |acts|), Ops(cfg, acts, n);
    Next(cfg, acts, n);
    BargeInClears(cfg, CallAt(cfg, acts, n), acts[n].frame);
    OpsGrow(cfg, acts, n + 1, |acts|);
    assert ops[|before|] == Out.Clear;
    Out.ClearIsFinal(ops, |before|, i, index);
    Split(before, ops);
    OutPrefix(before, ops[|before|..], |before|);
  }

  lemma {:induction false} Split(a: seq<Out.Op>, b: seq<Out.Op>)
    requires |a| < |b| && a + [b[|a|]] <= b
    ensures b == a + b[|a|..]
  {
  }
}
