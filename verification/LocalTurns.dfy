/** Turns driven by the local detector (owen-voice/app/pipeline.py, `Conversation.on_frame` when no
    streaming recogniser is connected): half duplex, the barge-in guard window, and the turn task. */
module LocalTurns {
  import opened Bytes
  import Vad = TurnDetection

  datatype Option<T> = None | Some(value: T)

  datatype Settings = Settings(vad: Vad.Params, halfDuplex: bool, guardMs: int)

  /** One received frame with what the rest of the call makes true at that moment: whether playout
      has frames queued, the clock, whether the finished utterance passes the energy floor, and the
      turn tasks that ended since the previous frame. */
  datatype Heard = Heard(pcm: bytes, loud: bool, speaking: bool, now: int, aboveFloor: bool, finished: set<nat>)

  /** `live` holds the turn tasks that are neither cancelled nor finished. */
  datatype State = State(vad: Vad.Vad, speakingSince: Option<int>, turn: Option<nat>, live: set<nat>, begun: nat)

  const QUIET := State(Vad.IDLE, None, None, {}, 0)

  function Current(s: State): set<nat> { if s.turn.Some? then {s.turn.value} else {} }

  /** The state after one frame and the utterance it hands to a new turn, if any. */
  function OnFrame(cfg: Settings, was: State, f: Heard): (State, Option<bytes>) {
    var s := was.(live := was.live - f.finished);
    if f.speaking && cfg.halfDuplex then (s.(vad := Vad.Step(cfg.vad, s.vad, Vad.Reset).0), None)
    else
      var since := if !f.speaking then None else if s.speakingSince.None? then Some(f.now) else s.speakingSince;
      var (vad, event) := Vad.Step(cfg.vad, s.vad, Vad.Push(f.pcm, f.loud));
      var t := s.(vad := vad, speakingSince := since);
      match event
      case Nothing => (t, None)
      case Started =>
        if since.Some? && f.now - since.value < cfg.guardMs then
          (t.(vad := Vad.Step(cfg.vad, vad, Vad.Reset).0), None)
        else (t.(live := t.live - Current(t)), None)
      case Ended(audio) =>
        if !f.aboveFloor then (t, None)
        else (t.(turn := Some(t.begun), live := t.live + {t.begun}, begun := t.begun + 1), Some(audio))
  }

  /** The frame makes the detector believe a start that the guard window does not suppress: the source then
      clears the playout queue and cancels the turn. */
  predicate BargesIn(cfg: Settings, s: State, f: Heard) {
    && !(f.speaking && cfg.halfDuplex)
    && Vad.Step(cfg.vad, s.vad, Vad.Push(f.pcm, f.loud)).1.Started?
    && !(f.speaking && f.now - (if s.speakingSince.None? then f.now else s.speakingSince.value) < cfg.guardMs)
  }

  /** A barge-in leaves no live turn; nothing else cancels one. */
  lemma {:induction false} BargeInCancels(cfg: Settings, s: State, f: Heard)
    requires OneTurn(s)
    ensures BargesIn(cfg, s, f) ==> OnFrame(cfg, s, f).0.live == {}
    ensures !BargesIn(cfg, s, f) ==> s.live - f.finished <= OnFrame(cfg, s, f).0.live
  {
    hide Flatten;
  }

  function StateAt(cfg: Settings, fs: seq<Heard>, n: nat): State
    requires n <= |fs|
  {
    if n == 0 then QUIET else OnFrame(cfg, StateAt(cfg, fs, n - 1), fs[n - 1]).0
  }

  function HandedAt(cfg: Settings, fs: seq<Heard>, i: nat): Option<bytes>
    requires i < |fs|
  {
    OnFrame(cfg, StateAt(cfg, fs, i), fs[i]).1
  }

  // --- at most one live turn ---------------------------------------------------------

  /** The only turn that can be live is the one the conversation holds, and none is live while the
      caller is speaking: a start cancelled it. */
  predicate OneTurn(s: State) {
    s.live <= Current(s) && (s.vad.inSpeech ==> s.live == {})
  }

  lemma {:induction false} OneTurnStep(cfg: Settings, s: State, f: Heard)
    requires OneTurn(s)
    ensures OneTurn(OnFrame(cfg, s, f).0)
  {
    hide Flatten;
  }

  /** Whatever the frames, the clock and the playout queue do: never two live turns. */
  lemma {:induction false} AtMostOneLiveTurn(cfg: Settings, fs: seq<Heard>, n: nat)
    requires n <= |fs|
    ensures OneTurn(StateAt(cfg, fs, n)) && |StateAt(cfg, fs, n).live| <= 1
  {
    hide OnFrame;
    if n > 0 {
      AtMostOneLiveTurn(cfg, fs, n - 1);
      OneTurnStep(cfg, StateAt(cfg, fs, n - 1), fs[n - 1]);
    }
    Small(StateAt(cfg, fs, n));
  }

  lemma {:induction false} Small(s: State)
    requires OneTurn(s)
    ensures |s.live| <= 1
  {
    if s.turn.Some? && s.live != {} {
      assert s.live == {s.turn.value};
    }
  }

  // --- which utterances become turns -------------------------------------------------

  predicate BegunAfter(s: State, f: Heard, t: State) {
    t.turn == Some(s.begun) && t.begun == s.begun + 1 && t.live == s.live - f.finished + {s.begun}
  }

  /** A frame hands an utterance to a new turn exactly when the detector hears it, the utterance ends with it,
      and it is loud enough not to be line noise; the turn is then the held one, and live. */
  lemma {:induction false} HandedExactlyWhen(cfg: Settings, s: State, f: Heard)
    ensures var (t, handed) := OnFrame(cfg, s, f); var heard := Vad.Step(cfg.vad, s.vad, Vad.Push(f.pcm, f.loud)).1;
      && (handed.Some? <==> !(f.speaking && cfg.halfDuplex) && heard.Ended? && f.aboveFloor)
      && (handed.Some? ==> heard == Vad.Ended(handed.value) && BegunAfter(s, f, t))
      && (handed.None? ==> t.turn == s.turn && t.begun == s.begun && t.live <= s.live - f.finished)
  {
    hide Vad.Step;
  }

  /** Over whole runs with half duplex on: utterances of the detector's own trace become turns exactly when
      they pass the floor. */
  lemma {:induction false} HalfDuplexHandsExactlyWhen(cfg: Settings, fs: seq<Heard>, i: nat)
    requires cfg.halfDuplex && i < |fs|
    ensures HandedAt(cfg, fs, i).Some? <==> Vad.OutputAt(cfg.vad, Trace(fs), i).Ended? && fs[i].aboveFloor
  {
    HalfDuplexTrace(cfg, fs, i);
    HandedExactlyWhen(cfg, StateAt(cfg, fs, i), fs[i]);
    assert Trace(fs)[i] == if fs[i].speaking then Vad.Reset else Vad.Push(fs[i].pcm, fs[i].loud);
    hide Vad.StateAt, StateAt;
    ResetSaysNothing(cfg.vad, Vad.StateAt(cfg.vad, Trace(fs), i));
    hide Vad.Step, OnFrame;
  }

  lemma {:induction false} ResetSaysNothing(p: Vad.Params, v: Vad.Vad)
    ensures Vad.Step(p, v, Vad.Reset).1 == Vad.Nothing
  {
  }

  /** The first frame of the stretch of our own speech that is still going on before frame `n`. */
  function SpeechFrom(fs: seq<Heard>, n: nat): (k: nat)
    requires n <= |fs|
    ensures k <= n
  {
    if n == 0 || !fs[n - 1].speaking then n else SpeechFrom(fs, n - 1)
  }

  /** The guard window is measured from our first frame: outside half duplex the clock started when the
      stretch of speech that is still going on began, and is off while we are silent. */
  lemma {:induction false} GuardCountsFromOurFirstFrame(cfg: Settings, fs: seq<Heard>, n: nat)
    requires !cfg.halfDuplex && n <= |fs|
    ensures StateAt(cfg, fs, n).speakingSince == if SpeechFrom(fs, n) == n then None else Some(fs[SpeechFrom(fs, n)].now)
  {
    if n > 0 {
      GuardCountsFromOurFirstFrame(cfg, fs, n - 1);
      SinceStep(cfg, StateAt(cfg, fs, n - 1), fs[n - 1]);
      hide OnFrame;
    }
  }

  lemma {:induction false} SinceStep(cfg: Settings, s: State, f: Heard)
    requires !cfg.halfDuplex
    ensures OnFrame(cfg, s, f).0.speakingSince
         == if !f.speaking then None else if s.speakingSince.None? then Some(f.now) else s.speakingSince
  {
    hide Vad.Step;
  }

  /** What a believed start does: within the guard window it only resets the detector, after it it ends the
      held turn. */
  lemma {:induction false} StartWithinTheGuardIsIgnored(cfg: Settings, s: State, f: Heard)
    requires !(f.speaking && cfg.halfDuplex) && Vad.Step(cfg.vad, s.vad, Vad.Push(f.pcm, f.loud)).1.Started?
    ensures var t := OnFrame(cfg, s, f).0;
      var guarded := f.speaking && f.now - (if s.speakingSince.None? then f.now else s.speakingSince.value) < cfg.guardMs;
      && t.turn == s.turn && t.begun == s.begun
      && (guarded ==> !t.vad.inSpeech && t.live == s.live - f.finished)
      && (!guarded ==> t.vad.inSpeech && t.live == s.live - f.finished - (if s.turn.Some? then {s.turn.value} else {}))
  {
    hide Flatten;
  }

  // --- half duplex -------------------------------------------------------------------

  /** What the detector sees: a reset for a frame that arrives while we speak, else the frame. */
  function Trace(fs: seq<Heard>): (es: seq<Vad.Event>)
    ensures |es| == |fs|
  {
    seq(|fs|, i requires 0 <= i < |fs| => if fs[i].speaking then Vad.Reset else Vad.Push(fs[i].pcm, fs[i].loud))
  }

  /** In half duplex the guard window never matters, so the detector runs on exactly that trace. */
  lemma {:induction false} HalfDuplexTrace(cfg: Settings, fs: seq<Heard>, n: nat)
    requires cfg.halfDuplex && n <= |fs|
    ensures StateAt(cfg, fs, n).vad == Vad.StateAt(cfg.vad, Trace(fs), n)
  {
    if n > 0 {
      hide Flatten;
      HalfDuplexTrace(cfg, fs, n - 1);
      assert Trace(fs)[n - 1] == if fs[n - 1].speaking then Vad.Reset else Vad.Push(fs[n - 1].pcm, fs[n - 1].loud);
    }
  }

  function Pcms(fs: seq<Heard>): seq<bytes> {
    seq(|fs|, i requires 0 <= i < |fs| => fs[i].pcm)
  }

  /** With half duplex on, an utterance handed to a turn is a gap-free run of received frames, none of
      which arrived while playout had anything queued. */
  lemma {:induction false} HalfDuplexHearsOnlyTheCaller(cfg: Settings, fs: seq<Heard>, i: nat)
    requires cfg.halfDuplex && i < |fs| && HandedAt(cfg, fs, i).Some?
    ensures var lo := Vad.SpanStart(cfg.vad, Trace(fs), i);
      && 0 <= lo <= i
      && HandedAt(cfg, fs, i).value == Flatten(Pcms(fs[lo..i + 1]))
      && (forall k :: lo <= k <= i ==> !fs[k].speaking)
      && Vad.QuietEnough(cfg.vad, Trace(fs), i + 1)
  {
    HandedIsEnded(cfg, fs, i);
    var es := Trace(fs);
    Vad.UtteranceIsExactSlice(cfg.vad, es, i);
    var lo := Vad.SpanStart(cfg.vad, es, i);
    hide *;
    SameFrames(fs, lo, i + 1);
  }

  lemma {:induction false} SameFrames(fs: seq<Heard>, lo: nat, n: nat)
    requires lo <= n <= |fs| && Vad.AllPushed(Trace(fs)[lo..n])
    ensures forall k :: lo <= k < n ==> !fs[k].speaking
    ensures Vad.Pcms(Trace(fs)[lo..n]) == Pcms(fs[lo..n])
  {
    forall k | lo <= k < n
      ensures !fs[k].speaking
    {
      assert Trace(fs)[lo..n][k - lo] == Trace(fs)[k];
    }
  }

  lemma {:induction false} HandedIsEnded(cfg: Settings, fs: seq<Heard>, i: nat)
    requires cfg.halfDuplex && i < |fs| && HandedAt(cfg, fs, i).Some?
    ensures Vad.OutputAt(cfg.vad, Trace(fs), i) == Vad.Ended(HandedAt(cfg, fs, i).value)
  {
    hide Flatten;
    HalfDuplexTrace(cfg, fs, i);
    assert Trace(fs)[i] == if fs[i].speaking then Vad.Reset else Vad.Push(fs[i].pcm, fs[i].loud);
  }

  /** Two turns never share a frame, and frames from before our own speech never reach a turn that
      starts after it. */
  lemma {:induction false} HalfDuplexTurnsAreDisjoint(cfg: Settings, fs: seq<Heard>, i: nat, j: nat)
    requires cfg.halfDuplex && i < j < |fs| && HandedAt(cfg, fs, j).Some?
    requires fs[i].speaking || HandedAt(cfg, fs, i).Some?
    ensures i < Vad.SpanStart(cfg.vad, Trace(fs), j)
  {
    HandedIsEnded(cfg, fs, j);
    assert Trace(fs)[i] == if fs[i].speaking then Vad.Reset else Vad.Push(fs[i].pcm, fs[i].loud);
    if !fs[i].speaking {
      HandedIsEnded(cfg, fs, i);
    }
    Vad.UtterancesAreDisjoint(cfg.vad, Trace(fs), i, j);
  }

  // --- the source's class ------------------------------------------------------------

  class Conversation {
    const cfg: Settings
    const vad: Vad.TurnDetector
    var speakingSince: Option<int>
    var turn: Option<nat>
    var live: set<nat>
    var begun: nat

    constructor (cfg: Settings)
      ensures this.cfg == cfg && vad.params == cfg.vad && fresh(vad) && View() == QUIET
    {
      this.cfg := cfg;
      vad := new Vad.TurnDetector(cfg.vad);
      speakingSince, turn, live, begun := None, None, {}, 0;
    }

    ghost function View(): State
      reads this, vad
    {
      State(vad.View(), speakingSince, turn, live, begun)
    }

    /** `on_frame`. The turn tasks that ended meanwhile are no longer live. */
    method Receive(f: Heard) returns (handed: Option<bytes>)
      requires vad.params == cfg.vad
      modifies this, vad
      ensures (View(), handed) == OnFrame(cfg, old(View()), f)
    {
      hide Vad.Step, Flatten;
      handed := None;
      live := live - f.finished;
      if f.speaking && cfg.halfDuplex {
        vad.ResetDetector();
        return;
      }
      if f.speaking && speakingSince.None? {
        speakingSince := Some(f.now);
      } else if !f.speaking {
        speakingSince := None;
      }
      var event := vad.PushFrame(f.pcm, f.loud);
      if event.Started? {
        if speakingSince.Some? && f.now - speakingSince.value < cfg.guardMs {
          vad.ResetDetector();
          return;
        }
        if turn.Some? {
          live := live - {turn.value};
        } else {
          assert live - {} == live;
        }
      } else if event.Ended? {
        if !f.aboveFloor { return; }
        turn := Some(begun);
        live := live + {begun};
        begun := begun + 1;
        handed := Some(event.audio);
      }
    }
  }
}
