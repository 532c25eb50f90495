/** The energy turn detector (owen-voice/app/dsp.py, class TurnDetector). Whether a frame is loud is
    given with the frame, so the threshold may change from frame to frame. */
module TurnDetection {
  import opened Bytes

  datatype Params = Params(startFrames: int, endFrames: int, minSpeechFrames: int, prerollFrames: int)

  datatype Event = Push(pcm: bytes, loud: bool) | Reset

  datatype Output = Nothing | Started | Ended(audio: bytes)

  datatype Vad = Vad(
    inSpeech: bool, loudRun: nat, quietRun: nat, speechFrames: nat, maxQuietRun: nat,
    buf: seq<bytes>, preroll: seq<bytes>)

  const IDLE := Vad(false, 0, 0, 0, 0, [], [])

  function DropFirst<T>(s: seq<T>, limit: int): seq<T> {
    if |s| > limit && s != [] then s[1..] else s
  }

  function Step(p: Params, v: Vad, e: Event): (Vad, Output) {
    match e
    case Reset => (IDLE.(maxQuietRun := v.maxQuietRun), Nothing)
    case Push(pcm, loud) =>
      if !v.inSpeech then
        var preroll := DropFirst(v.preroll + [pcm], p.prerollFrames);
        var loudRun := if loud then v.loudRun + 1 else 0;
        if loudRun >= p.startFrames then
          (v.(inSpeech := true, loudRun := loudRun, quietRun := 0, buf := preroll, speechFrames := loudRun, preroll := []), Started)
        else (v.(preroll := preroll, loudRun := loudRun), Nothing)
      else if loud then
        (v.(buf := v.buf + [pcm], speechFrames := v.speechFrames + 1, quietRun := 0), Nothing)
      else
        var quietRun := v.quietRun + 1;
        var maxQuietRun := if quietRun > v.maxQuietRun then quietRun else v.maxQuietRun;
        if quietRun < p.endFrames then
          (v.(buf := v.buf + [pcm], quietRun := quietRun, maxQuietRun := maxQuietRun), Nothing)
        else
          (IDLE.(preroll := v.preroll, maxQuietRun := maxQuietRun),
           if v.speechFrames < p.minSpeechFrames then Nothing else Ended(Flatten(v.buf + [pcm])))
  }

  // --- a whole run -------------------------------------------------------------------

  /** The detector after the first `n` events. */
  function StateAt(p: Params, es: seq<Event>, n: nat): Vad
    requires n <= |es|
  {
    if n == 0 then IDLE else Step(p, StateAt(p, es, n - 1), es[n - 1]).0
  }

  function OutputAt(p: Params, es: seq<Event>, i: nat): Output
    requires i < |es|
  {
    Step(p, StateAt(p, es, i), es[i]).1
  }

  /** Event `i` throws away what was collected: a reset, or the end of a turn. */
  predicate Boundary(p: Params, es: seq<Event>, i: nat)
    requires i < |es|
  {
    es[i].Reset? || (StateAt(p, es, i).inSpeech && !StateAt(p, es, i + 1).inSpeech)
  }

  /** The first event after the last boundary. */
  function FloorAt(p: Params, es: seq<Event>, n: nat): (f: nat)
    requires n <= |es|
    ensures f <= n
  {
    if n == 0 then 0 else if Boundary(p, es, n - 1) then n else FloorAt(p, es, n - 1)
  }

  /** The frame at which the turn now in progress was believed. */
  function OnsetAt(p: Params, es: seq<Event>, n: nat): nat
    requires n <= |es|
  {
    if n == 0 then 0
    else if !StateAt(p, es, n - 1).inSpeech then n - 1
    else OnsetAt(p, es, n - 1)
  }

  function Pcms(es: seq<Event>): (r: seq<bytes>)
    ensures |r| == |es|
  {
    seq(|es|, i requires 0 <= i < |es| => if es[i].Push? then es[i].pcm else [])
  }

  function LoudFrames(es: seq<Event>): nat {
    if es == [] then 0 else LoudFrames(es[..|es| - 1]) + if es[|es| - 1].Push? && es[|es| - 1].loud then 1 else 0
  }

  predicate AllPushed(es: seq<Event>) { forall i :: 0 <= i < |es| ==> es[i].Push? }
  predicate AllLoud(es: seq<Event>) { forall i :: 0 <= i < |es| ==> es[i].Push? && es[i].loud }
  predicate AllQuiet(es: seq<Event>) { forall i :: 0 <= i < |es| ==> es[i].Push? && !es[i].loud }

  function Max(a: int, b: int): int { if a < b then b else a }
  function Min(a: int, b: int): int { if a < b then a else b }

  // --- the invariant -----------------------------------------------------------------

  /** While idle: the pre-roll is the most recent frames since the boundary, as many as the limit
      allows, and the loud run is the run of loud frames just heard. */
  predicate IdleInv(p: Params, es: seq<Event>, n: nat, v: Vad, floor: nat)
    requires floor <= n <= |es|
  {
    && v.buf == [] && v.speechFrames == 0 && v.quietRun == 0
    && |v.preroll| == Min(n - floor, Max(p.prerollFrames, 0))
    && v.preroll == Pcms(es[n - |v.preroll|..n])
    && v.loudRun <= n - floor && AllLoud(es[n - v.loudRun..n])
    && (v.loudRun < n - floor ==> es[n - 1 - v.loudRun].Push? && !es[n - 1 - v.loudRun].loud)
    && (n == floor || v.loudRun < p.startFrames)
  }

  /** While in speech: the buffer is a slice that ends at the newest frame and starts with the
      pre-roll of the onset; the quiet run is the run of quiet frames since the onset. */
  predicate SpeechInv(p: Params, es: seq<Event>, n: nat, v: Vad, floor: nat, onset: nat)
    requires floor <= n <= |es|
  {
    && v.preroll == []
    && floor <= onset < n
    && |v.buf| == Min(onset + 1 - floor, Max(p.prerollFrames, 0)) + (n - 1 - onset)
    && v.buf == Pcms(es[n - |v.buf|..n])
    && v.loudRun <= onset + 1 - floor && AllLoud(es[onset + 1 - v.loudRun..onset + 1])
    && (p.startFrames >= 1 ==> v.loudRun == p.startFrames) && v.loudRun <= Max(p.startFrames, 1)
    && es[onset].Push? && (p.startFrames < 1 ==> v.loudRun == if es[onset].loud then 1 else 0)
    && v.speechFrames == v.loudRun + LoudFrames(es[onset + 1..n])
    && v.quietRun <= n - 1 - onset && AllQuiet(es[n - v.quietRun..n])
    && (v.quietRun < n - 1 - onset ==> es[n - 1 - v.quietRun].Push? && es[n - 1 - v.quietRun].loud)
    && (v.quietRun == 0 || v.quietRun < p.endFrames)
  }

  /** The quiet run that ends a turn: `endFrames`, and never less than the one frame just heard. */
  function EndRun(p: Params): nat { Max(p.endFrames, 1) }

  /** The frames before position `k` end in a quiet run long enough to end the turn. */
  predicate QuietEnough(p: Params, es: seq<Event>, k: nat)
    requires k <= |es|
  {
    EndRun(p) <= k && AllQuiet(es[k - EndRun(p)..k])
  }

  /** No run of quiet frames since the onset was long enough to end the turn. */
  predicate NotOverBefore(p: Params, es: seq<Event>, onset: nat, n: nat)
    requires n <= |es|
  {
    forall k :: onset + EndRun(p) < k <= n ==> !QuietEnough(p, es, k)
  }

  predicate Inv(p: Params, es: seq<Event>, n: nat)
    requires n <= |es|
  {
    var v, floor := StateAt(p, es, n), FloorAt(p, es, n);
    && AllPushed(es[floor..n])
    && if v.inSpeech then SpeechInv(p, es, n, v, floor, OnsetAt(p, es, n)) && NotOverBefore(p, es, OnsetAt(p, es, n), n)
       else IdleInv(p, es, n, v, floor)
  }

  lemma {:induction false} PcmsSlice(es: seq<Event>, a: nat, n: nat)
    requires a <= n < |es| && es[n].Push?
    ensures Pcms(es[a..n + 1]) == Pcms(es[a..n]) + [es[n].pcm]
  {
    assert es[a..n + 1] == es[a..n] + [es[n]];
  }

  /** Keeping the newest frames within the limit. */
  lemma {:induction false} PrerollStep(es: seq<Event>, n: nat, floor: nat, preroll: seq<bytes>, limit: int)
    requires floor <= n < |es| && es[n].Push?
    requires |preroll| == Min(n - floor, Max(limit, 0)) && preroll == Pcms(es[n - |preroll|..n])
    ensures var next := DropFirst(preroll + [es[n].pcm], limit);
      && |next| == Min(n + 1 - floor, Max(limit, 0))
      && next == Pcms(es[n + 1 - |next|..n + 1])
  {
    var a := n - |preroll|;
    PcmsSlice(es, a, n);
    if |preroll + [es[n].pcm]| > limit {
      assert es[a..n + 1][1..] == es[a + 1..n + 1];
      assert Pcms(es[a..n + 1])[1..] == Pcms(es[a + 1..n + 1]);
    }
  }

  lemma {:induction false} LoudStep(es: seq<Event>, a: nat, n: nat)
    requires a <= n < |es| && es[n].Push?
    ensures LoudFrames(es[a..n + 1]) == LoudFrames(es[a..n]) + if es[n].loud then 1 else 0
    ensures AllLoud(es[a..n]) && es[n].loud ==> AllLoud(es[a..n + 1])
    ensures AllQuiet(es[a..n]) && !es[n].loud ==> AllQuiet(es[a..n + 1])
    ensures AllPushed(es[a..n]) ==> AllPushed(es[a..n + 1])
  {
    assert es[a..n + 1] == es[a..n] + [es[n]];
    assert es[a..n + 1][..n - a] == es[a..n];
  }

  lemma {:induction false} NothingHeard(es: seq<Event>, n: nat)
    requires n <= |es|
    ensures AllQuiet(es[n..n]) && AllLoud(es[n..n]) && LoudFrames(es[n..n]) == 0
  {
  }

  lemma {:induction false} IdlePush(p: Params, es: seq<Event>, n: nat, v: Vad, floor: nat)
    requires floor <= n < |es| && es[n].Push? && !v.inSpeech && IdleInv(p, es, n, v, floor)
    ensures var w := Step(p, v, es[n]).0;
      if w.inSpeech then SpeechInv(p, es, n + 1, w, floor, n) else IdleInv(p, es, n + 1, w, floor)
  {
    hide Pcms, DropFirst, AllLoud, AllQuiet, LoudFrames;
    PrerollStep(es, n, floor, v.preroll, p.prerollFrames);
    LoudStep(es, n - v.loudRun, n);
    NothingHeard(es, n + 1);
  }

  lemma {:induction false} SpeechPush(p: Params, es: seq<Event>, n: nat, v: Vad, floor: nat, onset: nat)
    requires floor <= n < |es| && es[n].Push? && v.inSpeech && SpeechInv(p, es, n, v, floor, onset)
    ensures var w := Step(p, v, es[n]).0; w.inSpeech ==> SpeechInv(p, es, n + 1, w, floor, onset)
  {
    hide Pcms, AllLoud, AllQuiet, LoudFrames;
    PcmsSlice(es, n - |v.buf|, n);
    LoudStep(es, onset + 1, n);
    LoudStep(es, n - v.quietRun, n);
    NoneQuiet(es[n + 1..n + 1]);
  }

  lemma {:induction false} NoneQuiet(es: seq<Event>)
    ensures es == [] ==> AllQuiet(es)
  {
  }

  /** The quiet run is as long as it can be, so a shorter count means no ending stretch yet. */
  lemma {:induction false} QuietRunDecides(p: Params, es: seq<Event>, n: nat, v: Vad, floor: nat, onset: nat)
    requires floor <= n < |es| && es[n].Push? && v.inSpeech
    requires SpeechInv(p, es, n, v, floor, onset) && NotOverBefore(p, es, onset, n)
    ensures Step(p, v, es[n]).0.inSpeech <==> NotOverBefore(p, es, onset, n + 1)
    ensures !Step(p, v, es[n]).0.inSpeech ==> onset + EndRun(p) < n + 1 && QuietEnough(p, es, n + 1)
  {
    hide Pcms, LoudFrames, AllLoud;
    var q := EndRun(p);
    LoudStep(es, n - v.quietRun, n);
    if Step(p, v, es[n]).0.inSpeech {
      if onset + q < n + 1 {
        var last := if es[n].loud then n else n - 1 - v.quietRun;
        assert es[n + 1 - q..n + 1][last - (n + 1 - q)] == es[last];
        assert !QuietEnough(p, es, n + 1);
      }
    } else {
      assert q == v.quietRun + 1;
      assert QuietEnough(p, es, n + 1);
    }
  }

  lemma {:induction false} InvAlways(p: Params, es: seq<Event>, n: nat)
    requires n <= |es|
    ensures Inv(p, es, n)
  {
    hide Inv;
    if n == 0 {
      InvAtFirst(p, es);
    } else {
      InvAlways(p, es, n - 1);
      InvStep(p, es, n - 1);
    }
  }

  lemma {:induction false} InvAtFirst(p: Params, es: seq<Event>)
    ensures Inv(p, es, 0)
  {
    assert Pcms(es[0..0]) == [];
  }

  lemma {:induction false} InvStep(p: Params, es: seq<Event>, n: nat)
    requires n < |es| && Inv(p, es, n)
    ensures Inv(p, es, n + 1)
  {
    hide IdleInv, SpeechInv, NotOverBefore;
    var v, w := StateAt(p, es, n), StateAt(p, es, n + 1);
    var floor := FloorAt(p, es, n);
    if Boundary(p, es, n) {
      BoundaryInv(p, es, n);
    } else {
      LoudStep(es, floor, n);
      if v.inSpeech {
        SpeechPush(p, es, n, v, floor, OnsetAt(p, es, n));
        QuietRunDecides(p, es, n, v, floor, OnsetAt(p, es, n));
      } else {
        IdlePush(p, es, n, v, floor);
        NotOverYet(p, es, n);
      }
    }
  }

  lemma {:induction false} NotOverYet(p: Params, es: seq<Event>, n: nat)
    requires n < |es|
    ensures NotOverBefore(p, es, n, n + 1)
  {
  }

  lemma {:induction false} BoundaryInv(p: Params, es: seq<Event>, n: nat)
    requires n < |es| && Boundary(p, es, n) && Inv(p, es, n)
    ensures Inv(p, es, n + 1)
  {
    assert es[n + 1..n + 1] == [];
    assert Pcms([]) == [];
  }

  // --- what a caller may rely on -----------------------------------------------------

  /** Where the utterance handed out at event `i` begins. */
  function SpanStart(p: Params, es: seq<Event>, i: nat): int
    requires i < |es|
  {
    i - |StateAt(p, es, i).buf|
  }

  /** What holds at the moment an utterance is handed out. */
  lemma {:induction false} AtTheEnd(p: Params, es: seq<Event>, i: nat)
    requires i < |es| && OutputAt(p, es, i).Ended?
    ensures var v, floor, onset := StateAt(p, es, i), FloorAt(p, es, i), OnsetAt(p, es, i);
      && es[i].Push? && v.inSpeech && !es[i].loud && !Step(p, v, es[i]).0.inSpeech
      && OutputAt(p, es, i).audio == Flatten(v.buf + [es[i].pcm]) && v.speechFrames >= p.minSpeechFrames
      && AllPushed(es[floor..i]) && SpeechInv(p, es, i, v, floor, onset) && NotOverBefore(p, es, onset, i)
  {
    hide SpeechInv, IdleInv, NotOverBefore, AllPushed;
    InvAlways(p, es, i);
  }

  lemma {:induction false} PushedSlice(es: seq<Event>, floor: nat, lo: nat, i: nat)
    requires floor <= lo <= i < |es| && AllPushed(es[floor..i]) && es[i].Push?
    ensures AllPushed(es[lo..i + 1])
  {
    assert forall k :: lo <= k < i ==> es[floor..i][k - floor] == es[k];
  }

  /** Every utterance is an unbroken slice of the pushed frames that ends with the current one and
      crosses no boundary. It ends at the first moment, after its onset, at which the last `EndRun`
      frames were all quiet. */
  lemma {:induction false} UtteranceIsExactSlice(p: Params, es: seq<Event>, i: nat)
    requires i < |es| && OutputAt(p, es, i).Ended?
    ensures var lo, onset := SpanStart(p, es, i), OnsetAt(p, es, i);
      && FloorAt(p, es, i) <= lo <= onset + 1 && onset + EndRun(p) < i + 1
      && AllPushed(es[lo..i + 1])
      && OutputAt(p, es, i).audio == Flatten(Pcms(es[lo..i + 1]))
      && QuietEnough(p, es, i + 1) && NotOverBefore(p, es, onset, i)
  {
    hide Pcms, LoudFrames, AllLoud, AllQuiet, AllPushed, Step, StateAt, OutputAt, FloorAt, OnsetAt, QuietEnough;
    AtTheEnd(p, es, i);
    var v, floor, onset := StateAt(p, es, i), FloorAt(p, es, i), OnsetAt(p, es, i);
    QuietRunDecides(p, es, i, v, floor, onset);
    var lo := SpanStart(p, es, i);
    PcmsSlice(es, lo, i);
    PushedSlice(es, floor, lo, i);
  }

  lemma {:induction false} BoundaryRaisesFloor(p: Params, es: seq<Event>, i: nat, n: nat)
    requires i < n <= |es| && Boundary(p, es, i)
    ensures FloorAt(p, es, n) > i
  {
    if n > i + 1 {
      BoundaryRaisesFloor(p, es, i, n - 1);
    }
  }

  /** No frame is handed out twice, and none from before a reset is handed out after it. */
  lemma {:induction false} UtterancesAreDisjoint(p: Params, es: seq<Event>, i: nat, j: nat)
    requires i < j < |es| && OutputAt(p, es, j).Ended?
    requires es[i].Reset? || OutputAt(p, es, i).Ended?
    ensures i < SpanStart(p, es, j)
  {
    UtteranceIsExactSlice(p, es, j);
    BoundaryRaisesFloor(p, es, i, j);
  }

  // --- exactly when a turn starts and ends -------------------------------------------

  /** The newest frames, back to the last boundary at most, hold a start run of loud ones. */
  predicate LoudEnough(p: Params, es: seq<Event>, n: nat, floor: nat)
    requires floor <= n <= |es|
  {
    p.startFrames <= 0 || (floor + p.startFrames <= n && AllLoud(es[n - p.startFrames..n]))
  }

  lemma {:induction false} LoudRunDecides(p: Params, es: seq<Event>, i: nat, v: Vad, floor: nat)
    requires floor <= i < |es| && es[i].Push? && !v.inSpeech && IdleInv(p, es, i, v, floor)
    ensures Step(p, v, es[i]).1 == Started <==> LoudEnough(p, es, i + 1, floor)
  {
    LoudStep(es, i - v.loudRun, i);
    NothingHeard(es, i + 1);
    var run := if es[i].loud then v.loudRun + 1 else 0;
    StartsByRun(p, v, es[i], run);
    hide Pcms, Step, AllLoud, LoudEnough;
    LongestLoudRun(p, es, i + 1, floor, run);
  }

  lemma {:induction false} StartsByRun(p: Params, v: Vad, e: Event, run: nat)
    requires e.Push? && !v.inSpeech && run == if e.loud then v.loudRun + 1 else 0
    ensures Step(p, v, e).1 == Started <==> run >= p.startFrames
  {
    hide DropFirst;
  }

  /** The newest loud run is as long as it can be, so its length decides. */
  lemma {:induction false} LongestLoudRun(p: Params, es: seq<Event>, n: nat, floor: nat, run: nat)
    requires floor + run <= n <= |es| && AllLoud(es[n - run..n])
    requires run < n - floor ==> !(es[n - 1 - run].Push? && es[n - 1 - run].loud)
    ensures run >= p.startFrames <==> LoudEnough(p, es, n, floor)
  {
    hide AllLoud;
    if p.startFrames > 0 && floor + p.startFrames <= n {
      if run >= p.startFrames {
        LoudTail(es, n - run, n - p.startFrames, n);
      } else {
        QuietBreaks(es, n - p.startFrames, n - 1 - run, n);
      }
    }
  }

  lemma {:induction false} QuietBreaks(es: seq<Event>, a: nat, k: nat, c: nat)
    requires a <= k < c <= |es| && !(es[k].Push? && es[k].loud)
    ensures !AllLoud(es[a..c])
  {
    assert es[a..c][k - a] == es[k];
  }

  lemma {:induction false} LoudTail(es: seq<Event>, a: nat, b: nat, c: nat)
    requires a <= b <= c <= |es| && AllLoud(es[a..c])
    ensures AllLoud(es[b..c])
  {
    forall k | 0 <= k < c - b
      ensures es[b..c][k].Push? && es[b..c][k].loud
    {
      assert es[b..c][k] == es[a..c][b - a + k];
    }
  }

  /** A turn starts exactly when none is going on and the newest frames since the last turn or reset are a start
      run of loud ones. */
  lemma {:induction false} StartsExactlyWhen(p: Params, es: seq<Event>, i: nat)
    requires i < |es|
    ensures OutputAt(p, es, i) == Started <==>
      es[i].Push? && !StateAt(p, es, i).inSpeech && LoudEnough(p, es, i + 1, FloorAt(p, es, i))
  {
    hide IdleInv, SpeechInv, NotOverBefore, LoudEnough, StateAt, FloorAt, OnsetAt, Flatten, DropFirst;
    InvAlways(p, es, i);
    if es[i].Push? && !StateAt(p, es, i).inSpeech {
      LoudRunDecides(p, es, i, StateAt(p, es, i), FloorAt(p, es, i));
    }
  }

  /** The onset is where the turn that is going on started. */
  lemma {:induction false} OnsetIsTheStart(p: Params, es: seq<Event>, n: nat)
    requires n <= |es| && StateAt(p, es, n).inSpeech
    ensures OnsetAt(p, es, n) < n && OutputAt(p, es, OnsetAt(p, es, n)) == Started
    ensures forall k :: OnsetAt(p, es, n) < k <= n ==> StateAt(p, es, k).inSpeech
  {
    hide Flatten, DropFirst;
    if n > 0 && StateAt(p, es, n - 1).inSpeech {
      OnsetIsTheStart(p, es, n - 1);
    }
  }

  /** How many loud frames a turn is credited with: its start run and those heard since its onset. */
  function Credit(p: Params, es: seq<Event>, onset: nat, n: nat): int
    requires onset < n <= |es|
  {
    (if p.startFrames >= 1 then p.startFrames else if es[onset].Push? && es[onset].loud then 1 else 0)
    + LoudFrames(es[onset + 1..n])
  }

  lemma {:induction false} CreditIs(p: Params, es: seq<Event>, n: nat, v: Vad, floor: nat, onset: nat)
    requires floor <= n <= |es| && SpeechInv(p, es, n, v, floor, onset)
    ensures onset < n && v.speechFrames == Credit(p, es, onset, n)
  {
    hide Pcms, LoudFrames, AllQuiet, AllLoud;
  }

  lemma {:induction false} EndingDecides(p: Params, es: seq<Event>, i: nat, v: Vad, floor: nat, onset: nat)
    requires floor <= i < |es| && es[i].Push? && v.inSpeech
    requires SpeechInv(p, es, i, v, floor, onset) && NotOverBefore(p, es, onset, i)
    ensures !Step(p, v, es[i]).0.inSpeech <==> onset + EndRun(p) < i + 1 && QuietEnough(p, es, i + 1)
    ensures Step(p, v, es[i]).1.Ended? <==> !Step(p, v, es[i]).0.inSpeech && v.speechFrames >= p.minSpeechFrames
  {
    QuietRunDecides(p, es, i, v, floor, onset);
    hide SpeechInv, QuietEnough, Flatten;
  }

  /** An utterance is handed out exactly when a turn is going on, the newest frames after its onset are an end
      run of quiet ones, and it is credited with enough loud frames. */
  lemma {:induction false} HandsOverExactlyWhen(p: Params, es: seq<Event>, i: nat)
    requires i < |es|
    ensures OutputAt(p, es, i).Ended? <==>
      && es[i].Push? && StateAt(p, es, i).inSpeech && OnsetAt(p, es, i) < i
      && OnsetAt(p, es, i) + EndRun(p) < i + 1 && QuietEnough(p, es, i + 1)
      && Credit(p, es, OnsetAt(p, es, i), i) >= p.minSpeechFrames
  {
    hide IdleInv, SpeechInv, NotOverBefore, QuietEnough, StateAt, FloorAt, OnsetAt, Flatten, DropFirst, Credit, EndRun;
    InvAlways(p, es, i);
    var v, floor, onset := StateAt(p, es, i), FloorAt(p, es, i), OnsetAt(p, es, i);
    if es[i].Push? && v.inSpeech {
      EndingDecides(p, es, i, v, floor, onset);
      CreditIs(p, es, i, v, floor, onset);
    }
  }

  /** The quiet run that event `i` makes, if it falls within a turn. */
  function QuietRunAt(p: Params, es: seq<Event>, i: nat): nat
    requires i < |es|
  {
    if StateAt(p, es, i).inSpeech && es[i].Push? && !es[i].loud then StateAt(p, es, i).quietRun + 1 else 0
  }

  function LongestQuietRun(p: Params, es: seq<Event>, n: nat): nat
    requires n <= |es|
  {
    if n == 0 then 0
    else
      var before, now := LongestQuietRun(p, es, n - 1), QuietRunAt(p, es, n - 1);
      if before < now then now else before
  }

  /** The counter that tells a stream that is never quiet from a wrong threshold: the longest quiet run within any
      turn, kept over turns and resets. */
  lemma {:induction false} MaxQuietRunIsTheLongest(p: Params, es: seq<Event>, n: nat)
    requires n <= |es|
    ensures StateAt(p, es, n).maxQuietRun == LongestQuietRun(p, es, n)
  {
    if n > 0 {
      hide Flatten, DropFirst;
      MaxQuietRunIsTheLongest(p, es, n - 1);
    }
  }

  // --- how much speech an utterance holds --------------------------------------------

  lemma {:induction false} LoudSplit(es: seq<Event>, a: nat, b: nat, c: nat)
    requires a <= b <= c <= |es|
    ensures LoudFrames(es[a..c]) == LoudFrames(es[a..b]) + LoudFrames(es[b..c])
    decreases c
  {
    if b == c {
      assert es[b..c] == [];
    } else {
      assert es[a..c][..c - 1 - a] == es[a..c - 1];
      assert es[b..c][..c - 1 - b] == es[b..c - 1];
      LoudSplit(es, a, b, c - 1);
    }
  }

  lemma {:induction false} LoudCount(es: seq<Event>)
    ensures LoudFrames(es) <= |es|
    ensures AllLoud(es) ==> LoudFrames(es) == |es|
    ensures AllQuiet(es) ==> LoudFrames(es) == 0
  {
    if es != [] {
      LoudCount(es[..|es| - 1]);
    }
  }

  /** The part kept from before the onset holds the loud run that was counted, unless the pre-roll
      is too short for it. */
  lemma {:induction false} LoudPartOfRun(es: seq<Event>, a: nat, b: nat, c: nat)
    requires a <= b <= c <= |es| && AllLoud(es[a..c])
    ensures LoudFrames(es[b..c]) == c - b
  {
    hide LoudFrames;
    forall k | 0 <= k < c - b
      ensures es[b..c][k].Push? && es[b..c][k].loud
    {
      assert es[b..c][k] == es[a..c][b - a + k];
    }
    LoudCount(es[b..c]);
  }

  lemma {:induction false} LoudKept(p: Params, es: seq<Event>, n: nat, v: Vad, floor: nat, onset: nat)
    requires floor <= n <= |es| && SpeechInv(p, es, n, v, floor, onset)
    ensures var lo := n - |v.buf|;
      0 <= lo <= onset + 1 && LoudFrames(es[lo..onset + 1]) >= Min(v.loudRun, Max(p.prerollFrames, 0))
  {
    hide Pcms, LoudFrames, AllQuiet, AllLoud;
    var lo := n - |v.buf|;
    var run := Min(v.loudRun, Max(p.prerollFrames, 0));
    var from := onset + 1 - run;
    LoudSplit(es, lo, from, onset + 1);
    LoudPartOfRun(es, onset + 1 - v.loudRun, from, onset + 1);
  }

  predicate EnoughSpeech(p: Params, es: seq<Event>, i: nat)
    requires i < |es|
  {
    OutputAt(p, es, i).Ended? ==>
      0 <= SpanStart(p, es, i) && LoudFrames(es[SpanStart(p, es, i)..i + 1]) >= p.minSpeechFrames
  }

  /** Whether the minimum-speech rule can be trusted, decided by the settings alone. */
  predicate PrerollCoversStart(p: Params) {
    Max(p.startFrames, 1) <= Max(p.prerollFrames, 0) || p.minSpeechFrames <= Max(p.prerollFrames, 0)
  }

  lemma {:induction false} CoveredStartMeansEnoughSpeech(p: Params, es: seq<Event>, i: nat)
    requires i < |es| && PrerollCoversStart(p)
    ensures EnoughSpeech(p, es, i)
  {
    hide Pcms, LoudFrames, AllLoud, AllQuiet, AllPushed, Step, StateAt, OutputAt, FloorAt, OnsetAt, QuietEnough, NotOverBefore, SpeechInv;
    if OutputAt(p, es, i).Ended? {
      AtTheEnd(p, es, i);
      var v, onset := StateAt(p, es, i), OnsetAt(p, es, i);
      SpeechKept(p, es, i, v, FloorAt(p, es, i), onset);
    }
  }

  /** The kept part of the start run and everything loud since the onset make up the minimum. */
  lemma {:induction false} SpeechKept(p: Params, es: seq<Event>, i: nat, v: Vad, floor: nat, onset: nat)
    requires floor <= i < |es| && SpeechInv(p, es, i, v, floor, onset) && v.speechFrames >= p.minSpeechFrames
    requires PrerollCoversStart(p)
    ensures 0 <= i - |v.buf| && LoudFrames(es[i - |v.buf|..i + 1]) >= p.minSpeechFrames
  {
    hide Pcms, LoudFrames, AllLoud, AllQuiet;
    var lo := i - |v.buf|;
    LoudKept(p, es, i, v, floor, onset);
    LoudSplit(es, lo, onset + 1, i + 1);
    LoudSplit(es, onset + 1, i, i + 1);
  }

  /** Loud frames until the count is met, then quiet until the turn ends. */
  function Counterexample(p: Params): (es: seq<Event>)
    ensures |es| == LoudPart(p) + EndRun(p)
  {
    seq(LoudPart(p) + EndRun(p), i => Push([], i < LoudPart(p)))
  }

  function LoudPart(p: Params): nat { Max(Max(p.startFrames, 1), p.minSpeechFrames) }

  lemma {:induction false} CounterexampleRuns(p: Params, k: nat)
    requires k < |Counterexample(p)|
    ensures var es := Counterexample(p); var v := StateAt(p, es, k); var l := Max(p.startFrames, 1);
      && FloorAt(p, es, k) == 0
      && (k < l ==> !v.inSpeech && v.loudRun == k)
      && (k >= l ==> v.inSpeech && OnsetAt(p, es, k) == l - 1 && v.speechFrames == Min(k, LoudPart(p))
                     && v.quietRun == Max(k - LoudPart(p), 0))
  {
    if k > 0 {
      hide DropFirst;
      var es := Counterexample(p);
      CounterexampleRuns(p, k - 1);
      assert es[k - 1] == Push([], k - 1 < LoudPart(p));
    }
  }

  /** It hands out an utterance whose first frames the pre-roll had already dropped. */
  lemma {:induction false} CounterexampleEnds(p: Params)
    requires !PrerollCoversStart(p)
    ensures var es := Counterexample(p); var i := |es| - 1;
      OutputAt(p, es, i).Ended? && SpanStart(p, es, i) == Max(p.startFrames, 1) - Max(p.prerollFrames, 0)
  {
    hide Pcms, LoudFrames, AllLoud, AllQuiet, AllPushed, StateAt, OnsetAt, FloorAt, NotOverBefore, IdleInv, QuietEnough, Flatten;
    var es := Counterexample(p);
    var i := |es| - 1;
    CounterexampleRuns(p, i);
    InvAlways(p, es, i);
    assert es[i] == Push([], false);
  }

  lemma {:induction false} CounterexampleSplits(p: Params, lo: nat)
    requires lo <= LoudPart(p)
    ensures var es := Counterexample(p); LoudFrames(es[lo..]) <= LoudPart(p) - lo
  {
    hide LoudFrames, LoudPart, EndRun;
    var es, m := Counterexample(p), LoudPart(p);
    LoudSplit(es, lo, m, |es|);
    LoudCount(es[lo..m]);
    LoudCount(es[m..|es|]);
    assert AllQuiet(es[m..|es|]);
    assert es[lo..|es|] == es[lo..];
  }

  lemma {:induction false} UncoveredStartFails(p: Params)
    requires !PrerollCoversStart(p)
    ensures !EnoughSpeech(p, Counterexample(p), |Counterexample(p)| - 1)
  {
    hide LoudFrames, OutputAt, SpanStart, Counterexample, EndRun;
    CounterexampleEnds(p);
    var es, lo := Counterexample(p), SpanStart(p, Counterexample(p), |Counterexample(p)| - 1);
    CounterexampleSplits(p, lo);
    assert es[lo..|es| - 1 + 1] == es[lo..];
  }

  /** The pipeline never changes the detector's own settings for these three, and they are covered. */
  lemma {:induction false} ShippedSettingsAreCovered(endFrames: int, es: seq<Event>, i: nat)
    requires i < |es|
    ensures EnoughSpeech(Params(3, endFrames, 10, 5), es, i)
  {
    hide EnoughSpeech;
    CoveredStartMeansEnoughSpeech(Params(3, endFrames, 10, 5), es, i);
  }

  /** The minimum-speech rule counts loud frames that the pre-roll may already have dropped. Every
      utterance of every run really holds `minSpeechFrames` loud frames exactly when the pre-roll is
      long enough for the start run (or for the whole minimum). */
  lemma {:induction false} EnoughSpeechExactlyWhen(p: Params)
    ensures (forall es: seq<Event>, i: nat :: i < |es| ==> EnoughSpeech(p, es, i)) <==> PrerollCoversStart(p)
  {
    if PrerollCoversStart(p) {
      forall es: seq<Event>, i: nat | i < |es|
        ensures EnoughSpeech(p, es, i)
      {
        CoveredStartMeansEnoughSpeech(p, es, i);
      }
    } else {
      UncoveredStartFails(p);
    }
  }

  // --- the source's class ------------------------------------------------------------

  class TurnDetector {
    const params: Params
    var inSpeech: bool
    var loudRun: nat
    var quietRun: nat
    var speechFrames: nat
    var maxQuietRun: nat
    var buf: seq<bytes>
    var preroll: seq<bytes>

    constructor (params: Params)
      ensures View() == IDLE && this.params == params
    {
      this.params := params;
      inSpeech, loudRun, quietRun, speechFrames, maxQuietRun := false, 0, 0, 0, 0;
      buf, preroll := [], [];
    }

    ghost function View(): Vad
      reads this
    {
      Vad(inSpeech, loudRun, quietRun, speechFrames, maxQuietRun, buf, preroll)
    }

    method PushFrame(pcm: bytes, loud: bool) returns (event: Output)
      modifies this
      ensures (View(), event) == Step(params, old(View()), Push(pcm, loud))
    {
      hide Flatten;
      if !inSpeech {
        preroll := preroll + [pcm];
        if |preroll| > params.prerollFrames {
          preroll := preroll[1..];
        }
        loudRun := if loud then loudRun + 1 else 0;
        if loudRun >= params.startFrames {
          inSpeech := true;
          quietRun := 0;
          buf := preroll;
          speechFrames := loudRun;
          preroll := [];
          return Started;
        }
        return Nothing;
      }
      buf := buf + [pcm];
      if loud {
        speechFrames := speechFrames + 1;
        quietRun := 0;
        return Nothing;
      }
      quietRun := quietRun + 1;
      maxQuietRun := if quietRun > maxQuietRun then quietRun else maxQuietRun;
      if quietRun < params.endFrames {
        return Nothing;
      }
      var audio := Flatten(buf);
      var speech := speechFrames;
      inSpeech := false;
      loudRun, quietRun, buf, speechFrames := 0, 0, [], 0;
      if speech < params.minSpeechFrames {
        return Nothing;
      }
      return Ended(audio);
    }

    method ResetDetector()
      modifies this
      ensures View() == Step(params, old(View()), Reset).0
    {
      inSpeech := false;
      loudRun, quietRun, speechFrames := 0, 0, 0;
      buf, preroll := [], [];
    }
  }
}
