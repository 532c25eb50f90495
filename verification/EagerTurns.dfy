module EagerTurns {
  /** The conversation driven by a streaming recogniser with eager end-of-turn (owen-voice/app/pipeline.py):
      vendor events, turn tasks that generate and then speak, and the commit gate between the two.

      asyncio runs one task at a time between awaits, so a run is a sequence of atomic actions. An action
      of a task that is not at the right point, has finished or was cancelled does nothing. */

  datatype Option<T> = None | Some(value: T)

  /** Where a turn task stands. `AtGate` waits for the gate, `Woken` has been released by it but has
      not run yet, `Replying` is the blocking reply used when the stream gave no sentence, `Wrapping`
      has dispatched the tools and runs the agent's own ones. */
  datatype Pc = Generating | AtGate | Woken | Speaking | Replying | Wrapping | Done | Cancelled

  /** `streamed`: the task has taken a sentence from its stream. */
  datatype Turn = Turn(transcript: string, drafted: bool, streamed: bool, pc: Pc) {
    predicate Running() { pc != Done && pc != Cancelled }
  }

  /** Queued audio, with the turn it answers and whether it came from a stream that had to pass the gate. */
  datatype Sound = Sound(id: nat, gated: bool)

  datatype TurnEvent = Start | EagerEnd(transcript: string) | Resumed | End(transcript: string) | Error

  datatype Action =
    | Vendor(event: TurnEvent)
    | Sentence(id: nat)     // the next sentence is taken from the stream
    | Resume(id: nat)       // a released task runs again
    | Enqueue(id: nat)      // one piece of synthesized audio is queued
    | SentenceDone(id: nat)
    | StreamEnded(id: nat)  // the tools are dispatched, or the blocking reply begins
    | Replied(id: nat)      // the blocking reply has been spoken: the tools are dispatched
    | Finish(id: nat)       // the task ends, normally or not
    | Pump                  // playout takes the head of its queue

  /** `acted` lists the turns whose tools have been dispatched. */
  datatype State = State(
    turns: seq<Turn>, turn: Option<nat>, draft: Option<nat>, draftFor: string, commit: bool,
    queue: seq<Sound>, acted: seq<nat>, failed: bool)

  const FRESH := State([], None, None, "", true, [], [], false)

  predicate Sane(s: State) {
    && (s.turn.Some? ==> s.turn.value < |s.turns|)
    && (s.draft.Some? ==> s.draft.value < |s.turns|)
  }

  // --- vendor events -----------------------------------------------------------------

  function Wake(t: Turn): Turn { if t.pc == AtGate then t.(pc := Woken) else t }

  function WakeAll(turns: seq<Turn>): (r: seq<Turn>)
    ensures |r| == |turns|
  {
    seq(|turns|, i requires 0 <= i < |turns| => Wake(turns[i]))
  }

  function OpenGate(s: State): State { s.(commit := true, turns := WakeAll(s.turns)) }

  function CancelTurn(s: State): (r: State)
    requires Sane(s)
    ensures Sane(r) && |r.turns| == |s.turns|
  {
    var turns := if s.turn.Some? && s.turns[s.turn.value].Running()
                 then s.turns[s.turn.value := s.turns[s.turn.value].(pc := Cancelled)] else s.turns;
    s.(turns := turns, draft := None, draftFor := "")
  }

  function BeginTurn(s: State, transcript: string, drafted: bool): State {
    s.(turns := s.turns + [Turn(transcript, drafted, false, Generating)], turn := Some(|s.turns|))
  }

  function OnEvent(s: State, ev: TurnEvent): (r: State)
    requires Sane(s)
    ensures Sane(r)
  {
    if s.failed then s
    else
      match ev
      case Start => CancelTurn(s.(queue := []))
      case EagerEnd(t) =>
        if t == "" || s.draft.Some? then s
        else BeginTurn(s.(draftFor := t, commit := false), t, true).(draft := Some(|s.turns|))
      case Resumed => OpenGate(CancelTurn(s))
      case End(t) =>
        if t == "" then s
        else if s.draft.Some? && s.turns[s.draft.value].pc != Done then
          if t == s.draftFor then OpenGate(s) else BeginTurn(OpenGate(CancelTurn(s)), t, false)
        else BeginTurn(OpenGate(s), t, false)
      case Error => OpenGate(s.(failed := true))
  }

  // --- turn tasks --------------------------------------------------------------------

  predicate MayEnqueue(t: Turn) { t.pc == Speaking || t.pc == Replying || t.pc == Wrapping }

  function TurnStep(t: Turn, a: Action, commit: bool): Turn {
    match a
    case Sentence(_) =>
      if t.pc == Generating then t.(streamed := true, pc := if commit then Speaking else AtGate) else t
    case Resume(_) => if t.pc == Woken then t.(pc := Speaking) else t
    case SentenceDone(_) => if t.pc == Speaking then t.(pc := Generating) else t
    case StreamEnded(_) => if t.pc == Generating then t.(pc := if t.streamed then Wrapping else Replying) else t
    case Replied(_) => if t.pc == Replying then t.(pc := Wrapping) else t
    case Finish(_) => if t.Running() then t.(pc := Done) else t
    case _ => t
  }

  /** The step in which the turn's tools are dispatched. */
  predicate Dispatches(t: Turn, a: Action) {
    (a.StreamEnded? && t.pc == Generating && t.streamed) || (a.Replied? && t.pc == Replying)
  }

  function Step(s: State, a: Action): (r: State)
    requires Sane(s)
    ensures Sane(r)
  {
    match a
    case Vendor(ev) => OnEvent(s, ev)
    case Pump => if s.queue == [] then s else s.(queue := s.queue[1..])
    case Enqueue(id) =>
      if id < |s.turns| && MayEnqueue(s.turns[id]) then s.(queue := s.queue + [Sound(id, s.turns[id].streamed)]) else s
    case _ =>
      if a.id < |s.turns| then
        s.(turns := s.turns[a.id := TurnStep(s.turns[a.id], a, s.commit)],
           acted := if Dispatches(s.turns[a.id], a) then s.acted + [a.id] else s.acted)
      else s
  }

  function StateAt(run: seq<Action>, n: nat): (s: State)
    requires n <= |run|
    ensures Sane(s)
  {
    if n == 0 then FRESH else Step(StateAt(run, n - 1), run[n - 1])
  }

  // --- the vendor's contract ---------------------------------------------------------

  /** Each round is start (eager_end resumed)* [eager_end] end, the end repeating the pending eager
      transcript; an error may come at any point and is the last event. */
  datatype Phase = Idle | Listening | Predicted(transcript: string) | Dead | Broken

  function NextPhase(p: Phase, ev: TurnEvent): Phase {
    match ev
    case Start => if p == Idle then Listening else Broken
    case EagerEnd(t) => if p == Listening then Predicted(t) else Broken
    case Resumed => if p.Predicted? then Listening else Broken
    case End(t) => if p == Listening || p == Predicted(t) then Idle else Broken
    case Error => if p == Dead || p == Broken then Broken else Dead
  }

  function PhaseAt(run: seq<Action>, n: nat): Phase
    requires n <= |run|
  {
    if n == 0 then Idle
    else if run[n - 1].Vendor? then NextPhase(PhaseAt(run, n - 1), run[n - 1].event)
    else PhaseAt(run, n - 1)
  }

  /** One step of a run. */
  lemma {:induction false} Next(run: seq<Action>, n: nat)
    requires n < |run|
    ensures StateAt(run, n + 1) == Step(StateAt(run, n), run[n])
    ensures PhaseAt(run, n + 1) == if run[n].Vendor? then NextPhase(PhaseAt(run, n), run[n].event) else PhaseAt(run, n)
  {
  }

  lemma {:induction false} First(run: seq<Action>)
    ensures StateAt(run, 0) == FRESH && PhaseAt(run, 0) == Idle
  {
  }

  // --- safety ------------------------------------------------------------------------

  /** The turn tasks that are neither finished nor cancelled. */
  predicate OnlyLive(s: State, ids: Option<nat>) {
    forall i :: 0 <= i < |s.turns| && s.turns[i].Running() ==> ids == Some(i)
  }

  /** Past the gate: a sentence has been taken and the task is not held back. */
  predicate PastGate(t: Turn) { t.Running() && t.streamed && t.pc != AtGate }

  predicate NothingGated(queue: seq<Sound>) { forall k :: 0 <= k < |queue| ==> !queue[k].gated }

  predicate GatedOnlyFrom(queue: seq<Sound>, turn: Option<nat>) {
    forall k :: 0 <= k < |queue| && queue[k].gated ==> turn == Some(queue[k].id)
  }

  /** A pending draft: held back at the gate, whatever it has generated so far. */
  predicate DraftHeld(s: State, t: string) {
    && !s.commit && s.draft.Some? && s.draft == s.turn && s.draftFor == t && s.draft.value < |s.turns|
    && s.turns[s.draft.value].drafted && s.turns[s.draft.value].transcript == t
    && !PastGate(s.turns[s.draft.value]) && s.turns[s.draft.value].pc != Cancelled
  }

  predicate NoDraft(s: State) { s.commit && s.draft.None? && OnlyLive(s, None) }

  /** What is true in each phase of the vendor's round. */
  predicate Safe(s: State, p: Phase) {
    && Sane(s)
    && OnlyLive(s, s.turn)
    && GatedOnlyFrom(s.queue, s.turn)
    && (s.failed <==> p == Dead)
    && match p
       case Broken => true
       case Dead => s.commit
       case Idle => s.commit
       case Listening => NoDraft(s) && NothingGated(s.queue)
       case Predicted(t) => NothingGated(s.queue) && if t == "" then NoDraft(s) else DraftHeld(s, t)
  }

  lemma {:induction false} CancelLeavesNoneLive(s: State)
    requires Sane(s) && OnlyLive(s, s.turn)
    ensures var r := CancelTurn(s); OnlyLive(r, None) && r.turn == s.turn && r.queue == s.queue && r.draft == None
    ensures CancelTurn(s).failed == s.failed && CancelTurn(s).commit == s.commit
  {
  }

  lemma {:induction false} OpenGateKeepsLive(s: State, ids: Option<nat>)
    requires Sane(s) && OnlyLive(s, ids)
    ensures var r := OpenGate(s);
      && OnlyLive(r, ids) && r.commit && |r.turns| == |s.turns|
      && r == s.(commit := true, turns := r.turns)
      && forall i :: 0 <= i < |s.turns| ==>
        r.turns[i].transcript == s.turns[i].transcript && r.turns[i].drafted == s.turns[i].drafted
        && (r.turns[i].pc == Cancelled <==> s.turns[i].pc == Cancelled)
        && (r.turns[i].Running() <==> s.turns[i].Running())
  {
  }

  lemma {:induction false} BeginTurnIsOnlyLive(s: State, t: string, drafted: bool)
    requires Sane(s) && OnlyLive(s, None) && NothingGated(s.queue)
    ensures var r := BeginTurn(s, t, drafted);
      && Sane(r) && OnlyLive(r, r.turn) && r.turn == Some(|s.turns|) && GatedOnlyFrom(r.queue, r.turn)
      && r == s.(turns := r.turns, turn := r.turn) && r.turns == s.turns + [Turn(t, drafted, false, Generating)]
  {
  }

  lemma {:induction false} SafeEvent(s: State, p: Phase, ev: TurnEvent)
    requires Safe(s, p) && p != Broken && NextPhase(p, ev) != Broken
    ensures Safe(OnEvent(s, ev), NextPhase(p, ev))
  {
    hide OnlyLive, WakeAll, CancelTurn, BeginTurn, OpenGate;
    match ev
    case Start =>
      SameTurns(s, s.(queue := []));
      CancelLeavesNoneLive(s.(queue := []));
      NoneIsWeaker(OnEvent(s, ev));
    case EagerEnd(t) =>
      if t != "" {
        SameTurns(s, s.(draftFor := t, commit := false));
        BeginTurnIsOnlyLive(s.(draftFor := t, commit := false), t, true);
        SameTurns(BeginTurn(s.(draftFor := t, commit := false), t, true), OnEvent(s, ev));
      }
    case Resumed =>
      CancelLeavesNoneLive(s);
      OpenGateKeepsLive(CancelTurn(s), None);
      NoneIsWeaker(OnEvent(s, ev));
    case End(t) => SafeEnd(s, p, t);
    case Error =>
      SameTurns(s, s.(failed := true));
      OpenGateKeepsLive(s.(failed := true), s.turn);
  }

  lemma {:induction false} NoneIsWeaker(s: State)
    requires OnlyLive(s, None)
    ensures OnlyLive(s, s.turn)
  {
  }

  lemma {:induction false} SameTurns(s: State, r: State)
    requires s.turns == r.turns
    ensures forall ids :: OnlyLive(s, ids) <==> OnlyLive(r, ids)
  {
  }

  /** The turn the conversation holds was begun for exactly these words and is live. */
  predicate Answers(s: State, t: string) {
    s.turn.Some? && s.turn.value < |s.turns| && s.turns[s.turn.value].transcript == t && s.turns[s.turn.value].Running()
  }

  lemma {:induction false} NoneLiveWhenDraftDone(s: State, p: Phase, t: string)
    requires Safe(s, p) && t != "" && (p == Listening || (p == Predicted(t) && s.turns[s.draft.value].pc == Done))
    ensures OnlyLive(s, None)
  {
  }

  /** The committed end: a pending draft for the same words is released, otherwise a new turn begins. */
  lemma {:induction false} SafeEnd(s: State, p: Phase, t: string)
    requires Safe(s, p) && (p == Listening || p == Predicted(t))
    ensures Safe(OnEvent(s, End(t)), Idle)
    ensures t != "" ==> Answers(OnEvent(s, End(t)), t)
  {
    hide OnlyLive, WakeAll, CancelTurn;
    if t != "" {
      if p == Predicted(t) && s.turns[s.draft.value].pc != Done {
        OpenGateKeepsLive(s, s.turn);
      } else {
        NoneLiveWhenDraftDone(s, p, t);
        OpenGateKeepsLive(s, None);
        BeginTurnIsOnlyLive(OpenGate(s), t, false);
      }
    }
  }

  lemma {:induction false} SafeTask(s: State, p: Phase, a: Action)
    requires Safe(s, p) && p != Broken && !a.Vendor?
    ensures Safe(Step(s, a), p)
  {
    match a
    case Pump =>
    case Enqueue(id) => SafeEnqueue(s, p, id);
    case _ => SafeTurnStep(s, p, a);
  }

  /** Audio that passed the gate can only come from the turn the conversation holds. */
  lemma {:induction false} SafeEnqueue(s: State, p: Phase, id: nat)
    requires Safe(s, p) && p != Broken
    ensures Safe(Step(s, Enqueue(id)), p)
  {
    hide OnEvent;
    var r := Step(s, Enqueue(id));
    SameTurns(s, r);
    if r != s {
      assert s.turns[id].Running();
      assert r.queue[..|s.queue|] == s.queue;
    }
  }

  lemma {:induction false} SafeTurnStep(s: State, p: Phase, a: Action)
    requires Safe(s, p) && p != Broken && (a.Sentence? || a.Resume? || a.SentenceDone? || a.StreamEnded? || a.Replied? || a.Finish?)
    ensures Safe(Step(s, a), p)
  {
    var r := Step(s, a);
    if a.id < |s.turns| {
      var t := s.turns[a.id];
      var u := TurnStep(t, a, s.commit);
      TurnStepFacts(t, a, s.commit);
      assert r == s.(turns := s.turns[a.id := u], acted := r.acted);
      hide TurnStep, Step, PastGate;
    }
  }

  lemma {:induction false} TurnStepFacts(t: Turn, a: Action, commit: bool)
    ensures var u := TurnStep(t, a, commit);
      && u.transcript == t.transcript && u.drafted == t.drafted
      && (u.Running() ==> t.Running())
      && (u.pc == Cancelled ==> t.pc == Cancelled)
      && (PastGate(u) && !commit ==> PastGate(t))
  {
  }

  /** Every state of every run in which the vendor keeps its contract. */
  lemma {:induction false} SafeAlways(run: seq<Action>, n: nat)
    requires n <= |run| && PhaseAt(run, n) != Broken
    ensures Safe(StateAt(run, n), PhaseAt(run, n))
  {
    hide Safe, Step, StateAt, PhaseAt;
    if n == 0 {
      First(run);
      SafeAtFirst();
    } else {
      Next(run, n - 1);
      var s, p := StateAt(run, n - 1), PhaseAt(run, n - 1);
      SafeAlways(run, n - 1);
      if run[n - 1].Vendor? {
        SafeEvent(s, p, run[n - 1].event);
        StepIsEvent(s, run[n - 1].event);
      } else {
        SafeTask(s, p, run[n - 1]);
      }
    }
  }

  lemma {:induction false} StepIsEvent(s: State, ev: TurnEvent)
    requires Sane(s)
    ensures Step(s, Vendor(ev)) == OnEvent(s, ev)
  {
  }

  lemma {:induction false} SafeAtFirst()
    ensures Safe(FRESH, Idle)
  {
  }

  // --- what the caller hears ---------------------------------------------------------

  /** Turn `id` existed when, before moment `n`, the recogniser committed exactly its transcript (or
      failed, which opens the gate without judging the draft). */
  predicate Released(run: seq<Action>, n: nat, id: nat, transcript: string)
    requires n <= |run|
  {
    exists j :: 0 <= j < n && id < |StateAt(run, j).turns| && (run[j] == Vendor(End(transcript)) || run[j] == Vendor(Error))
  }

  lemma {:induction false} ReleasedStays(run: seq<Action>, n: nat, id: nat, transcript: string)
    requires n < |run| && Released(run, n, id, transcript)
    ensures Released(run, n + 1, id, transcript)
  {
    var j :| 0 <= j < n && id < |StateAt(run, j).turns| && (run[j] == Vendor(End(transcript)) || run[j] == Vendor(Error));
  }

  predicate DraftsReleased(run: seq<Action>, n: nat)
    requires n <= |run|
  {
    var s, p := StateAt(run, n), PhaseAt(run, n);
    (p == Idle || p == Dead) ==>
      forall i :: 0 <= i < |s.turns| && s.turns[i].Running() && s.turns[i].drafted ==> Released(run, n, i, s.turns[i].transcript)
  }

  /** A turn that is live afterwards was live before with the same words, or was begun by this event. */
  lemma {:induction false} LiveComesFrom(s: State, a: Action, i: nat)
    requires Sane(s) && i < |Step(s, a).turns| && Step(s, a).turns[i].Running()
    ensures var u := Step(s, a).turns[i];
      if i < |s.turns| then s.turns[i].Running() && s.turns[i].transcript == u.transcript && s.turns[i].drafted == u.drafted
      else u.drafted ==> a.Vendor? && a.event.EagerEnd?
  {
    match a
    case Vendor(ev) => EventLiveComesFrom(s, ev, i);
    case Pump =>
    case Enqueue(_) =>
    case _ =>
      if a.id < |s.turns| {
        TurnStepFacts(s.turns[a.id], a, s.commit);
      }
  }

  /** No task comes back to life, and none changes what it answers. */
  predicate Inherits(was: seq<Turn>, now: seq<Turn>) {
    && |was| <= |now|
    && forall i :: 0 <= i < |was| && now[i].Running() ==>
         was[i].Running() && was[i].transcript == now[i].transcript && was[i].drafted == now[i].drafted
  }

  lemma {:induction false} InheritsOn(a: seq<Turn>, b: seq<Turn>, c: seq<Turn>)
    requires Inherits(a, b) && Inherits(b, c)
    ensures Inherits(a, c)
  {
  }

  lemma {:induction false} CancelInherits(s: State)
    requires Sane(s)
    ensures Inherits(s.turns, CancelTurn(s).turns) && |CancelTurn(s).turns| == |s.turns|
  {
  }

  lemma {:induction false} OpenInherits(s: State)
    ensures Inherits(s.turns, OpenGate(s).turns) && |OpenGate(s).turns| == |s.turns|
  {
  }

  lemma {:induction false} EventLiveComesFrom(s: State, ev: TurnEvent, i: nat)
    requires Sane(s) && i < |OnEvent(s, ev).turns| && OnEvent(s, ev).turns[i].Running()
    ensures var u := OnEvent(s, ev).turns[i];
      if i < |s.turns| then s.turns[i].Running() && s.turns[i].transcript == u.transcript && s.turns[i].drafted == u.drafted
      else u.drafted ==> ev.EagerEnd?
  {
    hide CancelTurn, OpenGate;
    var c := if ev.Start? then s.(queue := []) else s;
    CancelInherits(c);
    OpenInherits(s);
    OpenInherits(s.(failed := true));
    OpenInherits(CancelTurn(s));
    InheritsOn(s.turns, CancelTurn(c).turns, if ev.Start? then CancelTurn(c).turns else OpenGate(CancelTurn(s)).turns);
  }

  lemma {:induction false} DraftsReleasedAlways(run: seq<Action>, n: nat)
    requires n <= |run| && PhaseAt(run, n) != Broken
    ensures DraftsReleased(run, n)
  {
    hide Step, Released, StateAt, PhaseAt, Safe;
    if n == 0 {
      First(run);
    } else {
      Next(run, n - 1);
      DraftsReleasedAlways(run, n - 1);
      SafeAlways(run, n - 1);
      forall i | 0 <= i < |StateAt(run, n).turns| && StateAt(run, n).turns[i].Running() && StateAt(run, n).turns[i].drafted
                 && (PhaseAt(run, n) == Idle || PhaseAt(run, n) == Dead)
        ensures Released(run, n, i, StateAt(run, n).turns[i].transcript)
      {
        DraftReleasedStep(run, n - 1, i);
      }
    }
  }

  lemma {:induction false} DraftReleasedStep(run: seq<Action>, n: nat, i: nat)
    requires n < |run| && PhaseAt(run, n) != Broken && Safe(StateAt(run, n), PhaseAt(run, n)) && DraftsReleased(run, n)
    requires PhaseAt(run, n + 1) == Idle || PhaseAt(run, n + 1) == Dead
    requires i < |StateAt(run, n + 1).turns|
    requires StateAt(run, n + 1).turns[i].Running() && StateAt(run, n + 1).turns[i].drafted
    ensures Released(run, n + 1, i, StateAt(run, n + 1).turns[i].transcript)
  {
    hide Step, Released, StateAt, PhaseAt, Safe;
    Next(run, n);
    LiveComesFrom(StateAt(run, n), run[n], i);
    if PhaseAt(run, n) == Idle || PhaseAt(run, n) == Dead {
      ReleasedStays(run, n, i, StateAt(run, n + 1).turns[i].transcript);
    } else {
      ReleaseNow(run, n, i);
    }
  }

  /** Leaving a prediction by its end, or by an error, releases the one live draft. */
  lemma {:induction false} ReleaseNow(run: seq<Action>, n: nat, i: nat)
    requires n < |run| && Safe(StateAt(run, n), PhaseAt(run, n))
    requires PhaseAt(run, n) == Listening || PhaseAt(run, n).Predicted?
    requires PhaseAt(run, n + 1) == Idle || PhaseAt(run, n + 1) == Dead
    requires i < |StateAt(run, n).turns| && StateAt(run, n).turns[i].Running()
    ensures Released(run, n + 1, i, StateAt(run, n).turns[i].transcript)
  {
    hide StateAt, PhaseAt, Step, GatedOnlyFrom, NothingGated, PastGate;
    Next(run, n);
  }

  /** A draft may be generated on a predicted end of turn, but what it streams reaches playout only
      after the recogniser committed exactly its transcript, or failed. */
  lemma {:induction false} DraftSpeaksOnlyWhenReleased(run: seq<Action>, i: nat, id: nat)
    requires i < |run| && PhaseAt(run, i) != Broken && run[i] == Enqueue(id)
    requires id < |StateAt(run, i).turns| && MayEnqueue(StateAt(run, i).turns[id])
    requires StateAt(run, i).turns[id].drafted && StateAt(run, i).turns[id].streamed
    ensures Released(run, i, id, StateAt(run, i).turns[id].transcript)
  {
    hide StateAt, PhaseAt, Released, GatedOnlyFrom, NothingGated;
    SafeAlways(run, i);
    DraftsReleasedAlways(run, i);
    assert PastGate(StateAt(run, i).turns[id]);
  }

  /** A draft whose stream was spoken dispatches its tools only after that, too. */
  lemma {:induction false} DraftActsOnlyWhenReleased(run: seq<Action>, i: nat, id: nat)
    requires i < |run| && PhaseAt(run, i) != Broken && run[i] == StreamEnded(id)
    requires id < |StateAt(run, i).turns| && Dispatches(StateAt(run, i).turns[id], run[i]) && StateAt(run, i).turns[id].drafted
    ensures Released(run, i, id, StateAt(run, i).turns[id].transcript)
  {
    hide StateAt, PhaseAt, Released, GatedOnlyFrom, NothingGated;
    SafeAlways(run, i);
    DraftsReleasedAlways(run, i);
    assert PastGate(StateAt(run, i).turns[id]);
  }

  /** Never two live turns; a closed gate means the only live turn is the pending draft. */
  lemma {:induction false} OneTurnAtATime(run: seq<Action>, n: nat, i: nat, j: nat)
    requires n <= |run| && PhaseAt(run, n) != Broken
    requires i < |StateAt(run, n).turns| && j < |StateAt(run, n).turns|
    requires StateAt(run, n).turns[i].Running() && StateAt(run, n).turns[j].Running()
    ensures i == j && StateAt(run, n).turn == Some(i)
    ensures !StateAt(run, n).commit ==> StateAt(run, n).draft == Some(i)
  {
    hide StateAt, PhaseAt, PastGate;
    SafeAlways(run, n);
  }

  lemma {:induction false} IdleIsOpen(s: State)
    requires Safe(s, Idle)
    ensures s.commit
  {
  }

  /** After a committed end the conversation holds a turn for exactly those words, with the gate open. */
  lemma {:induction false} EndIsAnswered(run: seq<Action>, n: nat, t: string)
    requires n < |run| && run[n] == Vendor(End(t)) && t != "" && PhaseAt(run, n + 1) != Broken
    ensures Answers(StateAt(run, n + 1), t) && StateAt(run, n + 1).commit
  {
    hide StateAt, PhaseAt, Safe, Step;
    Next(run, n);
    SafeAlways(run, n);
    SafeAlways(run, n + 1);
    SafeEnd(StateAt(run, n), PhaseAt(run, n), t);
    StepIsEvent(StateAt(run, n), End(t));
    IdleIsOpen(StateAt(run, n + 1));
  }

  /** While the caller may still be talking, nothing that had to pass the gate is queued; at any time
      such audio belongs to the turn the conversation holds. */
  lemma {:induction false} NothingSpokenOverTheCaller(run: seq<Action>, n: nat)
    requires n <= |run| && PhaseAt(run, n) != Broken
    ensures GatedOnlyFrom(StateAt(run, n).queue, StateAt(run, n).turn)
    ensures PhaseAt(run, n) == Listening || PhaseAt(run, n).Predicted? ==> NothingGated(StateAt(run, n).queue)
  {
    hide StateAt, PhaseAt, PastGate, OnlyLive;
    SafeAlways(run, n);
  }

  // --- nobody is left waiting --------------------------------------------------------

  predicate NobodyParked(s: State) { s.commit ==> forall i :: 0 <= i < |s.turns| ==> s.turns[i].pc != AtGate }

  lemma {:induction false} CancelParksNobody(s: State)
    requires Sane(s) && NobodyParked(s)
    ensures NobodyParked(CancelTurn(s)) && CancelTurn(s).commit == s.commit
  {
  }

  lemma {:induction false} OpenGateParksNobody(s: State)
    ensures NobodyParked(OpenGate(s)) && OpenGate(s).commit
  {
  }

  lemma {:induction false} BeginTurnParksNobody(s: State, t: string, drafted: bool)
    requires NobodyParked(s)
    ensures NobodyParked(BeginTurn(s, t, drafted))
  {
  }

  lemma {:induction false} EventParksNobody(s: State, ev: TurnEvent)
    requires Sane(s) && NobodyParked(s)
    ensures NobodyParked(OnEvent(s, ev))
  {
    hide CancelTurn, OpenGate, BeginTurn;
    match ev
    case Start => CancelParksNobody(s.(queue := []));
    case EagerEnd(t) => BeginTurnParksNobody(s.(draftFor := t, commit := false), t, true);
    case Resumed => OpenGateParksNobody(CancelTurn(s));
    case End(t) =>
      OpenGateParksNobody(s);
      OpenGateParksNobody(CancelTurn(s));
      BeginTurnParksNobody(OpenGate(s), t, false);
      BeginTurnParksNobody(OpenGate(CancelTurn(s)), t, false);
    case Error => OpenGateParksNobody(s.(failed := true));
  }

  lemma {:induction false} StepParksNobody(s: State, a: Action)
    requires Sane(s) && NobodyParked(s)
    ensures NobodyParked(Step(s, a))
  {
    hide OnEvent;
    if a.Vendor? {
      EventParksNobody(s, a.event);
    }
  }

  /** An open gate holds nobody back, whatever the vendor sends: a task waits only while it is closed. */
  lemma {:induction false} NobodyWaitsAtAnOpenGate(run: seq<Action>, n: nat)
    requires n <= |run|
    ensures NobodyParked(StateAt(run, n))
  {
    hide Step, NobodyParked, StateAt, PhaseAt;
    if n == 0 {
      First(run);
      FreshParksNobody();
    } else {
      Next(run, n - 1);
      NobodyWaitsAtAnOpenGate(run, n - 1);
      StepParksNobody(StateAt(run, n - 1), run[n - 1]);
    }
  }

  lemma {:induction false} FreshParksNobody()
    ensures NobodyParked(FRESH)
  {
  }

  /** So between rounds, and after the recogniser has failed, no turn is parked at the gate. */
  lemma {:induction false} NobodyIsLeftWaiting(run: seq<Action>, n: nat, i: nat)
    requires n <= |run| && i < |StateAt(run, n).turns|
    requires PhaseAt(run, n) == Idle || PhaseAt(run, n) == Dead || PhaseAt(run, n) == Listening
    ensures StateAt(run, n).turns[i].pc != AtGate
  {
    hide StateAt, PhaseAt, OnlyLive, GatedOnlyFrom, NothingGated;
    SafeAlways(run, n);
    NobodyWaitsAtAnOpenGate(run, n);
  }

  // --- what is heard and done on a mere prediction -----------------------------------

  /** What a stage says about the stream: nothing waits at the gate or speaks from the stream without a
      sentence, and the blocking reply is used only without one. */
  predicate StageFits(t: Turn) {
    && (t.pc == Replying ==> !t.streamed)
    && (t.pc == AtGate || t.pc == Woken || t.pc == Speaking ==> t.streamed)
  }

  predicate StagesFit(turns: seq<Turn>) { forall i :: 0 <= i < |turns| ==> StageFits(turns[i]) }

  lemma {:induction false} CancelKeepsStages(s: State)
    requires Sane(s) && StagesFit(s.turns)
    ensures StagesFit(CancelTurn(s).turns)
  {
  }

  lemma {:induction false} OpenGateKeepsStages(s: State)
    requires StagesFit(s.turns)
    ensures StagesFit(OpenGate(s).turns)
  {
  }

  lemma {:induction false} BeginTurnKeepsStages(s: State, t: string, drafted: bool)
    requires StagesFit(s.turns)
    ensures StagesFit(BeginTurn(s, t, drafted).turns)
  {
  }

  lemma {:induction false} StepKeepsStages(s: State, a: Action)
    requires Sane(s) && StagesFit(s.turns)
    ensures StagesFit(Step(s, a).turns)
  {
    if a.Vendor? {
      hide CancelTurn, OpenGate, BeginTurn, StagesFit;
      CancelKeepsStages(s);
      CancelKeepsStages(s.(queue := []));
      OpenGateKeepsStages(s);
      OpenGateKeepsStages(s.(failed := true));
      OpenGateKeepsStages(CancelTurn(s));
      match a.event
      case EagerEnd(t) => BeginTurnKeepsStages(s.(draftFor := t, commit := false), t, true);
      case End(t) =>
        BeginTurnKeepsStages(OpenGate(s), t, false);
        BeginTurnKeepsStages(OpenGate(CancelTurn(s)), t, false);
      case _ =>
    }
  }

  lemma {:induction false} StagesFitAlways(run: seq<Action>, n: nat)
    requires n <= |run|
    ensures StagesFit(StateAt(run, n).turns)
  {
    hide Step, StateAt, PhaseAt, StageFits;
    if n == 0 {
      First(run);
    } else {
      Next(run, n - 1);
      StagesFitAlways(run, n - 1);
      StepKeepsStages(StateAt(run, n - 1), run[n - 1]);
    }
  }

  /** The turn has fallen back on the blocking reply, which does not ask the gate. */
  predicate FellBack(t: Turn) { t.pc == Replying || (t.pc == Wrapping && !t.streamed) }

  /** While the caller may still be talking, a live turn is one that waits, generates or fell back. */
  lemma {:induction false} NotPastTheGate(s: State, p: Phase, id: nat)
    requires Safe(s, p) && (p == Listening || p.Predicted?) && StagesFit(s.turns)
    requires id < |s.turns| && s.turns[id].Running()
    ensures !PastGate(s.turns[id])
  {
    hide GatedOnlyFrom, NothingGated, StageFits;
  }

  /** Exactly when the agent says something on a mere prediction: audio is queued before the committed end
      if and only if its turn fell back on the blocking reply. */
  lemma {:induction false} HeardBeforeTheEndExactlyWhen(run: seq<Action>, n: nat, id: nat)
    requires n < |run| && run[n] == Enqueue(id) && (PhaseAt(run, n) == Listening || PhaseAt(run, n).Predicted?)
    ensures StateAt(run, n + 1).queue != StateAt(run, n).queue
       <==> id < |StateAt(run, n).turns| && FellBack(StateAt(run, n).turns[id])
  {
    hide StateAt, PhaseAt, Safe;
    Next(run, n);
    SafeAlways(run, n);
    StagesFitAlways(run, n);
    var s := StateAt(run, n);
    if id < |s.turns| && MayEnqueue(s.turns[id]) {
      NotPastTheGate(s, PhaseAt(run, n), id);
      assert StageFits(s.turns[id]);
    }
  }

  /** And exactly when it acts on one: tools are dispatched before the committed end if and only if their
      turn has just spoken the blocking reply. */
  lemma {:induction false} ActsBeforeTheEndExactlyWhen(run: seq<Action>, n: nat)
    requires n < |run| && (PhaseAt(run, n) == Listening || PhaseAt(run, n).Predicted?)
    ensures StateAt(run, n + 1).acted != StateAt(run, n).acted
       <==> run[n].Replied? && run[n].id < |StateAt(run, n).turns| && StateAt(run, n).turns[run[n].id].pc == Replying
  {
    hide StateAt, PhaseAt, Safe;
    Next(run, n);
    SafeAlways(run, n);
    StagesFitAlways(run, n);
    var s, a := StateAt(run, n), run[n];
    if a.StreamEnded? && a.id < |s.turns| && Dispatches(s.turns[a.id], a) {
      NotPastTheGate(s, PhaseAt(run, n), a.id);
    } else if a.Vendor? {
      EventsDispatchNothing(s, a.event);
    }
  }

  lemma {:induction false} EventsDispatchNothing(s: State, ev: TurnEvent)
    requires Sane(s)
    ensures OnEvent(s, ev).acted == s.acted
  {
  }

  // --- what the vendor's contract is needed for --------------------------------------

  predicate ClosesGate(s: State, a: Action) {
    a.Vendor? && a.event.EagerEnd? && !s.failed && a.event.transcript != "" && s.draft.None?
  }

  predicate OpensGate(s: State, a: Action) {
    a.Vendor? && !s.failed && (a.event.Resumed? || a.event.Error? || (a.event.End? && a.event.transcript != ""))
  }

  lemma {:induction false} GateStep(s: State, a: Action)
    requires Sane(s)
    ensures Step(s, a).commit == if OpensGate(s, a) then true else if ClosesGate(s, a) then false else s.commit
  {
    hide WakeAll;
  }

  /** An accepted eager end that nothing has answered since. */
  predicate Unanswered(run: seq<Action>, j: nat, n: nat)
    requires j < n <= |run|
  {
    ClosesGate(StateAt(run, j), run[j]) && forall k :: j < k < n ==> !OpensGate(StateAt(run, k), run[k])
  }

  /** Whatever the vendor sends: the gate is closed exactly since an accepted eager end after which came
      no end with words, no retraction and no error. An end without words does not open it. */
  lemma {:induction false} GateIsClosedExactlyWhen(run: seq<Action>, n: nat)
    requires n <= |run|
    ensures !StateAt(run, n).commit <==> exists j :: 0 <= j < n && Unanswered(run, j, n)
  {
    hide Step, StateAt, PhaseAt, OpensGate, ClosesGate;
    if n == 0 {
      First(run);
    } else {
      var m := n - 1;
      Next(run, m);
      GateIsClosedExactlyWhen(run, m);
      GateStep(StateAt(run, m), run[m]);
      OpeningIsNotClosing(StateAt(run, m), run[m]);
      if !StateAt(run, n).commit {
        if ClosesGate(StateAt(run, m), run[m]) {
          assert Unanswered(run, m, n);
        } else {
          var j :| 0 <= j < m && Unanswered(run, j, m);
          assert Unanswered(run, j, n);
        }
      }
      if j :| 0 <= j < n && Unanswered(run, j, n) {
        assert j < m ==> Unanswered(run, j, m);
      }
    }
  }

  lemma {:induction false} OpeningIsNotClosing(s: State, a: Action)
    ensures !(OpensGate(s, a) && ClosesGate(s, a))
  {
  }

  /** The event begins a turn beside one that is still live. */
  predicate StartsSecondTurn(s: State, ev: TurnEvent)
    requires Sane(s)
  {
    && !s.failed && s.turn.Some? && s.turns[s.turn.value].Running()
    && match ev
       case EagerEnd(t) => t != "" && s.draft.None?
       case End(t) => t != "" && (s.draft.None? || s.turns[s.draft.value].pc == Done)
       case _ => false
  }

  lemma {:induction false} BeginTurnLeavesOneExactlyWhen(s: State, t: string, drafted: bool)
    requires Sane(s) && OnlyLive(s, s.turn)
    ensures var r := BeginTurn(s, t, drafted);
      OnlyLive(r, r.turn) <==> !(s.turn.Some? && s.turns[s.turn.value].Running())
  {
    var r := BeginTurn(s, t, drafted);
    if s.turn.Some? && s.turns[s.turn.value].Running() {
      assert r.turns[s.turn.value].Running();
    }
  }

  /** Whatever the vendor sends: an event leaves at most one live turn exactly when it does not begin one
      beside a live turn, be it an eager end no start precedes or an end after an end. */
  lemma {:induction false} OneTurnStaysExactlyWhen(s: State, ev: TurnEvent)
    requires Sane(s) && OnlyLive(s, s.turn)
    ensures OnlyLive(OnEvent(s, ev), OnEvent(s, ev).turn) <==> !StartsSecondTurn(s, ev)
  {
    hide WakeAll, CancelTurn, BeginTurn, OpenGate, OnlyLive;
    if !s.failed {
      match ev
      case Start =>
        SameTurns(s, s.(queue := []));
        CancelLeavesNoneLive(s.(queue := []));
        NoneIsWeaker(OnEvent(s, ev));
      case EagerEnd(t) => EagerEndStaysExactlyWhen(s, t);
      case Resumed =>
        CancelLeavesNoneLive(s);
        OpenGateKeepsLive(CancelTurn(s), None);
        NoneIsWeaker(OnEvent(s, ev));
      case End(t) => EndStaysExactlyWhen(s, t);
      case Error =>
        SameTurns(s, s.(failed := true));
        OpenGateKeepsLive(s.(failed := true), s.turn);
    }
  }

  lemma {:induction false} EagerEndStaysExactlyWhen(s: State, t: string)
    requires Sane(s) && OnlyLive(s, s.turn) && !s.failed
    ensures OnlyLive(OnEvent(s, EagerEnd(t)), OnEvent(s, EagerEnd(t)).turn) <==> !StartsSecondTurn(s, EagerEnd(t))
  {
    hide OnlyLive, WakeAll, CancelTurn, OpenGate;
    var c := s.(draftFor := t, commit := false);
    SameTurns(s, c);
    BeginTurnLeavesOneExactlyWhen(c, t, true);
    SameTurns(BeginTurn(c, t, true), BeginTurn(c, t, true).(draft := Some(|s.turns|)));
  }

  lemma {:induction false} EndStaysExactlyWhen(s: State, t: string)
    requires Sane(s) && OnlyLive(s, s.turn) && !s.failed
    ensures OnlyLive(OnEvent(s, End(t)), OnEvent(s, End(t)).turn) <==> !StartsSecondTurn(s, End(t))
  {
    hide OnlyLive, WakeAll, CancelTurn, OpenGate, BeginTurn;
    OpenGateKeepsLive(s, s.turn);
    CancelLeavesNoneLive(s);
    OpenGateKeepsLive(CancelTurn(s), None);
    NoneIsWeaker(OpenGate(CancelTurn(s)));
    BeginTurnLeavesOneExactlyWhen(OpenGate(s), t, false);
    BeginTurnLeavesOneExactlyWhen(OpenGate(CancelTurn(s)), t, false);
    NoneRunning(OpenGate(CancelTurn(s)));
    SameRunning(s);
  }

  lemma {:induction false} NoneRunning(s: State)
    requires Sane(s) && OnlyLive(s, None)
    ensures !(s.turn.Some? && s.turns[s.turn.value].Running())
  {
  }

  lemma {:induction false} SameRunning(s: State)
    requires Sane(s)
    ensures OpenGate(s).turn == s.turn && OpenGate(s).draft == s.draft && |OpenGate(s).turns| == |s.turns|
    ensures s.turn.Some? ==> (OpenGate(s).turns[s.turn.value].Running() <==> s.turns[s.turn.value].Running())
  {
  }

  // --- runs that show where the promise ends -----------------------------------------

  /** A committed end without words, in breach of the contract, leaves the gate as it was: the draft
      stays parked at it. */
  lemma {:induction false} EmptyEndParksTheDraft(run: seq<Action>)
    requires run == [Vendor(Start), Vendor(EagerEnd("hi")), Sentence(0), Vendor(End(""))]
    ensures PhaseAt(run, 4) == Broken
    ensures !StateAt(run, 4).commit && StateAt(run, 4).turns == [Turn("hi", true, true, AtGate)]
  {
    hide StateAt, PhaseAt;
    First(run);
    Next(run, 0);
    Next(run, 1);
    assert StateAt(run, 2).turns == [Turn("hi", true, false, Generating)];
    Next(run, 2);
    assert StateAt(run, 3).turns == [Turn("hi", true, true, AtGate)];
    Next(run, 3);
  }

  /** The blocking reply of a draft whose stream gave nothing is not held at the gate: it is queued on
      a mere prediction, and stays queued when the caller turns out to be still talking. */
  lemma {:induction false} FallbackIgnoresTheGate(run: seq<Action>)
    requires run == [Vendor(Start), Vendor(EagerEnd("hi")), StreamEnded(0), Enqueue(0), Vendor(Resumed)]
    ensures PhaseAt(run, 5) == Listening
    ensures StateAt(run, 5).queue == [Sound(0, false)] && StateAt(run, 5).turns == [Turn("hi", true, false, Cancelled)]
  {
    hide StateAt, PhaseAt;
    First(run);
    Next(run, 0);
    Next(run, 1);
    assert StateAt(run, 2).turns == [Turn("hi", true, false, Generating)];
    Next(run, 2);
    assert StateAt(run, 3).turns == [Turn("hi", true, false, Replying)];
    FallbackStays(run);
  }

  lemma {:induction false} FallbackStays(run: seq<Action>)
    requires |run| == 5 && run[3] == Enqueue(0) && run[4] == Vendor(Resumed)
    requires StateAt(run, 3) == State([Turn("hi", true, false, Replying)], Some(0), Some(0), "hi", false, [], [], false)
    ensures StateAt(run, 5).queue == [Sound(0, false)] && StateAt(run, 5).turns == [Turn("hi", true, false, Cancelled)]
    ensures PhaseAt(run, 3) == Predicted("hi") ==> PhaseAt(run, 5) == Listening
  {
    hide StateAt, PhaseAt;
    Next(run, 3);
    Next(run, 4);
  }

  /** An eager end that no start precedes leaves two live turns. */
  lemma {:induction false} UnannouncedEagerEndMakesTwoTurns(run: seq<Action>)
    requires run == [Vendor(Start), Vendor(End("a")), Vendor(EagerEnd("b"))]
    ensures PhaseAt(run, 3) == Broken
    ensures StateAt(run, 3).turns == [Turn("a", false, false, Generating), Turn("b", true, false, Generating)]
  {
    hide StateAt, PhaseAt;
    First(run);
    Next(run, 0);
    Next(run, 1);
    assert StateAt(run, 2).turns == [Turn("a", false, false, Generating)];
    Next(run, 2);
  }

  /** So does an end that follows an end. */
  lemma {:induction false} SecondEndMakesTwoTurns(run: seq<Action>)
    requires run == [Vendor(Start), Vendor(End("a")), Vendor(End("b"))]
    ensures PhaseAt(run, 3) == Broken
    ensures StateAt(run, 3).turns == [Turn("a", false, false, Generating), Turn("b", false, false, Generating)]
  {
    hide StateAt, PhaseAt;
    First(run);
    Next(run, 0);
    Next(run, 1);
    assert StateAt(run, 2).turns == [Turn("a", false, false, Generating)];
    Next(run, 2);
  }

  // --- the source's class ------------------------------------------------------------

  class Conversation {
    var turns: seq<Turn>
    var turn: Option<nat>
    var draft: Option<nat>
    var draftFor: string
    var commit: bool
    var queue: seq<Sound>
    var acted: seq<nat>
    var failed: bool

    constructor ()
      ensures View() == FRESH
    {
      turns, turn, draft, draftFor, commit, queue, acted, failed := [], None, None, "", true, [], [], false;
    }

    ghost function View(): State
      reads this
    {
      State(turns, turn, draft, draftFor, commit, queue, acted, failed)
    }

    /** `_commit.set()`: every task waiting on the event is scheduled to run. */
    method SetCommit()
      modifies this
      ensures View() == OpenGate(old(View()))
    {
      commit := true;
      turns := WakeAll(turns);
    }

    method AbandonTurn()
      requires Sane(View())
      modifies this
      ensures View() == CancelTurn(old(View()))
    {
      if turn.Some? && turns[turn.value].Running() {
        turns := turns[turn.value := turns[turn.value].(pc := Cancelled)];
      }
      draft := None;
      draftFor := "";
    }

    method StartTurn(transcript: string, drafted: bool) returns (id: nat)
      modifies this
      ensures View() == BeginTurn(old(View()), transcript, drafted) && id == |old(turns)|
    {
      id := |turns|;
      turns := turns + [Turn(transcript, drafted, false, Generating)];
      turn := Some(id);
    }

    /** The body of the loop in `_pump_turn_events`. */
    method HandleEvent(ev: TurnEvent)
      requires Sane(View())
      modifies this
      ensures View() == OnEvent(old(View()), ev)
    {
      hide CancelTurn, OpenGate;
      if failed { return; }
      match ev {
        case Error =>
          failed := true;
          SetCommit();
        case Start =>
          queue := [];
          AbandonTurn();
        case EagerEnd(transcript) =>
          if transcript != "" && draft.None? {
            draftFor := transcript;
            commit := false;
            var id := StartTurn(transcript, true);
            draft := Some(id);
          }
        case Resumed =>
          AbandonTurn();
          SetCommit();
        case End(transcript) =>
          if transcript == "" { return; }
          if draft.Some? && turns[draft.value].pc != Done {
            if transcript == draftFor {
              SetCommit();
              return;
            }
            AbandonTurn();
          }
          SetCommit();
          var _ := StartTurn(transcript, false);
      }
    }

    /** Where one atomic step takes a task, and whether it dispatches its tools. */
    method Advance(t: Turn, a: Action) returns (u: Turn, dispatched: bool)
      requires !a.Vendor? && !a.Pump?
      ensures u == TurnStep(t, a, commit) && dispatched == Dispatches(t, a)
    {
      u, dispatched := t, false;
      match a {
        case Sentence(_) =>
          if t.pc == Generating { u := t.(streamed := true, pc := if commit then Speaking else AtGate); }
        case Resume(_) =>
          if t.pc == Woken { u := t.(pc := Speaking); }
        case SentenceDone(_) =>
          if t.pc == Speaking { u := t.(pc := Generating); }
        case StreamEnded(_) =>
          if t.pc == Generating {
            dispatched := t.streamed;
            u := t.(pc := if t.streamed then Wrapping else Replying);
          }
        case Replied(_) =>
          if t.pc == Replying {
            dispatched := true;
            u := t.(pc := Wrapping);
          }
        case Finish(_) =>
          if t.Running() { u := t.(pc := Done); }
        case _ =>
      }
    }

    /** One atomic step of a turn task, or one tick of playout. */
    method RunStep(a: Action)
      requires Sane(View()) && !a.Vendor?
      modifies this
      ensures View() == Step(old(View()), a)
    {
      hide TurnStep, Dispatches, MayEnqueue;
      if a.Pump? {
        if queue != [] {
          queue := queue[1..];
        }
        return;
      }
      if a.id >= |turns| { return; }
      var t := turns[a.id];
      if a.Enqueue? {
        if MayEnqueue(t) {
          queue := queue + [Sound(a.id, t.streamed)];
        }
        return;
      }
      var u, dispatched := Advance(t, a);
      turns := turns[a.id := u];
      if dispatched {
        acted := acted + [a.id];
      }
    }
  }
}
