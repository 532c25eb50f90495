module TurnLife {
  /** The life of one turn task in the conversation of EagerTurns.dfy (owen-voice/app/pipeline.py): what ends it,
      what it says, when its tools run. Nothing here needs the vendor to keep its contract. */

  import opened EagerTurns

  // --- what a turn lives through -----------------------------------------------------

  /** The vendor events that abandon the held turn: a start, a retraction, and a committed end with other
      words than the pending draft's. */
  predicate Abandons(s: State, ev: TurnEvent)
    requires Sane(s)
  {
    !s.failed
    && match ev
       case Start => true
       case Resumed => true
       case End(t) => t != "" && s.draft.Some? && s.turns[s.draft.value].pc != Done && t != s.draftFor
       case _ => false
  }

  /** What an event leaves of the turns that were there. */
  lemma {:induction false} EventLeaves(s: State, ev: TurnEvent, i: nat)
    requires Sane(s) && i < |s.turns|
    ensures i < |OnEvent(s, ev).turns|
    ensures var t, u := s.turns[i], OnEvent(s, ev).turns[i];
      && (t.Running() ==> (u.Running() <==> !(Abandons(s, ev) && s.turn == Some(i))))
      && (u.Running() && t.pc != AtGate ==> u.pc == t.pc)
  {
    var c := if ev.Start? then s.(queue := []) else s;
    CancelLeaves(c, i);
    OpenLeaves(s, i);
    OpenLeaves(s.(failed := true), i);
    OpenLeaves(CancelTurn(s), i);
    hide CancelTurn, OpenGate;
  }

  lemma {:induction false} CancelLeaves(s: State, i: nat)
    requires Sane(s) && i < |s.turns|
    ensures var t, u := s.turns[i], CancelTurn(s).turns[i];
      if s.turn == Some(i) && t.Running() then u == t.(pc := Cancelled) else u == t
  {
  }

  lemma {:induction false} OpenLeaves(s: State, i: nat)
    requires i < |s.turns|
    ensures |OpenGate(s).turns| == |s.turns| && OpenGate(s).turns[i] == Wake(s.turns[i])
  {
  }

  /** Over every run: a live turn stops being live exactly when it finishes, or when it is the held turn and
      the vendor abandons it. Nothing else ends a turn: not the gate, not speaking, not its tools. */
  lemma {:induction false} EndsExactlyWhen(run: seq<Action>, n: nat, i: nat)
    requires n < |run| && i < |StateAt(run, n).turns| && StateAt(run, n).turns[i].Running()
    ensures i < |StateAt(run, n + 1).turns|
    ensures !StateAt(run, n + 1).turns[i].Running() <==>
      run[n] == Finish(i)
      || (run[n].Vendor? && Abandons(StateAt(run, n), run[n].event) && StateAt(run, n).turn == Some(i))
  {
    hide StateAt, PhaseAt, OnEvent, Abandons;
    Next(run, n);
    if run[n].Vendor? {
      EventLeaves(StateAt(run, n), run[n].event, i);
    }
  }

  /** A cancelled task never executes another step, and a finished one neither. */
  lemma {:induction false} DeadTurnsStayAsTheyAre(run: seq<Action>, n: nat, i: nat)
    requires n < |run| && i < |StateAt(run, n).turns| && !StateAt(run, n).turns[i].Running()
    ensures i < |StateAt(run, n + 1).turns| && StateAt(run, n + 1).turns[i] == StateAt(run, n).turns[i]
  {
    hide StateAt, PhaseAt, OnEvent;
    Next(run, n);
    if run[n].Vendor? {
      EventLeavesTheDead(StateAt(run, n), run[n].event, i);
    }
  }

  lemma {:induction false} EventLeavesTheDead(s: State, ev: TurnEvent, i: nat)
    requires Sane(s) && i < |s.turns| && !s.turns[i].Running()
    ensures i < |OnEvent(s, ev).turns| && OnEvent(s, ev).turns[i] == s.turns[i]
  {
    CancelLeaves(if ev.Start? then s.(queue := []) else s, i);
    OpenLeaves(s, i);
    OpenLeaves(s.(failed := true), i);
    OpenLeaves(CancelTurn(s), i);
    hide CancelTurn, OpenGate;
  }

  /** What tasks and playout leave of a turn: only its own steps move it. */
  lemma {:induction false} OthersLeave(s: State, a: Action, i: nat)
    requires Sane(s) && i < |s.turns| && !a.Vendor? && (a.Pump? || a.Enqueue? || a.id != i)
    ensures i < |Step(s, a).turns| && Step(s, a).turns[i] == s.turns[i]
  {
  }

  /** Step `k` does not take turn `id` away from speaking: it stays live and ends no sentence. */
  predicate SpeaksOn(run: seq<Action>, k: nat, id: nat)
    requires k < |run|
  {
    run[k] != SentenceDone(id) && id < |StateAt(run, k + 1).turns| && StateAt(run, k + 1).turns[id].Running()
  }

  predicate KeepsSpeaking(run: seq<Action>, j: nat, n: nat, id: nat)
    requires j <= n <= |run|
  {
    forall k :: j <= k < n ==> SpeaksOn(run, k, id)
  }

  lemma {:induction false} WokenStep(run: seq<Action>, k: nat, id: nat)
    requires k < |run| && id < |StateAt(run, k).turns| && StagesFit(StateAt(run, k).turns)
    requires StateAt(run, k).turns[id].pc == Woken || StateAt(run, k).turns[id].pc == Speaking
    requires SpeaksOn(run, k, id)
    ensures StateAt(run, k + 1).turns[id].pc == if run[k] == Resume(id) then Speaking else StateAt(run, k).turns[id].pc
    ensures StateAt(run, k + 1).turns[id].streamed == StateAt(run, k).turns[id].streamed
  {
    hide StateAt, PhaseAt, OnEvent, StagesFit;
    Next(run, k);
    var s, a := StateAt(run, k), run[k];
    if a.Vendor? {
      EventLeaves(s, a.event, id);
      EventKeepsStreamed(s, a.event, id);
    } else if a.Pump? || a.Enqueue? || a.id != id {
      OthersLeave(s, a, id);
    }
  }

  lemma {:induction false} EventKeepsStreamed(s: State, ev: TurnEvent, i: nat)
    requires Sane(s) && i < |s.turns|
    ensures i < |OnEvent(s, ev).turns| && OnEvent(s, ev).turns[i].streamed == s.turns[i].streamed
  {
    var c := if ev.Start? then s.(queue := []) else s;
    CancelLeaves(c, i);
    OpenLeaves(s, i);
    OpenLeaves(s.(failed := true), i);
    OpenLeaves(CancelTurn(s), i);
    hide CancelTurn, OpenGate;
  }

  predicate ResumedWithin(run: seq<Action>, j: nat, n: nat, id: nat)
    requires j <= n <= |run|
  {
    exists k :: j <= k < n && run[k] == Resume(id)
  }

  lemma {:induction false} WokenThenSpeaking(run: seq<Action>, j: nat, n: nat, id: nat)
    requires j <= n <= |run| && KeepsSpeaking(run, j, n, id)
    requires id < |StateAt(run, j).turns| && StateAt(run, j).turns[id].pc == Woken
    ensures id < |StateAt(run, n).turns| && StateAt(run, n).turns[id].streamed
    ensures StateAt(run, n).turns[id].pc == if ResumedWithin(run, j, n, id) then Speaking else Woken
    decreases n
  {
    hide StateAt, PhaseAt, StageFits, KeepsSpeaking, ResumedWithin, SpeaksOn;
    if j == n {
      StagesFitAlways(run, j);
      WokenFits(StateAt(run, j).turns[id]);
      NeverResumed(run, j, id);
    } else {
      OneStepLess(run, j, n, id);
      WokenThenSpeaking(run, j, n - 1, id);
      StagesFitAlways(run, n - 1);
      WokenStep(run, n - 1, id);
    }
  }

  lemma {:induction false} NeverResumed(run: seq<Action>, j: nat, id: nat)
    requires j <= |run|
    ensures !ResumedWithin(run, j, j, id)
  {
  }

  lemma {:induction false} OneStepLess(run: seq<Action>, j: nat, n: nat, id: nat)
    requires j < n <= |run| && KeepsSpeaking(run, j, n, id)
    ensures KeepsSpeaking(run, j, n - 1, id)
    ensures SpeaksOn(run, n - 1, id) && id < |StateAt(run, n).turns|
    ensures ResumedWithin(run, j, n, id) <==> ResumedWithin(run, j, n - 1, id) || run[n - 1] == Resume(id)
  {
    hide StateAt, PhaseAt;
    assert SpeaksOn(run, n - 1, id);
    hide SpeaksOn;
  }

  lemma {:induction false} WokenFits(t: Turn)
    requires StageFits(t) && t.pc == Woken
    ensures t.streamed
  {
  }

  /** A turn that waited at the gate speaks: from the moment it is released, whatever happens around it, once
      it has run again each piece of audio it enqueues is heard as its own. */
  lemma {:induction false} ReleasedTurnSpeaks(run: seq<Action>, j: nat, n: nat, id: nat)
    requires j < n < |run| && id < |StateAt(run, j).turns| && StateAt(run, j).turns[id].pc == Woken
    requires KeepsSpeaking(run, j, n, id) && ResumedWithin(run, j, n, id) && run[n] == Enqueue(id)
    ensures StateAt(run, n + 1).queue == StateAt(run, n).queue + [Sound(id, true)]
  {
    hide StateAt, PhaseAt, KeepsSpeaking, ResumedWithin;
    WokenThenSpeaking(run, j, n, id);
    Next(run, n);
  }

  /** And opening the gate releases it: a live draft at the gate whose own end is committed has been woken. */
  lemma {:induction false} EndReleasesTheDraft(run: seq<Action>, n: nat, id: nat)
    requires n < |run| && id < |StateAt(run, n).turns| && StateAt(run, n).turns[id].pc == AtGate
    requires run[n].Vendor? && OpensGate(StateAt(run, n), run[n])
    requires !(Abandons(StateAt(run, n), run[n].event) && StateAt(run, n).turn == Some(id))
    ensures id < |StateAt(run, n + 1).turns| && StateAt(run, n + 1).turns[id].pc == Woken
  {
    hide StateAt, PhaseAt, CancelTurn, OpenGate;
    Next(run, n);
    var s := StateAt(run, n);
    CancelLeaves(s, id);
    OpenLeaves(s, id);
    OpenLeaves(s.(failed := true), id);
    OpenLeaves(CancelTurn(s), id);
  }

  // --- a turn's tools and the caller's ears ------------------------------------------

  function TimesActed(acted: seq<nat>, i: nat): nat { multiset(acted)[i] }

  /** A turn's tools have been dispatched exactly once when it wraps up, never before, and never twice. */
  predicate ActedFits(t: Turn, times: nat) {
    if t.pc == Wrapping then times == 1 else if t.Running() then times == 0 else times <= 1
  }

  ghost predicate AllActedFit(s: State) {
    && (forall i :: 0 <= i < |s.turns| ==> ActedFits(s.turns[i], TimesActed(s.acted, i)))
    && (forall i: nat :: i >= |s.turns| ==> TimesActed(s.acted, i) == 0)
  }

  lemma {:induction false} TurnStepActs(t: Turn, a: Action, commit: bool, times: nat)
    requires ActedFits(t, times)
    ensures ActedFits(TurnStep(t, a, commit), times + if Dispatches(t, a) then 1 else 0)
  {
  }

  lemma {:induction false} OneMoreActed(acted: seq<nat>, id: nat, i: nat)
    ensures TimesActed(acted + [id], i) == TimesActed(acted, i) + if i == id then 1 else 0
  {
  }

  lemma {:induction false} TaskStepActs(s: State, a: Action)
    requires Sane(s) && AllActedFit(s) && !a.Vendor? && !a.Pump? && !a.Enqueue?
    ensures AllActedFit(Step(s, a))
  {
    hide TimesActed, ActedFits, TurnStep, Dispatches;
    var r := Step(s, a);
    if a.id < |s.turns| {
      TurnStepActs(s.turns[a.id], a, s.commit, TimesActed(s.acted, a.id));
      forall i: nat
        ensures TimesActed(s.acted + [a.id], i) == TimesActed(s.acted, i) + if i == a.id then 1 else 0
      {
        OneMoreActed(s.acted, a.id, i);
      }
    }
  }

  lemma {:induction false} EventActs(s: State, ev: TurnEvent)
    requires Sane(s) && AllActedFit(s)
    ensures AllActedFit(OnEvent(s, ev))
  {
    hide TimesActed;
    var r := OnEvent(s, ev);
    EventsDispatchNothing(s, ev);
    EventGrows(s, ev);
    hide OnEvent;
    forall i | 0 <= i < |r.turns|
      ensures ActedFits(r.turns[i], TimesActed(r.acted, i))
    {
      if i < |s.turns| {
        EventLeaves(s, ev, i);
        EventKeepsUnacted(s, ev, i);
      }
    }
  }

  lemma {:induction false} EventGrows(s: State, ev: TurnEvent)
    requires Sane(s)
    ensures var r := OnEvent(s, ev);
      && |s.turns| <= |r.turns|
      && forall i :: |s.turns| <= i < |r.turns| ==> r.turns[i].pc == Generating
  {
    hide WakeAll;
  }

  lemma {:induction false} EventKeepsUnacted(s: State, ev: TurnEvent, i: nat)
    requires Sane(s) && i < |s.turns|
    ensures i < |OnEvent(s, ev).turns|
    ensures OnEvent(s, ev).turns[i].Running() ==> s.turns[i].Running()
    ensures s.turns[i].pc == AtGate && OnEvent(s, ev).turns[i].Running() ==> OnEvent(s, ev).turns[i].pc in {AtGate, Woken}
  {
    var c := if ev.Start? then s.(queue := []) else s;
    CancelLeaves(c, i);
    OpenLeaves(s, i);
    OpenLeaves(s.(failed := true), i);
    OpenLeaves(CancelTurn(s), i);
    hide CancelTurn, OpenGate;
  }

  /** Over every run: each turn's tools are dispatched at most once, after its reply, and a turn that wraps
      up has dispatched them. */
  lemma {:induction false} ToolsAreDispatchedOnce(run: seq<Action>, n: nat)
    requires n <= |run|
    ensures AllActedFit(StateAt(run, n))
  {
    hide Step, StateAt, PhaseAt, ActedFits, TimesActed, OnEvent;
    if n == 0 {
      First(run);
      NobodyActed();
    } else {
      Next(run, n - 1);
      ToolsAreDispatchedOnce(run, n - 1);
      var s, a := StateAt(run, n - 1), run[n - 1];
      if a.Vendor? {
        EventActs(s, a.event);
        StepIsEvent(s, a.event);
      } else if a.Pump? || a.Enqueue? {
        HearingActsNothing(s, a);
      } else {
        TaskStepActs(s, a);
      }
    }
  }

  lemma {:induction false} NobodyActed()
    ensures AllActedFit(FRESH)
  {
  }

  lemma {:induction false} HearingActsNothing(s: State, a: Action)
    requires Sane(s) && (a.Pump? || a.Enqueue?)
    ensures Step(s, a).turns == s.turns && Step(s, a).acted == s.acted
  {
  }

  /** An enqueue by a turn that is speaking, in its blocking reply or wrapping up says one piece. */
  function SaidNow(s: State, a: Action): seq<Sound> {
    if a.Enqueue? && a.id < |s.turns| && s.turns[a.id].pc in {Speaking, Replying, Wrapping}
    then [Sound(a.id, s.turns[a.id].streamed)] else []
  }

  /** A barge-in empties the queue, a tick takes one. */
  function WaitsNow(s: State, a: Action, waiting: nat): nat {
    if a == Vendor(Start) && !s.failed then 0 else if a.Pump? && waiting > 0 then waiting - 1 else waiting
  }

  /** Everything ever said, in order. */
  function Said(run: seq<Action>, n: nat): seq<Sound>
    requires n <= |run|
  {
    if n == 0 then [] else Said(run, n - 1) + SaidNow(StateAt(run, n - 1), run[n - 1])
  }

  /** How many pieces of it wait. */
  function Waiting(run: seq<Action>, n: nat): nat
    requires n <= |run|
  {
    if n == 0 then 0
    else
      var s, a := StateAt(run, n - 1), run[n - 1];
      WaitsNow(s, a, Waiting(run, n - 1) + |SaidNow(s, a)|)
  }

  lemma {:induction false} HearStep(s: State, a: Action)
    requires Sane(s)
    ensures var q, r := s.queue, Step(s, a).queue;
      if a == Vendor(Start) && !s.failed then r == []
      else if a.Pump? && q != [] then r == q[1..]
      else r == q + SaidNow(s, a)
  {
    hide WakeAll;
    Whole(s.queue);
  }

  /** The queue after a step, given what was said and how many of it waited. */
  lemma {:induction false} HearNewest(s: State, a: Action, said: seq<Sound>)
    requires Sane(s) && |s.queue| <= |said| && s.queue == said[|said| - |s.queue|..]
    ensures var r := Step(s, a).queue; var more := SaidNow(s, a);
      && |r| == WaitsNow(s, a, |s.queue| + |more|)
      && |r| <= |said + more| && r == (said + more)[|said + more| - |r|..]
  {
    HearStep(s, a);
    hide Step;
    var q, r, more := s.queue, Step(s, a).queue, SaidNow(s, a);
    if a == Vendor(Start) && !s.failed {
      Whole(said);
    } else if more != [] {
      Tail(said, q, more);
    } else {
      Whole(said);
      if a.Pump? && q != [] {
        assert q[1..] == said[|said| - |q| + 1..];
      }
    }
  }

  lemma {:induction false} Whole(s: seq<Sound>)
    ensures s + [] == s && s[|s|..] == []
  {
  }

  lemma {:induction false} Tail(said: seq<Sound>, q: seq<Sound>, more: seq<Sound>)
    requires |q| <= |said| && q == said[|said| - |q|..]
    ensures q + more == (said + more)[|said + more| - |q + more|..]
  {
  }

  /** Over every run the queue is first in, first out: it holds the newest of what was said, as many as
      barge-ins and ticks have left. */
  lemma {:induction false} QueueIsTheNewest(run: seq<Action>, n: nat)
    requires n <= |run|
    ensures var said, q := Said(run, n), StateAt(run, n).queue;
      |q| == Waiting(run, n) && |q| <= |said| && q == said[|said| - |q|..]
  {
    hide Step, StateAt, PhaseAt, Said, Waiting, SaidNow, WaitsNow;
    if n == 0 {
      First(run);
      NothingSaid(run);
    } else {
      QueueIsTheNewest(run, n - 1);
      Next(run, n - 1);
      SaidNext(run, n - 1);
      HearNewest(StateAt(run, n - 1), run[n - 1], Said(run, n - 1));
    }
  }

  lemma {:induction false} NothingSaid(run: seq<Action>)
    ensures Said(run, 0) == [] && Waiting(run, 0) == 0
  {
  }

  lemma {:induction false} SaidNext(run: seq<Action>, n: nat)
    requires n < |run|
    ensures var s, a := StateAt(run, n), run[n];
      && Said(run, n + 1) == Said(run, n) + SaidNow(s, a)
      && Waiting(run, n + 1) == WaitsNow(s, a, Waiting(run, n) + |SaidNow(s, a)|)
  {
    hide StateAt, PhaseAt;
  }

  // --- a reply from beginning to end -------------------------------------------------

  function Apply(s: State, acts: seq<Action>): (r: State)
    requires Sane(s)
    ensures Sane(r)
    decreases |acts|
  {
    if acts == [] then s else Apply(Step(s, acts[0]), acts[1..])
  }

  lemma {:induction false} ApplyAppend(s: State, a: seq<Action>, b: seq<Action>)
    requires Sane(s)
    ensures Apply(s, a + b) == Apply(Apply(s, a), b)
    decreases |a|
  {
    hide Step;
    if a == [] {
      assert a + b == b;
    } else {
      assert (a + b)[1..] == a[1..] + b && (a + b)[0] == a[0];
      ApplyAppend(Step(s, a[0]), a[1..], b);
    }
  }

  lemma {:induction false} ApplyOne(s: State, a: Action)
    requires Sane(s)
    ensures Apply(s, [a]) == Step(s, a)
  {
    hide Step;
    assert [a][1..] == [];
  }

  function Enqueues(id: nat, pieces: nat): seq<Action> { seq(pieces, _ => Enqueue(id)) }

  function Pieces(id: nat, gated: bool, pieces: nat): (r: seq<Sound>)
    ensures |r| == pieces
  {
    seq(pieces, _ => Sound(id, gated))
  }

  lemma {:induction false} OnePieceMore(id: nat, gated: bool, pieces: nat)
    ensures Enqueues(id, pieces + 1) == [Enqueue(id)] + Enqueues(id, pieces)
    ensures Pieces(id, gated, pieces + 1) == [Sound(id, gated)] + Pieces(id, gated, pieces)
    ensures Enqueues(id, 0) == [] && Pieces(id, gated, 0) == []
  {
  }

  lemma {:induction false} PiecesAreHeard(s: State, id: nat, pieces: nat)
    requires Sane(s) && id < |s.turns| && s.turns[id].pc in {Speaking, Replying}
    ensures Apply(s, Enqueues(id, pieces)) == s.(queue := s.queue + Pieces(id, s.turns[id].streamed, pieces))
    decreases pieces
  {
    var gated := s.turns[id].streamed;
    hide Enqueues, Pieces;
    if pieces == 0 {
      OnePieceMore(id, gated, 0);
      Whole(s.queue);
    } else {
      OnePieceMore(id, gated, pieces - 1);
      var r := Step(s, Enqueue(id));
      assert r == s.(queue := s.queue + [Sound(id, gated)]);
      PiecesAreHeard(r, id, pieces - 1);
      ApplyAppend(s, [Enqueue(id)], Enqueues(id, pieces - 1));
      ApplyOne(s, Enqueue(id));
      assert s.queue + [Sound(id, gated)] + Pieces(id, gated, pieces - 1) == s.queue + Pieces(id, gated, pieces);
    }
  }

  /** A sentence is taken, spoken in some number of pieces, and done. */
  function SentenceScript(id: nat, pieces: nat): seq<Action> { [Sentence(id)] + Enqueues(id, pieces) + [SentenceDone(id)] }

  lemma {:induction false} SentenceIsHeard(s: State, id: nat, pieces: nat)
    requires Sane(s) && s.commit && id < |s.turns| && s.turns[id].pc == Generating
    ensures Apply(s, SentenceScript(id, pieces))
         == s.(queue := s.queue + Pieces(id, true, pieces), turns := s.turns[id := s.turns[id].(streamed := true)])
  {
    var s1 := Step(s, Sentence(id));
    assert s1.turns == s.turns[id := s.turns[id].(streamed := true, pc := Speaking)];
    PiecesAreHeard(s1, id, pieces);
    var s2 := Apply(s1, Enqueues(id, pieces));
    ApplyAppend(s, [Sentence(id)] + Enqueues(id, pieces), [SentenceDone(id)]);
    ApplyAppend(s, [Sentence(id)], Enqueues(id, pieces));
    ApplyOne(s, Sentence(id));
    ApplyOne(s2, SentenceDone(id));
    assert Step(s2, SentenceDone(id)).turns == s.turns[id := s.turns[id].(streamed := true)];
  }

  function ReplyScript(id: nat, pieces: seq<nat>): seq<Action> {
    if pieces == [] then [] else SentenceScript(id, pieces[0]) + ReplyScript(id, pieces[1..])
  }

  function Total(pieces: seq<nat>): nat { if pieces == [] then 0 else pieces[0] + Total(pieces[1..]) }

  lemma {:induction false} PiecesAdd(id: nat, a: nat, b: nat)
    ensures Pieces(id, true, a) + Pieces(id, true, b) == Pieces(id, true, a + b)
  {
  }

  /** With the gate open a reply of any number of sentences, each of any number of pieces, is heard in full
      and in order. */
  lemma {:induction false} WholeReplyIsHeard(s: State, id: nat, pieces: seq<nat>)
    requires Sane(s) && s.commit && id < |s.turns| && s.turns[id].pc == Generating
    ensures var streamed := s.turns[id].streamed || pieces != [];
      Apply(s, ReplyScript(id, pieces))
        == s.(queue := s.queue + Pieces(id, true, Total(pieces)), turns := s.turns[id := s.turns[id].(streamed := streamed)])
    decreases |pieces|
  {
    hide SentenceScript, Pieces, Step;
    if pieces == [] {
      OnePieceMore(id, true, 0);
      Whole(s.queue);
      assert s.turns[id := s.turns[id]] == s.turns;
    } else {
      SentenceIsHeard(s, id, pieces[0]);
      var r := Apply(s, SentenceScript(id, pieces[0]));
      WholeReplyIsHeard(r, id, pieces[1..]);
      ApplyAppend(s, SentenceScript(id, pieces[0]), ReplyScript(id, pieces[1..]));
      PiecesAdd(id, pieces[0], Total(pieces[1..]));
      assert s.queue + Pieces(id, true, pieces[0]) + Pieces(id, true, Total(pieces[1..]))
          == s.queue + (Pieces(id, true, pieces[0]) + Pieces(id, true, Total(pieces[1..])));
    }
  }

  /** Then the tools are dispatched, once, and the turn ends. */
  lemma {:induction false} TurnWrapsUp(s: State, id: nat)
    requires Sane(s) && id < |s.turns| && s.turns[id].pc == Generating && s.turns[id].streamed
    ensures Apply(s, [StreamEnded(id), Finish(id)])
         == s.(acted := s.acted + [id], turns := s.turns[id := s.turns[id].(pc := Done)])
  {
    var r := Step(s, StreamEnded(id));
    assert [StreamEnded(id), Finish(id)] == [StreamEnded(id)] + [Finish(id)];
    ApplyAppend(s, [StreamEnded(id)], [Finish(id)]);
    ApplyOne(s, StreamEnded(id));
    ApplyOne(r, Finish(id));
    assert Step(r, Finish(id)).turns == s.turns[id := s.turns[id].(pc := Done)];
  }

  function FallbackScript(id: nat, pieces: nat): seq<Action> { [StreamEnded(id)] + Enqueues(id, pieces) + [Replied(id)] }

  /** A stream without a sentence is followed by the blocking reply, heard in full whatever the gate says,
      and then by the tools. */
  lemma {:induction false} FallbackIsHeard(s: State, id: nat, pieces: nat)
    requires Sane(s) && id < |s.turns| && s.turns[id].pc == Generating && !s.turns[id].streamed
    ensures Apply(s, FallbackScript(id, pieces))
         == s.(queue := s.queue + Pieces(id, false, pieces), acted := s.acted + [id],
               turns := s.turns[id := s.turns[id].(pc := Wrapping)])
  {
    var s1 := Step(s, StreamEnded(id));
    PiecesAreHeard(s1, id, pieces);
    var s2 := Apply(s1, Enqueues(id, pieces));
    ApplyAppend(s, [StreamEnded(id)] + Enqueues(id, pieces), [Replied(id)]);
    ApplyAppend(s, [StreamEnded(id)], Enqueues(id, pieces));
    ApplyOne(s, StreamEnded(id));
    ApplyOne(s2, Replied(id));
    assert Step(s2, Replied(id)).turns == s.turns[id := s.turns[id].(pc := Wrapping)];
  }
}
