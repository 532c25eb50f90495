/** The realtime voice agent's event loop and reconnect loop (backend/app/agents/openai_realtime.py). */
module Realtime {
  import opened Bytes
  import Text = Speakable

  datatype Option<T> = None | Some(value: T)

  /** The ports a session may return. */
  datatype Port = Transfer | EndCall | Default | Failed

  // --- tools -------------------------------------------------------------------------

  type Args = map<string, string>

  datatype Sms = Sms(to: string, body: string)

  datatype Outcome = Exit(port: Port) | Capture(lead: Args) | Message(sms: Sms) | Rejected

  function Get(args: Args, key: string): string { if key in args then args[key] else "" }

  function Or(a: string, b: string): string { if a != "" then a else b }

  function Filled(args: Args): Args { map k | k in args && args[k] != "" :: args[k] }

  /** `dispatch_tool`: only enabled tools run, and only the four with a branch do anything. */
  function Dispatch(name: string, args: Args, enabled: set<string>, caller: string): Outcome {
    if name !in enabled then Rejected
    else if name == "transfer" then Exit(Transfer)
    else if name == "end_call" then Exit(EndCall)
    else if name == "capture_lead" then Capture(Filled(args))
    else if name == "send_sms" then
      var to := Text.Strip(Or(Get(args, "to"), caller));
      var body := Text.Strip(Or(Get(args, "body"), Get(args, "message")));
      if to == "" || body == "" then Rejected else Message(Sms(to, body))
    else Rejected
  }

  /** The number the model gave, or the caller's; the text under either of its two names. */
  function Recipient(args: Args, caller: string): string {
    if "to" in args && args["to"] != "" then args["to"] else caller
  }

  function TextOf(args: Args): string {
    if "body" in args && args["body"] != "" then args["body"] else if "message" in args then args["message"] else ""
  }

  predicate HasRecipientAndText(args: Args, caller: string) {
    Text.Words(Recipient(args, caller)) != "" && Text.Words(TextOf(args)) != ""
  }

  predicate Sendable(m: Sms) { m.to != "" && m.body != "" && Text.Trimmed(m.to) && Text.Trimmed(m.body) }

  /** No tool acts unless it is enabled, only the two exit tools end the call, and a message that is
      accepted has a trimmed, non-empty recipient and text. */
  lemma {:induction false} OnlyEnabledToolsAct(name: string, args: Args, enabled: set<string>, caller: string)
    ensures var o := Dispatch(name, args, enabled, caller);
      && (o.Rejected? || name in enabled)
      && (o.Exit? <==> name in enabled && (name == "transfer" || name == "end_call"))
      && (o.Exit? ==> o.port == if name == "transfer" then Transfer else EndCall)
      && (o.Capture? <==> name in enabled && name == "capture_lead")
      && (o.Capture? ==> forall k :: (k in o.lead <==> k in args && args[k] != "") && (k in o.lead ==> o.lead[k] == args[k]))
      && (o.Message? ==> name == "send_sms" && Sendable(o.sms) && Text.Words(o.sms.to) == Text.Words(Recipient(args, caller))
                         && Text.Words(o.sms.body) == Text.Words(TextOf(args)))
      && (name in enabled && name == "send_sms" && HasRecipientAndText(args, caller) ==> o.Message?)
  {
    NoWordsInNothing();
    hide Text.Strip, Text.Words, Text.Trimmed;
    Text.StripKeepsWords(Recipient(args, caller));
    Text.StripKeepsWords(TextOf(args));
  }

  lemma {:induction false} NoWordsInNothing()
    ensures Text.Words("") == ""
  {
  }

  // --- one connection ----------------------------------------------------------------

  /** A normalized event; `Other` is a tick or an unknown type, `Garbage` is not an event at all.
      `replyLost`: handing the tool's result back to the model fails. */
  datatype Event =
    | Speech(at: real, fromCaller: bool, text: string)
    | ToolCall(at: real, name: string, args: Args, replyLost: bool)
    | TransportError(at: real)
    | Other(at: real)
    | Garbage

  /** How the event stream goes on after its last event. */
  datatype Ending = Hangup | Dropped

  datatype Limits = Limits(maxCall: Option<real>, maxSilence: Option<real>)

  datatype Config = Config(limits: Limits, enabled: set<string>, caller: string)

  datatype Segment = Segment(fromCaller: bool, text: string)

  /** What a session accumulates; it survives a dropped connection. */
  datatype Record = Record(transcript: seq<Segment>, captured: Option<Args>, outbox: seq<Sms>)

  datatype Result = Returned(port: Port) | Raised

  /** `guardrail_port` */
  predicate Trips(limits: Limits, elapsed: real, silence: real) {
    (limits.maxCall.Some? && elapsed >= limits.maxCall.value) || (limits.maxSilence.Some? && silence >= limits.maxSilence.value)
  }

  /** `TranscriptAssembler.add` */
  function AddSpeech(r: Record, fromCaller: bool, text: string): Record {
    var clean := Text.Strip(text);
    if clean == "" then r else r.(transcript := r.transcript + [Segment(fromCaller, clean)])
  }

  /** `_merge_tool_data`: messages accumulate, everything else is last write wins. */
  function Merge(r: Record, o: Outcome): Record {
    match o
    case Capture(lead) => r.(captured := Some(lead))
    case Message(sms) => r.(outbox := r.outbox + [sms])
    case _ => r
  }

  /** The loop's own variables: nothing before the first event. */
  datatype Clock = Unset | Running(start: real, lastActivity: real)

  /** The loop of `_drive` from one event on. */
  function Drive(cfg: Config, clock: Clock, r: Record, es: seq<Event>, ending: Ending): (Result, Record)
    decreases |es|
  {
    if es == [] then (if ending == Hangup then Returned(Default) else Raised, r)
    else
      var e := es[0];
      if e.Garbage? then Drive(cfg, clock, r, es[1..], ending)
      else
        var c := if clock.Unset? then Running(e.at, e.at) else clock;
        if Trips(cfg.limits, e.at - c.start, e.at - c.lastActivity) then (Returned(EndCall), r)
        else
          match e
          case TransportError(_) => (Raised, r)
          case Speech(at, who, text) => Drive(cfg, c.(lastActivity := at), AddSpeech(r, who, text), es[1..], ending)
          case ToolCall(at, name, args, lost) =>
            var o := Dispatch(name, args, cfg.enabled, cfg.caller);
            if o.Exit? then (Returned(o.port), r)
            else if lost then (Raised, Merge(r, o))
            else Drive(cfg, c.(lastActivity := at), Merge(r, o), es[1..], ending)
          case Other(_) => Drive(cfg, c, r, es[1..], ending)
  }

  // --- the same, said without a loop -------------------------------------------------

  predicate Timed(e: Event) { !e.Garbage? }
  predicate Active(e: Event) { e.Speech? || e.ToolCall? }

  /** The time of the first event. */
  function StartTime(es: seq<Event>): real {
    if es == [] then 0.0 else if Timed(es[0]) then es[0].at else StartTime(es[1..])
  }

  /** The time of the last speech or tool call. */
  function LastActive(es: seq<Event>): Option<real> {
    if es == [] then None
    else if Active(es[|es| - 1]) then Some(es[|es| - 1].at)
    else LastActive(es[..|es| - 1])
  }

  /** How long nobody has spoken or acted when event `i` comes: ticks do not count as activity. */
  function SilenceAt(es: seq<Event>, i: nat): real
    requires i < |es| && Timed(es[i])
  {
    var last := LastActive(es[..i]);
    es[i].at - if last.Some? then last.value else StartTime(es)
  }

  predicate LimitReached(cfg: Config, es: seq<Event>, i: nat)
    requires i < |es| && Timed(es[i])
  {
    Trips(cfg.limits, es[i].at - StartTime(es), SilenceAt(es, i))
  }

  function OutcomeOf(cfg: Config, e: Event): Outcome
    requires e.ToolCall?
  {
    Dispatch(e.name, e.args, cfg.enabled, cfg.caller)
  }

  /** Event `i` is one the loop does not get past. */
  predicate StopsAt(cfg: Config, es: seq<Event>, i: nat)
    requires i < |es|
  {
    Timed(es[i])
    && (LimitReached(cfg, es, i) || es[i].TransportError? || (es[i].ToolCall? && (es[i].replyLost || OutcomeOf(cfg, es[i]).Exit?)))
  }

  function FirstStop(cfg: Config, es: seq<Event>, from: nat): (k: nat)
    requires from <= |es|
    ensures from <= k <= |es|
    ensures forall i :: from <= i < k ==> !StopsAt(cfg, es, i)
    ensures k < |es| ==> StopsAt(cfg, es, k)
    decreases |es| - from
  {
    if from == |es| || StopsAt(cfg, es, from) then from else FirstStop(cfg, es, from + 1)
  }

  /** Everything said and every tool result in a stretch of events, with no control flow. */
  function Gather(cfg: Config, r: Record, es: seq<Event>): Record {
    if es == [] then r
    else Absorb(cfg, Gather(cfg, r, es[..|es| - 1]), es[|es| - 1])
  }

  function Absorb(cfg: Config, r: Record, e: Event): Record {
    match e
    case Speech(_, who, text) => AddSpeech(r, who, text)
    case ToolCall(_, _, _, _) => Merge(r, OutcomeOf(cfg, e))
    case _ => r
  }

  /** How the connection ends: by its own end, by a limit, by an error, by an exit tool. */
  function Verdict(cfg: Config, es: seq<Event>, k: nat, ending: Ending): Result
    requires k <= |es| && (k < |es| ==> StopsAt(cfg, es, k))
  {
    if k == |es| then if ending == Hangup then Returned(Default) else Raised
    else if LimitReached(cfg, es, k) then Returned(EndCall)
    else if es[k].ToolCall? && OutcomeOf(cfg, es[k]).Exit? then Returned(OutcomeOf(cfg, es[k]).port)
    else Raised
  }

  /** A tool whose reply is lost has already been merged. */
  function Kept(cfg: Config, r: Record, es: seq<Event>, k: nat): Record
    requires k <= |es|
  {
    var before := Gather(cfg, r, es[..k]);
    if k < |es| && es[k].ToolCall? && !LimitReached(cfg, es, k) then Merge(before, OutcomeOf(cfg, es[k])) else before
  }

  function ClockAfter(es: seq<Event>, i: nat): Clock
    requires i <= |es|
  {
    if i == 0 then Unset
    else if !Timed(es[i - 1]) then ClockAfter(es, i - 1)
    else
      var last := LastActive(es[..i]);
      Running(StartTime(es), if last.Some? then last.value else StartTime(es))
  }

  lemma {:induction false} ClockAfterIs(es: seq<Event>, i: nat)
    requires i <= |es|
    ensures var last := LastActive(es[..i]);
      if ClockAfter(es, i).Unset? then last.None? && (i < |es| && Timed(es[i]) ==> StartTime(es) == es[i].at)
        && forall j :: 0 <= j < i ==> !Timed(es[j])
      else ClockAfter(es, i) == Running(StartTime(es), if last.Some? then last.value else StartTime(es))
  {
    if i == 0 {
      if es != [] && Timed(es[0]) {
        assert StartTime(es) == es[0].at;
      }
    } else {
      ClockAfterIs(es, i - 1);
      assert es[..i][..i - 1] == es[..i - 1];
      if ClockAfter(es, i).Unset? && i < |es| && Timed(es[i]) {
        StartsHere(es, i);
      }
    }
  }

  lemma {:induction false} StartsHere(es: seq<Event>, i: nat)
    requires i < |es| && Timed(es[i]) && forall j :: 0 <= j < i ==> !Timed(es[j])
    ensures StartTime(es) == es[i].at
  {
    if i > 0 {
      StartsHere(es[1..], i - 1);
    }
  }

  lemma {:induction false} GatherStep(cfg: Config, r: Record, es: seq<Event>, i: nat)
    requires i < |es|
    ensures Gather(cfg, r, es[..i + 1]) == Absorb(cfg, Gather(cfg, r, es[..i]), es[i])
  {
    assert es[..i + 1][..i] == es[..i];
  }

  /** One turn of the loop that does not stop. */
  lemma {:induction false} DriveGoesOn(cfg: Config, r: Record, es: seq<Event>, i: nat, ending: Ending)
    requires i < |es| && !StopsAt(cfg, es, i)
    ensures Drive(cfg, ClockAfter(es, i), r, es[i..], ending)
         == Drive(cfg, ClockAfter(es, i + 1), Absorb(cfg, r, es[i]), es[i + 1..], ending)
  {
    hide AddSpeech, Dispatch, Merge, Trips, LastActive, StartTime, Gather;
    ClockAfterIs(es, i);
    ClockAfterIs(es, i + 1);
    LastActiveStep(es, i);
    assert es[i..][1..] == es[i + 1..];
  }

  lemma {:induction false} LastActiveStep(es: seq<Event>, i: nat)
    requires i < |es|
    ensures LastActive(es[..i + 1]) == if Active(es[i]) then Some(es[i].at) else LastActive(es[..i])
  {
    assert es[..i + 1][..i] == es[..i];
  }

  lemma {:induction false} DriveStops(cfg: Config, r: Record, es: seq<Event>, k: nat, ending: Ending, r0: Record)
    requires k <= |es| && (k < |es| ==> StopsAt(cfg, es, k)) && r == Gather(cfg, r0, es[..k])
    ensures Drive(cfg, ClockAfter(es, k), r, es[k..], ending) == (Verdict(cfg, es, k, ending), Kept(cfg, r0, es, k))
  {
    hide AddSpeech, Dispatch, Trips, LastActive, StartTime, Gather;
    ClockAfterIs(es, k);
  }

  lemma {:induction false} DriveFrom(cfg: Config, r: Record, es: seq<Event>, i: nat, k: nat, ending: Ending)
    requires i <= k <= |es| && (k < |es| ==> StopsAt(cfg, es, k)) && forall j :: i <= j < k ==> !StopsAt(cfg, es, j)
    ensures Drive(cfg, ClockAfter(es, i), Gather(cfg, r, es[..i]), es[i..], ending)
         == (Verdict(cfg, es, k, ending), Kept(cfg, r, es, k))
    decreases k - i
  {
    hide Drive, ClockAfter, Gather, StopsAt, Absorb, Kept, Verdict;
    if i == k {
      DriveStops(cfg, Gather(cfg, r, es[..i]), es, k, ending, r);
    } else {
      DriveGoesOn(cfg, Gather(cfg, r, es[..i]), es, i, ending);
      GatherStep(cfg, r, es, i);
      DriveFrom(cfg, r, es, i + 1, k, ending);
    }
  }

  /** Which clock meets which limit: the time since the first event the length of the call, the time since
      anyone spoke or a tool was called the silence. */
  lemma {:induction false} LimitReachedExactlyWhen(cfg: Config, es: seq<Event>, i: nat)
    requires i < |es| && Timed(es[i])
    ensures LimitReached(cfg, es, i) <==>
      || (exists l :: cfg.limits.maxCall == Some(l) && es[i].at - StartTime(es) >= l)
      || (exists l :: cfg.limits.maxSilence == Some(l) && SilenceAt(es, i) >= l)
  {
    hide SilenceAt, StartTime;
    if LimitReached(cfg, es, i) {
      assert cfg.limits.maxCall.Some? ==> cfg.limits.maxCall == Some(cfg.limits.maxCall.value);
      assert cfg.limits.maxSilence.Some? ==> cfg.limits.maxSilence == Some(cfg.limits.maxSilence.value);
    }
  }

  /** The clocks: `StartTime` is the time of the first event that is one, `LastActive` that of the last
      speech or tool call. */
  lemma {:induction false} StartTimeIs(es: seq<Event>, i: nat)
    requires i < |es| && Timed(es[i]) && forall j :: 0 <= j < i ==> !Timed(es[j])
    ensures StartTime(es) == es[i].at
  {
    StartsHere(es, i);
  }

  predicate NoneActive(es: seq<Event>) { forall j :: 0 <= j < |es| ==> !Active(es[j]) }

  predicate LastActiveEvent(es: seq<Event>, j: nat, at: real)
    requires j < |es|
  {
    Active(es[j]) && es[j].at == at && forall k :: j < k < |es| ==> !Active(es[k])
  }

  lemma {:induction false} StillLast(es: seq<Event>, j: nat, at: real)
    requires j < |es| - 1 && LastActiveEvent(es[..|es| - 1], j, at) && !Active(es[|es| - 1])
    ensures LastActiveEvent(es, j, at)
  {
    var init := es[..|es| - 1];
    assert init[j] == es[j];
    forall k | j < k < |es|
      ensures !Active(es[k])
    {
      if k < |es| - 1 {
        assert init[k] == es[k];
      }
    }
  }

  lemma {:induction false} StillNone(es: seq<Event>)
    requires es != [] && NoneActive(es[..|es| - 1]) && !Active(es[|es| - 1])
    ensures NoneActive(es)
  {
    forall j | 0 <= j < |es| - 1
      ensures !Active(es[j])
    {
      assert es[..|es| - 1][j] == es[j];
    }
  }

  lemma {:induction false} LastActiveIs(es: seq<Event>)
    ensures LastActive(es).None? ==> NoneActive(es)
    ensures LastActive(es).Some? ==> exists j :: 0 <= j < |es| && LastActiveEvent(es, j, LastActive(es).value)
  {
    hide LastActiveEvent;
    if es != [] {
      var m := |es| - 1;
      if Active(es[m]) {
        NewestIsLast(es);
      } else {
        hide Active, NoneActive;
        LastActiveIs(es[..m]);
        if LastActive(es).Some? {
          var j :| 0 <= j < m && LastActiveEvent(es[..m], j, LastActive(es).value);
          StillLast(es, j, LastActive(es).value);
        } else {
          StillNone(es);
        }
      }
    }
  }

  lemma {:induction false} NewestIsLast(es: seq<Event>)
    requires es != [] && Active(es[|es| - 1])
    ensures LastActiveEvent(es, |es| - 1, es[|es| - 1].at)
  {
  }

  /** How a connection ends, limit by limit, of the event at which it stops. */
  predicate EndsRight(cfg: Config, es: seq<Event>, k: nat, ending: Ending, result: Result) {
    if k >= |es| then result == (if ending == Hangup then Returned(Default) else Raised)
    else if es[k].Garbage? then false
    else
      var overCall := cfg.limits.maxCall.Some? && es[k].at - StartTime(es) >= cfg.limits.maxCall.value;
      var overSilence := cfg.limits.maxSilence.Some? && SilenceAt(es, k) >= cfg.limits.maxSilence.value;
      if overCall || overSilence then result == Returned(EndCall)
      else if es[k].ToolCall? && es[k].name in cfg.enabled && es[k].name == "transfer" then result == Returned(Transfer)
      else if es[k].ToolCall? && es[k].name in cfg.enabled && es[k].name == "end_call" then result == Returned(EndCall)
      else result == Raised && (es[k].TransportError? || (es[k].ToolCall? && es[k].replyLost))
  }

  lemma {:induction false} VerdictIsRight(cfg: Config, es: seq<Event>, k: nat, ending: Ending)
    requires k <= |es| && (k < |es| ==> StopsAt(cfg, es, k))
    ensures EndsRight(cfg, es, k, ending, Verdict(cfg, es, k, ending))
  {
    hide SilenceAt, StartTime, Dispatch;
    if k < |es| && es[k].ToolCall? {
      OnlyEnabledToolsAct(es[k].name, es[k].args, cfg.enabled, cfg.caller);
    }
  }

  /** The loop stops at the first event whose elapsed or silent time reaches a limit (or an earlier exit
      tool, error or end); what it keeps is everything gathered before that event and nothing later. */
  lemma {:induction false} DriveStopsAtTheFirst(cfg: Config, r: Record, es: seq<Event>, ending: Ending)
    ensures var k := FirstStop(cfg, es, 0);
      Drive(cfg, Unset, r, es, ending) == (Verdict(cfg, es, k, ending), Kept(cfg, r, es, k))
  {
    hide Drive, Gather, StopsAt, Kept, Verdict;
    var k := FirstStop(cfg, es, 0);
    DriveFrom(cfg, r, es, 0, k, ending);
    assert es[0..] == es && es[..0] == [];
    GatherNothing(cfg, r);
  }

  lemma {:induction false} GatherNothing(cfg: Config, r: Record)
    ensures Gather(cfg, r, []) == r
  {
  }

  // --- what the record adds up to ----------------------------------------------------

  function SpokenBy(e: Event): seq<Segment> {
    if e.Speech? && Text.Strip(e.text) != "" then [Segment(e.fromCaller, Text.Strip(e.text))] else []
  }

  /** Every non-blank speech event, in order. */
  function Segments(es: seq<Event>): seq<Segment> {
    if es == [] then [] else Segments(es[..|es| - 1]) + SpokenBy(es[|es| - 1])
  }

  function SentBy(cfg: Config, e: Event): seq<Sms> {
    if e.ToolCall? && OutcomeOf(cfg, e).Message? then [OutcomeOf(cfg, e).sms] else []
  }

  /** Every accepted send_sms, in order. */
  function Messages(cfg: Config, es: seq<Event>): seq<Sms> {
    if es == [] then [] else Messages(cfg, es[..|es| - 1]) + SentBy(cfg, es[|es| - 1])
  }

  function LastCapture(cfg: Config, es: seq<Event>): Option<Args> {
    if es == [] then None
    else
      var e := es[|es| - 1];
      if e.ToolCall? && OutcomeOf(cfg, e).Capture? then Some(OutcomeOf(cfg, e).lead) else LastCapture(cfg, es[..|es| - 1])
  }

  lemma {:induction false} AbsorbAdds(cfg: Config, r: Record, e: Event)
    ensures Absorb(cfg, r, e) == Record(
      r.transcript + SpokenBy(e),
      if e.ToolCall? && OutcomeOf(cfg, e).Capture? then Some(OutcomeOf(cfg, e).lead) else r.captured,
      r.outbox + SentBy(cfg, e))
  {
    hide OutcomeOf, Text.Strip;
    assert r.transcript + [] == r.transcript && r.outbox + [] == r.outbox;
  }

  /** The record is what was there, then every message and every line in order, and the last capture. */
  lemma {:induction false} GatherAddsUp(cfg: Config, r: Record, es: seq<Event>)
    ensures Gather(cfg, r, es) == Record(
      r.transcript + Segments(es),
      if LastCapture(cfg, es).Some? then LastCapture(cfg, es) else r.captured,
      r.outbox + Messages(cfg, es))
  {
    hide OutcomeOf, Absorb, SpokenBy, SentBy;
    if es == [] {
      assert r.transcript + [] == r.transcript && r.outbox + [] == r.outbox;
    } else {
      var init, e := es[..|es| - 1], es[|es| - 1];
      GatherAddsUp(cfg, r, init);
      AbsorbAdds(cfg, Gather(cfg, r, init), e);
      Associate(r.transcript, Segments(init), SpokenBy(e));
      Associate(r.outbox, Messages(cfg, init), SentBy(cfg, e));
    }
  }

  lemma {:induction false} GatherAppend(cfg: Config, r: Record, a: seq<Event>, b: seq<Event>)
    ensures Gather(cfg, r, a + b) == Gather(cfg, Gather(cfg, r, a), b)
    decreases |b|
  {
    hide Absorb;
    if b == [] {
      assert a + b == a;
    } else {
      assert (a + b)[..|a + b| - 1] == a + b[..|b| - 1];
      GatherAppend(cfg, r, a, b[..|b| - 1]);
    }
  }

  /** The events of one connection that left a mark: those before the stop, and a tool call whose reply
      was lost. */
  function KeptEvents(cfg: Config, es: seq<Event>): seq<Event> {
    var k := FirstStop(cfg, es, 0);
    if k < |es| && es[k].ToolCall? && !LimitReached(cfg, es, k) then es[..k + 1] else es[..k]
  }

  lemma {:induction false} KeptIsGathered(cfg: Config, r: Record, es: seq<Event>)
    ensures Kept(cfg, r, es, FirstStop(cfg, es, 0)) == Gather(cfg, r, KeptEvents(cfg, es))
  {
    hide Gather, LimitReached, StopsAt, OutcomeOf;
    var k := FirstStop(cfg, es, 0);
    if k < |es| {
      GatherStep(cfg, r, es, k);
    }
  }

  // --- reconnecting ------------------------------------------------------------------

  datatype Attempt = NoConnection | Connection(events: seq<Event>, ending: Ending)

  datatype Final = Final(port: Port, record: Record, tried: nat, connected: seq<nat>, closed: seq<nat>)

  function TryOnce(cfg: Config, a: Attempt, r: Record): (Result, Record) {
    if a.NoConnection? then (Raised, r) else Drive(cfg, Unset, r, a.events, a.ending)
  }

  /** How an attempt ends, whatever was recorded before it. */
  function ResultOf(cfg: Config, a: Attempt): Result {
    if a.NoConnection? then Raised else Verdict(cfg, a.events, FirstStop(cfg, a.events, 0), a.ending)
  }

  predicate Raises(cfg: Config, a: Attempt) { ResultOf(cfg, a).Raised? }

  function EventsOf(cfg: Config, a: Attempt): seq<Event> {
    if a.NoConnection? then [] else KeptEvents(cfg, a.events)
  }

  lemma {:induction false} TryOnceIs(cfg: Config, a: Attempt, r: Record)
    ensures var (res, s) := TryOnce(cfg, a, r);
      && s == Gather(cfg, r, EventsOf(cfg, a))
      && res == ResultOf(cfg, a)
      && (res.Returned? ==> res.port != Failed)
  {
    hide Drive, Gather, Kept, KeptEvents, StopsAt, LimitReached;
    if a.NoConnection? {
      GatherNothing(cfg, r);
    } else {
      DriveStopsAtTheFirst(cfg, r, a.events, a.ending);
      KeptIsGathered(cfg, r, a.events);
    }
  }

  /** How many attempts `run` may make. */
  function Budget(maxReconnects: int): nat { if maxReconnects > 0 then maxReconnects + 1 else 1 }

  /** The attempts before number `n` all raise, and number `n` does not or is the last one allowed. */
  predicate LastTry(cfg: Config, attempts: nat -> Attempt, maxReconnects: int, n: nat) {
    && n < Budget(maxReconnects)
    && (forall i: nat :: i < n ==> Raises(cfg, attempts(i)))
    && (!Raises(cfg, attempts(n)) || n + 1 == Budget(maxReconnects))
  }

  function AllKept(cfg: Config, attempts: nat -> Attempt, n: nat): seq<Event> {
    if n == 0 then [] else AllKept(cfg, attempts, n - 1) + EventsOf(cfg, attempts(n - 1))
  }

  function Connected(attempts: nat -> Attempt, n: nat): seq<nat> {
    if n == 0 then [] else Connected(attempts, n - 1) + if attempts(n - 1).Connection? then [n - 1] else []
  }

  const EMPTY := Record([], None, [])

  /** The loop of `_drive`. */
  method DriveLoop(cfg: Config, r0: Record, es: seq<Event>, ending: Ending) returns (result: Result, r: Record)
    ensures (result, r) == Drive(cfg, Unset, r0, es, ending)
    ensures EndsRight(cfg, es, FirstStop(cfg, es, 0), ending, result)
  {
    hide AddSpeech, Merge, Dispatch, Trips, EndsRight, StopsAt, Verdict, Kept;
    DriveStopsAtTheFirst(cfg, r0, es, ending);
    VerdictIsRight(cfg, es, FirstStop(cfg, es, 0), ending);
    r := r0;
    var clock := Unset;
    var i := 0;
    while i < |es|
      invariant 0 <= i <= |es|
      invariant Drive(cfg, clock, r, es[i..], ending) == Drive(cfg, Unset, r0, es, ending)
    {
      var e := es[i];
      assert es[i..][0] == e && es[i..][1..] == es[i + 1..];
      i := i + 1;
      if e.Garbage? { continue; }
      if clock.Unset? {
        clock := Running(e.at, e.at);
      }
      if Trips(cfg.limits, e.at - clock.start, e.at - clock.lastActivity) {
        return Returned(EndCall), r;
      }
      match e {
        case TransportError(_) => return Raised, r;
        case Speech(at, who, text) =>
          r := AddSpeech(r, who, text);
          clock := clock.(lastActivity := at);
        case ToolCall(at, name, args, lost) =>
          var o := Dispatch(name, args, cfg.enabled, cfg.caller);
          if o.Exit? { return Returned(o.port), r; }
          r := Merge(r, o);
          clock := clock.(lastActivity := at);
          if lost { return Raised, r; }
        case _ =>
      }
    }
    result := if ending == Hangup then Returned(Default) else Raised;
  }

  /** `run`: connect, drive, and on any failure reconnect while the budget lasts. */
  method Run(cfg: Config, attempts: nat -> Attempt, maxReconnects: int) returns (f: Final)
    ensures f.tried > 0 && (f.tried == 1 || f.tried - 1 <= maxReconnects)
    ensures f.port == Failed ==> f.tried - 1 >= maxReconnects
    ensures LastTry(cfg, attempts, maxReconnects, f.tried - 1)
    ensures f.connected == f.closed == Connected(attempts, f.tried)
    ensures f.record == Gather(cfg, EMPTY, AllKept(cfg, attempts, f.tried))
    ensures f.port == Failed <==> forall i: nat :: i < Budget(maxReconnects) ==> Raises(cfg, attempts(i))
    ensures f.port != Failed ==> ResultOf(cfg, attempts(f.tried - 1)) == Returned(f.port)
  {
    hide ResultOf, EventsOf, Gather, Drive;
    var attempt := 0;
    var r := EMPTY;
    var connected, closed: seq<nat> := [], [];
    GatherNothing(cfg, EMPTY);
    while true
      invariant 0 <= attempt < Budget(maxReconnects)
      invariant forall i: nat :: i < attempt ==> Raises(cfg, attempts(i))
      invariant connected == closed == Connected(attempts, attempt)
      invariant r == Gather(cfg, EMPTY, AllKept(cfg, attempts, attempt))
      decreases Budget(maxReconnects) - attempt
    {
      var a := attempts(attempt);
      TryOnceIs(cfg, a, r);
      GatherAppend(cfg, EMPTY, AllKept(cfg, attempts, attempt), EventsOf(cfg, a));
      var result := Raised;
      if a.Connection? {
        connected := connected + [attempt];
        result, r := DriveLoop(cfg, r, a.events, a.ending);
        closed := closed + [attempt];
      } else {
        assert connected + [] == connected;
      }
      assert connected == Connected(attempts, attempt + 1);
      assert r == Gather(cfg, EMPTY, AllKept(cfg, attempts, attempt + 1));
      if result.Returned? {
        return Final(result.port, r, attempt + 1, connected, closed);
      }
      if attempt < maxReconnects {
        attempt := attempt + 1;
      } else {
        return Final(Failed, r, attempt + 1, connected, closed);
      }
    }
  }

  lemma {:induction false} ConnectedIs(attempts: nat -> Attempt, n: nat, i: nat)
    ensures i in Connected(attempts, n) <==> i < n && attempts(i).Connection?
    ensures multiset(Connected(attempts, n))[i] <= 1
  {
    hide Connected;
    if n == 0 {
      ConnectedNone(attempts);
    } else {
      ConnectedIs(attempts, n - 1, i);
      ConnectedNext(attempts, n - 1);
      if attempts(n - 1).Connection? {
        AppendCounts(Connected(attempts, n - 1), n - 1, i);
      }
    }
  }

  lemma {:induction false} ConnectedNone(attempts: nat -> Attempt)
    ensures Connected(attempts, 0) == []
  {
  }

  lemma {:induction false} ConnectedNext(attempts: nat -> Attempt, n: nat)
    ensures attempts(n).Connection? ==> Connected(attempts, n + 1) == Connected(attempts, n) + [n]
    ensures attempts(n).NoConnection? ==> Connected(attempts, n + 1) == Connected(attempts, n)
  {
  }

  lemma {:induction false} AppendCounts(s: seq<nat>, x: nat, i: nat)
    ensures i in s + [x] <==> i in s || x == i
    ensures multiset(s + [x])[i] == if x != i then multiset(s)[i] else if i in s then multiset(s)[i] + 1 else 1
  {
  }

  /** What survives every reconnect: the lines, the messages and the last capture of all attempts. */
  lemma {:induction false} RecordOfAllAttempts(cfg: Config, attempts: nat -> Attempt, n: nat)
    ensures var kept := AllKept(cfg, attempts, n); var r := Gather(cfg, EMPTY, kept);
      r.transcript == Segments(kept) && r.outbox == Messages(cfg, kept) && r.captured == LastCapture(cfg, kept)
  {
    var kept := AllKept(cfg, attempts, n);
    hide *;
    EmptyIs();
    GatherAddsUp(cfg, EMPTY, kept);
    assert [] + Segments(kept) == Segments(kept) && [] + Messages(cfg, kept) == Messages(cfg, kept);
  }

  lemma {:induction false} EmptyIs()
    ensures EMPTY == Record([], None, [])
  {
  }
}
