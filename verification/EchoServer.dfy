/** The frame loop of the AudioSocket server in echo and tone mode (owen-voice/app/server.py) and the
    session counters it keeps (owen-voice/app/session.py). */
module EchoServer {
  import opened Bytes
  import opened AudioSocket

  type Uuid = bytes

  datatype Option<T> = None | Some(value: T)
  datatype Mode = Echo | Tone
  datatype Port = Default | Failed

  datatype Session = Session(
    mode: Mode, connected: bool, rxFrames: nat, rxBytes: nat, txFrames: nat, txBytes: nat, peak: nat,
    dtmf: seq<byte>, error: Option<bytes>, resultPort: Option<Port>, done: bool)

  /** What one connection sees: the session table, the session its UUID frame named, the bytes
      written back, and whether the loop is still running. */
  datatype Conn = Conn(sessions: map<Uuid, Session>, current: Option<Uuid>, written: bytes, open: bool)

  // --- peak level --------------------------------------------------------------------

  function Abs(s: int): nat { if s < 0 then -s else s }

  predicate IsPeak(peak: nat, current: nat, xs: seq<sample>) {
    && peak >= current
    && (forall i :: 0 <= i < |xs| ==> Abs(xs[i]) <= peak)
    && (peak == current || exists i :: 0 <= i < |xs| && Abs(xs[i]) == peak)
  }

  function PeakOf(xs: seq<sample>, current: nat): nat {
    if xs == [] then current
    else PeakOf(xs[1..], if Abs(xs[0]) > current then Abs(xs[0]) else current)
  }

  /** The running peak is the greatest absolute sample, or the peak so far. It can reach 32768. */
  lemma {:induction false} PeakOfIsPeak(xs: seq<sample>, current: nat)
    ensures IsPeak(PeakOf(xs, current), current, xs)
  {
    if xs != [] {
      var next := if Abs(xs[0]) > current then Abs(xs[0]) else current;
      PeakOfIsPeak(xs[1..], next);
      var p := PeakOf(xs, current);
      if p != next {
        var i :| 0 <= i < |xs[1..]| && Abs(xs[1..][i]) == p;
        assert Abs(xs[i + 1]) == p;
      }
      forall i | 0 <= i < |xs|
        ensures Abs(xs[i]) <= p
      {
        if i > 0 {
          assert xs[1..][i - 1] == xs[i];
        }
      }
    }
  }

  lemma {:induction false} PeakOfAppend(a: seq<sample>, b: seq<sample>, current: nat)
    ensures PeakOf(a + b, current) == PeakOf(b, PeakOf(a, current))
  {
    if a == [] {
      assert a + b == b;
    } else {
      assert (a + b)[1..] == a[1..] + b;
      PeakOfAppend(a[1..], b, if Abs(a[0]) > current then Abs(a[0]) else current);
    }
  }

  /** The loop of `peak_of`. */
  method MeasurePeak(pcm: bytes, current: nat) returns (peak: nat)
    ensures peak == PeakOf(Samples(pcm), current)
  {
    hide Samples;
    peak := current;
    var xs := Samples(pcm);
    var i := 0;
    while i < |xs|
      invariant 0 <= i <= |xs|
      invariant PeakOf(xs[i..], peak) == PeakOf(xs, current)
    {
      assert xs[i..][1..] == xs[i + 1..];
      var a := Abs(xs[i]);
      if a > peak {
        peak := a;
      }
      i := i + 1;
    }
  }

  // --- one frame ---------------------------------------------------------------------

  /** `payload.decode("ascii", "ignore")` */
  function Ascii(payload: bytes): seq<byte> {
    if payload == [] then []
    else (if payload[0] < 128 then [payload[0]] else []) + Ascii(payload[1..])
  }

  function Receive(s: Session, pcm: bytes): Session {
    var heard := s.(rxFrames := s.rxFrames + 1, rxBytes := s.rxBytes + |pcm|, peak := PeakOf(Samples(pcm), s.peak));
    if s.mode == Tone then heard
    else heard.(txFrames := s.txFrames + 1, txBytes := s.txBytes + |pcm|)
  }

  predicate Sound(c: Conn) { c.current.Some? ==> c.current.value in c.sessions }

  predicate Known(c: Conn, f: Frame) { |f.payload| == 16 && f.payload in c.sessions }

  function Step(c: Conn, f: WireFrame): (r: Conn)
    requires Sound(c)
    ensures Sound(r) && r.sessions.Keys == c.sessions.Keys
  {
    if f.IsUuid() then
      if Known(c, f) then
        c.(current := Some(f.payload), sessions := c.sessions[f.payload := c.sessions[f.payload].(connected := true)])
      else c.(current := None, open := false)
    else if c.current.None? then c
    else
      var u := c.current.value;
      var s := c.sessions[u];
      if f.IsAudio() then
        c.(sessions := c.sessions[u := Receive(s, f.payload)],
           written := if s.mode == Tone then c.written else c.written + EncodeFrame(f))
      else if f.IsDtmf() then c.(sessions := c.sessions[u := s.(dtmf := s.dtmf + Ascii(f.payload))])
      else if f.IsTerminate() then c.(open := false)
      else if f.IsError() then c.(open := false, sessions := c.sessions[u := s.(error := Some(f.payload))])
      else c
  }

  function Run(c: Conn, fs: seq<WireFrame>): (r: Conn)
    requires Sound(c)
    ensures Sound(r) && r.sessions.Keys == c.sessions.Keys
    decreases |fs|
  {
    if fs == [] || !c.open then c else Run(Step(c, fs[0]), fs[1..])
  }

  /** The `finally` block: only the session the connection currently holds is closed. */
  function Finish(c: Conn): map<Uuid, Session>
    requires Sound(c)
  {
    if c.current.None? then c.sessions
    else
      var s := c.sessions[c.current.value];
      var port := if s.resultPort.None? then Some(if s.error.Some? then Failed else Default) else s.resultPort;
      c.sessions[c.current.value := s.(connected := false, done := true, resultPort := port)]
  }

  // --- what the fold adds up to ------------------------------------------------------

  function HeardNow(current: Option<Uuid>, f: WireFrame): seq<(Uuid, WireFrame)> {
    if current.Some? && f.IsAudio() then [(current.value, f)] else []
  }

  /** Who the connection belongs to after a frame; None when the frame ends the loop. */
  function Next(known: set<Uuid>, current: Option<Uuid>, f: WireFrame): Option<Option<Uuid>> {
    if f.IsUuid() then if |f.payload| == 16 && f.payload in known then Some(Some(f.payload)) else None
    else if current.Some? && (f.IsTerminate() || f.IsError()) then None
    else Some(current)
  }

  /** The audio frames a connection attributes, each with its session: after an accepted UUID
      frame, before the frame that ends the loop. */
  function Attributed(known: set<Uuid>, current: Option<Uuid>, fs: seq<WireFrame>): seq<(Uuid, WireFrame)>
    decreases |fs|
  {
    if fs == [] then []
    else
      var next := Next(known, current, fs[0]);
      HeardNow(current, fs[0]) + if next.None? then [] else Attributed(known, next.value, fs[1..])
  }

  function PayloadsOf(u: Uuid, heard: seq<(Uuid, WireFrame)>): seq<bytes> {
    if heard == [] then []
    else (if heard[0].0 == u then [heard[0].1.payload] else []) + PayloadsOf(u, heard[1..])
  }

  predicate Echoes(sessions: map<Uuid, Session>, u: Uuid) { u in sessions && sessions[u].mode == Echo }

  function EchoedFrames(sessions: map<Uuid, Session>, heard: seq<(Uuid, WireFrame)>): seq<WireFrame> {
    if heard == [] then []
    else (if Echoes(sessions, heard[0].0) then [heard[0].1] else []) + EchoedFrames(sessions, heard[1..])
  }

  function AllSamples(payloads: seq<bytes>): seq<sample> {
    if payloads == [] then [] else Samples(payloads[0]) + AllSamples(payloads[1..])
  }

  /** `t` is `s` after receiving `payloads`, in order. */
  predicate Accounts(s: Session, t: Session, payloads: seq<bytes>) {
    && t.mode == s.mode
    && t.rxFrames == s.rxFrames + |payloads|
    && t.rxBytes == s.rxBytes + |Flatten(payloads)|
    && t.peak == PeakOf(AllSamples(payloads), s.peak)
    && t.txFrames == s.txFrames + (if s.mode == Echo then |payloads| else 0)
    && t.txBytes == s.txBytes + (if s.mode == Echo then |Flatten(payloads)| else 0)
  }

  lemma {:induction false} AccountsNothing(s: Session, t: Session)
    requires t == s.(connected := t.connected, dtmf := t.dtmf, error := t.error)
    ensures Accounts(s, t, [])
  {
  }

  lemma {:induction false} AccountsOne(s: Session, payload: bytes)
    ensures Accounts(s, Receive(s, payload), [payload])
  {
    hide Samples, PeakOf;
    FlattenOne(payload);
    assert AllSamples([payload][1..]) == [];
    assert AllSamples([payload]) == Samples(payload);
  }

  lemma {:induction false} AccountsJoin(s: Session, t: Session, r: Session, a: seq<bytes>, b: seq<bytes>)
    requires Accounts(s, t, a) && Accounts(t, r, b) && |a| <= 1
    ensures Accounts(s, r, a + b)
  {
    hide Samples, PeakOf;
    FlattenAppend(a, b);
    if a == [] {
      assert a + b == b;
      NoSamplesNoPeak(s.peak);
    } else {
      assert (a + b)[1..] == b;
      assert AllSamples(a) == Samples(a[0]);
      PeakOfAppend(Samples(a[0]), AllSamples(b), s.peak);
    }
  }

  lemma {:induction false} NoSamplesNoPeak(current: nat)
    ensures PeakOf([], current) == current
  {
  }

  /** One step, seen from session `u`: it accounts for at most one payload. */
  lemma {:induction false} StepAccounts(c: Conn, f: WireFrame, u: Uuid)
    requires Sound(c) && u in c.sessions && c.open
    ensures var now := PayloadsOf(u, HeardNow(c.current, f));
      |now| <= 1 && Accounts(c.sessions[u], Step(c, f).sessions[u], now)
  {
    hide PeakOf, Samples, Accounts, Ascii, Receive, EncodeFrame;
    var s, t := c.sessions[u], Step(c, f).sessions[u];
    assert PayloadsOf(u, []) == [];
    if c.current == Some(u) && f.IsAudio() {
      assert HeardNow(c.current, f)[1..] == [];
      assert PayloadsOf(u, HeardNow(c.current, f)) == [f.payload];
      assert t == Receive(s, f.payload);
      AccountsOne(s, f.payload);
    } else {
      AccountsNothing(s, t);
    }
  }

  lemma {:induction false} NextIsStep(c: Conn, f: WireFrame)
    requires Sound(c) && c.open
    ensures var next := Next(c.sessions.Keys, c.current, f); var d := Step(c, f);
      d.open == next.Some? && (next.Some? ==> d.current == next.value)
  {
    hide Receive, Ascii, EncodeFrame;
  }

  lemma {:induction false} PayloadsOfAppend(u: Uuid, a: seq<(Uuid, WireFrame)>, b: seq<(Uuid, WireFrame)>)
    ensures PayloadsOf(u, a + b) == PayloadsOf(u, a) + PayloadsOf(u, b)
  {
    if a == [] {
      assert a + b == b;
    } else {
      assert (a + b)[1..] == a[1..] + b && (a + b)[0] == a[0];
      PayloadsOfAppend(u, a[1..], b);
      var one := if a[0].0 == u then [a[0].1.payload] else [];
      Associate(one, PayloadsOf(u, a[1..]), PayloadsOf(u, b));
    }
  }

  /** Every counter of every session is a sum over the frames attributed to it. */
  lemma {:induction false} RunAccounts(c: Conn, fs: seq<WireFrame>, u: Uuid)
    requires Sound(c) && u in c.sessions && c.open
    ensures Accounts(c.sessions[u], Run(c, fs).sessions[u], PayloadsOf(u, Attributed(c.sessions.Keys, c.current, fs)))
    decreases |fs|
  {
    hide Accounts, Step, PayloadsOf, HeardNow, Next;
    if fs == [] {
      NothingHeard(u);
      AccountsNothing(c.sessions[u], c.sessions[u]);
    } else {
      var d := Step(c, fs[0]);
      var now := HeardNow(c.current, fs[0]);
      StepAccounts(c, fs[0], u);
      NextIsStep(c, fs[0]);
      if d.open {
        var later := Attributed(d.sessions.Keys, d.current, fs[1..]);
        RunAccounts(d, fs[1..], u);
        PayloadsOfAppend(u, now, later);
        AccountsJoin(c.sessions[u], d.sessions[u], Run(c, fs).sessions[u], PayloadsOf(u, now), PayloadsOf(u, later));
      } else {
        assert now + [] == now;
        assert Run(d, fs[1..]) == d;
      }
    }
  }

  lemma {:induction false} NothingHeard(u: Uuid)
    ensures PayloadsOf(u, []) == []
  {
  }

  lemma {:induction false} StepWrites(c: Conn, f: WireFrame)
    requires Sound(c) && c.open
    ensures Step(c, f).written == c.written + EncodeAll(EchoedFrames(c.sessions, HeardNow(c.current, f)))
    ensures forall u :: u in c.sessions ==> Step(c, f).sessions[u].mode == c.sessions[u].mode
  {
    hide PeakOf, Samples, Ascii, EncodeFrame;
    var now := HeardNow(c.current, f);
    assert EchoedFrames(c.sessions, []) == [] && EncodeAll([]) == [];
    if now != [] {
      assert now[1..] == [];
      assert [f][1..] == [];
      assert EncodeAll([f]) == EncodeFrame(f) + EncodeAll([]);
    } else {
      assert c.written + [] == c.written;
    }
  }

  lemma {:induction false} EchoedFramesAppend(sessions: map<Uuid, Session>, x: seq<(Uuid, WireFrame)>, y: seq<(Uuid, WireFrame)>)
    ensures EchoedFrames(sessions, x + y) == EchoedFrames(sessions, x) + EchoedFrames(sessions, y)
  {
    hide Echoes;
    if x == [] {
      assert x + y == y;
    } else {
      assert (x + y)[1..] == x[1..] + y && (x + y)[0] == x[0];
      EchoedFramesAppend(sessions, x[1..], y);
      var one := if Echoes(sessions, x[0].0) then [x[0].1] else [];
      Associate(one, EchoedFrames(sessions, x[1..]), EchoedFrames(sessions, y));
    }
  }

  lemma {:induction false} EchoedFramesSameModes(a: map<Uuid, Session>, b: map<Uuid, Session>, y: seq<(Uuid, WireFrame)>)
    requires a.Keys == b.Keys && forall u :: u in a ==> a[u].mode == b[u].mode
    ensures EchoedFrames(a, y) == EchoedFrames(b, y)
  {
    if y != [] {
      assert Echoes(a, y[0].0) == Echoes(b, y[0].0);
      EchoedFramesSameModes(a, b, y[1..]);
    }
  }

  /** What goes back on the wire is exactly the attributed audio of echoing sessions, in order. */
  lemma {:induction false} RunWrites(c: Conn, fs: seq<WireFrame>)
    requires Sound(c) && c.open
    ensures Run(c, fs).written
         == c.written + EncodeAll(EchoedFrames(c.sessions, Attributed(c.sessions.Keys, c.current, fs)))
    decreases |fs|
  {
    hide Step, HeardNow, Next, EchoedFrames, EncodeAll;
    if fs == [] {
      NothingEchoed(c.sessions);
      assert c.written + [] == c.written;
    } else {
      var d := Step(c, fs[0]);
      var now := HeardNow(c.current, fs[0]);
      StepWrites(c, fs[0]);
      NextIsStep(c, fs[0]);
      if d.open {
        var later := Attributed(d.sessions.Keys, d.current, fs[1..]);
        RunWrites(d, fs[1..]);
        EchoedFramesAppend(c.sessions, now, later);
        EchoedFramesSameModes(c.sessions, d.sessions, later);
        EncodeAllAppend(EchoedFrames(c.sessions, now), EchoedFrames(d.sessions, later));
      } else {
        assert now + [] == now;
        assert Run(d, fs[1..]) == d;
      }
    }
  }

  lemma {:induction false} NothingEchoed(sessions: map<Uuid, Session>)
    ensures EncodeAll(EchoedFrames(sessions, [])) == []
  {
  }

  // --- the connection handler --------------------------------------------------------

  /** One read from the socket; a close, a timeout or a reset all end the loop. */
  datatype Read = Data(data: bytes) | Closed

  /** The bytes received before the first read that ends the loop (an empty read is a close). */
  function Received(inbound: seq<Read>): bytes {
    if inbound == [] || inbound[0].Closed? || inbound[0].data == [] then []
    else inbound[0].data + Received(inbound[1..])
  }

  function Fresh(sessions: map<Uuid, Session>): Conn { Conn(sessions, None, [], true) }

  /** Under any segmentation, the whole effect of a connection is one fold over the frames of the
      bytes received: counters, echoed bytes and which session is closed. */
  lemma {:induction false} EchoIsFaithful(sessions: map<Uuid, Session>, inbound: seq<Read>, u: Uuid)
    requires u in sessions
    ensures var fs := Parse(Received(inbound)).frames; var r := Run(Fresh(sessions), fs);
      var heard := Attributed(sessions.Keys, None, fs);
      && Parse(r.written) == Parsed(EchoedFrames(sessions, heard), [])
      && Accounts(sessions[u], r.sessions[u], PayloadsOf(u, heard))
      && IsPeak(r.sessions[u].peak, sessions[u].peak, AllSamples(PayloadsOf(u, heard)))
  {
    hide Run, Attributed, EchoedFrames, PayloadsOf, EncodeAll, Parse, IsPeak, Received;
    var c := Fresh(sessions);
    var fs := Parse(Received(inbound)).frames;
    var heard := Attributed(sessions.Keys, None, fs);
    RunWrites(c, fs);
    RunAccounts(c, fs, u);
    PeakOfIsPeak(AllSamples(PayloadsOf(u, heard)), sessions[u].peak);
    var wire := EncodeAll(EchoedFrames(sessions, heard));
    assert [] + wire == wire;
    DecodeEncoded(EchoedFrames(sessions, heard), [wire]);
    FlattenOne(wire);
  }

  /** Audio that comes before any UUID frame changes nothing at all. */
  lemma {:induction false} UnidentifiedIsIgnored(c: Conn, fs: seq<WireFrame>)
    requires c.current.None? && forall i :: 0 <= i < |fs| ==> !fs[i].IsUuid()
    ensures Run(c, fs) == c
    decreases |fs|
  {
    if fs != [] && c.open {
      UnidentifiedIsIgnored(c, fs[1..]);
    }
  }

  // --- which sessions a connection closes --------------------------------------------

  /** The frames the loop looks at, the one that ends it included. */
  function Handled(known: set<Uuid>, current: Option<Uuid>, fs: seq<WireFrame>): seq<WireFrame>
    decreases |fs|
  {
    if fs == [] then []
    else
      var next := Next(known, current, fs[0]);
      [fs[0]] + if next.None? then [] else Handled(known, next.value, fs[1..])
  }

  /** The sessions the connection announced itself as, in order. */
  function Announced(known: set<Uuid>, fs: seq<WireFrame>): seq<Uuid> {
    if fs == [] then []
    else (if fs[0].IsUuid() && |fs[0].payload| == 16 && fs[0].payload in known then [fs[0].payload] else [])
         + Announced(known, fs[1..])
  }

  predicate OneUuid(fs: seq<WireFrame>, u: Uuid) {
    forall i :: 0 <= i < |fs| && fs[i].IsUuid() ==> fs[i].payload == u
  }

  /** Once `u` is announced: the connection still holds `u` at the end if every later UUID frame
      repeats it, and otherwise some announced session is not the one it holds. */
  lemma {:induction false} HeldAtTheEnd(c: Conn, fs: seq<WireFrame>, u: Uuid)
    requires Sound(c) && c.open && c.current == Some(u) && |u| == 16
    ensures var handled := Handled(c.sessions.Keys, c.current, fs); var r := Run(c, fs);
      if OneUuid(handled, u) then r.current == Some(u) && forall v :: v in Announced(c.sessions.Keys, handled) ==> v == u
      else exists v :: v in [u] + Announced(c.sessions.Keys, handled) && r.current != Some(v)
    decreases |fs|
  {
    hide Step;
    if fs != [] {
      var f, known := fs[0], c.sessions.Keys;
      var handled := Handled(known, c.current, fs);
      var d := Step(c, f);
      NextIsStep(c, f);
      assert handled[0] == f;
      if !d.open {
        assert Run(d, fs[1..]) == d;
        assert handled[1..] == [];
        StepAtTheEnd(c, f);
      } else {
        var later := Handled(known, d.current, fs[1..]);
        assert handled == [f] + later;
        assert handled[1..] == later;
        var v := d.current.value;
        HeldAtTheEnd(d, fs[1..], v);
        if f.IsUuid() && v != u {
          assert v in Announced(known, handled);
          if Run(c, fs).current == Some(v) {
            assert u in [u] + Announced(known, handled);
          }
        }
      }
    }
  }

  lemma {:induction false} StepAtTheEnd(c: Conn, f: WireFrame)
    requires Sound(c) && c.open && c.current.Some? && !Step(c, f).open
    ensures Step(c, f).current == if f.IsUuid() then None else c.current
    ensures f.IsUuid() ==> !(|f.payload| == 16 && f.payload in c.sessions)
  {
  }

  /** All UUID frames carry the same payload. */
  predicate SameUuids(fs: seq<WireFrame>) {
    forall i, j :: 0 <= i < j < |fs| && fs[i].IsUuid() && fs[j].IsUuid() ==> fs[i].payload == fs[j].payload
  }

  lemma {:induction false} SameUuidsCons(f: WireFrame, fs: seq<WireFrame>)
    ensures f.IsUuid() ==> (SameUuids([f] + fs) <==> OneUuid(fs, f.payload))
    ensures !f.IsUuid() ==> (SameUuids([f] + fs) <==> SameUuids(fs))
  {
    var all := [f] + fs;
    if SameUuids(all) {
      forall i | 0 <= i < |fs| && fs[i].IsUuid()
        ensures f.IsUuid() ==> fs[i].payload == f.payload
      {
        assert all[0] == f && all[i + 1] == fs[i];
      }
      forall i, j | 0 <= i < j < |fs| && fs[i].IsUuid() && fs[j].IsUuid()
        ensures fs[i].payload == fs[j].payload
      {
        assert all[i + 1] == fs[i] && all[j + 1] == fs[j];
      }
    }
  }

  predicate HoldsAll(c: Conn, announced: seq<Uuid>) { forall u :: u in announced ==> c.current == Some(u) }

  lemma {:induction false} HoldsAllItAnnounced(c: Conn, fs: seq<WireFrame>)
    requires c.open && c.current.None?
    ensures var handled := Handled(c.sessions.Keys, None, fs);
      HoldsAll(Run(c, fs), Announced(c.sessions.Keys, handled)) <==> SameUuids(handled)
    decreases |fs|
  {
    hide SameUuids;
    var known := c.sessions.Keys;
    if fs == [] {
      SameUuidsNone();
    } else {
      var f := fs[0];
      var d := Step(c, f);
      NextIsStep(c, f);
      hide Step;
      var later := if d.open then Handled(known, d.current, fs[1..]) else [];
      var handled := Handled(known, None, fs);
      assert handled == [f] + later;
      assert handled[1..] == later;
      SameUuidsCons(f, later);
      if !d.open {
        assert Run(d, fs[1..]) == d;
      } else if f.IsUuid() {
        HeldAtTheEnd(d, fs[1..], f.payload);
        assert Announced(known, handled) == [f.payload] + Announced(known, later);
      } else {
        assert d == c;
        HoldsAllItAnnounced(c, fs[1..]);
        assert [] + Announced(known, later) == Announced(known, later);
      }
    }
  }

  lemma {:induction false} SameUuidsNone()
    ensures SameUuids([])
  {
  }

  lemma {:induction false} RunLeavesDoneAlone(c: Conn, fs: seq<WireFrame>, u: Uuid)
    requires Sound(c) && u in c.sessions
    ensures Run(c, fs).sessions[u].done == c.sessions[u].done
    decreases |fs|
  {
    hide Receive, Ascii, EncodeFrame;
    if fs != [] && c.open {
      assert Step(c, fs[0]).sessions[u].done == c.sessions[u].done by { ReceiveLeavesDoneAlone(c.sessions[u], fs[0].payload); }
      RunLeavesDoneAlone(Step(c, fs[0]), fs[1..], u);
    }
  }

  lemma {:induction false} ReceiveLeavesDoneAlone(s: Session, pcm: bytes)
    ensures Receive(s, pcm).done == s.done
  {
  }

  /** A connection finishes every session it opened exactly when all the UUID frames it looked at
      are the same. A second, different one leaves the earlier session waiting for ever. */
  lemma {:induction false} FinishesEverySessionItOpened(sessions: map<Uuid, Session>, fs: seq<WireFrame>)
    requires forall u :: u in sessions ==> !sessions[u].done
    ensures var handled := Handled(sessions.Keys, None, fs); var after := Finish(Run(Fresh(sessions), fs));
      (forall u :: u in Announced(sessions.Keys, handled) ==> u in after && after[u].done) <==> SameUuids(handled)
  {
    hide Run, Handled, SameUuids;
    var handled := Handled(sessions.Keys, None, fs);
    var r := Run(Fresh(sessions), fs);
    HoldsAllItAnnounced(Fresh(sessions), fs);
    AnnouncedAreKnown(sessions.Keys, handled);
    forall u | u in sessions
      ensures u in Finish(r) && (Finish(r)[u].done <==> r.current == Some(u))
    {
      RunLeavesDoneAlone(Fresh(sessions), fs, u);
    }
    var after := Finish(r);
    if HoldsAll(r, Announced(sessions.Keys, handled)) {
    } else {
      var u :| u in Announced(sessions.Keys, handled) && r.current != Some(u);
      assert u in after && !after[u].done;
    }
  }

  /** The witness: a connection that announces `u` and then `v` leaves `u` waiting. */
  lemma {:induction false} SecondUuidLeavesTheFirstOpen(sessions: map<Uuid, Session>, u: Uuid, v: Uuid)
    requires u in sessions && v in sessions && u != v && |u| == |v| == 16 && !sessions[u].done
    ensures var after := Finish(Run(Fresh(sessions), [Frame(KIND_UUID, u), Frame(KIND_UUID, v)]));
      after[v].done && !after[u].done
  {
    var fs: seq<WireFrame> := [Frame(KIND_UUID, u), Frame(KIND_UUID, v)];
    var c := Fresh(sessions);
    var d := Step(c, fs[0]);
    assert fs[1..] == [fs[1]];
    RunOne(d, fs[1]);
    assert Run(c, fs) == Step(d, fs[1]);
  }

  lemma {:induction false} AnnouncedAreKnown(known: set<Uuid>, fs: seq<WireFrame>)
    ensures forall u :: u in Announced(known, fs) ==> u in known
  {
    if fs != [] {
      AnnouncedAreKnown(known, fs[1..]);
    }
  }

  /** What closing leaves: the held session is disconnected and done; its port is the one already decided, or
      `failed` if an error was recorded, or else the default. No other session is touched. */
  lemma {:induction false} ClosingSession(c: Conn, u: Uuid)
    requires Sound(c) && u in c.sessions
    ensures var s := c.sessions[u];
      u in Finish(c) && Finish(c)[u] ==
        if c.current != Some(u) then s
        else s.(connected := false, done := true,
                resultPort := Some(if s.resultPort.Some? then s.resultPort.value else if s.error.Some? then Failed else Default))
  {
  }

  // --- digits, errors and who is connected -------------------------------------------

  /** The frames of any kind that session `u` is given, after it was announced and before another one or the
      end. */
  function GivenTo(known: set<Uuid>, current: Option<Uuid>, fs: seq<WireFrame>, u: Uuid): seq<WireFrame>
    decreases |fs|
  {
    if fs == [] then []
    else
      var next := Next(known, current, fs[0]);
      (if current == Some(u) && !fs[0].IsUuid() then [fs[0]] else [])
      + if next.None? then [] else GivenTo(known, next.value, fs[1..], u)
  }

  /** The ASCII bytes of the DTMF frames among them. */
  function DigitsIn(fs: seq<WireFrame>): seq<byte> {
    if fs == [] then [] else (if fs[0].IsDtmf() then Ascii(fs[0].payload) else []) + DigitsIn(fs[1..])
  }

  function ErrorIn(fs: seq<WireFrame>): Option<bytes> {
    if fs == [] then None
    else if ErrorIn(fs[1..]).Some? then ErrorIn(fs[1..])
    else if fs[0].IsError() then Some(fs[0].payload)
    else None
  }

  lemma {:induction false} AsciiKeepsAscii(payload: bytes)
    ensures forall i :: 0 <= i < |Ascii(payload)| ==> Ascii(payload)[i] < 128
    ensures (forall i :: 0 <= i < |payload| ==> payload[i] < 128) ==> Ascii(payload) == payload
  {
    if payload != [] {
      AsciiKeepsAscii(payload[1..]);
    }
  }

  lemma {:induction false} StepNotes(c: Conn, f: WireFrame, u: Uuid)
    requires Sound(c) && c.open && u in c.sessions
    ensures var s, t := c.sessions[u], Step(c, f).sessions[u];
      && t.dtmf == s.dtmf + (if c.current == Some(u) && f.IsDtmf() then Ascii(f.payload) else [])
      && t.error == (if c.current == Some(u) && f.IsError() then Some(f.payload) else s.error)
      && t.connected == (s.connected || (f.IsUuid() && f.payload == u && |u| == 16))
      && t.resultPort == s.resultPort
  {
    hide PeakOf, Samples, Ascii, EncodeFrame;
    assert c.sessions[u].dtmf + [] == c.sessions[u].dtmf;
  }

  lemma {:induction false} NotedJoin(given: seq<WireFrame>, later: seq<WireFrame>)
    requires |given| <= 1
    ensures DigitsIn(given + later) == DigitsIn(given) + DigitsIn(later)
    ensures ErrorIn(given + later) == if ErrorIn(later).Some? then ErrorIn(later) else ErrorIn(given)
  {
    hide Ascii;
    if given == [] {
      assert given + later == later && [] + DigitsIn(later) == DigitsIn(later);
    } else {
      assert (given + later)[1..] == later && given[1..] == [];
      assert DigitsIn(given) == (if given[0].IsDtmf() then Ascii(given[0].payload) else []) + [];
    }
  }

  /** Over every stream: a session's digits are the ASCII bytes of the DTMF frames it is given, in order, and its
      error is that of the error frame that ended it, if one did. */
  lemma {:induction false} DigitsAndErrorsAreTheirOwn(c: Conn, fs: seq<WireFrame>, u: Uuid)
    requires Sound(c) && u in c.sessions && c.open
    ensures var s, t := c.sessions[u], Run(c, fs).sessions[u]; var given := GivenTo(c.sessions.Keys, c.current, fs, u);
      && t.dtmf == s.dtmf + DigitsIn(given)
      && t.error == (if ErrorIn(given).Some? then ErrorIn(given) else s.error)
      && t.resultPort == s.resultPort
    decreases |fs|
  {
    hide Step, Next, Ascii, Frame.IsDtmf, Frame.IsError, Frame.IsUuid;
    if fs == [] {
      assert c.sessions[u].dtmf + [] == c.sessions[u].dtmf;
    } else {
      var f := fs[0];
      var d := Step(c, f);
      var given := if c.current == Some(u) && !f.IsUuid() then [f] else [];
      StepNotes(c, f, u);
      NextIsStep(c, f);
      NotesOf(f, c.current == Some(u));
      if d.open {
        var later := GivenTo(d.sessions.Keys, d.current, fs[1..], u);
        DigitsAndErrorsAreTheirOwn(d, fs[1..], u);
        NotedJoin(given, later);
        Associate(c.sessions[u].dtmf, DigitsIn(given), DigitsIn(later));
      } else {
        assert given + [] == given;
        assert Run(d, fs[1..]) == d;
      }
    }
  }

  lemma {:induction false} NotesOf(f: WireFrame, mine: bool)
    ensures var given := if mine && !f.IsUuid() then [f] else [];
      && DigitsIn(given) == (if mine && f.IsDtmf() then Ascii(f.payload) else [])
      && ErrorIn(given) == (if mine && f.IsError() then Some(f.payload) else None)
  {
    hide Ascii;
    assert [f][1..] == [];
  }

  // --- the handler -------------------------------------------------------------------

  lemma {:induction false} RunAppend(c: Conn, a: seq<WireFrame>, b: seq<WireFrame>)
    requires Sound(c)
    ensures Run(c, a + b) == Run(Run(c, a), b)
    decreases |a|
  {
    hide Step;
    if a == [] {
      assert a + b == b;
    } else if c.open {
      assert (a + b)[1..] == a[1..] + b && (a + b)[0] == a[0];
      RunAppend(Step(c, a[0]), a[1..], b);
    }
  }

  lemma {:induction false} RunOne(c: Conn, f: WireFrame)
    requires Sound(c) && c.open
    ensures Run(c, [f]) == Step(c, f)
  {
    hide Step;
    assert Run(Step(c, f), [f][1..]) == Step(c, f);
  }

  /** `handle_connection` for the echo and tone modes. The registry's sessions are updated in place;
      the other fields are the handler's own variables. */
  class Connection {
    var sessions: map<Uuid, Session>
    var session: Option<Uuid>
    var written: bytes
    var running: bool

    constructor (sessions: map<Uuid, Session>)
      ensures View() == Fresh(sessions)
    {
      this.sessions, session, written, running := sessions, None, [], true;
    }

    ghost function View(): Conn
      reads this
    {
      Conn(sessions, session, written, running)
    }

    method HandleFrame(frame: WireFrame)
      requires Sound(View()) && running
      modifies this
      ensures View() == Step(old(View()), frame)
    {
      hide Ascii, EncodeFrame, Samples, PeakOf;
      if frame.IsUuid() {
        if |frame.payload| != 16 || frame.payload !in sessions {
          session := None;
          running := false;
          return;
        }
        session := Some(frame.payload);
        sessions := sessions[frame.payload := sessions[frame.payload].(connected := true)];
        return;
      }
      if session.None? { return; }
      var sid := session.value;
      var s := sessions[sid];
      if frame.IsAudio() {
        var peak := MeasurePeak(frame.payload, s.peak);
        s := s.(rxFrames := s.rxFrames + 1, rxBytes := s.rxBytes + |frame.payload|, peak := peak);
        sessions := sessions[sid := s];
        if s.mode == Tone { return; }
        written := written + EncodeFrame(frame);
        sessions := sessions[sid := s.(txFrames := s.txFrames + 1, txBytes := s.txBytes + |frame.payload|)];
        return;
      }
      if frame.IsDtmf() {
        sessions := sessions[sid := s.(dtmf := s.dtmf + Ascii(frame.payload))];
        return;
      }
      if frame.IsTerminate() {
        running := false;
        return;
      }
      if frame.IsError() {
        sessions := sessions[sid := s.(error := Some(frame.payload))];
        running := false;
      }
    }

    /** The loop over the frames of one read, left early by a frame that ends the connection. */
    method HandleFrames(frames: seq<WireFrame>)
      requires Sound(View()) && running
      modifies this
      ensures View() == Run(old(View()), frames)
    {
      hide Step, Run;
      var i := 0;
      RunNothing(View());
      while i < |frames| && running
        invariant 0 <= i <= |frames| && Sound(View())
        invariant View() == Run(old(View()), frames[..i])
      {
        RunOne(View(), frames[i]);
        RunAppend(old(View()), frames[..i], [frames[i]]);
        assert frames[..i + 1] == frames[..i] + [frames[i]];
        HandleFrame(frames[i]);
        i := i + 1;
      }
      assert frames == frames[..i] + frames[i..];
      RunAppend(old(View()), frames[..i], frames[i..]);
      if !running { RunStopped(View(), frames[i..]); } else { RunNothing(View()); }
    }

    /** The `finally` block. */
    method Close()
      requires Sound(View())
      modifies this
      ensures sessions == Finish(old(View())) && written == old(written)
    {
      if session.Some? {
        var s := sessions[session.value];
        s := s.(connected := false);
        if s.resultPort.None? {
          s := s.(resultPort := Some(if s.error.Some? then Failed else Default));
        }
        sessions := sessions[session.value := s.(done := true)];
      }
    }
  }

  lemma {:induction false} RunNothing(c: Conn)
    requires Sound(c)
    ensures Run(c, []) == c
  {
  }

  lemma {:induction false} RunStopped(c: Conn, fs: seq<WireFrame>)
    requires Sound(c) && !c.open
    ensures Run(c, fs) == c
  {
  }

  lemma {:induction false} ReceivedStep(inbound: seq<Read>, i: nat)
    requires i <= |inbound|
    ensures if i == |inbound| || inbound[i].Closed? || inbound[i].data == [] then Received(inbound[i..]) == []
            else Received(inbound[i..]) == inbound[i].data + Received(inbound[i + 1..])
  {
    if i < |inbound| {
      assert inbound[i..][0] == inbound[i] && inbound[i..][1..] == inbound[i + 1..];
    }
  }

  /** A whole connection: under any segmentation of the bytes, one fold over the parsed stream. */
  method HandleConnection(sessions: map<Uuid, Session>, inbound: seq<Read>)
    returns (after: map<Uuid, Session>, written: bytes)
    ensures var r := Run(Fresh(sessions), Parse(Received(inbound)).frames);
      written == r.written && after == Finish(r)
  {
    hide Run, Step, Parse, Received, Finish;
    var parser := new FrameParser();
    var conn := new Connection(sessions);
    ghost var consumed: bytes := [];
    ghost var seen: seq<WireFrame> := [];
    ParseStep([]);
    RunNothing(Fresh(sessions));
    assert inbound[0..] == inbound && [] + Received(inbound) == Received(inbound);
    var i := 0;
    while i < |inbound| && inbound[i].Data? && inbound[i].data != [] && conn.running
      invariant 0 <= i <= |inbound| && fresh(parser) && fresh(conn)
      invariant Received(inbound) == consumed + Received(inbound[i..])
      invariant Parse(consumed) == Parsed(seen, parser.buf)
      invariant conn.View() == Run(Fresh(sessions), seen)
    {
      ReceivedStep(inbound, i);
      var data := inbound[i].data;
      ParseResumes(consumed, data);
      Associate(consumed, data, Received(inbound[i + 1..]));
      var frames := parser.Feed(data);
      RunAppend(Fresh(sessions), seen, frames);
      conn.HandleFrames(frames);
      consumed := consumed + data;
      seen := seen + frames;
      i := i + 1;
    }
    ReceivedStep(inbound, i);
    ParseResumes(consumed, Received(inbound[i..]));
    ghost var unread := Parse(Parse(consumed).rest + Received(inbound[i..])).frames;
    RunAppend(Fresh(sessions), seen, unread);
    if conn.running {
      assert consumed + [] == consumed;
      assert Parse(Received(inbound)).frames == seen;
    } else {
      RunStopped(conn.View(), unread);
    }
    conn.Close();
    after, written := conn.sessions, conn.written;
  }
}
