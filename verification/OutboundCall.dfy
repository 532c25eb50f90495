module OutboundCall {
  /** The limits on AI-placed outbound calls (backend/app/agents/outbound_call.py): calling hours, the daily
      maximum and the repeat rule, decided on a call log that is pruned to two days.

      Instants are microseconds. New York time is only known to be four or five hours behind UTC; which
      of the two applies when is an arbitrary function of the instant. */

  const MINUTE: int := 60_000_000
  const HOUR: int := 60 * MINUTE
  const DAY: int := 24 * HOUR
  const LOG_KEEP: int := 2 * DAY

  type Offset = int -> int

  ghost predicate Eastern(off: Offset) { forall t :: off(t) == -4 * HOUR || off(t) == -5 * HOUR }

  function LocalDay(off: Offset, t: int): int { (t + off(t)) / DAY }

  function TimeOfDay(off: Offset, t: int): int { (t + off(t)) % DAY }

  predicate WithinHours(off: Offset, now: int) { 8 * HOUR <= TimeOfDay(off, now) < 20 * HOUR }

  datatype Entry = Entry(at: int, to: string)

  // --- the kernels -------------------------------------------------------------------

  /** `used_today` */
  function UsedToday(off: Offset, log: seq<Entry>, now: int): nat {
    OnDay(off, log, LocalDay(off, now))
  }

  function OnDay(off: Offset, log: seq<Entry>, day: int): nat {
    if log == [] then 0
    else OnDay(off, log[..|log| - 1], day) + if LocalDay(off, log[|log| - 1].at) == day then 1 else 0
  }

  function Since(now: int, minutes: int): int { now - (if minutes > 0 then minutes else 0) * MINUTE }

  predicate CalledRecently(log: seq<Entry>, to: string, now: int, minutes: int) {
    exists i :: 0 <= i < |log| && log[i].to == to && log[i].at > Since(now, minutes)
  }

  /** The loop of `called_recently`. */
  method CheckRecent(log: seq<Entry>, to: string, now: int, minutes: int) returns (recent: bool)
    ensures recent <==> CalledRecently(log, to, now, minutes)
  {
    for i := 0 to |log|
      invariant forall j :: 0 <= j < i ==> !(log[j].to == to && log[j].at > Since(now, minutes))
    {
      if log[i].to == to && log[i].at > Since(now, minutes) {
        return true;
      }
    }
    return false;
  }

  /** The entries after `cutoff`, in order. */
  function After(log: seq<Entry>, cutoff: int): seq<Entry> {
    if log == [] then []
    else After(log[..|log| - 1], cutoff) + if log[|log| - 1].at > cutoff then [log[|log| - 1]] else []
  }

  // --- placing a call ----------------------------------------------------------------

  datatype Config = Config(dailyMax: int, repeatMinutes: int)

  /** One request that reached the log: the number in canonical form, the instant, the refusal of an
      earlier guard if there was one, and whether the spend cap is reached. */
  datatype Request = Request(to: string, now: int, earlier: Option, overCap: bool)

  datatype Option = None | Some(status: int)

  datatype Decision = Placed | Refused(status: int)

  function Decide(off: Offset, cfg: Config, log: seq<Entry>, r: Request): Decision {
    if r.earlier.Some? then Refused(r.earlier.status)
    else if !WithinHours(off, r.now) then Refused(409)
    else if UsedToday(off, log, r.now) >= cfg.dailyMax then Refused(429)
    else if CalledRecently(log, r.to, r.now, cfg.repeatMinutes) then Refused(429)
    else if r.overCap then Refused(409)
    else Placed
  }

  function Recorded(log: seq<Entry>, r: Request): seq<Entry> {
    After(log, r.now - LOG_KEEP) + [Entry(r.now, r.to)]
  }

  // --- whole runs --------------------------------------------------------------------

  predicate ClockMonotone(rs: seq<Request>) { forall i, j :: 0 <= i < j < |rs| ==> rs[i].now <= rs[j].now }

  /** The stored log before request `n`. */
  function LogAt(off: Offset, cfg: Config, rs: seq<Request>, n: nat): seq<Entry>
    requires n <= |rs|
  {
    if n == 0 then []
    else
      var log := LogAt(off, cfg, rs, n - 1);
      if Decide(off, cfg, log, rs[n - 1]).Placed? then Recorded(log, rs[n - 1]) else log
  }

  /** Every call placed before request `n`, nothing forgotten. */
  function HistoryAt(off: Offset, cfg: Config, rs: seq<Request>, n: nat): seq<Entry>
    requires n <= |rs|
  {
    if n == 0 then []
    else
      var h := HistoryAt(off, cfg, rs, n - 1);
      if Decide(off, cfg, LogAt(off, cfg, rs, n - 1), rs[n - 1]).Placed? then h + [Entry(rs[n - 1].now, rs[n - 1].to)] else h
  }

  // --- pruning does not change a decision --------------------------------------------

  lemma {:induction false} AfterAppend(a: seq<Entry>, e: Entry, cutoff: int)
    ensures After(a + [e], cutoff) == After(a, cutoff) + if e.at > cutoff then [e] else []
  {
    assert (a + [e])[..|a|] == a;
  }

  lemma {:induction false} AfterTwice(log: seq<Entry>, a: int, b: int)
    requires a <= b
    ensures After(After(log, a), b) == After(log, b)
  {
    if log != [] {
      var e := log[|log| - 1];
      AfterTwice(log[..|log| - 1], a, b);
      if e.at > a {
        AfterAppend(After(log[..|log| - 1], a), e, b);
      } else {
        assert After(log[..|log| - 1], a) + [] == After(log[..|log| - 1], a);
        assert After(log[..|log| - 1], b) + [] == After(log[..|log| - 1], b);
      }
    }
  }

  /** An entry two days old cannot fall on today's New York date, whatever the offsets do. */
  lemma {:induction false} OldIsAnotherDay(off: Offset, at: int, now: int)
    requires Eastern(off) && at <= now - LOG_KEEP
    ensures LocalDay(off, at) != LocalDay(off, now)
  {
    var a, b := at + off(at), now + off(now);
    assert b - a >= DAY;
    assert a == DAY * (a / DAY) + a % DAY && b == DAY * (b / DAY) + b % DAY;
  }

  lemma {:induction false} PruningKeepsTheDayCount(off: Offset, log: seq<Entry>, now: int)
    requires Eastern(off)
    ensures UsedToday(off, After(log, now - LOG_KEEP), now) == UsedToday(off, log, now)
  {
    hide LocalDay;
    if log != [] {
      var init, e := log[..|log| - 1], log[|log| - 1];
      PruningKeepsTheDayCount(off, init, now);
      if e.at > now - LOG_KEEP {
        var kept := After(init, now - LOG_KEEP);
        assert (kept + [e])[..|kept|] == kept;
      } else {
        OldIsAnotherDay(off, e.at, now);
        assert After(init, now - LOG_KEEP) + [] == After(init, now - LOG_KEEP);
      }
    }
  }

  lemma {:induction false} AfterMembers(log: seq<Entry>, cutoff: int)
    ensures forall e :: e in After(log, cutoff) <==> e in log && e.at > cutoff
  {
    if log != [] {
      AfterMembers(log[..|log| - 1], cutoff);
      assert log == log[..|log| - 1] + [log[|log| - 1]];
    }
  }

  lemma {:induction false} PruningKeepsTheRepeatRule(log: seq<Entry>, to: string, now: int, minutes: int)
    requires minutes <= 2880
    ensures CalledRecently(After(log, now - LOG_KEEP), to, now, minutes) <==> CalledRecently(log, to, now, minutes)
  {
    var kept := After(log, now - LOG_KEEP);
    AfterMembers(log, now - LOG_KEEP);
    if CalledRecently(log, to, now, minutes) {
      var i :| 0 <= i < |log| && log[i].to == to && log[i].at > Since(now, minutes);
      assert log[i] in kept;
    }
    if CalledRecently(kept, to, now, minutes) {
      var i :| 0 <= i < |kept| && kept[i].to == to && kept[i].at > Since(now, minutes);
      assert kept[i] in log;
    }
  }

  /** Two logs that agree on the last two days give the same answer. */
  lemma {:induction false} DecisionNeedsTwoDays(off: Offset, cfg: Config, a: seq<Entry>, b: seq<Entry>, r: Request)
    requires Eastern(off) && cfg.repeatMinutes <= 2880
    requires After(a, r.now - LOG_KEEP) == After(b, r.now - LOG_KEEP)
    ensures Decide(off, cfg, a, r) == Decide(off, cfg, b, r)
  {
    hide UsedToday, CalledRecently, After, WithinHours;
    PruningKeepsTheDayCount(off, a, r.now);
    PruningKeepsTheDayCount(off, b, r.now);
    PruningKeepsTheRepeatRule(a, r.to, r.now, cfg.repeatMinutes);
    PruningKeepsTheRepeatRule(b, r.to, r.now, cfg.repeatMinutes);
  }

  lemma {:induction false} Next(off: Offset, cfg: Config, rs: seq<Request>, n: nat)
    requires n < |rs|
    ensures var log, h, r := LogAt(off, cfg, rs, n), HistoryAt(off, cfg, rs, n), rs[n];
      if Decide(off, cfg, log, r).Placed? then
        LogAt(off, cfg, rs, n + 1) == Recorded(log, r) && HistoryAt(off, cfg, rs, n + 1) == h + [Entry(r.now, r.to)]
      else LogAt(off, cfg, rs, n + 1) == log && HistoryAt(off, cfg, rs, n + 1) == h
  {
  }

  /** The stored log and the full history agree on everything after any cutoff that is two days before
      some instant not earlier than the last request. */
  lemma {:induction false} LogAgreesWithHistory(off: Offset, cfg: Config, rs: seq<Request>, n: nat, now: int)
    requires n <= |rs| && ClockMonotone(rs) && (n > 0 ==> rs[n - 1].now <= now)
    ensures After(LogAt(off, cfg, rs, n), now - LOG_KEEP) == After(HistoryAt(off, cfg, rs, n), now - LOG_KEEP)
  {
    if n > 0 {
      hide LogAt, HistoryAt, After, Decide;
      Next(off, cfg, rs, n - 1);
      LogAgreesWithHistory(off, cfg, rs, n - 1, now);
      var log, h, r := LogAt(off, cfg, rs, n - 1), HistoryAt(off, cfg, rs, n - 1), rs[n - 1];
      if Decide(off, cfg, log, r).Placed? {
        RecordingAgrees(log, h, r, now - LOG_KEEP);
      }
    }
  }

  lemma {:induction false} RecordingAgrees(log: seq<Entry>, h: seq<Entry>, r: Request, cutoff: int)
    requires r.now - LOG_KEEP <= cutoff && After(log, cutoff) == After(h, cutoff)
    ensures After(Recorded(log, r), cutoff) == After(h + [Entry(r.now, r.to)], cutoff)
  {
    hide After;
    var e := Entry(r.now, r.to);
    AfterTwice(log, r.now - LOG_KEEP, cutoff);
    AfterAppend(After(log, r.now - LOG_KEEP), e, cutoff);
    AfterAppend(h, e, cutoff);
  }

  /** Every decision made on the pruned log is the decision the complete history would give. */
  lemma {:induction false} PrunedLogDecidesLikeHistory(off: Offset, cfg: Config, rs: seq<Request>, n: nat)
    requires Eastern(off) && cfg.repeatMinutes <= 2880 && n < |rs| && ClockMonotone(rs)
    ensures Decide(off, cfg, LogAt(off, cfg, rs, n), rs[n]) == Decide(off, cfg, HistoryAt(off, cfg, rs, n), rs[n])
  {
    hide LogAt, HistoryAt, After, Decide;
    LogAgreesWithHistory(off, cfg, rs, n, rs[n].now);
    DecisionNeedsTwoDays(off, cfg, LogAt(off, cfg, rs, n), HistoryAt(off, cfg, rs, n), rs[n]);
  }

  // --- the promises ------------------------------------------------------------------

  predicate DaysWithinLimit(off: Offset, h: seq<Entry>, dailyMax: int) {
    forall i :: 0 <= i < |h| ==> OnDay(off, h, LocalDay(off, h[i].at)) <= dailyMax
  }

  predicate Spaced(h: seq<Entry>, minutes: int) {
    forall i, j :: 0 <= i < j < |h| && h[i].to == h[j].to ==> h[i].at <= Since(h[j].at, minutes)
  }

  predicate InHours(off: Offset, h: seq<Entry>) { forall i :: 0 <= i < |h| ==> WithinHours(off, h[i].at) }

  lemma {:induction false} OnDayAppend(off: Offset, h: seq<Entry>, e: Entry, day: int)
    ensures OnDay(off, h + [e], day) == OnDay(off, h, day) + if LocalDay(off, e.at) == day then 1 else 0
  {
    assert (h + [e])[..|h|] == h;
  }

  /** The count of today's calls on the pruned log is that on the full history. */
  lemma {:induction false} SameDayCount(off: Offset, cfg: Config, rs: seq<Request>, n: nat)
    requires Eastern(off) && n < |rs| && ClockMonotone(rs)
    ensures UsedToday(off, LogAt(off, cfg, rs, n), rs[n].now) == UsedToday(off, HistoryAt(off, cfg, rs, n), rs[n].now)
  {
    hide LogAt, HistoryAt, After, UsedToday;
    LogAgreesWithHistory(off, cfg, rs, n, rs[n].now);
    PruningKeepsTheDayCount(off, LogAt(off, cfg, rs, n), rs[n].now);
    PruningKeepsTheDayCount(off, HistoryAt(off, cfg, rs, n), rs[n].now);
  }

  lemma {:induction false} PlacingKeepsDays(off: Offset, cfg: Config, h: seq<Entry>, r: Request)
    requires UsedToday(off, h, r.now) < cfg.dailyMax && WithinHours(off, r.now)
    requires DaysWithinLimit(off, h, cfg.dailyMax) && InHours(off, h)
    ensures var g := h + [Entry(r.now, r.to)]; DaysWithinLimit(off, g, cfg.dailyMax) && InHours(off, g)
  {
    hide OnDay, LocalDay, WithinHours;
    var e := Entry(r.now, r.to);
    var g := h + [e];
    forall i | 0 <= i < |g|
      ensures OnDay(off, g, LocalDay(off, g[i].at)) <= cfg.dailyMax
    {
      OnDayAppend(off, h, e, LocalDay(off, g[i].at));
      if i < |h| {
        assert g[i] == h[i];
      }
    }
  }

  lemma {:induction false} PlacingKeepsSpacing(h: seq<Entry>, e: Entry, minutes: int)
    requires Spaced(h, minutes) && forall i :: 0 <= i < |h| && h[i].to == e.to ==> h[i].at <= Since(e.at, minutes)
    ensures Spaced(h + [e], minutes)
  {
    hide Since;
    var g := h + [e];
    forall i, j | 0 <= i < j < |g| && g[i].to == g[j].to
      ensures g[i].at <= Since(g[j].at, minutes)
    {
      assert g[i] == h[i];
      if j < |h| {
        assert g[j] == h[j];
      }
    }
  }

  lemma {:induction false} NothingPlaced(off: Offset, cfg: Config)
    ensures DaysWithinLimit(off, [], cfg.dailyMax) && Spaced([], cfg.repeatMinutes) && InHours(off, [])
  {
  }

  lemma {:induction false} PlacedMeans(off: Offset, cfg: Config, log: seq<Entry>, r: Request)
    requires Decide(off, cfg, log, r).Placed?
    ensures UsedToday(off, log, r.now) < cfg.dailyMax && WithinHours(off, r.now)
    ensures !CalledRecently(log, r.to, r.now, cfg.repeatMinutes)
  {
  }

  /** Over every run with a clock that does not go backwards: no New York day holds more than the daily
      maximum, and every call is in hours. */
  lemma {:induction false} DaysAndHoursAlwaysHold(off: Offset, cfg: Config, rs: seq<Request>, n: nat)
    requires Eastern(off) && n <= |rs| && ClockMonotone(rs)
    ensures DaysWithinLimit(off, HistoryAt(off, cfg, rs, n), cfg.dailyMax) && InHours(off, HistoryAt(off, cfg, rs, n))
  {
    hide LogAt, HistoryAt, Decide, DaysWithinLimit, InHours, UsedToday, WithinHours;
    if n == 0 {
      First(off, cfg, rs);
      NothingPlaced(off, cfg);
    } else {
      DaysAndHoursAlwaysHold(off, cfg, rs, n - 1);
      Next(off, cfg, rs, n - 1);
      var h, r := HistoryAt(off, cfg, rs, n - 1), rs[n - 1];
      if Decide(off, cfg, LogAt(off, cfg, rs, n - 1), r).Placed? {
        PlacedMeans(off, cfg, LogAt(off, cfg, rs, n - 1), r);
        SameDayCount(off, cfg, rs, n - 1);
        PlacingKeepsDays(off, cfg, h, r);
      }
    }
  }

  // --- the repeat rule and the log ---------------------------------------------------

  /** A call to one number, another call at least two days later, and the first number again within the
      repeat window: the second call erases the first from the log. With one call a day the second and
      the third must fall on different days. */
  predicate Forgets(off: Offset, cfg: Config, x: int, y: int, z: int) {
    && x + LOG_KEEP <= y <= z && x > Since(z, cfg.repeatMinutes)
    && WithinHours(off, x) && WithinHours(off, y) && WithinHours(off, z)
    && (cfg.dailyMax == 1 ==> LocalDay(off, y) != LocalDay(off, z))
  }

  ghost predicate CanForget(off: Offset, cfg: Config) { exists x, y, z :: Forgets(off, cfg, x, y, z) }

  predicate ForgottenFor(h: seq<Entry>, i: nat, k: nat)
    requires i < |h|
  {
    i < k < |h| && h[i].at + LOG_KEEP <= h[k].at
  }

  /** A call is on the log until another is placed two days later or more. */
  predicate Remembered(log: seq<Entry>, h: seq<Entry>, i: nat)
    requires i < |h|
  {
    h[i] in log || exists k :: i < k < |h| && ForgottenFor(h, i, k)
  }

  lemma {:induction false} RecordingRemembers(log: seq<Entry>, h: seq<Entry>, r: Request, i: nat)
    requires i <= |h| && (i < |h| ==> Remembered(log, h, i))
    ensures Remembered(Recorded(log, r), h + [Entry(r.now, r.to)], i)
  {
    hide After;
    var e := Entry(r.now, r.to);
    var g := h + [e];
    AfterMembers(log, r.now - LOG_KEEP);
    if i == |h| {
      assert g[i] == e;
    } else {
      assert g[i] == h[i];
      if h[i] in log {
        if h[i].at <= r.now - LOG_KEEP {
          assert g[|h|] == e;
          assert ForgottenFor(g, i, |h|);
        }
      } else {
        var k :| i < k < |h| && ForgottenFor(h, i, k);
        assert g[k] == h[k];
        assert ForgottenFor(g, i, k);
      }
    }
  }

  lemma {:induction false} RememberedAlways(off: Offset, cfg: Config, rs: seq<Request>, n: nat, i: nat)
    requires n <= |rs| && i < |HistoryAt(off, cfg, rs, n)|
    ensures Remembered(LogAt(off, cfg, rs, n), HistoryAt(off, cfg, rs, n), i)
  {
    hide LogAt, HistoryAt, Decide, Recorded, Remembered;
    if n == 0 {
      First(off, cfg, rs);
    } else {
      Next(off, cfg, rs, n - 1);
      var log, h := LogAt(off, cfg, rs, n - 1), HistoryAt(off, cfg, rs, n - 1);
      if i < |h| {
        RememberedAlways(off, cfg, rs, n - 1, i);
      }
      if Decide(off, cfg, log, rs[n - 1]).Placed? {
        RecordingRemembers(log, h, rs[n - 1], i);
      }
    }
  }

  lemma {:induction false} HistoryIsPast(off: Offset, cfg: Config, rs: seq<Request>, n: nat, now: int)
    requires n <= |rs| && ClockMonotone(rs) && (n > 0 ==> rs[n - 1].now <= now)
    ensures forall i :: 0 <= i < |HistoryAt(off, cfg, rs, n)| ==> HistoryAt(off, cfg, rs, n)[i].at <= now
  {
    hide LogAt, HistoryAt, Decide, Recorded;
    if n == 0 {
      First(off, cfg, rs);
    } else {
      Next(off, cfg, rs, n - 1);
      HistoryIsPast(off, cfg, rs, n - 1, now);
    }
  }

  lemma {:induction false} OnDaySome(off: Offset, h: seq<Entry>, k: nat)
    requires k < |h|
    ensures OnDay(off, h, LocalDay(off, h[k].at)) >= 1
  {
    hide LocalDay;
    if k < |h| - 1 {
      OnDaySome(off, h[..|h| - 1], k);
    }
  }

  /** A repeat that the log did not catch has the shape of `Forgets`. */
  lemma {:induction false} UncaughtIsForgotten(off: Offset, cfg: Config, rs: seq<Request>, n: nat, i: nat)
    requires Eastern(off) && n < |rs| && ClockMonotone(rs) && i < |HistoryAt(off, cfg, rs, n)|
    requires Decide(off, cfg, LogAt(off, cfg, rs, n), rs[n]).Placed?
    requires HistoryAt(off, cfg, rs, n)[i].to == rs[n].to
    requires HistoryAt(off, cfg, rs, n)[i].at > Since(rs[n].now, cfg.repeatMinutes)
    ensures CanForget(off, cfg)
  {
    hide LogAt, HistoryAt, Decide, UsedToday, WithinHours, OnDay, LocalDay, Since;
    var log, h, r := LogAt(off, cfg, rs, n), HistoryAt(off, cfg, rs, n), rs[n];
    PlacedMeans(off, cfg, log, r);
    RememberedAlways(off, cfg, rs, n, i);
    assert h[i] !in log;
    var k :| i < k < |h| && ForgottenFor(h, i, k);
    HistoryIsPast(off, cfg, rs, n, r.now);
    DaysAndHoursAlwaysHold(off, cfg, rs, n);
    DaysAndHoursAlwaysHold(off, cfg, rs, n + 1);
    Next(off, cfg, rs, n);
    var g := h + [Entry(r.now, r.to)];
    assert g[|h|].at == r.now;
    OnDayAppend(off, h, g[|h|], LocalDay(off, r.now));
    OnDaySome(off, h, k);
    assert Forgets(off, cfg, h[i].at, h[k].at, r.now);
  }

  lemma {:induction false} SpacedUnlessForgotten(off: Offset, cfg: Config, rs: seq<Request>, n: nat)
    requires Eastern(off) && n <= |rs| && ClockMonotone(rs) && !CanForget(off, cfg)
    ensures Spaced(HistoryAt(off, cfg, rs, n), cfg.repeatMinutes)
  {
    hide LogAt, HistoryAt, Decide, Spaced, CanForget, Since;
    if n == 0 {
      First(off, cfg, rs);
      NothingPlaced(off, cfg);
    } else {
      var m := n - 1;
      SpacedUnlessForgotten(off, cfg, rs, m);
      Next(off, cfg, rs, m);
      var h, r := HistoryAt(off, cfg, rs, m), rs[m];
      if Decide(off, cfg, LogAt(off, cfg, rs, m), r).Placed? {
        forall i | 0 <= i < |h| && h[i].to == r.to
          ensures h[i].at <= Since(r.now, cfg.repeatMinutes)
        {
          if h[i].at > Since(r.now, cfg.repeatMinutes) {
            UncaughtIsForgotten(off, cfg, rs, m, i);
          }
        }
        PlacingKeepsSpacing(h, Entry(r.now, r.to), cfg.repeatMinutes);
      }
    }
  }

  // --- and when the log does forget --------------------------------------------------

  function ForgetfulRun(x: int, y: int, z: int): seq<Request> {
    [Request("a", x, None, false), Request("b", y, None, false), Request("a", z, None, false)]
  }

  lemma {:induction false} OneEntry(off: Offset, e: Entry, day: int, cutoff: int)
    ensures OnDay(off, [e], day) == if LocalDay(off, e.at) == day then 1 else 0
    ensures After([e], cutoff) == if e.at > cutoff then [e] else []
  {
    assert [e][..0] == [];
  }

  lemma {:induction false} ForgetfulDecisions(off: Offset, cfg: Config, x: int, y: int, z: int)
    requires Eastern(off) && cfg.dailyMax >= 1 && Forgets(off, cfg, x, y, z)
    ensures var rs := ForgetfulRun(x, y, z); var a, b := Entry(x, "a"), Entry(y, "b");
      && Decide(off, cfg, [], rs[0]).Placed? && Recorded([], rs[0]) == [a]
      && Decide(off, cfg, [a], rs[1]).Placed? && Recorded([a], rs[1]) == [b]
      && Decide(off, cfg, [b], rs[2]).Placed?
  {
    var a, b := Entry(x, "a"), Entry(y, "b");
    OldIsAnotherDay(off, x, y);
    hide LocalDay, WithinHours, Since;
    OneEntry(off, a, LocalDay(off, y), y - LOG_KEEP);
    OneEntry(off, b, LocalDay(off, z), y);
    assert [] + [a] == [a] && [] + [b] == [b];
  }

  lemma {:induction false} ForgetfulRunPlacesAll(off: Offset, cfg: Config, x: int, y: int, z: int)
    requires Eastern(off) && cfg.dailyMax >= 1 && Forgets(off, cfg, x, y, z)
    ensures HistoryAt(off, cfg, ForgetfulRun(x, y, z), 3) == [Entry(x, "a"), Entry(y, "b"), Entry(z, "a")]
  {
    var rs := ForgetfulRun(x, y, z);
    ForgetfulDecisions(off, cfg, x, y, z);
    hide LogAt, HistoryAt, Decide, Recorded, Forgets;
    First(off, cfg, rs);
    Next(off, cfg, rs, 0);
    Next(off, cfg, rs, 1);
    Next(off, cfg, rs, 2);
  }

  lemma {:induction false} First(off: Offset, cfg: Config, rs: seq<Request>)
    ensures LogAt(off, cfg, rs, 0) == [] && HistoryAt(off, cfg, rs, 0) == []
  {
  }

  lemma {:induction false} NoCallsAllowed(off: Offset, cfg: Config, rs: seq<Request>, n: nat)
    requires cfg.dailyMax <= 0 && n <= |rs|
    ensures HistoryAt(off, cfg, rs, n) == []
  {
    if n > 0 {
      hide UsedToday, CalledRecently, WithinHours;
      NoCallsAllowed(off, cfg, rs, n - 1);
    }
  }

  ghost predicate AlwaysSpaced(off: Offset, cfg: Config) {
    forall rs: seq<Request>, n: nat :: n <= |rs| && ClockMonotone(rs) ==> Spaced(HistoryAt(off, cfg, rs, n), cfg.repeatMinutes)
  }

  lemma {:induction false} ForgettingIsSeen(off: Offset, cfg: Config)
    requires Eastern(off) && cfg.dailyMax >= 1 && CanForget(off, cfg)
    ensures !AlwaysSpaced(off, cfg)
  {
    hide HistoryAt, LogAt, WithinHours, LocalDay;
    var x, y, z :| Forgets(off, cfg, x, y, z);
    var rs := ForgetfulRun(x, y, z);
    ForgetfulRunPlacesAll(off, cfg, x, y, z);
    var h := HistoryAt(off, cfg, rs, 3);
    assert h[0].to == h[2].to && !(h[0].at <= Since(h[2].at, cfg.repeatMinutes));
    assert ClockMonotone(rs);
  }

  /** For every setting and every calendar: over all runs no number is called twice within the repeat
      minutes exactly when no call is allowed at all, or no three calling hours let the log forget. */
  lemma {:induction false} RepeatRuleHoldsExactlyWhen(off: Offset, cfg: Config)
    requires Eastern(off)
    ensures AlwaysSpaced(off, cfg) <==> cfg.dailyMax <= 0 || !CanForget(off, cfg)
  {
    hide HistoryAt, LogAt, CanForget;
    if cfg.dailyMax <= 0 {
      forall rs: seq<Request>, n: nat | n <= |rs|
        ensures HistoryAt(off, cfg, rs, n) == []
      {
        NoCallsAllowed(off, cfg, rs, n);
      }
    } else if CanForget(off, cfg) {
      ForgettingIsSeen(off, cfg);
    } else {
      forall rs: seq<Request>, n: nat | n <= |rs| && ClockMonotone(rs)
        ensures Spaced(HistoryAt(off, cfg, rs, n), cfg.repeatMinutes)
      {
        SpacedUnlessForgotten(off, cfg, rs, n);
      }
    }
  }

  lemma {:induction false} NoonIsInHours(off: Offset)
    requires Eastern(off)
    ensures WithinHours(off, 17 * HOUR) && WithinHours(off, 17 * HOUR + LOG_KEEP)
  {
  }

  lemma {:induction false} WindowIs(z: int, minutes: int)
    ensures minutes <= 2880 ==> Since(z, minutes) >= z - LOG_KEEP
    ensures minutes > 2880 ==> Since(z, minutes) < z - LOG_KEEP
  {
  }

  /** The log keeps two days, so with two calls a day or more the repeat rule can be trusted exactly up to
      2880 minutes. */
  lemma {:induction false} RepeatRuleNeedsTheLog(off: Offset, cfg: Config)
    requires Eastern(off) && cfg.dailyMax != 1
    ensures AlwaysSpaced(off, cfg) <==> cfg.repeatMinutes <= 2880 || cfg.dailyMax <= 0
  {
    RepeatRuleHoldsExactlyWhen(off, cfg);
    NoonIsInHours(off);
    hide AlwaysSpaced, WithinHours, LocalDay, Since;
    if cfg.repeatMinutes > 2880 {
      WindowIs(17 * HOUR + LOG_KEEP, cfg.repeatMinutes);
      assert Forgets(off, cfg, 17 * HOUR, 17 * HOUR + LOG_KEEP, 17 * HOUR + LOG_KEEP);
    } else {
      TwoDaysSuffice(off, cfg);
    }
  }

  lemma {:induction false} TwoDaysSuffice(off: Offset, cfg: Config)
    requires cfg.repeatMinutes <= 2880
    ensures !CanForget(off, cfg)
  {
    hide WithinHours, LocalDay, Since;
    if CanForget(off, cfg) {
      var x, y, z :| Forgets(off, cfg, x, y, z);
      WindowIs(z, cfg.repeatMinutes);
    }
  }

  // --- one call a day ----------------------------------------------------------------

  ghost predicate SameOffset(off: Offset) { Eastern(off) && forall t :: off(t) == off(0) }

  /** From the end of one calling day to the start of the third after it: sixty hours. */
  const SIXTY_HOURS: int := 60 * HOUR

  lemma {:induction false} ThirdMorning(off: Offset, x: int, y: int, z: int)
    requires SameOffset(off) && x + LOG_KEEP <= y <= z && LocalDay(off, y) != LocalDay(off, z)
    requires WithinHours(off, x) && WithinHours(off, z)
    ensures z - x > SIXTY_HOURS
  {
    var c := off(0);
    var a, b, d := x + c, y + c, z + c;
    assert off(x) == c && off(y) == c && off(z) == c;
    Divides(a);
    Divides(b);
    Divides(d);
    LaterDay(a, b, 2);
    LaterDay(b, d, 0);
  }

  lemma {:induction false} Divides(t: int)
    ensures t == DAY * (t / DAY) + t % DAY && 0 <= t % DAY < DAY
  {
  }

  lemma {:induction false} LaterDay(a: int, b: int, days: int)
    requires a + days * DAY <= b
    ensures a / DAY + days <= b / DAY
  {
    Divides(a);
    Divides(b);
  }

  /** The last instant of calling hours, two days later, and eight o'clock the morning after. */
  lemma {:induction false} SixtyHoursAndOneInstant(off: Offset, cfg: Config)
    requires SameOffset(off) && cfg.repeatMinutes > 3600
    ensures CanForget(off, cfg)
  {
    var c := off(0);
    var x := 20 * HOUR - 1 - c;
    var y, z := x + LOG_KEEP, 3 * DAY + 8 * HOUR - c;
    assert off(x) == c && off(y) == c && off(z) == c;
    assert (x + c) / DAY == 0 && (y + c) / DAY == 2 && (z + c) / DAY == 3;
    assert Since(z, cfg.repeatMinutes) <= z - 3601 * MINUTE;
    assert Forgets(off, cfg, x, y, z);
  }

  /** With one call a day, and no change of the clocks in between, the log is good for 3600 minutes: the
      call that erases must fall on a day of its own. */
  lemma {:induction false} RepeatRuleOnceADay(off: Offset, cfg: Config)
    requires SameOffset(off) && cfg.dailyMax == 1
    ensures AlwaysSpaced(off, cfg) <==> cfg.repeatMinutes <= 3600
  {
    RepeatRuleHoldsExactlyWhen(off, cfg);
    hide AlwaysSpaced, WithinHours, LocalDay;
    if cfg.repeatMinutes > 3600 {
      SixtyHoursAndOneInstant(off, cfg);
    } else if CanForget(off, cfg) {
      var x, y, z :| Forgets(off, cfg, x, y, z);
      ThirdMorning(off, x, y, z);
    }
  }

  /** Over every run with a clock that does not go backwards: no New York day holds more than the daily
      maximum, every call is in hours, and, up to 2880 minutes, no number is called twice within the
      repeat minutes. */
  lemma {:induction false} LimitsAlwaysHold(off: Offset, cfg: Config, rs: seq<Request>, n: nat)
    requires Eastern(off) && n <= |rs| && ClockMonotone(rs)
    ensures var h := HistoryAt(off, cfg, rs, n);
      && DaysWithinLimit(off, h, cfg.dailyMax) && InHours(off, h)
      && (cfg.repeatMinutes <= 2880 ==> Spaced(h, cfg.repeatMinutes))
  {
    hide HistoryAt, CanForget, Spaced, DaysWithinLimit, InHours;
    DaysAndHoursAlwaysHold(off, cfg, rs, n);
    if cfg.repeatMinutes <= 2880 {
      TwoDaysSuffice(off, cfg);
      SpacedUnlessForgotten(off, cfg, rs, n);
    }
  }

  // --- what is placed, and nothing else ----------------------------------------------

  /** None of the calls went to this number after `since`. */
  predicate NoneSince(calls: seq<Entry>, to: string, since: int) {
    forall i :: 0 <= i < |calls| && calls[i].to == to ==> calls[i].at <= since
  }

  /** Every limit, said of the calls already placed and the calls remembered: no guard before them refused,
      it is from eight to twenty o'clock, the day is not full, the number was not called in the window, and
      the day's spending is under the cap. */
  predicate MayCall(off: Offset, cfg: Config, placed: seq<Entry>, remembered: seq<Entry>, r: Request) {
    && r.earlier == None
    && 8 * HOUR <= (r.now + off(r.now)) % DAY < 20 * HOUR
    && OnDay(off, placed, (r.now + off(r.now)) / DAY) < cfg.dailyMax
    && NoneSince(remembered, r.to, if cfg.repeatMinutes <= 0 then r.now else r.now - cfg.repeatMinutes * MINUTE)
    && !r.overCap
  }

  lemma {:induction false} RecentlyIs(calls: seq<Entry>, to: string, now: int, minutes: int)
    ensures CalledRecently(calls, to, now, minutes)
       <==> !NoneSince(calls, to, if minutes <= 0 then now else now - minutes * MINUTE)
  {
  }

  lemma {:induction false} DecideIs(off: Offset, cfg: Config, log: seq<Entry>, r: Request)
    ensures Decide(off, cfg, log, r).Placed? <==> MayCall(off, cfg, log, log, r)
  {
    hide CalledRecently, NoneSince, OnDay;
    RecentlyIs(log, r.to, r.now, cfg.repeatMinutes);
  }

  lemma {:induction false} SameCountSameAnswer(off: Offset, cfg: Config, a: seq<Entry>, b: seq<Entry>, log: seq<Entry>, r: Request)
    requires UsedToday(off, a, r.now) == UsedToday(off, b, r.now)
    ensures MayCall(off, cfg, a, log, r) <==> MayCall(off, cfg, b, log, r)
  {
    hide NoneSince, OnDay;
  }

  /** Over every run: request `n` adds exactly its own call, and adds it if and only if every limit allows
      it, the day being counted on everything ever placed. */
  lemma {:induction false} PlacesExactlyWhen(off: Offset, cfg: Config, rs: seq<Request>, n: nat)
    requires Eastern(off) && n < |rs| && ClockMonotone(rs)
    ensures var h, r := HistoryAt(off, cfg, rs, n), rs[n];
      HistoryAt(off, cfg, rs, n + 1)
        == if MayCall(off, cfg, h, LogAt(off, cfg, rs, n), r) then h + [Entry(r.now, r.to)] else h
  {
    hide LogAt, HistoryAt, MayCall, UsedToday, Decide;
    Next(off, cfg, rs, n);
    DecideIs(off, cfg, LogAt(off, cfg, rs, n), rs[n]);
    SameDayCount(off, cfg, rs, n);
    SameCountSameAnswer(off, cfg, LogAt(off, cfg, rs, n), HistoryAt(off, cfg, rs, n), LogAt(off, cfg, rs, n), rs[n]);
  }

  /** Up to 2880 minutes the repeat window, too, is judged on everything ever placed. */
  lemma {:induction false} PlacesExactlyWhenHistoryAllows(off: Offset, cfg: Config, rs: seq<Request>, n: nat)
    requires Eastern(off) && n < |rs| && ClockMonotone(rs) && cfg.repeatMinutes <= 2880
    ensures var h, r := HistoryAt(off, cfg, rs, n), rs[n];
      HistoryAt(off, cfg, rs, n + 1) == if MayCall(off, cfg, h, h, r) then h + [Entry(r.now, r.to)] else h
  {
    hide LogAt, HistoryAt, MayCall, Decide;
    Next(off, cfg, rs, n);
    PrunedLogDecidesLikeHistory(off, cfg, rs, n);
    DecideIs(off, cfg, HistoryAt(off, cfg, rs, n), rs[n]);
  }

  /** Request `k` placed call `e`, and every limit allowed it. */
  predicate PlacedBy(off: Offset, cfg: Config, rs: seq<Request>, k: nat, e: Entry)
    requires k < |rs|
  {
    && e == Entry(rs[k].now, rs[k].to)
    && MayCall(off, cfg, HistoryAt(off, cfg, rs, k), LogAt(off, cfg, rs, k), rs[k])
  }

  /** So every call ever placed was asked for, and was allowed when it was asked for. */
  lemma {:induction false} EveryCallWasAllowed(off: Offset, cfg: Config, rs: seq<Request>, n: nat, i: nat)
    requires Eastern(off) && n <= |rs| && ClockMonotone(rs) && i < |HistoryAt(off, cfg, rs, n)|
    ensures exists k :: 0 <= k < n && PlacedBy(off, cfg, rs, k, HistoryAt(off, cfg, rs, n)[i])
  {
    hide LogAt, HistoryAt, MayCall, Decide;
    if n == 0 {
      First(off, cfg, rs);
    } else {
      PlacesExactlyWhen(off, cfg, rs, n - 1);
      var h := HistoryAt(off, cfg, rs, n - 1);
      if i < |h| {
        EveryCallWasAllowed(off, cfg, rs, n - 1, i);
        var k :| 0 <= k < n - 1 && PlacedBy(off, cfg, rs, k, h[i]);
        assert PlacedBy(off, cfg, rs, k, HistoryAt(off, cfg, rs, n)[i]);
      } else {
        assert PlacedBy(off, cfg, rs, n - 1, HistoryAt(off, cfg, rs, n)[i]);
      }
    }
  }

  /** What the caller is told: a guard before the log answers for itself; then 429 is the answer of the two
      rules that count calls, 409 that of the hours and, last, of the spend cap. */
  lemma {:induction false} AnswerMeans(off: Offset, cfg: Config, log: seq<Entry>, r: Request)
    ensures r.earlier.Some? ==> Decide(off, cfg, log, r) == Refused(r.earlier.status)
    ensures r.earlier.None? ==>
      (var open, counted := 8 * HOUR <= (r.now + off(r.now)) % DAY < 20 * HOUR,
           OnDay(off, log, (r.now + off(r.now)) / DAY) >= cfg.dailyMax
           || !NoneSince(log, r.to, if cfg.repeatMinutes <= 0 then r.now else r.now - cfg.repeatMinutes * MINUTE);
       && (Decide(off, cfg, log, r) == Refused(429) <==> open && counted)
       && (Decide(off, cfg, log, r) == Refused(409) <==> !open || (!counted && r.overCap))
       && (Decide(off, cfg, log, r) == Placed <==> open && !counted && !r.overCap))
  {
    hide CalledRecently, NoneSince, OnDay;
    RecentlyIs(log, r.to, r.now, cfg.repeatMinutes);
  }

  // --- the number that is compared ---------------------------------------------------

  predicate Digit(c: char) { '0' <= c <= '9' }

  function Digits(s: string): string {
    if s == "" then "" else (if Digit(s[0]) then [s[0]] else []) + Digits(s[1..])
  }

  /** +1NXXNXXXXXX */
  predicate Canonical(s: string) {
    && |s| == 12 && s[0] == '+' && s[1] == '1' && '2' <= s[2] <= '9' && '2' <= s[5] <= '9'
    && forall i :: 1 <= i < 12 ==> Digit(s[i])
  }

  /** `us_e164` */
  function UsE164(number: string): string {
    var digits := Digits(number);
    var full := if |digits| == 10 then "1" + digits else digits;
    var candidate := if full != "" then "+" + full else "";
    if Canonical(candidate) then candidate else ""
  }

  lemma {:induction false} DigitsOfDigits(s: string)
    requires forall i :: 0 <= i < |s| ==> Digit(s[i])
    ensures Digits(s) == s
  {
    if s != "" {
      DigitsOfDigits(s[1..]);
    }
  }

  /** The rule compares canonical numbers: normalising is idempotent, so two spellings of one number
      always meet in the log. */
  lemma {:induction false} NormalisingIsIdempotent(number: string)
    ensures var n := UsE164(number); (n == "" || Canonical(n)) && UsE164(n) == n
  {
    var n := UsE164(number);
    hide Canonical;
    if n != "" {
      CanonicalDigits(n);
      assert n == "+" + n[1..];
    }
  }

  /** A full US number: ten digits, of which neither the area code nor the exchange starts with 0 or 1. */
  predicate UsNumber(d: string) {
    |d| == 10 && d[0] !in {'0', '1'} && d[3] !in {'0', '1'}
  }

  lemma {:induction false} DigitsAreDigits(s: string)
    ensures forall i :: 0 <= i < |Digits(s)| ==> '0' <= Digits(s)[i] <= '9'
  {
    if s != "" {
      DigitsAreDigits(s[1..]);
    }
  }

  lemma {:induction false} CanonicalIs(digits: string)
    requires forall i :: 0 <= i < |digits| ==> '0' <= digits[i] <= '9'
    ensures Canonical("+" + digits) <==> |digits| == 11 && digits[0] == '1' && UsNumber(digits[1..])
  {
    var s := "+" + digits;
    assert forall i :: 1 <= i < |s| ==> s[i] == digits[i - 1];
  }

  /** The result is the number in full if it is one, with or without the country code, and else nothing. */
  lemma {:induction false} NormalisedIs(number: string)
    ensures var d := Digits(number);
      UsE164(number) ==
        if UsNumber(d) then "+1" + d
        else if |d| == 11 && d[0] == '1' && UsNumber(d[1..]) then "+" + d
        else ""
  {
    hide Digits, Canonical;
    var d := Digits(number);
    DigitsAreDigits(number);
    assert "+" + ("1" + d) == "+1" + d && ("1" + d)[1..] == d;
    CanonicalIs(d);
    CanonicalIs("1" + d);
    TooShort();
    assert "+" + "" == "+";
  }

  /** Punctuation does not matter, nor whether the country code is written. */
  lemma {:induction false} SpellingsMeet(a: string, b: string)
    requires Digits(a) == Digits(b) || (|Digits(a)| == 10 && Digits(b) == "1" + Digits(a))
    ensures UsE164(a) == UsE164(b)
    ensures var n := "+" + (if |Digits(a)| == 10 then "1" + Digits(a) else Digits(a)); UsE164(a) == if Canonical(n) then n else ""
  {
    hide Canonical, Digits;
    TooShort();
    assert "+" + "" == "+";
  }

  lemma {:induction false} TooShort()
    ensures !Canonical("+") && !Canonical("")
  {
  }

  lemma {:induction false} CanonicalDigits(n: string)
    requires Canonical(n)
    ensures |n| == 12 && n[0] == '+' && Digits(n) == n[1..]
  {
    DigitsOfDigits(n[1..]);
    assert [] + Digits(n[1..]) == n[1..];
  }

  // --- the source's procedure --------------------------------------------------------

  class CallDesk {
    const cfg: Config
    const off: Offset
    var log: seq<Entry>

    constructor (cfg: Config, off: Offset)
      ensures this.cfg == cfg && this.off == off && log == []
    {
      this.cfg, this.off, log := cfg, off, [];
    }

    /** The guards of `place` from the calling hours on, and the record it leaves. */
    method Place(r: Request) returns (d: Decision)
      modifies this
      ensures d == Decide(off, cfg, old(log), r)
      ensures log == if d.Placed? then Recorded(old(log), r) else old(log)
    {
      hide WithinHours, UsedToday, CalledRecently;
      if r.earlier.Some? { return Refused(r.earlier.status); }
      if !WithinHours(off, r.now) { return Refused(409); }
      if UsedToday(off, log, r.now) >= cfg.dailyMax { return Refused(429); }
      var recent := CheckRecent(log, r.to, r.now, cfg.repeatMinutes);
      if recent { return Refused(429); }
      if r.overCap { return Refused(409); }
      var kept := After(log, r.now - LOG_KEEP);
      log := kept + [Entry(r.now, r.to)];
      return Placed;
    }
  }
}
