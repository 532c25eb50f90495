/** Three small shared tables: the capacity gate of POST /sessions (owen-voice/app/agent_api.py), the session
    registry (owen-voice/app/session.py) and the channel watchers (backend/app/flows/dtmf.py). */
module Registries {
  datatype Option<T> = None | Some(value: T)

  // --- capacity gate -----------------------------------------------------------------

  /** `running` holds the admitted requests that have not released their slot; `lost` those that ended
      before the release: raised before the `try`, or in the teardown that precedes it. */
  datatype Gate = Gate(free: int, active: int, running: set<nat>, lost: set<nat>, admitted: nat)

  datatype GateAction = Request | Release(id: nat) | CutShort(id: nat)

  function Opened(capacity: nat): Gate { Gate(capacity, 0, {}, {}, 0) }

  predicate Refuses(g: Gate, capacity: nat) { g.free == 0 || g.active >= capacity }

  function GateStep(g: Gate, capacity: nat, a: GateAction): Gate {
    match a
    case Request =>
      if Refuses(g, capacity) then g
      else Gate(g.free - 1, g.active + 1, g.running + {g.admitted}, g.lost, g.admitted + 1)
    case Release(id) =>
      if id in g.running then g.(free := g.free + 1, active := g.active - 1, running := g.running - {id}) else g
    case CutShort(id) =>
      if id in g.running then g.(running := g.running - {id}, lost := g.lost + {id}) else g
  }

  function GateAt(capacity: nat, run: seq<GateAction>, n: nat): Gate
    requires n <= |run|
  {
    if n == 0 then Opened(capacity) else GateStep(GateAt(capacity, run, n - 1), capacity, run[n - 1])
  }

  /** The counter, the semaphore and the requests agree. */
  predicate GateOk(g: Gate, capacity: nat) {
    && 0 <= g.free && g.active + g.free == capacity
    && g.active == |g.running| + |g.lost|
    && (forall id :: id in g.running ==> id < g.admitted && id !in g.lost)
    && (forall id :: id in g.lost ==> id < g.admitted)
  }

  lemma {:induction false} RequestKeepsOk(g: Gate, capacity: nat)
    requires GateOk(g, capacity)
    ensures GateOk(GateStep(g, capacity, Request), capacity)
  {
    AddOne(g.running, g.admitted);
  }

  lemma {:induction false} ReleaseKeepsOk(g: Gate, capacity: nat, id: nat)
    requires GateOk(g, capacity)
    ensures GateOk(GateStep(g, capacity, Release(id)), capacity)
  {
    DropOne(g.running, id);
  }

  lemma {:induction false} CutShortKeepsOk(g: Gate, capacity: nat, id: nat)
    requires GateOk(g, capacity)
    ensures GateOk(GateStep(g, capacity, CutShort(id)), capacity)
  {
    DropOne(g.running, id);
    AddOne(g.lost, id);
  }

  lemma {:induction false} GateStepOk(g: Gate, capacity: nat, a: GateAction)
    requires GateOk(g, capacity)
    ensures GateOk(GateStep(g, capacity, a), capacity)
  {
    hide GateOk, GateStep;
    match a
    case Request => RequestKeepsOk(g, capacity);
    case Release(id) => ReleaseKeepsOk(g, capacity, id);
    case CutShort(id) => CutShortKeepsOk(g, capacity, id);
  }

  lemma {:induction false} AddOne(ids: set<nat>, id: nat)
    ensures |ids + {id}| == |ids| + if id in ids then 0 else 1
  {
    if id in ids {
      assert ids + {id} == ids;
    }
  }

  lemma {:induction false} DropOne(ids: set<nat>, id: nat)
    ensures |ids - {id}| == |ids| - if id in ids then 1 else 0
  {
    if id !in ids {
      assert ids - {id} == ids;
    }
  }

  lemma {:induction false} GateMeaning(g: Gate, capacity: nat)
    requires GateOk(g, capacity)
    ensures Refuses(g, capacity) <==> |g.running| + |g.lost| == capacity
    ensures !Refuses(g, capacity) ==> g.free > 0
    ensures g.running == {} ==> (g.free == capacity <==> g.lost == {})
  {
  }

  lemma {:induction false} GateOpens(capacity: nat)
    ensures GateOk(Opened(capacity), capacity)
  {
  }

  /** In every interleaving: used and free slots add up to the capacity; a request is refused exactly
      when every slot is held, so one that is admitted takes its slot without waiting; and the slots
      held for ever are exactly those of requests whose teardown was cut short. */
  lemma {:induction false} SlotsAddUp(capacity: nat, run: seq<GateAction>, n: nat)
    requires n <= |run|
    ensures var g := GateAt(capacity, run, n);
      && GateOk(g, capacity)
      && (Refuses(g, capacity) <==> |g.running| + |g.lost| == capacity)
      && (!Refuses(g, capacity) ==> g.free > 0)
      && (g.running == {} ==> (g.free == capacity <==> g.lost == {}))
  {
    hide GateStep, GateOk, Refuses;
    if n == 0 {
      GateOpens(capacity);
    } else {
      SlotsAddUp(capacity, run, n - 1);
      GateStepOk(GateAt(capacity, run, n - 1), capacity, run[n - 1]);
    }
    GateMeaning(GateAt(capacity, run, n), capacity);
  }

  /** Request `id` has ended before step `n`: it gave its slot back, or was cut short. */
  predicate HasEnded(capacity: nat, run: seq<GateAction>, n: nat, id: nat)
    requires n <= |run|
  {
    exists j :: 0 <= j < n && EndsAt(capacity, run, j, id)
  }

  predicate EndsAt(capacity: nat, run: seq<GateAction>, j: nat, id: nat)
    requires j < |run|
  {
    id < GateAt(capacity, run, j).admitted && (run[j] == Release(id) || run[j] == CutShort(id))
  }

  /** It ended first by being cut short. */
  predicate WasCutShort(capacity: nat, run: seq<GateAction>, n: nat, id: nat)
    requires n <= |run|
  {
    exists j :: 0 <= j < n && CutsShortAt(capacity, run, j, id)
  }

  predicate CutsShortAt(capacity: nat, run: seq<GateAction>, j: nat, id: nat)
    requires j < |run|
  {
    id < GateAt(capacity, run, j).admitted && run[j] == CutShort(id) && !HasEnded(capacity, run, j, id)
  }

  lemma {:induction false} EndedNext(capacity: nat, run: seq<GateAction>, n: nat, id: nat)
    requires n < |run|
    ensures HasEnded(capacity, run, n + 1, id) <==> HasEnded(capacity, run, n, id) || EndsAt(capacity, run, n, id)
    ensures WasCutShort(capacity, run, n + 1, id) <==> WasCutShort(capacity, run, n, id) || CutsShortAt(capacity, run, n, id)
  {
    hide EndsAt, CutsShortAt;
    if HasEnded(capacity, run, n + 1, id) {
      var j :| 0 <= j < n + 1 && EndsAt(capacity, run, j, id);
    }
    if WasCutShort(capacity, run, n + 1, id) {
      var j :| 0 <= j < n + 1 && CutsShortAt(capacity, run, j, id);
    }
  }

  /** Over every interleaving: a slot is held by exactly the requests that were admitted and have not ended, and
      is lost to exactly those that were cut short; a request is admitted exactly when a slot is free. */
  lemma {:induction false} SlotsAreHeldExactlyBy(capacity: nat, run: seq<GateAction>, n: nat, id: nat)
    requires n <= |run|
    ensures var g := GateAt(capacity, run, n);
      && (id in g.running <==> id < g.admitted && !HasEnded(capacity, run, n, id))
      && (id in g.lost <==> WasCutShort(capacity, run, n, id))
  {
    hide GateAt, HasEnded, WasCutShort;
    if n == 0 {
      GateFirst(capacity, run);
      NobodyEnded(capacity, run, id);
    } else {
      SlotsAreHeldExactlyBy(capacity, run, n - 1, id);
      GateNext(capacity, run, n - 1);
      EndedNext(capacity, run, n - 1, id);
      NotYetAdmitted(capacity, run, n - 1, id);
    }
  }

  lemma {:induction false} NobodyEnded(capacity: nat, run: seq<GateAction>, id: nat)
    ensures !HasEnded(capacity, run, 0, id) && !WasCutShort(capacity, run, 0, id)
  {
  }

  lemma {:induction false} NotYetAdmitted(capacity: nat, run: seq<GateAction>, n: nat, id: nat)
    requires n <= |run|
    ensures HasEnded(capacity, run, n, id) ==> id < GateAt(capacity, run, n).admitted
  {
    hide GateAt, HasEnded;
    if n == 0 {
      NobodyEnded(capacity, run, id);
    } else {
      NotYetAdmitted(capacity, run, n - 1, id);
      GateNext(capacity, run, n - 1);
      EndedNext(capacity, run, n - 1, id);
    }
  }

  /** A released slot comes back: it is free for the next request. */
  lemma {:induction false} ReleasedSlotComesBack(capacity: nat, run: seq<GateAction>, n: nat, id: nat)
    requires n < |run| && id in GateAt(capacity, run, n).running && run[n] == Release(id)
    ensures GateAt(capacity, run, n + 1).free == GateAt(capacity, run, n).free + 1
    ensures !Refuses(GateAt(capacity, run, n + 1), capacity)
  {
    hide GateAt;
    GateNext(capacity, run, n);
    SlotsAddUp(capacity, run, n);
    SlotsAddUp(capacity, run, n + 1);
  }

  /** The next identifier is admitted exactly when the gate does not refuse. */
  lemma {:induction false} AdmitsExactlyWhen(capacity: nat, run: seq<GateAction>, n: nat)
    requires n < |run|
    ensures var g, h := GateAt(capacity, run, n), GateAt(capacity, run, n + 1);
      if run[n].Request? && |g.running| + |g.lost| < capacity then h.admitted == g.admitted + 1 && g.admitted in h.running
      else h.admitted == g.admitted
  {
    hide GateAt;
    GateNext(capacity, run, n);
    SlotsAddUp(capacity, run, n);
  }

  /** The witness: one request that ends before its release uses up the only slot for good. */
  lemma {:induction false} LostSlotRefusesTheNext(run: seq<GateAction>)
    requires run == [Request, CutShort(0), Request]
    ensures GateAt(1, run, 3) == Gate(0, 1, {}, {0}, 1) && Refuses(GateAt(1, run, 2), 1)
  {
    hide GateAt;
    GateNext(1, run, 0);
    GateNext(1, run, 1);
    GateNext(1, run, 2);
    GateFirst(1, run);
    assert {0} - {0} == {};
    assert GateAt(1, run, 1) == Gate(0, 1, {0}, {}, 1);
    assert GateAt(1, run, 2) == Gate(0, 1, {}, {0}, 1);
  }

  lemma {:induction false} GateFirst(capacity: nat, run: seq<GateAction>)
    ensures GateAt(capacity, run, 0) == Opened(capacity)
  {
  }

  lemma {:induction false} GateNext(capacity: nat, run: seq<GateAction>, n: nat)
    requires n < |run|
    ensures GateAt(capacity, run, n + 1) == GateStep(GateAt(capacity, run, n), capacity, run[n])
  {
  }

  class CapacityGate {
    const capacity: nat
    var free: int
    var active: int
    var running: set<nat>
    var lost: set<nat>
    var admitted: nat

    constructor (capacity: nat)
      ensures this.capacity == capacity && View() == Opened(capacity)
    {
      this.capacity, free, active, running, lost, admitted := capacity, capacity, 0, {}, {}, 0;
    }

    ghost function View(): Gate
      reads this
    {
      Gate(free, active, running, lost, admitted)
    }

    /** The head of `run_session`: refuse at once or take a slot. */
    method Enter() returns (id: Option<nat>)
      modifies this
      ensures View() == GateStep(old(View()), capacity, Request)
      ensures id.None? <==> Refuses(old(View()), capacity)
    {
      if free == 0 || active >= capacity { return None; }
      free := free - 1;
      active := active + 1;
      running := running + {admitted};
      id := Some(admitted);
      admitted := admitted + 1;
    }

    /** The `finally` block: the slot is given back only after the teardown has completed. */
    method Leave(id: nat, teardownCompletes: bool)
      requires id in running
      modifies this
      ensures View() == GateStep(old(View()), capacity, if teardownCompletes then Release(id) else CutShort(id))
    {
      running := running - {id};
      if !teardownCompletes {
        lost := lost + {id};
        return;
      }
      active := active - 1;
      free := free + 1;
    }
  }

  // --- session registry --------------------------------------------------------------

  /** A registered session; `closedAt` is None while the session is not closed. */
  datatype Session = Session(uuid: string, closedAt: Option<int>)

  /** The registry's dictionary in insertion order. */
  type Sessions = seq<Session>

  function Uuids(s: Sessions): set<string> { set x | x in s :: x.uuid }

  predicate Distinct(s: Sessions) {
    s == [] || (s[0].uuid !in Uuids(s[1..]) && Distinct(s[1..]))
  }

  function Put(s: Sessions, x: Session): Sessions {
    if s == [] then [x] else if s[0].uuid == x.uuid then [x] + s[1..] else [s[0]] + Put(s[1..], x)
  }

  function Pop(s: Sessions, uuid: string): Sessions {
    if s == [] then [] else if s[0].uuid == uuid then s[1..] else [s[0]] + Pop(s[1..], uuid)
  }

  function PopAll(s: Sessions, dropped: Sessions): Sessions
    decreases |dropped|
  {
    if dropped == [] then s else PopAll(Pop(s, dropped[0].uuid), dropped[1..])
  }

  function Closed(s: Sessions): Sessions {
    if s == [] then [] else (if s[0].closedAt.Some? then [s[0]] else []) + Closed(s[1..])
  }

  predicate AllClosed(s: Sessions) { forall x :: x in s ==> x.closedAt.Some? }

  /** Before the first session that closed at the same time or later, so that sorting is stable. */
  function InsertByTime(x: Session, s: Sessions): Sessions
    requires x.closedAt.Some? && AllClosed(s)
  {
    if s == [] || x.closedAt.value <= s[0].closedAt.value then [x] + s else [s[0]] + InsertByTime(x, s[1..])
  }

  function SortByTime(s: Sessions): (r: Sessions)
    requires AllClosed(s)
    ensures |r| == |s| && forall x :: x in r <==> x in s
  {
    if s == [] then []
    else
      var rest := SortByTime(s[1..]);
      InsertedIn(s[0], rest);
      InsertByTime(s[0], rest)
  }

  /** What `prune` discards. With `keepLast` zero the slice `closed[:-0]` is empty. */
  function Excess(s: Sessions, keepLast: nat): Sessions {
    ClosedIn(s);
    var closed := SortByTime(Closed(s));
    if keepLast == 0 || |closed| <= keepLast then [] else closed[..|closed| - keepLast]
  }

  function Prune(s: Sessions, keepLast: nat): Sessions { PopAll(s, Excess(s, keepLast)) }

  lemma {:induction false} InsertedIn(x: Session, s: Sessions)
    requires x.closedAt.Some? && AllClosed(s)
    ensures |InsertByTime(x, s)| == |s| + 1 && forall y :: y in InsertByTime(x, s) <==> y == x || y in s
  {
    if s != [] && x.closedAt.value > s[0].closedAt.value {
      InsertedIn(x, s[1..]);
      assert s == [s[0]] + s[1..];
    }
  }

  lemma {:induction false} ClosedIn(s: Sessions)
    ensures forall x :: x in Closed(s) <==> x in s && x.closedAt.Some?
  {
    if s != [] {
      ClosedIn(s[1..]);
      assert s == [s[0]] + s[1..];
    }
  }

  predicate Sorted(s: Sessions)
    requires AllClosed(s)
  {
    s == [] || ((forall x :: x in s[1..] ==> s[0].closedAt.value <= x.closedAt.value) && Sorted(s[1..]))
  }

  lemma {:induction false} InsertKeepsOrder(x: Session, s: Sessions)
    requires x.closedAt.Some? && AllClosed(s) && Sorted(s)
    ensures AllClosed(InsertByTime(x, s)) && Sorted(InsertByTime(x, s))
  {
    InsertedIn(x, s);
    if s != [] && x.closedAt.value > s[0].closedAt.value {
      InsertKeepsOrder(x, s[1..]);
      InsertedIn(x, s[1..]);
      assert InsertByTime(x, s)[1..] == InsertByTime(x, s[1..]);
    } else {
      assert InsertByTime(x, s)[1..] == s;
    }
  }

  lemma {:induction false} InsertKeepsDistinct(x: Session, s: Sessions)
    requires x.closedAt.Some? && AllClosed(s) && Distinct(s) && x.uuid !in Uuids(s)
    ensures Distinct(InsertByTime(x, s))
  {
    if s != [] && x.closedAt.value > s[0].closedAt.value {
      InsertKeepsDistinct(x, s[1..]);
      InsertedIn(x, s[1..]);
      assert InsertByTime(x, s)[1..] == InsertByTime(x, s[1..]);
    } else {
      assert InsertByTime(x, s)[1..] == s;
    }
  }

  lemma {:induction false} SortOrders(s: Sessions)
    requires AllClosed(s) && Distinct(s)
    ensures Sorted(SortByTime(s)) && Distinct(SortByTime(s))
  {
    hide Sorted;
    if s == [] {
      NothingIsSorted();
    } else {
      SortOrders(s[1..]);
      InsertKeepsOrder(s[0], SortByTime(s[1..]));
      InsertKeepsDistinct(s[0], SortByTime(s[1..]));
    }
  }

  lemma {:induction false} NothingIsSorted()
    ensures Sorted([])
  {
  }

  lemma {:induction false} ClosedKeepsDistinct(s: Sessions)
    requires Distinct(s)
    ensures Distinct(Closed(s))
  {
    if s != [] {
      ClosedKeepsDistinct(s[1..]);
      ClosedIn(s[1..]);
      if s[0].closedAt.Some? {
        assert Closed(s)[1..] == Closed(s[1..]);
      } else {
        assert Closed(s) == Closed(s[1..]);
      }
    }
  }

  lemma {:induction false} CutOfDistinct(s: Sessions, k: nat)
    requires Distinct(s) && k <= |s|
    ensures Distinct(s[..k]) && forall x, y :: x in s[..k] && y in s[k..] ==> x.uuid != y.uuid
  {
    if k > 0 {
      CutOfDistinct(s[1..], k - 1);
      assert s[..k][1..] == s[1..][..k - 1] && s[1..][k - 1..] == s[k..];
      assert s[..k] == [s[0]] + s[1..][..k - 1];
    }
  }

  lemma {:induction false} CutOfSorted(s: Sessions, k: nat)
    requires AllClosed(s) && Sorted(s) && k <= |s|
    ensures forall x, y :: x in s[..k] && y in s[k..] ==> x.closedAt.value <= y.closedAt.value
  {
    if k > 0 {
      CutOfSorted(s[1..], k - 1);
      assert s[..k] == [s[0]] + s[1..][..k - 1] && s[1..][k - 1..] == s[k..];
    }
  }

  lemma {:induction false} PopIn(s: Sessions, x: Session)
    requires Distinct(s) && x in s
    ensures Distinct(Pop(s, x.uuid)) && forall y :: y in Pop(s, x.uuid) <==> y in s && y != x
    ensures |Closed(Pop(s, x.uuid))| == |Closed(s)| - if x.closedAt.Some? then 1 else 0
  {
    assert s == [s[0]] + s[1..];
    if s[0].uuid != x.uuid {
      PopIn(s[1..], x);
      assert Pop(s, x.uuid)[1..] == Pop(s[1..], x.uuid);
    }
  }

  lemma {:induction false} PopAllIn(s: Sessions, dropped: Sessions)
    requires Distinct(s) && Distinct(dropped) && forall x :: x in dropped ==> x in s && x.closedAt.Some?
    ensures Distinct(PopAll(s, dropped)) && forall y :: y in PopAll(s, dropped) <==> y in s && y !in dropped
    ensures |Closed(PopAll(s, dropped))| == |Closed(s)| - |dropped|
    decreases |dropped|
  {
    hide Pop, Closed;
    if dropped != [] {
      PopIn(s, dropped[0]);
      assert dropped == [dropped[0]] + dropped[1..];
      PopAllIn(Pop(s, dropped[0].uuid), dropped[1..]);
    }
  }

  lemma {:induction false} ExcessIsOldest(s: Sessions, keepLast: nat)
    requires Distinct(s)
    ensures var dropped := Excess(s, keepLast);
      && Distinct(dropped)
      && |dropped| == (if keepLast == 0 || |Closed(s)| <= keepLast then 0 else |Closed(s)| - keepLast)
      && (forall x :: x in dropped ==> x in s && x.closedAt.Some?)
      && forall x, y :: x in dropped && y in s && y.closedAt.Some? && y !in dropped
           ==> x.closedAt.value <= y.closedAt.value
  {
    hide Closed, Distinct, Sorted, SortByTime;
    ClosedIn(s);
    ClosedKeepsDistinct(s);
    SortOrders(Closed(s));
    var closed := SortByTime(Closed(s));
    var k := |Excess(s, keepLast)|;
    CutOfDistinct(closed, k);
    CutOfSorted(closed, k);
    assert closed == closed[..k] + closed[k..];
  }

  /** Pruning never drops a session that is still open; of the closed ones it keeps exactly the newest
      `keepLast`, all of them when `keepLast` is zero, and no dropped session closed after a kept one. */
  lemma {:induction false} PruneKeepsTheNewest(s: Sessions, keepLast: nat)
    requires Distinct(s)
    ensures var kept := Prune(s, keepLast);
      && Distinct(kept)
      && (forall x :: x in kept ==> x in s)
      && (forall x :: x in s && x.closedAt.None? ==> x in kept)
      && |Closed(kept)| == (if keepLast == 0 || |Closed(s)| <= keepLast then |Closed(s)| else keepLast)
      && (forall x, y :: x in s && x !in kept && y in kept && y.closedAt.Some?
           ==> x.closedAt.Some? && x.closedAt.value <= y.closedAt.value)
  {
    hide Closed, Distinct, Excess, PopAll;
    ExcessIsOldest(s, keepLast);
    PopAllIn(s, Excess(s, keepLast));
  }

  lemma {:induction false} PutIn(s: Sessions, x: Session)
    requires Distinct(s)
    ensures Distinct(Put(s, x)) && forall y :: y in Put(s, x) <==> y == x || (y in s && y.uuid != x.uuid)
  {
    if s != [] {
      assert s == [s[0]] + s[1..];
      if s[0].uuid != x.uuid {
        PutIn(s[1..], x);
        assert Put(s, x)[1..] == Put(s[1..], x);
      } else {
        assert Put(s, x)[1..] == s[1..];
      }
    }
  }

  class SessionRegistry {
    var sessions: Sessions

    ghost predicate Valid()
      reads this
    {
      Distinct(sessions)
    }

    constructor ()
      ensures Valid() && sessions == []
    {
      sessions := [];
    }

    method Create(uuid: string)
      requires Valid()
      modifies this
      ensures Valid() && sessions == Put(old(sessions), Session(uuid, None))
    {
      PutIn(sessions, Session(uuid, None));
      sessions := Put(sessions, Session(uuid, None));
    }

    method PruneClosed(keepLast: nat)
      requires Valid()
      modifies this
      ensures Valid() && sessions == Prune(old(sessions), keepLast)
    {
      ghost var was := sessions;
      PruneKeepsTheNewest(sessions, keepLast);
      var dropped := Excess(sessions, keepLast);
      for i := 0 to |dropped|
        invariant PopAll(sessions, dropped[i..]) == Prune(was, keepLast)
      {
        assert dropped[i..][0] == dropped[i] && dropped[i..][1..] == dropped[i + 1..];
        sessions := Pop(sessions, dropped[i].uuid);
      }
    }
  }

  // --- channel watchers --------------------------------------------------------------

  type Channel = string
  type Watchers = map<Channel, seq<nat>>

  datatype WatchAction = Watch(channels: seq<Channel>) | Unwatch(queue: nat, channels: seq<Channel>)

  function Listeners(w: Watchers, c: Channel): seq<nat> { if c in w then w[c] else [] }

  function AddAll(w: Watchers, queue: nat, channels: seq<Channel>): Watchers
    decreases |channels|
  {
    if channels == [] then w
    else
      var c := channels[0];
      AddAll(if c == "" then w else w[c := Listeners(w, c) + [queue]], queue, channels[1..])
  }

  /** `list.remove`: the first occurrence, if there is one. */
  function RemoveFirst(queues: seq<nat>, queue: nat): seq<nat> {
    if queues == [] then [] else if queues[0] == queue then queues[1..] else [queues[0]] + RemoveFirst(queues[1..], queue)
  }

  function RemoveOne(w: Watchers, queue: nat, c: Channel): Watchers {
    if Listeners(w, c) == [] then w
    else
      var rest := RemoveFirst(w[c], queue);
      if rest == [] then w - {c} else w[c := rest]
  }

  function RemoveAll(w: Watchers, queue: nat, channels: seq<Channel>): Watchers
    decreases |channels|
  {
    if channels == [] then w else RemoveAll(RemoveOne(w, queue, channels[0]), queue, channels[1..])
  }

  /** How often `queue` is subscribed to `c`. */
  function Subscribed(w: Watchers, c: Channel, queue: nat): nat { multiset(Listeners(w, c))[queue] }

  function Occurrences(channels: seq<Channel>, c: Channel): nat { multiset(channels)[c] }

  predicate NoEmptyList(w: Watchers) { forall c :: c in w ==> c != "" && w[c] != [] }

  lemma {:induction false} RemoveFirstCounts(queues: seq<nat>, queue: nat)
    ensures multiset(RemoveFirst(queues, queue)) == multiset(queues) - multiset{queue}
  {
    if queues != [] {
      assert queues == [queues[0]] + queues[1..];
      if queues[0] != queue {
        RemoveFirstCounts(queues[1..], queue);
      }
    }
  }

  lemma {:induction false} RemoveOneKeepsNoEmptyList(w: Watchers, queue: nat, c: Channel)
    requires NoEmptyList(w)
    ensures NoEmptyList(RemoveOne(w, queue, c))
  {
  }

  lemma {:induction false} RemoveOneLists(w: Watchers, queue: nat, c: Channel, d: Channel)
    ensures Listeners(RemoveOne(w, queue, c), d) == if d == c then RemoveFirst(Listeners(w, c), queue) else Listeners(w, d)
  {
  }

  lemma {:induction false} RemoveOneCounts(w: Watchers, queue: nat, c: Channel, d: Channel, q: nat)
    ensures Subscribed(RemoveOne(w, queue, c), d, q)
         == Subscribed(w, d, q) - if d == c && q == queue && Subscribed(w, d, q) > 0 then 1 else 0
  {
    hide RemoveOne, Listeners, RemoveFirst;
    RemoveOneLists(w, queue, c, d);
    RemoveFirstCounts(Listeners(w, c), queue);
  }

  lemma {:induction false} OccurrencesStep(channels: seq<Channel>, c: Channel)
    requires channels != []
    ensures Occurrences(channels, c) == Occurrences(channels[1..], c) + if channels[0] == c then 1 else 0
  {
    assert channels == [channels[0]] + channels[1..];
  }

  lemma {:induction false} RemoveAllCounts(w: Watchers, queue: nat, channels: seq<Channel>, d: Channel, q: nat)
    requires NoEmptyList(w)
    ensures NoEmptyList(RemoveAll(w, queue, channels))
    ensures var before, cut := Subscribed(w, d, q), Occurrences(channels, d);
      Subscribed(RemoveAll(w, queue, channels), d, q) ==
        if q != queue then before else if before > cut then before - cut else 0
    decreases |channels|
  {
    hide RemoveOne, Subscribed, NoEmptyList, Occurrences;
    if channels != [] {
      RemoveOneKeepsNoEmptyList(w, queue, channels[0]);
      RemoveOneCounts(w, queue, channels[0], d, q);
      RemoveAllCounts(RemoveOne(w, queue, channels[0]), queue, channels[1..], d, q);
      OccurrencesStep(channels, d);
    } else {
      NoOccurrence(d);
    }
  }

  lemma {:induction false} NoOccurrence(c: Channel)
    ensures Occurrences([], c) == 0
  {
  }

  lemma {:induction false} AddAllCounts(w: Watchers, queue: nat, channels: seq<Channel>, d: Channel, q: nat)
    requires NoEmptyList(w)
    ensures NoEmptyList(AddAll(w, queue, channels))
    ensures Subscribed(AddAll(w, queue, channels), d, q)
         == Subscribed(w, d, q) + if q == queue && d != "" then Occurrences(channels, d) else 0
    decreases |channels|
  {
    hide Occurrences;
    if channels != [] {
      var c := channels[0];
      var next := if c == "" then w else w[c := Listeners(w, c) + [queue]];
      AddAllCounts(next, queue, channels[1..], d, q);
      OccurrencesStep(channels, d);
    } else {
      NoOccurrence(d);
    }
  }

  /** The table after `n` calls; the queue that `watch` creates is named after its position. */
  function WatchersAt(run: seq<WatchAction>, n: nat): Watchers
    requires n <= |run|
  {
    if n == 0 then map[]
    else
      match run[n - 1]
      case Watch(channels) => AddAll(WatchersAt(run, n - 1), n - 1, channels)
      case Unwatch(queue, channels) => RemoveAll(WatchersAt(run, n - 1), queue, channels)
  }

  /** How many subscriptions of queue `q` to channel `c` are open: those of its own watch, less what was
      unwatched since. */
  function OpenWatches(run: seq<WatchAction>, n: nat, c: Channel, q: nat): nat
    requires n <= |run|
  {
    if n == 0 then 0
    else
      var before := OpenWatches(run, n - 1, c, q);
      match run[n - 1]
      case Watch(channels) => before + if q == n - 1 && c != "" then Occurrences(channels, c) else 0
      case Unwatch(queue, channels) =>
        var cut := Occurrences(channels, c);
        if queue != q then before else if before > cut then before - cut else 0
  }

  /** Each channel's list holds each queue exactly as often as it is open, and no empty list persists. */
  lemma {:induction false} TableIsTheOpenWatches(run: seq<WatchAction>, n: nat, c: Channel, q: nat)
    requires n <= |run|
    ensures NoEmptyList(WatchersAt(run, n)) && Subscribed(WatchersAt(run, n), c, q) == OpenWatches(run, n, c, q)
  {
    hide Subscribed, AddAll, RemoveAll, Occurrences;
    if n == 0 {
      NothingSubscribed(c, q);
    } else {
      TableIsTheOpenWatches(run, n - 1, c, q);
      match run[n - 1]
      case Watch(channels) => AddAllCounts(WatchersAt(run, n - 1), n - 1, channels, c, q);
      case Unwatch(queue, channels) => RemoveAllCounts(WatchersAt(run, n - 1), queue, channels, c, q);
    }
  }

  lemma {:induction false} NothingSubscribed(c: Channel, q: nat)
    ensures Subscribed(map[], c, q) == 0
  {
  }

  lemma {:induction false} NeverMoreThanWatched(run: seq<WatchAction>, n: nat, c: Channel, q: nat)
    requires n <= |run|
    ensures OpenWatches(run, n, c, q) <= if q < n && run[q].Watch? then Occurrences(run[q].channels, c) else 0
  {
    hide Occurrences;
    if n > 0 {
      NeverMoreThanWatched(run, n - 1, c, q);
    }
  }

  lemma {:induction false} ClosedStaysClosed(run: seq<WatchAction>, j: nat, n: nat, c: Channel, q: nat)
    requires q < j <= n <= |run| && OpenWatches(run, j, c, q) == 0
    ensures OpenWatches(run, n, c, q) == 0
    decreases n
  {
    if j < n {
      ClosedStaysClosed(run, j, n - 1, c, q);
    }
  }

  /** Every watch is followed by an unwatch of the same queue and channels. */
  predicate Paired(run: seq<WatchAction>) {
    forall i :: 0 <= i < |run| && run[i].Watch? ==> exists j :: i < j < |run| && run[j] == Unwatch(i, run[i].channels)
  }

  /** Watchers are transient: when every dial has unwatched what it watched, the table is empty. */
  lemma {:induction false} PairedRunsEndEmpty(run: seq<WatchAction>)
    requires Paired(run)
    ensures WatchersAt(run, |run|) == map[]
  {
    var w := WatchersAt(run, |run|);
    TableIsTheOpenWatches(run, |run|, "", 0);
    if w != map[] {
      var c :| c in w;
      var q := w[c][0];
      hide WatchersAt, OpenWatches;
      TableIsTheOpenWatches(run, |run|, c, q);
      assert Subscribed(w, c, q) > 0;
      hide Subscribed;
      EveryWatchClosed(run, c, q);
    }
  }

  lemma {:induction false} EveryWatchClosed(run: seq<WatchAction>, c: Channel, q: nat)
    requires Paired(run)
    ensures OpenWatches(run, |run|, c, q) == 0
  {
    hide Occurrences;
    NeverMoreThanWatched(run, |run|, c, q);
    if q < |run| && run[q].Watch? {
      var j :| q < j < |run| && run[j] == Unwatch(q, run[q].channels);
      NeverMoreThanWatched(run, j, c, q);
      assert OpenWatches(run, j + 1, c, q) == 0;
      ClosedStaysClosed(run, j + 1, |run|, c, q);
    }
  }

  class WatcherTable {
    var table: Watchers
    var created: nat

    constructor ()
      ensures table == map[] && created == 0
    {
      table, created := map[], 0;
    }

    method WatchChannels(channels: seq<Channel>) returns (queue: nat)
      modifies this
      ensures table == AddAll(old(table), queue, channels) && queue == old(created) && created == queue + 1
    {
      queue := created;
      created := created + 1;
      ghost var was := table;
      for i := 0 to |channels|
        invariant created == queue + 1 && AddAll(table, queue, channels[i..]) == AddAll(was, queue, channels)
      {
        assert channels[i..][0] == channels[i] && channels[i..][1..] == channels[i + 1..];
        if channels[i] != "" {
          table := table[channels[i] := Listeners(table, channels[i]) + [queue]];
        }
      }
    }

    method UnwatchChannels(queue: nat, channels: seq<Channel>)
      modifies this`table
      ensures table == RemoveAll(old(table), queue, channels)
    {
      ghost var was := table;
      for i := 0 to |channels|
        invariant RemoveAll(table, queue, channels[i..]) == RemoveAll(was, queue, channels)
      {
        assert channels[i..][0] == channels[i] && channels[i..][1..] == channels[i + 1..];
        var c := channels[i];
        if Listeners(table, c) != [] {
          var rest := RemoveFirst(table[c], queue);
          if rest == [] {
            table := table - {c};
          } else {
            table := table[c := rest];
          }
        }
      }
    }
  }
}
