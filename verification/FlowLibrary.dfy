module FlowLibrary {
  /** The call-flow library (backend/app/api/flows.py, backend/app/flows/service.py), the assignment of flows to
      numbers (backend/app/api/numbers.py) and the pinning of calls to flow versions
      (backend/app/flows/runtime.py). Each handler is one transaction on the tables. */

  datatype Option<T> = None | Some(value: T)

  type Id = nat
  type Graph = string

  datatype Flow = Flow(active: Option<Id>, archived: bool)

  /** A saved version. Rows are kept in the order they were saved. */
  datatype Row = Row(id: Id, flow: Id, number: nat, graph: Graph)

  datatype Number = Number(media: string, flow: Option<Id>)

  datatype Tables = Tables(
    flows: map<Id, Flow>, rows: seq<Row>, numbers: map<Id, Number>, calls: map<Id, Option<Id>>)

  /** What the handlers consult but do not change: the activation validator and the media provider. */
  datatype Rules = Rules(valid: Graph -> bool, media: string)

  datatype Action =
    | Create(flow: Id)
    | Clone(source: Id, flow: Id, row: Id, named: bool)
    | Save(flow: Id, row: Id, graph: Graph)
    | Activate(flow: Id, row: Id)
    | Delete(flow: Id)
    | Restore(flow: Id)
    | Assign(number: Id, target: Option<Id>)
    | Pin(call: Id, row: Id)
    | AddNumber(number: Id, media: string)
    | AddCall(call: Id)

  datatype Answer = Done | Archived | Deleted | NotFound | BadRequest | Conflict | Unprocessable

  // --- kernels -----------------------------------------------------------------------

  predicate HasRow(rows: seq<Row>, id: Id) { exists i :: 0 <= i < |rows| && rows[i].id == id }

  function FindRow(rows: seq<Row>, id: Id): (r: Option<Row>)
    ensures r.Some? <==> HasRow(rows, id)
    ensures r.Some? ==> r.value in rows && r.value.id == id
  {
    if rows == [] then None
    else if rows[0].id == id then Some(rows[0])
    else
      var later := FindRow(rows[1..], id);
      assert HasRow(rows[1..], id) ==> HasRow(rows, id) by {
        if HasRow(rows[1..], id) {
          var i :| 0 <= i < |rows[1..]| && rows[1..][i].id == id;
          assert rows[i + 1].id == id;
        }
      }
      assert HasRow(rows, id) ==> HasRow(rows[1..], id) by {
        if HasRow(rows, id) {
          var i :| 0 <= i < |rows| && rows[i].id == id;
          assert rows[1..][i - 1].id == id;
        }
      }
      later
  }

  /** The greatest version number of a flow, 0 if it has none. */
  function MaxNumber(rows: seq<Row>, flow: Id): (m: nat)
    ensures forall i :: 0 <= i < |rows| && rows[i].flow == flow ==> rows[i].number <= m
  {
    if rows == [] then 0
    else
      var init, last := rows[..|rows| - 1], rows[|rows| - 1];
      var m := MaxNumber(init, flow);
      if last.flow == flow && last.number > m then last.number else m
  }

  /** `next_version_number` */
  function NextNumber(rows: seq<Row>, flow: Id): nat { MaxNumber(rows, flow) + 1 }

  /** A flow's first version is number 1; every later one is one more than some version it has, and more
      than all of them. */
  lemma {:induction false} NextNumberFollows(rows: seq<Row>, flow: Id)
    ensures if exists r :: r in rows && r.flow == flow && r.number > 0
            then exists r :: r in rows && r.flow == flow && NextNumber(rows, flow) == r.number + 1
            else NextNumber(rows, flow) == 1
    ensures forall r :: r in rows && r.flow == flow ==> r.number < NextNumber(rows, flow)
  {
    if rows != [] {
      var init, last := rows[..|rows| - 1], rows[|rows| - 1];
      NextNumberFollows(init, flow);
      assert rows == init + [last];
      assert forall r :: r in rows <==> r in init || r == last;
    }
  }

  function RowsOf(rows: seq<Row>, flow: Id): seq<Row> {
    if rows == [] then []
    else RowsOf(rows[..|rows| - 1], flow) + if rows[|rows| - 1].flow == flow then [rows[|rows| - 1]] else []
  }

  function Without(rows: seq<Row>, flow: Id): seq<Row> {
    if rows == [] then []
    else Without(rows[..|rows| - 1], flow) + if rows[|rows| - 1].flow == flow then [] else [rows[|rows| - 1]]
  }

  /** The first row with the greatest number. */
  function Latest(rows: seq<Row>): (r: Row)
    requires rows != []
    ensures r in rows && forall x :: x in rows ==> x.number <= r.number
  {
    if |rows| == 1 then rows[0]
    else
      var best := Latest(rows[..|rows| - 1]);
      if rows[|rows| - 1].number > best.number then rows[|rows| - 1] else best
  }

  /** `pick_clone_source`: the active version, else the latest saved. */
  function CloneSource(t: Tables, flow: Id): Option<Row>
    requires flow in t.flows
  {
    var own := RowsOf(t.rows, flow);
    var active := t.flows[flow].active;
    if active.Some? && HasRow(own, active.value) then FindRow(own, active.value)
    else if own == [] then None
    else Some(Latest(own))
  }

  predicate Assigned(t: Tables, flow: Id) { exists n :: n in t.numbers && t.numbers[n].flow == Some(flow) }

  predicate Attributed(t: Tables, flow: Id) {
    exists c :: c in t.calls && t.calls[c].Some? && HasRow(RowsOf(t.rows, flow), t.calls[c].value)
  }

  // --- the handlers ------------------------------------------------------------------

  /** One handler call. A new row whose id already exists is refused by the primary key, a pin to a
      missing version by the foreign key. */
  function Step(rules: Rules, t: Tables, a: Action): (Tables, Answer) {
    match a
    case Create(f) =>
      if f in t.flows then (t, Conflict) else (t.(flows := t.flows[f := Flow(None, false)]), Done)
    case Clone(src, f, id, named) =>
      if src !in t.flows then (t, NotFound)
      else if !named then (t, Unprocessable)
      else
        var source := CloneSource(t, src);
        if source.None? then (t, Unprocessable)
        else if f in t.flows || HasRow(t.rows, id) then (t, Conflict)
        else (t.(flows := t.flows[f := Flow(None, false)], rows := t.rows + [Row(id, f, 1, source.value.graph)]), Done)
    case Save(f, id, graph) =>
      if f !in t.flows then (t, NotFound)
      else if HasRow(t.rows, id) then (t, Conflict)
      else (t.(rows := t.rows + [Row(id, f, NextNumber(t.rows, f), graph)]), Done)
    case Activate(f, id) =>
      if f !in t.flows then (t, NotFound)
      else
        var row := FindRow(t.rows, id);
        if row.None? || row.value.flow != f then (t, NotFound)
        else if !rules.valid(row.value.graph) then (t, BadRequest)
        else (t.(flows := t.flows[f := t.flows[f].(active := Some(id))]), Done)
    case Delete(f) =>
      if f !in t.flows then (t, NotFound)
      else if Assigned(t, f) then (t, Conflict)
      else if Attributed(t, f) then (t.(flows := t.flows[f := t.flows[f].(archived := true)]), Archived)
      else (t.(flows := t.flows - {f}, rows := Without(t.rows, f)), Deleted)
    case Restore(f) =>
      if f !in t.flows then (t, NotFound)
      else (t.(flows := t.flows[f := t.flows[f].(archived := false)]), Done)
    case Assign(n, target) =>
      if n !in t.numbers then (t, NotFound)
      else if target.Some? && (t.numbers[n].media != rules.media || target.value !in t.flows || t.flows[target.value].active.None?)
      then (t, BadRequest)
      else (t.(numbers := t.numbers[n := t.numbers[n].(flow := target)]), Done)
    case Pin(c, id) =>
      if c !in t.calls || t.calls[c].Some? then (t, Done)
      else if !HasRow(t.rows, id) then (t, Conflict)
      else (t.(calls := t.calls[c := Some(id)]), Done)
    case AddNumber(n, media) =>
      if n in t.numbers then (t, Conflict) else (t.(numbers := t.numbers[n := Number(media, None)]), Done)
    case AddCall(c) =>
      if c in t.calls then (t, Conflict) else (t.(calls := t.calls[c := None]), Done)
  }

  const NO_TABLES := Tables(map[], [], map[], map[])

  function TablesAt(rules: Rules, run: seq<Action>, n: nat): Tables
    requires n <= |run|
  {
    if n == 0 then NO_TABLES else Step(rules, TablesAt(rules, run, n - 1), run[n - 1]).0
  }

  // --- the invariant -----------------------------------------------------------------

  /** The active pointer names a validated version of its own flow. */
  predicate ActiveOk(rules: Rules, t: Tables) {
    forall f :: f in t.flows && t.flows[f].active.Some? ==>
      var row := FindRow(t.rows, t.flows[f].active.value);
      row.Some? && row.value.flow == f && rules.valid(row.value.graph)
  }

  /** A number's flow exists and can run. */
  predicate NumbersOk(t: Tables) {
    forall n :: n in t.numbers && t.numbers[n].flow.Some? ==>
      t.numbers[n].flow.value in t.flows && t.flows[t.numbers[n].flow.value].active.Some?
  }

  predicate CallsOk(t: Tables) {
    forall c :: c in t.calls && t.calls[c].Some? ==> HasRow(t.rows, t.calls[c].value)
  }

  /** Version ids are distinct; within a flow the numbers start at 1 and grow in the order of saving. */
  predicate Ordered(rows: seq<Row>) {
    && (forall i :: 0 <= i < |rows| ==> rows[i].number >= 1)
    && (forall i, j :: 0 <= i < j < |rows| ==> rows[i].id != rows[j].id)
    && (forall i, j :: 0 <= i < j < |rows| && rows[i].flow == rows[j].flow ==> rows[i].number < rows[j].number)
  }

  predicate RowsOk(t: Tables) {
    (forall r :: r in t.rows ==> r.flow in t.flows) && Ordered(t.rows)
  }

  predicate Sound(rules: Rules, t: Tables) { ActiveOk(rules, t) && NumbersOk(t) && CallsOk(t) && RowsOk(t) }

  lemma {:induction false} FoundIs(rows: seq<Row>, r: Row)
    requires Ordered(rows) && r in rows
    ensures FindRow(rows, r.id) == Some(r)
  {
    var i :| 0 <= i < |rows| && rows[i] == r;
    assert HasRow(rows, r.id);
    var x := FindRow(rows, r.id).value;
    var j :| 0 <= j < |rows| && rows[j] == x;
    assert i < j || j < i || i == j;
  }

  lemma {:induction false} FindAfterSave(rows: seq<Row>, r: Row, id: Id)
    requires Ordered(rows + [r]) && HasRow(rows, id)
    ensures FindRow(rows + [r], id) == FindRow(rows, id)
  {
    var x := FindRow(rows, id).value;
    FoundIs(rows + [r], x);
  }

  lemma {:induction false} SaveKeepsOrder(rows: seq<Row>, r: Row)
    requires Ordered(rows) && !HasRow(rows, r.id) && r.number >= 1
    requires forall x :: x in rows && x.flow == r.flow ==> x.number < r.number
    ensures Ordered(rows + [r])
  {
    var all := rows + [r];
    forall i, j | 0 <= i < j < |all|
      ensures all[i].id != all[j].id && (all[i].flow == all[j].flow ==> all[i].number < all[j].number)
    {
      assert all[i] == rows[i];
      if j < |rows| {
        assert all[j] == rows[j];
      } else {
        assert all[i] in rows;
      }
    }
  }

  lemma {:induction false} WithoutIs(rows: seq<Row>, flow: Id)
    ensures forall x :: x in Without(rows, flow) <==> x in rows && x.flow != flow
    ensures Ordered(rows) ==> Ordered(Without(rows, flow))
  {
    if rows != [] {
      var init, last := rows[..|rows| - 1], rows[|rows| - 1];
      assert rows == init + [last];
      WithoutIs(init, flow);
      if Ordered(rows) {
        OrderedPrefix(init, last);
        if last.flow != flow {
          NewestIsNew(init, last);
          NotAmong(init, Without(init, flow), last);
          SaveKeepsOrder(Without(init, flow), last);
        } else {
          assert Without(init, flow) + [] == Without(init, flow);
        }
      }
    }
  }

  lemma {:induction false} OrderedPrefix(init: seq<Row>, last: Row)
    requires Ordered(init + [last])
    ensures Ordered(init) && last.number >= 1
  {
    var all := init + [last];
    assert forall i :: 0 <= i < |init| ==> all[i] == init[i];
    assert all[|init|] == last;
  }

  lemma {:induction false} NewestIsNew(init: seq<Row>, last: Row)
    requires Ordered(init + [last])
    ensures !HasRow(init, last.id) && forall x :: x in init && x.flow == last.flow ==> x.number < last.number
  {
    var all := init + [last];
    assert forall i :: 0 <= i < |init| ==> all[i] == init[i];
    assert all[|init|] == last;
  }

  lemma {:induction false} NotAmong(rows: seq<Row>, some: seq<Row>, r: Row)
    requires !HasRow(rows, r.id) && forall x :: x in some ==> x in rows
    ensures !HasRow(some, r.id)
  {
    forall i | 0 <= i < |some|
      ensures some[i].id != r.id
    {
      assert some[i] in rows;
    }
  }

  lemma {:induction false} RowsOfIs(rows: seq<Row>, flow: Id)
    ensures forall x :: x in RowsOf(rows, flow) <==> x in rows && x.flow == flow
  {
    if rows != [] {
      RowsOfIs(rows[..|rows| - 1], flow);
      assert rows == rows[..|rows| - 1] + [rows[|rows| - 1]];
    }
  }

  lemma {:induction false} HasRowIn(rows: seq<Row>, r: Row)
    requires r in rows
    ensures HasRow(rows, r.id)
  {
    var i :| 0 <= i < |rows| && rows[i] == r;
  }

  // --- every handler keeps it --------------------------------------------------------

  /** Appending a version. */
  lemma {:induction false} SavingIsSound(rules: Rules, t: Tables, u: Tables, r: Row)
    requires Sound(rules, t) && Ordered(t.rows + [r]) && r.flow in u.flows
    requires u.rows == t.rows + [r] && u.numbers == t.numbers && u.calls == t.calls
    requires t.flows.Keys <= u.flows.Keys
    requires forall f :: f in u.flows ==> if f in t.flows then u.flows[f] == t.flows[f] else u.flows[f].active.None?
    ensures Sound(rules, u)
  {
    hide Ordered, FindRow, HasRow;
    forall f | f in u.flows && u.flows[f].active.Some?
      ensures FindRow(u.rows, u.flows[f].active.value) == FindRow(t.rows, t.flows[f].active.value)
    {
      FindAfterSave(t.rows, r, u.flows[f].active.value);
    }
    forall c | c in t.calls && t.calls[c].Some?
      ensures HasRow(u.rows, t.calls[c].value)
    {
      HasRowIn(u.rows, FindRow(t.rows, t.calls[c].value).value);
    }
  }

  lemma {:induction false} CreateSound(rules: Rules, t: Tables, a: Action)
    requires Sound(rules, t) && (a.Create? || a.Clone? || a.Save?)
    ensures Sound(rules, Step(rules, t, a).0)
  {
    hide ActiveOk, NumbersOk, CallsOk, Ordered, FindRow, HasRow, CloneSource;
    var u := Step(rules, t, a).0;
    if u != t {
      match a
      case Create(f) => NewFlowIsSound(rules, t, f);
      case Clone(src, f, id, _) =>
        var r := Row(id, f, 1, CloneSource(t, src).value.graph);
        SaveKeepsOrder(t.rows, r);
        SavingIsSound(rules, t, u, r);
      case Save(f, id, graph) =>
        var r := Row(id, f, NextNumber(t.rows, f), graph);
        SaveKeepsOrder(t.rows, r);
        SavingIsSound(rules, t, u, r);
    }
  }

  lemma {:induction false} NewFlowIsSound(rules: Rules, t: Tables, f: Id)
    requires Sound(rules, t) && f !in t.flows
    ensures Sound(rules, t.(flows := t.flows[f := Flow(None, false)]))
  {
    hide Ordered, FindRow, HasRow;
  }

  lemma {:induction false} PointerSound(rules: Rules, t: Tables, a: Action)
    requires Sound(rules, t) && (a.Activate? || a.Restore?)
    ensures Sound(rules, Step(rules, t, a).0)
  {
    hide Ordered, FindRow, HasRow;
  }

  lemma {:induction false} AssignSound(rules: Rules, t: Tables, a: Action)
    requires Sound(rules, t) && (a.Assign? || a.Pin? || a.AddNumber? || a.AddCall?)
    ensures Sound(rules, Step(rules, t, a).0)
  {
    hide Ordered, FindRow, HasRow;
  }

  /** Deleting keeps every reference: an assigned flow is refused, one with attributed calls is only
      archived, and a deleted one takes exactly its own rows with it. */
  lemma {:induction false} DeleteSound(rules: Rules, t: Tables, f: Id)
    requires Sound(rules, t)
    ensures Sound(rules, Step(rules, t, Delete(f)).0)
  {
    hide Ordered, FindRow, HasRow, Attributed;
    var u := Step(rules, t, Delete(f)).0;
    if f in t.flows && !Assigned(t, f) && !Attributed(t, f) {
      WithoutIs(t.rows, f);
      forall g | g in u.flows && u.flows[g].active.Some?
        ensures FindRow(u.rows, u.flows[g].active.value) == FindRow(t.rows, u.flows[g].active.value)
      {
        FoundIs(u.rows, FindRow(t.rows, u.flows[g].active.value).value);
      }
      forall c | c in t.calls && t.calls[c].Some?
        ensures HasRow(u.rows, t.calls[c].value)
      {
        CalledRowSurvives(t, f, c);
      }
    }
  }

  lemma {:induction false} CalledRowSurvives(t: Tables, f: Id, c: Id)
    requires c in t.calls && t.calls[c].Some? && HasRow(t.rows, t.calls[c].value) && !Attributed(t, f)
    ensures HasRow(Without(t.rows, f), t.calls[c].value)
    ensures FindRow(t.rows, t.calls[c].value).value in Without(t.rows, f)
  {
    var r := FindRow(t.rows, t.calls[c].value).value;
    WithoutIs(t.rows, f);
    RowsOfIs(t.rows, f);
    if r.flow == f {
      HasRowIn(RowsOf(t.rows, f), r);
    }
    HasRowIn(Without(t.rows, f), r);
  }

  lemma {:induction false} StepSound(rules: Rules, t: Tables, a: Action)
    requires Sound(rules, t)
    ensures Sound(rules, Step(rules, t, a).0)
  {
    hide Step, Sound;
    match a
    case Create(_) => CreateSound(rules, t, a);
    case Clone(_, _, _, _) => CreateSound(rules, t, a);
    case Save(_, _, _) => CreateSound(rules, t, a);
    case Activate(_, _) => PointerSound(rules, t, a);
    case Restore(_) => PointerSound(rules, t, a);
    case Delete(f) => DeleteSound(rules, t, f);
    case _ => AssignSound(rules, t, a);
  }

  lemma {:induction false} Next(rules: Rules, run: seq<Action>, n: nat)
    requires n < |run|
    ensures TablesAt(rules, run, n + 1) == Step(rules, TablesAt(rules, run, n), run[n]).0
  {
  }

  /** Over every run of the handlers: active pointers name validated versions of their own flow, numbers
      point at runnable flows, calls at existing versions, and version numbers grow in save order. */
  lemma {:induction false} SoundAlways(rules: Rules, run: seq<Action>, n: nat)
    requires n <= |run|
    ensures Sound(rules, TablesAt(rules, run, n))
  {
    hide Step;
    if n > 0 {
      SoundAlways(rules, run, n - 1);
      Next(rules, run, n - 1);
      hide Sound, TablesAt;
      StepSound(rules, TablesAt(rules, run, n - 1), run[n - 1]);
    }
  }

  // --- what a pinned call keeps ------------------------------------------------------

  /** The call is attributed to exactly this saved version. */
  predicate PinnedTo(t: Tables, c: Id, r: Row) {
    c in t.calls && t.calls[c] == Some(r.id) && FindRow(t.rows, r.id) == Some(r)
  }

  lemma {:induction false} PinsAreNotMoved(rules: Rules, t: Tables, a: Action, c: Id)
    requires c in t.calls && t.calls[c].Some?
    ensures var u := Step(rules, t, a).0; c in u.calls && u.calls[c] == t.calls[c]
  {
    hide HasRow, FindRow, CloneSource, Attributed, Assigned, Without, NextNumber;
  }

  /** Rows are only ever appended, or removed with their whole flow when no call refers to them. */
  lemma {:induction false} RowsStep(rules: Rules, t: Tables, a: Action)
    ensures var u := Step(rules, t, a).0;
      || u.rows == t.rows
      || (|u.rows| == |t.rows| + 1 && u.rows == t.rows + [u.rows[|t.rows|]])
      || (a.Delete? && u.rows == Without(t.rows, a.flow) && !Attributed(t, a.flow))
  {
    hide HasRow, FindRow, CloneSource, Attributed, Assigned, Without, NextNumber;
  }

  lemma {:induction false} StepKeepsPin(rules: Rules, t: Tables, a: Action, c: Id, r: Row)
    requires Sound(rules, t) && PinnedTo(t, c, r)
    ensures PinnedTo(Step(rules, t, a).0, c, r)
  {
    StepSound(rules, t, a);
    PinsAreNotMoved(rules, t, a, c);
    RowsStep(rules, t, a);
    hide Ordered, HasRow, FindRow, Step, Attributed, ActiveOk, NumbersOk, Without;
    var u := Step(rules, t, a).0;
    if u.rows == t.rows {
    } else if |u.rows| == |t.rows| + 1 && u.rows == t.rows + [u.rows[|t.rows|]] {
      FindAfterSave(t.rows, u.rows[|t.rows|], r.id);
    } else {
      CalledRowSurvives(t, a.flow, c);
      FoundIs(u.rows, r);
    }
  }

  /** Once a call is pinned to a version, every later state still holds that version with the graph that
      was saved, and the call still points at it. */
  lemma {:induction false} PinnedForEver(rules: Rules, run: seq<Action>, i: nat, j: nat, c: Id, r: Row)
    requires i <= j <= |run| && PinnedTo(TablesAt(rules, run, i), c, r)
    ensures PinnedTo(TablesAt(rules, run, j), c, r)
    decreases j
  {
    hide Step, PinnedTo, TablesAt;
    if i < j {
      PinnedForEver(rules, run, i, j - 1, c, r);
      SoundAlways(rules, run, j - 1);
      Next(rules, run, j - 1);
      StepKeepsPin(rules, TablesAt(rules, run, j - 1), run[j - 1], c, r);
    }
  }

  /** `_resolve_active_flow_version`: what a call to this number would run. */
  function Resolve(t: Tables, n: Id): Option<Row>
    requires n in t.numbers
  {
    var f := t.numbers[n].flow;
    if f.None? || f.value !in t.flows || t.flows[f.value].active.None? then None
    else FindRow(t.rows, t.flows[f.value].active.value)
  }

  /** A number with a flow can always be answered: it resolves to a validated version of that flow. */
  lemma {:induction false} AssignedNumbersAlwaysResolve(rules: Rules, run: seq<Action>, m: nat, n: Id)
    requires m <= |run| && n in TablesAt(rules, run, m).numbers && TablesAt(rules, run, m).numbers[n].flow.Some?
    ensures var t := TablesAt(rules, run, m);
      Resolve(t, n).Some? && Resolve(t, n).value.flow == t.numbers[n].flow.value && rules.valid(Resolve(t, n).value.graph)
  {
    hide TablesAt, RowsOk, CallsOk, FindRow;
    SoundAlways(rules, run, m);
  }

  /** A clone copies the graph that answers the source's calls today. */
  lemma {:induction false} CloneCopiesWhatAnswers(rules: Rules, t: Tables, n: Id, source: Id)
    requires Sound(rules, t) && n in t.numbers && t.numbers[n].flow == Some(source)
    ensures source in t.flows && Resolve(t, n).Some? && CloneSource(t, source) == Resolve(t, n)
  {
    hide Ordered, FindRow, HasRow, RowsOf, Latest;
    var active := t.flows[source].active.value;
    var row := FindRow(t.rows, active).value;
    var own := RowsOf(t.rows, source);
    RowsOfIs(t.rows, source);
    HasRowIn(own, row);
    FoundIs(t.rows, FindRow(own, active).value);
  }

  // --- archived flows ----------------------------------------------------------------

  predicate NoneAnswersArchived(t: Tables) {
    forall n :: n in t.numbers && t.numbers[n].flow.Some? && t.numbers[n].flow.value in t.flows ==>
      !t.flows[t.numbers[n].flow.value].archived
  }

  /** The one request that puts an archived flow on a number: an assignment, which never looks at the
      archive mark. */
  predicate AssignsArchived(rules: Rules, t: Tables, a: Action) {
    && a.Assign? && a.target.Some? && a.target.value in t.flows && t.flows[a.target.value].archived
    && a.number in t.numbers && t.numbers[a.number].media == rules.media && t.flows[a.target.value].active.Some?
  }

  /** Deleting refuses to archive a flow in use, so no archived flow answers calls exactly as long as
      no archived flow is assigned. */
  lemma {:induction false} ArchivedFlowsAnswerExactlyWhenAssigned(rules: Rules, t: Tables, a: Action)
    requires Sound(rules, t) && NoneAnswersArchived(t)
    ensures NoneAnswersArchived(Step(rules, t, a).0) <==> !AssignsArchived(rules, t, a)
  {
    hide ActiveOk, CallsOk, RowsOk, FindRow, HasRow, CloneSource, Attributed, Without, NextNumber;
    var u := Step(rules, t, a).0;
    if AssignsArchived(rules, t, a) {
      assert u.numbers[a.number].flow == a.target && u.flows == t.flows;
    }
  }

  // --- the handlers as they run ------------------------------------------------------

  class Library {
    const rules: Rules
    var flows: map<Id, Flow>
    var rows: seq<Row>
    var numbers: map<Id, Number>
    var calls: map<Id, Option<Id>>

    constructor (rules: Rules)
      ensures this.rules == rules && View() == NO_TABLES
    {
      this.rules, flows, rows, numbers, calls := rules, map[], [], map[], map[];
    }

    ghost function View(): Tables
      reads this
    {
      Tables(flows, rows, numbers, calls)
    }

    method CreateFlow(id: Id) returns (answer: Answer)
      modifies this
      ensures (View(), answer) == Step(rules, old(View()), Create(id))
    {
      if id in flows { return Conflict; }
      flows := flows[id := Flow(None, false)];
      return Done;
    }

    method CloneFlow(source: Id, id: Id, rowId: Id, named: bool) returns (answer: Answer)
      modifies this
      ensures (View(), answer) == Step(rules, old(View()), Clone(source, id, rowId, named))
    {
      hide HasRow, CloneSource;
      if source !in flows { return NotFound; }
      if !named { return Unprocessable; }
      var from := CloneSource(Tables(flows, rows, numbers, calls), source);
      if from.None? { return Unprocessable; }
      if id in flows || FindRow(rows, rowId).Some? { return Conflict; }
      flows := flows[id := Flow(None, false)];
      rows := rows + [Row(rowId, id, 1, from.value.graph)];
      return Done;
    }

    method SaveVersion(flow: Id, rowId: Id, graph: Graph) returns (answer: Answer)
      modifies this
      ensures (View(), answer) == Step(rules, old(View()), Save(flow, rowId, graph))
    {
      hide HasRow;
      if flow !in flows { return NotFound; }
      if FindRow(rows, rowId).Some? { return Conflict; }
      rows := rows + [Row(rowId, flow, NextNumber(rows, flow), graph)];
      return Done;
    }

    method ActivateVersion(flow: Id, rowId: Id) returns (answer: Answer)
      modifies this
      ensures (View(), answer) == Step(rules, old(View()), Activate(flow, rowId))
    {
      hide HasRow, FindRow;
      if flow !in flows { return NotFound; }
      var row := FindRow(rows, rowId);
      if row.None? || row.value.flow != flow { return NotFound; }
      if !rules.valid(row.value.graph) { return BadRequest; }
      flows := flows[flow := flows[flow].(active := Some(rowId))];
      return Done;
    }

    method DeleteFlow(flow: Id) returns (answer: Answer)
      modifies this
      ensures (View(), answer) == Step(rules, old(View()), Delete(flow))
    {
      hide Attributed, Without;
      if flow !in flows { return NotFound; }
      if exists n :: n in numbers && numbers[n].flow == Some(flow) { return Conflict; }
      var attributed := Attributed(Tables(flows, rows, numbers, calls), flow);
      if attributed {
        flows := flows[flow := flows[flow].(archived := true)];
        return Archived;
      }
      flows := flows[flow := flows[flow].(active := None)];
      rows := Without(rows, flow);
      flows := flows - {flow};
      assert flows == old(flows) - {flow};
      return Deleted;
    }

    method RestoreFlow(flow: Id) returns (answer: Answer)
      modifies this
      ensures (View(), answer) == Step(rules, old(View()), Restore(flow))
    {
      if flow !in flows { return NotFound; }
      flows := flows[flow := flows[flow].(archived := false)];
      return Done;
    }

    method AssignFlow(number: Id, target: Option<Id>) returns (answer: Answer)
      modifies this
      ensures (View(), answer) == Step(rules, old(View()), Assign(number, target))
    {
      if number !in numbers { return NotFound; }
      if target.Some? {
        if numbers[number].media != rules.media { return BadRequest; }
        if target.value !in flows { return BadRequest; }
        if flows[target.value].active.None? { return BadRequest; }
      }
      numbers := numbers[number := numbers[number].(flow := target)];
      return Done;
    }

    /** `_pin_flow_version`: only while the call has no pin. */
    method PinCall(call: Id, rowId: Id) returns (answer: Answer)
      modifies this
      ensures (View(), answer) == Step(rules, old(View()), Pin(call, rowId))
    {
      hide HasRow;
      if call !in calls || calls[call].Some? { return Done; }
      if FindRow(rows, rowId).None? { return Conflict; }
      calls := calls[call := Some(rowId)];
      return Done;
    }
  }
}
