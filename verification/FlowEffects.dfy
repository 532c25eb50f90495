/** What the handlers of FlowLibrary.dfy do, over runs: what an answer means, what a save, a clone, an activation
    and an assignment leave behind, and how long it lasts. */
module FlowEffects {
  import opened FlowLibrary

  function AnswerAt(rules: Rules, run: seq<Action>, i: nat): Answer
    requires i < |run|
  {
    Step(rules, TablesAt(rules, run, i), run[i]).1
  }

  /** A request that is refused leaves the tables as they were. */
  lemma {:induction false} RefusedChangesNothing(rules: Rules, t: Tables, a: Action)
    ensures var (u, answer) := Step(rules, t, a); answer !in {Done, Archived, Deleted} ==> u == t
    ensures Step(rules, t, a).1 in {Archived, Deleted} ==> a.Delete?
  {
    hide HasRow, FindRow, CloneSource, Attributed, Assigned, Without, NextNumber;
  }

  // --- versions ----------------------------------------------------------------------

  /** The version is on file exactly as given. */
  predicate Saved(t: Tables, r: Row) { FindRow(t.rows, r.id) == Some(r) }

  /** Request `k` really deletes the flow. */
  predicate Deletes(rules: Rules, run: seq<Action>, k: nat, f: Id)
    requires k < |run|
  {
    run[k] == Delete(f) && AnswerAt(rules, run, k) == Deleted
  }

  lemma {:induction false} DeletedMeans(rules: Rules, t: Tables, f: Id)
    ensures Step(rules, t, Delete(f)).1 == Deleted <==> Step(rules, t, Delete(f)).0.rows == Without(t.rows, f)
                                                        && f in t.flows && f !in Step(rules, t, Delete(f)).0.flows
    ensures Step(rules, t, Delete(f)).1 != Deleted ==> Step(rules, t, Delete(f)).0.rows == t.rows
  {
    hide Attributed, Assigned, Without;
  }

  lemma {:induction false} InWithout(rows: seq<Row>, r: Row, flow: Id)
    requires Ordered(rows) && FindRow(rows, r.id) == Some(r) && r.flow != flow
    ensures FindRow(Without(rows, flow), r.id) == Some(r)
  {
    WithoutIs(rows, flow);
    FoundIs(Without(rows, flow), r);
  }

  lemma {:induction false} StepKeepsVersion(rules: Rules, t: Tables, a: Action, r: Row)
    requires Sound(rules, t) && Saved(t, r)
    requires !(a == Delete(r.flow) && Step(rules, t, a).1 == Deleted)
    ensures Saved(Step(rules, t, a).0, r)
  {
    StepSound(rules, t, a);
    RowsStep(rules, t, a);
    hide Ordered, HasRow, FindRow, Step, Attributed, ActiveOk, NumbersOk, CallsOk, Without;
    var u := Step(rules, t, a).0;
    if u.rows == t.rows {
    } else if |u.rows| == |t.rows| + 1 && u.rows == t.rows + [u.rows[|t.rows|]] {
      SavedIsThere(t, r);
      FindAfterSave(t.rows, u.rows[|t.rows|], r.id);
    } else {
      DeletedMeans(rules, t, a.flow);
      InWithout(t.rows, r, a.flow);
    }
  }

  lemma {:induction false} SavedIsThere(t: Tables, r: Row)
    requires Saved(t, r)
    ensures HasRow(t.rows, r.id)
  {
  }

  /** Versions are immutable: once saved, a version stays exactly as it is for as long as its flow is not
      deleted, whatever else is saved, activated, assigned or removed. */
  lemma {:induction false} VersionsAreImmutable(rules: Rules, run: seq<Action>, i: nat, j: nat, r: Row)
    requires i <= j <= |run| && Saved(TablesAt(rules, run, i), r)
    requires forall k :: i <= k < j ==> !Deletes(rules, run, k, r.flow)
    ensures Saved(TablesAt(rules, run, j), r)
    decreases j
  {
    hide Step, Saved, TablesAt, Sound;
    if i < j {
      VersionsAreImmutable(rules, run, i, j - 1, r);
      SoundAlways(rules, run, j - 1);
      Next(rules, run, j - 1);
      assert !Deletes(rules, run, j - 1, r.flow);
      StepKeepsVersion(rules, TablesAt(rules, run, j - 1), run[j - 1], r);
    }
  }

  lemma {:induction false} NewRowIsFound(rows: seq<Row>, r: Row)
    requires !HasRow(rows, r.id)
    ensures FindRow(rows + [r], r.id) == Some(r)
  {
    if rows != [] {
      assert rows[0].id != r.id;
      assert (rows + [r])[1..] == rows[1..] + [r];
      forall i | 0 <= i < |rows[1..]|
        ensures rows[1..][i].id != r.id
      {
        assert rows[1..][i] == rows[i + 1];
      }
      NewRowIsFound(rows[1..], r);
    } else {
      assert [] + [r] == [r];
    }
  }

  /** A save succeeds exactly for an existing flow and a new id; the version then on file has the graph that
      was submitted and a number above every earlier one of its flow. Nothing else changes. */
  lemma {:induction false} SaveHoldsWhatWasSubmitted(rules: Rules, t: Tables, f: Id, id: Id, graph: Graph)
    ensures var (u, answer) := Step(rules, t, Save(f, id, graph)); var r := Row(id, f, NextNumber(t.rows, f), graph);
      && (answer == Done <==> f in t.flows && !HasRow(t.rows, id))
      && (answer == Done ==> Saved(u, r) && (forall x :: x in t.rows && x.flow == f ==> x.number < r.number)
                             && u.flows == t.flows && u.numbers == t.numbers && u.calls == t.calls)
  {
    hide HasRow, FindRow, MaxNumber;
    if f in t.flows && !HasRow(t.rows, id) {
      NewRowIsFound(t.rows, Row(id, f, NextNumber(t.rows, f), graph));
    }
  }

  /** The version a clone copies: the active one, or the one with the greatest number if none is active. */
  predicate CopiedFrom(t: Tables, source: Id, from: Row)
    requires source in t.flows
  {
    from.flow == source
    && if t.flows[source].active.Some? then from.id == t.flows[source].active.value
       else forall x :: x in t.rows && x.flow == source ==> x.number <= from.number
  }

  /** A clone succeeds exactly when it is named, the source exists and has a version, and the ids are new. It is
      a new flow, neither active nor archived, whose only version has the graph of the source's active version,
      or of its latest one if it has none active. */
  lemma {:induction false} CloneHoldsTheSource(rules: Rules, t: Tables, source: Id, f: Id, id: Id, named: bool)
    requires Sound(rules, t)
    ensures var (u, answer) := Step(rules, t, Clone(source, f, id, named));
      && (answer == Done <==> source in t.flows && named && (exists r :: r in t.rows && r.flow == source)
                              && f !in t.flows && !HasRow(t.rows, id))
      && (answer == Done ==>
            exists from :: from in t.rows && CopiedFrom(t, source, from) && Saved(u, Row(id, f, 1, from.graph)))
      && (answer == Done ==> u.flows == t.flows[f := Flow(None, false)] && u.numbers == t.numbers && u.calls == t.calls)
  {
    hide HasRow, FindRow, Ordered, ActiveOk, NumbersOk, CallsOk, RowsOk;
    if source in t.flows {
      SourceIs(rules, t, source);
      var from := CloneSource(t, source);
      hide CloneSource;
      if named && from.Some? && f !in t.flows && !HasRow(t.rows, id) {
        NewRowIsFound(t.rows, Row(id, f, 1, from.value.graph));
      }
    }
  }

  lemma {:induction false} SourceIs(rules: Rules, t: Tables, source: Id)
    requires Sound(rules, t) && source in t.flows
    ensures var from := CloneSource(t, source);
      && (from.Some? <==> exists r :: r in t.rows && r.flow == source)
      && (from.Some? ==> from.value in t.rows && CopiedFrom(t, source, from.value))
  {
    hide HasRow, FindRow, Ordered, NumbersOk, CallsOk;
    var own, active := RowsOf(t.rows, source), t.flows[source].active;
    RowsOfIs(t.rows, source);
    if active.Some? {
      HasRowIn(own, FindRow(t.rows, active.value).value);
    }
  }

  // --- activation --------------------------------------------------------------------

  /** Request `k` activates a version of the flow. */
  predicate Activates(rules: Rules, run: seq<Action>, k: nat, f: Id)
    requires k < |run|
  {
    run[k].Activate? && run[k].flow == f && AnswerAt(rules, run, k) == Done
  }

  /** Activation succeeds exactly for a validated version of that flow; it then is the active one, and
      nothing but the pointer has moved. */
  lemma {:induction false} ActivationMovesThePointer(rules: Rules, t: Tables, f: Id, id: Id)
    ensures var (u, answer) := Step(rules, t, Activate(f, id));
      && (answer == Done <==> f in t.flows && exists r :: Saved(t, r) && r.id == id && r.flow == f && rules.valid(r.graph))
      && (answer == Done ==> u == t.(flows := u.flows) && f in u.flows && u.flows == t.flows[f := Flow(Some(id), t.flows[f].archived)])
  {
    hide HasRow, FindRow;
    var row := FindRow(t.rows, id);
    if row.Some? {
      assert Saved(t, row.value);
    }
  }

  /** The flow, if it is active at all, is active with this version. */
  predicate ActiveIs(t: Tables, f: Id, r: Row) {
    f in t.flows && t.flows[f].active.Some? ==> t.flows[f].active == Some(r.id) && Saved(t, r)
  }

  lemma {:induction false} StepKeepsActive(rules: Rules, t: Tables, a: Action, f: Id, r: Row)
    requires Sound(rules, t) && ActiveIs(t, f, r) && r.flow == f
    requires !(a.Activate? && a.flow == f && Step(rules, t, a).1 == Done)
    ensures ActiveIs(Step(rules, t, a).0, f, r)
  {
    var u := Step(rules, t, a).0;
    PointerComesFrom(rules, t, a, f);
    if f in u.flows && u.flows[f].active.Some? {
      StepKeepsVersion(rules, t, a, r);
    }
  }

  /** A pointer that is set was set before, unless it has just been activated. */
  lemma {:induction false} PointerComesFrom(rules: Rules, t: Tables, a: Action, f: Id)
    requires !(a.Activate? && a.flow == f && Step(rules, t, a).1 == Done)
    ensures var u := Step(rules, t, a).0;
      f in u.flows && u.flows[f].active.Some? ==>
        f in t.flows && u.flows[f].active == t.flows[f].active && !(a == Delete(f) && Step(rules, t, a).1 == Deleted)
  {
    hide HasRow, FindRow, CloneSource, Attributed, Assigned, Without, NextNumber;
  }

  lemma {:induction false} ActiveStays(rules: Rules, run: seq<Action>, i: nat, j: nat, f: Id, r: Row)
    requires i <= j <= |run| && r.flow == f && ActiveIs(TablesAt(rules, run, i), f, r)
    requires forall k :: i <= k < j ==> !Activates(rules, run, k, f)
    ensures ActiveIs(TablesAt(rules, run, j), f, r)
    decreases j
  {
    hide Step, ActiveIs, TablesAt, Sound;
    if i < j {
      ActiveStays(rules, run, i, j - 1, f, r);
      SoundAlways(rules, run, j - 1);
      Next(rules, run, j - 1);
      assert !Activates(rules, run, j - 1, f);
      StepKeepsActive(rules, TablesAt(rules, run, j - 1), run[j - 1], f, r);
    }
  }

  /** An activation takes effect at once and lasts: from then on, until the next activation of the flow, a call
      to any number that is assigned to it runs exactly the activated version, with the graph it has on
      file. */
  lemma {:induction false} ActivationAnswersCalls(rules: Rules, run: seq<Action>, i: nat, j: nat, n: Id, r: Row)
    requires i < j <= |run| && run[i] == Activate(r.flow, r.id) && AnswerAt(rules, run, i) == Done
    requires Saved(TablesAt(rules, run, i), r)
    requires forall k :: i < k < j ==> !Activates(rules, run, k, r.flow)
    requires n in TablesAt(rules, run, j).numbers && TablesAt(rules, run, j).numbers[n].flow == Some(r.flow)
    ensures Resolve(TablesAt(rules, run, j), n) == Some(r)
  {
    hide TablesAt, RowsOk, CallsOk, FindRow, Step;
    Next(rules, run, i);
    ActivationMovesThePointer(rules, TablesAt(rules, run, i), r.flow, r.id);
    ActiveStays(rules, run, i + 1, j, r.flow, r);
    SoundAlways(rules, run, j);
  }

  // --- assignment --------------------------------------------------------------------

  predicate Assigns(rules: Rules, run: seq<Action>, k: nat, n: Id)
    requires k < |run|
  {
    run[k].Assign? && run[k].number == n && AnswerAt(rules, run, k) == Done
  }

  /** An assignment succeeds exactly for a known number, and a flow only for the right media and with an active
      version; then the number has the flow, and nothing else has changed. */
  lemma {:induction false} AssignmentBinds(rules: Rules, t: Tables, n: Id, target: Option<Id>)
    ensures var (u, answer) := Step(rules, t, Assign(n, target));
      && (answer == Done <==> n in t.numbers && (target.Some? ==>
            t.numbers[n].media == rules.media && target.value in t.flows && t.flows[target.value].active.Some?))
      && (answer == Done ==> u == t.(numbers := t.numbers[n := Number(t.numbers[n].media, target)]))
  {
  }

  lemma {:induction false} OthersKeepNumbers(rules: Rules, t: Tables, a: Action, n: Id)
    requires n in t.numbers && !(a.Assign? && a.number == n && Step(rules, t, a).1 == Done)
    ensures n in Step(rules, t, a).0.numbers && Step(rules, t, a).0.numbers[n] == t.numbers[n]
  {
    hide HasRow, FindRow, CloneSource, Attributed, Assigned, Without, NextNumber;
  }

  /** It lasts until the next assignment of that number: no other request moves it. */
  lemma {:induction false} AssignmentStays(rules: Rules, run: seq<Action>, i: nat, j: nat, n: Id)
    requires i <= j <= |run| && n in TablesAt(rules, run, i).numbers
    requires forall k :: i <= k < j ==> !Assigns(rules, run, k, n)
    ensures n in TablesAt(rules, run, j).numbers && TablesAt(rules, run, j).numbers[n] == TablesAt(rules, run, i).numbers[n]
    decreases j
  {
    hide Step, TablesAt;
    if i < j {
      AssignmentStays(rules, run, i, j - 1, n);
      Next(rules, run, j - 1);
      assert !Assigns(rules, run, j - 1, n);
      OthersKeepNumbers(rules, TablesAt(rules, run, j - 1), run[j - 1], n);
    }
  }

  // --- the rest of a flow's life -----------------------------------------------------

  /** A call was pinned to one of the flow's versions. */
  predicate HasTakenCalls(t: Tables, f: Id) {
    exists c, r :: c in t.calls && r in t.rows && r.flow == f && t.calls[c] == Some(r.id)
  }

  lemma {:induction false} AttributedIs(t: Tables, f: Id)
    requires Ordered(t.rows)
    ensures Attributed(t, f) <==> HasTakenCalls(t, f)
  {
    RowsOfIs(t.rows, f);
    var own := RowsOf(t.rows, f);
    hide RowsOf;
    if Attributed(t, f) {
      var c :| c in t.calls && t.calls[c].Some? && HasRow(own, t.calls[c].value);
      var i :| 0 <= i < |own| && own[i].id == t.calls[c].value;
      assert own[i] in t.rows && own[i].flow == f;
    }
    if HasTakenCalls(t, f) {
      var c, r :| c in t.calls && r in t.rows && r.flow == f && t.calls[c] == Some(r.id);
      HasRowIn(own, r);
    }
  }

  /** What a delete does, of the four things it can do: refuse while a number has the flow, hide it if a call
      ever ran one of its versions, and else remove it with its versions and nothing more. */
  lemma {:induction false} DeleteOutcome(rules: Rules, t: Tables, f: Id)
    requires Sound(rules, t)
    ensures var (u, answer) := Step(rules, t, Delete(f)); var used := exists n :: n in t.numbers && t.numbers[n].flow == Some(f);
      && (answer == NotFound <==> f !in t.flows)
      && (answer == Conflict <==> f in t.flows && used)
      && (answer == Archived <==> f in t.flows && !used && HasTakenCalls(t, f))
      && (answer == Deleted <==> f in t.flows && !used && !HasTakenCalls(t, f))
      && (answer == Archived ==> u == t.(flows := t.flows[f := Flow(t.flows[f].active, true)]))
      && (answer == Deleted ==> u.flows == t.flows - {f} && u.numbers == t.numbers && u.calls == t.calls
                                && forall r :: r in u.rows <==> r in t.rows && r.flow != f)
  {
    hide Ordered, FindRow, HasRow, ActiveOk, NumbersOk, CallsOk, Attributed, HasTakenCalls;
    AttributedIs(t, f);
    WithoutIs(t.rows, f);
  }

  lemma {:induction false} RestoreUnhides(rules: Rules, t: Tables, f: Id)
    ensures var (u, answer) := Step(rules, t, Restore(f));
      && (answer == Done <==> f in t.flows)
      && (answer == Done ==> u == t.(flows := t.flows[f := Flow(t.flows[f].active, false)]))
  {
  }

  lemma {:induction false} CreateOpensADraft(rules: Rules, t: Tables, f: Id)
    ensures var (u, answer) := Step(rules, t, Create(f));
      (answer == Done <==> f !in t.flows) && (answer == Done ==> u == t.(flows := t.flows[f := Flow(None, false)]))
  {
  }

  /** A new number has no flow, a new call no pin. */
  lemma {:induction false} NewRowsAreBlank(rules: Rules, t: Tables, id: Id, media: string)
    ensures Step(rules, t, AddNumber(id, media)).0
         == if id in t.numbers then t else t.(numbers := t.numbers[id := Number(media, None)])
    ensures Step(rules, t, AddCall(id)).0 == if id in t.calls then t else t.(calls := t.calls[id := None])
  {
  }

  /** A call keeps its first pin; a call without one takes any version that exists. */
  lemma {:induction false} FirstPinHolds(rules: Rules, t: Tables, c: Id, id: Id)
    ensures var (u, answer) := Step(rules, t, Pin(c, id));
      u == if c in t.calls && t.calls[c].None? && HasRow(t.rows, id) then t.(calls := t.calls[c := Some(id)]) else t
  {
    hide HasRow;
  }
}
