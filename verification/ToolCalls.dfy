/** Reassembling streamed tool calls and acting on them (owen-voice/app/pipeline.py, `_collect_tool_delta` and
    `_dispatch_tools`; the registry is owen-voice/app/tools.py). */
module ToolCalls {
  import opened Bytes

  datatype Option<T> = None | Some(value: T)

  /** One streamed fragment. A missing or unreadable index counts as 0; an empty name or argument text
      is as good as none. */
  datatype Fragment = Fragment(index: Option<int>, name: string, arguments: string)

  datatype Slot = Slot(index: int, name: string, args: string)

  function IndexOf(f: Fragment): int { if f.index.Some? then f.index.value else 0 }

  // --- collecting --------------------------------------------------------------------

  function Extend(s: Slot, f: Fragment): Slot {
    s.(name := if f.name != "" then f.name else s.name, args := s.args + f.arguments)
  }

  /** The slot table in order of first appearance, after one more fragment. */
  function Collect(slots: seq<Slot>, f: Fragment): seq<Slot> {
    if slots == [] then [Extend(Slot(IndexOf(f), "", ""), f)]
    else if slots[0].index == IndexOf(f) then [Extend(slots[0], f)] + slots[1..]
    else [slots[0]] + Collect(slots[1..], f)
  }

  /** A fragment without a readable index belongs to call 0. */
  lemma {:induction false} NoIndexIsZero(slots: seq<Slot>, name: string, arguments: string)
    ensures Collect(slots, Fragment(None, name, arguments)) == Collect(slots, Fragment(Some(0), name, arguments))
    decreases |slots|
  {
    if slots != [] {
      NoIndexIsZero(slots[1..], name, arguments);
    }
  }

  function CollectAll(slots: seq<Slot>, fs: seq<Fragment>): seq<Slot> {
    if fs == [] then slots else Collect(CollectAll(slots, fs[..|fs| - 1]), fs[|fs| - 1])
  }

  /** The fragments of one index, in order. */
  function Of(fs: seq<Fragment>, index: int): seq<Fragment> {
    if fs == [] then []
    else Of(fs[..|fs| - 1], index) + if IndexOf(fs[|fs| - 1]) == index then [fs[|fs| - 1]] else []
  }

  /** The indices in order of first appearance. */
  function Appearance(fs: seq<Fragment>): seq<int> {
    if fs == [] then []
    else
      var seen, i := Appearance(fs[..|fs| - 1]), IndexOf(fs[|fs| - 1]);
      if i in seen then seen else seen + [i]
  }

  /** What one index's fragments amount to on their own: the last name given and all the text joined. */
  function LastName(fs: seq<Fragment>): string {
    if fs == [] then ""
    else if fs[|fs| - 1].name != "" then fs[|fs| - 1].name
    else LastName(fs[..|fs| - 1])
  }

  function JoinedArguments(fs: seq<Fragment>): string {
    if fs == [] then "" else JoinedArguments(fs[..|fs| - 1]) + fs[|fs| - 1].arguments
  }

  function SlotOf(fs: seq<Fragment>, index: int): Slot {
    Slot(index, LastName(Of(fs, index)), JoinedArguments(Of(fs, index)))
  }

  /** The table a stream of fragments must rebuild. */
  function Table(fs: seq<Fragment>): (t: seq<Slot>)
    ensures |t| == |Appearance(fs)|
  {
    seq(|Appearance(fs)|, i requires 0 <= i < |Appearance(fs)| => SlotOf(fs, Appearance(fs)[i]))
  }

  lemma {:induction false} CollectAt(slots: seq<Slot>, f: Fragment, k: nat)
    requires k < |slots| && slots[k].index == IndexOf(f) && forall i :: 0 <= i < k ==> slots[i].index != IndexOf(f)
    ensures Collect(slots, f) == slots[k := Extend(slots[k], f)]
  {
    if k > 0 {
      CollectAt(slots[1..], f, k - 1);
    }
  }

  lemma {:induction false} CollectNew(slots: seq<Slot>, f: Fragment)
    requires forall i :: 0 <= i < |slots| ==> slots[i].index != IndexOf(f)
    ensures Collect(slots, f) == slots + [Extend(Slot(IndexOf(f), "", ""), f)]
  {
    if slots != [] {
      CollectNew(slots[1..], f);
      assert [slots[0]] + (slots[1..] + [Extend(Slot(IndexOf(f), "", ""), f)]) == slots + [Extend(Slot(IndexOf(f), "", ""), f)];
    }
  }

  predicate Distinct(xs: seq<int>) { forall i, j :: 0 <= i < j < |xs| ==> xs[i] != xs[j] }

  lemma {:induction false} AppearanceIsDistinct(fs: seq<Fragment>)
    ensures Distinct(Appearance(fs))
    ensures forall i :: i in Appearance(fs) <==> Of(fs, i) != []
  {
    if fs != [] {
      AppearanceIsDistinct(fs[..|fs| - 1]);
    }
  }

  lemma {:induction false} SlotStep(fs: seq<Fragment>, f: Fragment, index: int)
    ensures (fs + [f])[..|fs|] == fs
    ensures SlotOf(fs + [f], index) == if IndexOf(f) == index then Extend(SlotOf(fs, index), f) else SlotOf(fs, index)
  {
    assert (fs + [f])[..|fs|] == fs;
    var own := Of(fs, index);
    if IndexOf(f) == index {
      assert Of(fs + [f], index) == own + [f];
      assert (own + [f])[..|own|] == own;
    } else {
      assert own + [] == own;
    }
  }

  /** The table built fragment by fragment holds, for each index, exactly what that index's own
      fragments say, in the order the indices first appeared. */
  lemma {:induction false} CollectedIsTable(fs: seq<Fragment>)
    ensures CollectAll([], fs) == Table(fs)
  {
    if fs != [] {
      var init, f := fs[..|fs| - 1], fs[|fs| - 1];
      CollectedIsTable(init);
      TableStep(init, f);
      assert fs == init + [f];
    }
  }

  lemma {:induction false} TableStep(init: seq<Fragment>, f: Fragment)
    ensures Collect(Table(init), f) == Table(init + [f])
  {
    hide SlotOf, Extend, Collect;
    var fs := init + [f];
    var seen, i := Appearance(init), IndexOf(f);
    AppearanceIsDistinct(init);
    forall index: int
      ensures SlotOf(fs, index) == if i == index then Extend(SlotOf(init, index), f) else SlotOf(init, index)
    {
      SlotStep(init, f, index);
    }
    assert fs[..|init|] == init;
    assert Appearance(fs) == if i in seen then seen else seen + [i];
    forall k | 0 <= k < |seen|
      ensures Table(init)[k].index == seen[k]
    {
      SlotIndex(init, seen[k]);
    }
    if i in seen {
      var k :| 0 <= k < |seen| && seen[k] == i;
      CollectAt(Table(init), f, k);
      assert Table(fs) == Table(init)[k := Extend(Table(init)[k], f)];
    } else {
      CollectNew(Table(init), f);
      NewSlot(init, i);
    }
  }

  lemma {:induction false} SlotIndex(fs: seq<Fragment>, index: int)
    ensures SlotOf(fs, index).index == index
  {
  }

  lemma {:induction false} NewSlot(fs: seq<Fragment>, index: int)
    requires index !in Appearance(fs)
    ensures SlotOf(fs, index) == Slot(index, "", "")
  {
    AppearanceIsDistinct(fs);
  }

  lemma {:induction false} InTable(fs: seq<Fragment>, s: Slot)
    ensures s in Table(fs) <==> s.index in Appearance(fs) && s == SlotOf(fs, s.index)
  {
    hide Appearance, SlotOf;
    forall i | i in Appearance(fs)
      ensures SlotOf(fs, i) in Table(fs) && SlotOf(fs, i).index == i
    {
      var k :| 0 <= k < |Appearance(fs)| && Appearance(fs)[k] == i;
      assert Table(fs)[k] == SlotOf(fs, i);
      SlotIndex(fs, i);
    }
    if s in Table(fs) {
      var k :| 0 <= k < |Table(fs)| && Table(fs)[k] == s;
      SlotIndex(fs, Appearance(fs)[k]);
    }
  }

  /** Two streams that agree on each index's own fragments rebuild the same name and text for every
      index; if they also agree on first appearances they rebuild the same table. */
  lemma {:induction false} InterleavingDoesNotMatter(a: seq<Fragment>, b: seq<Fragment>)
    requires forall index: int :: Of(a, index) == Of(b, index)
    ensures forall s :: s in CollectAll([], a) <==> s in CollectAll([], b)
    ensures Appearance(a) == Appearance(b) ==> CollectAll([], a) == CollectAll([], b)
  {
    CollectedIsTable(a);
    CollectedIsTable(b);
    AppearanceIsDistinct(a);
    AppearanceIsDistinct(b);
    assert forall index :: SlotOf(a, index) == SlotOf(b, index);
    hide CollectAll, Of, Appearance, SlotOf;
    forall s: Slot
      ensures s in Table(a) <==> s in Table(b)
    {
      InTable(a, s);
      InTable(b, s);
    }
  }

  // --- dispatching -------------------------------------------------------------------

  /** Parsed arguments; text that does not parse counts as an empty object. */
  datatype Json = Object(fields: map<string, string>) | NotAnObject

  /** The tools this agent version has, its own declared tools, and the JSON reader. */
  datatype Kit = Kit(enabled: set<string>, custom: set<string>, parse: string -> Json)

  /** What dispatching leaves behind. */
  datatype Effects = Effects(
    exitPort: Option<string>, pending: seq<(string, Json)>, destination: Option<string>, captured: map<string, string>)

  function FlowExit(name: string): Option<string> {
    if name == "transfer" || name == "end_call" then Some(name) else None
  }

  function Filled(args: map<string, string>): map<string, string> { map k | k in args && args[k] != "" :: args[k] }

  function DispatchOne(kit: Kit, e: Effects, s: Slot): Effects {
    var args := kit.parse(if s.args == "" then "{}" else s.args);
    if s.name !in kit.enabled then
      if s.name in kit.custom then e.(pending := e.pending + [(s.name, args)]) else e
    else if FlowExit(s.name).Some? then
      var d := if s.name == "transfer" && args.Object? && "destination" in args.fields && args.fields["destination"] != ""
               then Some(args.fields["destination"]) else e.destination;
      e.(exitPort := FlowExit(s.name), destination := d)
    else if s.name == "capture_lead" && args.Object? && Filled(args.fields) != map[] then
      e.(captured := e.captured + Filled(args.fields))
    else e
  }

  function DispatchAll(kit: Kit, e: Effects, slots: seq<Slot>): Effects
    decreases |slots|
  {
    if slots == [] then e else DispatchAll(kit, DispatchOne(kit, e, slots[0]), slots[1..])
  }

  /** The exit port is that of the last enabled flow-exit tool in table order, if there is one. */
  lemma {:induction false} LastExitWins(kit: Kit, e: Effects, slots: seq<Slot>, k: nat)
    requires k < |slots| && slots[k].name in kit.enabled && FlowExit(slots[k].name).Some?
    requires forall i :: k < i < |slots| ==> !(slots[i].name in kit.enabled && FlowExit(slots[i].name).Some?)
    ensures DispatchAll(kit, e, slots).exitPort == FlowExit(slots[k].name)
    decreases |slots|
  {
    if k > 0 {
      LastExitWins(kit, DispatchOne(kit, e, slots[0]), slots[1..], k - 1);
    } else {
      NoExitKeepsPort(kit, DispatchOne(kit, e, slots[0]), slots[1..]);
    }
  }

  lemma {:induction false} NoExitKeepsPort(kit: Kit, e: Effects, slots: seq<Slot>)
    requires forall i :: 0 <= i < |slots| ==> !(slots[i].name in kit.enabled && FlowExit(slots[i].name).Some?)
    ensures DispatchAll(kit, e, slots).exitPort == e.exitPort && DispatchAll(kit, e, slots).destination == e.destination
    decreases |slots|
  {
    if slots != [] {
      NoExitKeepsPort(kit, DispatchOne(kit, e, slots[0]), slots[1..]);
    }
  }

  // --- what a dispatched table leaves behind -----------------------------------------

  /** The arguments of a slot; no argument text counts as an empty object. */
  function ArgsOf(kit: Kit, s: Slot): Json { kit.parse(if s.args == "" then "{}" else s.args) }

  /** The agent's own tools among the slots, in order: those that are not enabled platform tools. */
  function CustomCalls(kit: Kit, slots: seq<Slot>): seq<(string, Json)> {
    if slots == [] then []
    else (if slots[0].name in kit.custom && slots[0].name !in kit.enabled then [(slots[0].name, ArgsOf(kit, slots[0]))] else [])
         + CustomCalls(kit, slots[1..])
  }

  /** Every one of them is handed on with its arguments, in table order, and nothing else is. */
  lemma {:induction false} PendingIsTheCustomCalls(kit: Kit, e: Effects, slots: seq<Slot>)
    ensures DispatchAll(kit, e, slots).pending == e.pending + CustomCalls(kit, slots)
    decreases |slots|
  {
    if slots == [] {
      assert e.pending + [] == e.pending;
    } else {
      PendingIsTheCustomCalls(kit, DispatchOne(kit, e, slots[0]), slots[1..]);
      var one := if slots[0].name in kit.custom && slots[0].name !in kit.enabled then [(slots[0].name, ArgsOf(kit, slots[0]))] else [];
      assert DispatchOne(kit, e, slots[0]).pending == e.pending + one;
      Associate(e.pending, one, CustomCalls(kit, slots[1..]));
    }
  }

  /** The slot captures a value for this key: an enabled capture_lead whose object has something there. */
  predicate Captures(kit: Kit, s: Slot, key: string) {
    && s.name == "capture_lead" && s.name in kit.enabled
    && ArgsOf(kit, s).Object? && key in ArgsOf(kit, s).fields && ArgsOf(kit, s).fields[key] != ""
  }

  lemma {:induction false} CaptureStep(kit: Kit, e: Effects, s: Slot, key: string)
    ensures var d := DispatchOne(kit, e, s);
      if Captures(kit, s, key) then key in d.captured && d.captured[key] == ArgsOf(kit, s).fields[key]
      else (key in d.captured <==> key in e.captured) && (key in d.captured ==> d.captured[key] == e.captured[key])
  {
    if Captures(kit, s, key) {
      assert key in Filled(ArgsOf(kit, s).fields);
    }
  }

  /** Captured fields are merged, not replaced: the value of a key is the last one captured for it, in this turn
      or before. */
  lemma {:induction false} LastCaptureWins(kit: Kit, e: Effects, slots: seq<Slot>, key: string, k: nat)
    requires k < |slots| && Captures(kit, slots[k], key)
    requires forall i :: k < i < |slots| ==> !Captures(kit, slots[i], key)
    ensures var d := DispatchAll(kit, e, slots); key in d.captured && d.captured[key] == ArgsOf(kit, slots[k]).fields[key]
    decreases |slots|
  {
    hide DispatchOne, Captures, ArgsOf;
    CaptureStep(kit, e, slots[0], key);
    if k > 0 {
      LastCaptureWins(kit, DispatchOne(kit, e, slots[0]), slots[1..], key, k - 1);
    } else {
      NoCaptureKeeps(kit, DispatchOne(kit, e, slots[0]), slots[1..], key);
    }
  }

  lemma {:induction false} NoCaptureKeeps(kit: Kit, e: Effects, slots: seq<Slot>, key: string)
    requires forall i :: 0 <= i < |slots| ==> !Captures(kit, slots[i], key)
    ensures var d := DispatchAll(kit, e, slots);
      (key in d.captured <==> key in e.captured) && (key in d.captured ==> d.captured[key] == e.captured[key])
    decreases |slots|
  {
    hide DispatchOne, Captures;
    if slots != [] {
      CaptureStep(kit, e, slots[0], key);
      NoCaptureKeeps(kit, DispatchOne(kit, e, slots[0]), slots[1..], key);
    }
  }

  /** The slot names where to send the caller. */
  predicate Sends(kit: Kit, s: Slot) {
    && s.name == "transfer" && s.name in kit.enabled
    && ArgsOf(kit, s).Object? && "destination" in ArgsOf(kit, s).fields && ArgsOf(kit, s).fields["destination"] != ""
  }

  lemma {:induction false} SendStep(kit: Kit, e: Effects, s: Slot)
    ensures DispatchOne(kit, e, s).destination
         == if Sends(kit, s) then Some(ArgsOf(kit, s).fields["destination"]) else e.destination
  {
  }

  /** So is the destination: the last enabled transfer that names one decides it. */
  lemma {:induction false} LastDestinationWins(kit: Kit, e: Effects, slots: seq<Slot>, k: nat)
    requires k < |slots| && Sends(kit, slots[k]) && forall i :: k < i < |slots| ==> !Sends(kit, slots[i])
    ensures DispatchAll(kit, e, slots).destination == Some(ArgsOf(kit, slots[k]).fields["destination"])
    decreases |slots|
  {
    hide DispatchOne, Sends, ArgsOf;
    SendStep(kit, e, slots[0]);
    if k > 0 {
      LastDestinationWins(kit, DispatchOne(kit, e, slots[0]), slots[1..], k - 1);
    } else {
      NoDestinationKeeps(kit, DispatchOne(kit, e, slots[0]), slots[1..]);
    }
  }

  lemma {:induction false} NoDestinationKeeps(kit: Kit, e: Effects, slots: seq<Slot>)
    requires forall i :: 0 <= i < |slots| ==> !Sends(kit, slots[i])
    ensures DispatchAll(kit, e, slots).destination == e.destination
    decreases |slots|
  {
    hide DispatchOne, Sends;
    if slots != [] {
      SendStep(kit, e, slots[0]);
      NoDestinationKeeps(kit, DispatchOne(kit, e, slots[0]), slots[1..]);
    }
  }

  /** How the fragments of different calls are interleaved on the wire does not change what a turn does,
      as long as the calls first appear in the same order. */
  lemma {:induction false} DispatchIgnoresInterleaving(kit: Kit, e: Effects, a: seq<Fragment>, b: seq<Fragment>)
    requires (forall index: int :: Of(a, index) == Of(b, index)) && Appearance(a) == Appearance(b)
    ensures DispatchAll(kit, e, CollectAll([], a)) == DispatchAll(kit, e, CollectAll([], b))
  {
    InterleavingDoesNotMatter(a, b);
  }

  /** The order of first appearance does matter: the later of two exit calls decides the port. */
  lemma {:induction false} AppearanceOrderDecidesTheExit(kit: Kit, e: Effects, x: Fragment, y: Fragment)
    requires x == Fragment(Some(0), "transfer", "") && y == Fragment(Some(1), "end_call", "")
    requires kit.enabled == {"transfer", "end_call"}
    ensures forall index: int :: Of([x, y], index) == Of([y, x], index)
    ensures DispatchAll(kit, e, CollectAll([], [x, y])).exitPort == Some("end_call")
    ensures DispatchAll(kit, e, CollectAll([], [y, x])).exitPort == Some("transfer")
  {
    TwoFragments(x, y);
    TwoFragments(y, x);
    hide Of, CollectAll, DispatchAll, Appearance;
    var s, t := Slot(0, "transfer", ""), Slot(1, "end_call", "");
    LastExitWins(kit, e, [s, t], 1);
    LastExitWins(kit, e, [t, s], 1);
  }

  lemma {:induction false} TwoFragments(x: Fragment, y: Fragment)
    requires IndexOf(x) != IndexOf(y)
    ensures CollectAll([], [x, y]) == [Extend(Slot(IndexOf(x), "", ""), x), Extend(Slot(IndexOf(y), "", ""), y)]
    ensures forall index: int :: Of([x, y], index) == if index == IndexOf(x) then [x] else if index == IndexOf(y) then [y] else []
  {
    hide Extend;
    assert [x, y][..1] == [x] && [x][..0] == [];
    var s := Extend(Slot(IndexOf(x), "", ""), x);
    assert CollectAll([], [x]) == [s];
    SlotKeepsIndex(Slot(IndexOf(x), "", ""), x);
    CollectNew([s], y);
    forall index: int
      ensures Of([x], index) == if index == IndexOf(x) then [x] else []
    {
    }
  }

  lemma {:induction false} SlotKeepsIndex(s: Slot, f: Fragment)
    ensures Extend(s, f).index == s.index
  {
  }

  // --- the source's class ------------------------------------------------------------

  class Conversation {
    const kit: Kit
    var toolCalls: seq<Slot>
    var effects: Effects

    constructor (kit: Kit)
      ensures this.kit == kit && toolCalls == [] && effects == Effects(None, [], None, map[])
    {
      this.kit, toolCalls, effects := kit, [], Effects(None, [], None, map[]);
    }

    /** `_collect_tool_delta`: finds the slot of the fragment's index, opening one at the end of the table
        if there is none, then overwrites its name and appends its argument text. */
    method CollectDelta(f: Fragment)
      modifies this`toolCalls
      ensures toolCalls == Collect(old(toolCalls), f)
    {
      var index := if f.index.Some? then f.index.value else 0;
      var k := 0;
      while k < |toolCalls| && toolCalls[k].index != index
        invariant 0 <= k <= |toolCalls|
        invariant forall i :: 0 <= i < k ==> toolCalls[i].index != index
      {
        k := k + 1;
      }
      if k == |toolCalls| {
        CollectNew(toolCalls, f);
        toolCalls := toolCalls + [Slot(index, "", "")];
      } else {
        CollectAt(toolCalls, f, k);
      }
      var slot := toolCalls[k];
      if f.name != "" {
        slot := slot.(name := f.name);
      }
      if f.arguments != "" {
        slot := slot.(args := slot.args + f.arguments);
      } else {
        assert slot.args + f.arguments == slot.args;
      }
      toolCalls := toolCalls[k := slot];
    }

    /** `_dispatch_tools`. The only place that empties the slot table. */
    method DispatchTools() returns (exitPort: Option<string>)
      modifies this
      ensures toolCalls == []
      ensures effects == DispatchAll(kit, old(effects.(exitPort := None)), old(toolCalls)) && exitPort == effects.exitPort
    {
      hide DispatchOne;
      effects := effects.(exitPort := None);
      ghost var start := effects;
      var i := 0;
      while i < |toolCalls|
        invariant 0 <= i <= |toolCalls| && toolCalls == old(toolCalls)
        invariant DispatchAll(kit, effects, toolCalls[i..]) == DispatchAll(kit, start, toolCalls)
      {
        assert toolCalls[i..][0] == toolCalls[i] && toolCalls[i..][1..] == toolCalls[i + 1..];
        effects := DispatchOne(kit, effects, toolCalls[i]);
        i := i + 1;
      }
      toolCalls := [];
      exitPort := effects.exitPort;
    }
  }

  /** One turn that starts with an empty table: its tools act exactly as its own fragments say. */
  method RunTurn(kit: Kit, fs: seq<Fragment>) returns (effects: Effects)
    ensures effects == DispatchAll(kit, Effects(None, [], None, map[]), Table(fs))
  {
    hide Collect, DispatchAll;
    var c := new Conversation(kit);
    for i := 0 to |fs|
      invariant c.toolCalls == CollectAll([], fs[..i]) && c.effects == Effects(None, [], None, map[]) && c.kit == kit && fresh(c)
    {
      assert fs[..i + 1][..i] == fs[..i];
      c.CollectDelta(fs[i]);
    }
    assert fs[..|fs|] == fs;
    CollectedIsTable(fs);
    var _ := c.DispatchTools();
    effects := c.effects;
  }

  /** A cancelled turn never reaches the dispatch, so its fragments stay in the table: the next turn acts
      on both turns' fragments as if they were one stream. */
  lemma {:induction false} LeftoversJoinTheNextTurn(cancelled: seq<Fragment>, next: seq<Fragment>)
    ensures CollectAll(CollectAll([], cancelled), next) == Table(cancelled + next)
    decreases |next|
  {
    CollectedIsTable(cancelled + next);
    CollectAllAppend([], cancelled, next);
  }

  const NOTHING := Effects(None, [], None, map[])

  /** The turn that finds `table` left over acts as its own fragments say, whatever they and the tools are. */
  ghost predicate ActsOnItsOwn(table: seq<Slot>) {
    forall kit: Kit, e: Effects, next: seq<Fragment> ::
      DispatchAll(kit, e, CollectAll(table, next)) == DispatchAll(kit, e, Table(next))
  }

  lemma {:induction false} PendingGrows(kit: Kit, e: Effects, slots: seq<Slot>)
    ensures |DispatchAll(kit, e, slots).pending| >= |e.pending|
    decreases |slots|
  {
    if slots != [] {
      PendingGrows(kit, DispatchOne(kit, e, slots[0]), slots[1..]);
    }
  }

  /** One leftover slot is enough: if its name is a declared tool, that tool runs in a turn that called
      none. */
  lemma {:induction false} LeftoverActs(table: seq<Slot>)
    requires table != []
    ensures var kit := Kit({}, {table[0].name}, _ => NotAnObject);
      DispatchAll(kit, NOTHING, CollectAll(table, [])) != DispatchAll(kit, NOTHING, Table([]))
  {
    var kit := Kit({}, {table[0].name}, _ => NotAnObject);
    PendingGrows(kit, DispatchOne(kit, NOTHING, table[0]), table[1..]);
  }

  /** A turn acts on its own fragments alone, for every set of tools and every reply, exactly when no
      fragment was left over before it. */
  lemma {:induction false} ActsOnItsOwnExactlyWhen(table: seq<Slot>)
    ensures ActsOnItsOwn(table) <==> table == []
  {
    hide CollectAll, DispatchAll, Table;
    if table == [] {
      forall kit: Kit, e: Effects, next: seq<Fragment>
        ensures DispatchAll(kit, e, CollectAll(table, next)) == DispatchAll(kit, e, Table(next))
      {
        CollectedIsTable(next);
      }
    } else {
      LeftoverActs(table);
    }
  }

  /** Two turns: the first asks for a transfer and is cancelled before it dispatches, the second calls no
      tool and leaves by the first one's port. */
  method LeftoverDecidesTheNextPort() returns (own: Option<string>, taken: Option<string>)
    ensures own == None && taken == Some("transfer")
  {
    var kit := Kit({"transfer"}, {}, _ => NotAnObject);
    var alone := RunTurn(kit, []);
    own := alone.exitPort;
    assert Table([]) == [];
    var c := new Conversation(kit);
    c.CollectDelta(Fragment(Some(0), "transfer", ""));
    assert "" + "" == "";
    assert c.toolCalls == [Slot(0, "transfer", "")];
    LastExitWins(kit, NOTHING, c.toolCalls, 0);
    taken := c.DispatchTools();
  }

  lemma {:induction false} CollectAllAppend(slots: seq<Slot>, a: seq<Fragment>, b: seq<Fragment>)
    ensures CollectAll(slots, a + b) == CollectAll(CollectAll(slots, a), b)
    decreases |b|
  {
    if b == [] {
      assert a + b == a;
    } else {
      assert (a + b)[..|a + b| - 1] == a + b[..|b| - 1];
      CollectAllAppend(slots, a, b[..|b| - 1]);
    }
  }
}
