/** Single-flight token refresh in the browser client (frontend/src/api.ts). One tab runs one piece of
    script at a time; a run interleaves responses, resumed requests, sign-ins and sign-outs freely. */
module TokenRefresh {
  datatype Option<T> = None | Some(value: T)

  type Token = nat

  /** The outcome of a refresh as `refreshAccessToken` reports it. */
  datatype Result = Ok | Rejected | Network

  /** The refresh token in a successful answer: a new one, the redeemed one again, or none. */
  datatype Answer = Rotated | Repeated | Omitted

  /** One call of the refresh routine: the refresh token it sent (none if none was stored), and its
      settled result once there is one. */
  datatype Flight = Flight(sent: Option<Token>, result: Option<Result>)

  /** Where a request stands. `Ready(retry)` is about to be sent, with the right to one more try. */
  datatype Stage = Ready(retry: bool) | Sent(retry: bool) | Waiting(flight: nat) | Over

  datatype Request = Request(stage: Stage, fetches: nat)

  /** `minted` is the number of tokens the server has issued, so the next one is new. */
  datatype Tab = Tab(
    access: Option<Token>, refresh: Option<Token>, refreshing: Option<nat>,
    flights: seq<Flight>, requests: seq<Request>, minted: nat)

  datatype Action =
    | Ask                                  // some part of the page starts a request
    | Fetch(id: nat)
    | Answered(id: nat, unauthorized: bool) // any other outcome ends the request
    | Refreshed(flight: nat, answer: Answer) // 2xx
    | RefreshFailed(flight: nat, definite: bool)
    | Landed(flight: nat)                  // the `finally` that forgets the settled flight
    | Resumed(id: nat)                     // a request waiting on a settled flight goes on
    | SignIn
    | SignOut

  const OPENED := Tab(None, None, None, [], [], 0)

  // --- steps -------------------------------------------------------------------------

  function Cleared(t: Tab): Tab { t.(access := None, refresh := None) }

  /** `setTokens`: the refresh token is replaced only if there is a new one. */
  function Stored(t: Tab, rotated: bool): Tab {
    t.(access := Some(t.minted), refresh := if rotated then Some(t.minted + 1) else t.refresh, minted := t.minted + 2)
  }

  /** What a successful answer to flight `f` stores. */
  function Accepted(t: Tab, f: nat, answer: Answer): Tab
    requires f < |t.flights|
  {
    match answer
    case Rotated => Stored(t, true)
    case Repeated => Stored(t, false).(refresh := t.flights[f].sent)
    case Omitted => Stored(t, false)
  }

  /** `refreshAccessToken`: join the flight in progress or start one. */
  function Join(t: Tab): Tab {
    if t.refreshing.Some? then t
    else
      t.(flights := t.flights + [Flight(t.refresh, if t.refresh.None? then Some(Rejected) else None)],
         refreshing := Some(|t.flights|))
  }

  function Set(t: Tab, id: nat, stage: Stage): Tab
    requires id < |t.requests|
  {
    t.(requests := t.requests[id := t.requests[id].(stage := stage)])
  }

  function Settle(t: Tab, f: nat, r: Result): Tab
    requires f < |t.flights|
  {
    t.(flights := t.flights[f := t.flights[f].(result := Some(r))])
  }

  function Step(t: Tab, a: Action): Tab {
    match a
    case Ask => t.(requests := t.requests + [Request(Ready(true), 0)])
    case Fetch(i) =>
      if i < |t.requests| && t.requests[i].stage.Ready? then
        t.(requests := t.requests[i := Request(Sent(t.requests[i].stage.retry), t.requests[i].fetches + 1)])
      else t
    case Answered(i, unauthorized) =>
      if !(i < |t.requests| && t.requests[i].stage.Sent?) then t
      else if !unauthorized then Set(t, i, Over)
      else if t.requests[i].stage.retry then Set(Join(t), i, Waiting(Join(t).refreshing.value))
      else Set(Cleared(t), i, Over)
    case Refreshed(f, answer) =>
      if f < |t.flights| && t.flights[f].result.None? then Settle(Accepted(t, f, answer), f, Ok) else t
    case RefreshFailed(f, definite) =>
      if f < |t.flights| && t.flights[f].result.None? then Settle(t, f, if definite then Rejected else Network) else t
    case Landed(f) =>
      if f < |t.flights| && t.flights[f].result.Some? && t.refreshing == Some(f) then t.(refreshing := None) else t
    case Resumed(i) =>
      if !(i < |t.requests| && t.requests[i].stage.Waiting? && t.requests[i].stage.flight < |t.flights|) then t
      else
        var r := t.flights[t.requests[i].stage.flight].result;
        if r.None? then t
        else
          (match r.value
           case Ok => Set(t, i, Ready(false))
           case Network => Set(t, i, Over)
           case Rejected => Set(Cleared(t), i, Over))
    case SignIn => Stored(t, true)
    case SignOut => Cleared(t)
  }

  function TabAt(run: seq<Action>, n: nat): Tab
    requires n <= |run|
  {
    if n == 0 then OPENED else Step(TabAt(run, n - 1), run[n - 1])
  }

  // --- invariants --------------------------------------------------------------------

  /** Only the flight the module variable holds can be outstanding. */
  predicate OneOutstanding(t: Tab) {
    && (t.refreshing.Some? ==> t.refreshing.value < |t.flights|)
    && forall f :: 0 <= f < |t.flights| && t.flights[f].result.None? ==> t.refreshing == Some(f) && t.flights[f].sent.Some?
  }

  predicate TwoFetches(t: Tab) {
    forall i :: 0 <= i < |t.requests| ==>
      match t.requests[i].stage
      case Ready(retry) => t.requests[i].fetches == (if retry then 0 else 1)
      case Sent(retry) => t.requests[i].fetches == (if retry then 1 else 2)
      case Waiting(_) => t.requests[i].fetches == 1
      case Over => 1 <= t.requests[i].fetches <= 2
  }

  /** Every token in sight was issued by the server. */
  predicate Minted(t: Tab) {
    && (t.refresh.Some? ==> t.refresh.value < t.minted)
    && forall f :: 0 <= f < |t.flights| && t.flights[f].sent.Some? ==> t.flights[f].sent.value < t.minted
  }

  predicate Sound(t: Tab) { OneOutstanding(t) && TwoFetches(t) && Minted(t) }

  lemma {:induction false} JoinSound(t: Tab)
    requires Sound(t)
    ensures Sound(Join(t)) && Join(t).refreshing.Some? && Join(t).requests == t.requests
  {
    hide TwoFetches;
    TwoFetchesOnRequests(t, Join(t));
  }

  lemma {:induction false} TwoFetchesOnRequests(t: Tab, u: Tab)
    requires t.requests == u.requests
    ensures TwoFetches(t) <==> TwoFetches(u)
  {
  }

  /** A request moves on; nothing else changes. */
  lemma {:induction false} MoveSound(t: Tab, i: nat, r: Request)
    requires Sound(t) && i < |t.requests|
    requires match r.stage
             case Ready(retry) => r.fetches == (if retry then 0 else 1)
             case Sent(retry) => r.fetches == (if retry then 1 else 2)
             case Waiting(_) => r.fetches == 1
             case Over => 1 <= r.fetches <= 2
    ensures Sound(t.(requests := t.requests[i := r]))
  {
  }

  lemma {:induction false} StoreSound(t: Tab, rotated: bool)
    requires Sound(t)
    ensures Sound(Stored(t, rotated)) && Sound(Cleared(t))
  {
    hide TwoFetches;
    TwoFetchesOnRequests(t, Stored(t, rotated));
    TwoFetchesOnRequests(t, Cleared(t));
  }

  lemma {:induction false} AcceptedSound(t: Tab, f: nat, answer: Answer)
    requires Sound(t) && f < |t.flights|
    ensures Sound(Accepted(t, f, answer)) && Accepted(t, f, answer).flights == t.flights
  {
    hide TwoFetches;
    TwoFetchesOnRequests(t, Accepted(t, f, answer));
  }

  lemma {:induction false} SettleSound(t: Tab, f: nat, r: Result)
    requires Sound(t) && f < |t.flights|
    ensures Sound(Settle(t, f, r))
  {
    hide TwoFetches;
    TwoFetchesOnRequests(t, Settle(t, f, r));
  }

  lemma {:induction false} StepSound(t: Tab, a: Action)
    requires Sound(t)
    ensures Sound(Step(t, a))
  {
    hide OneOutstanding, Minted, Join, Stored, Accepted, Cleared, Settle;
    match a
    case Ask => AskSound(t);
    case Fetch(i) =>
      if i < |t.requests| && t.requests[i].stage.Ready? {
        MoveSound(t, i, Request(Sent(t.requests[i].stage.retry), t.requests[i].fetches + 1));
      }
    case Answered(i, unauthorized) =>
      if i < |t.requests| && t.requests[i].stage.Sent? {
        JoinSound(t);
        StoreSound(t, true);
        SameRequests(t, true, 0, Ok);
        MoveSound(t, i, t.requests[i].(stage := Over));
        MoveSound(Cleared(t), i, t.requests[i].(stage := Over));
        if t.requests[i].stage.retry {
          MoveSound(Join(t), i, t.requests[i].(stage := Waiting(Join(t).refreshing.value)));
        }
      }
    case Refreshed(f, answer) =>
      if f < |t.flights| {
        AcceptedSound(t, f, answer);
        SettleSound(Accepted(t, f, answer), f, Ok);
      }
    case RefreshFailed(f, definite) =>
      if f < |t.flights| { SettleSound(t, f, if definite then Rejected else Network); }
    case Landed(f) => LandedSound(t, f);
    case Resumed(i) =>
      if i < |t.requests| && t.requests[i].stage.Waiting? {
        StoreSound(t, true);
        SameRequests(t, true, 0, Ok);
        MoveSound(t, i, t.requests[i].(stage := Ready(false)));
        MoveSound(t, i, t.requests[i].(stage := Over));
        MoveSound(Cleared(t), i, t.requests[i].(stage := Over));
      }
    case SignIn => StoreSound(t, true);
    case SignOut => StoreSound(t, true);
  }

  lemma {:induction false} SameRequests(t: Tab, rotated: bool, f: nat, r: Result)
    ensures Stored(t, rotated).requests == Cleared(t).requests == Join(t).requests == t.requests
    ensures Stored(t, rotated).flights == Cleared(t).flights == t.flights
  {
  }

  lemma {:induction false} AskSound(t: Tab)
    requires Sound(t)
    ensures Sound(t.(requests := t.requests + [Request(Ready(true), 0)]))
  {
  }

  lemma {:induction false} LandedSound(t: Tab, f: nat)
    requires Sound(t)
    ensures Sound(Step(t, Landed(f)))
  {
    hide TwoFetches;
    TwoFetchesOnRequests(t, Step(t, Landed(f)));
  }

  lemma {:induction false} Next(run: seq<Action>, n: nat)
    requires n < |run|
    ensures TabAt(run, n + 1) == Step(TabAt(run, n), run[n])
  {
  }

  lemma {:induction false} SoundAlways(run: seq<Action>, n: nat)
    requires n <= |run|
    ensures Sound(TabAt(run, n))
  {
    hide Step, Sound;
    if n > 0 {
      SoundAlways(run, n - 1);
      Next(run, n - 1);
      hide TabAt;
      StepSound(TabAt(run, n - 1), run[n - 1]);
    } else {
      SoundAtFirst();
    }
  }

  lemma {:induction false} SoundAtFirst()
    ensures Sound(OPENED)
  {
  }

  /** In every interleaving: at most one refresh is outstanding, and no request fetches more than twice. */
  lemma {:induction false} AtMostOneRefreshAndTwoFetches(run: seq<Action>, n: nat)
    requires n <= |run|
    ensures var t := TabAt(run, n);
      && (forall f, g :: 0 <= f < |t.flights| && 0 <= g < |t.flights| && t.flights[f].result.None? && t.flights[g].result.None? ==> f == g)
      && (forall i :: 0 <= i < |t.requests| ==> t.requests[i].fetches <= 2)
  {
    SoundAlways(run, n);
  }

  // --- no redeemed token is sent again -----------------------------------------------

  /** Every successful refresh answers with a new refresh token. */
  predicate Rotates(run: seq<Action>, n: nat)
    requires n <= |run|
  {
    forall k :: 0 <= k < n && run[k].Refreshed? ==> run[k].answer == Rotated
  }

  predicate Redeemed(f: Flight) { f.result == Some(Ok) && f.sent.Some? }

  /** A redeemed refresh token is not the stored one. */
  predicate NotStored(t: Tab) {
    forall f :: 0 <= f < |t.flights| && Redeemed(t.flights[f]) ==> t.flights[f].sent != t.refresh
  }

  /** No flight sends the token an earlier one redeemed; only the last flight can still be out. */
  predicate NotResent(t: Tab) {
    && (forall f, g :: 0 <= f < g < |t.flights| && Redeemed(t.flights[f]) ==> t.flights[g].sent != t.flights[f].sent)
    && (forall f :: 0 <= f < |t.flights| && t.flights[f].result.None? ==> f + 1 == |t.flights|)
  }

  predicate NoReuse(t: Tab) { NotStored(t) && NotResent(t) }

  lemma {:induction false} SameFlights(t: Tab, u: Tab)
    requires NoReuse(t) && t.flights == u.flights && (u.refresh == t.refresh || u.refresh.None?)
    ensures NoReuse(u)
  {
  }

  lemma {:induction false} JoinNoReuse(t: Tab)
    requires NoReuse(t) && OneOutstanding(t)
    ensures NoReuse(Join(t))
  {
  }

  lemma {:induction false} StoreNoReuse(t: Tab)
    requires NoReuse(t) && Minted(t)
    ensures NoReuse(Stored(t, true))
    ensures forall f :: 0 <= f < |t.flights| ==> Stored(t, true).flights[f].sent != Stored(t, true).refresh
  {
  }

  lemma {:induction false} SettleNoReuse(t: Tab, f: nat, r: Result)
    requires NoReuse(t) && f < |t.flights| && t.flights[f].result.None?
    requires r == Ok ==> t.flights[f].sent != t.refresh
    ensures NoReuse(Settle(t, f, r))
  {
  }

  lemma {:induction false} StepNoReuse(t: Tab, a: Action)
    requires Sound(t) && NoReuse(t) && (a.Refreshed? ==> a.answer == Rotated)
    ensures NoReuse(Step(t, a))
  {
    hide OneOutstanding, Minted, TwoFetches, NotStored, NotResent, Join, Stored, Settle;
    match a
    case Ask => SameFlights(t, Step(t, a));
    case Fetch(_) => SameFlights(t, Step(t, a));
    case Answered(i, unauthorized) =>
      JoinNoReuse(t);
      SameFlights(t, Cleared(t));
      if i < |t.requests| && t.requests[i].stage.Sent? {
        if unauthorized && t.requests[i].stage.retry {
          JoinSound(t);
          SameFlights(Join(t), Step(t, a));
        } else {
          SameFlights(t, Step(t, a));
        }
      }
    case Refreshed(f, _) =>
      StoreNoReuse(t);
      SameRequests(t, true, 0, Ok);
      if f < |t.flights| && t.flights[f].result.None? {
        SettleNoReuse(Stored(t, true), f, Ok);
      }
    case RefreshFailed(f, definite) =>
      if f < |t.flights| && t.flights[f].result.None? {
        SettleNoReuse(t, f, if definite then Rejected else Network);
      }
    case Landed(_) => SameFlights(t, Step(t, a));
    case Resumed(_) => SameFlights(t, Step(t, a));
    case SignIn => StoreNoReuse(t);
    case SignOut => SameFlights(t, Step(t, a));
  }

  lemma {:induction false} NoReuseAlways(run: seq<Action>, n: nat)
    requires n <= |run| && Rotates(run, n)
    ensures NoReuse(TabAt(run, n))
  {
    hide TabAt, Step, NoReuse, Sound;
    if n == 0 {
      TabAtFirst(run);
      NoReuseAtFirst();
    } else {
      NoReuseAlways(run, n - 1);
      SoundAlways(run, n - 1);
      Next(run, n - 1);
      StepNoReuse(TabAt(run, n - 1), run[n - 1]);
    }
  }

  lemma {:induction false} NoReuseAtFirst()
    ensures NoReuse(OPENED)
  {
  }

  /** If two refreshes send the same token, the first one was not seen to succeed. */
  lemma {:induction false} RedeemedTokenIsNeverSentAgain(run: seq<Action>, n: nat, f: nat, g: nat)
    requires n <= |run| && Rotates(run, n)
    requires f < g < |TabAt(run, n).flights| && TabAt(run, n).flights[f].sent.Some?
    requires TabAt(run, n).flights[f].sent == TabAt(run, n).flights[g].sent
    ensures TabAt(run, n).flights[f].result.Some? && TabAt(run, n).flights[f].result.value != Ok
  {
    hide TabAt;
    NoReuseAlways(run, n);
  }

  /** One answer decides it: the redeemed token is gone from the store exactly when the answer carries a
      new one, or carries none and the store was changed while the refresh was out. */
  lemma {:induction false} RedeemedTokenGoesExactlyWhen(t: Tab, f: nat, answer: Answer)
    requires Sound(t) && f < |t.flights| && t.flights[f].result.None?
    ensures var u := Step(t, Refreshed(f, answer));
      Redeemed(u.flights[f]) && (u.refresh != u.flights[f].sent
        <==> answer == Rotated || (answer == Omitted && t.refresh != t.flights[f].sent))
  {
    hide TwoFetches;
  }

  /** Without a new refresh token in the answer, the redeemed one stays stored and is sent again. */
  lemma {:induction false} WithoutRotationItIsSentAgain(run: seq<Action>, answer: Answer)
    requires answer != Rotated
    requires run == [SignIn, Ask, Fetch(0), Answered(0, true), Refreshed(0, answer), Landed(0), Ask, Fetch(1), Answered(1, true)]
    ensures var t := TabAt(run, 9); |t.flights| == 2 && t.flights[0] == Flight(Some(1), Some(Ok)) && t.flights[1] == Flight(Some(1), None)
  {
    hide TabAt;
    TabAtFirst(run);
    Next(run, 0);
    Next(run, 1);
    Next(run, 2);
    assert TabAt(run, 3) == Tab(Some(0), Some(1), None, [], [Request(Sent(true), 1)], 2);
    Next(run, 3);
    assert TabAt(run, 4).flights == [Flight(Some(1), None)];
    Next(run, 4);
    assert TabAt(run, 5).flights == [Flight(Some(1), Some(Ok))];
    SentAgain(run);
  }

  lemma {:induction false} TabAtFirst(run: seq<Action>)
    ensures TabAt(run, 0) == OPENED
  {
  }

  lemma {:induction false} SentAgain(run: seq<Action>)
    requires |run| == 9 && run[5] == Landed(0) && run[6] == Ask && run[7] == Fetch(1) && run[8] == Answered(1, true)
    requires var t := TabAt(run, 5); t.flights == [Flight(Some(1), Some(Ok))] && t.refresh == Some(1) && t.refreshing == Some(0) && |t.requests| == 1
    ensures TabAt(run, 9).flights == [Flight(Some(1), Some(Ok)), Flight(Some(1), None)]
  {
    hide TabAt;
    Next(run, 5);
    Next(run, 6);
    assert TabAt(run, 7).requests[1] == Request(Ready(true), 0);
    Next(run, 7);
    assert TabAt(run, 8).requests[1] == Request(Sent(true), 1);
    Next(run, 8);
  }

  // --- when the tokens are erased ----------------------------------------------------

  /** The server definitely refused: a 401 on the second try, or a refresh it rejected. */
  predicate DefinitelyRefused(t: Tab, a: Action) {
    || (a.Answered? && a.unauthorized && a.id < |t.requests| && t.requests[a.id].stage == Sent(false))
    || (a.Resumed? && a.id < |t.requests| && t.requests[a.id].stage.Waiting? && t.requests[a.id].stage.flight < |t.flights|
        && t.flights[t.requests[a.id].stage.flight].result == Some(Rejected))
  }

  /** Stored tokens disappear exactly at a sign-out or a definite refusal. A refresh that fails for the
      network, or on the server's side, erases nothing. */
  lemma {:induction false} ErasedExactlyWhenRefused(t: Tab, a: Action)
    requires Sound(t) && t.refresh.Some?
    ensures Step(t, a).refresh.None? <==> a.SignOut? || DefinitelyRefused(t, a)
    ensures a.RefreshFailed? ==> Step(t, a).access == t.access && Step(t, a).refresh == t.refresh
  {
    hide TwoFetches, Minted;
  }

  /** The access token goes with it, and otherwise only ever changes to a new one. */
  lemma {:induction false} AccessErasedExactlyWhenRefused(t: Tab, a: Action)
    requires t.access.Some?
    ensures Step(t, a).access.None? <==> a.SignOut? || DefinitelyRefused(t, a)
    ensures Step(t, a).access != t.access && Step(t, a).access.Some? ==>
      (a.SignIn? || a.Refreshed?) && Step(t, a).access == Some(t.minted)
  {
    hide TwoFetches, Minted;
  }

  /** A successful answer always stores its new access token; its refresh token replaces the stored one if there
      is one. A sign-in stores two new tokens. */
  lemma {:induction false} SuccessStoresTheTokens(t: Tab, f: nat, answer: Answer)
    requires f < |t.flights| && t.flights[f].result.None?
    ensures var u := Step(t, Refreshed(f, answer));
      && u.access == Some(t.minted) && u.flights[f].result == Some(Ok)
      && (answer == Rotated ==> u.refresh == Some(t.minted + 1))
      && (answer == Repeated ==> u.refresh == t.flights[f].sent)
      && (answer == Omitted ==> u.refresh == t.refresh)
    ensures Step(t, SignIn).access == Some(t.minted) && Step(t, SignIn).refresh == Some(t.minted + 1)
  {
  }

  // --- the life of a request ---------------------------------------------------------

  /** A request ends exactly when it is answered other than 401, when its second try is answered 401, or when
      the refresh it waited for did not succeed. */
  lemma {:induction false} RequestEndsExactlyWhen(run: seq<Action>, n: nat, i: nat)
    requires n < |run| && i < |TabAt(run, n).requests| && TabAt(run, n).requests[i].stage != Over
    ensures i < |TabAt(run, n + 1).requests|
    ensures var t := TabAt(run, n); var stage := t.requests[i].stage;
      TabAt(run, n + 1).requests[i].stage == Over <==>
        || (run[n] == Answered(i, false) && stage.Sent?)
        || (run[n] == Answered(i, true) && stage == Sent(false))
        || (run[n] == Resumed(i) && stage.Waiting? && stage.flight < |t.flights|
            && t.flights[stage.flight].result.Some? && t.flights[stage.flight].result.value != Ok)
  {
    hide TabAt;
    Next(run, n);
    JoinKeepsRequests(TabAt(run, n));
    hide Join;
  }

  lemma {:induction false} JoinKeepsRequests(t: Tab)
    ensures Join(t).requests == t.requests && Join(t).refreshing.Some?
  {
  }

  function Apply(t: Tab, acts: seq<Action>): Tab
    decreases |acts|
  {
    if acts == [] then t else Apply(Step(t, acts[0]), acts[1..])
  }

  lemma {:induction false} ApplyNext(t: Tab, a: Action, acts: seq<Action>)
    ensures Apply(t, [a] + acts) == Apply(Step(t, a), acts) && Apply(t, []) == t
  {
    hide Step;
    assert ([a] + acts)[1..] == acts;
  }

  /** A request that is sent, told 401 and waits for its own refresh. */
  function Refusal(i: nat): seq<Action> { [Fetch(i)] + ([Answered(i, true)] + []) }

  lemma {:induction false} AfterRefusal(t: Tab, i: nat)
    requires i < |t.requests| && t.requests[i].stage == Ready(true) && t.refreshing.None? && t.refresh.Some?
    ensures Apply(t, Refusal(i)) == t.(
      refreshing := Some(|t.flights|), flights := t.flights + [Flight(t.refresh, None)],
      requests := t.requests[i := Request(Waiting(|t.flights|), t.requests[i].fetches + 1)])
  {
    var t1 := Step(t, Fetch(i));
    assert t1.requests == t.requests[i := Request(Sent(true), t.requests[i].fetches + 1)];
    var t2 := Step(t1, Answered(i, true));
    assert t2.requests == t.requests[i := Request(Waiting(|t.flights|), t.requests[i].fetches + 1)];
    hide Step, Apply;
    ApplyNext(t, Fetch(i), [Answered(i, true)] + []);
    ApplyNext(t1, Answered(i, true), []);
    ApplyNext(t2, Ask, []);
  }

  /** A silent refresh from beginning to end: the refused request redeems the stored token, both new tokens are
      stored, and the request is sent once more and ends with its second answer. */
  lemma {:induction false} RefreshedRequestIsRetried(t: Tab, i: nat)
    requires i < |t.requests| && t.requests[i].stage == Ready(true) && t.refreshing.None? && t.refresh.Some?
    ensures var f := |t.flights|;
      Apply(Apply(t, Refusal(i)), [Refreshed(f, Rotated)] + ([Landed(f)] + ([Resumed(i)] + ([Fetch(i)] + ([Answered(i, false)] + [])))))
        == t.(access := Some(t.minted), refresh := Some(t.minted + 1), minted := t.minted + 2,
              flights := t.flights + [Flight(t.refresh, Some(Ok))],
              requests := t.requests[i := Request(Over, t.requests[i].fetches + 2)])
  {
    var f, fetches := |t.flights|, t.requests[i].fetches;
    AfterRefusal(t, i);
    var t0 := Apply(t, Refusal(i));
    var t1 := Step(t0, Refreshed(f, Rotated));
    assert t1.flights == t.flights + [Flight(t.refresh, Some(Ok))];
    var t2 := Step(t1, Landed(f));
    var t3 := Step(t2, Resumed(i));
    assert t3.requests == t.requests[i := Request(Ready(false), fetches + 1)];
    RetryEnds(t3, i);
    assert t.requests[i := Request(Ready(false), fetches + 1)][i := Request(Over, fetches + 2)]
        == t.requests[i := Request(Over, fetches + 2)];
    hide Step, Apply;
    ApplyNext(t0, Refreshed(f, Rotated), [Landed(f)] + ([Resumed(i)] + ([Fetch(i)] + ([Answered(i, false)] + []))));
    ApplyNext(t1, Landed(f), [Resumed(i)] + ([Fetch(i)] + ([Answered(i, false)] + [])));
    ApplyNext(t2, Resumed(i), [Fetch(i)] + ([Answered(i, false)] + []));
  }

  lemma {:induction false} RetryEnds(t: Tab, i: nat)
    requires i < |t.requests| && t.requests[i].stage == Ready(false)
    ensures Apply(t, [Fetch(i)] + ([Answered(i, false)] + []))
         == t.(requests := t.requests[i := Request(Over, t.requests[i].fetches + 1)])
  {
    var t1 := Step(t, Fetch(i));
    assert t1.requests == t.requests[i := Request(Sent(false), t.requests[i].fetches + 1)];
    var t2 := Step(t1, Answered(i, false));
    assert t2.requests == t.requests[i := Request(Over, t.requests[i].fetches + 1)];
    hide Step, Apply;
    ApplyNext(t, Fetch(i), [Answered(i, false)] + []);
    ApplyNext(t1, Answered(i, false), []);
    ApplyNext(t2, Ask, []);
  }

  /** A refresh that fails ends the request without a second fetch; the tokens are erased if the server
      refused, and kept if it could not be reached or failed itself. */
  lemma {:induction false} FailedRefreshEndsTheRequest(t: Tab, i: nat, definite: bool)
    requires i < |t.requests| && t.requests[i].stage == Ready(true) && t.refreshing.None? && t.refresh.Some?
    ensures var f := |t.flights|;
      Apply(Apply(t, Refusal(i)), [RefreshFailed(f, definite)] + ([Landed(f)] + ([Resumed(i)] + [])))
        == (if definite then Cleared(t) else t).(
              flights := t.flights + [Flight(t.refresh, Some(if definite then Rejected else Network))],
              requests := t.requests[i := Request(Over, t.requests[i].fetches + 1)])
  {
    var f, fetches := |t.flights|, t.requests[i].fetches;
    AfterRefusal(t, i);
    var t0 := Apply(t, Refusal(i));
    var t1 := Step(t0, RefreshFailed(f, definite));
    assert t1.flights == t.flights + [Flight(t.refresh, Some(if definite then Rejected else Network))];
    var t2 := Step(t1, Landed(f));
    var t3 := Step(t2, Resumed(i));
    assert t3.requests == t.requests[i := Request(Over, fetches + 1)];
    hide Step, Apply;
    ApplyNext(t0, RefreshFailed(f, definite), [Landed(f)] + ([Resumed(i)] + []));
    ApplyNext(t1, Landed(f), [Resumed(i)] + []);
    ApplyNext(t2, Resumed(i), []);
    ApplyNext(t3, Ask, []);
  }

  /** A request refused while a refresh is out waits for that one; no second refresh is sent. */
  lemma {:induction false} LaterRefusalsJoin(t: Tab, i: nat)
    requires i < |t.requests| && t.requests[i].stage == Sent(true) && t.refreshing.Some?
    ensures Step(t, Answered(i, true)) == t.(requests := t.requests[i := t.requests[i].(stage := Waiting(t.refreshing.value))])
  {
  }

  // --- the source's module -----------------------------------------------------------

  class Client {
    var access: Option<Token>
    var refresh: Option<Token>
    var refreshing: Option<nat>
    var flights: seq<Flight>
    var requests: seq<Request>
    var minted: nat

    constructor ()
      ensures View() == OPENED
    {
      access, refresh, refreshing, flights, requests, minted := None, None, None, [], [], 0;
    }

    ghost function View(): Tab
      reads this
    {
      Tab(access, refresh, refreshing, flights, requests, minted)
    }

    method SetTokens(rotated: bool)
      modifies this
      ensures View() == Stored(old(View()), rotated)
    {
      access := Some(minted);
      if rotated {
        refresh := Some(minted + 1);
      }
      minted := minted + 2;
    }

    method ClearToken()
      modifies this
      ensures View() == Cleared(old(View()))
    {
      access := None;
      refresh := None;
    }

    method RefreshAccessToken() returns (flight: nat)
      modifies this
      ensures View() == Join(old(View())) && refreshing == Some(flight)
    {
      if refreshing.None? {
        var result := if refresh.None? then Some(Rejected) else None;
        refreshing := Some(|flights|);
        flights := flights + [Flight(refresh, result)];
      }
      flight := refreshing.value;
    }

    /** The part of `request` that runs when its fetch is answered. */
    method OnAnswer(i: nat, unauthorized: bool)
      modifies this
      ensures View() == Step(old(View()), Answered(i, unauthorized))
    {
      if i >= |requests| || !requests[i].stage.Sent? { return; }
      var next := Over;
      if unauthorized {
        if requests[i].stage.retry {
          var flight := RefreshAccessToken();
          next := Waiting(flight);
        } else {
          ClearToken();
        }
      }
      requests := requests[i := requests[i].(stage := next)];
    }

    /** The part of `request` that runs when the refresh it waits for has settled. */
    method OnSettled(i: nat)
      modifies this
      ensures View() == Step(old(View()), Resumed(i))
    {
      if i >= |requests| || !requests[i].stage.Waiting? || requests[i].stage.flight >= |flights| { return; }
      var r := flights[requests[i].stage.flight].result;
      if r.None? { return; }
      if r.value == Ok {
        requests := requests[i := requests[i].(stage := Ready(false))];
        return;
      }
      if r.value == Rejected {
        ClearToken();
      }
      requests := requests[i := requests[i].(stage := Over)];
    }

    /** The rest of the refresh routine, once the server has answered or the network has failed. */
    method OnRefreshed(flight: nat, success: bool, answer: Answer, definite: bool)
      modifies this
      ensures View() == Step(old(View()), if success then Refreshed(flight, answer) else RefreshFailed(flight, definite))
    {
      if flight >= |flights| || flights[flight].result.Some? { return; }
      var result := Ok;
      if success {
        SetTokens(answer == Rotated);
        if answer == Repeated {
          refresh := flights[flight].sent;
        }
      } else {
        result := if definite then Rejected else Network;
      }
      flights := flights[flight := flights[flight].(result := Some(result))];
    }

    method OnLanded(flight: nat)
      modifies this
      ensures View() == Step(old(View()), Landed(flight))
    {
      if flight < |flights| && flights[flight].result.Some? && refreshing == Some(flight) {
        refreshing := None;
      }
    }
  }
}
