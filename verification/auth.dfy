/** The auth session held by `AuthProvider` (src/hooks/useAuth.tsx): the two state
    cells `user` and `authReady`, the derived `loading`, the auth-change handler with
    its backend session exchange, `logout` and `logoutDirect`.

    The handler is asynchronous, so several runs of it can be suspended at once. Each
    suspended run is kept in `runs` under a label the model hands out; the code has no
    such label and never compares runs, and neither does the model: labels only say
    which run a completion belongs to. The Firebase SDK and `fetch` are outside: their
    results arrive as events, and the calls made on them are recorded as effects. */
module Auth {
  import opened Wrappers
  import opened Json
  import Api

  /** A signed-in Firebase user; only its identity matters here. */
  datatype Identity = Identity(uid: string)

  /** Where a suspended handler run is waiting: on `getIdToken(true)` or on the
      `sessionLogin` post. */
  datatype Phase = FetchingToken | Exchanging

  datatype Run = Run(who: Identity, phase: Phase)

  datatype AuthState = AuthState(
    user: Option<Identity>,
    authReady: bool,
    runs: map<nat, Run>,
    nextRun: nat)

  /** The provider's state on mount: no user, not ready, nothing in flight. */
  const Initial: AuthState := AuthState(None, false, map[], 0)

  /** The context value handed to consumers. */
  datatype AuthContext = AuthContext(user: Option<Identity>, authReady: bool, loading: bool)

  /** The context default seen outside any provider. */
  const DefaultContext: AuthContext := AuthContext(None, false, true)

  /** The memoised context value: `loading` is always the negation of `authReady`. */
  function ContextValue(s: AuthState): (ctx: AuthContext)
    ensures ctx.user == s.user && ctx.authReady == s.authReady
    ensures ctx.loading <==> !ctx.authReady
  {
    AuthContext(s.user, s.authReady, !s.authReady)
  }

  /** Before any event the provider's value agrees with the context default. */
  lemma InitialContextIsDefault()
    ensures ContextValue(Initial) == DefaultContext
  {
  }

  /** Calls made on the outside world. */
  datatype Effect =
    | GetIdToken(who: Identity, forceRefresh: bool)
    | Fetch(req: Api.Request)
    | SignOut

  /** What can happen to the provider. `TokenSettled` and `ExchangeSettled` resume
      the suspended run with the given label; the results of the two backend posts
      and of `signOut` are inputs (None for `signOut` = it completed). */
  datatype Event =
    | Reported(reported: Option<Identity>)
    | TokenSettled(run: nat, token: Result<string, string>)
    | ExchangeSettled(run: nat, exchanged: Result<Json, string>)
    | LogoutCalled(teardown: Result<Json, string>, signOutError: Option<string>)
    | LogoutDirectCalled(teardown: Result<Json, string>, signOutError: Option<string>)

  /** The result of one event: the new state, the calls made, and the error the
      awaited promise rejects with (only the logout functions reject). */
  datatype Outcome = Outcome(state: AuthState, effects: seq<Effect>, thrown: Option<string>)

  /** `${API_BASE}/auth/sessionLogin` and `${API_BASE}/auth/sessionLogout`, as the
      code builds them before `postJSON` resolves them again. */
  function SessionLoginPath(c: Api.Client): string { c.base + "/auth/sessionLogin" }
  function SessionLogoutPath(c: Api.Client): string { c.base + "/auth/sessionLogout" }

  /** The exchange: `postJSON(sessionLogin, { idToken })`, a credentialed POST whose
      body is the one-field object carrying the token. */
  function SessionLoginRequest(c: Api.Client, idToken: string): (r: Api.Request)
    ensures r.url == Api.Absolute(c.base, SessionLoginPath(c))
    ensures r.init == Api.BuildInit(c.codec, "POST", Some(Object1("idToken", JStr(idToken))))
    ensures r.init.body == Some(c.codec.stringify(JObj([("idToken", JStr(idToken))])))
  {
    Api.PostRequest(c, SessionLoginPath(c), Some(Object1("idToken", JStr(idToken))))
  }

  /** The teardown: `postJSON(sessionLogout, {})`, a credentialed POST of `{}`. */
  function SessionLogoutRequest(c: Api.Client): (r: Api.Request)
    ensures r.url == Api.Absolute(c.base, SessionLogoutPath(c))
    ensures r.init == Api.BuildInit(c.codec, "POST", Some(EmptyObject))
    ensures r.init.body == Some(c.codec.stringify(JObj([])))
  {
    Api.PostRequest(c, SessionLogoutPath(c), Some(EmptyObject))
  }

  /** Every run other than `k` is the same in both states. */
  ghost predicate OtherRunsKept(before: map<nat, Run>, after: map<nat, Run>, k: nat) {
    forall j :: j != k ==> (j in after <==> j in before) && (j in before ==> after[j] == before[j])
  }

  /** Every suspended run carries a label below `nextRun`, so the next report's
      label is unused. */
  ghost predicate LabelsFresh(s: AuthState) {
    forall k :: k in s.runs ==> k < s.nextRun
  }

  /** True when `e` ends a handler run, i.e. reaches its `finally`: a null report
      (no await at all), a failed token fetch, or a settled exchange. */
  predicate Finishes(s: AuthState, e: Event) {
    match e
    case Reported(u) => u.None?
    case TokenSettled(k, tok) => k in s.runs && s.runs[k].phase == FetchingToken && tok.Failure?
    case ExchangeSettled(k, _) => k in s.runs && s.runs[k].phase == Exchanging
    case _ => false
  }

  /** The auth-change handler, entered on a report: `setUser(u)` first; for a null
      user nothing is awaited and `setAuthReady(true)` runs at once; otherwise the
      run suspends on a force-refreshed token. */
  function OnReported(s: AuthState, u: Option<Identity>): (o: Outcome)
    ensures o.state.user == u && o.thrown.None?
    ensures u.None? ==> o.state.authReady && o.effects == [] && o.state.runs == s.runs
    ensures u.Some? ==> o.state.authReady == s.authReady
    ensures u.Some? ==> o.effects == [GetIdToken(u.value, true)]
    ensures u.Some? ==> s.nextRun in o.state.runs && o.state.runs[s.nextRun] == Run(u.value, FetchingToken)
    ensures u.Some? ==> OtherRunsKept(s.runs, o.state.runs, s.nextRun) && o.state.nextRun == s.nextRun + 1
    ensures u.None? ==> o.state.nextRun == s.nextRun
    ensures LabelsFresh(s) ==> LabelsFresh(o.state)
    ensures LabelsFresh(s) ==> forall j :: j in s.runs ==> j in o.state.runs && o.state.runs[j] == s.runs[j]
  {
    match u
    case None => Outcome(s.(user := None, authReady := true), [], None)
    case Some(who) =>
      Outcome(s.(user := u, runs := s.runs[s.nextRun := Run(who, FetchingToken)], nextRun := s.nextRun + 1),
              [GetIdToken(who, true)], None)
  }

  /** Resuming a run after `getIdToken(true)`: with a token the run goes on to post
      it; a failure is caught and logged and the run ends with `setAuthReady(true)`.
      `user` is not written. An event for no such suspended run changes nothing. */
  function OnTokenSettled(c: Api.Client, s: AuthState, k: nat, tok: Result<string, string>): (o: Outcome)
    ensures o.state.user == s.user && o.thrown.None?
    ensures Finishes(s, TokenSettled(k, tok)) ==> o.state.authReady && k !in o.state.runs
    ensures !Finishes(s, TokenSettled(k, tok)) ==> o.state.authReady == s.authReady
    ensures o.effects != [] <==> k in s.runs && s.runs[k].phase == FetchingToken && tok.Success?
    ensures o.effects != [] ==> o.effects == [Fetch(SessionLoginRequest(c, tok.value))]
    ensures o.effects != [] ==> k in o.state.runs && o.state.runs[k] == Run(s.runs[k].who, Exchanging)
    ensures OtherRunsKept(s.runs, o.state.runs, k) && o.state.nextRun == s.nextRun
    ensures LabelsFresh(s) ==> LabelsFresh(o.state)
  {
    if k in s.runs && s.runs[k].phase == FetchingToken then
      match tok
      case Success(t) =>
        Outcome(s.(runs := s.runs[k := Run(s.runs[k].who, Exchanging)]), [Fetch(SessionLoginRequest(c, t))], None)
      case Failure(_) =>
        Outcome(s.(authReady := true, runs := s.runs - {k}), [], None)
    else Outcome(s, [], None)
  }

  /** Resuming a run after the exchange settles: success and failure alike end the
      run with `setAuthReady(true)`; a failure is only logged. */
  function OnExchangeSettled(s: AuthState, k: nat): (o: Outcome)
    ensures o.state.user == s.user && o.effects == [] && o.thrown.None?
    ensures k in s.runs && s.runs[k].phase == Exchanging ==> o.state.authReady && k !in o.state.runs
    ensures !(k in s.runs && s.runs[k].phase == Exchanging) ==> o.state == s
    ensures OtherRunsKept(s.runs, o.state.runs, k) && o.state.nextRun == s.nextRun
    ensures LabelsFresh(s) ==> LabelsFresh(o.state)
  {
    if k in s.runs && s.runs[k].phase == Exchanging then
      Outcome(s.(authReady := true, runs := s.runs - {k}), [], None)
    else Outcome(s, [], None)
  }

  /** The calls both logout functions make, whatever their results: the teardown
      post, then `signOut` (a failed teardown is swallowed). */
  function LogoutEffects(c: Api.Client): seq<Effect> {
    [Fetch(SessionLogoutRequest(c)), SignOut]
  }

  /** The context's `logout`: `user` becomes null only once `signOut` completes; a
      `signOut` error rejects the call and leaves `user` as it was. `authReady` is
      never touched. */
  function Logout(c: Api.Client, s: AuthState, teardown: Result<Json, string>, signOutError: Option<string>): (o: Outcome)
    ensures o.effects == LogoutEffects(c)
    ensures o.thrown == signOutError
    ensures signOutError.None? ==> o.state == s.(user := None)
    ensures signOutError.Some? ==> o.state == s
  {
    if signOutError.Some? then Outcome(s, LogoutEffects(c), signOutError)
    else Outcome(s.(user := None), LogoutEffects(c), None)
  }

  /** `logoutDirect`: the same teardown and `signOut`, but it lives outside the
      provider and never writes the context's state. */
  function LogoutDirect(c: Api.Client, s: AuthState, teardown: Result<Json, string>, signOutError: Option<string>): (o: Outcome)
    ensures o.state == s
    ensures o.effects == LogoutEffects(c)
    ensures o.thrown == signOutError
  {
    Outcome(s, LogoutEffects(c), signOutError)
  }

  function Step(c: Api.Client, s: AuthState, e: Event): Outcome {
    match e
    case Reported(u) => OnReported(s, u)
    case TokenSettled(k, tok) => OnTokenSettled(c, s, k, tok)
    case ExchangeSettled(k, _) => OnExchangeSettled(s, k)
    case LogoutCalled(td, so) => Logout(c, s, td, so)
    case LogoutDirectCalled(td, so) => LogoutDirect(c, s, td, so)
  }

  /** The state after a sequence of events, starting from `Initial`. */
  function Replay(c: Api.Client, events: seq<Event>): AuthState
    decreases |events|
  {
    if |events| == 0 then Initial
    else Step(c, Replay(c, events[..|events| - 1]), events[|events| - 1]).state
  }

  /** Every call made along a sequence of events, in order. */
  function Effects(c: Api.Client, events: seq<Event>): seq<Effect>
    decreases |events|
  {
    if |events| == 0 then []
    else
      var prefix := events[..|events| - 1];
      Effects(c, prefix) + Step(c, Replay(c, prefix), events[|events| - 1]).effects
  }

  /** The user written by the last event that writes one: a report, or a context
      `logout` whose `signOut` completed. Null before any such event. */
  function LastReported(events: seq<Event>): Option<Identity>
    decreases |events|
  {
    if |events| == 0 then None
    else
      var e := events[|events| - 1];
      match e
      case Reported(u) => u
      case LogoutCalled(_, None) => None
      case _ => LastReported(events[..|events| - 1])
  }

  // ---------------------------------------------------------------- properties

  /** In every reachable state the run labels are fresh. */
  lemma {:induction false} ReplayLabelsFresh(c: Api.Client, events: seq<Event>)
    ensures LabelsFresh(Replay(c, events))
    decreases |events|
  {
    if |events| > 0 {
      ReplayLabelsFresh(c, events[..|events| - 1]);
    }
  }

  /** A report never drops or alters a pending run: after any event sequence, every
      suspended run is still there, unchanged, once the handler is entered again. */
  lemma ReportKeepsEarlierRuns(c: Api.Client, events: seq<Event>, u: Option<Identity>)
    ensures forall j :: j in Replay(c, events).runs ==>
      j in Replay(c, events + [Reported(u)]).runs
      && Replay(c, events + [Reported(u)]).runs[j] == Replay(c, events).runs[j]
  {
    ReplayLabelsFresh(c, events);
    assert (events + [Reported(u)])[..|events|] == events;
  }

  /** `user` is always the most recently reported identity (or null after a
      completed logout), whatever order the suspended runs complete in: run
      completions never write it. */
  lemma {:induction false} UserIsLastReported(c: Api.Client, events: seq<Event>)
    ensures Replay(c, events).user == LastReported(events)
    decreases |events|
  {
    if |events| > 0 {
      UserIsLastReported(c, events[..|events| - 1]);
    }
  }

  /** One event makes the app ready exactly when it was ready already or the event
      ends a handler run: a run that reaches its end always leaves `authReady` true,
      whether its token fetch or its exchange succeeded or failed, and nothing else
      writes `authReady`. */
  lemma StepReady(c: Api.Client, s: AuthState, e: Event)
    ensures Step(c, s, e).state.authReady <==> s.authReady || Finishes(s, e)
  {
  }

  /** `authReady` only ever goes from false to true: once ready, never loading again. */
  lemma {:induction false} AuthReadyMonotone(c: Api.Client, events: seq<Event>, more: seq<Event>)
    requires Replay(c, events).authReady
    ensures Replay(c, events + more).authReady
    decreases |more|
  {
    if |more| == 0 {
      assert events + more == events;
    } else {
      var all := events + more;
      var n := |more| - 1;
      assert all[..|all| - 1] == events + more[..n];
      assert all[|all| - 1] == more[n];
      AuthReadyMonotone(c, events, more[..n]);
      StepReady(c, Replay(c, events + more[..n]), more[n]);
    }
  }

  /** Some handler run has reached its end somewhere along `events`. */
  ghost predicate SomeRunFinished(c: Api.Client, events: seq<Event>) {
    exists i :: 0 <= i < |events| && Finishes(Replay(c, events[..i]), events[i])
  }

  lemma SomeRunFinishedSnoc(c: Api.Client, prefix: seq<Event>, e: Event)
    ensures SomeRunFinished(c, prefix + [e]) <==>
      SomeRunFinished(c, prefix) || Finishes(Replay(c, prefix), e)
  {
    var all := prefix + [e];
    assert all[..|prefix|] == prefix;
    forall i | 0 <= i < |prefix|
      ensures all[..i] == prefix[..i] && all[i] == prefix[i]
    {
    }
    if SomeRunFinished(c, all) {
      var i :| 0 <= i < |all| && Finishes(Replay(c, all[..i]), all[i]);
      if i < |prefix| {
        assert Finishes(Replay(c, prefix[..i]), prefix[i]);
      }
    }
    if SomeRunFinished(c, prefix) {
      var i :| 0 <= i < |prefix| && Finishes(Replay(c, prefix[..i]), prefix[i]);
      assert Finishes(Replay(c, all[..i]), all[i]);
    }
    if Finishes(Replay(c, prefix), e) {
      assert Finishes(Replay(c, all[..|prefix|]), all[|prefix|]);
    }
  }

  /** The app is ready exactly when some handler run has reached its end. */
  lemma {:induction false} ReadyIffSomeRunFinished(c: Api.Client, events: seq<Event>)
    ensures Replay(c, events).authReady <==> SomeRunFinished(c, events)
    decreases |events|
  {
    if |events| == 0 {
    } else {
      var n := |events| - 1;
      var prefix := events[..n];
      assert events == prefix + [events[n]];
      ReadyIffSomeRunFinished(c, prefix);
      SomeRunFinishedSnoc(c, prefix, events[n]);
      StepReady(c, Replay(c, prefix), events[n]);
    }
  }

  /** The backend exchange is made only when resuming a run that was waiting for
      its token and got one. Such runs exist only after a non-null report, which
      requested the token with a forced refresh (see `OnReported`). */
  lemma ExchangeNeedsFreshToken(c: Api.Client, s: AuthState, e: Event, r: Api.Request)
    requires Fetch(r) in Step(c, s, e).effects
    requires r.url == Api.Absolute(c.base, SessionLoginPath(c))
    ensures e.TokenSettled? && e.token.Success?
    ensures e.run in s.runs && s.runs[e.run].phase == FetchingToken
    ensures r == SessionLoginRequest(c, e.token.value)
  {
  }

  /** The login and logout endpoints resolve to different URLs. */
  lemma LoginLogoutUrlsDiffer(c: Api.Client)
    ensures Api.Absolute(c.base, SessionLoginPath(c)) != Api.Absolute(c.base, SessionLogoutPath(c))
  {
  }

  /** A null report calls nothing: no token fetch and no backend request. Events
      that are all null reports therefore make no call at all. */
  lemma {:induction false} NullReportsCallNothing(c: Api.Client, events: seq<Event>)
    requires forall i :: 0 <= i < |events| ==> events[i] == Reported(None)
    ensures Effects(c, events) == []
    decreases |events|
  {
    if |events| > 0 {
      NullReportsCallNothing(c, events[..|events| - 1]);
    }
  }

  /** A failed `sessionLogout` changes nothing: the context's `logout` still calls
      `signOut` and ends in the same state with the same result. */
  lemma LogoutTeardownSwallowed(c: Api.Client, s: AuthState, t1: Result<Json, string>, t2: Result<Json, string>, so: Option<string>)
    ensures Logout(c, s, t1, so) == Logout(c, s, t2, so)
    ensures SignOut in Logout(c, s, t1, so).effects
  {
  }

  /** The exchange's path already carries the base and is resolved again: with the
      production base "/api" the request goes to "/api/api/auth/sessionLogin"; with
      an "http..." base it is used verbatim. */
  lemma SessionLoginUrl(c: Api.Client, idToken: string)
    ensures c.base == "/api" ==> SessionLoginRequest(c, idToken).url == "/api/api/auth/sessionLogin"
    ensures Api.IsAbsoluteUrl(c.base) ==> SessionLoginRequest(c, idToken).url == c.base + "/auth/sessionLogin"
  {
    var url := SessionLoginRequest(c, idToken).url;
    assert url == Api.Absolute(c.base, SessionLoginPath(c));
    if c.base == "/api" {
      RelativeBaseDoubled(c);
    }
    if Api.IsAbsoluteUrl(c.base) {
      HttpBaseVerbatim(c);
    }
  }

  lemma RelativeBaseDoubled(c: Api.Client)
    requires c.base == "/api"
    ensures Api.Absolute(c.base, SessionLoginPath(c)) == "/api/api/auth/sessionLogin"
  {
  }

  lemma HttpBaseVerbatim(c: Api.Client)
    requires Api.IsAbsoluteUrl(c.base)
    ensures Api.Absolute(c.base, SessionLoginPath(c)) == c.base + "/auth/sessionLogin"
  {
  }
}
