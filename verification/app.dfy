/** The top-level render gate and the signed-in route table (src/App.tsx). */
module App {
  import opened Wrappers
  import opened Json
  import Api
  import Auth

  /** What `App` renders. */
  datatype Screen = LoadingScreen | AuthedApp | LoginScreen

  /** `App`: while loading only the loading text renders; after that a user gets the
      signed-in app and no user gets the login page. Nothing else is consulted, in
      particular not whether that user's backend session was established. */
  function Gate(loading: bool, user: Option<Auth.Identity>): (screen: Screen)
    ensures loading <==> screen == LoadingScreen
    ensures screen == AuthedApp <==> !loading && user.Some?
    ensures screen == LoginScreen <==> !loading && user.None?
  {
    if loading then LoadingScreen
    else if user.Some? then AuthedApp
    else LoginScreen
  }

  /** The gate as it reads the auth context. */
  function Render(ctx: Auth.AuthContext): Screen {
    Gate(ctx.loading, ctx.user)
  }

  /** After any sequence of events the signed-in app shows exactly when some handler
      run has finished (successfully or not) and the last reported identity is
      non-null. */
  lemma GateAfterEvents(c: Api.Client, events: seq<Auth.Event>)
    ensures Render(Auth.ContextValue(Auth.Replay(c, events))) == AuthedApp <==>
      Auth.SomeRunFinished(c, events) && Auth.LastReported(events).Some?
    ensures Render(Auth.ContextValue(Auth.Replay(c, events))) == LoadingScreen <==>
      !Auth.SomeRunFinished(c, events)
  {
    Auth.ReadyIffSomeRunFinished(c, events);
    Auth.UserIsLastReported(c, events);
  }

  /** A user whose session exchange was rejected still reaches the signed-in app. */
  lemma ExchangeFailureStillAuthed(c: Api.Client, who: Auth.Identity, idToken: string, err: string)
    ensures var events := [Auth.Reported(Some(who)), Auth.TokenSettled(0, Success(idToken)),
                           Auth.ExchangeSettled(0, Failure(err))];
            var s := Auth.Replay(c, events);
            s.user == Some(who) && Render(Auth.ContextValue(s)) == AuthedApp
  {
    var events := [Auth.Reported(Some(who)), Auth.TokenSettled(0, Success(idToken)),
                   Auth.ExchangeSettled(0, Failure(err))];
    assert events[..1][..0] == [] && events[..2][..1] == events[..1] && events[..3] == events;
    assert Auth.Replay(c, events[..1][..0]) == Auth.Initial;
    var s1 := Auth.Replay(c, events[..1]);
    assert s1 == Auth.Step(c, Auth.Initial, events[0]).state;
    assert s1.runs == map[0 := Auth.Run(who, Auth.FetchingToken)] && s1.user == Some(who);
    var s2 := Auth.Replay(c, events[..2]);
    assert s2.runs == map[0 := Auth.Run(who, Auth.Exchanging)] && s2.user == Some(who);
    var s3 := Auth.Replay(c, events);
    assert s3.authReady && s3.user == Some(who);
  }

  /** So does a user whose token could not be fetched at all. */
  lemma TokenFailureStillAuthed(c: Api.Client, who: Auth.Identity, err: string)
    ensures var events := [Auth.Reported(Some(who)), Auth.TokenSettled(0, Failure(err))];
            var s := Auth.Replay(c, events);
            s.user == Some(who) && Render(Auth.ContextValue(s)) == AuthedApp
  {
    var events := [Auth.Reported(Some(who)), Auth.TokenSettled(0, Failure(err))];
    assert events[..1][..0] == [] && events[..2] == events;
    assert Auth.Replay(c, events[..1][..0]) == Auth.Initial;
    var s1 := Auth.Replay(c, events[..1]);
    assert s1 == Auth.Step(c, Auth.Initial, events[0]).state;
    assert s1.runs == map[0 := Auth.Run(who, Auth.FetchingToken)] && s1.user == Some(who);
    var s2 := Auth.Replay(c, events);
    assert s2.authReady && s2.user == Some(who);
  }

  /** No stale-result check: when a first user's run ends after a second user was
      reported, the app opens for the second user although that user's own token
      fetch and exchange are still pending. */
  lemma StaleRunOpensGateForNewUser(c: Api.Client, a: Auth.Identity, b: Auth.Identity, err: string)
    ensures var events := [Auth.Reported(Some(a)), Auth.Reported(Some(b)), Auth.TokenSettled(0, Failure(err))];
            var s := Auth.Replay(c, events);
            && s.user == Some(b)
            && Render(Auth.ContextValue(s)) == AuthedApp
            && 1 in s.runs && s.runs[1] == Auth.Run(b, Auth.FetchingToken)
  {
    var events := [Auth.Reported(Some(a)), Auth.Reported(Some(b)), Auth.TokenSettled(0, Failure(err))];
    assert events[..1][..0] == [] && events[..2][..1] == events[..1] && events[..3] == events;
    assert Auth.Replay(c, events[..1][..0]) == Auth.Initial;
    var s1 := Auth.Replay(c, events[..1]);
    assert s1 == Auth.Step(c, Auth.Initial, events[0]).state;
    assert s1.runs == map[0 := Auth.Run(a, Auth.FetchingToken)] && s1.nextRun == 1;
    var s2 := Auth.Replay(c, events[..2]);
    assert s2.runs == map[0 := Auth.Run(a, Auth.FetchingToken), 1 := Auth.Run(b, Auth.FetchingToken)];
    assert s2.user == Some(b);
    var s3 := Auth.Replay(c, events);
    assert s3.runs == map[1 := Auth.Run(b, Auth.FetchingToken)];
    assert s3.authReady && s3.user == Some(b);
  }

  /** The Nav "Log out" button signs out of Firebase only; the provider sees it as a
      null report: the login page shows and no backend call is made. */
  lemma NavLogoutIsNullReport(c: Api.Client, s: Auth.AuthState)
    ensures Auth.Step(c, s, Auth.Reported(None)).effects == []
    ensures Render(Auth.ContextValue(Auth.Step(c, s, Auth.Reported(None)).state)) == LoginScreen
  {
  }

  // ---------------------------------------------------------------- routes

  /** The pages of the signed-in app. */
  datatype Page =
    | Dashboard
    | Projects
    | ProjectDetail(id: string)
    | Inventory
    | Documents
    | AIAssistant
    | RedirectHome

  const ProjectsPrefix: string := "/projects/"

  /** A path of the form "/projects/:id": one non-empty segment after the prefix. */
  predicate IsProjectPath(path: string) {
    |path| > |ProjectsPrefix| && path[..|ProjectsPrefix|] == ProjectsPrefix
    && '/' !in path[|ProjectsPrefix|..]
  }

  /** The literal routes of `AuthedApp`, in the order they are declared. */
  const FixedRoutes: seq<(string, Page)> := [
    ("/", Dashboard),
    ("/projects", Projects),
    ("/inventory", Inventory),
    ("/documents", Documents),
    ("/marketing/assistant", AIAssistant)
  ]

  /** A literal route path: everything but "/projects/:id" and the catch-all. */
  predicate IsFixedRoute(path: string) {
    exists i :: 0 <= i < |FixedRoutes| && FixedRoutes[i].0 == path
  }

  /** `AuthedApp`'s route table: each literal path opens its own page,
      "/projects/:id" opens the project with that one-segment id, and every other
      path redirects to "/". */
  function Route(path: string): (page: Page)
    ensures forall i :: 0 <= i < |FixedRoutes| && FixedRoutes[i].0 == path ==> page == FixedRoutes[i].1
    ensures page.ProjectDetail? <==> IsProjectPath(path)
    ensures page.ProjectDetail? ==> path == ProjectsPrefix + page.id
  {
    if path == "/" then Dashboard
    else if path == "/projects" then Projects
    else if path == "/inventory" then Inventory
    else if path == "/documents" then Documents
    else if path == "/marketing/assistant" then AIAssistant
    else if IsProjectPath(path) then ProjectDetail(path[|ProjectsPrefix|..])
    else RedirectHome
  }

  /** Exactly the paths outside the table are redirected home. */
  lemma RedirectIffUnlisted(path: string)
    ensures Route(path) == RedirectHome <==> !IsFixedRoute(path) && !IsProjectPath(path)
  {
    if !IsFixedRoute(path) {
      assert path != FixedRoutes[0].0 && path != FixedRoutes[1].0 && path != FixedRoutes[2].0;
      assert path != FixedRoutes[3].0 && path != FixedRoutes[4].0;
    }
  }

  /** "/projects/:id" opens the project with that id exactly when the id is one
      non-empty path segment. */
  lemma ProjectRoute(id: string)
    ensures Route(ProjectsPrefix + id) == ProjectDetail(id) <==> id != "" && '/' !in id
  {
  }
}
