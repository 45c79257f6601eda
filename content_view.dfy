/** ContentView: the root screen, chosen from the auth manager's two flags. */
module Content {

  import opened Wrappers
  import Routing
  import Errors
  import opened WebSocket
  import opened Auth

  datatype Screen = AuthScreen | OnboardingScreen | HomeScreen

  /** The nested conditional of `body`. */
  function SelectScreen(isAuthenticated: bool, needsOnboarding: bool): (s: Screen)
    ensures s == AuthScreen <==> !isAuthenticated
    ensures s == OnboardingScreen ==> needsOnboarding
  {
    if isAuthenticated then
      if needsOnboarding then OnboardingScreen else HomeScreen
    else
      AuthScreen
  }

  /** Each screen is reached by exactly these flag combinations; in particular
      an unauthenticated session shows the auth screen whatever the onboarding
      flag says. */
  lemma ScreenIff(isAuthenticated: bool, needsOnboarding: bool)
    ensures SelectScreen(isAuthenticated, needsOnboarding) == AuthScreen <==> !isAuthenticated
    ensures SelectScreen(isAuthenticated, needsOnboarding) == OnboardingScreen <==> isAuthenticated && needsOnboarding
    ensures SelectScreen(isAuthenticated, needsOnboarding) == HomeScreen <==> isAuthenticated && !needsOnboarding
  {
  }

  /** The choice is onto: every screen is shown for some pair of flags. */
  lemma EveryScreenReachable(s: Screen)
    ensures exists a: bool, n: bool :: SelectScreen(a, n) == s
  {
    match s
    case AuthScreen => assert SelectScreen(false, false) == s;
    case OnboardingScreen => assert SelectScreen(true, true) == s;
    case HomeScreen => assert SelectScreen(true, false) == s;
  }

  /** The screen the manager's current flags select. */
  function CurrentScreen(m: AuthManager): (s: Screen)
    reads m
  {
    SelectScreen(m.isAuthenticated, m.needsOnboarding)
  }

  /** The server's answer to a token it refuses: an ErrorResponse under type
      "auth". */
  function Rejection(): (reply: Json.Json)
    ensures AuthReply(reply) && Json.IsErrorResponse(reply)
  {
    RequestTypesCorrelate("auth");
    Json.JObject(map["type" := Json.JString("auth"), "error" := Json.JObject(map[
      "code" := Json.JString("unauthorized"), "message" := Json.JString("bad token")])])
  }

  /** The server's answer to a token it accepts: type "auth.success", no error. */
  function Welcome(): (reply: Json.Json)
    ensures AuthReply(reply) && !Json.IsErrorResponse(reply)
  {
    RequestTypesCorrelate("auth");
    Json.JObject(map["type" := Json.JString("auth" + Routing.SuccessSuffix)])
  }

  /** A session through the root view: a fresh manager shows the auth screen; a
      rejected sign-in shows the auth screen again but keeps the mock token and
      leaves the service unauthenticated, as does a sign-in whose send fails,
      which allocates no waiter; an
      accepted sign-up authenticates the service, leaves no "auth" waiter and
      moves to onboarding, and from there `FinishSession` goes home and back. */
  method SessionScenario()
  {
    var m := new AuthManager();
    assert CurrentScreen(m) == AuthScreen;
    var rejection, welcome := Rejection(), Welcome();
    var r := m.SignIn(Pass, [], rejection);
    assert r.Fail? && CurrentScreen(m) == AuthScreen && m.authToken == Some(MockToken);
    assert !m.webSocket.isAuthenticated;
    ghost var waiters := m.webSocket.nextWaiter;
    r := m.SignIn(Fail(Errors.ForeignError("offline")), [], rejection);
    assert r.Fail? && !m.webSocket.isAuthenticated && m.webSocket.nextWaiter == waiters;
    r := m.SignUp(Pass, [], welcome);
    assert r.Pass? && CurrentScreen(m) == OnboardingScreen;
    assert m.webSocket.isAuthenticated && "auth" !in m.webSocket.pendingRequests;
    FinishSession(m);
  }

  /** A first sign-up on a fresh manager: the service connects its first task,
      sends one "auth" frame, and its log holds exactly the resumption of the
      first waiter with the reply's bytes, with no waiter left behind. */
  method FirstSignUpScenario()
  {
    var m := new AuthManager();
    var r := m.SignUp(Pass, [1], Welcome());
    assert r.Pass? && m.webSocket.task == Some(0) && m.webSocket.isConnected;
    assert m.webSocket.events == [Routing.Resumed(0, [1])] && m.webSocket.pendingRequests == map[];
    assert |m.webSocket.sent| == 1;
  }

  /** From the onboarding screen, completing onboarding shows the home screen,
      and signing out then returns to the auth screen without a token. */
  method FinishSession(m: AuthManager)
    requires m.Valid() && CurrentScreen(m) == OnboardingScreen
    modifies m, m.webSocket
    ensures m.Valid() && CurrentScreen(m) == AuthScreen && m.authToken == None
  {
    m.CompleteOnboarding("@ness", "EUR", "EURC");
    assert CurrentScreen(m) == HomeScreen;
    m.SignOut();
  }
}
