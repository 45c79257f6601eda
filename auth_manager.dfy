/** AuthManager: the session state the app's root view switches on. Sign-up and
    sign-in both run the same simulated authentication: connect the service,
    keep a mock token, authenticate the service with it. The service is the
    real model of the WebSocket layer; the transport's send outcome and the
    reply frame, which the service routes to the "auth" waiter, are
    parameters. */
module Auth {

  import opened Wrappers
  import opened Errors
  import opened Models
  import opened Json
  import opened Routing
  import opened WebSocket

  /** The token `simulateAuth` stands in for a Privy session token. */
  const MockToken: string := "mock.jwt.token"

  /** The preferences onboarding hands over. */
  datatype Preferences = Preferences(tag: string, preferredFiat: string, preferredStable: string)

  /** Whether the authenticate step of `simulateAuth` returns without throwing:
      the "auth" frame is sent, and the reply does not decode as ErrorResponse. */
  predicate AuthAccepted(transport: Outcome<ForeignError>, reply: Json) {
    transport.Pass? && !IsErrorResponse(reply)
  }

  class AuthManager {
    var isAuthenticated: bool
    var needsOnboarding: bool
    var currentUser: Option<NessUser>
    var authToken: Option<string>

    const webSocket: WebSocketService

    /** The preferences `completeOnboarding` was called with, in order; the
        method itself drops them. */
    ghost var submitted: seq<Preferences>

    ghost predicate Valid()
      reads webSocket
    {
      webSocket.Valid()
    }

    /** `init` with the default argument: a fresh, unconnected service. */
    constructor ()
      ensures Valid() && fresh(webSocket)
      ensures webSocket.task.None? && !webSocket.isConnected && !webSocket.isAuthenticated
      ensures webSocket.lastError == None && webSocket.nextTask == 0 && webSocket.nextWaiter == 0
      ensures webSocket.messageHandlers == map[] && webSocket.pendingRequests == map[]
      ensures webSocket.armed == multiset{} && webSocket.events == [] && webSocket.sent == []
      ensures !isAuthenticated && !needsOnboarding && currentUser == None && authToken == None
      ensures submitted == []
    {
      isAuthenticated, needsOnboarding, currentUser, authToken := false, false, None, None;
      webSocket := new WebSocketService();
      submitted := [];
    }

    /** `simulateAuth`, answered by the frame `data`, whose JSON is `reply`. The
        service is connected (a no-op when it has a task) and then
        authenticated; the token is stored whether or not authentication
        throws, and only after authentication returns is the manager
        authenticated. The service never reads the manager's token, so storing
        it after the service's two steps rather than between them changes
        nothing observable. */
    method SimulateAuth(transport: Outcome<ForeignError>, data: Bytes, reply: Json) returns (r: Outcome<Failure>)
      requires Valid()
      requires transport.Pass? ==> AuthReply(reply)
      modifies this`authToken, this`isAuthenticated, webSocket
      ensures Valid()
      ensures r.Pass? <==> AuthAccepted(transport, reply)
      ensures transport.Fail? ==> r == Fail(Foreign(transport.error))
      ensures transport.Pass? && r.Fail? ==> r.error == Ness(Unauthorized)
      ensures authToken == Some(MockToken)
      ensures isAuthenticated == (old(isAuthenticated) || r.Pass?)
      ensures r.Pass? ==> webSocket.isAuthenticated
      ensures r.Fail? ==> webSocket.isAuthenticated == old(webSocket.isAuthenticated)
      ensures transport.Fail? ==> webSocket.nextWaiter == old(webSocket.nextWaiter)
      ensures webSocket.task.Some? && (old(webSocket.task).Some? ==> webSocket.task == old(webSocket.task))
      ensures old(webSocket.task).None? ==>
        && webSocket.task == Some(old(webSocket.nextTask)) && webSocket.nextTask == old(webSocket.nextTask) + 1
        && webSocket.isConnected && webSocket.armed == old(webSocket.armed) + multiset{old(webSocket.nextTask)}
      ensures old(webSocket.task).Some? ==>
        && webSocket.nextTask == old(webSocket.nextTask) && webSocket.isConnected == old(webSocket.isConnected)
        && webSocket.armed == old(webSocket.armed)
      ensures webSocket.lastError == old(webSocket.lastError)
      ensures transport.Pass? ==>
        && webSocket.sent == old(webSocket.sent) + [EncodeRequest(AuthRequest(MockToken))]
        && webSocket.AuthRoundTrip(data, reply, old(webSocket.pendingRequests), old(webSocket.messageHandlers),
                                   old(webSocket.events), old(webSocket.nextWaiter))
      ensures transport.Fail? ==>
        && webSocket.sent == old(webSocket.sent)
        && webSocket.pendingRequests == old(webSocket.pendingRequests)
        && webSocket.events == old(webSocket.events)
      ensures webSocket.messageHandlers == old(webSocket.messageHandlers)
      ensures forall v | old(webSocket.Stranded(v)) :: webSocket.Stranded(v)
    {
      r := webSocket.ConnectThenAuthenticate(MockToken, transport, data, reply);
      authToken := Some(MockToken);
      if r.Pass? {
        isAuthenticated := true;
      }
    }

    /** `signUp`: a new account goes through onboarding next. */
    method SignUp(transport: Outcome<ForeignError>, data: Bytes, reply: Json) returns (r: Outcome<Failure>)
      requires Valid()
      requires transport.Pass? ==> AuthReply(reply)
      modifies this`authToken, this`isAuthenticated, this`needsOnboarding, webSocket
      ensures Valid()
      ensures r.Pass? <==> AuthAccepted(transport, reply)
      ensures r.Pass? ==> isAuthenticated && needsOnboarding
      ensures r.Fail? ==> isAuthenticated == old(isAuthenticated) && needsOnboarding == old(needsOnboarding)
      ensures authToken == Some(MockToken)
      ensures r.Pass? ==> webSocket.isAuthenticated
      ensures r.Fail? ==> webSocket.isAuthenticated == old(webSocket.isAuthenticated)
      ensures transport.Fail? ==> webSocket.nextWaiter == old(webSocket.nextWaiter)
      ensures webSocket.task.Some? && (old(webSocket.task).Some? ==> webSocket.task == old(webSocket.task))
      ensures old(webSocket.task).None? ==>
        && webSocket.task == Some(old(webSocket.nextTask)) && webSocket.nextTask == old(webSocket.nextTask) + 1
        && webSocket.isConnected && webSocket.armed == old(webSocket.armed) + multiset{old(webSocket.nextTask)}
      ensures old(webSocket.task).Some? ==>
        && webSocket.nextTask == old(webSocket.nextTask) && webSocket.isConnected == old(webSocket.isConnected)
        && webSocket.armed == old(webSocket.armed)
      ensures webSocket.lastError == old(webSocket.lastError)
      ensures transport.Pass? ==>
        && webSocket.sent == old(webSocket.sent) + [EncodeRequest(AuthRequest(MockToken))]
        && webSocket.AuthRoundTrip(data, reply, old(webSocket.pendingRequests), old(webSocket.messageHandlers),
                                   old(webSocket.events), old(webSocket.nextWaiter))
      ensures transport.Fail? ==>
        && webSocket.sent == old(webSocket.sent)
        && webSocket.pendingRequests == old(webSocket.pendingRequests)
        && webSocket.events == old(webSocket.events)
      ensures webSocket.messageHandlers == old(webSocket.messageHandlers)
      ensures forall v | old(webSocket.Stranded(v)) :: webSocket.Stranded(v)
    {
      r := SimulateAuth(transport, data, reply);
      if r.Pass? {
        needsOnboarding := true;
      }
    }

    /** `signIn`: an existing account goes straight home. */
    method SignIn(transport: Outcome<ForeignError>, data: Bytes, reply: Json) returns (r: Outcome<Failure>)
      requires Valid()
      requires transport.Pass? ==> AuthReply(reply)
      modifies this`authToken, this`isAuthenticated, this`needsOnboarding, webSocket
      ensures Valid()
      ensures r.Pass? <==> AuthAccepted(transport, reply)
      ensures r.Pass? ==> isAuthenticated && !needsOnboarding
      ensures r.Fail? ==> isAuthenticated == old(isAuthenticated) && needsOnboarding == old(needsOnboarding)
      ensures authToken == Some(MockToken)
      ensures r.Pass? ==> webSocket.isAuthenticated
      ensures r.Fail? ==> webSocket.isAuthenticated == old(webSocket.isAuthenticated)
      ensures transport.Fail? ==> webSocket.nextWaiter == old(webSocket.nextWaiter)
      ensures webSocket.task.Some? && (old(webSocket.task).Some? ==> webSocket.task == old(webSocket.task))
      ensures old(webSocket.task).None? ==>
        && webSocket.task == Some(old(webSocket.nextTask)) && webSocket.nextTask == old(webSocket.nextTask) + 1
        && webSocket.isConnected && webSocket.armed == old(webSocket.armed) + multiset{old(webSocket.nextTask)}
      ensures old(webSocket.task).Some? ==>
        && webSocket.nextTask == old(webSocket.nextTask) && webSocket.isConnected == old(webSocket.isConnected)
        && webSocket.armed == old(webSocket.armed)
      ensures webSocket.lastError == old(webSocket.lastError)
      ensures transport.Pass? ==>
        && webSocket.sent == old(webSocket.sent) + [EncodeRequest(AuthRequest(MockToken))]
        && webSocket.AuthRoundTrip(data, reply, old(webSocket.pendingRequests), old(webSocket.messageHandlers),
                                   old(webSocket.events), old(webSocket.nextWaiter))
      ensures transport.Fail? ==>
        && webSocket.sent == old(webSocket.sent)
        && webSocket.pendingRequests == old(webSocket.pendingRequests)
        && webSocket.events == old(webSocket.events)
      ensures webSocket.messageHandlers == old(webSocket.messageHandlers)
      ensures forall v | old(webSocket.Stranded(v)) :: webSocket.Stranded(v)
    {
      r := SimulateAuth(transport, data, reply);
      if r.Pass? {
        needsOnboarding := false;
      }
    }

    /** `completeOnboarding`: clears the onboarding flag and nothing else; the
        preferences go nowhere (they are only logged here). */
    method CompleteOnboarding(tag: string, preferredFiat: string, preferredStable: string)
      modifies this`needsOnboarding, this`submitted
      ensures !needsOnboarding
      ensures submitted == old(submitted) + [Preferences(tag, preferredFiat, preferredStable)]
    {
      needsOnboarding := false;
      submitted := submitted + [Preferences(tag, preferredFiat, preferredStable)];
    }

    /** `signOut`: disconnects the service and clears the session, but not the
        onboarding flag. */
    method SignOut()
      requires Valid()
      modifies this`isAuthenticated, this`currentUser, this`authToken, webSocket
      ensures Valid()
      ensures !isAuthenticated && currentUser == None && authToken == None
      ensures webSocket.task.None? && !webSocket.isConnected && !webSocket.isAuthenticated
      ensures webSocket.pendingRequests == old(webSocket.pendingRequests)
      ensures webSocket.messageHandlers == old(webSocket.messageHandlers)
      ensures webSocket.events == old(webSocket.events)
      ensures webSocket.lastError == old(webSocket.lastError) && webSocket.nextTask == old(webSocket.nextTask)
      ensures webSocket.armed == old(webSocket.armed)
      ensures webSocket.nextWaiter == old(webSocket.nextWaiter) && webSocket.sent == old(webSocket.sent)
    {
      webSocket.Disconnect();
      isAuthenticated := false;
      currentUser := None;
      authToken := None;
    }

    /** `checkAuth`: looks for no stored session and changes nothing. */
    method CheckAuth()
      ensures unchanged(this)
    {
    }
  }
}
