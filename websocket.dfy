/** WebSocketService: one WebSocket task turned into request/response calls and
    pushed notifications. The transport is abstract: tasks are numbered, a send
    either succeeds or throws a foreign error, and a receive delivers a message
    or fails. A `send` that suspends is split at its suspension point: `Send`
    registers the waiter, and the continuation's resumption is an event logged
    by the receive loop. */
module WebSocket {

  import opened Wrappers
  import opened Errors
  import opened Json
  import opened Routing

  /** A URLSessionWebSocketTask, known by an id. */
  type TaskId = nat

  /** URLSessionWebSocketTask.Message: binary data, text (whose UTF-8 bytes the
      frame carries), or a kind added in a later SDK. */
  datatype Message = DataMessage(frame: Frame) | StringMessage(frame: Frame) | UnknownMessage

  // The request builders of the service (`authenticate`, `getWalletBalance`,
  // `listWallets`, `listTransactions`, `requestService`).

  function AuthRequest(token: string): (r: WsRequest)
    ensures r.msgType == "auth" && r.payload.Keys == {"token"} && r.payload["token"] == AString(token)
    ensures JsonCompatible(ADict(r.payload))
  {
    WsRequest("auth", map["token" := AString(token)])
  }

  function WalletBalanceRequest(address: string): (r: WsRequest)
    ensures r.msgType == "wallet.balance" && r.payload.Keys == {"address"} && r.payload["address"] == AString(address)
    ensures JsonCompatible(ADict(r.payload))
  {
    WsRequest("wallet.balance", map["address" := AString(address)])
  }

  function ListWalletsRequest(): (r: WsRequest)
    ensures r.msgType == "wallet.list" && r.payload == map[]
    ensures JsonCompatible(ADict(r.payload))
  {
    WsRequest("wallet.list", map[])
  }

  /** The default page size of `listTransactions`. */
  const DefaultTransactionLimit: Int64 := 20

  function ListTransactionsRequest(limit: Int64): (r: WsRequest)
    ensures r.msgType == "transaction.list" && r.payload.Keys == {"limit"} && r.payload["limit"] == AInt(limit)
    ensures JsonCompatible(ADict(r.payload))
  {
    WsRequest("transaction.list", map["limit" := AInt(limit)])
  }

  function ServiceRequest(serviceId: string, params: map<string, AnyValue>): (r: WsRequest)
    ensures r.msgType == "service.request" && r.payload.Keys == {"service_id", "params"}
    ensures r.payload["service_id"] == AString(serviceId) && r.payload["params"] == ADict(params)
    ensures JsonCompatible(ADict(params)) ==> JsonCompatible(ADict(r.payload))
  {
    WsRequest("service.request", map["service_id" := AString(serviceId), "params" := ADict(params)])
  }

  /** A type made of two dot-free words joined by one '.', whose second word
      cannot begin a "success", has no ".success" in it. */
  lemma DottedTypeWithoutSuffix(a: string, b: string)
    requires '.' !in a && '.' !in b
    requires |b| < |SuccessSuffix| - 1 || b[0] != SuccessSuffix[1]
    ensures !Contains(a + "." + b, SuccessSuffix)
  {
    var t := a + "." + b;
    forall i: nat | i <= |t| ensures !OccursAt(t, SuccessSuffix, i) {
      if i + |SuccessSuffix| <= |t| {
        var w := t[i..i + |SuccessSuffix|];
        if i < |a| {
          assert w[0] == a[i] && a[i] in a;
        } else if i == |a| {
          assert w[1] == b[0];
        } else {
          assert w[0] == b[i - |a| - 1] && b[i - |a| - 1] in b;
        }
      }
    }
  }

  /** None of the request types has ".success" in it, so each is its own key and
      its ".success" reply correlates back to it. */
  lemma RequestTypesCorrelate(t: string)
    requires t in {"auth", "wallet.balance", "wallet.list", "transaction.list", "service.request"}
    ensures Normalize(t) == t && Normalize(t + SuccessSuffix) == t
  {
    if t == "auth" {
      assert |t| < |SuccessSuffix|;
    } else if t == "wallet.balance" {
      DottedTypeWithoutSuffix("wallet", "balance");
      assert "wallet" + "." + "balance" == t;
    } else if t == "wallet.list" {
      DottedTypeWithoutSuffix("wallet", "list");
      assert "wallet" + "." + "list" == t;
    } else if t == "transaction.list" {
      DottedTypeWithoutSuffix("transaction", "list");
      assert "transaction" + "." + "list" == t;
    } else {
      DottedTypeWithoutSuffix("service", "request");
      assert "service" + "." + "request" == t;
    }
    NormalizeWithoutSuffix(t);
    NormalizeReplyType(t);
  }

  /** A reply that reaches the "auth" waiter: its "type" is a string that
      normalises to "auth" ("auth" itself or "auth.success"). */
  predicate AuthReply(reply: Json) {
    FrameType(reply).Some? && Normalize(FrameType(reply).value) == "auth"
  }

  /** `handleMessage` on a received message: data and string messages are routed
      as frames; a message of any other kind changes nothing. */
  function Route(pending: map<string, WaiterId>, handlers: map<string, HandlerId>, m: Message): (r: Routed)
    ensures r.pending.Keys <= pending.Keys
    ensures m.UnknownMessage? ==> r.pending == pending && r.events == []
  {
    if m.UnknownMessage? then Routed(pending, []) else Deliver(pending, handlers, m.frame)
  }

  class WebSocketService {
    var isConnected: bool
    var isAuthenticated: bool
    var lastError: Option<NessError>

    /** `webSocketTask`: the current task, if any. */
    var task: Option<TaskId>
    /** Id of the next task `connect` creates. */
    var nextTask: TaskId

    var messageHandlers: map<string, HandlerId>
    var pendingRequests: map<string, WaiterId>
    /** Id of the next continuation `send` creates. */
    var nextWaiter: WaiterId

    /** Receive callbacks outstanding, by the task each was registered on. */
    ghost var armed: multiset<TaskId>
    /** Resumptions and handler calls, in the order they happened. */
    ghost var events: seq<Event>
    /** Frames handed to a task's `send` that did not throw. */
    ghost var sent: seq<Json>

    ghost predicate Valid()
      reads this
    {
      && (isConnected ==> task.Some?)
      && (task.Some? ==> task.value < nextTask)
      && ArmedOnKnownTasks()
      && WaitersOneShot()
    }

    /** Every armed receive is on a task that was created. */
    ghost predicate ArmedOnKnownTasks()
      reads this`armed, this`nextTask
    {
      forall t | t in armed :: t < nextTask
    }

    /** The waiting table and the log keep the one-shot discipline. */
    ghost predicate WaitersOneShot()
      reads this`pendingRequests, this`events, this`nextWaiter
    {
      OneShot(pendingRequests, events, nextWaiter)
    }

    /** A continuation that was created, is no longer registered and was never
        resumed: its caller stays suspended. */
    ghost predicate Stranded(w: WaiterId)
      reads this`nextWaiter, this`pendingRequests, this`events
    {
      w < nextWaiter && w !in pendingRequests.Values && !WasResumed(events, w)
    }

    constructor ()
      ensures Valid()
      ensures !isConnected && !isAuthenticated && lastError == None && task == None
      ensures messageHandlers == map[] && pendingRequests == map[]
      ensures armed == multiset{} && events == [] && sent == []
      ensures nextTask == 0 && nextWaiter == 0
    {
      isConnected, isAuthenticated, lastError := false, false, None;
      task, nextTask := None, 0;
      messageHandlers, pendingRequests, nextWaiter := map[], map[], 0;
      armed, events, sent := multiset{}, [], [];
    }

    /** `connect`: a no-op while a task exists; otherwise a new task, connected,
        with one receive armed on it. */
    method Connect()
      requires Valid()
      modifies this`task, this`nextTask, this`isConnected, this`armed
      ensures Valid()
      ensures old(task).Some? ==> unchanged(this)
      ensures old(task).None? ==>
        && task == Some(old(nextTask)) && nextTask == old(nextTask) + 1
        && isConnected
        && armed == old(armed) + multiset{old(nextTask)}
      ensures isAuthenticated == old(isAuthenticated) && lastError == old(lastError)
      ensures messageHandlers == old(messageHandlers) && pendingRequests == old(pendingRequests)
      ensures nextWaiter == old(nextWaiter) && events == old(events) && sent == old(sent)
    {
      if task.Some? {
        return;
      }
      task := Some(nextTask);
      nextTask := nextTask + 1;
      isConnected := true;
      ReceiveMessages();
    }

    /** `disconnect`: drops the task and both flags. Waiting requests are not
        settled and handlers stay; receives armed on the dropped task stay
        outstanding (cancellation makes them fail later). */
    method Disconnect()
      requires Valid()
      modifies this`task, this`isConnected, this`isAuthenticated
      ensures Valid()
      ensures task == None && !isConnected && !isAuthenticated
      ensures lastError == old(lastError) && nextTask == old(nextTask) && armed == old(armed)
      ensures messageHandlers == old(messageHandlers) && pendingRequests == old(pendingRequests)
      ensures nextWaiter == old(nextWaiter) && events == old(events) && sent == old(sent)
    {
      task := None;
      isConnected := false;
      isAuthenticated := false;
    }

    /** `send` up to its suspension point. Without a task it throws
        websocketDisconnected and registers nothing; a throwing transport send
        registers nothing either; otherwise a fresh continuation is registered
        under exactly the request's type, replacing (and stranding) any earlier
        one under that type. */
    method Send(request: WsRequest, transport: Outcome<ForeignError>) returns (r: Result<WaiterId, Failure>)
      requires Valid() && JsonCompatible(ADict(request.payload))
      modifies this`pendingRequests, this`nextWaiter, this`sent
      ensures Valid()
      ensures old(task).None? ==> r == Failure(Ness(WebsocketDisconnected)) && unchanged(this)
      ensures old(task).Some? && transport.Fail? ==> r == Failure(Foreign(transport.error)) && unchanged(this)
      ensures old(task).Some? && transport.Pass? ==>
        && r == Success(old(nextWaiter))
        && pendingRequests == old(pendingRequests)[request.msgType := old(nextWaiter)]
        && nextWaiter == old(nextWaiter) + 1
        && sent == old(sent) + [EncodeRequest(request)]
      ensures old(task).Some? && transport.Pass? && request.msgType in old(pendingRequests) ==>
        Stranded(old(pendingRequests)[request.msgType])
      ensures r.Success? ==> !old(Stranded(r.value)) && !WasResumed(events, r.value)
      ensures task == old(task) && isConnected == old(isConnected) && isAuthenticated == old(isAuthenticated)
      ensures lastError == old(lastError) && nextTask == old(nextTask) && armed == old(armed)
      ensures messageHandlers == old(messageHandlers) && events == old(events)
    {
      if task.None? {
        return Failure(Ness(WebsocketDisconnected));
      }
      var data := EncodeRequest(request);
      if transport.Fail? {
        return Failure(Foreign(transport.error));
      }
      RegisterKeepsOneShot(pendingRequests, events, nextWaiter, request.msgType);
      var continuation := nextWaiter;
      nextWaiter := nextWaiter + 1;
      pendingRequests := pendingRequests[request.msgType := continuation];
      sent := sent + [data];
      r := Success(continuation);
    }

    /** `authenticate` up to its suspension point: sends type "auth" with
        payload {token}. */
    method Authenticate(token: string, transport: Outcome<ForeignError>) returns (r: Result<WaiterId, Failure>)
      requires Valid()
      modifies this`pendingRequests, this`nextWaiter, this`sent
      ensures Valid()
      ensures old(task).None? ==> r == Failure(Ness(WebsocketDisconnected)) && unchanged(this)
      ensures old(task).Some? && transport.Fail? ==> r == Failure(Foreign(transport.error)) && unchanged(this)
      ensures old(task).Some? && transport.Pass? ==>
        && r == Success(old(nextWaiter))
        && pendingRequests == old(pendingRequests)["auth" := old(nextWaiter)]
        && nextWaiter == old(nextWaiter) + 1
        && sent == old(sent) + [EncodeRequest(AuthRequest(token))]
      ensures old(task).Some? && transport.Pass? && "auth" in old(pendingRequests) ==>
        Stranded(old(pendingRequests)["auth"])
      ensures r.Success? ==> !old(Stranded(r.value)) && !WasResumed(events, r.value)
      ensures forall v | old(Stranded(v)) :: Stranded(v)
      ensures task == old(task) && isConnected == old(isConnected) && isAuthenticated == old(isAuthenticated)
      ensures lastError == old(lastError) && nextTask == old(nextTask) && armed == old(armed)
      ensures messageHandlers == old(messageHandlers) && events == old(events)
    {
      r := Send(AuthRequest(token), transport);
      if r.Success? {
        forall v | old(Stranded(v)) ensures Stranded(v) {
          RegisterKeepsAbsent(old(pendingRequests), "auth", old(nextWaiter), v);
        }
      }
    }

    /** The rest of `authenticate`, once its continuation is resumed with the
        response (as JSON, when it parses): a response that decodes as
        ErrorResponse throws unauthorized; only otherwise is the service
        authenticated. */
    method AuthenticateResumed(response: Option<Json>) returns (r: Outcome<Failure>)
      requires Valid()
      modifies this`isAuthenticated
      ensures Valid()
      ensures r.Fail? <==> response.Some? && IsErrorResponse(response.value)
      ensures r.Fail? ==> r.error == Ness(Unauthorized) && isAuthenticated == old(isAuthenticated)
      ensures r.Pass? ==> isAuthenticated
    {
      if response.Some? && IsErrorResponse(response.value) {
        return Fail(Ness(Unauthorized));
      }
      isAuthenticated := true;
      r := Pass;
    }

    /** `authenticate(token:)` from its start to its end, when the reply comes
        while it waits: the frame `data`, whose JSON is `reply`, is routed by
        `handleMessage`, which resumes the "auth" waiter just registered; that
        waiter's data is then read for an ErrorResponse. */
    method AuthenticateAnswered(token: string, transport: Outcome<ForeignError>, data: Bytes, reply: Json)
      returns (r: Outcome<Failure>)
      requires Valid()
      requires task.Some? && transport.Pass? ==> AuthReply(reply)
      modifies this`pendingRequests, this`nextWaiter, this`sent, this`events, this`isAuthenticated
      ensures Valid()
      ensures old(task).None? ==> r == Fail(Ness(WebsocketDisconnected)) && unchanged(this)
      ensures old(task).Some? && transport.Fail? ==> r == Fail(Foreign(transport.error)) && unchanged(this)
      ensures old(task).Some? && transport.Pass? ==>
        && (r.Fail? <==> IsErrorResponse(reply))
        && (r.Fail? ==> r.error == Ness(Unauthorized) && isAuthenticated == old(isAuthenticated))
        && (r.Pass? ==> isAuthenticated)
        && sent == old(sent) + [EncodeRequest(AuthRequest(token))]
        && AuthRoundTrip(data, reply, old(pendingRequests), messageHandlers, old(events), old(nextWaiter))
      ensures forall v | old(Stranded(v)) :: Stranded(v)
      ensures task == old(task) && messageHandlers == old(messageHandlers)
    {
      var w := Authenticate(token, transport);
      if w.Failure? {
        return Fail(w.error);
      }
      RegisterThenRemove(old(pendingRequests), "auth", w.value);
      r := AuthReplyArrives(w.value, data, reply);
    }

    /** The table and the log after `authenticate` ran to its end on a reply
        frame `data`, whose JSON is `reply`, starting from the table `before`,
        the log `log` and the waiter counter `next`, with the handlers
        `handlers`: the waiter registered under "auth" was resumed first with
        the frame's bytes and left the table, the handler for the reply's raw
        type was called after it, and any "auth" waiter it replaced is
        stranded. */
    ghost predicate AuthRoundTrip(data: Bytes, reply: Json, before: map<string, WaiterId>,
                                  handlers: map<string, HandlerId>, log: seq<Event>, next: WaiterId)
      reads this`pendingRequests, this`nextWaiter, this`events
    {
      && pendingRequests == before - {"auth"}
      && nextWaiter == next + 1
      && FrameType(reply).Some?
      && (var t := FrameType(reply).value;
          events == log + [Resumed(next, data)] + (if t in handlers then [Handled(handlers[t], data)] else []))
      && ("auth" in before ==> Stranded(before["auth"]))
    }

    /** `connect()` followed by `authenticate(token:)`, as a sign-in does it:
        with no task, a new one is created and armed first, so the send then
        goes out on it; with a task, `connect` changes nothing. */
    method ConnectThenAuthenticate(token: string, transport: Outcome<ForeignError>, data: Bytes, reply: Json)
      returns (r: Outcome<Failure>)
      requires Valid()
      requires transport.Pass? ==> AuthReply(reply)
      modifies this`task, this`nextTask, this`isConnected, this`armed
      modifies this`pendingRequests, this`nextWaiter, this`sent, this`events, this`isAuthenticated
      ensures Valid()
      ensures task.Some? && (old(task).Some? ==> task == old(task))
      ensures old(task).None? ==>
        && task == Some(old(nextTask)) && nextTask == old(nextTask) + 1 && isConnected
        && armed == old(armed) + multiset{old(nextTask)}
      ensures old(task).Some? ==> nextTask == old(nextTask) && isConnected == old(isConnected) && armed == old(armed)
      ensures lastError == old(lastError) && messageHandlers == old(messageHandlers)
      ensures transport.Fail? ==>
        && r == Fail(Foreign(transport.error)) && isAuthenticated == old(isAuthenticated)
        && sent == old(sent) && pendingRequests == old(pendingRequests) && events == old(events)
        && nextWaiter == old(nextWaiter)
      ensures transport.Pass? ==>
        && (r.Fail? <==> IsErrorResponse(reply))
        && (r.Fail? ==> r.error == Ness(Unauthorized) && isAuthenticated == old(isAuthenticated))
        && (r.Pass? ==> isAuthenticated)
        && sent == old(sent) + [EncodeRequest(AuthRequest(token))]
        && AuthRoundTrip(data, reply, old(pendingRequests), messageHandlers, old(events), old(nextWaiter))
      ensures forall v | old(Stranded(v)) :: Stranded(v)
    {
      Connect();
      r := AuthenticateAnswered(token, transport, data, reply);
    }

    /** The reply frame reaches `handleMessage` while `authenticate` waits under
        "auth": the waiter leaves the table and is resumed with the frame's
        bytes first, and the rest of `authenticate` decides on the reply. */
    method AuthReplyArrives(w: WaiterId, data: Bytes, reply: Json) returns (r: Outcome<Failure>)
      requires Valid()
      requires "auth" in pendingRequests && pendingRequests["auth"] == w
      requires AuthReply(reply)
      modifies this`pendingRequests, this`events, this`isAuthenticated
      ensures Valid()
      ensures r.Fail? <==> IsErrorResponse(reply)
      ensures r.Fail? ==> r.error == Ness(Unauthorized) && isAuthenticated == old(isAuthenticated)
      ensures r.Pass? ==> isAuthenticated
      ensures pendingRequests == old(pendingRequests) - {"auth"}
      ensures events == old(events) + Deliver(old(pendingRequests), messageHandlers, Frame(data, FrameType(reply))).events
      ensures var t := FrameType(reply).value;
        events == old(events) + [Resumed(w, data)] + (if t in messageHandlers then [Handled(messageHandlers[t], data)] else [])
      ensures forall v | old(Stranded(v)) :: Stranded(v)
    {
      var message := DataMessage(Frame(data, FrameType(reply)));
      ghost var routed := Route(pendingRequests, messageHandlers, message);
      assert pendingRequests == pendingRequests["auth" := w];
      DeliverAnswers(pendingRequests, messageHandlers, "auth", w, data, FrameType(reply).value);
      HandleMessage(message);
      r := AuthenticateResumed(Some(reply));
    }

    /** `onMessage`: the handler for `t` is replaced; the others stay. */
    method OnMessage(t: string, handler: HandlerId)
      requires Valid()
      modifies this`messageHandlers
      ensures Valid()
      ensures messageHandlers == old(messageHandlers)[t := handler]
      ensures forall u | u in old(messageHandlers) && u != t :: messageHandlers[u] == old(messageHandlers)[u]
    {
      messageHandlers := messageHandlers[t := handler];
    }

    /** `handleMessage`: an unknown kind of message changes nothing; otherwise the
        frame is routed, and the handler table is left as it was. */
    method HandleMessage(m: Message)
      requires Valid()
      modifies this`pendingRequests, this`events
      ensures Valid()
      ensures var routed := Route(old(pendingRequests), messageHandlers, m);
        pendingRequests == routed.pending && events == old(events) + routed.events
      ensures forall w | old(Stranded(w)) :: Stranded(w)
    {
      if m.UnknownMessage? {
        return;
      }
      var f := m.frame;
      var pending, routedEvents := pendingRequests, [];
      if f.jsonType.Some? {
        var t := f.jsonType.value;
        var key := Normalize(t);
        if key in pending {
          var continuation := pending[key];
          pending := pending - {key};
          routedEvents := [Resumed(continuation, f.data)];
        }
        if t in messageHandlers {
          routedEvents := routedEvents + [Handled(messageHandlers[t], f.data)];
        }
      }
      assert Routed(pending, routedEvents) == Deliver(pendingRequests, messageHandlers, f);
      DeliverKeepsOneShot(pendingRequests, messageHandlers, events, nextWaiter, f);
      forall w | Stranded(w) ensures w !in pending.Values && !WasResumed(events + routedEvents, w) {
        StrandedStays(pendingRequests, messageHandlers, events, f, w);
      }
      pendingRequests, events := pending, events + routedEvents;
    }

    /** `receiveMessages`: arms one receive on the current task, if any. */
    method ReceiveMessages()
      requires Valid()
      modifies this`armed
      ensures Valid()
      ensures armed == old(armed) + (if task.Some? then multiset{task.value} else multiset{})
    {
      if task.Some? {
        armed := armed + multiset{task.value};
      }
    }

    /** The receive callback, on success: the message is handled completely, and
        only then is the next receive armed, on whatever task is current. */
    method ReceiveSuccess(t: TaskId, m: Message)
      requires Valid() && t in armed
      modifies this`armed, this`pendingRequests, this`events
      ensures Valid()
      ensures var routed := Route(old(pendingRequests), messageHandlers, m);
        pendingRequests == routed.pending && events == old(events) + routed.events
      ensures forall w | old(Stranded(w)) :: Stranded(w)
      ensures armed == old(armed) - multiset{t} + (if task.Some? then multiset{task.value} else multiset{})
      ensures task == old(task) && isConnected == old(isConnected) && isAuthenticated == old(isAuthenticated)
      ensures lastError == old(lastError) && nextTask == old(nextTask) && messageHandlers == old(messageHandlers)
      ensures nextWaiter == old(nextWaiter) && sent == old(sent)
    {
      ghost var routed := Route(pendingRequests, messageHandlers, m);
      armed := armed - multiset{t};
      HandleMessage(m);
      assert pendingRequests == routed.pending && events == old(events) + routed.events;
      ReceiveMessages();
    }

    /** The receive loop over frames arriving one after another on the current
        task: each is routed completely before the next receive is armed, so the
        table and the log end as routing the frames in arrival order says. */
    method ReceiveFrames(frames: seq<Frame>)
      requires Valid() && task.Some? && task.value in armed
      modifies this`armed, this`pendingRequests, this`events
      ensures Valid() && armed == old(armed)
      ensures var replayed := Replay(old(pendingRequests), messageHandlers, frames);
        pendingRequests == replayed.pending && events == old(events) + replayed.events
      ensures forall w | old(Stranded(w)) :: Stranded(w)
    {
      var i := 0;
      while i < |frames|
        invariant 0 <= i <= |frames|
        invariant Valid() && armed == old(armed)
        invariant forall w | old(Stranded(w)) :: Stranded(w)
        invariant var replayed := Replay(old(pendingRequests), messageHandlers, frames[..i]);
          pendingRequests == replayed.pending && events == old(events) + replayed.events
      {
        ghost var before := Replay(old(pendingRequests), messageHandlers, frames[..i]);
        ghost var step := Deliver(before.pending, messageHandlers, frames[i]);
        ReplayStep(old(pendingRequests), messageHandlers, frames, i);
        ghost var events0 := events;
        assert Route(pendingRequests, messageHandlers, DataMessage(frames[i])) == step;
        ReceiveSuccess(task.value, DataMessage(frames[i]));
        assert pendingRequests == step.pending && events == events0 + step.events;
        AppendTwice(old(events), before.events, step.events);
        i := i + 1;
      }
      assert frames[..|frames|] == frames;
    }

    /** The receive callback, on failure: the error is recorded and the service is
        no longer connected, but the task is kept (so `connect` stays a no-op), no
        receive is re-armed and no waiting request is settled. */
    method ReceiveFailure(t: TaskId, error: ForeignError)
      requires Valid() && t in armed
      modifies this`armed, this`lastError, this`isConnected
      ensures Valid()
      ensures lastError == Some(NetworkError(error)) && !isConnected
      ensures armed == old(armed) - multiset{t}
      ensures task == old(task) && pendingRequests == old(pendingRequests) && events == old(events)
    {
      armed := armed - multiset{t};
      lastError := Some(NetworkError(error));
      isConnected := false;
    }
  }

  /** A stranded continuation stays stranded when a frame is routed. */
  lemma StrandedStays(pending: map<string, WaiterId>, handlers: map<string, HandlerId>, events: seq<Event>, f: Frame, w: WaiterId)
    requires Injective(pending) && w !in pending.Values && !WasResumed(events, w)
    ensures var r := Deliver(pending, handlers, f);
      w !in r.pending.Values && !WasResumed(events + r.events, w)
  {
    var r := Deliver(pending, handlers, f);
    ReplayNeverResumesAbsent(pending, handlers, [f], w);
    assert Replay(pending, handlers, [f]) == Routed(r.pending, r.events + []) by {
      assert [f][1..] == [];
    }
    assert r.events + [] == r.events;
    var all := events + r.events;
    forall i | 0 <= i < |all| && all[i].Resumed? ensures all[i].waiter != w {
      if i < |events| {
        assert all[i] == events[i];
      } else {
        assert all[i] == r.events[i - |events|];
      }
    }
  }

  // ---------------------------------------------------------------------------
  // Scenarios, written against the contracts above

  /** A request is resolved by a reply of its own type, with the reply's data. */
  method WalletBalanceScenario(reply: Bytes)
  {
    var service := new WebSocketService();
    service.Connect();
    var t := service.task.value;
    var r := service.Send(WalletBalanceRequest("A1"), Pass);
    var w := r.value;
    RequestTypesCorrelate("wallet.balance");
    service.ReceiveSuccess(t, DataMessage(Frame(reply, Some("wallet.balance"))));
    assert service.events == [Resumed(w, reply)];
    assert service.pendingRequests == map[];
  }

  /** A ".success" reply resolves the plain request type. */
  method SuccessSuffixScenario(reply: Bytes)
  {
    var service := new WebSocketService();
    service.Connect();
    var t := service.task.value;
    var r := service.Send(ListWalletsRequest(), Pass);
    RequestTypesCorrelate("wallet.list");
    var replyType := "wallet.list" + SuccessSuffix;
    service.ReceiveSuccess(t, StringMessage(Frame(reply, Some(replyType))));
    assert service.events == [Resumed(r.value, reply)];
  }

  /** A receive failure leaves the outstanding request waiting: it is neither
      resolved nor failed, and a later `connect` does not start a new task. */
  method ChannelFaultScenario(cause: ForeignError)
  {
    var service := new WebSocketService();
    service.Connect();
    var t := service.task.value;
    var r := service.Send(ListWalletsRequest(), Pass);
    service.ReceiveFailure(t, cause);
    assert service.pendingRequests == map["wallet.list" := r.value];
    assert !WasResumed(service.events, r.value);
    assert !service.isConnected && service.lastError == Some(NetworkError(cause));
    service.Connect();
    assert service.task == Some(t) && !service.isConnected;
  }

  /** A second send of the same type strands the first caller. */
  method OverwriteScenario(reply: Bytes)
  {
    var service := new WebSocketService();
    service.Connect();
    var a1, b2 := WalletBalanceRequest("A1"), WalletBalanceRequest("B2");
    assert a1.msgType == b2.msgType == "wallet.balance";
    var first := service.Send(a1, Pass);
    ghost var table := service.pendingRequests;
    assert table == map["wallet.balance" := first.value];
    var second := service.Send(b2, Pass);
    assert service.Stranded(first.value);
    assert "wallet.balance" in service.pendingRequests && service.pendingRequests["wallet.balance"] == second.value;
    AnswerLatest(service, "wallet.balance", first.value, reply);
    assert service.events == [Resumed(second.value, reply)];
  }

  /** A reply whose type is a request type, with no handler registered for it,
      resumes the waiter now registered under that type and nothing else: the
      entry leaves the table, and a waiter it replaced stays stranded. */
  method AnswerLatest(service: WebSocketService, t: string, stranded: WaiterId, reply: Bytes)
    requires t in {"auth", "wallet.balance", "wallet.list", "transaction.list", "service.request"}
    requires service.Valid() && service.task.Some? && service.task.value in service.armed
    requires t in service.pendingRequests && t !in service.messageHandlers && service.Stranded(stranded)
    modifies service`armed, service`pendingRequests, service`events
    ensures service.Valid() && service.armed == old(service.armed)
    ensures service.pendingRequests == old(service.pendingRequests) - {t}
    ensures service.events == old(service.events) + [Resumed(old(service.pendingRequests[t]), reply)]
    ensures service.Stranded(stranded)
  {
    var m := DataMessage(Frame(reply, Some(t)));
    RequestTypesCorrelate(t);
    DeliverEvents(service.pendingRequests, service.messageHandlers, reply, t);
    service.ReceiveSuccess(service.task.value, m);
  }

  /** Pushed frames of a type nobody waits for, arriving one after another on
      the receive loop, reach that type's handler in arrival order and resume
      nobody. */
  method ReceivePushes(service: WebSocketService, t: string, payloads: seq<Bytes>)
    requires service.Valid() && service.task.Some? && service.task.value in service.armed
    requires Normalize(t) !in service.pendingRequests && t in service.messageHandlers
    modifies service`armed, service`pendingRequests, service`events
    ensures service.Valid() && service.armed == old(service.armed)
    ensures service.pendingRequests == old(service.pendingRequests)
    ensures var h := old(service.messageHandlers[t]);
      service.events == old(service.events) + seq(|payloads|, i requires 0 <= i < |payloads| => Handled(h, payloads[i]))
  {
    var frames := seq(|payloads|, i requires 0 <= i < |payloads| => Frame(payloads[i], Some(t)));
    ReplayPushes(service.pendingRequests, service.messageHandlers, t, payloads);
    service.ReceiveFrames(frames);
  }

  /** Pushed frames go to the handler for their type, in order. */
  method PushScenario(cb: HandlerId, d1: Bytes, d2: Bytes)
  {
    var service := new WebSocketService();
    service.Connect();
    var t := service.task.value;
    service.OnMessage("price.update", cb);
    service.ReceiveSuccess(t, DataMessage(Frame(d1, Some("price.update"))));
    service.ReceiveSuccess(t, DataMessage(Frame(d2, Some("price.update"))));
    assert service.events == [Handled(cb, d1), Handled(cb, d2)];
  }

  /** A receive on a dropped task can still fail after a reconnect, and then marks
      the new connection as not connected. */
  method StaleFailureScenario(cause: ForeignError)
  {
    var service := new WebSocketService();
    service.Connect();
    var dropped := service.task.value;
    service.Disconnect();
    service.Connect();
    assert service.task.value != dropped && service.isConnected;
    service.ReceiveFailure(dropped, cause);
    assert service.task.Some? && !service.isConnected;
  }
}
