# ness-app-ios: request correlation over one WebSocket, and the screens on top of it

This project models the core of the ness-app-ios client in Dafny.

The centre is `WebSocketService`. It turns one WebSocket task into typed request/response calls plus pushed notifications. The service keeps two tables:
- `pendingRequests`, from request type to a suspended caller (a waiter);
- `messageHandlers`, from frame type to a handler.

A request is sent as a frame `{"type": T, "payload": ...}`. The sender then waits under `T`. Each inbound frame whose JSON has a string `type` does two things, in this order:
1. It resumes the waiter stored under the key made from that type by removing its ".success" occurrences left to right, once. The key can still contain ".success": ".suc.successcess" gives ".success" (`Routing.NormalizeNotIdempotent`).
2. It calls the handler registered for the raw type.

Two things never settle a waiting caller:
- `disconnect`;
- a receive failure.

A second request of the same type replaces the first waiter, which then stays suspended for ever. The model keeps all three behaviours as the code has them. For the overwrite, the model proves that the replaced waiter is never resumed (`WebSocket.WebSocketService.Send`, `Routing.ReplayNeverResumesAbsent`).

On top of the service sit these parts:
- `HomeViewModel`: the wallet list, then the transaction list, then the primary wallet's balance, plus the payment-offer sheet;
- `AuthManager`: the session flags;
- `ContentView`: picks the auth, onboarding or home screen from those flags;
- `OnboardingView`: three pages behind a bounded step counter;
- the view helpers: `shortenAddress` (three identical copies, modelled once), Recent Activity's `prefix(5)`, the transaction row icon, and the Solana Explorer link.

Modules, one per file:
- `Wrappers`: `Option`, `Outcome` and `Result`.
- `Errors`: `NessError`, and the `error as? NessError ?? .unknown(...)` mapping.
- `Models`: the records.
- `Json`: JSON values (RFC 8259, without floating-point numbers), the `AnyCodable` and `WsRequest` encoders, and the `ErrorResponse` shape.
- `Routing`: key normalisation, and the pure routing of frames against the two tables.
- `WebSocket`: the `WebSocketService` class.
- `Home`: the `HomeViewModel` class and the specification of `load`.
- `Auth`: the `AuthManager` class.
- `Content`: screen selection.
- `Onboarding`: the `OnboardingView` class and its pure rules.
- `AddressFormat`: `shortenAddress`.
- `HomeScreen`, `PaymentSheet` and `TransactionDetail`: the view helpers.

How the environment is represented:
- The transport is abstract. Tasks are numbered. A send either succeeds or throws a foreign error. A receive callback delivers a message or fails.
- A `send` that suspends is split at its suspension point. `Send` registers a fresh waiter id. The waiter's resumption is an event (`Resumed(waiter, data)`) that the receive loop appends to a ghost log, next to handler calls (`Handled(handler, data)`).
- Above the service, each request's reply is a scripted outcome: the decoded value, or the error the call throws. The home view model's service is never connected, so there every request fails before its reply matters.
- The auth manager drives the service model itself. Its parameters are the transport outcome of the "auth" send and the reply frame (its bytes and its JSON). The service routes that frame through `handleMessage`: the "auth" entry leaves the table, its waiter is resumed with the frame's bytes, and only then does `authenticate` decide on the reply.
- A method's `modifies` clause says what it may change. The service's and the view models' methods name the fields they may assign one by one, and every field not named keeps its value. The auth manager's methods name the whole service object; their `ensures` state every field of it, on the success path and on both failure paths. The service-level helpers `AnswerLatest` and `ReceivePushes` name only the armed receives, the table and the log.

Behaviours of the code worth knowing:
- A frame with a string type resumes the waiter under its normalised type and is then also handed to the handler registered for its raw type (`WebSocketService.swift:141-147`).
- No waiter is settled on disconnect or on a receive failure (`WebSocketService.swift:37-42`, `:117-121`). `WebSocket.ChannelFaultScenario` shows a request left waiting after a receive failure.
- A second send of a type replaces the first waiter, which is never resumed (`WebSocketService.swift:103`).
- The waiter is registered only after the transport send returns (`WebSocketService.swift:99-103`).
- Only `authenticate` checks the ErrorResponse shape. It decodes the whole frame: a top-level `"error"` object with string `code` and `message`, and an optional integer under the default coding key `httpStatus` (`NessError.swift:52-60`). Other requests fail only when decoding their typed reply fails.

## Model

| member | source | states |
|---|---|---|
| Errors.AsNessError | ness-app-ios/ViewModels/HomeViewModel.swift:41 | a thrown NessError is kept as it is; any other error becomes `.unknown` of its description |
| Json.Encode | ness-app-ios/Services/WebSocketService.swift:223-244 | strings, ints and bools pass through; a dictionary keeps its key set and encodes each value; an array keeps its length and order and encodes each item; anything else becomes null |
| Json.EmbedEncode | ness-app-ios/Services/WebSocketService.swift:166-168 | on objects JSONSerialization accepts, encoding loses nothing: reading the encoder's output back gives the object |
| Json.EncodeEmbed | ness-app-ios/Services/WebSocketService.swift:167-168 | encoding what Foundation parsed gives back the JSON value it parsed |
| Json.EmbedCompatible | ness-app-ios/Services/WebSocketService.swift:167 | everything Foundation parses from JSON is an object JSONSerialization accepts again |
| Json.Embed | ness-app-ios/Services/WebSocketService.swift:167 | Foundation's parse keeps the shape: arrays stay arrays of the same length, objects stay dictionaries with the same keys, strings stay strings, and nothing parsed is an opaque object |
| Json.IsErrorResponse | ness-app-ios/Services/NessError.swift:52-60 | a reply that decodes as ErrorResponse is an object whose "error" member is an object holding at least "code" and "message" |
| Json.EncodeRequest | ness-app-ios/Services/WebSocketService.swift:158-174 | the envelope has exactly the keys "type" and "payload"; "type" is the request type; "payload" reads back as the payload dictionary |
| Json.FrameType | ness-app-ios/Services/WebSocketService.swift:138-139 | a frame has a type exactly when it is an object whose "type" is a string, and then the type is that string |
| Json.RequestFrameType | ness-app-ios/Services/WebSocketService.swift:138-142 | an encoded request, read as a frame, carries the request's own type |
| Json.RequestIsNotErrorResponse | ness-app-ios/Services/WebSocketService.swift:48 | no encoded request has the ErrorResponse shape |
| Routing.Normalize | ness-app-ios/Services/WebSocketService.swift:142 | removes ".success" occurrences left to right; the key is never longer than the type |
| Routing.NormalizeWithoutSuffix | ness-app-ios/Services/WebSocketService.swift:142 | a type without ".success" is its own key |
| Routing.NormalizeWithSuffix | ness-app-ios/Services/WebSocketService.swift:142 | a type containing ".success" has a strictly shorter key |
| Routing.NormalizeFixpointIff | ness-app-ios/Services/WebSocketService.swift:142 | a type is its own key if and only if it contains no ".success" |
| Routing.NormalizeReplyType | ness-app-ios/Services/WebSocketService.swift:142 | the reply type `X + ".success"` of a type X without ".success" has key X |
| Routing.NormalizeNotIdempotent | ness-app-ios/Services/WebSocketService.swift:142 | normalising twice can differ from normalising once: ".suc.successcess" gives ".success", which gives "" |
| Routing.NormalizeSuffixAlone | ness-app-ios/Services/WebSocketService.swift:142 | ".success" on its own normalises to the empty key |
| Routing.DeliverUntyped | ness-app-ios/Services/WebSocketService.swift:138-148 | a frame without a string type changes nothing and calls nobody |
| Routing.Deliver | ness-app-ios/Services/WebSocketService.swift:138-147 | routing one frame only ever removes entries from the waiting table, and produces at most two events: one resumption and one handler call |
| Routing.DeliverRemovesOnlyKey | ness-app-ios/Services/WebSocketService.swift:142 | only the entry under the frame's key leaves the waiting table; every other entry keeps its waiter |
| Routing.DeliverEvents | ness-app-ios/Services/WebSocketService.swift:142-147 | the waiter under the key is resumed first, with the whole frame data; the handler for the raw type is called whether or not a waiter was resumed |
| Routing.DeliverResumesWaiting | ness-app-ios/Services/WebSocketService.swift:142-143 | routing resumes only a waiter that was waiting, and that waiter is not waiting afterwards |
| Routing.DeliverAnswers | ness-app-ios/Services/WebSocketService.swift:142-147 | a waiter just registered under a key, answered by a frame whose type normalises to that key, is resumed with the frame data, and the only other event is the call of the handler for the frame's raw type, if any; its entry is gone and every other entry is as before the registration |
| Routing.DeliverKeepsOneShot | ness-app-ios/Services/WebSocketService.swift:142-143 | routing a frame keeps the discipline that no waiter is resumed twice |
| Routing.RegisterKeepsOneShot | ness-app-ios/Services/WebSocketService.swift:102-104 | registering a fresh waiter keeps that discipline, and the waiter it replaces is no longer waiting |
| Routing.ReplayAppend | ness-app-ios/Services/WebSocketService.swift:112-116 | frames are routed one at a time in arrival order: routing `a + b` is routing `a`, then `b` on what `a` left |
| Routing.Replay | ness-app-ios/Services/WebSocketService.swift:107-116 | routing frames in arrival order only ever removes entries from the table, with at most two events per frame |
| Routing.ReplayStep | ness-app-ios/Services/WebSocketService.swift:112-116 | routing one more frame: the frames before it, then that frame on the table they left, with its events after theirs |
| Routing.ReplayPushes | ness-app-ios/Services/WebSocketService.swift:147 | pushed frames of a type with no waiter go, in order, each to that type's handler, and nobody is resumed |
| Routing.ReplayNeverResumesAbsent | ness-app-ios/Services/WebSocketService.swift:103 | a waiter that is no longer waiting (e.g. one overwritten by a second send) is never resumed by any later frames |
| WebSocket.AuthRequest | ness-app-ios/Services/WebSocketService.swift:45 | type "auth" with payload exactly {"token": token} |
| WebSocket.WalletBalanceRequest | ness-app-ios/Services/WebSocketService.swift:56 | type "wallet.balance" with payload exactly {"address": address} |
| WebSocket.ListWalletsRequest | ness-app-ios/Services/WebSocketService.swift:64 | type "wallet.list" with an empty payload |
| WebSocket.ListTransactionsRequest | ness-app-ios/Services/WebSocketService.swift:71-72 | type "transaction.list" with payload exactly {"limit": limit} (default 20) |
| WebSocket.ServiceRequest | ness-app-ios/Services/WebSocketService.swift:79-83 | type "service.request" with payload exactly {"service_id", "params"} |
| WebSocket.RequestTypesCorrelate | ness-app-ios/Services/WebSocketService.swift:142 | each of the five request types is its own key, and so is its ".success" reply type |
| WebSocket.DottedTypeWithoutSuffix | ness-app-ios/Services/WebSocketService.swift:142 | a type of two dot-free words joined by one "." whose second word cannot begin "success" (as "balance", "list" and "request" cannot) contains no ".success" |
| WebSocket.Route | ness-app-ios/Services/WebSocketService.swift:126-136 | a message of unknown kind leaves the table and the log alone; routing never adds an entry to the table |
| WebSocket.WebSocketService.constructor | ness-app-ios/Services/WebSocketService.swift:11-25 | no task, not connected, not authenticated, no error, both tables empty, nothing armed, logged or sent, and both counters at 0 |
| WebSocket.WebSocketService.Connect | ness-app-ios/Services/WebSocketService.swift:27-35 | a no-op while a task exists; otherwise a new task, connected, with one receive armed on it; tables untouched |
| WebSocket.WebSocketService.Disconnect | ness-app-ios/Services/WebSocketService.swift:37-42 | no task, not connected, not authenticated; waiting requests and handlers unchanged and nobody resumed |
| WebSocket.WebSocketService.Send | ness-app-ios/Services/WebSocketService.swift:90-104 | without a task it throws websocketDisconnected and registers nothing; a failing transport send registers nothing; otherwise a fresh waiter is registered under exactly the request type, replacing and stranding any earlier one |
| WebSocket.WebSocketService.Authenticate | ness-app-ios/Services/WebSocketService.swift:44-46 | sends type "auth" with payload {token} and waits under "auth" as `send` does: the same two failures that change nothing, a fresh waiter replacing and stranding any earlier "auth" waiter, a waiter stranded before staying stranded, the waiter counter advanced by one, and the task, the armed receives and the handlers unchanged |
| WebSocket.WebSocketService.AuthenticateResumed | ness-app-ios/Services/WebSocketService.swift:48-52 | throws unauthorized if and only if the reply decodes as ErrorResponse; the service is authenticated only otherwise |
| WebSocket.WebSocketService.AuthenticateAnswered | ness-app-ios/Services/WebSocketService.swift:44-53 | without a task it throws websocketDisconnected and changes nothing; a failing send throws that error and changes nothing; otherwise the "auth" frame is sent and the reply frame is routed: "auth" leaves the table, the log grows by exactly the new waiter's resumption with the reply's bytes followed by the call of the handler for the reply's raw type, if one is registered (`AuthRoundTrip`), an "auth" waiter it replaced stays stranded, and so does every waiter stranded before; it throws unauthorized iff the reply decodes as ErrorResponse, the service being authenticated only otherwise |
| WebSocket.WebSocketService.ConnectThenAuthenticate | ness-app-ios/Services/AuthManager.swift:73-81 | `connect` then `authenticate`: with no task a new one is created, connected and armed, otherwise the task, the connection flag and the armed receives stay; lastError and the handlers are untouched; a failing send throws and leaves the table, the log and the sent frames as they were; otherwise the "auth" frame is sent and the reply is routed as `AuthRoundTrip` says, every waiter stranded before stays stranded, and it throws unauthorized iff the reply decodes as ErrorResponse |
| WebSocket.WebSocketService.AuthReplyArrives | ness-app-ios/Services/WebSocketService.swift:142-147 | the reply reaching a waiting `authenticate`: "auth" leaves the table, the log grows by exactly what `Deliver` gives for the frame, which is the waiter's resumption with the reply's bytes and then the call of the handler for the reply's raw type, if any; a stranded waiter stays stranded; the rest of `authenticate` throws unauthorized iff the reply decodes as ErrorResponse |
| WebSocket.WebSocketService.OnMessage | ness-app-ios/Services/WebSocketService.swift:151-153 | the handler for the type is replaced (last registration wins); other types keep theirs |
| WebSocket.WebSocketService.HandleMessage | ness-app-ios/Services/WebSocketService.swift:126-148 | a message of unknown kind changes nothing; otherwise the table and log change exactly as pure routing says, the handler table is unchanged, and a stranded waiter stays stranded |
| WebSocket.WebSocketService.ReceiveMessages | ness-app-ios/Services/WebSocketService.swift:107-108 | arms one receive on the current task, if there is one |
| WebSocket.WebSocketService.ReceiveSuccess | ness-app-ios/Services/WebSocketService.swift:112-116 | the message is routed as `handleMessage` says before the loop re-arms on the current task; a stranded waiter stays stranded |
| WebSocket.WebSocketService.ReceiveFrames | ness-app-ios/Services/WebSocketService.swift:107-116 | frames received one after another on the current task leave the table and the log exactly as routing them in arrival order says; the armed receives end as they began, since each routed frame re-arms the receive it used; a stranded waiter stays stranded; only the table and the log change |
| WebSocket.WebSocketService.ReceiveFailure | ness-app-ios/Services/WebSocketService.swift:117-121 | records networkError and clears isConnected; it does not re-arm, keeps the task (a later connect is a no-op) and settles no waiter |
| WebSocket.StrandedStays | ness-app-ios/Services/WebSocketService.swift:103 | a waiter that was replaced and not resumed is never resumed by routing a frame |
| WebSocket.AnswerLatest | ness-app-ios/Services/WebSocketService.swift:142-143 | a reply whose type is a request type with no handler resumes exactly the waiter now registered under that type, removes only that entry, and leaves a replaced waiter stranded; the armed receives and every other field of the service keep their values |
| WebSocket.ReceivePushes | ness-app-ios/Services/WebSocketService.swift:147 | pushed frames of a type with a handler and no waiter: the table is unchanged and the log grows by one call of that handler per frame, in arrival order; the armed receives and every other field of the service keep their values |
| Home.Call | ness-app-ios/Services/WebSocketService.swift:91-93 | without a task a call throws websocketDisconnected; with one the reply stands |
| Home.FirstPrimaryIndex | ness-app-ios/ViewModels/HomeViewModel.swift:24 | the index of the first wallet marked primary, and none before it is |
| Home.PrimaryWallet | ness-app-ios/ViewModels/HomeViewModel.swift:23-25 | nil iff there are no wallets; the first primary wallet when there is one; otherwise the first wallet |
| Home.LoadSpec | ness-app-ios/ViewModels/HomeViewModel.swift:31-42 | `load` adds one to three requests after those already made, "wallet.list" first, and either keeps the error or sets one |
| Home.LoadAfterWallets | ness-app-ios/ViewModels/HomeViewModel.swift:33-42 | after the wallets are assigned: they are kept, and one or two more requests follow, "transaction.list" first with the default limit |
| Home.LoadAfterTransactions | ness-app-ios/ViewModels/HomeViewModel.swift:36-39 | after the transactions are assigned: wallets and transactions are kept, and a balance request is made iff there is a wallet; the balance or the error is left as it was |
| Home.LoadRequestOrder | ness-app-ios/ViewModels/HomeViewModel.swift:31-39 | the requests of `load` are, in order, a prefix of "wallet.list", "transaction.list" and "wallet.balance" for the primary wallet |
| Home.LoadFailure | ness-app-ios/ViewModels/HomeViewModel.swift:31-42 | each of the three requests can fail: a failure skips the later requests, keeps what the earlier steps assigned, leaves the balance as it was, and records the error mapped to a NessError |
| Home.LoadBalance | ness-app-ios/ViewModels/HomeViewModel.swift:36-39 | the balance changes only for a primary wallet and a successful reply; with no wallets it is untouched |
| Home.LoadSuccess | ness-app-ios/ViewModels/HomeViewModel.swift:31-39 | when every request succeeds all three fields are assigned and the error is left as it was |
| Home.LoadDisconnected | ness-app-ios/ViewModels/HomeViewModel.swift:21-32 | on a service with no task, `load` makes one request and ends with websocketDisconnected |
| Home.HomeViewModel.constructor | ness-app-ios/ViewModels/HomeViewModel.swift:10-21 | no wallets or transactions, zero balance, not loading, no error, no sheet, and a fresh service with no task |
| Home.HomeViewModel.Request | ness-app-ios/Services/WebSocketService.swift:90-93 | records the request; without a task the call throws websocketDisconnected, otherwise the scripted reply stands |
| Home.HomeViewModel.Load | ness-app-ios/ViewModels/HomeViewModel.swift:27-43 | the new state is the load specification of the old one and `isLoading` is false on return; only the fields `load` assigns may change, so the sheet flags are untouched |
| Home.HomeViewModel.Refresh | ness-app-ios/ViewModels/HomeViewModel.swift:45-47 | exactly `load` |
| Home.HomeViewModel.RequestVideoGeneration | ness-app-ios/ViewModels/HomeViewModel.swift:49-58 | requests service "veo3-video-8s"; on success the offer is kept and the sheet shown; on failure only the error is set |
| Home.HomeViewModel.ConfirmPayment | ness-app-ios/ViewModels/HomeViewModel.swift:61-70 | hides the sheet and drops the offer, nothing else |
| Auth.AuthManager.SimulateAuth | ness-app-ios/Services/AuthManager.swift:69-84 | connects (a new task, connected and armed, when there was none; otherwise the task, the connection flag and the armed receives as they were; lastError and the handlers untouched) and stores "mock.jwt.token", which stays stored on failure; the "auth" frame is sent and the reply frame is routed, so "auth" leaves the table, the log grows by the new waiter's resumption and then the handler call for the reply's raw type, if any, and a replaced "auth" waiter and every waiter stranded before stay stranded; succeeds iff the send succeeds and the reply is no ErrorResponse; only then are the manager and the service authenticated, and on failure both keep their flags; a failed send allocates no waiter |
| Auth.AuthManager.SignUp | ness-app-ios/Services/AuthManager.swift:26-33 | on success authenticated and needing onboarding; on failure both flags keep their values; the token is stored either way; the service is left exactly as `SimulateAuth` states: connected as after `connect`, the "auth" frame sent and its reply routed (`AuthRoundTrip`) when the send succeeds, the table, log and sent frames unchanged when it fails, stranded waiters still stranded, the service authenticated on success and keeping its flag on failure, and no waiter allocated by a failed send |
| Auth.AuthManager.SignIn | ness-app-ios/Services/AuthManager.swift:36-43 | on success authenticated and not needing onboarding; on failure both flags keep their values; the token is stored either way; the service is left exactly as `SimulateAuth` states: connected as after `connect`, the "auth" frame sent and its reply routed (`AuthRoundTrip`) when the send succeeds, the table, log and sent frames unchanged when it fails, stranded waiters still stranded, the service authenticated on success and keeping its flag on failure, and no waiter allocated by a failed send |
| Auth.AuthManager.CompleteOnboarding | ness-app-ios/Services/AuthManager.swift:46-51 | clears needsOnboarding and changes nothing else; the arguments are unused |
| Auth.AuthManager.SignOut | ness-app-ios/Services/AuthManager.swift:54-59 | disconnects the service, clears isAuthenticated, currentUser and authToken, leaves needsOnboarding; the service's tables, log, sent frames, lastError, counters and armed receives are untouched |
| Auth.AuthManager.CheckAuth | ness-app-ios/Services/AuthManager.swift:62-65 | changes nothing |
| Auth.AuthManager.constructor | ness-app-ios/Services/AuthManager.swift:11-23 | both flags false, no user and no token, over a fresh service as its own constructor leaves it: no task, not connected, not authenticated, no error, no handlers, no waiting requests, nothing armed, logged or sent, and both counters at 0 |
| Content.SelectScreen | ness-app-ios/ContentView.swift:12-22 | the auth screen iff not authenticated; the onboarding screen only when onboarding is needed |
| Content.ScreenIff | ness-app-ios/ContentView.swift:12-22 | auth screen iff not authenticated; onboarding iff authenticated and needing onboarding; home iff authenticated and not; so exactly one screen for each of the four flag pairs |
| Content.EveryScreenReachable | ness-app-ios/ContentView.swift:12-22 | each of the three screens is selected by some flag pair (three witnesses; the selection rule itself is stated by `Content.ScreenIff`) |
| Content.FinishSession | ness-app-ios/ContentView.swift:12-22 | from the onboarding screen, completing onboarding and then signing out ends on the auth screen with no token |
| Content.Rejection | ness-app-ios/Services/NessError.swift:52-60 | example value for the session scenario: a reply of type "auth" that decodes as ErrorResponse |
| Content.Welcome | ness-app-ios/Services/WebSocketService.swift:142 | example value for the session scenario: a reply of type "auth.success", which reaches the "auth" waiter and is no ErrorResponse |
| Onboarding.PrimaryLabel | ness-app-ios/Views/OnboardingView.swift:115 | "Complete" iff on the last page, otherwise "Next" |
| Onboarding.PrimaryEnabled | ness-app-ios/Views/OnboardingView.swift:125 | the primary button is enabled iff it is not the first page or the tag is non-empty |
| Onboarding.PrimaryDisabled | ness-app-ios/Views/OnboardingView.swift:125 | the button is disabled only on the first page, whose label is "Next"; it is never disabled on a later page |
| Onboarding.Progress | ness-app-ios/Views/OnboardingView.swift:22-28 | three segments; segment i is filled iff i <= the current step |
| Onboarding.ProgressCount | ness-app-ios/Views/OnboardingView.swift:23-25 | on page k exactly k+1 segments are filled |
| Onboarding.OnboardingView.constructor | ness-app-ios/Views/OnboardingView.swift:10-14 | first page, empty tag, "USD" and "USDC", not loading |
| Onboarding.OnboardingView.SwipeTo | ness-app-ios/Views/OnboardingView.swift:31 | the page view sets the step to one of the three pages |
| Onboarding.OnboardingView.EditTag | ness-app-ios/Views/OnboardingView.swift:45 | the text field sets the tag to the typed text |
| Onboarding.OnboardingView.PickFiat | ness-app-ios/Views/OnboardingView.swift:66-70 | the fiat picker sets the currency to one of "USD", "EUR", "GBP" |
| Onboarding.OnboardingView.PickStable | ness-app-ios/Views/OnboardingView.swift:89-93 | the stablecoin picker sets it to one of "USDC", "EURC" |
| Onboarding.OnboardingView.Back | ness-app-ios/Views/OnboardingView.swift:105-111 | offered only past the first page; one page back |
| Onboarding.OnboardingView.Primary | ness-app-ios/Views/OnboardingView.swift:115-125 | offered only when enabled; on the last page starts the completion without moving; elsewhere one page on; the step stays within 0..2 |
| Onboarding.OnboardingView.CompleteOnboarding | ness-app-ios/Views/OnboardingView.swift:132-134 | loading, with a completion task started |
| Onboarding.OnboardingView.RunCompletionTask | ness-app-ios/Views/OnboardingView.swift:134-141 | the auth manager gets the current tag, fiat and stablecoin, and loading ends |
| AddressFormat.ShortenAddress | ness-app-ios/Views/HomeView.swift:120-123 | an address of at most 12 characters unchanged; a longer one as its first 6 characters, "...", its last 4, 13 characters in all |
| AddressFormat.ShortenLength | ness-app-ios/Views/PaymentRequiredSheet.swift:75-78 | the result's length is the smaller of the address's length and 13 |
| AddressFormat.ShortenKeepsEnds | ness-app-ios/Views/TransactionListView.swift:61-64 | the result begins with the address's first characters and ends with its last ones |
| AddressFormat.ShortenIdempotent | ness-app-ios/Views/HomeView.swift:120-123 | shortening twice is shortening once |
| AddressFormat.ShortenFixpointIff | ness-app-ios/Views/HomeView.swift:120-123 | an address is shown unchanged iff it has at most 12 characters or is 13 long with "..." at positions 6 to 8 |
| AddressFormat.ShortenNotInjective | ness-app-ios/Views/HomeView.swift:122 | two different addresses can be shown the same way |
| HomeScreen.Recent | ness-app-ios/Views/HomeView.swift:51-59 | the placeholder iff there are no transactions; otherwise the first min(5, n) transactions, in order |
| HomeScreen.RecentInOrder | ness-app-ios/Views/HomeView.swift:57 | each of the first five transactions is shown at its own position |
| HomeScreen.RecentIgnoresTail | ness-app-ios/Views/HomeView.swift:57 | transactions after the fifth do not change what is shown |
| HomeScreen.TransactionIcon | ness-app-ios/Views/HomeView.swift:153-154 | "arrow.up.right" in orange iff the type is "transfer", otherwise purple "sparkles" |
| HomeScreen.BalanceCaption | ness-app-ios/Views/HomeView.swift:19 | no caption iff there are no wallets; otherwise exactly `shortenAddress` of the primary wallet's address: whole when short, else its first 6 characters, "...", and its last 4 |
| PaymentSheet.ToRow | ness-app-ios/Views/PaymentRequiredSheet.swift:32 | exactly `shortenAddress` of the payment address: whole when short, else its first 6 characters, "...", and its last 4, 13 in all |
| TransactionDetail.ExplorerUrl | ness-app-ios/Views/TransactionListView.swift:57-59 | "https://explorer.solana.com/tx/", then the signature, then "?cluster=devnet" |
| TransactionDetail.SignatureOf | ness-app-ios/Views/TransactionListView.swift:58 | whatever reads back as a signature comes from a string long enough to hold the link's prefix and suffix |
| TransactionDetail.SignatureOfExplorerUrl | ness-app-ios/Views/TransactionListView.swift:58 | the signature can be read back out of its link |
| TransactionDetail.ExplorerUrlOfSignature | ness-app-ios/Views/TransactionListView.swift:58 | whatever reads back as a signature is exactly that signature's link |
| TransactionDetail.ExplorerUrlInjective | ness-app-ios/Views/TransactionListView.swift:58 | different signatures get different links |
| TransactionDetail.ToRow | ness-app-ios/Views/TransactionListView.swift:35 | exactly `shortenAddress` of the destination address: whole when short, else its first 6 characters, "...", and its last 4, 13 in all |

## Left out

- Transport: `URLSession`, and the send, receive and cancel of `URLSessionWebSocketTask` (RFC 6455, close code 1001 "going away" from section 7.4.1) are outcomes given as parameters.
- Concurrency: the main actor, `Task { }`, `[weak self]` and `CheckedContinuation` suspension are not modelled. A waiter is an id and a resumption is a logged event. A caller whose waiter is never resumed simply stays suspended; the model shows this (`Stranded`) but does not model the hang itself.
- The window between `task.send` returning and the waiter being registered (`WebSocketService.swift:99-103`) is not modelled. A reply arriving in that window would find no waiter.
- JSON text and bytes: `JSONSerialization` and `JSONEncoder` work on text, the model on JSON values. A frame is its opaque bytes plus the string type Foundation would find in them. Decoding `WsResponse`, `WalletBalance` and `PaymentRequired` is part of the scripted reply.
- Json.Encode: floating-point numbers (`Double`) are not modelled, and neither is NSNumber bridging, which lets a Bool match the `Int` case.
- Floating point: `sol`, `amountSol` and `totalBalance` are `real` values carried unchanged. The `%.4f` formatting and the insufficientBalance message are left out.
- `NessError` messages (`errorDescription`) are a constant table and are left out. `networkError` wraps a foreign error, modelled by its description.
- Codable `CodingKeys` tables, `Date` and `UUID` fields of the records are left out.
- Handlers registered with `onMessage` are opaque ids; what they do with the data is not modelled.
- Auth.AuthManager.SimulateAuth: `Task.sleep` is left out, and so are the commented-out Privy steps.
- Auth.AuthManager.SimulateAuth: a reply that never comes, or whose type does not normalise to "auth", leaves `authenticate` suspended. That hang is not modelled, so the reply frame is required to be one that reaches the "auth" waiter.
- WebSocket.WebSocketService.AuthenticateAnswered: the same requirement on the reply frame. The frame is routed by `handleMessage` directly, not through a particular armed receive, and no other frame is interleaved before it.
- Json.EncodeRequest: a payload `JSONSerialization.data(withJSONObject:)` cannot serialise (`WebSocketService.swift:166`) raises an Objective-C exception, which ends the app instead of throwing. That crash is not modelled: the payload is required to be serialisable (`JsonCompatible`), and WebSocket.WebSocketService.Send carries the same requirement. The request builders' contracts show that every request the service builds meets it, `requestService` whenever its `params` are serialisable.
- Home.HomeViewModel.Load: the calls go through the view model's own service, which is never connected. The model represents each call by its outcome (`Home.Call`) instead of running the service's `send`.
- Home.HomeViewModel.RequestVideoGeneration: the `Task` it starts is modelled as run to completion.
- `showSend` and `showReceive` are set by the home view's buttons only and have no logic.
- `URL(string:)!` is not modelled. The explorer link is modelled as the string it is built from.
- Strings are sequences of characters. Grapheme clusters (`count`, `prefix`, `suffix`) and `String.capitalized` are not modelled.
- SwiftUI layout and styling, `SettingsView`, `AuthView`, the app entry point and `Item.swift` are not part of this model.
