/** HomeViewModel: the wallet screen's state, filled by three requests in
    sequence. Each request's reply is a scripted outcome: the typed payload the
    caller decodes, or the error that the call throws. */
module Home {

  import opened Wrappers
  import opened Errors
  import opened Models
  import opened Json
  import opened WebSocket

  /** The outcome of each request `load` can make. */
  datatype LoadScript = LoadScript(
    walletList: Result<seq<Wallet>, Failure>,
    transactionList: Result<seq<Transaction>, Failure>,
    balance: Result<WalletBalance, Failure>)

  /** What a request returns to its caller: without a task, `send` throws
      websocketDisconnected before anything else happens. */
  function Call<T>(connected: bool, reply: Result<T, Failure>): (r: Result<T, Failure>)
    ensures !connected ==> r == Failure(Ness(WebsocketDisconnected))
    ensures connected ==> r == reply
  {
    if connected then reply else Failure(Ness(WebsocketDisconnected))
  }

  /** Index of the first primary wallet, as `first(where:)` finds it. */
  function FirstPrimaryIndex(wallets: seq<Wallet>): (r: Option<nat>)
    ensures r.Some? ==> r.value < |wallets| && wallets[r.value].isPrimary
    ensures r.Some? ==> forall j | 0 <= j < r.value :: !wallets[j].isPrimary
    ensures r.None? ==> forall j | 0 <= j < |wallets| :: !wallets[j].isPrimary
  {
    if wallets == [] then None
    else if wallets[0].isPrimary then Some(0)
    else match FirstPrimaryIndex(wallets[1..])
      case None => None
      case Some(i) => Some(i + 1)
  }

  /** `primaryWallet`: the first wallet marked primary, or else the first wallet. */
  function PrimaryWallet(wallets: seq<Wallet>): (r: Option<Wallet>)
    ensures r.None? <==> |wallets| == 0
    ensures r.Some? && r.value.isPrimary ==>
      exists i | 0 <= i < |wallets| :: wallets[i] == r.value && forall j | 0 <= j < i :: !wallets[j].isPrimary
    ensures (exists i | 0 <= i < |wallets| :: wallets[i].isPrimary) ==> r.Some? && r.value.isPrimary
    ensures |wallets| > 0 && (forall i | 0 <= i < |wallets| :: !wallets[i].isPrimary) ==> r == Some(wallets[0])
  {
    match FirstPrimaryIndex(wallets)
    case Some(i) => Some(wallets[i])
    case None => if wallets == [] then None else Some(wallets[0])
  }

  /** The fields `load` assigns, and the requests it has made. */
  datatype HomeState = HomeState(
    wallets: seq<Wallet>,
    transactions: seq<Transaction>,
    totalBalance: real,
    error: Option<NessError>,
    requests: seq<WsRequest>)

  /** The state `load` ends in: "wallet.list", then "transaction.list", then
      (only with a primary wallet) "wallet.balance" for its address; the first
      failure stops the sequence, keeps what was already assigned, and is
      recorded as a NessError. */
  function LoadSpec(s: HomeState, connected: bool, script: LoadScript): (r: HomeState)
    ensures |s.requests| < |r.requests| <= |s.requests| + 3 && r.requests[..|s.requests|] == s.requests
    ensures r.requests[|s.requests|] == ListWalletsRequest()
    ensures r.error == s.error || r.error.Some?
  {
    var s1 := s.(requests := s.requests + [ListWalletsRequest()]);
    match Call(connected, script.walletList)
    case Failure(e) => s1.(error := Some(AsNessError(e)))
    case Success(ws) => LoadAfterWallets(s1.(wallets := ws), connected, script)
  }

  /** The rest of `load` once the wallets are assigned. */
  function LoadAfterWallets(s: HomeState, connected: bool, script: LoadScript): (r: HomeState)
    ensures r.wallets == s.wallets
    ensures |s.requests| < |r.requests| <= |s.requests| + 2 && r.requests[..|s.requests|] == s.requests
    ensures r.requests[|s.requests|] == ListTransactionsRequest(DefaultTransactionLimit)
    ensures r.error == s.error || r.error.Some?
  {
    var s2 := s.(requests := s.requests + [ListTransactionsRequest(DefaultTransactionLimit)]);
    match Call(connected, script.transactionList)
    case Failure(e) => s2.(error := Some(AsNessError(e)))
    case Success(txs) => LoadAfterTransactions(s2.(transactions := txs), connected, script)
  }

  /** The rest of `load` once the transactions are assigned. */
  function LoadAfterTransactions(s: HomeState, connected: bool, script: LoadScript): (r: HomeState)
    ensures r.wallets == s.wallets && r.transactions == s.transactions
    ensures |s.requests| <= |r.requests| <= |s.requests| + 1 && r.requests[..|s.requests|] == s.requests
    ensures |r.requests| == |s.requests| + 1 <==> |s.wallets| > 0
    ensures r.totalBalance == s.totalBalance || r.error == s.error
  {
    match PrimaryWallet(s.wallets)
    case None => s
    case Some(w) =>
      var s4 := s.(requests := s.requests + [WalletBalanceRequest(w.address)]);
      match Call(connected, script.balance)
      case Failure(e) => s4.(error := Some(AsNessError(e)))
      case Success(b) => s4.(totalBalance := b.sol)
  }

  /** The requests of `load`, in order: a prefix of wallet list, transaction
      list, balance of the primary wallet. */
  lemma LoadRequestOrder(s: HomeState, connected: bool, script: LoadScript)
    ensures var r := LoadSpec(s, connected, script);
      && |s.requests| < |r.requests| <= |s.requests| + 3
      && r.requests[..|s.requests|] == s.requests
      && r.requests[|s.requests|] == ListWalletsRequest()
      && (|r.requests| > |s.requests| + 1 ==> r.requests[|s.requests| + 1] == ListTransactionsRequest(DefaultTransactionLimit))
      && (|r.requests| > |s.requests| + 2 ==>
            PrimaryWallet(r.wallets).Some? && r.requests[|s.requests| + 2] == WalletBalanceRequest(PrimaryWallet(r.wallets).value.address))
  {
  }

  /** A failed step skips the later requests and keeps what the earlier steps
      assigned; its error is the thrown NessError, or unknown(description). */
  lemma LoadFailure(s: HomeState, connected: bool, script: LoadScript)
    ensures var r := LoadSpec(s, connected, script);
      var w := Call(connected, script.walletList);
      var t := Call(connected, script.transactionList);
      && (w.Failure? ==>
            r == s.(requests := s.requests + [ListWalletsRequest()], error := Some(AsNessError(w.error))))
      && (w.Success? && t.Failure? ==>
            && r.wallets == w.value && r.transactions == s.transactions && r.totalBalance == s.totalBalance
            && |r.requests| == |s.requests| + 2 && r.error == Some(AsNessError(t.error)))
      && (w.Success? && t.Success? && PrimaryWallet(w.value).Some? && Call(connected, script.balance).Failure? ==>
            && r.wallets == w.value && r.transactions == t.value && r.totalBalance == s.totalBalance
            && |r.requests| == |s.requests| + 3
            && r.error == Some(AsNessError(Call(connected, script.balance).error)))
  {
  }

  /** The balance is requested and assigned only for a primary wallet; with no
      wallets, `totalBalance` is untouched. */
  lemma LoadBalance(s: HomeState, connected: bool, script: LoadScript)
    ensures var r := LoadSpec(s, connected, script);
      && (r.totalBalance != s.totalBalance ==>
            connected && script.balance.Success? && r.totalBalance == script.balance.value.sol && |r.wallets| > 0)
      && (connected && script.walletList.Success? && script.walletList.value == [] ==>
            r.totalBalance == s.totalBalance && |r.requests| <= |s.requests| + 2)
  {
  }

  /** When every request succeeds, all three fields are assigned and the error
      is left as it was. */
  lemma LoadSuccess(s: HomeState, script: LoadScript)
    requires script.walletList.Success? && script.transactionList.Success? && script.balance.Success?
    ensures var r := LoadSpec(s, true, script);
      && r.wallets == script.walletList.value
      && r.transactions == script.transactionList.value
      && r.totalBalance == (if script.walletList.value == [] then s.totalBalance else script.balance.value.sol)
      && r.error == s.error
  {
  }

  /** On a service that has no task, `load` makes one request and ends with
      websocketDisconnected, whatever the server would have replied. */
  lemma LoadDisconnected(s: HomeState, script: LoadScript)
    ensures LoadSpec(s, false, script)
      == s.(requests := s.requests + [ListWalletsRequest()], error := Some(WebsocketDisconnected))
  {
  }

  class HomeViewModel {
    var wallets: seq<Wallet>
    var transactions: seq<Transaction>
    var totalBalance: real
    var isLoading: bool
    var error: Option<NessError>

    var showSend: bool
    var showReceive: bool
    var showPaymentRequired: bool
    var pendingPayment: Option<PaymentRequired>

    /** The view model's own service, never connected by anyone. */
    const webSocket: WebSocketService

    /** The requests this view model has asked its service to make. */
    ghost var requests: seq<WsRequest>

    ghost function State(): HomeState
      reads this
    {
      HomeState(wallets, transactions, totalBalance, error, requests)
    }

    constructor ()
      ensures fresh(webSocket) && webSocket.Valid() && webSocket.task.None?
      ensures wallets == [] && transactions == [] && totalBalance == 0.0 && !isLoading && error == None
      ensures !showSend && !showReceive && !showPaymentRequired && pendingPayment == None
      ensures requests == []
    {
      wallets, transactions, totalBalance, isLoading, error := [], [], 0.0, false, None;
      showSend, showReceive, showPaymentRequired, pendingPayment := false, false, false, None;
      webSocket := new WebSocketService();
      requests := [];
    }

    /** One request through the service, answered by the script. */
    method Request<T>(request: WsRequest, reply: Result<T, Failure>) returns (r: Result<T, Failure>)
      modifies this`requests
      ensures r == Call(webSocket.task.Some?, reply)
      ensures requests == old(requests) + [request]
    {
      requests := requests + [request];
      if webSocket.task.None? {
        return Failure(Ness(WebsocketDisconnected));
      }
      r := reply;
    }

    /** `load`. */
    method Load(script: LoadScript)
      modifies this`wallets, this`transactions, this`totalBalance, this`isLoading, this`error, this`requests
      ensures State() == LoadSpec(old(State()), webSocket.task.Some?, script)
      ensures !isLoading
    {
      ghost var connected := webSocket.task.Some?;
      ghost var start := State();
      isLoading := true;
      var walletList := Request(ListWalletsRequest(), script.walletList);
      if walletList.Failure? {
        error := Some(AsNessError(walletList.error));
        isLoading := false;
        return;
      }
      wallets := walletList.value;
      assert LoadSpec(start, connected, script) == LoadAfterWallets(State(), connected, script);
      var transactionList := Request(ListTransactionsRequest(DefaultTransactionLimit), script.transactionList);
      if transactionList.Failure? {
        error := Some(AsNessError(transactionList.error));
        isLoading := false;
        return;
      }
      transactions := transactionList.value;
      assert LoadSpec(start, connected, script) == LoadAfterTransactions(State(), connected, script);
      var primary := PrimaryWallet(wallets);
      if primary.Some? {
        var balance := Request(WalletBalanceRequest(primary.value.address), script.balance);
        if balance.Failure? {
          error := Some(AsNessError(balance.error));
          isLoading := false;
          return;
        }
        totalBalance := balance.value.sol;
      }
      isLoading := false;
    }

    /** `refresh` is `load`. */
    method Refresh(script: LoadScript)
      modifies this`wallets, this`transactions, this`totalBalance, this`isLoading, this`error, this`requests
      ensures State() == LoadSpec(old(State()), webSocket.task.Some?, script)
      ensures !isLoading
    {
      Load(script);
    }

    /** `requestVideoGeneration`, its task run to completion: asks for service
        "veo3-video-8s"; the offer is shown on success, only the error is set on
        failure. */
    method RequestVideoGeneration(reply: Result<PaymentRequired, Failure>)
      modifies this`requests, this`pendingPayment, this`showPaymentRequired, this`error
      ensures requests == old(requests) + [ServiceRequest("veo3-video-8s", map[])]
      ensures var r := Call(webSocket.task.Some?, reply);
        && (r.Success? ==> pendingPayment == Some(r.value) && showPaymentRequired && error == old(error))
        && (r.Failure? ==>
              error == Some(AsNessError(r.error)) && pendingPayment == old(pendingPayment)
              && showPaymentRequired == old(showPaymentRequired))
      ensures wallets == old(wallets) && transactions == old(transactions) && totalBalance == old(totalBalance)
      ensures isLoading == old(isLoading) && showSend == old(showSend) && showReceive == old(showReceive)
    {
      var payment := Request(ServiceRequest("veo3-video-8s", map[]), reply);
      if payment.Success? {
        pendingPayment := Some(payment.value);
        showPaymentRequired := true;
      } else {
        error := Some(AsNessError(payment.error));
      }
    }

    /** `confirmPayment`: hides the sheet and drops the offer, nothing else. */
    method ConfirmPayment()
      modifies this`showPaymentRequired, this`pendingPayment
      ensures !showPaymentRequired && pendingPayment == None
    {
      showPaymentRequired := false;
      pendingPayment := None;
    }
  }

  /** The view model's service is never connected, so loading always ends with
      websocketDisconnected and leaves the wallets as they were. */
  method FreshViewModelScenario(script: LoadScript)
  {
    var vm := new HomeViewModel();
    vm.Load(script);
    assert vm.error == Some(WebsocketDisconnected) && vm.wallets == [] && !vm.isLoading;
    vm.RequestVideoGeneration(Success(Models.PaymentRequired("addr", 0, 0.0, "SOL", "video", "veo3:1", 0)));
    assert !vm.showPaymentRequired && vm.pendingPayment == None;
  }
}
