/** HomeView: the balance card's address caption, the Recent Activity list and
    the icon of a transaction row. */
module HomeScreen {

  import opened Wrappers
  import opened Models
  import opened Home
  import opened AddressFormat

  /** Recent Activity shows at most this many transactions. */
  const RecentLimit: nat := 5

  /** What the Recent Activity section shows: the "No transactions yet"
      placeholder, or a row per transaction. */
  datatype RecentActivity = NoTransactions | Rows(shown: seq<Transaction>)

  /** `transactions.isEmpty` then the placeholder, else `prefix(5)`. */
  function Recent(transactions: seq<Transaction>): (v: RecentActivity)
    ensures v.NoTransactions? <==> |transactions| == 0
    ensures v.Rows? ==>
      && 0 < |v.shown| <= RecentLimit && |v.shown| <= |transactions|
      && (|v.shown| == RecentLimit || |v.shown| == |transactions|)
      && v.shown == transactions[..|v.shown|]
  {
    if |transactions| == 0 then NoTransactions
    else if |transactions| <= RecentLimit then Rows(transactions)
    else Rows(transactions[..RecentLimit])
  }

  /** Every shown row is the transaction at the same position of the list,
      and the first transactions are shown before any later one. */
  lemma RecentInOrder(transactions: seq<Transaction>, i: nat)
    requires i < |transactions| && i < RecentLimit
    ensures Recent(transactions).Rows? && i < |Recent(transactions).shown|
    ensures Recent(transactions).shown[i] == transactions[i]
  {
  }

  /** Adding transactions past the fifth does not change what is shown. */
  lemma RecentIgnoresTail(transactions: seq<Transaction>, later: seq<Transaction>)
    requires |transactions| >= RecentLimit
    ensures Recent(transactions + later) == Recent(transactions)
  {
    assert (transactions + later)[..RecentLimit] == transactions[..RecentLimit];
  }

  datatype Tint = Orange | Purple

  /** The symbol and colour of a transaction row's icon. */
  datatype Icon = Icon(symbol: string, tint: Tint)

  /** A transfer is an orange arrow; every other kind is purple sparkles. */
  function TransactionIcon(txType: string): (icon: Icon)
    ensures icon.symbol == "arrow.up.right" <==> txType == "transfer"
    ensures icon.symbol == "sparkles" <==> txType != "transfer"
    ensures icon.tint == Orange <==> txType == "transfer"
  {
    if txType == "transfer" then Icon("arrow.up.right", Orange) else Icon("sparkles", Purple)
  }

  /** The balance card's caption: the primary wallet's address, shortened;
      no caption without wallets. */
  function BalanceCaption(wallets: seq<Wallet>): (caption: Option<string>)
    ensures caption.None? <==> |wallets| == 0
    ensures caption.Some? ==> |caption.value| <= ShortLength
    ensures caption.Some? ==>
      var address := PrimaryWallet(wallets).value.address;
      && (|address| <= MaxWhole ==> caption.value == address)
      && (|address| > MaxWhole ==>
            && |caption.value| == ShortLength
            && caption.value[..HeadLength] == address[..HeadLength]
            && caption.value[HeadLength..HeadLength + |Ellipsis|] == Ellipsis
            && caption.value[HeadLength + |Ellipsis|..] == address[|address| - TailLength..])
    ensures caption.Some? ==> caption == Some(ShortenAddress(PrimaryWallet(wallets).value.address))
  {
    match PrimaryWallet(wallets)
    case None => None
    case Some(w) => ShortenLength(w.address); Some(ShortenAddress(w.address))
  }
}
