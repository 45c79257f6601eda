/** TransactionDetailView: the "To" row and the Solana Explorer link of one
    transaction. */
module TransactionDetail {

  import opened Wrappers
  import opened Models
  import opened AddressFormat

  const ExplorerPrefix: string := "https://explorer.solana.com/tx/"
  const ExplorerSuffix: string := "?cluster=devnet"

  /** The explorer link's text: the devnet page of the signature. */
  function ExplorerUrl(signature: string): (url: string)
    ensures |url| == |ExplorerPrefix| + |signature| + |ExplorerSuffix|
    ensures url[..|ExplorerPrefix|] == ExplorerPrefix
    ensures url[|ExplorerPrefix|..|url| - |ExplorerSuffix|] == signature
    ensures url[|url| - |ExplorerSuffix|..] == ExplorerSuffix
  {
    ExplorerPrefix + signature + ExplorerSuffix
  }

  /** Reading the signature back out of an explorer link, when it is one. */
  function SignatureOf(url: string): (signature: Option<string>)
    ensures signature.Some? ==> |url| >= |ExplorerPrefix| + |ExplorerSuffix|
  {
    if |url| >= |ExplorerPrefix| + |ExplorerSuffix|
       && url[..|ExplorerPrefix|] == ExplorerPrefix
       && url[|url| - |ExplorerSuffix|..] == ExplorerSuffix
    then Some(url[|ExplorerPrefix|..|url| - |ExplorerSuffix|])
    else None
  }

  /** Every link gives back its signature. */
  lemma SignatureOfExplorerUrl(signature: string)
    ensures SignatureOf(ExplorerUrl(signature)) == Some(signature)
  {
  }

  /** Whatever reads back as a signature is that signature's link. */
  lemma ExplorerUrlOfSignature(url: string)
    requires SignatureOf(url).Some?
    ensures ExplorerUrl(SignatureOf(url).value) == url
  {
    var p, s := |ExplorerPrefix|, |ExplorerSuffix|;
    var signature := SignatureOf(url).value;
    assert url == url[..p] + url[p..|url| - s] + url[|url| - s..];
  }

  /** Different transactions get different links. */
  lemma ExplorerUrlInjective(a: string, b: string)
    requires ExplorerUrl(a) == ExplorerUrl(b)
    ensures a == b
  {
    SignatureOfExplorerUrl(a);
    SignatureOfExplorerUrl(b);
  }

  /** The "To" row: the destination address, shortened. */
  function ToRow(transaction: Transaction): (value: string)
    ensures var a := transaction.toAddress;
      && |value| <= ShortLength && |value| <= |a|
      && (|a| <= MaxWhole ==> value == a)
      && (|a| > MaxWhole ==>
            && |value| == ShortLength && value[..HeadLength] == a[..HeadLength]
            && value[HeadLength..HeadLength + |Ellipsis|] == Ellipsis
            && value[|value| - TailLength..] == a[|a| - TailLength..])
    ensures value == ShortenAddress(transaction.toAddress)
  {
    ShortenLength(transaction.toAddress);
    ShortenAddress(transaction.toAddress)
  }
}
