/** `shortenAddress`, written out identically in the balance card, the payment
    sheet and the transaction detail view: an address longer than 12 characters
    is shown as its first 6 characters, "...", and its last 4. */
module AddressFormat {

  /** Addresses of at most this many characters are shown whole. */
  const MaxWhole: nat := 12
  const HeadLength: nat := 6
  const TailLength: nat := 4
  const Ellipsis: string := "..."

  /** The length of every shortened address. */
  const ShortLength: nat := HeadLength + |Ellipsis| + TailLength

  function ShortenAddress(address: string): (shown: string)
    ensures |address| <= MaxWhole ==> shown == address
    ensures |address| > MaxWhole ==>
      && |shown| == ShortLength
      && shown[..HeadLength] == address[..HeadLength]
      && shown[HeadLength..HeadLength + |Ellipsis|] == Ellipsis
      && shown[HeadLength + |Ellipsis|..] == address[|address| - TailLength..]
  {
    if |address| <= MaxWhole then address
    else address[..HeadLength] + Ellipsis + address[|address| - TailLength..]
  }

  /** The shown text is never longer than the address, nor than 13 characters:
      its length is exactly the smaller of the two. */
  lemma ShortenLength(address: string)
    ensures |ShortenAddress(address)| == if |address| <= ShortLength then |address| else ShortLength
    ensures |ShortenAddress(address)| <= |address| && |ShortenAddress(address)| <= ShortLength
  {
  }

  /** Whatever the address, the shown text begins with the address's first
      characters and ends with its last ones (up to 6 and 4 of them). */
  lemma ShortenKeepsEnds(address: string)
    ensures var shown := ShortenAddress(address);
      var head := if |address| < HeadLength then |address| else HeadLength;
      var tail := if |address| < TailLength then |address| else TailLength;
      && shown[..head] == address[..head]
      && shown[|shown| - tail..] == address[|address| - tail..]
  {
  }

  /** Shortening twice is shortening once: the shown text is 13 characters long
      and so is shown whole. */
  lemma ShortenIdempotent(address: string)
    ensures ShortenAddress(ShortenAddress(address)) == ShortenAddress(address)
  {
    ShortenLength(address);
  }

  /** The addresses shown unchanged are exactly the short ones and the
      13-character ones that already carry "..." at positions 6 to 8. */
  lemma ShortenFixpointIff(address: string)
    ensures ShortenAddress(address) == address <==>
      |address| <= MaxWhole
      || (|address| == ShortLength && address[HeadLength..HeadLength + |Ellipsis|] == Ellipsis)
  {
    if |address| > MaxWhole && ShortenAddress(address) == address {
      ShortenLength(address);
    }
    if |address| == ShortLength && address[HeadLength..HeadLength + |Ellipsis|] == Ellipsis {
      var shown := ShortenAddress(address);
      assert shown == address by {
        assert |shown| == |address|;
        forall i | 0 <= i < |address| ensures shown[i] == address[i] {
          if i < HeadLength {
            assert shown[i] == shown[..HeadLength][i];
          } else if i < HeadLength + |Ellipsis| {
            assert shown[i] == shown[HeadLength..HeadLength + |Ellipsis|][i - HeadLength];
            assert address[i] == address[HeadLength..HeadLength + |Ellipsis|][i - HeadLength];
          } else {
            assert shown[i] == shown[HeadLength + |Ellipsis|..][i - HeadLength - |Ellipsis|];
          }
        }
      }
    }
  }

  /** Shortening forgets the middle: two different addresses can be shown the
      same way. */
  lemma ShortenNotInjective()
    ensures ShortenAddress("ABCDEF1234567WXYZ") == ShortenAddress("ABCDEF7654321WXYZ")
    ensures "ABCDEF1234567WXYZ" != "ABCDEF7654321WXYZ"
  {
    var a, b := "ABCDEF1234567WXYZ", "ABCDEF7654321WXYZ";
    assert a[6] != b[6];
    assert a[..HeadLength] == b[..HeadLength];
    assert a[|a| - TailLength..] == b[|b| - TailLength..];
  }
}
