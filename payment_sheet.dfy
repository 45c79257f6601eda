/** PaymentRequiredSheet: the rows describing an x402 payment offer. */
module PaymentSheet {

  import opened Models
  import opened AddressFormat

  /** The "To" row: the payment address, shortened. A short address is shown
      whole; a long one by its first 6 and last 4 characters around "...". */
  function ToRow(payment: PaymentRequired): (value: string)
    ensures var a := payment.paymentAddress;
      && |value| <= ShortLength && |value| <= |a|
      && (|a| <= MaxWhole ==> value == a)
      && (|a| > MaxWhole ==>
            && |value| == ShortLength && value[..HeadLength] == a[..HeadLength]
            && value[HeadLength..HeadLength + |Ellipsis|] == Ellipsis
            && value[|value| - TailLength..] == a[|a| - TailLength..])
    ensures value == ShortenAddress(payment.paymentAddress)
  {
    ShortenLength(payment.paymentAddress);
    ShortenAddress(payment.paymentAddress)
  }
}
