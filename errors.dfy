/** The application's error enum, and the errors that reach it from foreign code. */
module Errors {

  /** An error thrown by Foundation or the transport (URLError, DecodingError, ...),
      known to the model only by its localized description. */
  datatype ForeignError = ForeignError(description: string)

  /** NessError, case for case. Amounts are opaque reals. */
  datatype NessError =
    | Unauthorized
    | MfaRequired
    | UserNotFound(userId: string)
    | WalletNotFound(address: string)
    | InsufficientBalance(required: real, available: real)
    | PaymentRequired(service: string)
    | NetworkError(cause: ForeignError)
    | PrivyError(message: string)
    | SolanaError(message: string)
    | WebsocketDisconnected
    | InvalidResponse
    | Unknown(message: string)

  /** Whatever a `throws` call can throw: a NessError or some other Error. */
  datatype Failure = Ness(error: NessError) | Foreign(cause: ForeignError)

  /** `error as? NessError ?? .unknown(error.localizedDescription)`. */
  function AsNessError(f: Failure): (e: NessError)
    ensures f.Ness? ==> e == f.error
    ensures f.Foreign? ==> e == Unknown(f.cause.description)
  {
    match f
    case Ness(e) => e
    case Foreign(c) => Unknown(c.description)
  }
}
