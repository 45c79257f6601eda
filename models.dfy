/** The domain records the core hands to its callers. Identifiers and dates are
    foreign types and are left out; floating-point amounts are opaque reals. */
module Models {

  import opened Wrappers

  datatype Wallet = Wallet(
    privyWalletId: string,
    address: string,
    chainType: string,
    walletLabel: Option<string>,
    isPrimary: bool)

  datatype Transaction = Transaction(
    signature: string,
    txType: string,
    status: string,
    amountLamports: int,
    toAddress: string,
    description: Option<string>,
    serviceId: Option<string>)

  datatype NessUser = NessUser(
    privyUserId: string,
    email: Option<string>,
    tag: Option<string>,
    preferredFiat: string,
    preferredStable: string)

  datatype WalletBalance = WalletBalance(address: string, lamports: nat, sol: real)

  datatype PaymentRequired = PaymentRequired(
    paymentAddress: string,
    amountLamports: nat,
    amountSol: real,
    currency: string,
    description: string,
    resourceId: string,
    expiresAt: int)
}
