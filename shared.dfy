/** Types shared by the relay server and the wallet front end: the HTLC
    record read from the ledger, the relay messages, the message kinds and the
    wallet's transaction view. */
module Shared {

  datatype Option<+T> = None | Some(value: T)

  /** The message kinds of the shared `KIND` enumeration that the core looks at;
      every other kind is `OtherKind`. */
  datatype Kind = RelayRequestKind | RelayResponseKind | HodlResKind | InvoiceSendKind | OtherKind

  /** One HTLC as the ledger returns it for a contract id. */
  datatype ContractDetails = ContractDetails(
    sender: string,
    receiver: string,
    amount: nat,
    hashlock: string,
    timelock: int,
    withdrawn: bool,
    refunded: bool)

  /** Body of a claim sent to the relay server; a field missing from the body
      is the empty string. */
  datatype RelayRequest = RelayRequest(kind: Kind, contractId: string, preimage: string)

  /** The success answer of the relay server. */
  datatype RelayResponse = RelayResponse(kind: Kind, status: string, txHash: string, contractId: string)

  /** Lifecycle status of a transaction in the wallet. */
  datatype TxStatus = Pending | Failed | Completed | Refunded | Relayed | Cached | Expired

  datatype TxType = Sent | Received

  /** The wallet's view of one HTLC. `date` is the creation time in
      milliseconds since the epoch (what `new Date(date).getTime()` gives back). */
  datatype Transaction = Transaction(
    status: TxStatus,
    date: int,
    amount: real,
    txHash: string,
    contractId: string,
    hashLockTimestamp: int,
    lnInvoice: string,
    userAddress: string,
    transactionType: TxType)
}
