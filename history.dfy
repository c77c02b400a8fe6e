/** The wallet's transaction history: status derivation from the indexed
    HTLC events, the transformation of those events into transactions, the
    reclaimable-only view sorted by date, the refund guards and the status
    tooltips. `nowMs` is `Date.now()`, in milliseconds. */
module History {
  import opened Shared
  import Strings

  /** A `LogHTLCNew` entity as the history query returns it. */
  datatype HtlcNew = HtlcNew(
    id: string,
    contractId: string,
    sender: string,
    receiver: string,
    amount: nat,
    hashlock: string,
    timelock: int,
    timestamp: int)

  /** A `LogHTLCWithdraw` or `LogHTLCRefund` entity (id and contract id). */
  datatype SettleEvent = SettleEvent(id: string, contractId: string)

  /** The result of the history query for one account. */
  datatype QueryData = QueryData(
    sentTransactions: seq<HtlcNew>,
    receivedTransactions: seq<HtlcNew>,
    withdrawTransactions: seq<SettleEvent>,
    refundTransactions: seq<SettleEvent>)

  /** The lower-case status strings `getTransactionStatus` returns. */
  datatype DerivedStatus = StatusPending | StatusCompleted | StatusRefunded | StatusExpired

  function Created(data: QueryData): seq<HtlcNew>
  {
    data.sentTransactions + data.receivedTransactions
  }

  predicate IsRelevant(contractId: string, data: QueryData)
  {
    exists tx :: tx in Created(data) && tx.contractId == contractId
  }

  predicate HasSettleEvent(events: seq<SettleEvent>, contractId: string)
  {
    exists e :: e in events && e.contractId == contractId
  }

  /** `[...].find(tx => tx.contractId === contractId)`. */
  function FindCreated(txs: seq<HtlcNew>, contractId: string): (r: Option<HtlcNew>)
    ensures r.Some? ==> r.value in txs && r.value.contractId == contractId
    ensures r.None? <==> !(exists tx :: tx in txs && tx.contractId == contractId)
    ensures r.Some? ==> exists i :: 0 <= i < |txs| && txs[i] == r.value
                          && forall j :: 0 <= j < i ==> txs[j].contractId != contractId
  {
    if txs == [] then None
    else if txs[0].contractId == contractId then Some(txs[0])
    else
      var r := FindCreated(txs[1..], contractId);
      if r.Some? then
        var i :| 0 <= i < |txs[1..]| && txs[1..][i] == r.value
                 && forall j :: 0 <= j < i ==> txs[1..][j].contractId != contractId;
        assert txs[i + 1] == r.value;
        assert forall j :: 1 <= j < i + 1 ==> txs[j] == txs[1..][j - 1];
        r
      else r
  }

  /** `Number(timelock) < Date.now() / 1000`, exactly, with `now` in milliseconds. */
  predicate TimelockPassed(timelock: int, nowMs: int)
  {
    timelock * 1000 < nowMs
  }

  /** `getTransactionStatus`. */
  function GetTransactionStatus(contractId: string, data: QueryData, nowMs: int): (st: DerivedStatus)
    // Terminal ledger facts dominate: withdrawn, then refunded, then expiry.
    ensures IsRelevant(contractId, data) && HasSettleEvent(data.withdrawTransactions, contractId)
            ==> st == StatusCompleted
    ensures st == StatusCompleted ==> HasSettleEvent(data.withdrawTransactions, contractId)
    ensures st == StatusRefunded <==>
              IsRelevant(contractId, data) && !HasSettleEvent(data.withdrawTransactions, contractId)
              && HasSettleEvent(data.refundTransactions, contractId)
    ensures st == StatusExpired ==>
              !HasSettleEvent(data.withdrawTransactions, contractId) && !HasSettleEvent(data.refundTransactions, contractId)
    // A contract outside the account's created events is reported pending.
    ensures !IsRelevant(contractId, data) ==> st == StatusPending
  {
    if !IsRelevant(contractId, data) then StatusPending
    else if HasSettleEvent(data.withdrawTransactions, contractId) then StatusCompleted
    else if HasSettleEvent(data.refundTransactions, contractId) then StatusRefunded
    else
      var tx := FindCreated(Created(data), contractId);
      if tx.Some? && TimelockPassed(tx.value.timelock, nowMs) then StatusExpired
      else StatusPending
  }

  /** Expiry is strict and is measured against the first created event with the
      contract id: a timelock equal to the current second stays pending. */
  lemma ExpiryIsStrict(contractId: string, data: QueryData, nowMs: int)
    requires IsRelevant(contractId, data)
    requires !HasSettleEvent(data.withdrawTransactions, contractId)
    requires !HasSettleEvent(data.refundTransactions, contractId)
    ensures FindCreated(Created(data), contractId).Some?
    ensures GetTransactionStatus(contractId, data, nowMs) == StatusExpired
            <==> FindCreated(Created(data), contractId).value.timelock * 1000 < nowMs
  {
  }

  /** The status does not depend on the order in which the settle events were
      delivered, nor on duplicates among them. */
  lemma StatusIgnoresEventOrder(contractId: string, data: QueryData, w: seq<SettleEvent>, r: seq<SettleEvent>, nowMs: int)
    requires forall e :: e in w <==> e in data.withdrawTransactions
    requires forall e :: e in r <==> e in data.refundTransactions
    ensures GetTransactionStatus(contractId, data.(withdrawTransactions := w, refundTransactions := r), nowMs)
            == GetTransactionStatus(contractId, data, nowMs)
  {
    var data' := data.(withdrawTransactions := w, refundTransactions := r);
    assert HasSettleEvent(w, contractId) == HasSettleEvent(data.withdrawTransactions, contractId);
    assert HasSettleEvent(r, contractId) == HasSettleEvent(data.refundTransactions, contractId);
    assert Created(data') == Created(data);
  }

  /** `status.toUpperCase()` of a derived status. */
  function ToTxStatus(st: DerivedStatus): TxStatus
  {
    match st
    case StatusPending => Pending
    case StatusCompleted => Completed
    case StatusRefunded => Refunded
    case StatusExpired => Expired
  }

  /** `account ? account.toLowerCase() : ""`. */
  function NormalizedAddress(account: Option<string>): string
  {
    if account.Some? && account.value != "" then Strings.ToLower(account.value) else ""
  }

  /** The transformation of one created event into a transaction. */
  function ToTransaction(htlc: HtlcNew, data: QueryData, normalizedAddress: string, nowMs: int): Transaction
  {
    Transaction(
      status := ToTxStatus(GetTransactionStatus(htlc.contractId, data, nowMs)),
      date := htlc.timestamp * 1000,
      amount := htlc.amount as real / 10000000000.0,
      txHash := htlc.id,
      contractId := htlc.contractId,
      hashLockTimestamp := htlc.timelock,
      lnInvoice := "",
      userAddress := htlc.sender,
      transactionType := if Strings.ToLower(htlc.sender) == normalizedAddress then Sent else Received)
  }

  /** The effect that turns the query result into the stored transaction list. */
  function Transform(data: QueryData, account: Option<string>, nowMs: int): (txs: seq<Transaction>)
    ensures |txs| == |Created(data)|
    ensures forall i :: 0 <= i < |txs| ==>
              txs[i].contractId == Created(data)[i].contractId
              && txs[i].txHash == Created(data)[i].id
              && txs[i].status == ToTxStatus(GetTransactionStatus(Created(data)[i].contractId, data, nowMs))
              && (txs[i].transactionType == Sent
                  <==> Strings.ToLower(Created(data)[i].sender) == NormalizedAddress(account))
  {
    var all := Created(data);
    seq(|all|, i requires 0 <= i < |all| => ToTransaction(all[i], data, NormalizedAddress(account), nowMs))
  }

  /** Inside the transformation every contract id is relevant, so the status
      is never the fallback "pending" of an unknown id, and a withdrawn one is
      completed even when its timelock has passed. */
  lemma TransformWithdrawnIsCompleted(data: QueryData, account: Option<string>, nowMs: int, i: nat)
    requires i < |Created(data)|
    requires HasSettleEvent(data.withdrawTransactions, Created(data)[i].contractId)
    ensures Transform(data, account, nowMs)[i].status == Completed
  {
    assert Created(data)[i] in Created(data);
  }

  /** The direction is decided case-insensitively on both sides. */
  lemma DirectionIgnoresCase(htlc: HtlcNew, data: QueryData, account: string, nowMs: int)
    requires account != ""
    requires Strings.ToLower(htlc.sender) == Strings.ToLower(account)
    ensures ToTransaction(htlc, data, NormalizedAddress(Some(account)), nowMs).transactionType == Sent
  {
  }

  predicate Reclaimable(tx: Transaction)
  {
    tx.transactionType == Sent && (tx.status == Expired || tx.status == Failed)
  }

  /** `txs.filter(Reclaimable)`: every reclaimable transaction as often as it
      occurs, and nothing else. */
  function FilterReclaimable(txs: seq<Transaction>): (r: seq<Transaction>)
    ensures forall t :: multiset(r)[t] == if Reclaimable(t) then multiset(txs)[t] else 0
    ensures |r| <= |txs|
  {
    if txs == [] then []
    else
      assert txs == [txs[0]] + txs[1..];
      if Reclaimable(txs[0]) then [txs[0]] + FilterReclaimable(txs[1..])
      else FilterReclaimable(txs[1..])
  }

  /** Most recent first, as `sort((a, b) => b.date - a.date)` orders them. */
  ghost predicate SortedByDateDesc(s: seq<Transaction>)
  {
    forall i, j :: 0 <= i < j < |s| ==> s[i].date >= s[j].date
  }

  /** Inserts `x` before the first element that is not newer than it. */
  function InsertByDate(x: Transaction, s: seq<Transaction>): (r: seq<Transaction>)
    requires SortedByDateDesc(s)
    ensures SortedByDateDesc(r)
    ensures multiset(r) == multiset(s) + multiset{x}
    ensures |r| == |s| + 1
    ensures r != [] && (r[0] == x || (s != [] && r[0] == s[0]))
  {
    if s == [] || x.date >= s[0].date then [x] + s
    else
      var rest := InsertByDate(x, s[1..]);
      assert s == [s[0]] + s[1..];
      [s[0]] + rest
  }

  /** The copy-and-sort of `getFilteredTransactions`; an element comes before
      the later elements of equal date, as in JavaScript's stable sort. */
  function SortByDateDesc(s: seq<Transaction>): (r: seq<Transaction>)
    ensures SortedByDateDesc(r)
    ensures multiset(r) == multiset(s)
    ensures |r| == |s|
  {
    if s == [] then []
    else
      assert s == [s[0]] + s[1..];
      InsertByDate(s[0], SortByDateDesc(s[1..]))
  }

  /** `getFilteredTransactions`: all transactions, or only the reclaimable
      ones, newest first; the stored list itself is a value and stays as it is. */
  function GetFilteredTransactions(stored: seq<Transaction>, showReclaimableOnly: bool): (r: seq<Transaction>)
    ensures SortedByDateDesc(r)
    ensures !showReclaimableOnly ==> multiset(r) == multiset(stored)
    ensures showReclaimableOnly ==>
              forall t :: multiset(r)[t] == if Reclaimable(t) then multiset(stored)[t] else 0
    ensures |r| <= |stored|
  {
    if showReclaimableOnly then SortByDateDesc(FilterReclaimable(stored)) else SortByDateDesc(stored)
  }

  /** In reclaimable-only mode a transaction is listed iff it is reclaimable. */
  lemma ReclaimableViewMembers(stored: seq<Transaction>, t: Transaction)
    ensures t in GetFilteredTransactions(stored, true) <==> t in stored && Reclaimable(t)
  {
    var r := GetFilteredTransactions(stored, true);
    assert t in r <==> multiset(r)[t] > 0;
    assert t in stored <==> multiset(stored)[t] > 0;
  }

  /** Where `refund` stops, or the contract it submits the refund for. */
  datatype RefundDecision =
    | NotRefundable        // status neither EXPIRED nor FAILED
    | NoContractId
    | TimelockNotReached   // `hashLockTimestamp > Date.now() / 1000`
    | NoContractHandle
    | RefundSubmitted(contractId: string)

  /** `initiateRefund` on a transaction followed by `refund`'s guards. */
  function InitiateRefund(tx: Transaction, nowMs: int, hasContract: bool): (d: RefundDecision)
    ensures d.RefundSubmitted? <==>
              (tx.status == Expired || tx.status == Failed) && tx.contractId != ""
              && tx.hashLockTimestamp * 1000 <= nowMs && hasContract
    ensures d.RefundSubmitted? ==> d.contractId == tx.contractId
    ensures !(tx.status == Expired || tx.status == Failed) ==> d == NotRefundable
  {
    if !(tx.status == Expired || tx.status == Failed) then NotRefundable
    else if tx.contractId == "" then NoContractId
    else if tx.hashLockTimestamp * 1000 > nowMs then TimelockNotReached
    else if !hasContract then NoContractHandle
    else RefundSubmitted(tx.contractId)
  }

  /** The refund button of row `row` of the displayed list, as written: the
      handler indexes the stored list, not the displayed one. */
  function RefundFromRowAsWritten(stored: seq<Transaction>, showReclaimableOnly: bool, row: nat,
                                  nowMs: int, hasContract: bool): (d: RefundDecision)
    requires row < |GetFilteredTransactions(stored, showReclaimableOnly)|
    ensures d.RefundSubmitted? ==> d.contractId == stored[row].contractId
    ensures d.RefundSubmitted? <==>
              (stored[row].status == Expired || stored[row].status == Failed) && stored[row].contractId != ""
              && stored[row].hashLockTimestamp * 1000 <= nowMs && hasContract
  {
    InitiateRefund(stored[row], nowMs, hasContract)
  }

  /** The refund button of row `row`, acting on the transaction displayed in that row. */
  function RefundFromRow(stored: seq<Transaction>, showReclaimableOnly: bool, row: nat,
                         nowMs: int, hasContract: bool): (d: RefundDecision)
    requires row < |GetFilteredTransactions(stored, showReclaimableOnly)|
    ensures d.RefundSubmitted? ==>
              d.contractId == GetFilteredTransactions(stored, showReclaimableOnly)[row].contractId
    ensures d.RefundSubmitted? <==>
              var shown := GetFilteredTransactions(stored, showReclaimableOnly)[row];
              (shown.status == Expired || shown.status == Failed) && shown.contractId != ""
              && shown.hashLockTimestamp * 1000 <= nowMs && hasContract
  {
    InitiateRefund(GetFilteredTransactions(stored, showReclaimableOnly)[row], nowMs, hasContract)
  }

  /** An older expired payment A and a newer pending one B: the view lists B
      then A, so A's button is on row 1, but row 1 of the stored list is B and
      nothing is refunded. */
  lemma RefundRowMismatch()
    ensures var a := Transaction(Expired, 1000, 1.0, "0xa", "0xc1", 1, "", "0xs", Sent);
            var b := Transaction(Pending, 2000, 1.0, "0xb", "0xc2", 9, "", "0xs", Sent);
            RefundFromRowAsWritten([a, b], false, 1, 5000, true) == NotRefundable
            && RefundFromRow([a, b], false, 1, 5000, true) == RefundSubmitted("0xc1")
  {
    var a := Transaction(Expired, 1000, 1.0, "0xa", "0xc1", 1, "", "0xs", Sent);
    var b := Transaction(Pending, 2000, 1.0, "0xb", "0xc2", 9, "", "0xs", Sent);
    assert SortByDateDesc([b]) == [b];
    assert [a, b][1..] == [b];
    assert SortByDateDesc([a, b]) == [b, a];
  }

  /** `getTooltipText`; `redeemableAt` is the locale rendering of the
      timelock, which the model does not compute. */
  function TooltipText(tx: Transaction, redeemableAt: string): (text: string)
    ensures text == "" <==> tx.status == Relayed
    ensures tx.status == Expired ==> text == "Transaction expired: You can initiate a refund"
    ensures tx.status == Failed ==> text == "Transaction failed: Redeemable at " + redeemableAt
  {
    match tx.status
    case Pending => "Waiting for the transaction to be included in a block"
    case Completed => "Expand for more details"
    case Failed => "Transaction failed: Redeemable at " + redeemableAt
    case Refunded => "Transaction refunded"
    case Cached => "Waiting for the transaction"
    case Expired => "Transaction expired: You can initiate a refund"
    case Relayed => ""
  }
}
