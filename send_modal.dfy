/** The send flow of the wallet: reading a Lightning invoice, locking funds
    in a new HTLC for it, and following the payment through its steps
    (1 review, 2 submitted, 3 locked, 4 done). */
module SendModal {
  import opened Shared

  /** The default liquidity provider address, used when none is configured. */
  const DefaultLspAddress := "0x7A02Bb41bBBd306A8E05d407928eaACeDF9c9395"

  /** Seconds the HTLC may be locked at most: ten minutes. */
  const MaxLockSeconds := 600

  /** One tag of a decoded invoice. */
  datatype Tag = Tag(tagName: string, data: string)

  /** What the invoice decoder gives; an absent amount or expiry is 0. */
  datatype Decoded = Decoded(satoshis: nat, timeExpireDate: nat, tags: seq<Tag>)

  datatype DecodeResult = DecodeOk(decoded: Decoded) | DecodeFailed

  /** The invoice the modal works on (`lnInvoiceRef.current`). */
  datatype PaymentRequest = PaymentRequest(satoshis: nat, timeExpireDate: nat, paymentHash: string, lnInvoice: string)

  /** The `newContract` call the Pay button makes. */
  datatype NewContractCall = NewContractCall(receiver: string, hashlock: string, timelock: int, value: nat)

  /** The message sent to the server once the lock transaction is mined. */
  datatype InvoiceSend = InvoiceSend(contractId: string, kind: Kind, lnInvoice: Option<string>, txHash: Option<string>)

  datatype Toast = SuccessToast(text: string) | ErrorToast(text: string)

  /** `getMinTimelock`, with `now` the current time in whole seconds. */
  function GetMinTimelock(now: int, invoiceExpiry: int): (t: int)
    ensures t <= now + MaxLockSeconds && t <= invoiceExpiry
    ensures t == now + MaxLockSeconds || t == invoiceExpiry
  {
    if now + MaxLockSeconds < invoiceExpiry then now + MaxLockSeconds else invoiceExpiry
  }

  /** `getPaymentHash`: "0x" and the data of the first "payment_hash" tag. */
  function GetPaymentHash(tags: seq<Tag>): (r: Option<string>)
    ensures r.None? <==> forall i :: 0 <= i < |tags| ==> tags[i].tagName != "payment_hash"
    ensures r.Some? ==> exists i :: 0 <= i < |tags| && tags[i].tagName == "payment_hash"
                          && r.value == "0x" + tags[i].data
                          && forall j :: 0 <= j < i ==> tags[j].tagName != "payment_hash"
  {
    if tags == [] then None
    else if tags[0].tagName == "payment_hash" then Some("0x" + tags[0].data)
    else
      var r := GetPaymentHash(tags[1..]);
      if r.Some? then
        var i :| 0 <= i < |tags[1..]| && tags[1..][i].tagName == "payment_hash"
                 && r.value == "0x" + tags[1..][i].data
                 && forall j :: 0 <= j < i ==> tags[1..][j].tagName != "payment_hash";
        assert tags[i + 1] == tags[1..][i];
        assert forall j :: 1 <= j < i + 1 ==> tags[j] == tags[1..][j - 1];
        r
      else
        assert forall i :: 1 <= i < |tags| ==> tags[i] == tags[1..][i - 1];
        r
  }

  /** The invoice `handleInvoiceChange` records, if any: it needs an amount,
      a payment hash and an expiry. */
  function AcceptInvoice(text: string, result: DecodeResult): (r: Option<PaymentRequest>)
    ensures r.Some? <==> result.DecodeOk? && result.decoded.satoshis != 0
                         && GetPaymentHash(result.decoded.tags).Some? && result.decoded.timeExpireDate != 0
    ensures r.Some? ==> r.value.lnInvoice == text && r.value.satoshis == result.decoded.satoshis
                        && r.value.timeExpireDate == result.decoded.timeExpireDate
                        && r.value.paymentHash == GetPaymentHash(result.decoded.tags).value
  {
    match result
    case DecodeFailed => None
    case DecodeOk(d) =>
      var hash := GetPaymentHash(d.tags);
      if d.satoshis == 0 || hash.None? || d.timeExpireDate == 0 then None
      else Some(PaymentRequest(d.satoshis, d.timeExpireDate, hash.value, text))
  }

  /** The latest transaction is the one for the recorded invoice. */
  predicate Tracks(transactions: seq<Transaction>, request: Option<PaymentRequest>)
  {
    |transactions| > 0 && request.Some? && transactions[0].lnInvoice == request.value.lnInvoice
  }

  /** The state of one `SendModal`. `closeRequests` counts `onClose` calls;
      `closeScheduled` says a delayed `cleanAndClose` was set up. */
  class SendModalState {
    var invoice: string
    var request: Option<PaymentRequest>
    var txHash: Option<string>
    var contractId: Option<string>
    var processingPayment: bool
    var activeStep: nat
    var closeRequests: nat
    var closeScheduled: bool
    var toasts: seq<Toast>
    var contractCalls: seq<NewContractCall>
    var outbox: seq<InvoiceSend>

    ghost predicate Valid()
      reads this
    {
      1 <= activeStep <= 4
    }

    constructor ()
      ensures Valid()
      ensures invoice == "" && request == None && txHash == None && contractId == None
      ensures !processingPayment && activeStep == 1 && closeRequests == 0 && !closeScheduled
      ensures toasts == [] && contractCalls == [] && outbox == []
    {
      invoice := "";
      request := None;
      txHash := None;
      contractId := None;
      processingPayment := false;
      activeStep := 1;
      closeRequests := 0;
      closeScheduled := false;
      toasts := [];
      contractCalls := [];
      outbox := [];
    }

    /** `cleanAndClose`: the step goes back to 1 and the input is cleared;
        the recorded invoice and the hash survive while a payment is processed. */
    method CleanAndClose()
      requires Valid()
      modifies this`request, this`txHash, this`invoice, this`contractId, this`activeStep, this`closeRequests
      ensures Valid()
      ensures activeStep == 1 && invoice == "" && contractId == None
      ensures closeRequests == old(closeRequests) + 1
      ensures !processingPayment ==> request == None && txHash == None
      ensures processingPayment ==> request == old(request) && txHash == old(txHash)
    {
      if !processingPayment {
        request := None;
        txHash := None;
      }
      invoice := "";
      contractId := None;
      activeStep := 1;
      closeRequests := closeRequests + 1;
    }

    /** `handleInvoiceChange`, given what the decoder made of the text. */
    method HandleInvoiceChange(text: string, result: DecodeResult)
      modifies this`invoice, this`request
      ensures invoice == text
      ensures AcceptInvoice(text, result).Some? ==> request == AcceptInvoice(text, result)
      ensures AcceptInvoice(text, result).None? ==> request == old(request)
    {
      invoice := text;
      var accepted := AcceptInvoice(text, result);
      if accepted.Some? {
        request := accepted;
      }
    }

    /** The end of a payment: step 4, no longer processing, and either a
        delayed close (modal open) or the invoice forgotten (modal closed). */
    method Finish(isOpen: bool, toast: Toast)
      requires Valid()
      modifies this`activeStep, this`processingPayment, this`toasts, this`closeScheduled, this`request, this`txHash
      ensures Valid()
      ensures activeStep == 4 && !processingPayment && toasts == old(toasts) + [toast]
      ensures isOpen ==> closeScheduled && request == old(request) && txHash == old(txHash)
      ensures !isOpen ==> closeScheduled == old(closeScheduled) && request == None && txHash == None
    {
      activeStep := 4;
      processingPayment := false;
      toasts := toasts + [toast];
      if isOpen {
        closeScheduled := true;
      } else {
        request := None;
        txHash := None;
      }
    }

    /** The effect on the transaction list: only the newest transaction, and
        only when it is for the recorded invoice, moves the steps. */
    method OnTransactions(transactions: seq<Transaction>, isOpen: bool)
      requires Valid()
      modifies this`activeStep, this`processingPayment, this`toasts, this`closeScheduled, this`request, this`txHash
      ensures Valid()
      ensures !Tracks(transactions, old(request)) ==>
                activeStep == old(activeStep) && processingPayment == old(processingPayment)
                && toasts == old(toasts) && request == old(request) && txHash == old(txHash)
                && closeScheduled == old(closeScheduled)
      ensures Tracks(transactions, old(request)) && transactions[0].status == Pending ==>
                activeStep == (if transactions[0].contractId != "" then 3 else old(activeStep))
                && processingPayment == old(processingPayment) && toasts == old(toasts)
                && request == old(request) && txHash == old(txHash) && closeScheduled == old(closeScheduled)
      ensures Tracks(transactions, old(request)) && transactions[0].status in {Completed, Failed} ==>
                activeStep == 4 && !processingPayment
                && toasts == old(toasts) + [if transactions[0].status == Completed
                                            then SuccessToast("Payment completed successfully!")
                                            else ErrorToast("Payment failed")]
                && (isOpen ==> closeScheduled && request == old(request) && txHash == old(txHash))
                && (!isOpen ==> closeScheduled == old(closeScheduled) && request == None && txHash == None)
      ensures Tracks(transactions, old(request)) && transactions[0].status !in {Pending, Completed, Failed} ==>
                activeStep == old(activeStep) && processingPayment == old(processingPayment)
                && toasts == old(toasts) && request == old(request) && txHash == old(txHash)
                && closeScheduled == old(closeScheduled)
    {
      if |transactions| == 0 {
        return;
      }
      var last := transactions[0];
      if request.None? || last.lnInvoice != request.value.lnInvoice {
        return;
      }
      if last.status == Pending && last.contractId != "" {
        activeStep := 3;
      }
      if last.status == Completed {
        Finish(isOpen, SuccessToast("Payment completed successfully!"));
      }
      if last.status == Failed {
        Finish(isOpen, ErrorToast("Payment failed"));
      }
    }

    /** The effect on the server's data message: the withdrawal notice ends the payment. */
    method OnData(status: string, message: string, isOpen: bool)
      requires Valid()
      modifies this`activeStep, this`processingPayment, this`toasts, this`closeScheduled, this`request, this`txHash
      ensures Valid()
      ensures status == "success" && message == "Invoice withdrawn successfully." ==>
                activeStep == 4 && !processingPayment
                && toasts == old(toasts) + [SuccessToast("Payment completed successfully!")]
                && (isOpen ==> closeScheduled && request == old(request) && txHash == old(txHash))
                && (!isOpen ==> closeScheduled == old(closeScheduled) && request == None && txHash == None)
      ensures !(status == "success" && message == "Invoice withdrawn successfully.") ==>
                activeStep == old(activeStep) && processingPayment == old(processingPayment)
                && toasts == old(toasts) && request == old(request) && txHash == old(txHash)
                && closeScheduled == old(closeScheduled)
    {
      if status == "success" && message == "Invoice withdrawn successfully." {
        Finish(isOpen, SuccessToast("Payment completed successfully!"));
      }
    }

    /** `submitPayment`: without a contract handle or a recorded invoice
        nothing happens; otherwise the HTLC is requested, locked to the
        invoice's hash until `GetMinTimelock`, for `satoshis * weiPerSat`. */
    method SubmitPayment(hasContract: bool, lspAddress: Option<string>, now: int, weiPerSat: nat)
      modifies this`processingPayment, this`contractCalls
      ensures !hasContract || old(request).None? ==>
                processingPayment == old(processingPayment) && contractCalls == old(contractCalls)
      ensures hasContract && old(request).Some? ==>
                processingPayment
                && contractCalls == old(contractCalls) + [NewContractCall(
                     if lspAddress.Some? then lspAddress.value else DefaultLspAddress,
                     request.value.paymentHash,
                     GetMinTimelock(now, request.value.timeExpireDate),
                     request.value.satoshis * weiPerSat)]
    {
      if !hasContract {
        return;
      }
      if request.None? {
        return;
      }
      processingPayment := true;
      var receiver := if lspAddress.Some? then lspAddress.value else DefaultLspAddress;
      var r := request.value;
      contractCalls := contractCalls + [NewContractCall(receiver, r.paymentHash,
                                                        GetMinTimelock(now, r.timeExpireDate), r.satoshis * weiPerSat)];
    }

    /** The wallet accepted the transaction: step 2, and its hash is watched. */
    method OnSubmitted(hash: string)
      requires Valid()
      modifies this`activeStep, this`txHash
      ensures Valid()
      ensures activeStep == 2 && txHash == Some(hash)
    {
      activeStep := 2;
      txHash := Some(hash);
    }

    /** The wallet rejected the transaction: not processing, then `cleanAndClose`. */
    method OnSubmitRejected()
      requires Valid()
      modifies this`processingPayment, this`toasts, this`request, this`txHash, this`invoice, this`contractId,
               this`activeStep, this`closeRequests
      ensures Valid()
      ensures !processingPayment && toasts == old(toasts) + [ErrorToast("User rejected transaction")]
      ensures activeStep == 1 && request == None && txHash == None && invoice == "" && contractId == None
      ensures closeRequests == old(closeRequests) + 1
    {
      toasts := toasts + [ErrorToast("User rejected transaction")];
      processingPayment := false;
      CleanAndClose();
    }

    /** The lock transaction was mined: the id from its first log goes to the
        server with the invoice; a receipt without logs stops at the lookup. */
    method OnReceipt(firstLogContractId: Option<string>)
      requires Valid()
      modifies this`activeStep, this`outbox
      ensures Valid()
      ensures firstLogContractId.None? ==> activeStep == old(activeStep) && outbox == old(outbox)
      ensures firstLogContractId.Some? ==>
                activeStep == 3
                && outbox == old(outbox) + [InvoiceSend(firstLogContractId.value, InvoiceSendKind,
                                                        if request.Some? then Some(request.value.lnInvoice) else None,
                                                        txHash)]
    {
      if firstLogContractId.None? {
        return;
      }
      activeStep := 3;
      var ln := if request.Some? then Some(request.value.lnInvoice) else None;
      outbox := outbox + [InvoiceSend(firstLogContractId.value, InvoiceSendKind, ln, txHash)];
    }

    /** `cancelPayment`: the invoice is forgotten. */
    method CancelPayment()
      modifies this`request, this`invoice, this`contractId
      ensures request == None && invoice == "" && contractId == None
    {
      request := None;
      invoice := "";
      contractId := None;
    }
  }

  /** A text the decoder rejects, or one missing an amount, a hash or an
      expiry, never replaces the recorded invoice; an accepted one always does. */
  lemma InvoiceRecordedOnlyWhenComplete(text: string, result: DecodeResult, d: Decoded)
    requires result == DecodeOk(d)
    requires d.satoshis == 0 || d.timeExpireDate == 0 || forall t :: t in d.tags ==> t.tagName != "payment_hash"
    ensures AcceptInvoice(text, result) == None
  {
    if d.satoshis != 0 && d.timeExpireDate != 0 {
      assert forall i :: 0 <= i < |d.tags| ==> d.tags[i] in d.tags;
    }
  }
}
