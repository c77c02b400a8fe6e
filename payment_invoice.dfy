/** The invoice review panel of the send flow: whether the invoice was paid
    already, whether the balance covers it, and which buttons and step
    markers are shown. */
module PaymentInvoice {
  import opened Shared

  const SatsPerBtc: real := 100000000.0

  /** Number of step markers ("Verify Invoice" … "Paid"). */
  const StepCount: nat := 4

  /** `isPaid`: some transaction carries this invoice. */
  predicate IsPaid(transactions: seq<Transaction>, lnInvoice: string)
  {
    exists i :: 0 <= i < |transactions| && transactions[i].lnInvoice == lnInvoice
  }

  /** `satoshiBalance`: the balance in BTC as satoshis, an unknown one as 0. */
  function SatoshiBalance(balance: Option<real>): (r: real)
    ensures balance.None? ==> r == 0.0
    ensures balance.Some? ==> r == balance.value * SatsPerBtc
  {
    (if balance.Some? then balance.value else 0.0) * SatsPerBtc
  }

  predicate InsufficientBalance(balance: Option<real>, satoshis: nat)
  {
    SatoshiBalance(balance) < satoshis as real
  }

  /** An unknown balance never pays a positive invoice. */
  lemma UnknownBalanceInsufficient(satoshis: nat)
    requires satoshis > 0
    ensures InsufficientBalance(None, satoshis)
  {
  }

  /** `isPaymentDisabled`. */
  predicate IsPaymentDisabled(step: int, signerActive: bool)
  {
    step == 2 || step == 3 || !signerActive
  }

  predicate PayDisabled(step: int, signerActive: bool, transactions: seq<Transaction>, lnInvoice: string,
                        balance: Option<real>, satoshis: nat)
  {
    IsPaymentDisabled(step, signerActive) || IsPaid(transactions, lnInvoice) || InsufficientBalance(balance, satoshis)
  }

  /** The Pay button's label: paid first, then the balance. */
  function PayLabel(paid: bool, insufficient: bool): (text: string)
    ensures paid ==> text == "Already Paid"
    ensures !paid && insufficient ==> text == "Insufficient Balance"
    ensures text == "Pay" <==> !paid && !insufficient
  {
    if paid then "Already Paid" else if insufficient then "Insufficient Balance" else "Pay"
  }

  /** Whenever Pay is enabled its label is "Pay"; a label other than "Pay"
      always comes with a disabled button. */
  lemma EnabledPayReadsPay(step: int, signerActive: bool, transactions: seq<Transaction>, lnInvoice: string,
                           balance: Option<real>, satoshis: nat)
    ensures !PayDisabled(step, signerActive, transactions, lnInvoice, balance, satoshis) ==>
              PayLabel(IsPaid(transactions, lnInvoice), InsufficientBalance(balance, satoshis)) == "Pay"
    ensures PayLabel(IsPaid(transactions, lnInvoice), InsufficientBalance(balance, satoshis)) != "Pay" ==>
              PayDisabled(step, signerActive, transactions, lnInvoice, balance, satoshis)
  {
  }

  /** Pay can be pressed exactly outside steps 2 and 3, with an active signer,
      an invoice no transaction carries yet and a balance that covers it. */
  lemma PayEnabledIff(step: int, signerActive: bool, transactions: seq<Transaction>, lnInvoice: string,
                      balance: Option<real>, satoshis: nat)
    ensures !PayDisabled(step, signerActive, transactions, lnInvoice, balance, satoshis) <==>
              step != 2 && step != 3 && signerActive
              && (forall i :: 0 <= i < |transactions| ==> transactions[i].lnInvoice != lnInvoice)
              && SatoshiBalance(balance) >= satoshis as real
  {
  }

  /** Step marker `index` (0-based) is shown done. */
  predicate StepDone(index: nat, step: int)
  {
    index < step
  }

  /** Step marker `index` shows the loading dots. */
  predicate StepLoading(index: nat, step: int)
  {
    step == index
  }

  /** Cancel and Pay are shown before step 2; Close from then on. */
  predicate ShowsPayActions(step: int)
  {
    step < 2
  }

  /** At most one marker shows the loading dots, none of the done ones;
      at step 4 every marker is done and none is loading. */
  lemma StepMarkersConsistent(step: int)
    ensures forall i: nat, j: nat :: i < StepCount && j < StepCount && StepLoading(i, step) && StepLoading(j, step) ==> i == j
    ensures forall i: nat :: i < StepCount && StepLoading(i, step) ==> !StepDone(i, step)
    ensures step == 4 ==> forall i: nat :: i < StepCount ==> StepDone(i, step) && !StepLoading(i, step)
  {
  }
}
