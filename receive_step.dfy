/** The first step of the receive flow: checking the amount against the
    provider's limits, the service fee, and when the invoice button is off. */
module ReceiveStep {
  import opened Shared
  import Strings

  /** The provider's configuration; an unset limit is 0. */
  datatype ProviderConfig = ProviderConfig(minSats: nat, maxSats: nat, receiveBaseFee: real, receiveBasisPointFee: real)

  /** `serverConfig?.minSats || 0`. */
  function MinAmount(config: Option<ProviderConfig>): nat
  {
    if config.Some? then config.value.minSats else 0
  }

  /** `serverConfig?.maxSats || Infinity`, with no bound as `None`. */
  function MaxAmount(config: Option<ProviderConfig>): (r: Option<nat>)
    ensures r.Some? <==> config.Some? && config.value.maxSats != 0
    ensures r.Some? ==> r.value == config.value.maxSats
  {
    if config.Some? && config.value.maxSats != 0 then Some(config.value.maxSats) else None
  }

  /** `isBelowMin`: only a positive amount can be below the minimum. The
      amount is the signed `bigint` the text input produces. */
  predicate IsBelowMin(amount: int, config: Option<ProviderConfig>)
  {
    0 < amount < MinAmount(config)
  }

  predicate IsAboveMax(amount: int, config: Option<ProviderConfig>)
  {
    MaxAmount(config).Some? && amount > MaxAmount(config).value
  }

  /** The amount's error text; the lower bound is reported first. */
  function AmountError(amount: int, config: Option<ProviderConfig>): (r: string)
    ensures r == "" <==> !IsBelowMin(amount, config) && !IsAboveMax(amount, config)
    ensures IsBelowMin(amount, config) ==>
              r == "Amount must be at least " + Strings.Decimal(MinAmount(config)) + " sats"
    ensures !IsBelowMin(amount, config) && IsAboveMax(amount, config) ==>
              r == "Amount must be no more than " + Strings.Decimal(MaxAmount(config).value) + " sats"
  {
    if IsBelowMin(amount, config) then "Amount must be at least " + Strings.Decimal(MinAmount(config)) + " sats"
    else if IsAboveMax(amount, config) then "Amount must be no more than " + Strings.Decimal(MaxAmount(config).value) + " sats"
    else ""
  }

  /** Without a configuration, or with neither limit set, every amount is accepted. */
  lemma UnconfiguredAcceptsAll(amount: int, config: Option<ProviderConfig>)
    requires config.None? || (config.value.minSats == 0 && config.value.maxSats == 0)
    ensures AmountError(amount, config) == ""
  {
  }

  /** An amount within the configured range has no error; zero never has one. */
  lemma InRangeAccepted(amount: int, config: ProviderConfig)
    requires config.minSats <= amount && (config.maxSats == 0 || amount <= config.maxSats)
    ensures AmountError(amount, Some(config)) == ""
    ensures AmountError(0, Some(config)) == ""
  {
  }

  /** `isGenerateQRDisabled` as written: only the amount 0 is refused, so a
      negative amount, which is neither below the minimum nor above the
      maximum, passes. */
  predicate IsGenerateQRDisabledAsWritten(amount: int, invoice: string, config: Option<ProviderConfig>)
  {
    amount == 0 || invoice != "" || AmountError(amount, config) != ""
  }

  /** The "Generate Service Fee Invoice" button's `disabled` as written. */
  predicate GenerateButtonDisabledAsWritten(amount: int, invoice: string, config: Option<ProviderConfig>,
                                            recipient: string, signerActive: bool, recipientIsAddress: bool)
  {
    IsGenerateQRDisabledAsWritten(amount, invoice, config) || recipient == "" || !signerActive || !recipientIsAddress
  }

  /** As written, the button is on for every non-zero amount within the
      limits, negative ones included. */
  lemma GenerateEnabledIffAsWritten(amount: int, invoice: string, config: Option<ProviderConfig>,
                                    recipient: string, signerActive: bool, recipientIsAddress: bool)
    ensures !GenerateButtonDisabledAsWritten(amount, invoice, config, recipient, signerActive, recipientIsAddress) <==>
              amount != 0 && invoice == "" && !IsBelowMin(amount, config) && !IsAboveMax(amount, config)
              && recipient != "" && signerActive && recipientIsAddress
  {
  }

  /** The amount -5 with a minimum of 1000 enables the button as written and
      disables the corrected one. */
  lemma NegativeAmountEnabled()
    ensures AmountError(-5, Some(ProviderConfig(1000, 0, 0.0, 0.0))) == ""
    ensures !GenerateButtonDisabledAsWritten(-5, "", Some(ProviderConfig(1000, 0, 0.0, 0.0)), "0xabc", true, true)
    ensures GenerateButtonDisabled(-5, "", Some(ProviderConfig(1000, 0, 0.0, 0.0)), "0xabc", true, true)
  {
  }

  /** `isGenerateQRDisabled` corrected: every amount that is not positive is refused. */
  predicate IsGenerateQRDisabled(amount: int, invoice: string, config: Option<ProviderConfig>)
  {
    amount <= 0 || invoice != "" || AmountError(amount, config) != ""
  }

  /** The button's `disabled` over the corrected `IsGenerateQRDisabled`. */
  predicate GenerateButtonDisabled(amount: int, invoice: string, config: Option<ProviderConfig>,
                                   recipient: string, signerActive: bool, recipientIsAddress: bool)
  {
    IsGenerateQRDisabled(amount, invoice, config) || recipient == "" || !signerActive || !recipientIsAddress
  }

  /** The corrected button is on exactly for a positive amount within the
      limits, no invoice yet, an active signer and a valid non-empty
      recipient; on positive amounts it agrees with the button as written. */
  lemma GenerateEnabledIff(amount: int, invoice: string, config: Option<ProviderConfig>,
                           recipient: string, signerActive: bool, recipientIsAddress: bool)
    ensures !GenerateButtonDisabled(amount, invoice, config, recipient, signerActive, recipientIsAddress) <==>
              amount > 0 && invoice == "" && !IsBelowMin(amount, config) && !IsAboveMax(amount, config)
              && recipient != "" && signerActive && recipientIsAddress
    ensures amount >= 0 ==>
              (GenerateButtonDisabled(amount, invoice, config, recipient, signerActive, recipientIsAddress) <==>
               GenerateButtonDisabledAsWritten(amount, invoice, config, recipient, signerActive, recipientIsAddress))
  {
  }

  /** `serviceFee`: base fee plus the amount's share in basis points, 0 without a configuration. */
  function ServiceFee(amount: int, config: Option<ProviderConfig>): (fee: real)
    ensures config.None? ==> fee == 0.0
    ensures config.Some? && amount == 0 ==> fee == config.value.receiveBaseFee
  {
    if config.Some? then config.value.receiveBaseFee + (amount as real * config.value.receiveBasisPointFee) / 10000.0
    else 0.0
  }

  /** With a non-negative rate, a larger amount never costs less, and the fee
      grows by exactly the rate's share of the difference. */
  lemma ServiceFeeMonotone(a: int, b: int, config: ProviderConfig)
    requires a <= b && config.receiveBasisPointFee >= 0.0
    ensures ServiceFee(a, Some(config)) <= ServiceFee(b, Some(config))
    ensures ServiceFee(b, Some(config)) - ServiceFee(a, Some(config))
              == ((b - a) as real * config.receiveBasisPointFee) / 10000.0
  {
    var r := config.receiveBasisPointFee;
    assert b as real * r - a as real * r == (b - a) as real * r;
    assert (b - a) as real * r >= 0.0;
  }
}
