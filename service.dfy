/**
 * The ledger service: choosing the strategy for a request, numbering the
 * rows of a batch, and mapping a legacy transaction to ledger form.
 */
module TransactionService {
  import opened Wrappers
  import opened Ledger
  import opened Forex

  // ---------------------------------------------------------------------
  // Strategy selection
  // ---------------------------------------------------------------------

  datatype StrategyKind = RegularStrategy | RefundStrategy | ForexStrategy | ForexRefundStrategy

  /** A foreign-exchange request: a destination currency is set and differs from the currency. */
  predicate IsForex(t: Incoming) {
    Truthy(t.destinationCurrency) && t.destinationCurrency != t.currency
  }

  /** A legacy refund: a refund id is set and the legacy credit id is the larger one. */
  predicate IsLegacyDbRefund(t: Incoming) {
    && IntTruthy(t.RefundTransactionId)
    && t.LegacyCreditTransactionId.Some?
    && t.LegacyCreditTransactionId.value > t.RefundTransactionId.value
  }

  predicate IsRefund(t: Incoming) {
    Truthy(t.refundTransactionGroupId) || IsLegacyDbRefund(t)
  }

  /**
   * The four-way decision table. Building the forex strategy runs its
   * validation, so an invalid forex request is an error here.
   */
  function DefineTransactionStrategy(t: Incoming): (r: Result<StrategyKind, Error>)
    ensures r == Success(RegularStrategy) <==> !IsForex(t) && !IsRefund(t)
    ensures r == Success(RefundStrategy) <==> !IsForex(t) && IsRefund(t)
    ensures r == Success(ForexRefundStrategy) <==> IsForex(t) && IsRefund(t)
    ensures r == Success(ForexStrategy) <==>
      IsForex(t) && !IsRefund(t) && ValidateForexTransaction(t) == Pass
    ensures r.Failure? <==> IsForex(t) && !IsRefund(t) && ValidateForexTransaction(t).Fail?
    ensures r.Failure? ==> ValidateForexTransaction(t) == Fail(r.error)
  {
    if !Truthy(t.destinationCurrency) || t.destinationCurrency == t.currency then
      if IsRefund(t) then Success(RefundStrategy) else Success(RegularStrategy)
    else if IsRefund(t) then Success(ForexRefundStrategy)
    else match ValidateForexTransaction(t)
      case Fail(e) => Failure(e)
      case Pass => Success(ForexStrategy)
  }

  // ---------------------------------------------------------------------
  // Group sequencing
  // ---------------------------------------------------------------------

  /** The batch with row i numbered i; nothing else about any row changes. */
  function WithGroupSequence(rows: seq<Row>): (r: seq<Row>)
    ensures |r| == |rows|
    ensures forall i :: 0 <= i < |r| ==>
      && SameEntry(rows[i], r[i])
      && r[i].category == rows[i].category
      && r[i].transactionGroupSequence == Some(i)
  {
    seq(|rows|, i requires 0 <= i < |rows| => rows[i].(transactionGroupSequence := Some(i)))
  }

  /** Numbers the strategy's rows in place, in emission order. */
  method AssignGroupSequence(transactions: array<Row>)
    modifies transactions
    ensures transactions[..] == WithGroupSequence(old(transactions[..]))
  {
    var index := 0;
    while index < transactions.Length
      invariant 0 <= index <= transactions.Length
      invariant forall i :: 0 <= i < index ==>
        transactions[i] == old(transactions[i]).(transactionGroupSequence := Some(i))
      invariant forall i :: index <= i < transactions.Length ==> transactions[i] == old(transactions[i])
    {
      transactions[index] := transactions[index].(transactionGroupSequence := Some(index));
      index := index + 1;
    }
  }

  /** The sequence numbers of an N-row batch are exactly 0 .. N-1, each used once. */
  lemma SequenceNumbersContiguous(rows: seq<Row>, n: int)
    ensures (exists i :: 0 <= i < |rows| && WithGroupSequence(rows)[i].transactionGroupSequence == Some(n))
            <==> 0 <= n < |rows|
    ensures forall i, j :: 0 <= i < j < |rows| ==>
      WithGroupSequence(rows)[i].transactionGroupSequence != WithGroupSequence(rows)[j].transactionGroupSequence
  {
    if 0 <= n < |rows| {
      assert WithGroupSequence(rows)[n].transactionGroupSequence == Some(n);
    }
  }

  /** Numbering again changes nothing. */
  lemma SequencingIdempotent(rows: seq<Row>)
    ensures WithGroupSequence(WithGroupSequence(rows)) == WithGroupSequence(rows)
  {
  }

  /** Numbering keeps the pair structure and the balance of every currency. */
  lemma SequencingKeepsBalance(rows: seq<Row>, c: Value)
    requires IsPairs(rows)
    ensures IsPairs(WithGroupSequence(rows))
    ensures SumIn(WithGroupSequence(rows), c) == SumIn(rows, c) == 0
  {
    SameEntriesKeepPairs(rows, WithGroupSequence(rows));
    SameEntriesKeepSums(rows, WithGroupSequence(rows), c);
    PairsBalance(rows, c);
  }

  // ---------------------------------------------------------------------
  // Parsing a legacy transaction
  // ---------------------------------------------------------------------

  /** The fields of a legacy CREDIT transaction that parsing reads (display slugs left out). */
  datatype LegacyTransaction = LegacyTransaction(
    id: Option<int>,
    debitId: Value,
    FromCollectiveId: Value,
    CollectiveId: Value,
    amount: int,
    currency: Value,
    hostCurrency: Value,
    amountInHostCurrency: Option<int>,
    hostFeeInHostCurrency: Option<int>,
    platformFeeInHostCurrency: Option<int>,
    paymentProcessorFeeInHostCurrency: Option<int>,
    hostCurrencyFxRate: Value,
    RefundTransactionId: Option<int>,
    SourcePaymentMethodId: Value,
    CollectiveHostId: Value,
    HostCollectiveId: Value,
    PaymentMethodId: Value,
    ExpenseId: Value,
    OrderId: Value,
    expensePayoutMethod: Value,
    expenseUserPaypalEmail: Value,
    expenseCurrency: Value,
    expenseCollectiveId: Value,
    paymentMethodCollectiveId: Value,
    paymentMethodService: Value,
    orderPaymentMethodCollectiveSlug: Value,
    orderPaymentMethodCollectiveId: Value,
    orderPaymentMethodService: Value,
    orderFromCollectiveId: Value)

  /** `-1 * fee`: legacy fees are stored negative; an absent fee stays absent (falsy). */
  function NegatedFee(fee: Option<int>): (r: Option<real>)
    ensures fee.None? ==> r.None?
    ensures fee.Some? ==> r == Some((-fee.value) as real)
    ensures RealTruthy(r) <==> IntTruthy(fee)
  {
    if fee.Some? then Some((-1 * fee.value) as real) else None
  }

  /** `x || null` */
  function OrNull(v: Value): Value {
    Or(v, Null)
  }

  /** The wallet-provider wallet, present only when the host fee is. */
  function WalletProviderWalletOf(t: LegacyTransaction): Option<Wallet> {
    if !IntTruthy(t.hostFeeInHostCurrency) then None
    else if Truthy(t.HostCollectiveId) then
      Some(Descriptor(Null, t.HostCollectiveId, t.HostCollectiveId))
    else if Truthy(t.ExpenseId) then
      Some(Descriptor(t.expenseCurrency, t.expensePayoutMethod, t.expensePayoutMethod))
    else
      Some(Descriptor(Null, t.orderPaymentMethodCollectiveId, t.orderPaymentMethodCollectiveId))
  }

  /** Owner of the receiving wallet. */
  function ToWalletOwnerOf(t: LegacyTransaction): Value {
    if Truthy(t.HostCollectiveId) then t.HostCollectiveId
    else
      var owner := Or(t.CollectiveHostId, t.CollectiveId);
      if !IntTruthy(t.hostFeeInHostCurrency) then owner
      else if Truthy(t.ExpenseId) then
        Or(owner, Text("payment method: " + TemplateText(t.expensePayoutMethod)
                       + ", paypal email: " + TemplateText(t.expenseUserPaypalEmail)))
      else Or(owner, t.orderPaymentMethodCollectiveId)
  }

  /** Owner of the paying wallet and the payment-provider wallet, by PaymentMethodId > ExpenseId > order. */
  function PaymentProviderOf(t: LegacyTransaction): (Value, Wallet) {
    if Truthy(t.PaymentMethodId) then
      (t.paymentMethodCollectiveId, Descriptor(Null, t.paymentMethodService, t.paymentMethodService))
    else if Truthy(t.ExpenseId) then
      (t.expenseCollectiveId, Descriptor(Null, t.expensePayoutMethod, t.expensePayoutMethod))
    else if Truthy(t.orderPaymentMethodCollectiveSlug) then
      (t.orderPaymentMethodCollectiveId,
       Descriptor(Null, t.orderPaymentMethodService, t.orderPaymentMethodService))
    else
      var accountId := Text(TemplateText(t.orderFromCollectiveId) + "_" + TemplateText(t.OrderId));
      (t.orderFromCollectiveId, Descriptor(Null, accountId, accountId))
  }

  /**
   * The legacy transaction in ledger form: fees made positive, the host
   * currency and amount as destination (defaulting to the currency and
   * amount), and the wallet descriptors the source fields imply.
   */
  function ParseTransaction(t: LegacyTransaction): (r: Incoming)
    ensures r.FromAccountId == t.FromCollectiveId && r.ToAccountId == t.CollectiveId
    ensures r.amount == t.amount && r.currency == t.currency
    ensures r.destinationCurrency == (if Truthy(t.hostCurrency) then t.hostCurrency else t.currency)
    ensures r.destinationAmount == (if IntTruthy(t.amountInHostCurrency) then t.amountInHostCurrency
                                    else Some(t.amount))
    ensures r.walletProviderFee == NegatedFee(t.hostFeeInHostCurrency)
    ensures r.platformFee == NegatedFee(t.platformFeeInHostCurrency)
    ensures r.paymentProviderFee == NegatedFee(t.paymentProcessorFeeInHostCurrency)
    ensures r.LegacyCreditTransactionId == t.id && r.RefundTransactionId == t.RefundTransactionId
    ensures r.LegacyDebitTransactionId == t.debitId && r.SourcePaymentMethodId == t.SourcePaymentMethodId
    ensures r.forexRate == t.hostCurrencyFxRate && r.forexRateSourceCoin == t.currency
    // the destination coin is the raw host currency: without one it stays falsy
    // although the destination currency falls back to the currency
    ensures r.forexRateDestinationCoin == t.hostCurrency
    ensures !Truthy(t.hostCurrency) ==> !Truthy(r.forexRateDestinationCoin) && r.destinationCurrency == t.currency
    // the wallet-provider wallet and account
    ensures r.walletProviderWallet.Some? <==> RealTruthy(r.walletProviderFee)
    ensures r.walletProviderWallet.None? ==> r.WalletProviderAccountId == Undefined
    ensures r.walletProviderWallet.Some? ==> r.WalletProviderAccountId == r.walletProviderWallet.value.AccountId
    ensures r.walletProviderWallet.Some? && Truthy(t.HostCollectiveId) ==>
      r.WalletProviderAccountId == t.HostCollectiveId
    ensures r.walletProviderWallet.Some? && !Truthy(t.HostCollectiveId) && Truthy(t.ExpenseId) ==>
      r.WalletProviderAccountId == t.expensePayoutMethod
    ensures r.walletProviderWallet.Some? && !Truthy(t.HostCollectiveId) && !Truthy(t.ExpenseId) ==>
      r.WalletProviderAccountId == t.orderPaymentMethodCollectiveId
    ensures r.walletProviderWallet.Some? ==>
      r.walletProviderWallet.value.OwnerAccountId == r.walletProviderWallet.value.AccountId
    ensures r.walletProviderWallet.Some? && !Truthy(t.HostCollectiveId) && Truthy(t.ExpenseId) ==>
      r.walletProviderWallet.value.currency == t.expenseCurrency
    ensures r.walletProviderWallet.Some? && (Truthy(t.HostCollectiveId) || !Truthy(t.ExpenseId)) ==>
      r.walletProviderWallet.value.currency == Null
    // the payment-provider wallet and account
    ensures r.paymentProviderWallet.Some?
    ensures r.PaymentProviderAccountId == r.paymentProviderWallet.value.AccountId
    ensures r.paymentProviderWallet.value.OwnerAccountId == r.PaymentProviderAccountId
    ensures r.paymentProviderWallet.value.currency == Null
    ensures Truthy(t.PaymentMethodId) ==> r.PaymentProviderAccountId == t.paymentMethodService
    ensures !Truthy(t.PaymentMethodId) && Truthy(t.ExpenseId) ==>
      r.PaymentProviderAccountId == t.expensePayoutMethod
    ensures !Truthy(t.PaymentMethodId) && !Truthy(t.ExpenseId) && Truthy(t.orderPaymentMethodCollectiveSlug) ==>
      r.PaymentProviderAccountId == t.orderPaymentMethodService
    ensures !Truthy(t.PaymentMethodId) && !Truthy(t.ExpenseId) && !Truthy(t.orderPaymentMethodCollectiveSlug) ==>
      && Truthy(r.PaymentProviderAccountId)
      && r.PaymentProviderAccountId == Text(TemplateText(t.orderFromCollectiveId) + "_" + TemplateText(t.OrderId))
    // the receiving and paying wallets
    ensures r.toWallet.Some? && r.toWallet.value.currency == r.destinationCurrency
    ensures r.toWallet.value.AccountId == t.CollectiveId
    ensures Truthy(t.HostCollectiveId) ==> r.toWallet.value.OwnerAccountId == t.HostCollectiveId
    ensures !Truthy(t.HostCollectiveId) && Truthy(Or(t.CollectiveHostId, t.CollectiveId)) ==>
      r.toWallet.value.OwnerAccountId == Or(t.CollectiveHostId, t.CollectiveId)
    ensures !Truthy(t.HostCollectiveId) && !Truthy(Or(t.CollectiveHostId, t.CollectiveId)) ==>
      if !IntTruthy(t.hostFeeInHostCurrency) then r.toWallet.value.OwnerAccountId == t.CollectiveId
      else if Truthy(t.ExpenseId) then
        r.toWallet.value.OwnerAccountId ==
          Text("payment method: " + TemplateText(t.expensePayoutMethod)
               + ", paypal email: " + TemplateText(t.expenseUserPaypalEmail))
      else r.toWallet.value.OwnerAccountId == t.orderPaymentMethodCollectiveId
    ensures r.fromWallet.Some? && r.fromWallet.value.currency == t.currency
    ensures r.fromWallet.value.AccountId == t.FromCollectiveId
    ensures Truthy(t.PaymentMethodId) ==> r.fromWallet.value.OwnerAccountId == t.paymentMethodCollectiveId
    ensures !Truthy(t.PaymentMethodId) && Truthy(t.ExpenseId) ==>
      r.fromWallet.value.OwnerAccountId == t.expenseCollectiveId
    ensures !Truthy(t.PaymentMethodId) && !Truthy(t.ExpenseId) && Truthy(t.orderPaymentMethodCollectiveSlug) ==>
      r.fromWallet.value.OwnerAccountId == t.orderPaymentMethodCollectiveId
    ensures !Truthy(t.PaymentMethodId) && !Truthy(t.ExpenseId) && !Truthy(t.orderPaymentMethodCollectiveSlug) ==>
      r.fromWallet.value.OwnerAccountId == t.orderFromCollectiveId
    // a falsy reference on the paying wallet becomes null
    ensures Truthy(r.fromWallet.value.PaymentMethodId) <==> Truthy(t.PaymentMethodId)
    ensures Truthy(t.PaymentMethodId) ==> r.fromWallet.value.PaymentMethodId == t.PaymentMethodId
    ensures !Truthy(t.PaymentMethodId) ==> r.fromWallet.value.PaymentMethodId == Null
    ensures Truthy(t.SourcePaymentMethodId) ==>
      r.fromWallet.value.SourcePaymentMethodId == t.SourcePaymentMethodId
    ensures !Truthy(t.SourcePaymentMethodId) ==> r.fromWallet.value.SourcePaymentMethodId == Null
    ensures Truthy(t.ExpenseId) ==> r.fromWallet.value.ExpenseId == t.ExpenseId
    ensures !Truthy(t.ExpenseId) ==> r.fromWallet.value.ExpenseId == Null
    ensures Truthy(t.OrderId) ==> r.fromWallet.value.OrderId == t.OrderId
    ensures !Truthy(t.OrderId) ==> r.fromWallet.value.OrderId == Null
    // what parsing leaves unset
    ensures r.PaymentProviderWalletName == Undefined && r.WalletProviderWalletId == Undefined
    ensures r.refundTransactionGroupId == Undefined && !r.senderPayFees
  {
    var hostCurrency := Or(t.hostCurrency, t.currency);
    var amountInHostCurrency := if IntTruthy(t.amountInHostCurrency) then t.amountInHostCurrency
                                else Some(t.amount);
    var walletProviderWallet := WalletProviderWalletOf(t);
    var (fromOwner, paymentProviderWallet) := PaymentProviderOf(t);
    var toWallet := Descriptor(hostCurrency, t.CollectiveId, ToWalletOwnerOf(t));
    var fromWallet := Wallet(Undefined, t.currency, t.FromCollectiveId, fromOwner,
                             OrNull(t.PaymentMethodId), OrNull(t.SourcePaymentMethodId),
                             OrNull(t.ExpenseId), OrNull(t.OrderId));
    EmptyIncoming().(
      FromAccountId := t.FromCollectiveId,
      ToAccountId := t.CollectiveId,
      amount := t.amount,
      currency := t.currency,
      destinationAmount := amountInHostCurrency,
      destinationCurrency := hostCurrency,
      walletProviderFee := NegatedFee(t.hostFeeInHostCurrency),
      platformFee := NegatedFee(t.platformFeeInHostCurrency),
      paymentProviderFee := NegatedFee(t.paymentProcessorFeeInHostCurrency),
      LegacyCreditTransactionId := t.id,
      LegacyDebitTransactionId := t.debitId,
      forexRate := t.hostCurrencyFxRate,
      forexRateSourceCoin := t.currency,
      forexRateDestinationCoin := t.hostCurrency,
      RefundTransactionId := t.RefundTransactionId,
      SourcePaymentMethodId := t.SourcePaymentMethodId,
      toWallet := Some(toWallet),
      fromWallet := Some(fromWallet),
      walletProviderWallet := walletProviderWallet,
      WalletProviderAccountId := if walletProviderWallet.Some? then walletProviderWallet.value.AccountId
                                 else Undefined,
      paymentProviderWallet := Some(paymentProviderWallet),
      PaymentProviderAccountId := paymentProviderWallet.AccountId)
  }

  /**
   * Parsing never sets PaymentProviderWalletName, so a parsed request that
   * the table sends to the forex strategy is always rejected by its
   * validation.
   */
  lemma ParsedForexRequestRejected(t: LegacyTransaction)
    ensures var p := ParseTransaction(t);
      IsForex(p) && !IsRefund(p) ==> DefineTransactionStrategy(p).Failure?
    ensures DefineTransactionStrategy(ParseTransaction(t)) != Success(ForexStrategy)
  {
  }

  /** A parsed request is forex exactly when its host currency is set and differs from its currency. */
  lemma ParsedForexIffHostCurrencyDiffers(t: LegacyTransaction)
    ensures IsForex(ParseTransaction(t)) <==> Truthy(t.hostCurrency) && t.hostCurrency != t.currency
  {
  }
}
