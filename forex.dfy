/**
 * The forex strategy: the request validation its constructor runs, the wallet
 * resolution, the net amount after fees, and the two ways of laying out the
 * principal and conversion rows (receiver-side bridging, which is the one in
 * use, and the sender-side alternative).
 */
module Forex {
  import opened Wrappers
  import opened Ledger
  import opened TransactionUtil
  import opened Fees

  const DestinationAmountMissing: string := "field destinationAmount missing"
  const DestinationCurrencyMissing: string := "field destinationCurrency missing"
  const PaymentProviderWalletNameMissing: string := "PaymentProviderWalletName field missing"
  const PaymentProviderAccountIdMissing: string := "PaymentProviderAccountId field missing"

  /** What reading `.id` of a missing wallet throws. */
  const MissingWalletId: Error := TypeError("Cannot read property 'id' of undefined")

  /**
   * The four mandatory forex fields, checked in order; the first falsy one
   * names the error, and a destinationAmount of 0 counts as missing.
   */
  function ValidateForexTransaction(t: Incoming): (r: Outcome<Error>)
    ensures r == Pass <==>
      && IntTruthy(t.destinationAmount) && Truthy(t.destinationCurrency)
      && Truthy(t.PaymentProviderWalletName) && Truthy(t.PaymentProviderAccountId)
    ensures r == Fail(OperationNotAllowed(DestinationAmountMissing)) <==> !IntTruthy(t.destinationAmount)
    ensures r == Fail(OperationNotAllowed(DestinationCurrencyMissing)) <==>
      IntTruthy(t.destinationAmount) && !Truthy(t.destinationCurrency)
    ensures r == Fail(OperationNotAllowed(PaymentProviderWalletNameMissing)) <==>
      IntTruthy(t.destinationAmount) && Truthy(t.destinationCurrency) && !Truthy(t.PaymentProviderWalletName)
    ensures r == Fail(OperationNotAllowed(PaymentProviderAccountIdMissing)) <==>
      && IntTruthy(t.destinationAmount) && Truthy(t.destinationCurrency)
      && Truthy(t.PaymentProviderWalletName) && !Truthy(t.PaymentProviderAccountId)
  {
    if !IntTruthy(t.destinationAmount) then Fail(OperationNotAllowed(DestinationAmountMissing))
    else if !Truthy(t.destinationCurrency) then Fail(OperationNotAllowed(DestinationCurrencyMissing))
    else if !Truthy(t.PaymentProviderWalletName) then Fail(OperationNotAllowed(PaymentProviderWalletNameMissing))
    else if !Truthy(t.PaymentProviderAccountId) then Fail(OperationNotAllowed(PaymentProviderAccountIdMissing))
    else Pass
  }

  /**
   * A request that names its payment-provider wallet only by id (and not by
   * name) is rejected with the wallet-name message.
   */
  lemma MissingWalletNameRejected(t: Incoming)
    requires IntTruthy(t.destinationAmount) && Truthy(t.destinationCurrency)
    requires !Truthy(t.PaymentProviderWalletName)
    ensures ValidateForexTransaction(t) == Fail(OperationNotAllowed(PaymentProviderWalletNameMissing))
    ensures ValidateForexTransaction(t) != Fail(OperationNotAllowed("field paymentProviderWalletId missing"))
  {
  }

  /** The wallet lookups, supplied by the wallet library. */
  datatype WalletLib = WalletLib(
    findOrCreateCurrencyWallet: (Value, Value, Value) -> Wallet,   // (name, currency, account)
    findOrCreateTemporaryCurrencyWallet: (Value, Value) -> Wallet)  // (currency, owner account)

  /**
   * The strategy's collaborators that write to the shared request, its
   * wallet step `findOrCreateWallets(flag)` and its fee step
   * `getFeeTransactions()`, may set wallet and fee fields of the request but
   * keep what the request asks for.
   */
  predicate KeepsRequest(before: Incoming, after: Incoming) {
    && after.FromAccountId == before.FromAccountId && after.ToAccountId == before.ToAccountId
    && after.amount == before.amount && after.currency == before.currency
    && after.destinationAmount == before.destinationAmount
    && after.destinationCurrency == before.destinationCurrency
    && after.PaymentProviderWalletName == before.PaymentProviderWalletName
    && after.PaymentProviderAccountId == before.PaymentProviderAccountId
    && after.senderPayFees == before.senderPayFees
  }

  /** Tags every row with a category, as the strategies' `.map` callbacks do. */
  function WithCategory(rows: seq<Row>, c: Category): (r: seq<Row>)
    ensures |r| == |rows|
    ensures forall i :: 0 <= i < |r| ==> SameEntry(rows[i], r[i]) && r[i].category == Some(c)
    ensures forall i :: 0 <= i < |r| ==> r[i].transactionGroupSequence == rows[i].transactionGroupSequence
  {
    seq(|rows|, i requires 0 <= i < |rows| => rows[i].(category := Some(c)))
  }

  /** Tagging keeps the pair structure and the balance of every currency. */
  lemma TaggedPairsBalance(rows: seq<Row>, cat: Category, c: Value)
    requires IsPairs(rows)
    ensures IsPairs(WithCategory(rows, cat))
    ensures SumIn(WithCategory(rows, cat), c) == 0
  {
    SameEntriesKeepPairs(rows, WithCategory(rows, cat));
    PairsBalance(WithCategory(rows, cat), c);
  }

  /**
   * A forex batch, principal pair and conversion rows in either order, is a
   * batch of mirrored pairs that balances in every currency whenever the
   * conversion generator's rows are.
   */
  lemma ForexBatchBalanced(conversionRows: seq<Row>, principal: Provisional, doubleEntryGroupId: Value,
                           conversionFirst: bool, c: Value)
    requires IsPairs(conversionRows)
    ensures var p := WithCategory(DoubleEntryArray(principal, doubleEntryGroupId), Account);
      var v := WithCategory(conversionRows, CurrencyConversion);
      var batch := if conversionFirst then v + p else p + v;
      IsPairs(batch) && SumIn(batch, c) == 0
  {
    var p := WithCategory(DoubleEntryArray(principal, doubleEntryGroupId), Account);
    var v := WithCategory(conversionRows, CurrencyConversion);
    DoubleEntryBalances(principal, doubleEntryGroupId, c);
    TaggedPairsBalance(DoubleEntryArray(principal, doubleEntryGroupId), Account, c);
    TaggedPairsBalance(conversionRows, CurrencyConversion, c);
    if conversionFirst {
      PairsConcat(v, p);
      PairsBalance(v + p, c);
    } else {
      PairsConcat(p, v);
      PairsBalance(p + v, c);
    }
  }

  /** The destination amount less the total fee of every generator present. */
  function NetAmount(destinationAmount: int,
                     paymentProviderFees: FeeTransactions?, platformFees: FeeTransactions?,
                     providerFees: FeeTransactions?): (r: int)
    reads paymentProviderFees, platformFees, providerFees
    ensures r + FeeOf(paymentProviderFees) + FeeOf(platformFees) + FeeOf(providerFees) == destinationAmount
  {
    destinationAmount - FeeOf(paymentProviderFees) - FeeOf(platformFees) - FeeOf(providerFees)
  }

  /**
   * The example of the sender-side test: 4500 received with a wallet-provider
   * fee of 225 leaves a principal of 4275.
   */
  lemma SenderPaysWalletProviderFeeExample(providerFees: FeeTransactions, principal: Provisional,
                                           doubleEntryGroupId: Value)
    requires providerFees.fee == Some(225.0)
    ensures NetAmount(4500, null, null, providerFees) == 4275
    ensures var rows := DoubleEntryArray(principal.(amount := NetAmount(4500, null, null, providerFees)),
                                         doubleEntryGroupId);
      rows[0].amount == -4275 && rows[1].amount == 4275
  {
    assert providerFees.TotalFee() == 225;
  }

  class TransactionForexStrategy {
    var incomingTransaction: Incoming

    predicate Valid()
      reads this
    {
      ValidateForexTransaction(incomingTransaction) == Pass
    }

    /** Only a validated request becomes a strategy; see NewTransactionForexStrategy. */
    constructor (incomingTransaction: Incoming)
      requires ValidateForexTransaction(incomingTransaction) == Pass
      ensures Valid() && this.incomingTransaction == incomingTransaction
    {
      this.incomingTransaction := incomingTransaction;
    }

    /**
     * Resolves the sender's wallet in `currency`, the receiver's wallet in
     * `destinationCurrency`, and a temporary destination-currency wallet
     * owned by the owner of the sender's wallet.
     */
    method FindOrCreateAccountWallets(walletLib: WalletLib)
      requires Valid()
      modifies this
      ensures Valid()
      ensures var t := old(incomingTransaction);
        var from := walletLib.findOrCreateCurrencyWallet(t.FromWalletName, t.currency, t.FromAccountId);
        var to := walletLib.findOrCreateCurrencyWallet(t.ToWalletName, t.destinationCurrency, t.ToAccountId);
        var bridge := walletLib.findOrCreateTemporaryCurrencyWallet(t.destinationCurrency, from.OwnerAccountId);
        incomingTransaction == t.(fromWallet := Some(from), toWallet := Some(to),
                                  FromWalletId := from.id, ToWalletId := to.id,
                                  fromWalletDestinationCurrency := Some(bridge))
    {
      var t := incomingTransaction;
      incomingTransaction := incomingTransaction.(fromWallet := Some(
        walletLib.findOrCreateCurrencyWallet(t.FromWalletName, t.currency, t.FromAccountId)));
      incomingTransaction := incomingTransaction.(toWallet := Some(
        walletLib.findOrCreateCurrencyWallet(t.ToWalletName, t.destinationCurrency, t.ToAccountId)));
      incomingTransaction := incomingTransaction.(FromWalletId := incomingTransaction.fromWallet.value.id);
      incomingTransaction := incomingTransaction.(ToWalletId := incomingTransaction.toWallet.value.id);
      incomingTransaction := incomingTransaction.(fromWalletDestinationCurrency := Some(
        walletLib.findOrCreateTemporaryCurrencyWallet(
          incomingTransaction.destinationCurrency, incomingTransaction.fromWallet.value.OwnerAccountId)));
    }

    /**
     * destinationAmount less each present generator's rounded fee; with no
     * generators it is destinationAmount itself.
     */
    method GetTransactionNetAmount(paymentProviderFees: FeeTransactions?, platformFees: FeeTransactions?,
                                   providerFees: FeeTransactions?)
      returns (net: int)
      requires Valid()
      ensures net == NetAmount(incomingTransaction.destinationAmount.value,
                               paymentProviderFees, platformFees, providerFees)
      ensures paymentProviderFees == null && platformFees == null && providerFees == null ==>
        net == incomingTransaction.destinationAmount.value
    {
      net := incomingTransaction.destinationAmount.value;
      if paymentProviderFees != null {
        net := net - paymentProviderFees.TotalFee();
      }
      if platformFees != null {
        net := net - platformFees.TotalFee();
      }
      if providerFees != null {
        net := net - providerFees.TotalFee();
      }
    }

    /**
     * Receiver-side bridging, the path in use. The principal pair is built
     * from a copy of the request whose ToWalletId is the receiver's
     * source-currency wallet, before the fee step and before any amount
     * override; the conversion rows, built after the fee step, follow it.
     * With senderPayFees the request's amount then becomes the net amount,
     * which the rows already built do not see. `r` is the list handed on to
     * getAllTransactionsWithFee.
     */
    method GetTransactions(findOrCreateWallets: (Incoming, bool) -> Incoming,
                           feeStep: Incoming -> Incoming,
                           paymentProviderFees: FeeTransactions?, platformFees: FeeTransactions?,
                           providerFees: FeeTransactions?,
                           conversion: Incoming -> seq<Row>,
                           doubleEntryGroupId: Value)
      returns (r: Result<seq<Row>, Error>)
      requires Valid()
      requires forall t, flag :: KeepsRequest(t, findOrCreateWallets(t, flag))
      requires forall t :: KeepsRequest(t, feeStep(t))
      modifies this
      ensures Valid()
      ensures var t := findOrCreateWallets(old(incomingTransaction), false);
        t.toWalletSourceCurrency.None? ==> r == Failure(MissingWalletId) && incomingTransaction == t
      ensures var t := findOrCreateWallets(old(incomingTransaction), false);
        var u := feeStep(t);
        t.toWalletSourceCurrency.Some? ==>
          && r == Success(
               WithCategory(DoubleEntryArray(t.(ToWalletId := t.toWalletSourceCurrency.value.id).AsProvisional(),
                                             doubleEntryGroupId), Account)
               + WithCategory(conversion(u), CurrencyConversion))
          && incomingTransaction == if u.senderPayFees
               then u.(amount := NetAmount(old(incomingTransaction).destinationAmount.value, paymentProviderFees, platformFees, providerFees))
               else u
      ensures r.Success? ==>
        && r.value[1].amount == Abs(old(incomingTransaction).amount)
        && r.value[1].ToWalletId == findOrCreateWallets(old(incomingTransaction), false).toWalletSourceCurrency.value.id
        && incomingTransaction.ToWalletId == feeStep(findOrCreateWallets(old(incomingTransaction), false)).ToWalletId
      ensures r.Success? && IsPairs(conversion(feeStep(findOrCreateWallets(old(incomingTransaction), false)))) ==>
        IsPairs(r.value) && forall c :: SumIn(r.value, c) == 0
    {
      incomingTransaction := findOrCreateWallets(incomingTransaction, false);
      if incomingTransaction.toWalletSourceCurrency.None? {
        return Failure(MissingWalletId);
      }
      var withToWalletInSourceCurrency := incomingTransaction.(
        ToWalletId := incomingTransaction.toWalletSourceCurrency.value.id);
      var principal := WithCategory(DoubleEntryArray(withToWalletInSourceCurrency.AsProvisional(),
                                                     doubleEntryGroupId), Account);
      incomingTransaction := feeStep(incomingTransaction);
      ghost var feesSet := incomingTransaction;
      var conversionRows := WithCategory(conversion(incomingTransaction), CurrencyConversion);
      if incomingTransaction.senderPayFees {
        var net := GetTransactionNetAmount(paymentProviderFees, platformFees, providerFees);
        incomingTransaction := incomingTransaction.(amount := net);
      }
      r := Success(principal + conversionRows);
      if IsPairs(conversion(feesSet)) {
        ForexBatchBalanced(conversion(feesSet), withToWalletInSourceCurrency.AsProvisional(),
                           doubleEntryGroupId, false, Undefined);
        forall c ensures SumIn(r.value, c) == 0 {
          ForexBatchBalanced(conversion(feesSet), withToWalletInSourceCurrency.AsProvisional(),
                             doubleEntryGroupId, false, c);
        }
      }
    }

    /**
     * Sender-side bridging, defined but not invoked. After the wallet step
     * and the fee step the conversion rows are built from the request; then
     * the amount becomes destinationAmount (or the net amount with
     * senderPayFees), the payer wallet becomes the bridging wallet and the
     * currency the destination currency, and the principal pair built from
     * that follows the conversion rows.
     */
    method GetTransactionsWithFromAccountConvertingCurrency(
      findOrCreateWallets: (Incoming, bool) -> Incoming,
      feeStep: Incoming -> Incoming,
      paymentProviderFees: FeeTransactions?, platformFees: FeeTransactions?,
      providerFees: FeeTransactions?,
      conversion: Incoming -> seq<Row>,
      doubleEntryGroupId: Value)
      returns (r: Result<seq<Row>, Error>)
      requires Valid()
      requires forall t, flag :: KeepsRequest(t, findOrCreateWallets(t, flag))
      requires forall t :: KeepsRequest(t, feeStep(t))
      modifies this
      ensures Valid()
      ensures var u := feeStep(findOrCreateWallets(old(incomingTransaction), true));
        var amount := if u.senderPayFees
          then NetAmount(old(incomingTransaction).destinationAmount.value,
                         paymentProviderFees, platformFees, providerFees)
          else old(incomingTransaction).destinationAmount.value;
        u.fromWalletDestinationCurrency.None? ==>
          r == Failure(MissingWalletId) && incomingTransaction == u.(amount := amount)
      ensures var u := feeStep(findOrCreateWallets(old(incomingTransaction), true));
        var amount := if u.senderPayFees
          then NetAmount(old(incomingTransaction).destinationAmount.value,
                         paymentProviderFees, platformFees, providerFees)
          else old(incomingTransaction).destinationAmount.value;
        u.fromWalletDestinationCurrency.Some? ==>
          var v := u.(amount := amount, FromWalletId := u.fromWalletDestinationCurrency.value.id,
                      currency := u.destinationCurrency);
          && incomingTransaction == v
          && r == Success(WithCategory(conversion(u), CurrencyConversion)
                          + WithCategory(DoubleEntryArray(v.AsProvisional(), doubleEntryGroupId), Account))
      ensures r.Success? && IsPairs(conversion(feeStep(findOrCreateWallets(old(incomingTransaction), true)))) ==>
        IsPairs(r.value) && forall c :: SumIn(r.value, c) == 0
    {
      incomingTransaction := findOrCreateWallets(incomingTransaction, true);
      incomingTransaction := feeStep(incomingTransaction);
      ghost var feesSet := incomingTransaction;
      var conversionRows := WithCategory(conversion(incomingTransaction), CurrencyConversion);
      incomingTransaction := incomingTransaction.(amount := incomingTransaction.destinationAmount.value);
      if incomingTransaction.senderPayFees {
        var net := GetTransactionNetAmount(paymentProviderFees, platformFees, providerFees);
        incomingTransaction := incomingTransaction.(amount := net);
      }
      if incomingTransaction.fromWalletDestinationCurrency.None? {
        return Failure(MissingWalletId);
      }
      incomingTransaction := incomingTransaction.(
        FromWalletId := incomingTransaction.fromWalletDestinationCurrency.value.id);
      incomingTransaction := incomingTransaction.(currency := incomingTransaction.destinationCurrency);
      var principal := WithCategory(DoubleEntryArray(incomingTransaction.AsProvisional(), doubleEntryGroupId),
                                    Account);
      r := Success(conversionRows + principal);
      if IsPairs(conversion(feesSet)) {
        ForexBatchBalanced(conversion(feesSet), incomingTransaction.AsProvisional(), doubleEntryGroupId, true,
                           Undefined);
        forall c ensures SumIn(r.value, c) == 0 {
          ForexBatchBalanced(conversion(feesSet), incomingTransaction.AsProvisional(), doubleEntryGroupId, true, c);
        }
      }
    }
  }

  /** The constructor validates, so an invalid request never yields a strategy. */
  method NewTransactionForexStrategy(incomingTransaction: Incoming)
    returns (r: Result<TransactionForexStrategy, Error>)
    ensures ValidateForexTransaction(incomingTransaction).Fail? ==>
      r == Failure(ValidateForexTransaction(incomingTransaction).error)
    ensures ValidateForexTransaction(incomingTransaction) == Pass ==>
      r.Success? && fresh(r.value) && r.value.Valid() && r.value.incomingTransaction == incomingTransaction
  {
    match ValidateForexTransaction(incomingTransaction)
    case Fail(e) => r := Failure(e);
    case Pass =>
      var strategy := new TransactionForexStrategy(incomingTransaction);
      r := Success(strategy);
  }
}
