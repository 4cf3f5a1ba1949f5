/**
 * Fee-leg generators: a generator holds the principal transaction and, once
 * a subclass has bound them, the collector account, the collector wallet,
 * the fee amount and the category; it validates those fields, rounds the fee
 * and builds the fee's double-entry pair.
 */
module Fees {
  import opened Wrappers
  import opened Ledger
  import opened TransactionUtil

  /** Math.round: the nearest integer, a half rounded towards +infinity. */
  function Round(x: real): (r: int)
    ensures x - 0.5 < r as real <= x + 0.5
  {
    (x + 0.5).Floor
  }

  /** Rounding leaves a whole number of minor units unchanged. */
  lemma RoundOfInteger(n: int)
    ensures Round(n as real) == n
  {
  }

  /** An exact half goes up: 2.5 becomes 3 and -2.5 becomes -2. */
  lemma RoundHalfUp(n: int)
    ensures Round(n as real + 0.5) == n + 1
    ensures Round(n as real - 0.5) == n
  {
  }

  const AccountIdMissing: string := "Fee transaction need to define an AccountId"
  const WalletIdMissing: string := "Fee transaction need to define a WalletId"
  const FeeMissing: string := "Fees need to be established before creating a transaction"

  /**
   * Which generator this is. `Base` binds nothing in SetTransactionInfo;
   * `WalletProviderFees` is the wallet-provider subclass. The platform and
   * payment-provider subclasses are not part of this model.
   */
  datatype FeeKind = Base | WalletProviderFees

  class FeeTransactions {
    const kind: FeeKind
    var transaction: Incoming
    var fee: Option<real>
    var feeAccountId: Value
    var feeWalletId: Value
    var category: Option<Category>

    /** A new generator has no collector and a null fee, so it cannot build rows yet. */
    constructor (kind: FeeKind, transaction: Incoming)
      ensures this.kind == kind && this.transaction == transaction
      ensures fee == None && feeAccountId == Undefined && feeWalletId == Undefined
      ensures category == None
      ensures ValidateFeeTransaction() == Fail(OperationNotAllowed(AccountIdMissing))
    {
      this.kind := kind;
      this.transaction := transaction;
      fee := None;
      feeAccountId := Undefined;
      feeWalletId := Undefined;
      category := None;
    }

    /**
     * The checks run in a fixed order (account, wallet, fee) and the first
     * falsy field names the error; a fee of 0 counts as missing.
     */
    function ValidateFeeTransaction(): (r: Outcome<Error>)
      reads this
      ensures r == Pass <==> Truthy(feeAccountId) && Truthy(feeWalletId) && RealTruthy(fee)
      ensures r == Fail(OperationNotAllowed(AccountIdMissing)) <==> !Truthy(feeAccountId)
      ensures r == Fail(OperationNotAllowed(WalletIdMissing)) <==>
        Truthy(feeAccountId) && !Truthy(feeWalletId)
      ensures r == Fail(OperationNotAllowed(FeeMissing)) <==>
        Truthy(feeAccountId) && Truthy(feeWalletId) && !RealTruthy(fee)
    {
      if !Truthy(feeAccountId) then Fail(OperationNotAllowed(AccountIdMissing))
      else if !Truthy(feeWalletId) then Fail(OperationNotAllowed(WalletIdMissing))
      else if !RealTruthy(fee) then Fail(OperationNotAllowed(FeeMissing))
      else Pass
    }

    /** Binds the collector fields the subclass reads from the principal transaction. */
    method SetTransactionInfo()
      modifies this
      ensures transaction == old(transaction)
      ensures kind == Base ==> unchanged(this)
      ensures kind == WalletProviderFees ==>
        && feeAccountId == transaction.WalletProviderAccountId
        && feeWalletId == transaction.WalletProviderWalletId
        && fee == transaction.platformFee
        && category == Some(WalletProvider)
      ensures kind == WalletProviderFees ==>
        (ValidateFeeTransaction() == Pass <==>
          && Truthy(transaction.WalletProviderAccountId)
          && Truthy(transaction.WalletProviderWalletId)
          && RealTruthy(transaction.platformFee))
    {
      if kind == WalletProviderFees {
        feeAccountId := transaction.WalletProviderAccountId;
        feeWalletId := transaction.WalletProviderWalletId;
        fee := transaction.platformFee;
        category := Some(WalletProvider);
      }
    }

    /** The fee in whole minor units; a null fee rounds to 0. */
    function TotalFee(): (r: int)
      reads this
      ensures fee.None? ==> r == 0
      ensures fee.Some? ==> fee.value - 0.5 < r as real <= fee.value + 0.5
    {
      if fee.None? then 0 else Round(fee.value)
    }

    /** The fee is paid from the destination-currency bridging wallet when there is one. */
    function PayerWalletId(): (r: Value)
      reads this
      ensures transaction.fromWalletDestinationCurrency.Some? ==>
        r == transaction.fromWalletDestinationCurrency.value.id
      ensures transaction.fromWalletDestinationCurrency.None? ==> r == transaction.FromWalletId
    {
      match transaction.fromWalletDestinationCurrency
      case Some(bridge) => bridge.id
      case None => transaction.FromWalletId
    }

    /** The transaction the fee pair is built from (its group id is not read by the builder). */
    function FeeTransaction(): (p: Provisional)
      reads this
      ensures p.FromAccountId == transaction.FromAccountId && p.ToAccountId == feeAccountId
      ensures p.FromWalletId == PayerWalletId() && p.ToWalletId == feeWalletId
      ensures p.amount == TotalFee()
      ensures p.currency == Or(transaction.destinationCurrency, transaction.currency)
      ensures p.TransactionGroup == Undefined
    {
      Provisional(transaction.FromAccountId, feeAccountId, PayerWalletId(), feeWalletId,
                  TotalFee(), Or(transaction.destinationCurrency, transaction.currency),
                  Undefined, transaction.transactionGroupSequence)
    }

    /**
     * Validation first, so a failure yields no rows; otherwise the fee's
     * [DEBIT, CREDIT] pair from the payer to the collector.
     */
    function FeeDoubleEntryTransactions(doubleEntryGroupId: Value): (r: Result<seq<Row>, Error>)
      reads this
      ensures r.Success? <==> ValidateFeeTransaction() == Pass
      ensures r.Failure? ==> ValidateFeeTransaction() == Fail(r.error)
      ensures r.Success? ==> |r.value| == 2 && IsPairs(r.value)
      ensures r.Success? ==>
        && r.value[1].FromWalletId == PayerWalletId() && r.value[1].ToWalletId == feeWalletId
        && r.value[1].currency == Or(transaction.destinationCurrency, transaction.currency)
        && r.value[0].transactionGroupId == Undefined && r.value[1].transactionGroupId == Undefined
      ensures r.Success? && TotalFee() >= 0 ==>
        && r.value[1].FromAccountId == transaction.FromAccountId
        && r.value[1].ToAccountId == feeAccountId
        && r.value[1].amount == TotalFee()
        && r.value[0].amount == -TotalFee()
      ensures r.Success? && TotalFee() < 0 ==>
        && r.value[1].FromAccountId == feeAccountId
        && r.value[1].ToAccountId == transaction.FromAccountId
        && r.value[1].amount == -TotalFee()
        && r.value[0].amount == TotalFee()
      ensures r.Success? ==>
        && r.value[0].doubleEntryGroupId == doubleEntryGroupId
        && r.value[1].doubleEntryGroupId == doubleEntryGroupId
        && r.value[0].transactionGroupSequence == transaction.transactionGroupSequence
        && r.value[1].transactionGroupSequence == NextSequence(transaction.transactionGroupSequence)
      ensures r.Success? ==> r.value == DoubleEntryArray(FeeTransaction(), doubleEntryGroupId)
    {
      match ValidateFeeTransaction()
      case Fail(e) => Failure(e)
      case Pass =>
        var rows := DoubleEntryArray(FeeTransaction(), doubleEntryGroupId);
        DoubleEntryBalances(FeeTransaction(), doubleEntryGroupId, Undefined);
        Success(rows)
    }
  }

  /** A fee generator's contribution to a net amount: none when there is no generator. */
  function FeeOf(g: FeeTransactions?): (r: int)
    reads g
    ensures g == null ==> r == 0
    ensures g != null ==> r == g.TotalFee()
  {
    if g == null then 0 else g.TotalFee()
  }
}
