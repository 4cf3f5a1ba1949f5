/**
 * The values the ledger core passes around: loosely typed request fields,
 * wallets, the provisional transaction handed to the double-entry builder,
 * the ledger rows it produces, and what it means for a batch of rows to be
 * balanced.
 */
module Ledger {
  import opened Wrappers

  // ---------------------------------------------------------------------
  // Loosely typed field values
  // ---------------------------------------------------------------------

  /** A field of a request object: ids are numbers or strings, and any field may be absent. */
  datatype Value = Undefined | Null | Num(n: int) | Text(s: string)

  /** The value is truthy: a guard `if (x)` takes its branch. */
  predicate Truthy(v: Value) {
    match v
    case Num(n) => n != 0
    case Text(s) => s != ""
    case _ => false
  }

  /** `a || b`: the first operand when it is truthy, otherwise the second. */
  function Or(a: Value, b: Value): (r: Value)
    ensures Truthy(a) ==> r == a
    ensures !Truthy(a) ==> r == b
  {
    if Truthy(a) then a else b
  }

  /** Truthiness of an optional number (None stands for null or undefined). */
  predicate IntTruthy(o: Option<int>) {
    o.Some? && o.value != 0
  }

  predicate RealTruthy(o: Option<real>) {
    o.Some? && o.value != 0.0
  }

  function DigitChar(d: nat): char
    requires d < 10
  {
    "0123456789"[d]
  }

  function NatText(n: nat): string
    decreases n
  {
    if n < 10 then [DigitChar(n)] else NatText(n / 10) + [DigitChar(n % 10)]
  }

  /** The text a template literal `${v}` inserts for a value. */
  function TemplateText(v: Value): string {
    match v
    case Undefined => "undefined"
    case Null => "null"
    case Num(n) => if n < 0 then "-" + NatText(-n) else NatText(n)
    case Text(s) => s
  }

  // ---------------------------------------------------------------------
  // Wallets, rows, requests
  // ---------------------------------------------------------------------

  /**
   * A wallet, either a resolved record (with an id) or a descriptor built
   * from a legacy transaction (id Undefined). Display names are not modelled.
   */
  datatype Wallet = Wallet(
    id: Value,
    currency: Value,
    AccountId: Value,
    OwnerAccountId: Value,
    PaymentMethodId: Value,
    SourcePaymentMethodId: Value,
    ExpenseId: Value,
    OrderId: Value)

  /** A wallet descriptor with only its currency, account and owner set. */
  function Descriptor(currency: Value, accountId: Value, ownerAccountId: Value): (w: Wallet)
    ensures w.id == Undefined
    ensures w.currency == currency && w.AccountId == accountId && w.OwnerAccountId == ownerAccountId
  {
    Wallet(Undefined, currency, accountId, ownerAccountId, Undefined, Undefined, Undefined, Undefined)
  }

  datatype EntryType = Debit | Credit

  datatype Category = Account | CurrencyConversion | WalletProvider | Platform | PaymentProvider

  /** One ledger row. `category` is None until a strategy tags the row. */
  datatype Row = Row(
    kind: EntryType,
    FromAccountId: Value,
    ToAccountId: Value,
    FromWalletId: Value,
    ToWalletId: Value,
    amount: int,
    currency: Value,
    transactionGroupId: Value,
    transactionGroupSequence: Option<int>,
    doubleEntryGroupId: Value,
    category: Option<Category>)

  /** The fields of a transaction object that the double-entry builder reads. */
  datatype Provisional = Provisional(
    FromAccountId: Value,
    ToAccountId: Value,
    FromWalletId: Value,
    ToWalletId: Value,
    amount: int,
    currency: Value,
    TransactionGroup: Value,
    transactionGroupSequence: Option<int>)

  /**
   * A request in ledger form, as parsing produces it and as the strategies
   * enrich it step by step.
   */
  datatype Incoming = Incoming(
    FromAccountId: Value,
    ToAccountId: Value,
    FromWalletId: Value,
    ToWalletId: Value,
    FromWalletName: Value,
    ToWalletName: Value,
    amount: int,
    currency: Value,
    destinationAmount: Option<int>,
    destinationCurrency: Value,
    TransactionGroup: Value,
    transactionGroupId: Value,
    transactionGroupSequence: Option<int>,
    senderPayFees: bool,
    refundTransactionGroupId: Value,
    RefundTransactionId: Option<int>,
    LegacyCreditTransactionId: Option<int>,
    LegacyDebitTransactionId: Value,
    walletProviderFee: Option<real>,
    platformFee: Option<real>,
    paymentProviderFee: Option<real>,
    forexRate: Value,
    forexRateSourceCoin: Value,
    forexRateDestinationCoin: Value,
    SourcePaymentMethodId: Value,
    fromWallet: Option<Wallet>,
    toWallet: Option<Wallet>,
    walletProviderWallet: Option<Wallet>,
    paymentProviderWallet: Option<Wallet>,
    WalletProviderAccountId: Value,
    WalletProviderWalletId: Value,
    PaymentProviderAccountId: Value,
    PaymentProviderWalletName: Value,
    toWalletSourceCurrency: Option<Wallet>,
    fromWalletDestinationCurrency: Option<Wallet>)
  {
    /** What the double-entry builder reads when it is handed this object. */
    function AsProvisional(): (p: Provisional)
      ensures p.FromAccountId == FromAccountId && p.ToAccountId == ToAccountId
      ensures p.FromWalletId == FromWalletId && p.ToWalletId == ToWalletId
      ensures p.amount == amount && p.currency == currency
      ensures p.TransactionGroup == TransactionGroup
      ensures p.transactionGroupSequence == transactionGroupSequence
    {
      Provisional(FromAccountId, ToAccountId, FromWalletId, ToWalletId, amount, currency,
                  TransactionGroup, transactionGroupSequence)
    }
  }

  /** An object literal with none of the request fields present. */
  function EmptyIncoming(): Incoming {
    Incoming(Undefined, Undefined, Undefined, Undefined, Undefined, Undefined, 0, Undefined,
             None, Undefined, Undefined, Undefined, None, false, Undefined, None, None, Undefined,
             None, None, None, Undefined, Undefined, Undefined, Undefined,
             None, None, None, None, Undefined, Undefined, Undefined, Undefined, None, None)
  }

  /** The exceptions the core throws. */
  datatype Error =
    | OperationNotAllowed(message: string)
    | TypeError(message: string)

  // ---------------------------------------------------------------------
  // Balance of a batch of rows
  // ---------------------------------------------------------------------

  /** Sum of the amounts of the rows in currency `c`. */
  function SumIn(rows: seq<Row>, c: Value): int
    decreases |rows|
  {
    if rows == [] then 0
    else (if rows[0].currency == c then rows[0].amount else 0) + SumIn(rows[1..], c)
  }

  /**
   * `d` and `c` are the two halves of one movement: a DEBIT and a CREDIT of
   * opposite amounts in one currency, with accounts and wallets mirrored.
   */
  predicate IsMirroredPair(d: Row, c: Row) {
    && d.kind == Debit && c.kind == Credit
    && d.amount == -c.amount && c.amount >= 0
    && d.currency == c.currency
    && d.FromAccountId == c.ToAccountId && d.ToAccountId == c.FromAccountId
    && d.FromWalletId == c.ToWalletId && d.ToWalletId == c.FromWalletId
    && d.doubleEntryGroupId == c.doubleEntryGroupId
    && d.transactionGroupId == c.transactionGroupId
  }

  /** The rows are a concatenation of mirrored [DEBIT, CREDIT] pairs. */
  predicate IsPairs(rows: seq<Row>)
    decreases |rows|
  {
    if rows == [] then true
    else |rows| >= 2 && IsMirroredPair(rows[0], rows[1]) && IsPairs(rows[2..])
  }

  /** Two rows record the same entry; only their sequence number and category may differ. */
  predicate SameEntry(a: Row, b: Row) {
    && a.kind == b.kind
    && a.FromAccountId == b.FromAccountId && a.ToAccountId == b.ToAccountId
    && a.FromWalletId == b.FromWalletId && a.ToWalletId == b.ToWalletId
    && a.amount == b.amount && a.currency == b.currency
    && a.transactionGroupId == b.transactionGroupId
    && a.doubleEntryGroupId == b.doubleEntryGroupId
  }

  /** Every currency balances to zero in a batch made of mirrored pairs. */
  lemma {:induction false} PairsBalance(rows: seq<Row>, c: Value)
    requires IsPairs(rows)
    ensures SumIn(rows, c) == 0
    decreases |rows|
  {
    if rows != [] {
      PairsBalance(rows[2..], c);
      assert rows[1..][1..] == rows[2..];
    }
  }

  /** Concatenating two batches of pairs gives a batch of pairs. */
  lemma {:induction false} PairsConcat(a: seq<Row>, b: seq<Row>)
    requires IsPairs(a) && IsPairs(b)
    ensures IsPairs(a + b)
    decreases |a|
  {
    if a == [] {
      assert a + b == b;
    } else {
      PairsConcat(a[2..], b);
      assert (a + b)[2..] == a[2..] + b;
    }
  }

  /**
   * Renumbering or re-tagging rows one by one keeps the pair structure and
   * every per-currency sum.
   */
  lemma {:induction false} SameEntriesKeepPairs(a: seq<Row>, b: seq<Row>)
    requires |a| == |b|
    requires forall i :: 0 <= i < |a| ==> SameEntry(a[i], b[i])
    requires IsPairs(a)
    ensures IsPairs(b)
    decreases |a|
  {
    if a != [] {
      assert SameEntry(a[0], b[0]) && SameEntry(a[1], b[1]);
      forall i | 0 <= i < |a[2..]| ensures SameEntry(a[2..][i], b[2..][i]) {
        assert SameEntry(a[i + 2], b[i + 2]);
      }
      SameEntriesKeepPairs(a[2..], b[2..]);
    }
  }

  lemma {:induction false} SameEntriesKeepSums(a: seq<Row>, b: seq<Row>, c: Value)
    requires |a| == |b|
    requires forall i :: 0 <= i < |a| ==> SameEntry(a[i], b[i])
    ensures SumIn(b, c) == SumIn(a, c)
    decreases |a|
  {
    if a != [] {
      assert SameEntry(a[0], b[0]);
      forall i | 0 <= i < |a[1..]| ensures SameEntry(a[1..][i], b[1..][i]) {
        assert SameEntry(a[i + 1], b[i + 1]);
      }
      SameEntriesKeepSums(a[1..], b[1..], c);
    }
  }
}
