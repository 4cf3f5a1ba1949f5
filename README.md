# Ledger transaction generation, modelled in Dafny

This project models the core of a double-entry ledger for a donation platform.
The core turns one logical movement of funds into ledger rows:

- the **double-entry builder** turns a provisional transaction into an ordered
  [DEBIT, CREDIT] pair;
- the **fee-leg generators** validate a fee collector's account, wallet and
  fee, round the fee and build the fee's pair (the wallet-provider generator is
  the one modelled);
- the **forex strategy** validates a cross-currency request, resolves wallets,
  computes the net amount after fees and lays out the principal and
  currency-conversion rows, either receiver-side (the path in use) or
  sender-side (defined but not called);
- the **ledger service** chooses a strategy from the request's shape, numbers
  the rows of a batch and maps a legacy transaction to ledger form.

Files and modules:

| file | module | models |
|---|---|---|
| wrappers.dfy | Wrappers | Option, Result, Outcome |
| ledger.dfy | Ledger | field values with JavaScript truthiness, wallets, rows, requests; balance of a batch of pairs |
| transaction_util.dfy | TransactionUtil | server/lib/transactionUtil.js |
| fees.dfy | Fees | server/lib/feeTransactions/abstractFeeTransactions.js, walletProviderFeeTransactions.js |
| forex.dfy | Forex | server/strategies/abstractTransactionForexStrategy.js, transactionForexStrategy.js |
| service.dfy | TransactionService | server/services/transactionService.js (strategy choice, sequencing, parsing) |

How source values are represented:

- A request field is a `Value`: `Undefined`, `Null`, a number or a string.
  `Truthy` is JavaScript's test `if (x)`, and `Or` is `a || b`.
- Amounts are integers in minor units. Fee amounts are `Option<real>`, so
  that `Math.round` can be stated as it is: the nearest integer, with a half
  rounded up.
- A thrown `operationNotAllowed` error becomes a `Failure` or `Fail` value
  holding the source's message.
- Reading `.id` of a missing wallet throws a `TypeError`; it is modelled the
  same way.
- The fee generator is a class with the source's fields. `SetTransactionInfo`
  assigns them, and the functions that validate, round and build read them.
- The forex strategy is a class whose `incomingTransaction` field its methods
  reassign step by step, as the source mutates the request object.
- The sequencing loop writes into an array in place.
- The wallet library, `uuidv4` and the strategy collaborators that are not
  shown here are parameters.

The model follows the code where it departs from the system's stated design:

- Fee rows carry an undefined `transactionGroupId`: the builder of
  `server/lib/transactionUtil.js` reads the group id from `TransactionGroup`,
  and the fee literal sets `transactionGroupId` instead. This holds for the
  model, which takes that builder as the one the fee generator calls (see
  "## Left out").
- The wallet-provider generator takes its fee from `platformFee`.
- Forex validation asks for `PaymentProviderWalletName`, not for a wallet id.
  Parsing never sets that field, so, provided the base strategy's constructor
  does not set it either, every parsed request the table sends to the forex
  strategy is rejected (`ParsedForexRequestRejected`).
- In `getTransactions` the principal pair is built before the senderPayFees
  override, so its rows carry the request's original amount.

## Model

| member | source | states |
|---|---|---|
| TransactionUtil.DoubleEntryArray | server/lib/transactionUtil.js:10-43 | exactly two rows, DEBIT then CREDIT; amounts −\|amount\| and +\|amount\| summing to zero; the credit mirrors the debit (accounts and wallets swapped); the wallets are swapped relative to the input whatever the sign; the accounts follow the sign; both rows share the fresh double-entry id, the currency and the `TransactionGroup` value; the debit keeps the sequence number and the credit gets sequence + 1 |
| TransactionUtil.DoubleEntryBalances | server/lib/transactionUtil.js:16-42 | the pair is a mirrored pair and balances to zero in every currency |
| Ledger.PairsBalance | server/lib/transactionUtil.js:24-36 | any batch made of mirrored pairs sums to zero in every currency |
| Ledger.PairsConcat | server/strategies/transactionForexStrategy.js:84-85 | concatenating batches of pairs, as the strategies do with spread arrays, gives a batch of pairs |
| Ledger.SameEntriesKeepPairs | server/services/transactionService.js:86-89 | rewriting only sequence numbers or categories keeps the pair structure |
| Ledger.SameEntriesKeepSums | server/services/transactionService.js:86-89 | rewriting only sequence numbers or categories keeps every per-currency sum |
| Fees.Round | server/lib/feeTransactions/abstractFeeTransactions.js:26-28 | `Math.round`: the result lies in (x − ½, x + ½], so it is the nearest integer with a half rounded up |
| Fees.RoundOfInteger | server/lib/feeTransactions/abstractFeeTransactions.js:27 | rounding is the identity on whole minor units |
| Fees.RoundHalfUp | server/lib/feeTransactions/abstractFeeTransactions.js:27 | n + ½ rounds to n + 1 and n − ½ rounds to n |
| Fees.FeeTransactions.constructor | server/lib/feeTransactions/abstractFeeTransactions.js:6-10 | keeps the transaction, sets the fee to null and binds no collector, so validation fails until `SetTransactionInfo` runs |
| Fees.FeeTransactions.ValidateFeeTransaction | server/lib/feeTransactions/abstractFeeTransactions.js:12-22 | the checks run in the order account, wallet, fee; the first falsy field picks the message; a fee of 0 counts as missing; it passes exactly when all three are truthy |
| Fees.FeeTransactions.SetTransactionInfo | server/lib/feeTransactions/walletProviderFeeTransactions.js:10-15 | the wallet-provider generator binds `WalletProviderAccountId`, `WalletProviderWalletId`, the fee from `platformFee` and the category WALLET_PROVIDER; validation then passes exactly when those three source fields are truthy; the base generator changes nothing |
| Fees.FeeTransactions.TotalFee | server/lib/feeTransactions/abstractFeeTransactions.js:26-28 | the fee rounded to the nearest integer, with a half rounded up; a null fee gives 0 |
| Fees.FeeTransactions.PayerWalletId | server/lib/feeTransactions/abstractFeeTransactions.js:37-39 | the payer is the destination-currency bridging wallet when there is one, otherwise the principal's FromWalletId |
| Fees.FeeTransactions.FeeTransaction | server/lib/feeTransactions/abstractFeeTransactions.js:40-52 | the provisional fee transaction: principal's FromAccountId to the collector account, payer wallet to collector wallet, the rounded fee, `destinationCurrency \|\| currency`, and no `TransactionGroup` |
| Fees.FeeTransactions.FeeDoubleEntryTransactions | server/lib/feeTransactions/abstractFeeTransactions.js:34-54 | validation runs first, so a failure yields its error and no rows; otherwise one mirrored pair; its credit goes from the payer wallet to the collector wallet in the fee currency and, for a non-negative fee, from the principal's account to the collector account for the rounded fee, while a negative fee reverses the accounts and the credit carries its absolute value; both rows have an undefined group id, the given double-entry id and the principal's sequence number then the next one; the rows are exactly the builder's pair for the fee transaction |
| Forex.ValidateForexTransaction | server/strategies/abstractTransactionForexStrategy.js:45-58 | destinationAmount, destinationCurrency, PaymentProviderWalletName and PaymentProviderAccountId are checked in that order; the first falsy one picks the message; a destinationAmount of 0 counts as missing; it passes exactly when all four are truthy |
| Forex.MissingWalletNameRejected | server/strategies/abstractTransactionForexStrategy.js:52-54 | a request without a payment-provider wallet name fails with 'PaymentProviderWalletName field missing', not with a message about a wallet id |
| Forex.NewTransactionForexStrategy | server/strategies/abstractTransactionForexStrategy.js:6-9 | construction validates: an invalid request gives the validation error and no strategy; a valid one gives a fresh strategy holding the request |
| Forex.TransactionForexStrategy.constructor | server/strategies/abstractTransactionForexStrategy.js:6-9 | a strategy holds a request that passed validation |
| Forex.TransactionForexStrategy.FindOrCreateAccountWallets | server/strategies/abstractTransactionForexStrategy.js:11-29 | the sender's wallet is looked up by (FromWalletName, currency, FromAccountId) and the receiver's by (ToWalletName, destinationCurrency, ToAccountId); their ids become FromWalletId and ToWalletId; the temporary destination-currency wallet of the sender wallet's owner becomes the bridging wallet; nothing else changes |
| Forex.NetAmount | server/strategies/abstractTransactionForexStrategy.js:31-43 | the net amount plus each present generator's total fee equals destinationAmount |
| Forex.TransactionForexStrategy.GetTransactionNetAmount | server/strategies/abstractTransactionForexStrategy.js:31-43 | returns destinationAmount less each non-null generator's rounded fee; with no generators it is destinationAmount |
| Forex.SenderPaysWalletProviderFeeExample | test/transactions/strategies/transactions.forex.test.js:122-124 | 4500 with a wallet-provider fee of 225 nets 4275, and the principal pair built from it is −4275 / +4275 |
| Forex.WithCategory | server/strategies/transactionForexStrategy.js:50-54 | tagging sets the category of every row and changes nothing else |
| Forex.TaggedPairsBalance | server/strategies/transactionForexStrategy.js:59-63 | tagged pairs stay mirrored pairs and still balance in every currency |
| Forex.ForexBatchBalanced | server/strategies/transactionForexStrategy.js:39-40 | principal pair and conversion rows, in either order, form a batch of pairs that balances in every currency whenever the conversion rows are pairs |
| Forex.TransactionForexStrategy.GetTransactions | server/strategies/transactionForexStrategy.js:43-86 | after the wallet step: without a source-currency receiver wallet it fails; otherwise the rows are the ACCOUNT pair built, before the fee step, from a copy whose ToWalletId is that wallet's id, followed by the CURRENCY_CONVERSION rows built from the request the fee step leaves; the principal carries the original amount; the request's own ToWalletId is the one the fee step leaves; with senderPayFees the request's amount becomes the net amount afterwards; when the conversion rows are mirrored pairs, the whole batch is too and balances in every currency |
| Forex.TransactionForexStrategy.GetTransactionsWithFromAccountConvertingCurrency | server/strategies/transactionForexStrategy.js:12-41 | conversion rows are built from the request the wallet step and the fee step leave; the amount then becomes destinationAmount, or the net amount with senderPayFees; FromWalletId becomes the bridging wallet and currency becomes destinationCurrency; the ACCOUNT pair built from that follows the conversion rows; without a bridging wallet it fails after the amount has been overridden; when the conversion rows are mirrored pairs, the whole batch is too and balances in every currency |
| TransactionService.DefineTransactionStrategy | server/services/transactionService.js:115-131 | non-forex and not refund gives Regular; non-forex refund gives Refund; forex refund gives ForexRefund; otherwise forex gives Forex when its validation passes and the validation error when it does not; a refund is a refund group id, or a truthy RefundTransactionId below LegacyCreditTransactionId |
| TransactionService.WithGroupSequence | server/services/transactionService.js:86-89 | length and order are kept; row i gets sequence number i; nothing else about any row changes |
| TransactionService.AssignGroupSequence | server/services/transactionService.js:86-89 | the loop leaves the array equal to the numbered batch of its old contents |
| TransactionService.SequenceNumbersContiguous | server/services/transactionService.js:86-89 | the sequence numbers of an N-row batch are exactly 0 .. N−1, each used once |
| TransactionService.SequencingIdempotent | server/services/transactionService.js:86-89 | numbering a numbered batch changes nothing |
| TransactionService.SequencingKeepsBalance | server/services/transactionService.js:86-89 | numbering a batch of pairs keeps it a batch of pairs balanced in every currency |
| TransactionService.NegatedFee | server/services/transactionService.js:154-156 | a legacy fee is negated; an absent one stays absent; the result is truthy exactly when the legacy fee is |
| TransactionService.ParseTransaction | server/services/transactionService.js:148-301 | the three legacy fees are negated into walletProviderFee, platformFee and paymentProviderFee; destinationCurrency defaults to currency and destinationAmount to amount; a wallet-provider wallet exists exactly when the negated host fee is truthy, with the account from the host, the expense or the order; WalletProviderAccountId is its AccountId or undefined; a payment-provider wallet always exists, chosen by PaymentMethodId > ExpenseId > order payment method > the order fallback, and PaymentProviderAccountId is its AccountId; the wallet-provider and payment-provider descriptors are owned by their own account, with a null currency except the expense wallet provider's expenseCurrency; the to-wallet descriptor takes the host currency, CollectiveId and its owner (HostCollectiveId, else CollectiveHostId or CollectiveId, else with a host fee the expense payout text or orderPaymentMethodCollectiveId); the from-wallet descriptor takes the currency, FromCollectiveId and its owner by the same PaymentMethodId > ExpenseId > order payment method > order sender priority, and its PaymentMethodId, SourcePaymentMethodId, ExpenseId and OrderId become null when falsy; LegacyDebitTransactionId, SourcePaymentMethodId, forexRate and forexRateSourceCoin are copied, and forexRateDestinationCoin is the raw hostCurrency, so it stays falsy when destinationCurrency falls back to currency |
| TransactionService.ParsedForexRequestRejected | server/services/transactionService.js:157-192 | a parsed request has no PaymentProviderWalletName, so when the table sends it to the forex strategy it is rejected |
| TransactionService.ParsedForexIffHostCurrencyDiffers | server/services/transactionService.js:151 | a parsed request is forex exactly when its host currency is set and differs from its currency |

## Left out

- `get` and `getLegacyCreditTransactionsIdsOrderByCreatedAt` are raw SQL run against the database.
- `insert`, `insertParsedTransaction`, `parseAndInsertTransaction` and `insertMultipleParsedTransactions` hand the batch to an all-or-nothing database write. Persistence and atomicity belong to the database.
- `getSequencedTransactions`: only its numbering loop is modelled (`AssignGroupSequence`). The strategy call before it runs strategies that are not part of this model.
- The regular, refund and forex-refund strategies, and the platform and payment-provider fee generators, are not part of this model. Whether the forex-refund constructor validates is not modelled either.
- `findOrCreateWallets`, `getFeeTransactions`, `ForexConversionTransactions`, `ForexToAccountConvertTransactions` and `getAllTransactionsWithFee` are not part of this model. The first, the request update of `getFeeTransactions` and the two conversion generators are function parameters, and the fee generators it returns are object parameters. The strategy methods return the row list they hand to `getAllTransactionsWithFee`, so the fee rows it appends, and the tests' row counts, are not stated.
- Forex.TransactionForexStrategy.GetTransactions: requires that the wallet step and the fee step (`getFeeTransactions`, which writes to the shared request) keep the request's accounts, amounts, currencies, validated fields and senderPayFees. Both steps are parameters; what else they write to the request is left open, and the fee generators they produce are passed in separately, so the model does not tie those generators to the request the fee step returns.
- Forex.TransactionForexStrategy.GetTransactionsWithFromAccountConvertingCurrency: requires the same of the wallet step and the fee step, with the same separation of the fee generators.
- `server/lib/transactionLib.js`, whose `getDoubleEntryArray` the fee generator and the forex strategy call, is not part of this model. The model assumes it builds the same pair as `getDoubleEntryArray` in `server/lib/transactionUtil.js` and uses `TransactionUtil.DoubleEntryArray` for both; what it states about fee and principal rows (the undefined fee `transactionGroupId`, the amounts, accounts and sequence numbers) holds under that assumption.
- `server/strategies/abstractTransactionStrategy.js`, whose constructor runs before forex validation, is not part of this model. The model assumes it stores the request without adding fields; `ParsedForexRequestRejected` and `DefineTransactionStrategy` rely on that, since a `PaymentProviderWalletName` set there would change the forex validation outcome.
- Wallet lookups are total functions, so a failing lookup (a fatal resolution error in the source) is not modelled. `uuidv4` is a parameter.
- Fees.FeeTransactions.PayerWalletId: the source stores the bridging wallet object itself as FromWalletId; the model stores its id.
- Fees.FeeTransactions.TotalFee: an absent fee is read as null (`Math.round(null)` is 0); `undefined`, which would give NaN, is not told apart.
- Numeric fields hold `Option` values with `None` for both null and undefined. So `-1 * undefined` (NaN) and `-1 * null` (-0) are both an absent fee, and a null legacy credit id never compares greater.
- Fee amounts are exact reals, not IEEE doubles. The percentage fee the tests compute is floating point done in code not shown.
- In the source the fee generators and the strategy share one mutable request object. The model gives each generator its own copy.
- Display-name template strings of the wallets, and the pass-through fields `description`, `createdAt` and `updatedAt`, are not modelled.
- `async`/`await` only sequences the steps here; there is no concurrency to model.
