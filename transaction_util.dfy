/**
 * The double-entry builder: one provisional transaction becomes an ordered
 * [DEBIT, CREDIT] pair of ledger rows.
 */
module TransactionUtil {
  import opened Wrappers
  import opened Ledger

  function Abs(x: int): (r: int)
    ensures r >= 0 && (r == x || r == -x)
  {
    if x < 0 then -x else x
  }

  /**
   * `sequence + 1`. An undefined sequence number gives NaN, modelled as
   * absent; a null one, which JavaScript turns into 1, is modelled as
   * absent too, since both are `None` here.
   */
  function NextSequence(s: Option<int>): (r: Option<int>)
    ensures s.Some? <==> r.Some?
    ensures s.Some? ==> r.value == s.value + 1
  {
    if s.Some? then Some(s.value + 1) else None
  }

  /**
   * The two rows for transaction `t`; `doubleEntryGroupId` is the fresh
   * identifier the source draws from uuidv4.
   *
   * The sign of `t.amount` only decides which account is the paying one on
   * the CREDIT row; the wallets are swapped the same way whatever the sign.
   * The group id is read from the field `TransactionGroup`.
   */
  function DoubleEntryArray(t: Provisional, doubleEntryGroupId: Value): (r: seq<Row>)
    ensures |r| == 2 && r[0].kind == Debit && r[1].kind == Credit
    ensures r[0].amount == -Abs(t.amount) && r[1].amount == Abs(t.amount)
    ensures r[0].amount + r[1].amount == 0
    ensures IsMirroredPair(r[0], r[1])
    ensures r[0].FromWalletId == t.ToWalletId && r[0].ToWalletId == t.FromWalletId
    ensures r[1].FromWalletId == t.FromWalletId && r[1].ToWalletId == t.ToWalletId
    ensures t.amount >= 0 ==> r[1].FromAccountId == t.FromAccountId && r[1].ToAccountId == t.ToAccountId
    ensures t.amount < 0 ==> r[0].FromAccountId == t.FromAccountId && r[0].ToAccountId == t.ToAccountId
    ensures forall i :: 0 <= i < 2 ==>
      && r[i].currency == t.currency
      && r[i].transactionGroupId == t.TransactionGroup
      && r[i].doubleEntryGroupId == doubleEntryGroupId
      && r[i].category == None
    ensures r[0].transactionGroupSequence == t.transactionGroupSequence
    ensures r[1].transactionGroupSequence == NextSequence(t.transactionGroupSequence)
  {
    var fromAccountId := if t.amount < 0 then t.FromAccountId else t.ToAccountId;
    var toAccountId := if t.amount < 0 then t.ToAccountId else t.FromAccountId;
    var fromWalletId := t.ToWalletId;
    var toWalletId := t.FromWalletId;
    var amount := if t.amount < 0 then -1 * t.amount else t.amount;
    var debit := Row(Debit, fromAccountId, toAccountId, fromWalletId, toWalletId, -1 * amount,
                     t.currency, t.TransactionGroup, t.transactionGroupSequence,
                     doubleEntryGroupId, None);
    var credit := Row(Credit, toAccountId, fromAccountId, toWalletId, fromWalletId, amount,
                      t.currency, t.TransactionGroup, NextSequence(t.transactionGroupSequence),
                      doubleEntryGroupId, None);
    [debit, credit]
  }

  /** The pair is a batch of mirrored pairs, so every currency in it balances. */
  lemma DoubleEntryBalances(t: Provisional, doubleEntryGroupId: Value, c: Value)
    ensures IsPairs(DoubleEntryArray(t, doubleEntryGroupId))
    ensures SumIn(DoubleEntryArray(t, doubleEntryGroupId), c) == 0
  {
    var r := DoubleEntryArray(t, doubleEntryGroupId);
    assert r[2..] == [];
    PairsBalance(r, c);
  }
}
