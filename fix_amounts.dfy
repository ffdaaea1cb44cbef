/**
 * fix_qkey_amounts.js: query the 'earn' records of amount 10, stage
 * `amount: 2` and `balanceAfter - 8` for each in one batch, commit it, then
 * report the affected users and the histogram of the 'earn' amounts as they
 * are after the commit.
 */
module FixAmounts {
  import opened Collections
  import opened Store
  import opened Ledger
  import opened AmountRewrite

  datatype FixOutcome =
    | NothingToFix
    | Fixed(updateCount: int, affectedUsers: set<Id>, amountCounts: map<int, int>, amountOrder: seq<int>)

  /** The users who own a record of `s`. */
  function UserIdsOf(s: seq<Doc<Tx>>): set<Id>
  {
    set d | d in s :: d.data.userId
  }

  /** Lines 33-55: one staged update per snapshot record. */
  method StageFixes(snapshot: seq<Doc<Tx>>) returns (ops: seq<TxOp>, updateCount: int)
    ensures ops == OpsFor(snapshot, AmountAndBalance)
    ensures updateCount == |snapshot|
  {
    ops, updateCount := [], 0;
    for i := 0 to |snapshot|
      invariant ops == OpsFor(snapshot[..i], AmountAndBalance)
      invariant updateCount == i
    {
      var d := snapshot[i];
      var newBalance := d.data.balanceAfter - BalanceCorrection;
      ops := ops + [TxOp(d.id, TxPatch(NewAmount, Some(newBalance)))];
      updateCount := updateCount + 1;
    }
    assert snapshot[..|snapshot|] == snapshot;
  }

  /** Lines 70-73: `affectedUsers.add(userId)` for every snapshot record. */
  method AffectedUsers(snapshot: seq<Doc<Tx>>) returns (affected: set<Id>)
    ensures affected == UserIdsOf(snapshot)
    ensures |affected| <= |snapshot|
  {
    affected := {};
    for i := 0 to |snapshot|
      invariant affected == UserIdsOf(snapshot[..i])
    {
      assert snapshot[..i + 1] == snapshot[..i] + [snapshot[i]];
      affected := affected + {snapshot[i].data.userId};
    }
    assert snapshot[..|snapshot|] == snapshot;
    var owner := (d: Doc<Tx>) => d.data.userId;
    SetImageBound(snapshot, owner);
    assert (set d | d in snapshot :: owner(d)) == affected;
  }

  /** fixQKeyAmounts. */
  method FixQKeyAmounts(store: Store) returns (outcome: FixOutcome)
    requires store.Valid()
    modifies store
    ensures store.Valid()
    ensures outcome.NothingToFix? <==> Filter(old(store.transactions), IsTarget) == []
    ensures outcome.NothingToFix? ==> store.transactions == old(store.transactions) && store.log == old(store.log)
    ensures outcome.Fixed? ==>
              var snapshot := Filter(old(store.transactions), IsTarget);
              && outcome.updateCount == |snapshot|
              && store.transactions == RewriteAll(old(store.transactions), AmountAndBalance)
              && store.log == old(store.log) + [Committed(Transactions, OpIds(OpsFor(snapshot, AmountAndBalance)))]
              && outcome.affectedUsers == UserIdsOf(snapshot)
              && |outcome.affectedUsers| <= outcome.updateCount
              && outcome.amountCounts == Tally(Amounts(Filter(store.transactions, IsEarn)))
              && OldAmount !in outcome.amountCounts
              && SumValues(outcome.amountCounts) == |Filter(old(store.transactions), IsEarn)|
              && (forall a, b :: 0 <= a < b < |outcome.amountOrder| ==> outcome.amountOrder[a] >= outcome.amountOrder[b])
              && multiset(outcome.amountOrder) == multiset(outcome.amountCounts.Keys)
    ensures store.users == old(store.users) && store.packs == old(store.packs)
  {
    var snapshot := Filter(store.transactions, IsTarget);
    if |snapshot| == 0 {
      return NothingToFix;
    }
    var ops, updateCount := StageFixes(snapshot);
    BatchRewritesAll(store.transactions, AmountAndBalance);
    PostRewriteHistogram(store.transactions, AmountAndBalance);
    store.CommitTransactions(ops);
    var affected := AffectedUsers(snapshot);
    var finalSnapshot := Filter(store.transactions, IsEarn);
    var amountCounts := CountAmounts(finalSnapshot);
    var order := KeysDescending(amountCounts.Keys);
    outcome := Fixed(updateCount, affected, amountCounts, order);
  }
}
