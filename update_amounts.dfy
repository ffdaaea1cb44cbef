/**
 * update_qkey_amounts.js: over the 'earn' records, stage `amount: 2` for each
 * record of amount 10 in one batch, leave `balanceAfter` alone, and commit
 * the batch once.
 */
module UpdateAmounts {
  import opened Collections
  import opened Store
  import opened Ledger
  import opened AmountRewrite

  /** Firestore's limit on the writes of one batch; the script only warns past it. */
  const BatchLimit: int := 500

  datatype UpdateOutcome =
    | NoEarnRecords
    | NothingToUpdate
    | Rewrote(total: int, updateCount: int, untouched: int, warned: bool)

  /**
   * The staging loop of lines 42-72 over the 'earn' snapshot: the records
   * pushed to `transactionsToUpdate`, the batch, the counters, and whether
   * the 500-write warning was printed.
   */
  method StageUpdates(snapshot: seq<Doc<Tx>>) returns (toUpdate: seq<Doc<Tx>>, ops: seq<TxOp>, updateCount: int, warned: bool)
    ensures toUpdate == Filter(snapshot, HasOldAmount)
    ensures ops == OpsFor(toUpdate, AmountOnly)
    ensures updateCount == |toUpdate|
    ensures warned <==> updateCount >= BatchLimit
  {
    toUpdate, ops := [], [];
    var batchCount := 0;
    updateCount, warned := 0, false;
    for i := 0 to |snapshot|
      invariant toUpdate == Filter(snapshot[..i], HasOldAmount)
      invariant ops == OpsFor(toUpdate, AmountOnly)
      invariant updateCount == batchCount == |toUpdate|
      invariant warned <==> updateCount >= BatchLimit
    {
      assert snapshot[..i + 1][..i] == snapshot[..i];
      var d := snapshot[i];
      if d.data.amount == OldAmount {
        toUpdate := toUpdate + [d];
        ops := ops + [TxOp(d.id, PatchFor(AmountOnly, d.data))];
        updateCount := updateCount + 1;
        batchCount := batchCount + 1;
        if batchCount >= BatchLimit {
          warned := true;
        }
      }
    }
    assert snapshot[..|snapshot|] == snapshot;
  }

  /** updateQKeyAmounts. */
  method UpdateQKeyAmounts(store: Store) returns (outcome: UpdateOutcome)
    requires store.Valid()
    modifies store
    ensures store.Valid()
    ensures outcome.NoEarnRecords? <==> Filter(old(store.transactions), IsEarn) == []
    ensures outcome.NothingToUpdate? <==>
              Filter(old(store.transactions), IsEarn) != [] && Filter(old(store.transactions), IsTarget) == []
    ensures !outcome.Rewrote? ==> store.transactions == old(store.transactions) && store.log == old(store.log)
    ensures outcome.Rewrote? ==>
              && outcome.total == |Filter(old(store.transactions), IsEarn)|
              && outcome.updateCount == |Filter(old(store.transactions), IsTarget)|
              && outcome.untouched == outcome.total - outcome.updateCount
              && (outcome.warned <==> outcome.updateCount >= BatchLimit)
              && store.transactions == RewriteAll(old(store.transactions), AmountOnly)
              && store.log == old(store.log) + [Committed(Transactions, OpIds(OpsFor(Filter(old(store.transactions), IsTarget), AmountOnly)))]
    ensures store.users == old(store.users) && store.packs == old(store.packs)
  {
    var snapshot := Filter(store.transactions, IsEarn);
    if |snapshot| == 0 {
      return NoEarnRecords;
    }
    var toUpdate, ops, updateCount, warned := StageUpdates(snapshot);
    EarnThenOldAmount(store.transactions);
    if |toUpdate| == 0 {
      return NothingToUpdate;
    }
    BatchRewritesAll(store.transactions, AmountOnly);
    store.CommitTransactions(ops);
    outcome := Rewrote(|snapshot|, updateCount, |snapshot| - updateCount, warned);
  }

  /**
   * A second run finds the same 'earn' records and none of amount 10, so it
   * ends with nothing to update and writes nothing.
   */
  lemma RerunFindsNothing(txs: seq<Doc<Tx>>)
    requires Filter(txs, IsEarn) != []
    ensures Filter(RewriteAll(txs, AmountOnly), IsEarn) != []
    ensures Filter(RewriteAll(txs, AmountOnly), IsTarget) == []
  {
    RewriteKeepsEarnCount(txs, AmountOnly);
    RewriteLeavesNoTarget(txs, AmountOnly);
  }
}
