/**
 * The rewrite shared by update_qkey_amounts.js and fix_qkey_amounts.js: every
 * 'earn' record of amount 10 gets amount 2, and, under the second script's
 * policy, a `balanceAfter` lowered by the 8 taken off the amount. The updates
 * are staged in one batch, built from the snapshot, and committed once.
 */
module AmountRewrite {
  import opened Collections
  import opened Store
  import opened Ledger

  const OldAmount: int := 10
  const NewAmount: int := 2
  /** `10 - 2`: what fix_qkey_amounts.js takes off `balanceAfter`. */
  const BalanceCorrection: int := 8

  /** An 'earn' record still carrying the old amount. */
  predicate IsTarget(d: Doc<Tx>)
  {
    IsEarn(d) && d.data.amount == OldAmount
  }

  predicate HasOldAmount(d: Doc<Tx>)
  {
    d.data.amount == OldAmount
  }

  /** Which fields the update writes: update_qkey_amounts.js leaves `balanceAfter` alone. */
  datatype Policy = AmountOnly | AmountAndBalance

  /** The patch staged for a snapshot record. */
  function PatchFor(policy: Policy, t: Tx): TxPatch
  {
    match policy
    case AmountOnly => TxPatch(NewAmount, None)
    case AmountAndBalance => TxPatch(NewAmount, Some(t.balanceAfter - BalanceCorrection))
  }

  /** A record as the rewrite leaves it. */
  function Rewritten(d: Doc<Tx>, policy: Policy): Doc<Tx>
  {
    if IsTarget(d) then Doc(d.id, ApplyTxPatch(d.data, PatchFor(policy, d.data))) else d
  }

  /**
   * The collection after the rewrite: no target is left; the targets have
   * the new amount and, per policy, the corrected `balanceAfter`, and keep
   * every other field; every other record is untouched.
   */
  function RewriteAll(txs: seq<Doc<Tx>>, policy: Policy): (r: seq<Doc<Tx>>)
    ensures |r| == |txs|
    ensures forall i :: 0 <= i < |r| ==> !IsTarget(r[i])
    ensures forall i :: 0 <= i < |r| && !IsTarget(txs[i]) ==> r[i] == txs[i]
    ensures forall i :: 0 <= i < |r| && IsTarget(txs[i]) ==>
              && r[i].id == txs[i].id
              && r[i].data.amount == NewAmount
              && r[i].data.balanceAfter == (if policy == AmountOnly then txs[i].data.balanceAfter
                                            else txs[i].data.balanceAfter - BalanceCorrection)
              && r[i].data.(amount := txs[i].data.amount, balanceAfter := txs[i].data.balanceAfter) == txs[i].data
  {
    seq(|txs|, i requires 0 <= i < |txs| => Rewritten(txs[i], policy))
  }

  /** The `batch.update` calls made for the records of `snapshot`, in snapshot order. */
  function OpsFor(snapshot: seq<Doc<Tx>>, policy: Policy): (ops: seq<TxOp>)
    ensures |ops| == |snapshot|
    ensures forall j :: 0 <= j < |snapshot| ==> ops[j] == TxOp(snapshot[j].id, PatchFor(policy, snapshot[j].data))
  {
    seq(|snapshot|, j requires 0 <= j < |snapshot| => TxOp(snapshot[j].id, PatchFor(policy, snapshot[j].data)))
  }

  /** The ids of the records of `s`. */
  function IdsOf(s: seq<Doc<Tx>>): set<Id>
  {
    set d | d in s :: d.id
  }

  /** The collection while a batch is staged: the targets whose id is in `done` are rewritten. */
  function Staged(txs: seq<Doc<Tx>>, policy: Policy, done: set<Id>): seq<Doc<Tx>>
  {
    seq(|txs|, i requires 0 <= i < |txs| => if txs[i].id in done then Rewritten(txs[i], policy) else txs[i])
  }

  /**
   * Applying the updates staged for the first `k` records of a snapshot of
   * targets rewrites exactly those records.
   */
  lemma {:induction false} BatchPrefix(txs: seq<Doc<Tx>>, policy: Policy, snapshot: seq<Doc<Tx>>, k: int)
    requires UniqueIds(txs)
    requires forall x :: x in snapshot ==> x in txs && IsTarget(x)
    requires 0 <= k <= |snapshot|
    ensures ApplyBatch(txs, OpsFor(snapshot[..k], policy)) == Staged(txs, policy, IdsOf(snapshot[..k]))
  {
    if k == 0 {
      assert OpsFor(snapshot[..0], policy) == [];
      assert IdsOf(snapshot[..0]) == {};
    } else {
      BatchPrefix(txs, policy, snapshot, k - 1);
      var ops := OpsFor(snapshot[..k], policy);
      assert ops[..k - 1] == OpsFor(snapshot[..k - 1], policy);
      var x := snapshot[k - 1];
      assert x in snapshot;
      assert snapshot[..k] == snapshot[..k - 1] + [x];
      assert IdsOf(snapshot[..k]) == IdsOf(snapshot[..k - 1]) + {x.id};
      StageOne(txs, policy, IdsOf(snapshot[..k - 1]), x);
    }
  }

  /** One more staged update: the record with that id, and no other, becomes rewritten. */
  lemma StageOne(txs: seq<Doc<Tx>>, policy: Policy, done: set<Id>, x: Doc<Tx>)
    requires UniqueIds(txs) && x in txs && IsTarget(x)
    ensures PatchTxs(Staged(txs, policy, done), x.id, PatchFor(policy, x.data)) == Staged(txs, policy, done + {x.id})
  {
    var k :| 0 <= k < |txs| && txs[k] == x;
    var before := Staged(txs, policy, done);
    var after := PatchTxs(before, x.id, PatchFor(policy, x.data));
    forall i | 0 <= i < |txs| ensures after[i] == Staged(txs, policy, done + {x.id})[i] {
      if txs[i].id == x.id {
        assert i == k;
      }
    }
  }

  /**
   * The batch built from the snapshot of all targets, once committed, is the
   * rewrite of the whole collection.
   */
  lemma BatchRewritesAll(txs: seq<Doc<Tx>>, policy: Policy)
    requires UniqueIds(txs)
    ensures ApplyBatch(txs, OpsFor(Filter(txs, IsTarget), policy)) == RewriteAll(txs, policy)
  {
    var snapshot := Filter(txs, IsTarget);
    BatchPrefix(txs, policy, snapshot, |snapshot|);
    assert snapshot[..|snapshot|] == snapshot;
    var staged := Staged(txs, policy, IdsOf(snapshot));
    forall i | 0 <= i < |txs| ensures staged[i] == RewriteAll(txs, policy)[i] {
      if IsTarget(txs[i]) {
        assert txs[i] in snapshot;
      }
    }
  }

  /** After the rewrite the target query is empty, so a second run finds nothing to rewrite. */
  lemma RewriteLeavesNoTarget(txs: seq<Doc<Tx>>, policy: Policy)
    ensures Filter(RewriteAll(txs, policy), IsTarget) == []
  {
    FilterNone(RewriteAll(txs, policy), IsTarget);
  }

  /** The rewrite changes no record's type, so it keeps the number of 'earn' records. */
  lemma {:induction false} RewriteKeepsEarnCount(txs: seq<Doc<Tx>>, policy: Policy)
    ensures |Filter(RewriteAll(txs, policy), IsEarn)| == |Filter(txs, IsEarn)|
  {
    if txs != [] {
      var init := txs[..|txs| - 1];
      RewriteKeepsEarnCount(init, policy);
      assert RewriteAll(txs, policy)[..|txs| - 1] == RewriteAll(init, policy);
    }
  }

  /** Selecting the old amount among the 'earn' records selects exactly the targets, in the same order. */
  lemma {:induction false} EarnThenOldAmount(txs: seq<Doc<Tx>>)
    ensures Filter(Filter(txs, IsEarn), HasOldAmount) == Filter(txs, IsTarget)
  {
    if txs != [] {
      var init, d := txs[..|txs| - 1], txs[|txs| - 1];
      EarnThenOldAmount(init);
      var e := Filter(init, IsEarn);
      assert Filter(txs, IsEarn) == e + if IsEarn(d) then [d] else [];
      assert Filter(txs, IsTarget) == Filter(init, IsTarget) + if IsTarget(d) then [d] else [];
      if IsEarn(d) {
        assert (e + [d])[..|e|] == e;
        assert Filter(e + [d], HasOldAmount) == Filter(e, HasOldAmount) + if HasOldAmount(d) then [d] else [];
      } else {
        assert e + [] == e;
      }
    }
  }

  /** A set collected from the records of `s` has at most |s| elements. */
  lemma {:induction false} SetImageBound(s: seq<Doc<Tx>>, f: Doc<Tx> -> Id)
    ensures |set d | d in s :: f(d)| <= |s|
  {
    if s != [] {
      var init, x := s[..|s| - 1], s[|s| - 1];
      SetImageBound(init, f);
      assert s == init + [x];
      assert (set d | d in s :: f(d)) == (set d | d in init :: f(d)) + {f(x)};
    }
  }

  /**
   * After the rewrite, the histogram of the 'earn' amounts has no entry for
   * the old amount, and its counts sum to the number of 'earn' records.
   */
  lemma PostRewriteHistogram(txs: seq<Doc<Tx>>, policy: Policy)
    ensures OldAmount !in Tally(Amounts(Filter(RewriteAll(txs, policy), IsEarn)))
    ensures SumValues(Tally(Amounts(Filter(RewriteAll(txs, policy), IsEarn)))) == |Filter(txs, IsEarn)|
  {
    var r := RewriteAll(txs, policy);
    var earns := Filter(r, IsEarn);
    TallyCounts(Amounts(earns));
    TallySum(Amounts(earns));
    AmountsAt(earns);
    AmountsMember(earns, OldAmount);
    RewriteKeepsEarnCount(txs, policy);
  }

  /** `amountCounts[amount] = (amountCounts[amount] || 0) + 1` over the records of `docs`. */
  method CountAmounts(docs: seq<Doc<Tx>>) returns (counts: map<int, int>)
    ensures counts == Tally(Amounts(docs))
  {
    counts := map[];
    for i := 0 to |docs|
      invariant counts == Tally(Amounts(docs[..i]))
    {
      assert docs[..i + 1][..i] == docs[..i];
      var amount := docs[i].data.amount;
      counts := counts[amount := (if amount in counts then counts[amount] else 0) + 1];
    }
    assert docs[..|docs|] == docs;
  }
}
