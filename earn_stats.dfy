/**
 * check_earn_amounts.js: a read-only survey of the 'earn' records. For every
 * amount it counts the records and collects the distinct users who received
 * it, lists the amounts largest first, keeps the first five records as a
 * sample, and says whether any record still carries 10 or 20.
 */
module EarnStats {
  import opened Collections
  import opened Store
  import opened Ledger
  import opened AmountRewrite

  /** Number of records in the sample (`slice(0, 5)`). */
  const SampleSize: nat := 5

  /** The amounts the script reports as still to be changed to 2. */
  const PendingAmountA: int := 10
  const PendingAmountB: int := 20

  /** One entry of `amountStats`: the record count and the set of user ids. */
  datatype AmountStat = AmountStat(count: int, userIds: set<Id>)

  /** One turn of the `forEach` of lines 35-48 on record `d`. */
  function StatStep(m: map<int, AmountStat>, d: Doc<Tx>): map<int, AmountStat>
  {
    var a := d.data.amount;
    var st := if a in m then m[a] else AmountStat(0, {});
    m[a := AmountStat(st.count + 1, st.userIds + {d.data.userId})]
  }

  /** `amountStats` after the loop has run over `s`. */
  function StatsByAmount(s: seq<Doc<Tx>>): map<int, AmountStat>
  {
    if s == [] then map[] else StatStep(StatsByAmount(s[..|s| - 1]), s[|s| - 1])
  }

  /** The counts alone, as a histogram. */
  function Counts(m: map<int, AmountStat>): map<int, int>
  {
    map a | a in m :: m[a].count
  }

  /** The users owning a record of `s` with amount `a`. */
  function OwnersOf(s: seq<Doc<Tx>>, a: int): set<Id>
  {
    if s == [] then {}
    else
      var d := s[|s| - 1];
      OwnersOf(s[..|s| - 1], a) + if d.data.amount == a then {d.data.userId} else {}
  }

  /** A user is an owner exactly when some record of `s` with that amount is theirs. */
  lemma {:induction false} OwnersMeaning(s: seq<Doc<Tx>>, a: int)
    ensures forall u :: u in OwnersOf(s, a) <==> exists d :: d in s && d.data.amount == a && d.data.userId == u
  {
    if s != [] {
      var init, d := s[..|s| - 1], s[|s| - 1];
      OwnersMeaning(init, a);
      assert s == init + [d];
      forall u ensures u in OwnersOf(s, a) <==> exists e :: e in s && e.data.amount == a && e.data.userId == u {
        if exists e :: e in s && e.data.amount == a && e.data.userId == u {
          var e :| e in s && e.data.amount == a && e.data.userId == u;
          assert e in init || e == d;
        }
      }
    }
  }

  /** The counts are the histogram of the amounts of `s`. */
  lemma {:induction false} StatsCounts(s: seq<Doc<Tx>>)
    ensures Counts(StatsByAmount(s)) == Tally(Amounts(s))
  {
    if s != [] {
      var init, d := s[..|s| - 1], s[|s| - 1];
      StatsCounts(init);
      var xs := Amounts(s);
      assert xs[..|xs| - 1] == Amounts(init);
      var m := StatsByAmount(init);
      var a := d.data.amount;
      assert Counts(StatStep(m, d)) == Counts(m)[a := (if a in Counts(m) then Counts(m)[a] else 0) + 1];
    }
  }

  /**
   * Each entry's user set is the set of owners of the records with that
   * amount and is no larger than the count; an amount without entry has no
   * owner.
   */
  lemma {:induction false} StatsUsers(s: seq<Doc<Tx>>)
    ensures forall a :: a !in StatsByAmount(s) ==> OwnersOf(s, a) == {}
    ensures forall a :: a in StatsByAmount(s) ==>
              StatsByAmount(s)[a].userIds == OwnersOf(s, a) && 1 <= |OwnersOf(s, a)| <= StatsByAmount(s)[a].count
  {
    if s != [] {
      var init, d := s[..|s| - 1], s[|s| - 1];
      StatsUsers(init);
      var m, r := StatsByAmount(init), StatsByAmount(s);
      forall a | a in r
        ensures r[a].userIds == OwnersOf(s, a) && 1 <= |OwnersOf(s, a)| <= r[a].count
      {
        if a == d.data.amount {
          var prev := if a in m then OwnersOf(init, a) else {};
          assert OwnersOf(s, a) == prev + {d.data.userId};
          assert |prev + {d.data.userId}| <= |prev| + 1;
        }
      }
    }
  }

  /** An amount has an entry exactly when some record of `s` carries it. */
  lemma StatsKeys(s: seq<Doc<Tx>>)
    ensures forall a :: a in StatsByAmount(s) <==> exists d :: d in s && d.data.amount == a
  {
    StatsUsers(s);
    forall a ensures a in StatsByAmount(s) <==> exists d :: d in s && d.data.amount == a {
      OwnersMeaning(s, a);
      if exists d :: d in s && d.data.amount == a {
        var d :| d in s && d.data.amount == a;
        assert d.data.userId in OwnersOf(s, a);
      }
    }
  }

  /** The counts sum to the number of records surveyed. */
  lemma CountsTotal(s: seq<Doc<Tx>>)
    ensures SumValues(Counts(StatsByAmount(s))) == |s|
  {
    StatsCounts(s);
    TallySum(Amounts(s));
    AmountsAt(s);
  }

  /** `amountStats[a]?.count || 0`: the number of records of `s` with amount `a`. */
  lemma CountOrZero(s: seq<Doc<Tx>>, a: int)
    ensures (if a in StatsByAmount(s) then StatsByAmount(s)[a].count else 0) == multiset(Amounts(s))[a]
  {
    StatsCounts(s);
    TallyCounts(Amounts(s));
    assert a in StatsByAmount(s) <==> a in Counts(StatsByAmount(s));
  }

  /** The figures of lines 83-100: the counts of 10 and 20, and whether a change is pending. */
  datatype PendingCounts = PendingCounts(amount10Count: int, amount20Count: int, pendingChange: bool)

  /**
   * What the script prints, as values. `pending` is None when printing the
   * sample threw, so the lines after it were not reached.
   */
  datatype EarnReport = EarnReport(
    total: int,
    stats: map<int, AmountStat>,
    amountOrder: seq<int>,
    sample: seq<Doc<Tx>>,
    pending: Option<PendingCounts>)

  /**
   * Line 69 converts a record's `timestamp`; without one it reads
   * `undefined._seconds`, which throws.
   */
  predicate HasTimestamp(d: Doc<Tx>)
  {
    d.data.timestamp.Some?
  }

  /** The `forEach` of lines 67-78: false as soon as a record's timestamp cannot be read. */
  method PrintSample(sample: seq<Doc<Tx>>) returns (ok: bool)
    ensures ok <==> forall k :: 0 <= k < |sample| ==> HasTimestamp(sample[k])
  {
    for i := 0 to |sample|
      invariant forall k :: 0 <= k < i ==> HasTimestamp(sample[k])
    {
      if sample[i].data.timestamp.None? {
        return false;
      }
    }
    return true;
  }

  /** The `forEach` of lines 35-48. */
  method CollectStats(snapshot: seq<Doc<Tx>>) returns (amountStats: map<int, AmountStat>)
    ensures amountStats == StatsByAmount(snapshot)
  {
    amountStats := map[];
    for i := 0 to |snapshot|
      invariant amountStats == StatsByAmount(snapshot[..i])
    {
      assert snapshot[..i + 1][..i] == snapshot[..i];
      var data := snapshot[i].data;
      var amount := data.amount;
      if amount !in amountStats {
        amountStats := amountStats[amount := AmountStat(0, {})];
      }
      amountStats := amountStats[amount := AmountStat(amountStats[amount].count + 1, amountStats[amount].userIds + {data.userId})];
    }
    assert snapshot[..|snapshot|] == snapshot;
  }

  /**
   * checkEarnAmounts: None when the 'earn' query is empty. The store has no
   * `modifies` clause here: the survey writes nothing.
   */
  method CheckEarnAmounts(store: Store) returns (r: Option<EarnReport>)
    ensures r.None? <==> Filter(store.transactions, IsEarn) == []
    ensures r.Some? ==>
      var earns := Filter(store.transactions, IsEarn);
      var stats := r.value.stats;
      && r.value.total == |earns|
      && Counts(stats) == Tally(Amounts(earns))
      && (forall a :: a in stats <==> exists d :: d in store.transactions && IsEarn(d) && d.data.amount == a)
      && (forall a :: a in stats ==> stats[a].userIds == OwnersOf(earns, a) && 1 <= |stats[a].userIds| <= stats[a].count)
      && SumValues(Counts(stats)) == r.value.total
      && (forall i, j :: 0 <= i < j < |r.value.amountOrder| ==> r.value.amountOrder[i] >= r.value.amountOrder[j])
      && multiset(r.value.amountOrder) == multiset(stats.Keys)
      && r.value.sample == earns[..if |earns| < SampleSize then |earns| else SampleSize]
      && (r.value.pending.Some? <==> forall k :: 0 <= k < |r.value.sample| ==> HasTimestamp(r.value.sample[k]))
      && (r.value.pending.Some? ==>
            var p := r.value.pending.value;
            && p.amount10Count == multiset(Amounts(earns))[PendingAmountA]
            && p.amount20Count == multiset(Amounts(earns))[PendingAmountB]
            && (!p.pendingChange <==> p.amount10Count == 0 && p.amount20Count == 0)
            && (p.pendingChange <==> exists d :: d in earns && (d.data.amount == PendingAmountA || d.data.amount == PendingAmountB)))
  {
    var snapshot := Filter(store.transactions, IsEarn);
    if |snapshot| == 0 {
      return None;
    }
    var amountStats := CollectStats(snapshot);
    var order := KeysDescending(amountStats.Keys);
    StatsCounts(snapshot);
    StatsUsers(snapshot);
    StatsKeys(snapshot);
    CountsTotal(snapshot);
    var sample := snapshot[..if |snapshot| < SampleSize then |snapshot| else SampleSize];
    var printed := PrintSample(sample);
    if !printed {
      return Some(EarnReport(|snapshot|, amountStats, order, sample, None));
    }
    var amount10Count := if PendingAmountA in amountStats then amountStats[PendingAmountA].count else 0;
    var amount20Count := if PendingAmountB in amountStats then amountStats[PendingAmountB].count else 0;
    CountOrZero(snapshot, PendingAmountA);
    CountOrZero(snapshot, PendingAmountB);
    ghost var pending := exists d :: d in snapshot && (d.data.amount == PendingAmountA || d.data.amount == PendingAmountB);
    assert pending <==> PendingAmountA in amountStats || PendingAmountB in amountStats;
    r := Some(EarnReport(|snapshot|, amountStats, order, sample,
                         Some(PendingCounts(amount10Count, amount20Count, amount10Count > 0 || amount20Count > 0))));
  }

  /** After either amount rewrite, the survey counts no 'earn' record of amount 10. */
  lemma NoTenAfterRewrite(txs: seq<Doc<Tx>>, policy: Policy)
    ensures multiset(Amounts(Filter(RewriteAll(txs, policy), IsEarn)))[PendingAmountA] == 0
  {
    var earns := Filter(RewriteAll(txs, policy), IsEarn);
    PostRewriteHistogram(txs, policy);
    TallyCounts(Amounts(earns));
  }
}
