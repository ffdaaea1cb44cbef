/**
 * check_user_balance.js: the read-only report for one user found by
 * nickname: the replayed ledger, the per-type totals and counts, the
 * histogram of earn amounts, the drift against the stored balance and the
 * ten most recent records, newest first.
 */
module BalanceReport {
  import opened Collections
  import opened Store
  import opened Ledger
  import opened Recalculate

  /** Number of records in the recent view (`slice(-10)`). */
  const RecentLimit: nat := 10

  /**
   * `where('nickname', '==', nickname).get()` followed by `docs[0]`: the
   * position of the first user with that nickname, or None when the query is
   * empty.
   */
  function FirstByNickname(users: seq<Doc<User>>, nickname: string): (r: Option<int>)
    ensures r.None? <==> forall j :: 0 <= j < |users| ==> users[j].data.nickname != nickname
    ensures r.Some? ==> 0 <= r.value < |users| && users[r.value].data.nickname == nickname
    ensures r.Some? ==> forall j :: 0 <= j < r.value ==> users[j].data.nickname != nickname
  {
    if users == [] then None
    else if users[0].data.nickname == nickname then Some(0)
    else
      match FirstByNickname(users[1..], nickname)
      case None => None
      case Some(k) => Some(k + 1)
  }

  function Min(a: int, b: int): int { if a <= b then a else b }

  /** `transactions.slice(-10).reverse()`: the last (at most ten) records, last one first. */
  function Recent<T>(s: seq<T>): (r: seq<T>)
    ensures |r| == Min(RecentLimit, |s|)
    ensures forall k :: 0 <= k < |r| ==> r[k] == s[|s| - 1 - k]
  {
    Reverse(s[|s| - Min(RecentLimit, |s|)..])
  }

  /** On a ledger sorted oldest first, the recent view runs newest first. */
  lemma RecentNewestFirst(s: seq<Doc<Tx>>)
    requires SortedBy(s, TimeKey)
    ensures forall i, j :: 0 <= i < j < |Recent(s)| ==> TimeKey(Recent(s)[i]) >= TimeKey(Recent(s)[j])
  {
    var r := Recent(s);
    forall i, j | 0 <= i < j < |r| ensures TimeKey(r[i]) >= TimeKey(r[j]) {
      assert r[i] == s[|s| - 1 - i] && r[j] == s[|s| - 1 - j];
    }
  }

  /** The five accumulators of the statistics loop. */
  datatype Stats = Stats(earnTotal: int, earnCount: int, useTotal: int, useCount: int, amounts: map<int, int>)

  /** One turn of the statistics loop on record `d`. */
  function StatsStep(st: Stats, d: Doc<Tx>): Stats
  {
    if IsEarn(d) then
      var a := d.data.amount;
      st.(earnTotal := st.earnTotal + a, earnCount := st.earnCount + 1,
          amounts := st.amounts[a := (if a in st.amounts then st.amounts[a] else 0) + 1])
    else if IsUse(d) then
      st.(useTotal := st.useTotal + d.data.amount, useCount := st.useCount + 1)
    else st
  }

  /** The accumulators after the statistics loop has run over `s`. */
  function StatsOf(s: seq<Doc<Tx>>): Stats
  {
    if s == [] then Stats(0, 0, 0, 0, map[]) else StatsStep(StatsOf(s[..|s| - 1]), s[|s| - 1])
  }

  /**
   * The accumulators hold the earn and use totals and counts and the
   * histogram of the earn amounts.
   */
  lemma StatsOfMeaning(s: seq<Doc<Tx>>)
    ensures StatsOf(s) == Stats(EarnTotal(s), EarnCount(s), UseTotal(s), UseCount(s), Tally(EarnAmounts(s)))
  {
    StatsOfCounters(s);
    StatsOfAmounts(s);
  }

  lemma {:induction false} StatsOfCounters(s: seq<Doc<Tx>>)
    ensures StatsOf(s).earnTotal == EarnTotal(s) && StatsOf(s).earnCount == EarnCount(s)
    ensures StatsOf(s).useTotal == UseTotal(s) && StatsOf(s).useCount == UseCount(s)
  {
    if s != [] {
      StatsOfCounters(s[..|s| - 1]);
    }
  }

  lemma {:induction false} StatsOfAmounts(s: seq<Doc<Tx>>)
    ensures StatsOf(s).amounts == Tally(EarnAmounts(s))
  {
    if s != [] {
      var init, d := s[..|s| - 1], s[|s| - 1];
      StatsOfAmounts(init);
      HistogramSnoc(s);
      if IsEarn(d) {
        TallySnoc(EarnAmounts(init), d.data.amount);
      }
    }
  }

  /**
   * The statistics loop of lines 69-78: earn and use totals and counts, and
   * `amounts[a] = (amounts[a] || 0) + 1` for the amount of every earn record.
   */
  method Statistics(sorted: seq<Doc<Tx>>) returns (earnTotal: int, earnCount: int, useTotal: int, useCount: int, amounts: map<int, int>)
    ensures earnTotal == EarnTotal(sorted) && earnCount == EarnCount(sorted)
    ensures useTotal == UseTotal(sorted) && useCount == UseCount(sorted)
    ensures amounts == Tally(EarnAmounts(sorted))
  {
    earnTotal, earnCount, useTotal, useCount := 0, 0, 0, 0;
    amounts := map[];
    for i := 0 to |sorted|
      invariant Stats(earnTotal, earnCount, useTotal, useCount, amounts) == StatsOf(sorted[..i])
    {
      var d := sorted[i];
      assert sorted[..i + 1][..i] == sorted[..i];
      if d.data.kind == Earn {
        earnTotal := earnTotal + d.data.amount;
        earnCount := earnCount + 1;
        amounts := amounts[d.data.amount := (if d.data.amount in amounts then amounts[d.data.amount] else 0) + 1];
      } else if d.data.kind == Use {
        useTotal := useTotal + d.data.amount;
        useCount := useCount + 1;
      }
    }
    assert sorted[..|sorted|] == sorted;
    StatsOfMeaning(sorted);
  }

  /** One step of the statistics loop: the histogram. */
  lemma HistogramSnoc(s: seq<Doc<Tx>>)
    requires s != []
    ensures var init, d := s[..|s| - 1], s[|s| - 1];
      EarnAmounts(s) == if IsEarn(d) then EarnAmounts(init) + [d.data.amount] else EarnAmounts(init)
  {
    var init, d := s[..|s| - 1], s[|s| - 1];
    var f := Filter(init, IsEarn);
    assert Filter(s, IsEarn) == f + if IsEarn(d) then [d] else [];
    if IsEarn(d) {
      assert (f + [d])[..|f|] == f;
    } else {
      assert f + [] == f;
    }
  }

  lemma TallySnoc(xs: seq<int>, x: int)
    ensures Tally(xs + [x]) == Tally(xs)[x := (if x in Tally(xs) then Tally(xs)[x] else 0) + 1]
  {
    assert (xs + [x])[..|xs|] == xs;
  }

  /** The histogram has exactly one key per amount of an earn record, and its counts sum to earnCount. */
  lemma {:induction false} HistogramOfEarns(s: seq<Doc<Tx>>)
    ensures forall a :: a in Tally(EarnAmounts(s)) <==> exists d :: d in s && IsEarn(d) && d.data.amount == a
    ensures SumValues(Tally(EarnAmounts(s))) == EarnCount(s)
  {
    var f := Filter(s, IsEarn);
    TallySum(EarnAmounts(s));
    AmountsAt(f);
    TallyCounts(EarnAmounts(s));
    forall a ensures a in Tally(EarnAmounts(s)) <==> exists d :: d in s && IsEarn(d) && d.data.amount == a {
      AmountsMember(f, a);
    }
  }

  /** What the script prints, as values. */
  datatype Report = Report(
    userId: Id,
    currentBalance: int,
    transactionCount: int,
    transactions: seq<Doc<Tx>>,
    earnTotal: int,
    earnCount: int,
    useTotal: int,
    useCount: int,
    computedBalance: int,
    difference: int,
    amountCounts: map<int, int>,
    amountOrder: seq<int>,
    recent: seq<Doc<Tx>>)

  /**
   * checkUserBalance: None when no user has the nickname. The store has no
   * `modifies` clause here: the report writes nothing.
   */
  method CheckUserBalance(store: Store, nickname: string) returns (r: Option<Report>)
    ensures r.None? <==> forall j :: 0 <= j < |store.users| ==> store.users[j].data.nickname != nickname
    ensures r.Some? ==>
      var i := FirstByNickname(store.users, nickname).value;
      var fetched := UserTransactions(store.transactions, r.value.userId);
      && r.value.userId == store.users[i].id
      && r.value.currentBalance == OrZero(store.users[i].data.qkey_balance)
      && r.value.transactionCount == |fetched|
      && multiset(r.value.transactions) == multiset(NormalizeAll(fetched))
      && SortedBy(r.value.transactions, TimeKey)
      && r.value.earnTotal == EarnTotal(fetched) && r.value.earnCount == EarnCount(fetched)
      && r.value.useTotal == UseTotal(fetched) && r.value.useCount == UseCount(fetched)
      && r.value.computedBalance == r.value.earnTotal - r.value.useTotal
      && r.value.computedBalance == ComputedBalance(store.transactions, r.value.userId)
      && r.value.difference == r.value.currentBalance - r.value.computedBalance
      && (UniqueIds(store.users) ==> r.value.difference == Drift(store.users, store.transactions, r.value.userId))
      && r.value.amountCounts == Tally(EarnAmounts(r.value.transactions))
      && SumValues(r.value.amountCounts) == r.value.earnCount
      && (forall a, b :: 0 <= a < b < |r.value.amountOrder| ==> r.value.amountOrder[a] >= r.value.amountOrder[b])
      && multiset(r.value.amountOrder) == multiset(r.value.amountCounts.Keys)
      && r.value.recent == Recent(r.value.transactions)
  {
    var found := FirstByNickname(store.users, nickname);
    if found.None? {
      return None;
    }
    var i := found.value;
    var userDoc := store.users[i];
    var userId := userDoc.id;
    var currentBalance := OrZero(userDoc.data.qkey_balance);
    var fetched := UserTransactions(store.transactions, userId);
    var transactions := ReadLedger(fetched);
    var earnTotal, earnCount, useTotal, useCount, amounts := Statistics(transactions);
    SortedLedgerReplay(fetched, transactions);
    BalanceIsEarnMinusUse(fetched);
    HistogramOfEarns(transactions);
    if UniqueIds(store.users) {
      FindFirst(store.users, i);
    }
    var computed := earnTotal - useTotal;
    var order := KeysDescending(amounts.Keys);
    r := Some(Report(userId, currentBalance, |fetched|, transactions, earnTotal, earnCount, useTotal, useCount,
                     computed, currentBalance - computed, amounts, order, Recent(transactions)));
  }

  /** With unique ids, the point read of a user's id returns that user's document. */
  lemma FindFirst(users: seq<Doc<User>>, i: int)
    requires UniqueIds(users) && 0 <= i < |users|
    ensures Find(users, users[i].id) == Some(users[i].data)
  {
  }
}
