/**
 * The transaction log of one user and its replay, shared by the balance
 * recalculation and the balance report: the `userId` query, the
 * `timestamp || created_at` normalisation, the ascending time sort, and the
 * fold in which 'earn' adds, 'use' subtracts and every other type is ignored.
 */
module Ledger {
  import opened Collections
  import opened Store

  const Earn: string := "earn"
  const Use: string := "use"

  /** `db.collection('qkey_transactions').where('userId', '==', userId).get()`. */
  function UserTransactions(txs: seq<Doc<Tx>>, userId: Id): seq<Doc<Tx>>
  {
    Filter(txs, (d: Doc<Tx>) => d.data.userId == userId)
  }

  /** `data.timestamp || data.created_at`. */
  function ResolvedTime(t: Tx): Option<int>
  {
    if t.timestamp.Some? then t.timestamp else t.createdAt
  }

  /** The record pushed for a fetched document: `{...data, id: doc.id, timestamp: data.timestamp || data.created_at}`. */
  function Normalize(d: Doc<Tx>): Doc<Tx>
  {
    Doc(d.id, d.data.(timestamp := ResolvedTime(d.data)))
  }

  /** The records pushed, in fetch order, for the fetched documents `s`. */
  function NormalizeAll(s: seq<Doc<Tx>>): (r: seq<Doc<Tx>>)
    ensures |r| == |s|
    ensures forall i :: 0 <= i < |s| ==> r[i] == Normalize(s[i])
  {
    if s == [] then [] else NormalizeAll(s[..|s| - 1]) + [Normalize(s[|s| - 1])]
  }

  /** The sort key of a normalised record: `a.timestamp?.toMillis?.() || 0`. */
  function TimeKey(d: Doc<Tx>): int
  {
    OrZero(d.data.timestamp)
  }

  /**
   * A record is keyed by its `timestamp`, else by its `created_at`, else by 0;
   * normalising changes nothing else, and no record is dropped.
   */
  lemma NormalizedTimeKey(s: seq<Doc<Tx>>, i: int)
    requires 0 <= i < |s|
    ensures |NormalizeAll(s)| == |s|
    ensures TimeKey(NormalizeAll(s)[i]) ==
              match s[i].data.timestamp
              case Some(t) => t
              case None => OrZero(s[i].data.createdAt)
    ensures NormalizeAll(s)[i].id == s[i].id
    ensures NormalizeAll(s)[i].data.(timestamp := s[i].data.timestamp) == s[i].data
  {
  }

  predicate IsEarn(d: Doc<Tx>) { d.data.kind == Earn }
  predicate IsUse(d: Doc<Tx>) { d.data.kind == Use }

  /** One step of the replay: `if (type === 'earn') balance += amount; else if (type === 'use') balance -= amount`. */
  function Delta(d: Doc<Tx>): int
  {
    if IsEarn(d) then d.data.amount else if IsUse(d) then -d.data.amount else 0
  }

  function EarnAmount(d: Doc<Tx>): int { if IsEarn(d) then d.data.amount else 0 }
  function UseAmount(d: Doc<Tx>): int { if IsUse(d) then d.data.amount else 0 }

  /** The replayed balance of a sequence of records. */
  function Balance(s: seq<Doc<Tx>>): int { SumBy(s, Delta) }

  function EarnTotal(s: seq<Doc<Tx>>): int { SumBy(s, EarnAmount) }
  function UseTotal(s: seq<Doc<Tx>>): int { SumBy(s, UseAmount) }
  function EarnCount(s: seq<Doc<Tx>>): int { |Filter(s, IsEarn)| }
  function UseCount(s: seq<Doc<Tx>>): int { |Filter(s, IsUse)| }

  /** The `amount` fields of `s`, in order. */
  function Amounts(s: seq<Doc<Tx>>): seq<int>
  {
    if s == [] then [] else Amounts(s[..|s| - 1]) + [s[|s| - 1].data.amount]
  }

  lemma {:induction false} AmountsAt(s: seq<Doc<Tx>>)
    ensures |Amounts(s)| == |s|
    ensures forall i :: 0 <= i < |s| ==> Amounts(s)[i] == s[i].data.amount
  {
    if s != [] {
      AmountsAt(s[..|s| - 1]);
    }
  }

  /** An amount occurs in `Amounts(t)` exactly when some record of `t` carries it. */
  lemma AmountsMember(t: seq<Doc<Tx>>, a: int)
    ensures a in Amounts(t) <==> exists d :: d in t && d.data.amount == a
  {
    AmountsAt(t);
    if a in Amounts(t) {
      var k :| 0 <= k < |t| && Amounts(t)[k] == a;
      assert t[k] in t;
    }
    if exists d :: d in t && d.data.amount == a {
      var d :| d in t && d.data.amount == a;
      var k :| 0 <= k < |t| && t[k] == d;
      assert Amounts(t)[k] == a;
    }
  }

  /** The amounts of the 'earn' records, in order. */
  function EarnAmounts(s: seq<Doc<Tx>>): seq<int> { Amounts(Filter(s, IsEarn)) }

  /** The replayed balance is the sum of the earn amounts minus the sum of the use amounts. */
  lemma {:induction false} BalanceIsEarnMinusUse(s: seq<Doc<Tx>>)
    ensures Balance(s) == EarnTotal(s) - UseTotal(s)
  {
    if s != [] {
      BalanceIsEarnMinusUse(s[..|s| - 1]);
    }
  }

  /** Replay does not depend on the order of the records. */
  lemma ReplayOrderIndependent(s: seq<Doc<Tx>>, t: seq<Doc<Tx>>)
    requires multiset(s) == multiset(t)
    ensures Balance(s) == Balance(t)
    ensures EarnTotal(s) == EarnTotal(t) && UseTotal(s) == UseTotal(t)
    ensures EarnCount(s) == EarnCount(t) && UseCount(s) == UseCount(t)
  {
    SumByPermutation(s, t, Delta);
    SumByPermutation(s, t, EarnAmount);
    SumByPermutation(s, t, UseAmount);
    FilterPermutation(s, t, IsEarn);
    FilterPermutation(s, t, IsUse);
    assert |multiset(Filter(s, IsEarn))| == |multiset(Filter(t, IsEarn))|;
    assert |multiset(Filter(s, IsUse))| == |multiset(Filter(t, IsUse))|;
  }

  /** Normalising the time field changes no type and no amount, so nothing the replay computes. */
  lemma NormalizeKeepsReplay(s: seq<Doc<Tx>>)
    ensures Balance(NormalizeAll(s)) == Balance(s)
    ensures EarnTotal(NormalizeAll(s)) == EarnTotal(s) && UseTotal(NormalizeAll(s)) == UseTotal(s)
    ensures EarnCount(NormalizeAll(s)) == EarnCount(s) && UseCount(NormalizeAll(s)) == UseCount(s)
  {
    NormalizeKeepsSum(s, Delta);
    NormalizeKeepsSum(s, EarnAmount);
    NormalizeKeepsSum(s, UseAmount);
    NormalizeKeepsCount(s, IsEarn);
    NormalizeKeepsCount(s, IsUse);
  }

  lemma {:induction false} NormalizeKeepsSum(s: seq<Doc<Tx>>, f: Doc<Tx> -> int)
    requires forall d :: f(Normalize(d)) == f(d)
    ensures SumBy(NormalizeAll(s), f) == SumBy(s, f)
  {
    if s != [] {
      var init := s[..|s| - 1];
      NormalizeKeepsSum(init, f);
      var n := NormalizeAll(s);
      assert n[..|n| - 1] == NormalizeAll(init);
    }
  }

  lemma {:induction false} NormalizeKeepsCount(s: seq<Doc<Tx>>, p: Doc<Tx> -> bool)
    requires forall d :: p(Normalize(d)) == p(d)
    ensures |Filter(NormalizeAll(s), p)| == |Filter(s, p)|
  {
    if s != [] {
      var init := s[..|s| - 1];
      NormalizeKeepsCount(init, p);
      var n := NormalizeAll(s);
      assert n[..|n| - 1] == NormalizeAll(init);
    }
  }

  /** What a sorted permutation of the normalised fetch replays to is what the fetch itself replays to. */
  lemma SortedLedgerReplay(fetched: seq<Doc<Tx>>, sorted: seq<Doc<Tx>>)
    requires multiset(sorted) == multiset(NormalizeAll(fetched))
    ensures Balance(sorted) == Balance(fetched)
    ensures EarnTotal(sorted) == EarnTotal(fetched) && UseTotal(sorted) == UseTotal(fetched)
    ensures EarnCount(sorted) == EarnCount(fetched) && UseCount(sorted) == UseCount(fetched)
  {
    ReplayOrderIndependent(sorted, NormalizeAll(fetched));
    NormalizeKeepsReplay(fetched);
  }

  /** Each record is counted at most once, as earn or as use: earnCount + useCount <= the number of transactions. */
  lemma CountsBounded(s: seq<Doc<Tx>>)
    ensures 0 <= EarnCount(s) && 0 <= UseCount(s)
    ensures EarnCount(s) + UseCount(s) <= |s|
  {
    FilterDisjoint(s, IsEarn, IsUse);
  }

  /** A record of any other type (such as 'admin_add') changes neither the balance nor the totals nor the counts. */
  lemma OtherKindIgnored(s: seq<Doc<Tx>>, d: Doc<Tx>)
    requires d.data.kind != Earn && d.data.kind != Use
    ensures Balance(s + [d]) == Balance(s)
    ensures EarnTotal(s + [d]) == EarnTotal(s) && UseTotal(s + [d]) == UseTotal(s)
    ensures EarnCount(s + [d]) == EarnCount(s) && UseCount(s + [d]) == UseCount(s)
  {
    assert (s + [d])[..|s|] == s;
  }

  /**
   * The Ledger Reader: the fetched documents, normalised by a `push` loop and
   * then sorted in place by ascending time key (missing time = 0).
   */
  method ReadLedger(fetched: seq<Doc<Tx>>) returns (sorted: seq<Doc<Tx>>)
    ensures multiset(sorted) == multiset(NormalizeAll(fetched))
    ensures SortedBy(sorted, TimeKey)
  {
    var pushed: seq<Doc<Tx>> := [];
    var i := 0;
    while i < |fetched|
      invariant 0 <= i <= |fetched|
      invariant pushed == NormalizeAll(fetched[..i])
    {
      assert fetched[..i + 1][..i] == fetched[..i];
      pushed := pushed + [Normalize(fetched[i])];
      i := i + 1;
    }
    assert fetched[..i] == fetched;
    var a := new Doc<Tx>[|pushed|](k requires 0 <= k < |pushed| => pushed[k]);
    assert a[..] == pushed;
    SortBy(a, TimeKey);
    sorted := a[..];
  }
}
