/** Sequence, sum, tally and sorting utilities shared by the maintenance scripts. */
module Collections {

  /** The elements of `s` that satisfy `p`, in their original order (Array.prototype.filter). */
  function Filter<T(!new)>(s: seq<T>, p: T -> bool): (r: seq<T>)
    ensures |r| <= |s|
    ensures forall x :: x in r <==> x in s && p(x)
  {
    if s == [] then []
    else
      var init := s[..|s| - 1];
      assert s == init + [s[|s| - 1]];
      Filter(init, p) + if p(s[|s| - 1]) then [s[|s| - 1]] else []
  }

  /** Nothing is selected when no element satisfies the predicate. */
  lemma {:induction false} FilterNone<T(!new)>(s: seq<T>, p: T -> bool)
    requires forall i :: 0 <= i < |s| ==> !p(s[i])
    ensures Filter(s, p) == []
  {
    if s != [] {
      FilterNone(s[..|s| - 1], p);
    }
  }

  /** Filtering keeps every occurrence of a selected element and none of the others. */
  lemma {:induction false} FilterCounts<T(!new)>(s: seq<T>, p: T -> bool)
    ensures forall x :: multiset(Filter(s, p))[x] == if p(x) then multiset(s)[x] else 0
  {
    if s != [] {
      var init := s[..|s| - 1];
      assert s == init + [s[|s| - 1]];
      FilterCounts(init, p);
    }
  }

  /** Filtering two permutations of each other gives two permutations of each other. */
  lemma FilterPermutation<T(!new)>(s: seq<T>, t: seq<T>, p: T -> bool)
    requires multiset(s) == multiset(t)
    ensures multiset(Filter(s, p)) == multiset(Filter(t, p))
  {
    FilterCounts(s, p);
    FilterCounts(t, p);
    assert forall x :: multiset(Filter(s, p))[x] == multiset(Filter(t, p))[x];
  }

  /** Two predicates that never hold together select at most |s| elements between them. */
  lemma {:induction false} FilterDisjoint<T(!new)>(s: seq<T>, p: T -> bool, q: T -> bool)
    requires forall x :: !(p(x) && q(x))
    ensures |Filter(s, p)| + |Filter(s, q)| <= |s|
  {
    if s != [] {
      FilterDisjoint(s[..|s| - 1], p, q);
    }
  }

  /** Left fold of `acc += f(x)` over `s`. */
  function SumBy<T>(s: seq<T>, f: T -> int): int
  {
    if s == [] then 0 else SumBy(s[..|s| - 1], f) + f(s[|s| - 1])
  }

  lemma {:induction false} SumByAppend<T>(a: seq<T>, b: seq<T>, f: T -> int)
    ensures SumBy(a + b, f) == SumBy(a, f) + SumBy(b, f)
  {
    if b == [] {
      assert a + b == a;
    } else {
      assert (a + b)[..|a + b| - 1] == a + b[..|b| - 1];
      SumByAppend(a, b[..|b| - 1], f);
    }
  }

  /** A sum does not depend on the order of its terms. */
  lemma {:induction false} SumByPermutation<T>(s: seq<T>, t: seq<T>, f: T -> int)
    requires multiset(s) == multiset(t)
    ensures SumBy(s, f) == SumBy(t, f)
    decreases |s|
  {
    if s == [] {
      assert |t| == |multiset(t)| == 0;
    } else {
      var x := s[|s| - 1];
      var init := s[..|s| - 1];
      assert s == init + [x];
      assert x in multiset(t);
      var k :| 0 <= k < |t| && t[k] == x;
      var rest := t[..k] + t[k + 1..];
      assert t == t[..k] + [x] + t[k + 1..];
      calc {
        multiset(init) + multiset{x};
        multiset(s);
        multiset(t);
        multiset(t[..k]) + multiset{x} + multiset(t[k + 1..]);
        multiset(rest) + multiset{x};
      }
      assert multiset(init) == multiset(init) + multiset{x} - multiset{x};
      assert multiset(rest) == multiset(rest) + multiset{x} - multiset{x};
      SumByPermutation(init, rest, f);
      SumByAppend(t[..k] + [x], t[k + 1..], f);
      SumByAppend(t[..k], [x], f);
      SumByAppend(t[..k], t[k + 1..], f);
      assert SumBy([x], f) == f(x) by {
        assert [x][..0] == [];
      }
    }
  }

  /** Sum of the values of a map (the counts of a histogram). */
  ghost function SumValues(m: map<int, int>): int
    decreases |m|
  {
    if m.Keys == {} then 0 else NonEmpty(m.Keys); var k :| k in m; m[k] + SumValues(m - {k})
  }

  lemma NonEmpty(s: set<int>)
    requires s != {}
    ensures exists x :: x in s
  {
    if forall x :: x !in s {
      assert false;
    }
  }

  /** SumValues may take out any key first. */
  lemma {:induction false} SumValuesRemove(m: map<int, int>, k: int)
    requires k in m
    ensures SumValues(m) == m[k] + SumValues(m - {k})
    decreases |m|
  {
    var j :| j in m && SumValues(m) == m[j] + SumValues(m - {j});
    if j != k {
      var mj, mk := m - {j}, m - {k};
      assert |mj| < |m| && |mk| < |m|;
      SumValuesRemove(mj, k);
      SumValuesRemove(mk, j);
      assert mj - {k} == mk - {j};
    }
  }

  lemma SumValuesUpdate(m: map<int, int>, k: int, v: int)
    ensures SumValues(m[k := v]) == SumValues(m) - (if k in m then m[k] else 0) + v
  {
    SumValuesRemove(m[k := v], k);
    assert m[k := v] - {k} == m - {k};
    if k in m {
      SumValuesRemove(m, k);
    } else {
      assert m - {k} == m;
    }
  }

  /** Occurrence counts, built as `counts[x] = (counts[x] || 0) + 1` for each x in turn. */
  function Tally(xs: seq<int>): map<int, int>
  {
    if xs == [] then map[]
    else
      var m := Tally(xs[..|xs| - 1]);
      var x := xs[|xs| - 1];
      m[x := (if x in m then m[x] else 0) + 1]
  }

  /** The histogram has a key for exactly the values that occur, and each count is the number of occurrences. */
  lemma {:induction false} TallyCounts(xs: seq<int>)
    ensures forall x :: x in Tally(xs) <==> x in xs
    ensures forall x :: x in Tally(xs) ==> Tally(xs)[x] == multiset(xs)[x]
  {
    if xs != [] {
      var init, x := xs[..|xs| - 1], xs[|xs| - 1];
      assert xs == init + [x];
      TallyCounts(init);
    }
  }

  /** The counts of a histogram sum to the number of values tallied. */
  lemma {:induction false} TallySum(xs: seq<int>)
    ensures SumValues(Tally(xs)) == |xs|
  {
    if xs != [] {
      var init, x := xs[..|xs| - 1], xs[|xs| - 1];
      TallySum(init);
      var m := Tally(init);
      SumValuesUpdate(m, x, (if x in m then m[x] else 0) + 1);
    }
  }

  /** The elements of `s` in reverse order (Array.prototype.reverse). */
  function Reverse<T>(s: seq<T>): (r: seq<T>)
    ensures |r| == |s|
    ensures forall k :: 0 <= k < |s| ==> r[k] == s[|s| - 1 - k]
  {
    if s == [] then [] else Reverse(s[1..]) + [s[0]]
  }

  ghost predicate SortedBy<T>(s: seq<T>, key: T -> int)
  {
    forall i, j :: 0 <= i < j < |s| ==> key(s[i]) <= key(s[j])
  }

  /**
   * In-place sort of `a` by ascending `key` (Array.prototype.sort with the
   * comparator `(x, y) => key(x) - key(y)`); insertion sort by adjacent swaps.
   */
  method SortBy<T>(a: array<T>, key: T -> int)
    modifies a
    ensures SortedBy(a[..], key)
    ensures multiset(a[..]) == old(multiset(a[..]))
  {
    var i := 0;
    while i < a.Length
      invariant 0 <= i <= a.Length
      invariant forall p, q :: 0 <= p < q < i ==> key(a[p]) <= key(a[q])
      invariant multiset(a[..]) == old(multiset(a[..]))
    {
      InsertAt(a, i, key);
      i := i + 1;
    }
  }

  /** Moves a[i] left into the sorted prefix a[..i]. */
  method InsertAt<T>(a: array<T>, i: int, key: T -> int)
    requires 0 <= i < a.Length
    requires forall p, q :: 0 <= p < q < i ==> key(a[p]) <= key(a[q])
    modifies a
    ensures forall p, q :: 0 <= p < q <= i ==> key(a[p]) <= key(a[q])
    ensures multiset(a[..]) == old(multiset(a[..]))
  {
    var j := i;
    while j > 0 && key(a[j - 1]) > key(a[j])
      invariant 0 <= j <= i
      invariant forall p, q :: 0 <= p < q <= i && p != j && q != j ==> key(a[p]) <= key(a[q])
      invariant forall q :: j < q <= i ==> key(a[j]) <= key(a[q])
      invariant multiset(a[..]) == old(multiset(a[..]))
    {
      Swap(a, j - 1, j);
      j := j - 1;
    }
  }

  method Swap<T>(a: array<T>, i: int, j: int)
    requires 0 <= i < j < a.Length
    modifies a
    ensures a[..] == old(a[..])[i := old(a[j])][j := old(a[i])]
    ensures multiset(a[..]) == old(multiset(a[..]))
  {
    a[i], a[j] := a[j], a[i];
  }

  function Negate(x: int): int { -x }

  /** The keys of a histogram, largest first (`Object.keys(m).sort((a, b) => b - a)`). */
  method KeysDescending(keys: set<int>) returns (r: seq<int>)
    ensures forall i, j :: 0 <= i < j < |r| ==> r[i] >= r[j]
    ensures multiset(r) == multiset(keys)
  {
    var acc: seq<int> := [];
    var rest := keys;
    while rest != {}
      invariant multiset(acc) + multiset(rest) == multiset(keys)
      decreases rest
    {
      NonEmpty(rest);
      var k :| k in rest;
      assert multiset(rest) == multiset(rest - {k}) + multiset{k};
      acc := acc + [k];
      rest := rest - {k};
    }
    var a := new int[|acc|](i requires 0 <= i < |acc| => acc[i]);
    assert a[..] == acc;
    SortBy(a, Negate);
    r := a[..];
    assert forall i, j :: 0 <= i < j < |r| ==> Negate(r[i]) <= Negate(r[j]);
  }
}
