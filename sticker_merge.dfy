/**
 * merge_sticker_packs.js: the packs with a given name, in the
 * `created_at`-descending order of the query, are merged into the oldest of
 * them. Their sticker lists are concatenated in that order and deduplicated
 * by `image_url`, keeping the first sticker seen for each URL; the oldest
 * pack receives the result and every other selected pack is then deleted.
 */
module StickerMerge {
  import opened Collections
  import opened Store

  /** `data.pack_name === name`. */
  function HasName(name: string): Doc<Pack> -> bool
  {
    (d: Doc<Pack>) => d.data.packName == name
  }

  /** `pack.data.stickers || []`. */
  function StickersOf(p: Pack): seq<Sticker>
  {
    if p.stickers.Some? then p.stickers.value else []
  }

  /** `allStickers = allStickers.concat(stickers)` over `packs`. */
  function Concat(packs: seq<Doc<Pack>>): seq<Sticker>
  {
    if packs == [] then [] else Concat(packs[..|packs| - 1]) + StickersOf(packs[|packs| - 1].data)
  }

  /** A sticker is collected exactly when one of the packs holds it. */
  lemma {:induction false} ConcatMembers(packs: seq<Doc<Pack>>)
    ensures forall x :: x in Concat(packs) <==> exists d :: d in packs && x in StickersOf(d.data)
  {
    if packs != [] {
      var init, d := packs[..|packs| - 1], packs[|packs| - 1];
      ConcatMembers(init);
      assert packs == init + [d];
      forall x ensures x in Concat(packs) <==> exists e :: e in packs && x in StickersOf(e.data) {
        if exists e :: e in packs && x in StickersOf(e.data) {
          var e :| e in packs && x in StickersOf(e.data);
          assert e in init || e == d;
        }
      }
    }
  }

  /** The `image_url` values of `s` (a missing URL is one more value, as in a JavaScript Set). */
  function UrlsOf(s: seq<Sticker>): set<Option<string>>
  {
    if s == [] then {} else UrlsOf(s[..|s| - 1]) + {s[|s| - 1].imageUrl}
  }

  lemma {:induction false} UrlsMeaning(s: seq<Sticker>)
    ensures forall u :: u in UrlsOf(s) <==> exists i :: 0 <= i < |s| && s[i].imageUrl == u
  {
    if s != [] {
      var init := s[..|s| - 1];
      UrlsMeaning(init);
      forall u ensures u in UrlsOf(s) <==> exists i :: 0 <= i < |s| && s[i].imageUrl == u {
        if u in UrlsOf(init) {
          var i :| 0 <= i < |init| && init[i].imageUrl == u;
          assert s[i] == init[i];
        }
      }
    }
  }

  /** The dedup loop of lines 101-109: a sticker is kept when its URL was not seen before. */
  function Dedup(s: seq<Sticker>): seq<Sticker>
  {
    if s == [] then []
    else
      var init, x := s[..|s| - 1], s[|s| - 1];
      Dedup(init) + if x.imageUrl in UrlsOf(init) then [] else [x]
  }

  /** The result has the same URLs as the input, one sticker per URL. */
  lemma {:induction false} DedupUrls(s: seq<Sticker>)
    ensures UrlsOf(Dedup(s)) == UrlsOf(s)
    ensures |Dedup(s)| == |UrlsOf(s)| <= |s|
  {
    if s != [] {
      var init, x := s[..|s| - 1], s[|s| - 1];
      DedupUrls(init);
      var r := Dedup(init);
      if x.imageUrl !in UrlsOf(init) {
        assert (r + [x])[..|r|] == r;
      } else {
        assert r + [] == r;
      }
    }
  }

  /** No two stickers of the result share an `image_url`. */
  lemma {:induction false} DedupDistinct(s: seq<Sticker>)
    ensures forall i, j :: 0 <= i < j < |Dedup(s)| ==> Dedup(s)[i].imageUrl != Dedup(s)[j].imageUrl
  {
    if s != [] {
      var init, x := s[..|s| - 1], s[|s| - 1];
      DedupDistinct(init);
      var r := Dedup(init);
      if x.imageUrl !in UrlsOf(init) {
        DedupUrls(init);
        UrlsMeaning(r);
        forall i | 0 <= i < |r| ensures r[i].imageUrl != x.imageUrl {
        }
      } else {
        assert r + [] == r;
      }
    }
  }

  /** `r` keeps some of the elements of `s`, in their order. */
  ghost predicate IsSubsequence<T>(r: seq<T>, s: seq<T>)
    decreases |s|
  {
    r == [] ||
    (s != [] &&
     ((r[|r| - 1] == s[|s| - 1] && IsSubsequence(r[..|r| - 1], s[..|s| - 1])) || IsSubsequence(r, s[..|s| - 1])))
  }

  lemma {:induction false} DedupSubsequence(s: seq<Sticker>)
    ensures IsSubsequence(Dedup(s), s)
  {
    if s != [] {
      var init, x := s[..|s| - 1], s[|s| - 1];
      DedupSubsequence(init);
      var r := Dedup(init);
      if x.imageUrl !in UrlsOf(init) {
        assert (r + [x])[..|r|] == r;
      } else {
        assert r + [] == r;
      }
    }
  }

  /** The first sticker of `s` with URL `u`, if any. */
  function FirstWithUrl(s: seq<Sticker>, u: Option<string>): Option<Sticker>
  {
    if s == [] then None
    else
      var head := FirstWithUrl(s[..|s| - 1], u);
      if head.Some? then head else if s[|s| - 1].imageUrl == u then Some(s[|s| - 1]) else None
  }

  lemma {:induction false} FirstWithUrlNone(s: seq<Sticker>, u: Option<string>)
    ensures FirstWithUrl(s, u).None? <==> u !in UrlsOf(s)
  {
    if s != [] {
      FirstWithUrlNone(s[..|s| - 1], u);
    }
  }

  /** Every kept sticker is the first one seen with its URL. */
  lemma {:induction false} DedupKeepsFirst(s: seq<Sticker>)
    ensures forall k :: 0 <= k < |Dedup(s)| ==> FirstWithUrl(s, Dedup(s)[k].imageUrl) == Some(Dedup(s)[k])
  {
    if s != [] {
      var init, x := s[..|s| - 1], s[|s| - 1];
      DedupKeepsFirst(init);
      var r := Dedup(init);
      if x.imageUrl !in UrlsOf(init) {
        FirstWithUrlNone(init, x.imageUrl);
        assert forall k :: 0 <= k < |r| ==> (r + [x])[k] == r[k];
      } else {
        assert r + [] == r;
      }
    }
  }

  /** The ids of `s`. */
  function PackIds(s: seq<Doc<Pack>>): set<Id>
  {
    set d | d in s :: d.id
  }

  /** The deletes of lines 132-139, in order. */
  function DeleteWrites(s: seq<Doc<Pack>>): seq<Write>
  {
    if s == [] then [] else DeleteWrites(s[..|s| - 1]) + [Deleted(StickerPacks, s[|s| - 1].id)]
  }

  /** The packs after the merge into `survivor`, the last of `selected`. */
  function MergedPacks(packs: seq<Doc<Pack>>, selected: seq<Doc<Pack>>, stickers: seq<Sticker>, now: int): seq<Doc<Pack>>
    requires selected != []
  {
    var survivor := selected[|selected| - 1];
    RemoveIds(PatchPacks(packs, survivor.id, PackPatch(stickers, now)), PackIds(selected[..|selected| - 1]))
  }

  /**
   * After the merge the survivor holds the merged stickers and the new
   * `updated_at` and keeps its other fields; no other selected pack is left;
   * every pack that was not selected is still there, unchanged; nothing else
   * appears.
   */
  lemma MergedPacksMeaning(packs: seq<Doc<Pack>>, selected: seq<Doc<Pack>>, stickers: seq<Sticker>, now: int)
    requires UniqueIds(packs) && UniqueIds(selected) && selected != []
    requires forall d :: d in selected ==> d in packs
    ensures var survivor := selected[|selected| - 1];
      var r := MergedPacks(packs, selected, stickers, now);
      && Doc(survivor.id, survivor.data.(stickers := Some(stickers), updatedAt := Some(now))) in r
      && (forall d :: d in r && d.id in PackIds(selected) ==> d.id == survivor.id)
      && (forall d :: d in packs && d.id !in PackIds(selected) ==> d in r)
      && (forall d :: d in r && d.id != survivor.id ==> d in packs)
  {
    var n := |selected|;
    var survivor := selected[n - 1];
    var others := selected[..n - 1];
    var patched := PatchPacks(packs, survivor.id, PackPatch(stickers, now));
    assert survivor in selected;
    var k :| 0 <= k < |packs| && packs[k] == survivor;
    assert patched[k] == Doc(survivor.id, survivor.data.(stickers := Some(stickers), updatedAt := Some(now)));
    forall d | d in others ensures d.id != survivor.id {
      var i :| 0 <= i < n - 1 && others[i] == d;
      assert selected[i] == d;
    }
    forall d | d in patched && d.id != survivor.id ensures d in packs {
      var i :| 0 <= i < |patched| && patched[i] == d;
    }
    forall d | d in packs && d.id !in PackIds(selected) ensures d in patched {
      var i :| 0 <= i < |packs| && packs[i] == d;
      assert d.id != survivor.id;
      assert patched[i] == d;
    }
  }

  /** On the newest-first query order, the last pack is the oldest. */
  lemma SurvivorIsOldest(selected: seq<Doc<Pack>>)
    requires selected != [] && SortedBy(selected, NewestFirstKey)
    ensures forall d :: d in selected ==> OrZero(d.data.createdAt) >= OrZero(selected[|selected| - 1].data.createdAt)
  {
    forall d | d in selected ensures OrZero(d.data.createdAt) >= OrZero(selected[|selected| - 1].data.createdAt) {
      var i :| 0 <= i < |selected| && selected[i] == d;
      if i < |selected| - 1 {
        assert NewestFirstKey(selected[i]) <= NewestFirstKey(selected[|selected| - 1]);
      }
    }
  }

  /** Filtering a sorted sequence keeps it sorted. */
  lemma {:induction false} FilterSorted(s: seq<Doc<Pack>>, p: Doc<Pack> -> bool)
    requires SortedBy(s, NewestFirstKey)
    ensures SortedBy(Filter(s, p), NewestFirstKey)
  {
    if s != [] {
      var init, x := s[..|s| - 1], s[|s| - 1];
      FilterSorted(init, p);
      var f := Filter(init, p);
      if p(x) {
        forall i, j | 0 <= i < j < |f| + 1 ensures NewestFirstKey((f + [x])[i]) <= NewestFirstKey((f + [x])[j]) {
          if j == |f| {
            assert f[i] in f;
            var k :| 0 <= k < |init| && init[k] == f[i];
          }
        }
      } else {
        assert f + [] == f;
      }
    }
  }

  /** The selection loop of lines 67-80. */
  method SelectPacks(snapshot: seq<Doc<Pack>>, packName: string) returns (selected: seq<Doc<Pack>>)
    ensures selected == Filter(snapshot, HasName(packName))
  {
    selected := [];
    for i := 0 to |snapshot|
      invariant selected == Filter(snapshot[..i], HasName(packName))
    {
      assert snapshot[..i + 1][..i] == snapshot[..i];
      var doc := snapshot[i];
      if doc.data.packName == packName {
        selected := selected + [doc];
      }
    }
    assert snapshot[..|snapshot|] == snapshot;
  }

  /** The concatenation loop of lines 91-96. */
  method CollectStickers(selected: seq<Doc<Pack>>) returns (allStickers: seq<Sticker>)
    ensures allStickers == Concat(selected)
  {
    allStickers := [];
    for i := 0 to |selected|
      invariant allStickers == Concat(selected[..i])
    {
      assert selected[..i + 1][..i] == selected[..i];
      var stickers := if selected[i].data.stickers.Some? then selected[i].data.stickers.value else [];
      allStickers := allStickers + stickers;
    }
    assert selected[..|selected|] == selected;
  }

  /** The dedup loop of lines 101-109, with `urlSet`. */
  method DedupByUrl(allStickers: seq<Sticker>) returns (uniqueStickers: seq<Sticker>)
    ensures uniqueStickers == Dedup(allStickers)
  {
    uniqueStickers := [];
    var urlSet: set<Option<string>> := {};
    for i := 0 to |allStickers|
      invariant uniqueStickers == Dedup(allStickers[..i])
      invariant urlSet == UrlsOf(allStickers[..i])
    {
      assert allStickers[..i + 1][..i] == allStickers[..i];
      var sticker := allStickers[i];
      if sticker.imageUrl !in urlSet {
        urlSet := urlSet + {sticker.imageUrl};
        uniqueStickers := uniqueStickers + [sticker];
      } else {
        assert uniqueStickers + [] == uniqueStickers;
      }
    }
    assert allStickers[..|allStickers|] == allStickers;
  }

  datatype MergeOutcome =
    | NoPacks
    | TooFew(found: int)
    | Merged(survivorId: Id, stickers: seq<Sticker>, collected: int, removed: int, deleted: int)

  /**
   * mergeStickerPacks. The ghost `selected` is the selected packs in the
   * order the query returned them; rows with equal `created_at` may come
   * back in any order.
   */
  method MergeStickerPacks(store: Store, packName: string, now: int) returns (outcome: MergeOutcome, ghost selected: seq<Doc<Pack>>)
    requires store.Valid()
    modifies store
    ensures store.Valid()
    ensures multiset(selected) == multiset(Filter(Filter(old(store.packs), WithCreatedAt), HasName(packName)))
    ensures SortedBy(selected, NewestFirstKey)
    ensures UniqueIds(selected) && forall d :: d in selected ==> d in old(store.packs)
    ensures outcome.NoPacks? <==> Filter(old(store.packs), WithCreatedAt) == []
    ensures outcome.TooFew? ==> outcome.found == |selected| < 2
    ensures outcome.Merged? <==> |selected| >= 2
    ensures !outcome.Merged? ==> store.packs == old(store.packs) && store.log == old(store.log)
    ensures outcome.Merged? ==>
              && outcome.survivorId == selected[|selected| - 1].id
              && outcome.stickers == Dedup(Concat(selected))
              && outcome.collected == |Concat(selected)|
              && outcome.removed == outcome.collected - |outcome.stickers| >= 0
              && outcome.deleted == |selected| - 1
              && store.packs == MergedPacks(old(store.packs), selected, outcome.stickers, now)
              && store.log == old(store.log) + [Updated(StickerPacks, outcome.survivorId)] + DeleteWrites(selected[..|selected| - 1])
    ensures store.users == old(store.users) && store.transactions == old(store.transactions)
  {
    var packsSnapshot := store.QueryPacksNewestFirst();
    FilterPermutation(packsSnapshot, Filter(store.packs, WithCreatedAt), HasName(packName));
    var packs := SelectPacks(packsSnapshot, packName);
    selected := packs;
    FilterSorted(packsSnapshot, HasName(packName));
    SelectedInStore(store.packs, packs, packName);
    if |packsSnapshot| == 0 {
      assert multiset(Filter(store.packs, WithCreatedAt)) == multiset{};
      return NoPacks, selected;
    }
    assert packsSnapshot[0] in multiset(Filter(store.packs, WithCreatedAt));
    if |packs| < 2 {
      return TooFew(|packs|), selected;
    }
    var allStickers := CollectStickers(packs);
    var uniqueStickers := DedupByUrl(allStickers);
    DedupUrls(allStickers);
    var n := |packs|;
    var survivor := packs[n - 1];
    assert survivor in packs;
    var ok := store.UpdatePack(survivor.id, PackPatch(uniqueStickers, now));
    assert ok;
    DeleteAll(store, packs[..n - 1]);
    outcome := Merged(survivor.id, uniqueStickers, |allStickers|, |allStickers| - |uniqueStickers|, n - 1);
  }

  /** The delete loop of lines 132-139: one `delete()` per pack, in order. */
  method DeleteAll(store: Store, toDelete: seq<Doc<Pack>>)
    requires store.Valid()
    modifies store
    ensures store.Valid()
    ensures store.packs == RemoveIds(old(store.packs), PackIds(toDelete))
    ensures store.log == old(store.log) + DeleteWrites(toDelete)
    ensures store.users == old(store.users) && store.transactions == old(store.transactions)
  {
    RemoveNothing(store.packs);
    assert PackIds(toDelete[..0]) == {};
    for i := 0 to |toDelete|
      invariant store.Valid()
      invariant store.packs == RemoveIds(old(store.packs), PackIds(toDelete[..i]))
      invariant store.log == old(store.log) + DeleteWrites(toDelete[..i])
      invariant store.users == old(store.users) && store.transactions == old(store.transactions)
    {
      assert toDelete[..i + 1][..i] == toDelete[..i];
      assert PackIds(toDelete[..i + 1]) == PackIds(toDelete[..i]) + {toDelete[i].id};
      RemoveOneMore(old(store.packs), PackIds(toDelete[..i]), toDelete[i].id);
      store.DeletePack(toDelete[i].id);
    }
    assert toDelete[..|toDelete|] == toDelete;
  }

  /** Every selected pack was read from the store, and no two of them share an id. */
  lemma SelectedInStore(packs: seq<Doc<Pack>>, selected: seq<Doc<Pack>>, packName: string)
    requires UniqueIds(packs)
    requires multiset(selected) == multiset(Filter(Filter(packs, WithCreatedAt), HasName(packName)))
    ensures forall d :: d in selected ==> d in packs
    ensures UniqueIds(selected)
  {
    var f := Filter(packs, WithCreatedAt);
    FilterCounts(packs, WithCreatedAt);
    FilterCounts(f, HasName(packName));
    forall d | d in selected ensures d in packs {
      assert d in multiset(selected);
    }
    CountsOfUnique(packs);
    forall x ensures multiset(selected)[x] <= 1 {
    }
    UniqueOfCounts(selected, packs);
  }

  /** With unique ids, no document occurs twice. */
  lemma {:induction false} CountsOfUnique(s: seq<Doc<Pack>>)
    requires UniqueIds(s)
    ensures forall x :: multiset(s)[x] <= 1
  {
    if s != [] {
      var init, d := s[..|s| - 1], s[|s| - 1];
      assert s == init + [d];
      CountsOfUnique(init);
    }
  }

  /** A sequence in which no element occurs twice has no repeated element. */
  lemma {:induction false} DistinctOfCounts(t: seq<Doc<Pack>>)
    requires forall x :: multiset(t)[x] <= 1
    ensures forall i, j :: 0 <= i < j < |t| ==> t[i] != t[j]
  {
    if t != [] {
      var init, x := t[..|t| - 1], t[|t| - 1];
      assert t == init + [x];
      assert forall y :: multiset(init)[y] <= multiset(t)[y];
      DistinctOfCounts(init);
      assert multiset(init)[x] == 0;
    }
  }

  /** Documents drawn at most once each from a collection with unique ids have unique ids. */
  lemma UniqueOfCounts(t: seq<Doc<Pack>>, s: seq<Doc<Pack>>)
    requires UniqueIds(s)
    requires forall d :: d in t ==> d in s
    requires forall x :: multiset(t)[x] <= 1
    ensures UniqueIds(t)
  {
    DistinctOfCounts(t);
    forall i, j | 0 <= i < |t| && 0 <= j < |t| && t[i].id == t[j].id ensures i == j {
      assert t[i] in s && t[j] in s;
      var a :| 0 <= a < |s| && s[a] == t[i];
      var b :| 0 <= b < |s| && s[b] == t[j];
    }
  }

  lemma {:induction false} RemoveNothing(docs: seq<Doc<Pack>>)
    ensures RemoveIds(docs, {}) == docs
  {
    if docs != [] {
      var init, d := docs[..|docs| - 1], docs[|docs| - 1];
      RemoveNothing(init);
      assert RemoveIds(docs, {}) == RemoveIds(init, {}) + [d];
      assert docs == init + [d];
    }
  }
}
