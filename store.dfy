/**
 * The document store the scripts talk to, as plain values: three collections
 * (`users`, `qkey_transactions`, `sticker_packs`), each a sequence of
 * documents in document-id order, which is the order an unordered query
 * returns them in. Reads are functions; `update`, `delete` and a batch
 * commit are methods of the `Store` class, which also records every write it
 * accepts in `log`.
 */
module Store {
  import opened Collections

  type Id = string

  datatype Option<T> = None | Some(value: T)

  /** A numeric field read with the scripts' `field || 0`: a missing value reads as 0. */
  function OrZero(o: Option<int>): int
  {
    match o
    case Some(v) => v
    case None => 0
  }

  datatype Doc<T> = Doc(id: Id, data: T)

  /** A `users` document; the balance lives under two historical field names. */
  datatype User = User(nickname: string, qkey_balance: Option<int>, qkeyBalance: Option<int>)

  /** A `qkey_transactions` document; `kind` is the `type` field ('earn', 'use', 'admin_add', ...). */
  datatype Tx = Tx(
    userId: Id,
    kind: string,
    amount: int,
    balanceAfter: int,
    timestamp: Option<int>,
    createdAt: Option<int>,
    description: string)

  /** A sticker; `imageUrl` is its dedup identity and may be absent. */
  datatype Sticker = Sticker(imageUrl: Option<string>, name: string)

  /** A `sticker_packs` document. */
  datatype Pack = Pack(packName: string, stickers: Option<seq<Sticker>>, createdAt: Option<int>, updatedAt: Option<int>)

  datatype Collection = Users | Transactions | StickerPacks

  /** A write the store accepted. */
  datatype Write =
    | Updated(collection: Collection, id: Id)
    | Deleted(collection: Collection, id: Id)
    | Committed(collection: Collection, ids: seq<Id>)

  /** Field patches: `update(ref, {...})` merges only the fields named here. */
  datatype UserPatch = SetQkey_balance(value: int) | SetQkeyBalance(value: int)
  datatype TxPatch = TxPatch(amount: int, balanceAfter: Option<int>)
  datatype PackPatch = PackPatch(stickers: seq<Sticker>, updatedAt: int)

  /** One pending `batch.update(ref, patch)`. */
  datatype TxOp = TxOp(id: Id, patch: TxPatch)

  function ApplyUserPatch(u: User, p: UserPatch): User
  {
    match p
    case SetQkey_balance(v) => u.(qkey_balance := Some(v))
    case SetQkeyBalance(v) => u.(qkeyBalance := Some(v))
  }

  function ApplyTxPatch(t: Tx, p: TxPatch): Tx
  {
    match p.balanceAfter
    case Some(b) => t.(amount := p.amount, balanceAfter := b)
    case None => t.(amount := p.amount)
  }

  function ApplyPackPatch(k: Pack, p: PackPatch): Pack
  {
    k.(stickers := Some(p.stickers), updatedAt := Some(p.updatedAt))
  }

  ghost predicate UniqueIds<T>(docs: seq<Doc<T>>)
  {
    forall i, j :: 0 <= i < |docs| && 0 <= j < |docs| && docs[i].id == docs[j].id ==> i == j
  }

  /** `collection.doc(id).get()`: the document with that id, if any. */
  function Find<T>(docs: seq<Doc<T>>, id: Id): (r: Option<T>)
    ensures r.Some? ==> Doc(id, r.value) in docs
    ensures r.None? ==> forall i :: 0 <= i < |docs| ==> docs[i].id != id
    ensures UniqueIds(docs) ==> forall i :: 0 <= i < |docs| && docs[i].id == id ==> r == Some(docs[i].data)
  {
    if docs == [] then None
    else if docs[0].id == id then Some(docs[0].data)
    else
      var r := Find(docs[1..], id);
      assert forall i :: 1 <= i < |docs| ==> docs[i] == docs[1..][i - 1];
      r
  }

  function PatchUsers(docs: seq<Doc<User>>, id: Id, p: UserPatch): seq<Doc<User>>
  {
    seq(|docs|, i requires 0 <= i < |docs| =>
      if docs[i].id == id then Doc(id, ApplyUserPatch(docs[i].data, p)) else docs[i])
  }

  function PatchTxs(docs: seq<Doc<Tx>>, id: Id, p: TxPatch): seq<Doc<Tx>>
  {
    seq(|docs|, i requires 0 <= i < |docs| =>
      if docs[i].id == id then Doc(id, ApplyTxPatch(docs[i].data, p)) else docs[i])
  }

  function PatchPacks(docs: seq<Doc<Pack>>, id: Id, p: PackPatch): seq<Doc<Pack>>
  {
    seq(|docs|, i requires 0 <= i < |docs| =>
      if docs[i].id == id then Doc(id, ApplyPackPatch(docs[i].data, p)) else docs[i])
  }

  /** The operations of a batch, applied in the order they were added. */
  function ApplyBatch(docs: seq<Doc<Tx>>, ops: seq<TxOp>): seq<Doc<Tx>>
  {
    if ops == [] then docs
    else
      var last := ops[|ops| - 1];
      PatchTxs(ApplyBatch(docs, ops[..|ops| - 1]), last.id, last.patch)
  }

  function OpIds(ops: seq<TxOp>): seq<Id>
  {
    seq(|ops|, i requires 0 <= i < |ops| => ops[i].id)
  }

  /** The documents whose id is not in `ids`, in their original order. */
  function RemoveIds<T(!new)>(docs: seq<Doc<T>>, ids: set<Id>): (r: seq<Doc<T>>)
    ensures forall d :: d in r <==> d in docs && d.id !in ids
  {
    if docs == [] then []
    else
      var init, d := docs[..|docs| - 1], docs[|docs| - 1];
      assert docs == init + [d];
      RemoveIds(init, ids) + if d.id in ids then [] else [d]
  }

  lemma {:induction false} RemoveOneMore<T(!new)>(docs: seq<Doc<T>>, ids: set<Id>, id: Id)
    ensures RemoveIds(RemoveIds(docs, ids), {id}) == RemoveIds(docs, ids + {id})
  {
    if docs != [] {
      var init, d := docs[..|docs| - 1], docs[|docs| - 1];
      RemoveOneMore(init, ids, id);
      var r := RemoveIds(init, ids);
      var tail := if d.id in ids then [] else [d];
      assert RemoveIds(docs, ids) == r + tail;
      RemoveIdsAppend(r, tail, {id});
    }
  }

  lemma {:induction false} RemoveIdsAppend<T(!new)>(a: seq<Doc<T>>, b: seq<Doc<T>>, ids: set<Id>)
    ensures RemoveIds(a + b, ids) == RemoveIds(a, ids) + RemoveIds(b, ids)
  {
    if b == [] {
      assert a + b == a;
    } else {
      var init, d := b[..|b| - 1], b[|b| - 1];
      assert (a + b)[..|a + b| - 1] == a + init;
      RemoveIdsAppend(a, init, ids);
    }
  }

  function WithCreatedAt(d: Doc<Pack>): bool
  {
    d.data.createdAt.Some?
  }

  /** Sort key for `orderBy('created_at', 'desc')`: ascending in this key is newest first. */
  function NewestFirstKey(d: Doc<Pack>): int
  {
    -OrZero(d.data.createdAt)
  }

  class Store {
    var users: seq<Doc<User>>
    var transactions: seq<Doc<Tx>>
    var packs: seq<Doc<Pack>>
    /** Every write the store has accepted, oldest first. */
    var log: seq<Write>

    /** Document ids are unique within a collection. */
    ghost predicate Valid()
      reads this
    {
      UniqueIds(users) && UniqueIds(transactions) && UniqueIds(packs)
    }

    /**
     * `db.collection('users').doc(id).update(patch)`: fails (Firestore's
     * NOT_FOUND) and writes nothing when there is no such document.
     */
    method UpdateUser(id: Id, p: UserPatch) returns (ok: bool)
      requires Valid()
      modifies this
      ensures Valid()
      ensures ok <==> Find(old(users), id).Some?
      ensures users == if ok then PatchUsers(old(users), id, p) else old(users)
      ensures log == if ok then old(log) + [Updated(Users, id)] else old(log)
      ensures transactions == old(transactions) && packs == old(packs)
    {
      ok := Find(users, id).Some?;
      if ok {
        users := PatchUsers(users, id, p);
        log := log + [Updated(Users, id)];
      }
    }

    /** `batch.commit()` of a batch of transaction updates: one write for the whole batch. */
    method CommitTransactions(ops: seq<TxOp>)
      requires Valid()
      modifies this
      ensures Valid()
      ensures transactions == ApplyBatch(old(transactions), ops)
      ensures log == old(log) + [Committed(Transactions, OpIds(ops))]
      ensures users == old(users) && packs == old(packs)
    {
      BatchKeepsIds(transactions, ops);
      transactions := ApplyBatch(transactions, ops);
      log := log + [Committed(Transactions, OpIds(ops))];
    }

    /** `db.collection('sticker_packs').doc(id).update(patch)`. */
    method UpdatePack(id: Id, p: PackPatch) returns (ok: bool)
      requires Valid()
      modifies this
      ensures Valid()
      ensures ok <==> Find(old(packs), id).Some?
      ensures packs == if ok then PatchPacks(old(packs), id, p) else old(packs)
      ensures log == if ok then old(log) + [Updated(StickerPacks, id)] else old(log)
      ensures users == old(users) && transactions == old(transactions)
    {
      ok := Find(packs, id).Some?;
      if ok {
        packs := PatchPacks(packs, id, p);
        log := log + [Updated(StickerPacks, id)];
      }
    }

    /** `db.collection('sticker_packs').doc(id).delete()`; deleting a missing document succeeds. */
    method DeletePack(id: Id)
      requires Valid()
      modifies this
      ensures Valid()
      ensures packs == RemoveIds(old(packs), {id})
      ensures log == old(log) + [Deleted(StickerPacks, id)]
      ensures users == old(users) && transactions == old(transactions)
    {
      RemoveKeepsUnique(packs, {id});
      packs := RemoveIds(packs, {id});
      log := log + [Deleted(StickerPacks, id)];
    }

    /**
     * `db.collection('sticker_packs').orderBy('created_at', 'desc').get()`:
     * the packs that have `created_at`, newest first.
     */
    method QueryPacksNewestFirst() returns (snapshot: seq<Doc<Pack>>)
      ensures multiset(snapshot) == multiset(Filter(packs, WithCreatedAt))
      ensures SortedBy(snapshot, NewestFirstKey)
    {
      var found := Filter(packs, WithCreatedAt);
      var a := new Doc<Pack>[|found|](i requires 0 <= i < |found| => found[i]);
      assert a[..] == found;
      SortBy(a, NewestFirstKey);
      snapshot := a[..];
    }
  }

  lemma BatchKeepsIds(docs: seq<Doc<Tx>>, ops: seq<TxOp>)
    ensures |ApplyBatch(docs, ops)| == |docs|
    ensures forall i :: 0 <= i < |docs| ==> ApplyBatch(docs, ops)[i].id == docs[i].id
  {
  }

  lemma {:induction false} RemoveKeepsUnique<T(!new)>(docs: seq<Doc<T>>, ids: set<Id>)
    requires UniqueIds(docs)
    ensures UniqueIds(RemoveIds(docs, ids))
  {
    if docs != [] {
      var init, d := docs[..|docs| - 1], docs[|docs| - 1];
      assert docs == init + [d];
      RemoveKeepsUnique(init, ids);
      var r := RemoveIds(init, ids);
      forall x | x in r ensures x.id != d.id {
        var k :| 0 <= k < |init| && init[k] == x;
      }
    }
  }
}
