/**
 * sync_qkey_balance_fields.js: every user whose legacy `qkeyBalance` reads
 * differently from `qkey_balance` (both read with `|| 0`) gets
 * `qkeyBalance` overwritten with the `qkey_balance` reading.
 */
module FieldSync {
  import opened Collections
  import opened Store

  /** Lines 27-31: the two fields agree once each is read with `|| 0`. */
  predicate InSync(u: User)
  {
    OrZero(u.qkeyBalance) == OrZero(u.qkey_balance)
  }

  predicate NeedsSync(d: Doc<User>)
  {
    !InSync(d.data)
  }

  /** A user after the pass: unchanged when in sync, else `qkeyBalance := qkey_balance || 0`. */
  function Synced(u: User): User
  {
    if InSync(u) then u else ApplyUserPatch(u, SetQkeyBalance(OrZero(u.qkey_balance)))
  }

  /** The users table after the pass. */
  function SyncAll(users: seq<Doc<User>>): (r: seq<Doc<User>>)
    ensures |r| == |users|
    ensures forall j :: 0 <= j < |r| ==> r[j].id == users[j].id && InSync(r[j].data)
    ensures forall j :: 0 <= j < |r| ==>
              r[j].data.qkey_balance == users[j].data.qkey_balance && r[j].data.nickname == users[j].data.nickname
    ensures forall j :: 0 <= j < |r| && InSync(users[j].data) ==> r[j] == users[j]
    ensures forall j :: 0 <= j < |r| && !InSync(users[j].data) ==>
              r[j].data.qkeyBalance == Some(OrZero(users[j].data.qkey_balance))
  {
    seq(|users|, j requires 0 <= j < |users| => Doc(users[j].id, Synced(users[j].data)))
  }

  /** The number of users the pass writes. */
  function OutOfSyncCount(users: seq<Doc<User>>): nat
  {
    |Filter(users, NeedsSync)|
  }

  /** The writes the pass makes: one `qkeyBalance` update per out-of-sync user, in table order. */
  function SyncWrites(users: seq<Doc<User>>): seq<Write>
  {
    if users == [] then []
    else
      var d := users[|users| - 1];
      SyncWrites(users[..|users| - 1]) + if NeedsSync(d) then [Updated(Users, d.id)] else []
  }

  /** Idempotence: a second pass changes nothing, and writes nothing. */
  lemma SecondPassSyncsNothing(users: seq<Doc<User>>)
    ensures SyncAll(SyncAll(users)) == SyncAll(users)
    ensures OutOfSyncCount(SyncAll(users)) == 0
    ensures SyncWrites(SyncAll(users)) == []
  {
    var r := SyncAll(users);
    if |Filter(r, NeedsSync)| != 0 {
      assert Filter(r, NeedsSync)[0] in Filter(r, NeedsSync);
    }
    NoWritesWhenInSync(r);
  }

  lemma {:induction false} NoWritesWhenInSync(users: seq<Doc<User>>)
    requires forall j :: 0 <= j < |users| ==> InSync(users[j].data)
    ensures SyncWrites(users) == []
  {
    if users != [] {
      NoWritesWhenInSync(users[..|users| - 1]);
    }
  }

  /** One write per counted user. */
  lemma {:induction false} WritesMatchCount(users: seq<Doc<User>>)
    ensures |SyncWrites(users)| == OutOfSyncCount(users)
  {
    if users != [] {
      WritesMatchCount(users[..|users| - 1]);
    }
  }

  /**
   * syncQKeyBalanceFields: one pass over the users in table order; the
   * update of a document just read always finds it.
   */
  method SyncQKeyBalanceFields(store: Store) returns (syncedCount: int, skippedCount: int)
    requires store.Valid()
    modifies store
    ensures store.Valid()
    ensures store.users == SyncAll(old(store.users))
    ensures syncedCount == OutOfSyncCount(old(store.users))
    ensures syncedCount + skippedCount == |old(store.users)|
    ensures store.log == old(store.log) + SyncWrites(old(store.users))
    ensures store.transactions == old(store.transactions) && store.packs == old(store.packs)
  {
    var snapshot := store.users;
    syncedCount, skippedCount := 0, 0;
    for i := 0 to |snapshot|
      invariant store.Valid()
      invariant UniqueIds(snapshot)
      invariant SyncedUpTo(store.users, snapshot, i)
      invariant syncedCount == OutOfSyncCount(snapshot[..i]) && syncedCount + skippedCount == i
      invariant store.log == old(store.log) + SyncWrites(snapshot[..i])
      invariant store.transactions == old(store.transactions) && store.packs == old(store.packs)
    {
      var userDoc := snapshot[i];
      assert snapshot[..i + 1][..i] == snapshot[..i];
      var qkeyBalance := OrZero(userDoc.data.qkeyBalance);
      var qkey_balance := OrZero(userDoc.data.qkey_balance);
      if qkeyBalance != qkey_balance {
        SyncStep(store.users, snapshot, i);
        var ok := store.UpdateUser(userDoc.id, SetQkeyBalance(qkey_balance));
        syncedCount := syncedCount + 1;
      } else {
        skippedCount := skippedCount + 1;
      }
    }
    assert snapshot[..|snapshot|] == snapshot;
    SyncedUpToEnd(store.users, snapshot);
  }

  /** The table mid-pass: the first `i` users synced, the rest as read. */
  ghost predicate SyncedUpTo(cur: seq<Doc<User>>, snapshot: seq<Doc<User>>, i: int)
  {
    |cur| == |snapshot| &&
    forall j :: 0 <= j < |snapshot| ==>
      cur[j] == if j < i then Doc(snapshot[j].id, Synced(snapshot[j].data)) else snapshot[j]
  }

  /** Updating user `i` mid-pass finds the document and syncs exactly that user. */
  lemma SyncStep(cur: seq<Doc<User>>, snapshot: seq<Doc<User>>, i: int)
    requires 0 <= i < |snapshot| && UniqueIds(snapshot) && SyncedUpTo(cur, snapshot, i)
    requires NeedsSync(snapshot[i])
    ensures Find(cur, snapshot[i].id).Some?
    ensures SyncedUpTo(PatchUsers(cur, snapshot[i].id, SetQkeyBalance(OrZero(snapshot[i].data.qkey_balance))), snapshot, i + 1)
  {
    assert cur[i].id == snapshot[i].id;
    var p := SetQkeyBalance(OrZero(snapshot[i].data.qkey_balance));
    var next := PatchUsers(cur, snapshot[i].id, p);
    forall j | 0 <= j < |snapshot|
      ensures next[j] == if j < i + 1 then Doc(snapshot[j].id, Synced(snapshot[j].data)) else snapshot[j]
    {
      assert cur[j].id == snapshot[j].id;
    }
  }

  lemma SyncedUpToEnd(cur: seq<Doc<User>>, snapshot: seq<Doc<User>>)
    requires SyncedUpTo(cur, snapshot, |snapshot|)
    ensures cur == SyncAll(snapshot)
  {
  }
}
