/**
 * recalculate_user_balances.js: for each listed user, replay the transaction
 * log, compare with the stored `qkey_balance`, and overwrite that field with
 * the replayed value when the two differ.
 */
module Recalculate {
  import opened Collections
  import opened Store
  import opened Ledger

  /** `userDoc.data()?.qkey_balance || 0`: 0 when the field or the whole document is missing. */
  function StoredBalance(users: seq<Doc<User>>, userId: Id): int
  {
    match Find(users, userId)
    case Some(u) => OrZero(u.qkey_balance)
    case None => 0
  }

  /** The balance the user's transaction log replays to. */
  function ComputedBalance(txs: seq<Doc<Tx>>, userId: Id): int
  {
    Balance(UserTransactions(txs, userId))
  }

  /** `difference = currentBalance - calculatedBalance`. */
  function Drift(users: seq<Doc<User>>, txs: seq<Doc<Tx>>, userId: Id): int
  {
    StoredBalance(users, userId) - ComputedBalance(txs, userId)
  }

  /** A point read after an update of one document. */
  lemma {:induction false} FindPatched(users: seq<Doc<User>>, x: Id, p: UserPatch, y: Id)
    ensures Find(PatchUsers(users, x, p), y) ==
              if y == x then
                match Find(users, y)
                case Some(u) => Some(ApplyUserPatch(u, p))
                case None => None
              else Find(users, y)
  {
    if users != [] {
      assert PatchUsers(users, x, p)[1..] == PatchUsers(users[1..], x, p);
      FindPatched(users[1..], x, p, y);
    }
  }

  /**
   * The users table after the correction of one user: unchanged when there is
   * no drift; with that user's `qkey_balance` set to the replayed balance when
   * there is; None when there is drift but no such user, which makes the
   * update throw.
   */
  function CorrectedUsers(users: seq<Doc<User>>, txs: seq<Doc<Tx>>, userId: Id): (r: Option<seq<Doc<User>>>)
    ensures Drift(users, txs, userId) == 0 ==> r == Some(users)
    ensures r.None? <==> Drift(users, txs, userId) != 0 && Find(users, userId).None?
  {
    if Drift(users, txs, userId) == 0 then Some(users)
    else if Find(users, userId).None? then None
    else Some(PatchUsers(users, userId, SetQkey_balance(ComputedBalance(txs, userId))))
  }

  /**
   * What a correction writes: the one user's `qkey_balance` becomes the
   * replayed balance, so that user has no drift left, and every other
   * document and every other user's reading is untouched.
   */
  lemma CorrectedUsersEffect(users: seq<Doc<User>>, txs: seq<Doc<Tx>>, userId: Id)
    requires CorrectedUsers(users, txs, userId).Some?
    ensures var r := CorrectedUsers(users, txs, userId).value;
      && Drift(r, txs, userId) == 0
      && |r| == |users|
      && (Drift(users, txs, userId) != 0 ==> forall i :: 0 <= i < |users| ==>
            r[i] == if users[i].id == userId
                    then Doc(userId, users[i].data.(qkey_balance := Some(ComputedBalance(txs, userId))))
                    else users[i])
      && forall y :: y != userId ==> Find(r, y) == Find(users, y)
  {
    var r := CorrectedUsers(users, txs, userId).value;
    if Drift(users, txs, userId) != 0 {
      var computed := ComputedBalance(txs, userId);
      FindPatched(users, userId, SetQkey_balance(computed), userId);
      forall y | y != userId ensures Find(r, y) == Find(users, y) {
        FindPatched(users, userId, SetQkey_balance(computed), y);
      }
    }
  }

  /** The users table after correcting `userIds` in turn; None once an update has failed. */
  function RunAll(users: seq<Doc<User>>, txs: seq<Doc<Tx>>, userIds: seq<Id>): Option<seq<Doc<User>>>
  {
    if userIds == [] then Some(users)
    else
      match RunAll(users, txs, userIds[..|userIds| - 1])
      case None => None
      case Some(u) => CorrectedUsers(u, txs, userIds[|userIds| - 1])
  }

  /** After a completed run, every listed user's stored balance equals the replayed one. */
  lemma {:induction false} RunAllClosesDrift(users: seq<Doc<User>>, txs: seq<Doc<Tx>>, userIds: seq<Id>)
    requires RunAll(users, txs, userIds).Some?
    ensures forall id :: id in userIds ==> Drift(RunAll(users, txs, userIds).value, txs, id) == 0
  {
    if userIds != [] {
      var init, last := userIds[..|userIds| - 1], userIds[|userIds| - 1];
      RunAllClosesDrift(users, txs, init);
      var u := RunAll(users, txs, init).value;
      CorrectedUsersEffect(u, txs, last);
      assert userIds == init + [last];
      forall id | id in userIds ensures Drift(RunAll(users, txs, userIds).value, txs, id) == 0 {
        if id != last {
          assert id in init;
        }
      }
    }
  }

  /** A table with no drift for any listed user is left as it is by a run. */
  lemma {:induction false} RunAllWithoutDrift(users: seq<Doc<User>>, txs: seq<Doc<Tx>>, userIds: seq<Id>)
    requires forall id :: id in userIds ==> Drift(users, txs, id) == 0
    ensures RunAll(users, txs, userIds) == Some(users)
  {
    if userIds != [] {
      RunAllWithoutDrift(users, txs, userIds[..|userIds| - 1]);
      assert userIds[|userIds| - 1] in userIds;
    }
  }

  /** Idempotence: a second run on the unchanged log leaves the table as the first run left it. */
  lemma RecalculationIdempotent(users: seq<Doc<User>>, txs: seq<Doc<Tx>>, userIds: seq<Id>)
    requires RunAll(users, txs, userIds).Some?
    ensures RunAll(RunAll(users, txs, userIds).value, txs, userIds) == RunAll(users, txs, userIds)
  {
    RunAllClosesDrift(users, txs, userIds);
    RunAllWithoutDrift(RunAll(users, txs, userIds).value, txs, userIds);
  }

  /** The replay loop of lines 59-67, with its counters. */
  method Replay(sorted: seq<Doc<Tx>>) returns (calculatedBalance: int, earnCount: int, useCount: int)
    ensures calculatedBalance == Balance(sorted)
    ensures earnCount == EarnCount(sorted) && useCount == UseCount(sorted)
  {
    calculatedBalance, earnCount, useCount := 0, 0, 0;
    for i := 0 to |sorted|
      invariant calculatedBalance == Balance(sorted[..i])
      invariant earnCount == EarnCount(sorted[..i]) && useCount == UseCount(sorted[..i])
    {
      assert sorted[..i + 1][..i] == sorted[..i];
      var d := sorted[i];
      if d.data.kind == Earn {
        calculatedBalance := calculatedBalance + d.data.amount;
        earnCount := earnCount + 1;
      } else if d.data.kind == Use {
        calculatedBalance := calculatedBalance - d.data.amount;
        useCount := useCount + 1;
      }
    }
    assert sorted[..|sorted|] == sorted;
  }

  /** What the script reports for one user. */
  datatype UserReport = UserReport(
    userId: Id,
    currentBalance: int,
    calculatedBalance: int,
    transactionCount: int,
    earnCount: int,
    useCount: int,
    corrected: bool)

  /**
   * Report `r` is what the run says for the user at position `k`: the run got
   * that far, and the figures are read from the table the earlier corrections
   * left.
   */
  ghost predicate ReportFits(users0: seq<Doc<User>>, txs: seq<Doc<Tx>>, userIds: seq<Id>, k: int, r: UserReport)
  {
    && 0 <= k < |userIds|
    && RunAll(users0, txs, userIds[..k]).Some?
    && var u, id := RunAll(users0, txs, userIds[..k]).value, userIds[k];
    && r.userId == id
    && r.currentBalance == StoredBalance(u, id)
    && r.calculatedBalance == ComputedBalance(txs, id)
    && r.transactionCount == |UserTransactions(txs, id)|
    && r.earnCount == EarnCount(UserTransactions(txs, id))
    && r.useCount == UseCount(UserTransactions(txs, id))
    && (r.corrected <==> Drift(u, txs, id) != 0)
  }

  /** The writes a run made: one `qkey_balance` update per corrected user. */
  function CorrectionWrites(reports: seq<UserReport>): seq<Write>
  {
    if reports == [] then []
    else
      var last := reports[|reports| - 1];
      CorrectionWrites(reports[..|reports| - 1]) + if last.corrected then [Updated(Users, last.userId)] else []
  }

  lemma {:induction false} NoCorrectionNoWrites(reports: seq<UserReport>)
    requires forall k :: 0 <= k < |reports| ==> !reports[k].corrected
    ensures CorrectionWrites(reports) == []
  {
    if reports != [] {
      NoCorrectionNoWrites(reports[..|reports| - 1]);
    }
  }

  /**
   * A second run on the unchanged log, starting from the table a completed
   * first run left, corrects no user and so writes nothing.
   */
  lemma SecondRunWritesNothing(users: seq<Doc<User>>, txs: seq<Doc<Tx>>, userIds: seq<Id>, reports: seq<UserReport>)
    requires RunAll(users, txs, userIds).Some?
    requires forall k :: 0 <= k < |reports| ==> ReportFits(RunAll(users, txs, userIds).value, txs, userIds, k, reports[k])
    ensures forall k :: 0 <= k < |reports| ==> !reports[k].corrected
    ensures CorrectionWrites(reports) == []
  {
    var u1 := RunAll(users, txs, userIds).value;
    RunAllClosesDrift(users, txs, userIds);
    forall k | 0 <= k < |reports| ensures !reports[k].corrected {
      assert ReportFits(u1, txs, userIds, k, reports[k]);
      forall id | id in userIds[..k] ensures Drift(u1, txs, id) == 0 {
        assert id in userIds;
      }
      RunAllWithoutDrift(u1, txs, userIds[..k]);
      assert userIds[k] in userIds;
    }
    NoCorrectionNoWrites(reports);
  }

  /** Lines 29-70 for one user: the stored balance, the replayed one and the counters, all read-only. */
  method Examine(users: seq<Doc<User>>, txs: seq<Doc<Tx>>, userId: Id) returns (report: UserReport)
    ensures report.userId == userId
    ensures report.currentBalance == StoredBalance(users, userId)
    ensures report.calculatedBalance == ComputedBalance(txs, userId)
    ensures report.transactionCount == |UserTransactions(txs, userId)|
    ensures report.earnCount == EarnCount(UserTransactions(txs, userId))
    ensures report.useCount == UseCount(UserTransactions(txs, userId))
    ensures report.earnCount + report.useCount <= report.transactionCount
    ensures report.corrected <==> Drift(users, txs, userId) != 0
  {
    var currentBalance := StoredBalance(users, userId);
    var fetched := UserTransactions(txs, userId);
    var sorted := ReadLedger(fetched);
    var calculatedBalance, earnCount, useCount := Replay(sorted);
    SortedLedgerReplay(fetched, sorted);
    CountsBounded(fetched);
    var difference := currentBalance - calculatedBalance;
    report := UserReport(userId, currentBalance, calculatedBalance, |fetched|, earnCount, useCount, difference != 0);
  }

  /** Lines 27-84 for one user; `ok` is false when the update threw. */
  method RecalculateUser(store: Store, userId: Id) returns (report: UserReport, ok: bool)
    requires store.Valid()
    modifies store
    ensures store.Valid()
    ensures report.userId == userId
    ensures report.currentBalance == StoredBalance(old(store.users), userId)
    ensures report.calculatedBalance == ComputedBalance(old(store.transactions), userId)
    ensures report.transactionCount == |UserTransactions(old(store.transactions), userId)|
    ensures report.earnCount == EarnCount(UserTransactions(old(store.transactions), userId))
    ensures report.useCount == UseCount(UserTransactions(old(store.transactions), userId))
    ensures report.corrected <==> Drift(old(store.users), old(store.transactions), userId) != 0
    ensures ok <==> CorrectedUsers(old(store.users), old(store.transactions), userId).Some?
    ensures store.users == if ok then CorrectedUsers(old(store.users), old(store.transactions), userId).value
                           else old(store.users)
    ensures store.log == old(store.log) + if ok && report.corrected then [Updated(Users, userId)] else []
    ensures store.transactions == old(store.transactions) && store.packs == old(store.packs)
  {
    report := Examine(store.users, store.transactions, userId);
    if report.corrected {
      ok := store.UpdateUser(userId, SetQkey_balance(report.calculatedBalance));
    } else {
      ok := true;
    }
  }

  /**
   * recalculateUserBalances: the users are processed in list order; the first
   * failed update ends the run (the catch calls process.exit(1)).
   */
  method RecalculateUserBalances(store: Store, userIds: seq<Id>) returns (reports: seq<UserReport>, ok: bool)
    requires store.Valid()
    modifies store
    ensures store.Valid()
    ensures ok <==> RunAll(old(store.users), old(store.transactions), userIds).Some?
    ensures ok ==> |reports| == |userIds| && store.users == RunAll(old(store.users), old(store.transactions), userIds).value
    ensures !ok ==> |reports| < |userIds|
    ensures !ok ==> RunAll(old(store.users), old(store.transactions), userIds[..|reports|]) == Some(store.users)
    ensures !ok ==> CorrectedUsers(store.users, store.transactions, userIds[|reports|]).None?
    ensures forall k :: 0 <= k < |reports| ==> reports[k].userId == userIds[k]
    ensures forall k :: 0 <= k < |reports| ==> ReportFits(old(store.users), old(store.transactions), userIds, k, reports[k])
    ensures store.log == old(store.log) + CorrectionWrites(reports)
    ensures store.transactions == old(store.transactions) && store.packs == old(store.packs)
  {
    ghost var users0, txs0, log0 := store.users, store.transactions, store.log;
    reports := [];
    ok := true;
    while |reports| < |userIds|
      invariant |reports| <= |userIds|
      invariant store.Valid()
      invariant store.transactions == txs0 && store.packs == old(store.packs)
      invariant RunAll(users0, txs0, userIds[..|reports|]) == Some(store.users)
      invariant forall k :: 0 <= k < |reports| ==> reports[k].userId == userIds[k]
      invariant forall k :: 0 <= k < |reports| ==> ReportFits(users0, txs0, userIds, k, reports[k])
      invariant store.log == log0 + CorrectionWrites(reports)
      decreases |userIds| - |reports|
    {
      var report, done := Step(store, users0, txs0, log0, userIds, reports);
      if !done {
        ok := false;
        return;
      }
      reports := reports + [report];
    }
    assert userIds[..|reports|] == userIds;
  }

  /** One turn of the loop at line 23, stated against the whole run. */
  method Step(store: Store, ghost users0: seq<Doc<User>>, ghost txs0: seq<Doc<Tx>>, ghost log0: seq<Write>,
              userIds: seq<Id>, reports: seq<UserReport>) returns (report: UserReport, done: bool)
    requires store.Valid() && |reports| < |userIds|
    requires store.transactions == txs0
    requires RunAll(users0, txs0, userIds[..|reports|]) == Some(store.users)
    requires store.log == log0 + CorrectionWrites(reports)
    modifies store
    ensures store.Valid()
    ensures store.transactions == txs0 && store.packs == old(store.packs)
    ensures report.userId == userIds[|reports|]
    ensures done ==> ReportFits(users0, txs0, userIds, |reports|, report)
    ensures done ==> RunAll(users0, txs0, userIds[..|reports| + 1]) == Some(store.users)
    ensures done ==> store.log == log0 + CorrectionWrites(reports + [report])
    ensures !done ==> store.users == old(store.users) && store.log == old(store.log)
    ensures !done ==> CorrectedUsers(store.users, txs0, userIds[|reports|]).None?
    ensures !done ==> RunAll(users0, txs0, userIds).None?
  {
    var i := |reports|;
    report, done := RecalculateUser(store, userIds[i]);
    RunAllSnoc(users0, txs0, userIds, i);
    CorrectionWritesSnoc(reports, report);
    if !done {
      RunAllStaysFailed(users0, txs0, userIds, i + 1);
    }
  }

  lemma CorrectionWritesSnoc(reports: seq<UserReport>, r: UserReport)
    ensures CorrectionWrites(reports + [r]) == CorrectionWrites(reports) + CorrectionWrites([r])
    ensures CorrectionWrites([r]) == if r.corrected then [Updated(Users, r.userId)] else []
  {
    assert (reports + [r])[..|reports|] == reports;
    assert [r][..0] == [];
  }

  lemma RunAllSnoc(users: seq<Doc<User>>, txs: seq<Doc<Tx>>, userIds: seq<Id>, i: int)
    requires 0 <= i < |userIds|
    ensures RunAll(users, txs, userIds[..i + 1]) ==
              match RunAll(users, txs, userIds[..i])
              case None => None
              case Some(u) => CorrectedUsers(u, txs, userIds[i])
  {
    assert userIds[..i + 1][..i] == userIds[..i];
  }

  lemma {:induction false} RunAllStaysFailed(users: seq<Doc<User>>, txs: seq<Doc<Tx>>, userIds: seq<Id>, k: int)
    requires 0 <= k <= |userIds|
    requires RunAll(users, txs, userIds[..k]).None?
    ensures RunAll(users, txs, userIds).None?
    decreases |userIds| - k
  {
    if k < |userIds| {
      assert userIds[..k + 1][..k] == userIds[..k];
      RunAllStaysFailed(users, txs, userIds, k + 1);
    } else {
      assert userIds[..k] == userIds;
    }
  }
}
