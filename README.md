# QRChat QKEY ledger and sticker-pack maintenance, in Dafny

This project models the maintenance scripts QRChat runs against its
Firestore database, and proves properties of the model. Three collections
are involved:

- `users`, with the balance field `qkey_balance` and the legacy `qkeyBalance`;
- `qkey_transactions`, the QKEY ledger: `type`, `amount`, `balanceAfter`, `userId`, `timestamp`, `created_at`;
- `sticker_packs`.

The scripts fall into four groups:

- **Ledger replay and drift correction.**
  - `recalculate_user_balances.js` replays each listed user's transactions. It sorts them by `timestamp || created_at`; 'earn' adds, 'use' subtracts, and every other type is ignored. When the stored `qkey_balance || 0` differs, it overwrites that field.
  - `check_user_balance.js` is the read-only report on the same replay. It adds per-type totals and counts, the histogram of earn amounts, the drift, and the ten most recent records, newest first.
- **Two-field sync.** `sync_qkey_balance_fields.js` copies `qkey_balance || 0` into `qkeyBalance` for every user whose two fields disagree.
- **Amount rewrite.**
  - `update_qkey_amounts.js` rewrites every 'earn' record of amount 10 to amount 2, in a single batch.
  - `fix_qkey_amounts.js` does the same, also lowers `balanceAfter` by 8, and reports the affected users and the histogram after the fix.
  - `check_earn_amounts.js` is the companion survey: per amount, a count and the set of distinct users.
- **Sticker-pack merge.** `merge_sticker_packs.js` takes the packs with one name in `created_at`-descending order.
  - It concatenates their stickers in that order and removes duplicate `image_url`s, keeping the first one seen.
  - It writes the result into the last (oldest) pack, then deletes the others.

The store is the class `Store.Store` (store.dfy):

- each collection is a sequence of documents, in document-id order, with unique ids;
- `log` records every write the store accepts;
- reads are functions, and `update`, `delete`, `batch.commit` and the pack query are methods.

Each script is a method over that class. Its loops are `for`/`while` loops, each tied by its invariant to a specification function on values. The properties the scripts promise are lemmas about those functions:

- idempotence;
- nothing else changes;
- round counts;
- exactly-the-right-records;
- dedup correctness.

Modules:

- `Collections` holds filter, sums, histograms, reverse, an in-place insertion sort and the descending key order.
- `Store` holds the documents, the patches and the `Store` class.
- `Ledger` is the shared replay.
- `Recalculate`, `BalanceReport`, `FieldSync`, `AmountRewrite` (shared by the two rewrite scripts), `UpdateAmounts`, `FixAmounts`, `EarnStats` and `StickerMerge` follow the scripts one by one.

Some points of what the code does, which the model follows:

- **Other transaction types.** Types other than 'earn' and 'use', such as the 'admin_add' written by `add_qkey_test.js`, are ignored by the replay.
- **No partitioning.** The rewrite scripts never partition their batch at 500 writes; `update_qkey_amounts.js` only prints a warning.
- **One name.** The merge handles one hard-coded pack name.
- **Newest-first concatenation.** The merge concatenates newest first, so on a duplicate URL the newest pack's sticker is the one kept.

## Model

| member | source | states |
|---|---|---|
| Ledger.NormalizedTimeKey | recalculate_user_balances.js:42-50 | every fetched record is kept; its time key is `timestamp`, else `created_at`, else 0; nothing else changes |
| Ledger.ReadLedger | recalculate_user_balances.js:42-57 | the records pushed and sorted are a permutation of the normalised fetch, with non-decreasing time keys |
| Collections.SortBy | recalculate_user_balances.js:53-57 | the in-place sort leaves the array sorted by the key and a permutation of what it held |
| Ledger.BalanceIsEarnMinusUse | recalculate_user_balances.js:59-67 | the replayed balance is the sum of the earn amounts minus the sum of the use amounts |
| Ledger.ReplayOrderIndependent | recalculate_user_balances.js:59-67 | balance, per-type totals and per-type counts are the same for any reordering of the records |
| Ledger.SortedLedgerReplay | recalculate_user_balances.js:42-67 | replaying the sorted, normalised list gives what the raw fetch gives: balance, totals, counts |
| Ledger.OtherKindIgnored | recalculate_user_balances.js:59-67 | a record of any other type changes no balance, total or count |
| Ledger.CountsBounded | recalculate_user_balances.js:59-69 | earnCount + useCount is at most the number of transactions |
| Recalculate.Replay | recalculate_user_balances.js:37-67 | the fold loop computes the replayed balance and the earn/use counts |
| Recalculate.Examine | recalculate_user_balances.js:28-73 | the stored balance, a missing field or user reading as 0, the replayed balance, the counts, and "correct" exactly when drift is non-zero |
| Recalculate.CorrectedUsers | recalculate_user_balances.js:73-84 | no drift leaves the table as it is; the update fails only when there is drift and no such user |
| Recalculate.CorrectedUsersEffect | recalculate_user_balances.js:74-80 | a correction sets that user's `qkey_balance` to the replayed balance and nothing else; afterwards that user has no drift and every other user reads the same |
| Recalculate.RecalculateUser | recalculate_user_balances.js:27-84 | one user's step: the report fields; the table is as CorrectedUsers says; the single `qkey_balance` write is logged only when drift was non-zero |
| Recalculate.RecalculateUserBalances | recalculate_user_balances.js:23-85 | users in list order; each report carries the stored balance read from the table the earlier corrections left, the replayed balance and the counts, and is "corrected" exactly when that user drifts; the final table is the run of corrections; one logged write per corrected user; the first failed update ends the run |
| Recalculate.RunAllClosesDrift | recalculate_user_balances.js:23-85 | after a completed run every listed user's stored balance equals the replay |
| Recalculate.RunAllWithoutDrift | recalculate_user_balances.js:73-84 | a table with no drift for any listed user is left unchanged |
| Recalculate.RecalculationIdempotent | recalculate_user_balances.js:29-80 | a second run on the unchanged log leaves the table as the first run left it |
| Recalculate.SecondRunWritesNothing | recalculate_user_balances.js:73-84 | after a completed run, the reports of a second run on the unchanged log correct no user, so that run writes nothing |
| BalanceReport.FirstByNickname | check_user_balance.js:19-30 | None exactly when no user has the nickname; otherwise the position of the first user who has it |
| BalanceReport.Statistics | check_user_balance.js:68-78 | the loop yields earnTotal, earnCount, useTotal, useCount and the histogram of the earn amounts |
| BalanceReport.StatsOfMeaning | check_user_balance.js:68-78 | the loop's accumulators are those totals, counts and histogram |
| BalanceReport.HistogramOfEarns | check_user_balance.js:73 | the histogram has a key for exactly the amounts of earn records, and its counts sum to earnCount |
| BalanceReport.Recent | check_user_balance.js:96 | `slice(-10).reverse()` holds min(10, n) records, the last one first |
| BalanceReport.RecentNewestFirst | check_user_balance.js:62-66 | on the sorted ledger the recent view runs newest first |
| BalanceReport.CheckUserBalance | check_user_balance.js:14-102 | read-only; None when no user has the nickname; otherwise totals, counts, computed balance = earnTotal − useTotal, difference = (qkey_balance‖0) − computed (the drift), histogram summing to earnCount, amounts largest first, the recent view |
| FieldSync.SyncAll | sync_qkey_balance_fields.js:23-46 | after the pass every user is in sync; an out-of-sync user's `qkeyBalance` becomes `qkey_balance`, or 0 when that is missing; `qkey_balance` and `nickname` are never changed; in-sync users are untouched |
| FieldSync.SyncQKeyBalanceFields | sync_qkey_balance_fields.js:17-46 | the users table becomes SyncAll of the old one; syncedCount counts the out-of-sync users; syncedCount + skippedCount = the number of users; one logged write per synced user |
| FieldSync.SecondPassSyncsNothing | sync_qkey_balance_fields.js:31-45 | a second pass changes nothing, has syncedCount 0 and writes nothing |
| FieldSync.WritesMatchCount | sync_qkey_balance_fields.js:37-42 | one write per counted user |
| AmountRewrite.RewriteAll | update_qkey_amounts.js:42-72 | no earn record of amount 10 is left; those records get amount 2 and, per policy, `balanceAfter` kept or lowered by 8, with every other field kept; every other record is untouched |
| AmountRewrite.BatchRewritesAll | update_qkey_amounts.js:42-87 | committing the batch staged from the snapshot of targets is exactly the rewrite of the whole collection |
| AmountRewrite.EarnThenOldAmount | update_qkey_amounts.js:25-47 | selecting amount 10 among the earn records selects exactly the earn records of amount 10, in order |
| AmountRewrite.RewriteLeavesNoTarget | update_qkey_amounts.js:47 | after the rewrite the selection is empty |
| AmountRewrite.RewriteKeepsEarnCount | update_qkey_amounts.js:42-72 | the rewrite keeps the number of earn records |
| AmountRewrite.PostRewriteHistogram | fix_qkey_amounts.js:79-87 | after the rewrite the earn histogram has no entry for 10 and its counts sum to the number of earn records |
| AmountRewrite.CountAmounts | fix_qkey_amounts.js:83-87 | the loop builds the histogram of the amounts |
| UpdateAmounts.StageUpdates | update_qkey_amounts.js:37-72 | exactly the records of amount 10 are staged, each with `amount: 2` only; updateCount is their number; the warning is set at 500 or more |
| UpdateAmounts.UpdateQKeyAmounts | update_qkey_amounts.js:25-94 | no earn records, or none of amount 10, means no commit; otherwise one commit, the collection becomes the amount-only rewrite, and untouched = total − updateCount |
| UpdateAmounts.RerunFindsNothing | update_qkey_amounts.js:74-77 | after a rewrite a second run finds earn records but none to update |
| FixAmounts.StageFixes | fix_qkey_amounts.js:33-55 | one staged update per selected record, `amount: 2` and `balanceAfter − 8`; updateCount is their number |
| FixAmounts.AffectedUsers | fix_qkey_amounts.js:70-76 | the set is exactly the users of the selected records, and no larger than the selection |
| FixAmounts.FixQKeyAmounts | fix_qkey_amounts.js:17-92 | an empty selection commits nothing; otherwise one commit, the two-field rewrite, the affected users, and the post-fix histogram (no 10, summing to the earn count, keys largest first) |
| Collections.KeysDescending | check_earn_amounts.js:53 | the keys, largest first, each once |
| EarnStats.CollectStats | check_earn_amounts.js:35-48 | the loop builds the per-amount statistics |
| EarnStats.StatsCounts | check_earn_amounts.js:39-46 | the counts are the histogram of the amounts |
| EarnStats.StatsUsers | check_earn_amounts.js:39-47 | each user set is exactly the owners of the records with that amount; it is non-empty and no larger than the count |
| EarnStats.StatsKeys | check_earn_amounts.js:35-48 | an amount has an entry exactly when some record carries it |
| EarnStats.CountsTotal | check_earn_amounts.js:35-48 | the counts sum to the number of earn records |
| EarnStats.CountOrZero | check_earn_amounts.js:83-84 | the count read for amount a, defaulting to 0, is the number of records of amount a |
| EarnStats.PrintSample | check_earn_amounts.js:66-78 | printing the sample succeeds exactly when every sampled record has a `timestamp` |
| EarnStats.CheckEarnAmounts | check_earn_amounts.js:21-104 | read-only; None on no earn records; otherwise the statistics, amounts largest first, the first five records as sample; the 10 and 20 counts and the "already 2" branch (taken exactly when both are 0) are reached exactly when every sampled record has a `timestamp` |
| EarnStats.NoTenAfterRewrite | check_earn_amounts.js:83 | after either rewrite the survey counts no record of amount 10 |
| StickerMerge.SelectPacks | merge_sticker_packs.js:67-80 | exactly the packs with that name, in query order |
| StickerMerge.FilterSorted | merge_sticker_packs.js:55-80 | the selection keeps the newest-first order |
| StickerMerge.CollectStickers | merge_sticker_packs.js:91-96 | the concatenation of the selected packs' sticker lists in order, a missing list counting as empty |
| StickerMerge.ConcatMembers | merge_sticker_packs.js:91-96 | a sticker is collected exactly when a selected pack has it |
| StickerMerge.DedupByUrl | merge_sticker_packs.js:101-109 | the loop with `urlSet` computes the first-seen dedup |
| StickerMerge.DedupDistinct | merge_sticker_packs.js:101-109 | no two kept stickers share an `image_url` |
| StickerMerge.DedupUrls | merge_sticker_packs.js:104-113 | the kept stickers have exactly the URLs of the concatenation, one each, so at most its length |
| StickerMerge.DedupSubsequence | merge_sticker_packs.js:104-108 | the result is a subsequence of the concatenation |
| StickerMerge.DedupKeepsFirst | merge_sticker_packs.js:104-108 | every kept sticker is the first one with its URL |
| StickerMerge.SurvivorIsOldest | merge_sticker_packs.js:117 | on the newest-first order the last pack has the smallest `created_at` |
| StickerMerge.SelectedInStore | merge_sticker_packs.js:55-80 | every selected pack was read from the store, with no id twice |
| StickerMerge.MergedPacksMeaning | merge_sticker_packs.js:117-139 | after the merge the survivor holds the merged stickers and the new `updated_at`; no other selected pack is left; unselected packs are untouched |
| StickerMerge.DeleteAll | merge_sticker_packs.js:132-139 | one delete per pack, in order, and nothing else removed |
| StickerMerge.MergeStickerPacks | merge_sticker_packs.js:55-147 | no query rows gives NoPacks; fewer than two selected means no write at all; otherwise the survivor is updated first, then n − 1 deletes follow, with removed = collected − kept ≥ 0 |

## Left out

- Firebase initialisation, credentials, console output, `process.exit` and the `.then/.catch` wrappers are I/O and are not modelled.
- Two failures are modelled: the store's update of a missing document, and the sample of check_earn_amounts.js, which throws at line 69 on a record without `timestamp`. Other store errors, and the catch blocks that only log them (the sync script's among them), are not modelled.
- Hard-coded inputs are parameters:
  - the recalculation's user-id list;
  - the report's nickname;
  - the merge's pack name.
- `serverTimestamp()` is the parameter `now` of MergeStickerPacks. Times are optional integer milliseconds; `toMillis` and `toDate` are not modelled. A present `timestamp` is taken to be a Firestore Timestamp, so the `_seconds` fallback of check_earn_amounts.js:69 is read only for a missing one, where it throws.
- Query order is the collection's document-id order. For `orderBy('created_at', 'desc')` the model claims only a newest-first permutation of the packs that have `created_at`. The tie order and the stability of `Array.prototype.sort` are not claimed.
- Fields are typed. The NaN that JavaScript produces for a missing `amount` or `balanceAfter`, non-number fields, and the string conversion of histogram keys are not modelled.
- `batch.commit()` applies its whole list of updates at once. Partial failure of a batch and Firestore's 500-writes limit are not modelled; the model records only the warning flag.
- StickerMerge.MergeStickerPacks: the survivor update is proved always to find its document, so the script's path where that update throws is unreachable in the model.
- check_qkey_structure.js, merge_stickers_manual.js, list_sticker_packs.js and add_qkey_test.js are not part of this model. They only print, or make an unconditional write. The 'admin_add' type they write is covered by Ledger.OtherKindIgnored.
