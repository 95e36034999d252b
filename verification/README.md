# SCAVIUM faucet: verified model

This project models the claim pipeline of the SCAVIUM faucet (`cmd/scavium-faucet`) in Dafny and
proves what the pipeline keeps over all of its runs. Verify it with `dafny verify dfyconfig.toml`.

## The system

A claim is created by an HTTP call, waits in a queue, is sent by one worker loop and confirmed or
failed by one watcher loop; an operator may retry or cancel it. All of them share one SQLite
database, and only some statements look at a claim's status before writing it. `ClaimSystem` is a
labelled transition system in which every SQL statement or transaction is one step, any number of
`CreateClaim` calls interleave with the two loops and the operator, and any actor may stop or crash
between two steps. `Run(cfg, steps)` is the state after any sequence of steps; a step that is not
enabled changes nothing, so the theorems quantify over plain step sequences.

| file | content |
|---|---|
| `Text`, `TimeText`, `TimeReading` | text order, numerals, sums; the calendar, RFC 3339 timestamps, when their text order is time order, and reading them back |
| `Domain`, `StoreSpec`, `Store` | records; what each SQL operation does; the store object proved against it |
| `ClaimSystem`, `Lifecycle`, `Payouts`, `Stability`, `Fairness`, `Witnesses` | the transition system, its invariant, payout safety, fairness, and runs showing the bounds are reached |
| `Cancels`, `Confirmations`, `Reconciliation`, `Ledger` | when a cancel is final; when a mined transaction is confirmed; who is dead-lettered as stuck; the transactions table |
| `Budgets`, `Intakes`, `Admissions`, `Cooldown`, `RateLimit` | admission control |
| `Loops` | the service call and the loops over the store object, proved to be runs of the transition system |
| `Sender`, `Erc20` | nonces, gas and balance guard, call data |
| `Breaker`, `Enforcer`, `Metrics` | circuit breaker, abuse enforcement and pruning, metrics registry |
| `Policy`, `PolicyAdmin`, `CampaignAdmin` | runtime policy rows, and audited operator writes with rollback |

## Where the code differs from what it says

- `reconcileStuck` is documented to re-queue stuck claims; it dead-letters them (`FailTransaction`
  writes 'failed'). The model dead-letters.
- The backoff of `Fail` is linear (30 s times the retry count); an interface comment calls it exponential.
- The nonce manager speaks of the pending nonce; `NonceAt(ctx, address, nil)` is the nonce of the
  latest block. `Sender.ReseedExact` says when that is safe and `Sender.PendingNonceIsReissued` when not.
- `Send` is documented to reset the nonce manager on any send error; a failed signature does not
  reset it, and burns a nonce (`Sender.GapFreeExactly`).
- Nobody looks at the status between an operator's cancel and what is already under way, so a cancel
  can be lost to the `Enqueue` of the claim's call or to a worker that still holds the claim;
  `Cancels.CancelIsFinalExactly` says when it is final.
- Two calls of one wallet that both pass the cooldown check before either inserts are both served
  (`Cooldown.SpacingExactly`).
- The watcher's list of pending transactions has a limit and no order, so a mined transaction can be
  overlooked forever (`Confirmations.OverlookedForever`).
- `CreateClaim` reads the clock for CreatedAt first and for the budget window later; around midnight
  the budget of the earlier day can be exceeded (`Budgets.DailyWindowExact`).
- The confirmation depth is computed modulo 2^64 (`Payouts.ConfirmationDepthExact`).
- At-most-once holds for sends that report success. A broadcast that the node accepts while
  reporting an error is retried and can pay twice; `Witnesses.AtMostOnceExactly` says for which
  configurations, and `Sender.RetryNonceExactly` when the two broadcasts carry one nonce.

## Model

| member | source | states |
|---|---|---|
| Lifecycle.InvStep | cmd/scavium-faucet/internal/store/sqlite/store.go:1317-1477 | Every step of every actor (service, worker with crashes, watcher, operator) keeps the invariant that pays for each way a claim can still be sent by its creation or an operator retry, although Enqueue, Fail and FailTransaction do not look at the status. |
| Lifecycle.InvRun | cmd/scavium-faucet/internal/worker/worker.go:81-116 | The same invariant holds after every run of steps, of any length and interleaving. |
| Payouts.AtMostOncePayout | cmd/scavium-faucet/internal/worker/worker.go:81-116 | In every interleaving, crashes included, a claim's successful sends are at most one plus the operator retries on it; counting also broadcasts the node accepted while reporting an error, its payments are at most max(1, MaxRetries) plus those retries. |
| Payouts.PaidClaimIsOutOfReach | cmd/scavium-faucet/internal/store/sqlite/store.go:1339-1409 | A claim that was sent and never retried is not queued, not held by the worker, has no call that could still queue it, and was sent exactly once. |
| Payouts.ConfirmedIsFinal | cmd/scavium-faucet/internal/store/sqlite/store.go:1595-1653 | Once confirmed without an operator retry, a claim is confirmed after every continuation of the run, although FailTransaction has no status guard. |
| Payouts.ConfirmedHasOneTransaction | cmd/scavium-faucet/internal/store/sqlite/store.go:1396-1442 | A confirmed, never retried claim has exactly one row in the transactions table. |
| Payouts.ConfirmedIsEarned | cmd/scavium-faucet/internal/chain/watcher.go:102-141 | Every confirmed claim has a step of the run that confirmed it: the watcher looked at a successful receipt of one of its transactions, deep enough under the head block read before, and the rows carry that receipt's block and gas. |
| Payouts.ConfirmationDepthExact | cmd/scavium-faucet/internal/chain/watcher.go:124-129 | The 64-bit depth test means head >= block + MinConfirmations exactly when that sum does not wrap, or wraps past the head. |
| Payouts.BoundedAttempts | cmd/scavium-faucet/internal/store/sqlite/store.go:1447-1477 | Every claim is dequeued at most max(1, MaxRetries) times plus once per operator retry, and re-queued automatically fewer than max(1, MaxRetries) times. |
| Payouts.BackoffHonoured | cmd/scavium-faucet/internal/store/sqlite/store.go:1469-1475 | A claim last queued by its k-th automatic re-queue is not dequeued until 30k seconds after that failure, less under one second of text-order skew, whether or not an operator retried it before: the backoff is linear. |
| Fairness.NoStarvation | cmd/scavium-faucet/internal/store/sqlite/store.go:1339-1391 | With batch size n, a claim is passed over while ready at most (size of S * max(1, MaxRetries) + operator retries in S) / n times, S being the claims whose stored created_at sorts not after its own. |
| Fairness.AheadMeansOlder | cmd/scavium-faucet/internal/store/sqlite/store.go:1352-1359 | S only holds claims created less than one second after the claim itself. |
| Fairness.BatchIsOldestFirst | cmd/scavium-faucet/internal/store/sqlite/store.go:1352-1358 | A batch holds ready claims, each once, within the limit, oldest first up to less than a second, and leaves no older ready claim out. |
| Witnesses.AmbiguousBroadcastPaysTwice | cmd/scavium-faucet/internal/worker/worker.go:93-104 | For every configuration with a positive batch size and MaxRetries above one, a run without any operator in which a broadcast that the node accepted while reporting an error is sent again. |
| Witnesses.AtMostOnceExactly | cmd/scavium-faucet/internal/worker/worker.go:81-116 | Every claim is paid at most once per permission in every run, counting every accepted broadcast, exactly when the batch size is not positive or MaxRetries is at most one. |
| Witnesses.RetryPaysTwice | cmd/scavium-faucet/internal/chain/watcher.go:144-170 | A run that reaches the bound of AtMostOncePayout: crash before Ack, dead-lettered as stuck, one operator retry, second payment. |
| Witnesses.CancelCanBeLost | cmd/scavium-faucet/internal/store/sqlite/store.go:1317-1335 | A run in which an operator's cancel is overwritten by the Enqueue of the call still under way. |
| Witnesses.CancelledClaimIsPaid | cmd/scavium-faucet/internal/store/sqlite/store.go:955-978 | A run in which a claim the worker holds is dead-lettered as stuck, cancelled, and then paid. |
| Cancels.CancelIsFinalExactly | cmd/scavium-faucet/internal/store/sqlite/store.go:955-978 | A cancel is final (the claim stays rejected or failed and is not paid again, in every continuation without an operator retry) exactly when, at that moment, its call can no longer enqueue it (it is over, about to reject it, or waiting for an invitation code that is used up and can no longer be deleted), the worker has not still to send it, and the worker is not failing it below MaxRetries. |
| Cancels.CancelledIsFinalExactly | cmd/scavium-faucet/internal/store/sqlite/store.go:955-978 | The same for a claim already cancelled; while the batch size is positive it is also exactly when the claim can never be paid again. |
| Cancels.QueuedCancelIsFinal | cmd/scavium-faucet/internal/store/sqlite/store.go:955-978 | In every run, cancelling a queued, never retried claim is final. |
| Cancels.OnlyQueuedCancelsAreFinal | cmd/scavium-faucet/internal/store/sqlite/store.go:955-978 | With both loops on, of the statuses in which a never retried claim can be cancelled, the status alone guarantees a final cancel exactly for 'queued'. |
| Cancels.QueuedGetsPaid | cmd/scavium-faucet/internal/store/sqlite/store.go:1339-1391 | While the batch size is positive, every queued claim can be paid in some continuation. |
| Cancels.OperatorExactly | cmd/scavium-faucet/internal/store/sqlite/store.go:931-978 | A retry re-queues exactly from 'failed' and 'rejected', a cancel rejects unless the claim is 'sending', 'sent' or 'confirmed', and otherwise nothing happens. |
| Confirmations.ListedExactly | cmd/scavium-faucet/internal/store/sqlite/store.go:1563-1591 | A pending transaction is on every list the query may return exactly when all pending transactions fit the limit. |
| Confirmations.ConfirmedInOneRound | cmd/scavium-faucet/internal/chain/watcher.go:77-142 | While they fit, one round of the watcher confirms every sent, never retried claim whose transaction is mined deep enough, whatever the service, the worker and the operator do meanwhile. |
| Confirmations.Overlooked | cmd/scavium-faucet/internal/store/sqlite/store.go:1563-1591 | From any state with more pending transactions than the limit and none sending, rounds that never look at a given one lead back to the same state. |
| Confirmations.Crowd | cmd/scavium-faucet/internal/worker/worker.go:81-116 | While the batch size is positive, for every n some run ends with n pending transactions, none sending and the watcher resting. |
| Confirmations.OverlookedForever | cmd/scavium-faucet/internal/store/sqlite/store.go:1563-1591 | So for every n above the limit some run leads to n pending transactions and, for every number of rounds, goes on without ever looking at a given one of them: the list has a limit and no order. |
| Reconciliation.SendingIsDequeued | cmd/scavium-faucet/internal/store/sqlite/store.go:1377-1385 | In every run a claim that is 'sending' was dequeued at the time in its updated_at and not touched since. |
| Reconciliation.DeadLetteredIsOld | cmd/scavium-faucet/internal/chain/watcher.go:146-170 | A claim is dead-lettered as stuck only if it was dequeued at some t, was 'sending' without a break until the watcher listed it, and the list was read later than t + StuckTimeout - 1s. |
| Reconciliation.LongSendingIsListed | cmd/scavium-faucet/internal/store/sqlite/store.go:1657-1683 | While the claims that are 'sending' fit the limit, every list holds every claim that has been 'sending' since a second before the cutoff or longer. |
| Ledger.TransactionsTellTheClaim | cmd/scavium-faucet/internal/store/sqlite/store.go:1396-1442 | In every run no transaction hash is stored twice, and the rows of a never retried claim are sent, confirmed or failed with it. |
| TimeText.TextOrderExact | cmd/scavium-faucet/internal/store/sqlite/store.go:1306-1308 | Two different stored timestamps compare as text in time order exactly when they do not share a whole second with one printed fraction a prefix of the other; different instants never print alike. |
| TimeText.TextSkewUnderOneSecond | cmd/scavium-faucet/internal/store/sqlite/store.go:1306-1308 | formatTime(a) <= formatTime(b) as text implies a < b + 1s. |
| TimeText.TextOrderOfSpaced | cmd/scavium-faucet/internal/store/sqlite/store.go:1306-1308 | Instants a second or more apart compare correctly. |
| TimeText.BudgetBoundExact | cmd/scavium-faucet/internal/store/sqlite/store.go:1221-1223 | Against a whole-second bound printed by formatBudgetBound, text comparison is exact in both directions. |
| TimeText.TextWindowIsDay | cmd/scavium-faucet/internal/faucet/persistent_service.go:680-684 | The text window test of utcDayWindow selects exactly the instants of that UTC day. |
| TimeText.TextOrderIsNotTimeOrder | cmd/scavium-faucet/internal/store/sqlite/store.go:1306-1308 | Half past a second sorts before that second. |
| TimeText.DateOf | cmd/scavium-faucet/internal/store/sqlite/store.go:1306-1308 | The calendar date printed for a day is the one that holds it, in the proleptic Gregorian calendar. |
| TimeReading.FormatTimeReadsBack | cmd/scavium-faucet/internal/store/sqlite/store.go:1306-1312 | Every stored timestamp before year 10000 is an RFC 3339 date-time in UTC and reads back as the instant it was written for. |
| TimeReading.BudgetBoundReadsBack | cmd/scavium-faucet/internal/store/sqlite/store.go:1221-1223 | So do the budget bounds, always with nine fraction digits. |
| TimeReading.DayIsDate | cmd/scavium-faucet/internal/faucet/persistent_service.go:680-684 | The UTC day of an instant is the day whose date its timestamp shows. |
| Budgets.SqlTotalIsChronological | cmd/scavium-faucet/internal/store/sqlite/store.go:1174-1219 | The SQL sum over the text window equals the sum over the UTC day that the in-memory form computes. |
| Budgets.InMemoryBudgetStatus | cmd/scavium-faucet/internal/faucet/service.go:473-496 | The in-memory loop computes the day total and what is left of the budget, never below zero. |
| Budgets.DailyBudgetConserved | cmd/scavium-faucet/internal/store/sqlite/store.go:486-598 | After every run in which each CreatedAt lies in the day its budget check used, the amounts of a token and day that are not failed, rejected or paused are at most the configured budget plus what was moved back from those statuses. |
| Budgets.DailyWindowExact | cmd/scavium-faucet/internal/faucet/persistent_service.go:576-592 | The budget check keeps a claim's own day within budget, for every table, exactly when CreatedAt and the later clock reading for the window fall on one day. |
| Budgets.MidnightBreaksBudget | cmd/scavium-faucet/internal/faucet/persistent_service.go:576-592 | A run from the empty system: one call takes the whole budget of a day, another created on that day reads the clock for its window on a different day, and the day exceeds its budget with nothing moved back into counting. |
| Budgets.CampaignBudgetConserved | cmd/scavium-faucet/internal/store/sqlite/store.go:2065-2093 | After every run the amounts of a campaign that are not failed, rejected or paused are at most its configured budget plus what was moved back from those statuses. |
| Budgets.CountsExactly | cmd/scavium-faucet/internal/faucet/persistent_service.go:686-695 | Budgets count every claim except failed, rejected and paused ones. |
| Budgets.PipelineKeepsTotals | cmd/scavium-faucet/internal/store/sqlite/store.go:1317-1475 | Enqueue, Ack, Confirm and the re-queue of Fail leave every token total, over every window, and every campaign total as it was, from any status a live claim can have. |
| Budgets.DequeueKeepsTotals | cmd/scavium-faucet/internal/store/sqlite/store.go:1377-1385 | So does a dequeued batch. |
| Budgets.WritingOffLowersTotals | cmd/scavium-faucet/internal/store/sqlite/store.go:1630-1653 | Dead-lettering, FailTransaction, Reject and Cancel of a live claim lower exactly the totals that cover it, by exactly its amount. |
| Budgets.RetryRaisesTotals | cmd/scavium-faucet/internal/store/sqlite/store.go:931-951 | An operator retry raises them again by that amount. |
| Budgets.CreateExactly | cmd/scavium-faucet/internal/store/sqlite/store.go:486-598 | The admission transaction inserts exactly when the key is new and both budgets, counted over what is not failed, rejected or paused, have room for the amount; a known key returns its row. |
| Intakes.OneClaimPerKey | cmd/scavium-faucet/internal/store/sqlite/store.go:413-467 | In every reachable state all calls that returned a claim for one non-empty key returned the same claim, the only row with that key. |
| Intakes.ReplayChangesNothing | cmd/scavium-faucet/internal/store/sqlite/store.go:503-520 | In every run, a call that did not insert a claim left no trace: tables, histories and loops are as if none of its steps had been taken, so a replay moves no budget total and uses no invitation. |
| Intakes.KeyTakenIsNeverInserted | cmd/scavium-faucet/internal/store/sqlite/store.go:413-467 | Once a row carries a call's key, that call never inserts a row, whatever happens next. |
| Intakes.InvitationLimit | cmd/scavium-faucet/internal/faucet/persistent_service.go:529-556 | For every interleaving, the claims with a code that reach Enqueue never outnumber the uses consumed, and a live code with a limit is never used beyond it, although it is checked earlier than consumed. |
| Intakes.CodeServesItsLimit | cmd/scavium-faucet/internal/store/sqlite/store.go:2005-2015 | An enabled code serves exactly as many attempts as its limit leaves, all of them without a limit, and a disabled one none. |
| Admissions.CampaignCheckExactly | cmd/scavium-faucet/internal/faucet/persistent_service.go:986-1054 | Exactly when a call passes the campaign check, in terms of the configured campaign, the clock and what its reads returned, and which campaign and code it then carries. |
| Admissions.RowsAreRequested | cmd/scavium-faucet/internal/faucet/persistent_service.go:511-541 | In every run each stored claim carries the address, token, amount and key of the request of the one call that inserted it, and the clock reading of that insert. |
| Admissions.CampaignClaimsAreAdmitted | cmd/scavium-faucet/internal/faucet/persistent_service.go:986-1054 | In every run a claim of a campaign was let through by it: configured, enabled, for its token, open when its call was checked; invite claims carry the code of their request, allowlist claims an address on the list. |
| Admissions.InviteCampaignUsesCodes | cmd/scavium-faucet/internal/faucet/persistent_service.go:1016-1023 | The claims of an invite campaign that reach the queue never outnumber the uses recorded on the codes they carry. |
| StoreClass.Store.DequeueBatch | cmd/scavium-faucet/internal/store/sqlite/store.go:1339-1391 | Marking the selected rows one by one takes the tables to the state after one atomic dequeue of the batch; nothing happens for n <= 0. |
| StoreClass.Store.Enqueue | cmd/scavium-faucet/internal/store/sqlite/store.go:1317-1335 | Sets 'queued' whatever the status was; reports a missing claim. |
| StoreClass.Store.UpdateClaimStatus | cmd/scavium-faucet/internal/store/sqlite/store.go:726-746 | Sets any status, unguarded. |
| StoreClass.Store.Ack | cmd/scavium-faucet/internal/store/sqlite/store.go:1396-1442 | Succeeds exactly from 'sending' with an unused hash; then the claim is 'sent' and has a transaction row unless the hash is zero. |
| StoreClass.Store.Fail | cmd/scavium-faucet/internal/store/sqlite/store.go:1447-1477 | Read, then write without looking at the status again: dead-letter when the count after this failure reaches MaxRetries, else re-queue 30 s times that count later; no effect when either statement errs. |
| StoreClass.Store.ConfirmTransaction | cmd/scavium-faucet/internal/store/sqlite/store.go:1595-1627 | Confirms exactly from 'sent', with all the claim's transaction rows. |
| StoreClass.Store.FailTransaction | cmd/scavium-faucet/internal/store/sqlite/store.go:1630-1653 | Fails the claim and its transaction rows from any status. |
| StoreClass.Store.AdminRetryClaim | cmd/scavium-faucet/internal/store/sqlite/store.go:931-951 | Re-queues exactly from 'failed' or 'rejected'. |
| StoreClass.Store.AdminCancelClaim | cmd/scavium-faucet/internal/store/sqlite/store.go:955-978 | Rejects exactly unless 'sent', 'confirmed' or 'sending'. |
| StoreClass.Store.ConsumeInvitationCode | cmd/scavium-faucet/internal/store/sqlite/store.go:2005-2015 | Consumes a use exactly when the code is enabled and below its limit. |
| StoreClass.Store.ClaimAmountWeiForToken | cmd/scavium-faucet/internal/store/sqlite/store.go:1174-1219 | The row loop computes the sum over the text window, token and counted statuses. |
| StoreClass.Store.ClaimAmountWeiForCampaign | cmd/scavium-faucet/internal/store/sqlite/store.go:2065-2093 | The row loop computes the campaign's counted sum. |
| StoreClass.Store.CreateClaimWithIdempotencyAndBudgets | cmd/scavium-faucet/internal/store/sqlite/store.go:486-598 | Lookup, both budget checks and insert as one transaction: replay, refusal or a new row, and otherwise unchanged tables. |
| Loops.WorkerLoop.ProcessClaim | cmd/scavium-faucet/internal/worker/worker.go:93-114 | Send, then Ack or Fail, leaves the tables as the worker's steps of the claim system do. |
| Loops.WorkerLoop.ProcessBatch | cmd/scavium-faucet/internal/worker/worker.go:81-116 | The whole batch loop, for every batch size, leaves the tables as one dequeue step followed by one attempt per claim, in order, and ends idle in a state that keeps the payout invariant. |
| Loops.WatcherLoop.CheckOne | cmd/scavium-faucet/internal/chain/watcher.go:102-141 | One receipt leaves the tables as its step of the claim system does. |
| Loops.WatcherLoop.WatchReceipts | cmd/scavium-faucet/internal/chain/watcher.go:77-142 | The receipt loop is exactly one receipt step per pending transaction. |
| Loops.WatcherLoop.ReconcileStuck | cmd/scavium-faucet/internal/chain/watcher.go:146-170 | The stuck loop is exactly one dead-lettering step per stuck claim. |
| Loops.Service.Open | cmd/scavium-faucet/internal/faucet/persistent_service.go:445-528 | CreateClaim up to the insert is exactly the lookup, campaign check and admit steps, and reports what the claim system records. |
| Loops.Service.Finish | cmd/scavium-faucet/internal/faucet/persistent_service.go:541-556 | After the insert CreateClaim is exactly the consume, enqueue and reject steps, and succeeds exactly when the claim was enqueued. |
| Loops.Service.CreateClaim | cmd/scavium-faucet/internal/faucet/persistent_service.go:445-563 | Run on its own, CreateClaim leaves the tables as six steps of the claim system do, and answers with a claim exactly when the call is a replay, or its claim was enqueued and could be read back. |
| Cooldown.SpacingExactly | cmd/scavium-faucet/internal/faucet/persistent_service.go:488-529 | A schedule of checks and inserts keeps claims of one address and token at least the cooldown apart, for every clock that does not run back, exactly when no two calls of one wallet overlap between check and insert. |
| Cooldown.CooldownSpacing | cmd/scavium-faucet/internal/faucet/persistent_service.go:488-529 | So in every serial run two stored claims of one address and token are at least the cooldown apart. |
| Cooldown.LastByTextIsLatest | cmd/scavium-faucet/internal/store/sqlite/store.go:1129-1143 | On such a table the row with the greatest created_at text is the latest claim. |
| Cooldown.InMemoryCooldown | cmd/scavium-faucet/internal/faucet/service.go:498-525 | The in-memory loop finds a latest claim of the address and token, if any, and reports the whole seconds left, rounded up. |
| Cooldown.SqlCooldownIsInMemoryCooldown | cmd/scavium-faucet/internal/faucet/persistent_service.go:697-726 | In every run without overlapping calls of one wallet the SQL cooldown and the in-memory one are the same number. |
| Cooldown.RemainingZero | cmd/scavium-faucet/internal/faucet/persistent_service.go:711-716 | No time is left exactly when the last claim plus the cooldown is not after now. |
| Cooldown.RemainingLeast | cmd/scavium-faucet/internal/faucet/persistent_service.go:711-716 | What is reported is the least number of whole seconds after which the cooldown is over. |
| Cooldown.OverlapBreaksSpacing | cmd/scavium-faucet/internal/faucet/persistent_service.go:488-529 | For every schedule with an overlap, a run in which both calls check before either inserts and their claims are stored at one moment. |
| Cooldown.ConcurrentCallsBreakSpacing | cmd/scavium-faucet/internal/faucet/persistent_service.go:488-529 | The shortest such schedule, for any two calls of one wallet. |
| RateLimit.RateLimiter.Allow | cmd/scavium-faucet/internal/store/sqlite/store.go:1484-1555 | The counter of each key and aligned window is the number of calls in it; the decision, the remaining count and the wait follow from that count. |
| RateLimit.ExactlyTheLimit | cmd/scavium-faucet/internal/store/sqlite/store.go:1484-1555 | Each key gets exactly min(calls, limit) allowed calls in each aligned window. |
| RateLimit.AtMostTwiceTheLimit | cmd/scavium-faucet/internal/store/sqlite/store.go:1484-1555 | No interval of window length sees more than twice the limit. |
| RateLimit.RetryAfterIsHonest | cmd/scavium-faucet/internal/faucet/persistent_service.go:879-895 | A refusal reports 0 < RetryAfter <= window, and waiting the reported whole seconds always lands in a later window. |
| Sender.NonceManager.Next | cmd/scavium-faucet/internal/chain/nonce.go:32-48 | A seeded manager issues its counter, an unseeded one what the node answers; an error leaves it unseeded. |
| Sender.EthSender.Send | cmd/scavium-faucet/internal/chain/sender.go:56-143 | Hands a transaction to the node exactly when price, balance and nonce are had, an ERC-20 token is named, the balance covers gas (and a native amount) and signing works. An ERC-20 wire goes to the token contract with no value and call data that decodes to a transfer of the amount to the claimant; any other goes to the claimant with the amount. Extends the chained log of nonces by one entry, at the floored gas price, and resets only on a refused broadcast. |
| Sender.Prepare | cmd/scavium-faucet/internal/chain/sender.go:66-96 | The transaction of a payment but for its nonce, and the native coin it takes. |
| Sender.EveryRunIsChained | cmd/scavium-faucet/internal/chain/sender.go:104-126 | Every run of Send calls fetches exactly at the first issue and after each refused broadcast, and otherwise counts up by one. |
| Sender.OneFetchManyNonces | cmd/scavium-faucet/internal/chain/nonce.go:32-48 | The issues of one fetch are seed, seed + 1, ... modulo 2^64, and only the last can have been refused. |
| Sender.GapFreeExactly | cmd/scavium-faucet/internal/chain/sender.go:118-126 | Within one fetch the broadcast nonces are a gap-free interval from the seed exactly when no failed signature precedes a broadcast. |
| Sender.EpochIsNumbered | cmd/scavium-faucet/internal/chain/nonce.go:32-48 | The issues between two fetches satisfy the numbering GapFreeExactly asks for. |
| Sender.AcceptedNoncesGrow | cmd/scavium-faucet/internal/chain/nonce.go:50-57 | When each fetch answers above every accepted nonce, accepted nonces only grow over the whole run, so none is accepted twice. |
| Sender.AcceptedCallsResume | cmd/scavium-faucet/internal/chain/nonce.go:32-48 | Accepted calls after a fetch extend the sender's log by seed, seed + 1, ... modulo 2^64. |
| Sender.ReseedExact | cmd/scavium-faucet/internal/chain/nonce.go:36-43 | After any calls, a fetch is safe for every later run of accepted calls that does not wrap past 2^64 exactly when its answer is above all nonces accepted before. |
| Sender.PendingNonceIsReissued | cmd/scavium-faucet/internal/chain/nonce.go:36-43 | Every run that pays with a fetched nonce, has its next broadcast refused and is told the same nonce again, as NonceAt does while the payment is not mined, broadcasts it twice. |
| Sender.RetryNonceExactly | cmd/scavium-faucet/internal/chain/sender.go:104-126 | After a broadcast with nonce v that reported an error, the n-th later accepted call carries v again, so that only one of the two can be mined, exactly when the fetched answer plus n is v. |
| Sender.GuardCoversCostExactly | cmd/scavium-faucet/internal/chain/sender.go:85-102 | The balance guard covers the transaction's full cost for every balance exactly when the token type is a known one or no value moves. |
| Erc20.TransferData | cmd/scavium-faucet/internal/chain/sender.go:145-159 | The 68-byte buffer filled by copies is the ABI layout: selector, address word, amount word. |
| Erc20.CallDataRoundTrip | cmd/scavium-faucet/internal/chain/sender.go:145-159 | Decoding gives the selector, the address and the amount modulo 2^256, the amount itself exactly when it is below 2^256. |
| Erc20.OnlyCallDataDecodes | cmd/scavium-faucet/internal/chain/sender.go:145-159 | Any bytes that decode to a transfer are the call data of that address and amount. |
| Erc20.BalanceRoundTrip | cmd/scavium-faucet/internal/chain/chain.go:188-204 | An answer ending in the word of a balance is read as that balance modulo 2^256, and so is the amount word of call data. |
| Erc20.WordValue | cmd/scavium-faucet/internal/chain/sender.go:145-159 | A w-byte word has the value of its number modulo 256^w. |
| Breaker.CircuitBreaker.Record | cmd/scavium-faucet/internal/abuse/abuse.go:137-158 | After in-place eviction the events are those of the full history inside the window, and the breaker is open exactly when some record since the last clear tripped. |
| Breaker.CircuitBreaker.IsOpen | cmd/scavium-faucet/internal/abuse/abuse.go:161-174 | True exactly when some record since the last clear tripped and now is not after the last trip plus the window; otherwise a tripped breaker is cleared. |
| Breaker.CircuitBreaker.Reset | cmd/scavium-faucet/internal/abuse/abuse.go:177-182 | Clears the history. |
| Breaker.CircuitBreaker.Evict | cmd/scavium-faucet/internal/abuse/abuse.go:144-150 | The in-place loop keeps exactly the events after the cutoff, in order. |
| Breaker.LiveStep | cmd/scavium-faucet/internal/abuse/abuse.go:141-151 | On a clock that does not run back, filtering the kept events equals filtering the whole history. |
| Breaker.TripsExactly | cmd/scavium-faucet/internal/abuse/abuse.go:153-157 | A record trips exactly when the record threshold - 1 places before it exists and is less than a window old. |
| Enforcer.Evaluate | cmd/scavium-faucet/internal/abuse/enforcer.go:38-85 | Rejects exactly on the honeypot, on a scope count at its threshold, or on enough heuristic points; the first failing scope gives reason and score. |
| Enforcer.ScopeScore | cmd/scavium-faucet/internal/abuse/enforcer.go:87-99 | Positive exactly when a positive threshold is reached, and then the count. |
| Enforcer.AdvancedScore | cmd/scavium-faucet/internal/abuse/enforcer.go:101-151 | Two points per heuristic that fires, and the reason of the last one. |
| Enforcer.IpCountExact | cmd/scavium-faucet/internal/abuse/enforcer.go:46-56 | The IP count is the number of signals of the five negative kinds of that IP in the enforcement window, up to the second at its edge. |
| Enforcer.AddressCountExact | cmd/scavium-faucet/internal/abuse/enforcer.go:57-62 | Likewise for the address and nothing else. |
| Enforcer.FingerprintCountExact | cmd/scavium-faucet/internal/abuse/enforcer.go:63-68 | Likewise for the fingerprint. |
| Enforcer.NoAbuseNoScope | cmd/scavium-faucet/internal/abuse/enforcer.go:46-68 | Without a signal of the five negative kinds that carries one of the request's keys no scope is exceeded. |
| Enforcer.EnoughAbuseExceeds | cmd/scavium-faucet/internal/abuse/enforcer.go:87-99 | Enough of them with one key, well inside the window, exceed that key's scope, whatever else the table holds. |
| Enforcer.NoKeyNoCount | cmd/scavium-faucet/internal/store/sqlite/store.go:289-304 | A blank IP, the zero address and a blank fingerprint count nothing. |
| Enforcer.BurstCountExact | cmd/scavium-faucet/internal/abuse/enforcer.go:105-119 | The burst heuristic counts every signal of the IP in the burst window. |
| Enforcer.RotationExact | cmd/scavium-faucet/internal/abuse/enforcer.go:124-133 | The rotation heuristic counts the different IPs of a fingerprint in the enforcement window. |
| Enforcer.ClusterExact | cmd/scavium-faucet/internal/abuse/enforcer.go:134-149 | The cluster heuristic counts the different addresses of a fingerprint, or of an IP without one. |
| Enforcer.RejectsExactly | cmd/scavium-faucet/internal/abuse/enforcer.go:38-85 | When a request is turned away, in terms of those counts and the configured thresholds. |
| Enforcer.MoreSignalsNeverHelp | cmd/scavium-faucet/internal/store/sqlite/store.go:233-305 | Recording any further signals never turns a rejection into an allow. |
| Enforcer.PruningKeepsDecisions | cmd/scavium-faucet/internal/abuse/operations.go:13-22 | With a retention longer than both windows, pruning changes no later decision, no heuristic score and no scope count, whatever is recorded in between. |
| Enforcer.PruningSafeExactly | cmd/scavium-faucet/internal/abuse/operations.go:13-22 | With the IP check on and the burst window the shorter one, pruning changes no later decision for any table exactly when the retention is longer than the enforcement window. |
| Enforcer.SparesExactly | cmd/scavium-faucet/internal/store/sqlite/store.go:359-372 | Pruning spares every later window, whenever it happens, exactly when the retention in days is longer than the window in seconds; equal lengths are not enough. |
| Metrics.Normalize | cmd/scavium-faucet/internal/observability/metrics.go:423-443 | Every token id becomes a non-empty printable label of at most 64 characters: its printable characters after trimming, cut at 64, or 'default'. |
| Metrics.RuntimeMetrics.TokenMetrics | cmd/scavium-faucet/internal/observability/metrics.go:364-387 | Finds or creates the bucket of a label, falling back to 'other' at 64 buckets; other buckets are untouched. |
| Metrics.RuntimeMetrics.IncClaimAcceptedForToken | cmd/scavium-faucet/internal/observability/metrics.go:190-196 | Counts the call in the aggregate and in exactly one bucket. |
| Metrics.RuntimeMetrics.IncClaimRejectedForToken | cmd/scavium-faucet/internal/observability/metrics.go:205-233 | Counts the call in the aggregate, in exactly one class and in exactly one bucket. |
| Metrics.RuntimeMetrics.Classify | cmd/scavium-faucet/internal/observability/metrics.go:212-232 | Moves exactly the class counter of the code, and the bucket column that belongs to it. |
| Metrics.BumpExact | cmd/scavium-faucet/internal/observability/metrics.go:211-226 | A bucket moves up in exactly the columns its call belongs to. |
| Metrics.ColumnsConserved | cmd/scavium-faucet/internal/observability/metrics.go:190-233 | After any calls per-token columns sum to their aggregates modulo 2^64, exactly so below 2^64 calls; at most 64 buckets, or 65 with 'other'. |
| Metrics.ClassesConserved | cmd/scavium-faucet/internal/observability/metrics.go:205-233 | The eight rejection classes sum to the rejections in the same sense. |
| Metrics.CountersExact | cmd/scavium-faucet/internal/observability/metrics.go:212-232 | Each class counter is the number of rejections with its own code, modulo 2^64. |
| Metrics.LabelExact | cmd/scavium-faucet/internal/observability/metrics.go:423-443 | A clean label is kept, only an id without a printable character becomes 'default', and the rest is cut at 64. |
| Metrics.LabelOfCodes | cmd/scavium-faucet/internal/observability/metrics.go:412-421 | Invalid tokens are counted together, unavailability under 'default', everything else under its token. |
| Policy.PolicyRoundTrip | cmd/scavium-faucet/internal/store/sqlite/store.go:1695-1790 | Reading what a policy was written as gives its normal form (ints, non-nil budgets, trimmed ids), in whatever order the rows come. |
| Policy.RewriteChangesNothing | cmd/scavium-faucet/internal/store/sqlite/store.go:1695-1790 | Writing back what was read changes nothing that can be read, whatever the table held, malformed rows included. |
| Policy.ObservedIsNormal | cmd/scavium-faucet/internal/store/sqlite/store.go:1695-1735 | Whatever a table holds, what is read can be written and is its own normal form. |
| Policy.NormalFormUnique | cmd/scavium-faucet/internal/store/sqlite/store.go:1740-1790 | A policy has one normal form. |
| Policy.ObservedByKey | cmd/scavium-faucet/internal/store/sqlite/store.go:1702-1727 | Reading row by row is looking each override up on its own. |
| Policy.ParseDecimal | cmd/scavium-faucet/internal/store/sqlite/store.go:1819-1837 | Printing and parsing a non-negative integer gives it back. |
| Policy.ParseExactly | cmd/scavium-faucet/internal/store/sqlite/store.go:1819-1837 | What parses is an optional sign and at least one digit, with the value it denotes; nothing else parses. |
| Policy.OverridesExactly | cmd/scavium-faucet/internal/store/sqlite/store.go:1819-1837 | An int override must be positive and fit an int64, a budget must not be negative. |
| Policy.KeyRoundTrip | cmd/scavium-faucet/internal/store/sqlite/store.go:1685-1691 | Written keys are read back as the same override. |
| PolicyAdmin.PolicyStore.GetRuntimePolicy | cmd/scavium-faucet/internal/store/sqlite/store.go:1695-1735 | The row loop computes the observed policy. |
| PolicyAdmin.PolicyStore.SetRuntimePolicy | cmd/scavium-faucet/internal/store/sqlite/store.go:1740-1790 | Succeeds exactly for valid policies whose budgeted ids stay distinct when trimmed, and then the table holds exactly that policy's rows; otherwise unchanged. |
| PolicyAdmin.PolicyFromRequest | cmd/scavium-faucet/internal/admin/admin.go:959-986 | Accepts exactly well-formed requests and asks for what they say under trimmed ids. |
| PolicyAdmin.AskedIsNormal | cmd/scavium-faucet/internal/admin/admin.go:959-986 | A request's policy is valid, clash-free and its own normal form. |
| PolicyAdmin.PolicyService.SetRuntimePolicy | cmd/scavium-faucet/internal/admin/admin.go:916-938 | On success the table reads as the request asks and the edit is audited; a failed audit write leaves the observable policy unchanged when the rollback write succeeds. |
| PolicyAdmin.PolicyService.ClearRuntimePolicy | cmd/scavium-faucet/internal/admin/admin.go:940-957 | The same for clearing. |
| CampaignAdmin.UndoInverts | cmd/scavium-faucet/internal/store/sqlite/store.go:1965-2063 | Each rollback statement takes back exactly what its statement did. |
| CampaignAdmin.CampaignRequestExact | cmd/scavium-faucet/internal/admin/admin.go:1380-1415 | Exactly which campaign requests are taken, and every field of what is stored for them. |
| CampaignAdmin.CampaignService.CreateCampaign | cmd/scavium-faucet/internal/admin/admin.go:1161-1189 | Campaign and audit entry both or neither, unless audit and rollback writes both fail. |
| CampaignAdmin.CampaignService.UpdateCampaign | cmd/scavium-faucet/internal/admin/admin.go:1191-1235 | Both or neither for an update; the creation time is kept. |
| CampaignAdmin.CampaignService.DisableCampaign | cmd/scavium-faucet/internal/admin/admin.go:1245-1289 | Both or neither for disabling. |
| CampaignAdmin.CampaignService.CreateInvitationCode | cmd/scavium-faucet/internal/admin/admin.go:1291-1326 | Both or neither for an invitation code. |
| CampaignAdmin.CampaignService.AddAllowlistEntry | cmd/scavium-faucet/internal/admin/admin.go:1328-1363 | Both or neither for an allowlist entry; a failed attempt never removes an entry that was there before. |

## Left out

- The SQL engine, migrations, connections and row scanning: tables are sequences and maps, each
  statement or transaction is atomic, and one that reports an error has no effect.
- A unique idempotency-key column is taken as given, as the store relies on it.
- HTTP handlers, middleware, logging, wallet challenges, captcha, the blocklist and mode flags: they
  can only refuse a call, which the transition system allows at any point before the insert.
- Random ids: a claim's id is its row position, so ids are fresh.
- Cryptography and JSON-RPC: outcomes, errors included, are arbitrary inputs.
- Configuration parsing; budgets, campaigns and allowlists are fixed during a run of the transition
  system, and the strings of a request are already trimmed there.
- Dates from year 10000 on, where timestamps no longer have a fixed width: the text-order results
  stop there.
- The moments of enforceCampaign's reads: the step of the transition system that stands for it may
  carry any answers, so it allows more than the code does and every result covers every interleaving.
- Database errors while counting abuse signals, which return an error instead of a decision.
- Floating-point rounding of `Duration.Seconds()`: seconds are computed exactly.
- Interference during the operator's policy and campaign edits: those are modelled one at a time,
  except that in the transition system a new invitation code can be used before its creating request
  is over, and only that request can delete it.
- The read-only listing, snapshot and status operations, and the network generator and command-line
  tools of the repository: they would only add easy members.
- RateLimit.RateLimiter.Allow: asks for a window of at least one second, because the code divides by its whole seconds.
- Admissions.CampaignClaimsAreAdmitted: asks that no configured campaign has an empty id, which the store never creates.
- Enforcer.Evaluate: asks for a clock that reads later than the configured windows are long.
- Loops.Service.Open: runs without interference and takes captcha, risk, cooldown and rate limits as one outcome; interleaved calls are covered by the transition system, cooldown and rate limits by their own modules.
- Loops.Service.CreateClaim: the same, because a method cannot be interrupted between two statements.
