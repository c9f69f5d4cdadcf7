# Verified models of the backend's stateful core

Dafny models of six parts of the backend, each with theorems over all inputs or all runs. `dafny verify dfyconfig.toml`
checks the whole project.

- **Keyset pagination** (`Documents`, `CursorPagination`, `Pagination`, `KeysetSeek`, `KeysetChain`, `KeysetTraversal`,
  `KeysetPages`, `KeysetRoundTrip`): the query engine behind the injected `executor` selects, sorts, skips and takes; the
  cursor and offset entry points are methods proved against functions, and traversals are followed page by page, on a
  collection that changes arbitrarily between requests and on one that does not change.
- **Job queue** (`Backoff`, `JobQueue`, `JobQueueSafety`, `JobQueueFairness`, `JobQueueRecovery`, `InlineDriver`,
  `JobWorker`): a transition system with enqueue, claim, success, failure, lost outcome, crash, start, stop and clock steps;
  `JobWorker` is the module state and its functions as a class whose methods are those steps.
- **On-chain verification job** (`PaymentJob`, `PaymentSafety`, `PaymentProgress`, `PaymentCompletion`, `PaymentLiveness`,
  `PaymentReaping`, `PaymentVerdicts`, `PaymentEffects`): the handler as separate database and service calls on that queue,
  with transaction rows, the sale ledger and the TTL reaper beside it.
- **Idempotency keys** (`Idempotency`, `IdempotencySafety`, `IdempotencyExclusion`, `ResponseGate`, `ResponseReplay`): every
  request is a small program over the shared records; its steps interleave with all others, with writes that land late or
  never, with client closes and with TTL deletions. `ResponseGate` is the patched response object as a class.
- **Educator balances** (`Ledger`, `Payouts`, `PayoutOrder`, `PayoutRaces`, `Stroops`): the repository's guarded moves and
  reconciliation loop, the payout service whose recordings and batches overlap, and the decimal printer.
- **Sessions and lockout** (`Sessions`, `SessionFamilies`, `SessionStore`, `Lockout`): refresh-token families under both
  implementations of rotation, and the progressive login lockout.

State the source updates in place is a class or an array (`JobWorker.Worker`, `ResponseGate.Response`, `SessionStore.Store`,
`Lockout.UserRow`, `Ledger.BalanceStore`, `Payouts.Service`, `CursorPagination.ReverseInPlace`); every method is tied
to a function of the old state, and the theorems are about those functions. No lemma uses automatic induction;
`{:induction false}` marks those it would otherwise apply to.

Assumptions, all stated in the definitions: one worker process calls `startJobs` only while no handler is in flight
(`JobQueue.OneWorker`); login, refresh, revoke and logout requests are atomic, except in the lemmas about overlapped
refreshes; random tokens, family ids and jitter are parameters; payment verification is an oracle; SHA-256 stands for the
text it digests; a cursor either decodes to the payload it was made from or does not decode; saving a
balance writes only the field the call changed, a second row for an educator is refused, and a batch is settled in one
transaction; MongoDB's range operators match only values of the operand's own type, and null sorts before numbers.

Where the code and its documentation disagree, the model follows the code:

- The pagination helper promises the answers of skip/limit. It gives them unless the sort field mixes missing values with
  numbers; `KeysetPages.CompleteExactlyWhen` and `KeysetRoundTrip.BackUndoesForwardExactlyWhen` say exactly when it does.
- The balance repository promises atomic mutations without lost updates and a balance that reconciles with the entries. The
  payout service updates the same rows by reading and saving, and pays what a batch planned earlier
  (`PayoutRaces.OverlappedSalesLoseOne`, `PayoutRaces.TwoBatchesOverdraw`); `Payouts.ReconcilesExactlyWhen` says exactly
  when the books reconcile, and `PayoutOrder.OrderlyBooksReconcileExactlyWhen` which runs keep them sound.
- The user model says a successful login resets the failure counter. The password step of a two-factor account returns
  before the reset, and nothing resets it later (`Lockout.TwoFactorNeverResets`).
- The session repository's `detectTokenReuse` is described as detecting token theft and its `rotateToken` as the rotation;
  they differ from the controller's on revoked-but-not-replaced and on expired sessions
  (`SessionFamilies.ReuseChecksDifferExactlyWhen`, `SessionFamilies.RotationsAgreeExactlyWhen`).
- The model of idempotency keys is said to be a concurrency lock. It is one until the TTL, or the close of a response neither
  captured nor ended, frees the slot of a running request (`IdempotencyExclusion.CloseLetsSecondHandlerIn`), and
  a response ended without `json` or `send` never releases it (`IdempotencyExclusion.UncapturedEndBlocksSlot`).

## Model

| member | source | states |
|---|---|---|
| CursorPagination.ReverseInPlace | mongo/utils/cursorPagination.js:277 | reversing the fetched array in place leaves exactly its reversal |
| CursorPagination.TakePage | mongo/utils/cursorPagination.js:273-277 | the page is the first `size` fetched rows, turned round when the page was fetched backwards |
| CursorPagination.Paginate | mongo/utils/cursorPagination.js:236-294 | for every executor, filter, order, limit and cursor pair, including both error orders and an undecodable cursor, the page and its four page-info fields |
| Pagination.ClampLimit | mongo/utils/pagination.js:75-84 | any raw limit becomes one between 1 and 100 |
| Pagination.ResolveLimit | mongo/utils/pagination.js:75-84 | the step-by-step clamp computes that limit |
| Pagination.PaginateOffset | mongo/utils/pagination.js:181-259 | the offset page with an explicit tiebroken sort: rows, total, page count and both flags, with and without a count |
| Pagination.PaginateCursor | mongo/utils/pagination.js:280-350 | the cursor response: errors passed on, `cursor` as an alias of `after`, a continuation cursor exactly when its flag is set |
| Pagination.AfterWins | mongo/utils/pagination.js:298 | a token handed over as `cursor` is answered as one handed over as `after`, and is ignored beside one |
| Pagination.CursorPageFailsExactlyWhen | mongo/utils/pagination.js:298-322 | a request fails if and only if it goes both ways or the cursor it goes by does not decode, and with which error |
| Pagination.CursorPageMeans | mongo/utils/pagination.js:332-350 | for any query engine: edge and continuation cursors are those of the first and last row shown, limit and total, no page numbers |
| Pagination.OffsetPageMeans | mongo/utils/pagination.js:181-259 | for any query engine: the rows from the skip on, page, total, and both flags with and without a total |
| Pagination.RowsSkipped | mongo/utils/pagination.js:195-203 | an explicit offset wins over the page, and a missing or bad page is the first |
| Pagination.TotalIs | mongo/utils/pagination.js:219-236 | a caller's total wins over the count query, and without either there is none |
| Pagination.LimitIs | mongo/utils/pagination.js:75-84 | which limit each raw number becomes: twenty, a hundred or itself |
| Pagination.PageFailsExactlyWhen | mongo/utils/cursorPagination.js:236-256 | the cursor helper's three errors, each exactly when |
| Documents.SortRowsSorts | mongo/utils/cursorPagination.js:216-217 | the executor's sort lists exactly the given rows in strictly increasing key order |
| Documents.StrictIsUnique | mongo/utils/cursorPagination.js:26-29 | with the `_id` tiebreaker there is only one sorted listing of a set of rows |
| KeysetSeek.SeekMeaning | mongo/utils/cursorPagination.js:161-187 | for all four order and direction combinations the seek filter matches exactly the rows strictly after the cursor in the page's own order that have a sort value of the cursor's kind |
| KeysetSeek.SeekForward | mongo/utils/cursorPagination.js:258-270 | seeking from the k-th listed row returns the listing after it, up to where the kind of sort value changes |
| KeysetSeek.FlippedListing | mongo/utils/cursorPagination.js:189-207 | the reversed sort lists the same rows backwards |
| KeysetSeek.BackwardIsFlippedForward | mongo/utils/cursorPagination.js:170-206 | a backward query is the forward query of the opposite order |
| KeysetTraversal.StrictlyForward | mongo/utils/cursorPagination.js:16-20 | following `nextCursor`, handed over as `after` or as `cursor` at every request anew, while rows are inserted and deleted arbitrarily, the rows returned are in strictly increasing key order |
| KeysetTraversal.NoRowTwice | mongo/utils/cursorPagination.js:16-20 | under the same arbitrary writes no document is returned twice, provided sort values do not change |
| KeysetTraversal.ReturnedExactlyWhen | mongo/utils/cursorPagination.js:16-20 | once a page has no next page, under arbitrary writes a row present and matching at every request has been returned if and only if no page with a next page ended on a row of the other kind of sort value with this row behind it |
| KeysetTraversal.WalkedIsChain | mongo/utils/pagination.js:332-338 | each page followed to shows the first rows strictly after the last row of the page before, and the walk stops only where a page says it is the last |
| KeysetPages.CursorPageIsOffsetPageExactlyWhen | mongo/utils/pagination.js:181-350 | on a fixed collection the j-th cursor page and its flags equal the j-th counted offset page under the same sort, if and only if it is not where a leading kind of sort value that fills the first page ends |
| KeysetPages.EndedTraversalCollects | mongo/utils/pagination.js:280-350 | the pages of an ended traversal concatenate to the sorted, filtered collection as far as it reaches |
| KeysetPages.CompleteExactlyWhen | mongo/utils/cursorPagination.js:181-186 | an ended traversal returned everything if and only if the leading kind of sort value does not fill the first page with rows of the other kind behind it |
| KeysetPages.NullSortValueLosesRows | mongo/utils/cursorPagination.js:181-186 | two rows, one without a sort value, of which the ended traversal returned the first alone |
| KeysetPages.TraversalEndsAfter | mongo/utils/pagination.js:238-246 | with enough requests allowed the traversal takes the offset mode's number of pages, one when there are no rows, and where one leading kind of sort value fills the first page that kind's number of pages, at least two |
| KeysetRoundTrip.ListingSeeksBack | mongo/utils/cursorPagination.js:255-270 | from any listed row the backward query finds exactly the rows of its kind before it, nearest first |
| KeysetRoundTrip.FixedBackServerServes | mongo/utils/cursorPagination.js:273-292 | the backward request then answers with the page right before the row, in caller order, with `hasPreviousPage` exactly when more precede |
| KeysetRoundTrip.BackUndoesForwardExactlyWhen | mongo/utils/cursorPagination.js:170-292 | going back from page j+1 returns page j with the same rows, flags and cursors if and only if it is not a first page on which one kind of sort value ends and the other follows |
| Backoff.DelayBounds | src/jobs/queue.js:15-18 | a delay is at least the exponential and at most six fifths of it |
| Backoff.DelayIsFloored | src/jobs/queue.js:15-18 | the jitter is the whole part of the random number times a fifth of the exponential delay, at least of one |
| Backoff.DelaysIncrease | src/jobs/queue.js:15-18 | whatever the jitter, each delay is longer than the one before |
| Backoff.DelaySumBounds | src/jobs/queue.js:15-18 | the whole wait of an n-attempt job lies between base * (2^(n-1) - 1) and six fifths of it |
| JobQueueSafety.StepKeepsInv | src/jobs/queue.js:41-140 | every step of one worker keeps row numbering, one row per key, claims on distinct active rows, attempt bounds and locks |
| JobQueueSafety.ReachableStates | src/jobs/queue.js:61-133 | over all runs with crashes and restarts: handlers in flight hold distinct active rows, one row per idempotency key, attempts at most the allowance plus recoveries, handlers called with attempts 1, 2, 3 and so on |
| JobQueueSafety.TerminalIsForever | src/jobs/queue.js:79-113 | `completed` and `dead` rows never change again |
| JobQueueRecovery.RowChangesExactly | src/jobs/queue.js:79-129 | everything that a step can do to a row: a claim, completion by its own handler's return, death or backoff by its throw, recovery by a start; nothing else changes it |
| JobQueueRecovery.RowsAreMadeExactly | src/jobs/queue.js:41-77 | rows are made by accepted enqueues of new keys only, with the stated defaults and due at once; a known key changes nothing |
| JobQueueRecovery.RowsEndOnlyByOutcomes | src/jobs/queue.js:94-113 | in every run, crashes and restarts included, a row is dead only if its handler threw in its last attempt, and completed only if its handler returned |
| JobQueueRecovery.StartRecoversExactly | src/jobs/queue.js:123-133 | starting a stopped queue makes every active row due at once with its attempts as they were, and leaves every other row alone |
| JobQueueRecovery.CrashKeepsRows | src/jobs/queue.js:5-9 | a crash loses the handlers in flight and no row, and the next process accepts jobs but does not poll yet |
| JobQueueRecovery.CrashedJobIsClaimedAgain | src/jobs/queue.js:79-129 | a job in flight at a crash is claimed again after the restart, whatever attempts it has used, within as many polls as rows are due no later |
| JobQueueSafety.StartIsSafeExactlyWhen | src/jobs/queue.js:123-129 | starting a stopped queue keeps claims on active rows if and only if no handler is in flight |
| JobQueueSafety.StartInFlightRunsTwice | src/jobs/queue.js:123-129 | started while a handler is in flight, the next poll hands its row to a second handler |
| JobQueueFairness.StepNeverOvertakes | src/jobs/queue.js:79-113 | while a job is overdue no step lets another row in ahead of it, and each claim of another row takes one out |
| JobQueueFairness.NoStarvation | src/jobs/queue.js:79-113 | an overdue job is claimed within as many polls as there are waiting jobs due no later than it |
| JobQueueFairness.PollFindsWork | src/jobs/queue.js:80-85 | while some row is due a poll can claim one |
| InlineDriver.ExecuteInline | src/jobs/queue.js:22-39 | the retry loop calls the handler with exactly the attempts up to the first success or the limit, and reports success exactly when some attempt succeeds |
| InlineDriver.QueueRefinesInline | src/jobs/queue.js:22-113 | in every crash-free run a row's handler has been called with a prefix of the inline driver's contexts, and with exactly those once the row is settled |
| InlineDriver.DriversAgreeExactlyWhen | src/jobs/queue.js:22-113 | for a settled row the two drivers make the same calls if and only if `maxAttempts` is at least one |
| InlineDriver.AlwaysFailingJobDies | src/jobs/queue.js:99-113 | a job that always fails is dead after exactly `maxAttempts` runs, the n-th no sooner than backoff * (2^(n-1) - 1) after it was enqueued |
| JobWorker.Worker.Enqueue | src/jobs/queue.js:41-77 | the upsert on the idempotency key, the shutdown error, and the returned id and duplicate flag |
| JobWorker.Worker.ProcessNext | src/jobs/queue.js:79-94 | claims an earliest due row and starts its handler, or changes nothing when none is due |
| JobWorker.Worker.HandlerReturned | src/jobs/queue.js:95-98 | the row is completed and unlocked, if it is still there |
| JobWorker.Worker.HandlerThrew | src/jobs/queue.js:99-113 | the row is dead or waits for its backoff, by the claimed attempt count |
| JobWorker.Worker.StartJobs | src/jobs/queue.js:123-133 | requeues every active row, and does nothing while the timer runs |
| JobWorker.Worker.StopJobs | src/jobs/queue.js:135-140 | stops accepting and polling and leaves the handlers in flight |
| PaymentSafety.Serialised | src/jobs/handlers.js:36-84 | at most one verification handler works on a transaction |
| PaymentSafety.ActionKeeps | src/jobs/handlers.js:36-84 | every action of handlers, queue, reaper and callers keeps keys, expiries, single credits and what each phase relies on |
| PaymentSafety.EarningsAndReceiptsAtMostOnce | src/jobs/handlers.js:23-84 | over any retries and crashes a sale is credited at most once, and one receipt job exists, per transaction and per payment hash |
| PaymentVerdicts.SettledOnlyByVerdict | src/jobs/handlers.js:44-72 | over every run a transaction stored unsettled is confirmed only if a handler of it heard that it is paid, failed only if one heard that it is not for good or in its last attempt, and credited only if it is a purchase with a creator that was heard to be paid |
| PaymentVerdicts.NextSaveObeysVerdict | src/jobs/handlers.js:44-65 | without crashes and failing calls, whatever happens between a verdict and the handler's next action, that action saves the row as the verdict says, status, expiry and retry count, and throws if the row is gone |
| PaymentEffects.CompletedHasReceipt | src/jobs/handlers.js:23-84 | over every run, a completed verification of a transaction that is there and not failed has its receipt queued under `receipt:` and the payment hash |
| PaymentEffects.ConfirmedSaleIsCredited | src/services/payoutService.js:34-86 | without crashes and failing calls, a sale confirmed since it was stored, with no handler at work on it, has its reference in the ledger, as that of a credited sale |
| PaymentEffects.LoggedSaleIsNeverCredited | src/services/payoutService.js:37-45 | once a sale's payment hash is in the ledger and no handler is about to credit it, no run credits it |
| PaymentEffects.SubmittedOnce | src/controllers/stellar/paymentController.js:884-896 | a submission queues one verification of five attempts under `verify:` and the payment hash, and submitting again changes nothing |
| PaymentEffects.NothingToVerify | src/jobs/handlers.js:36-42 | a handler that finds its transaction gone or failed returns, and its job is completed |
| PaymentProgress.SettledForever | src/models/Transaction.js:189-216 | a confirmed or failed transaction keeps its status, has no expiry and is never reapable |
| PaymentProgress.FinalRowsNeverExpire | src/models/Transaction.js:189-204 | over every run a confirmed, failed, expired, refunded or disputed row has no expiry and is out of the reaper's reach |
| PaymentProgress.HandlerEnds | src/jobs/handlers.js:36-84 | every action brings a handler nearer to returning or throwing, within nine |
| PaymentCompletion.UnreapableForever | src/models/Transaction.js:210-217 | a transaction that is not pending, or has no expiry, stays present and so through every run, crashes included |
| PaymentCompletion.VerificationCompletes | src/controllers/stellar/paymentController.js:880-896 | in every run without crash or failing call, the job of a transaction that is not pending (the controllers make it retrying first) or has no expiry is from then on never dead, runs at most `maxAttempts` times and, its last run over, is completed with the transaction confirmed or failed and without expiry; the job of a pending one likewise while the clock is below the expiry |
| PaymentLiveness.VerificationEnds | src/jobs/handlers.js:36-84 | without crashes and failing calls a verification job takes at most fifty-five actions of its own from any moment on, and is always over (completed, with its transaction settled, if that is there) or able to move: its handler can act, or, the poll timer started and the clock ticked, it is overdue and a poll finds work |
| PaymentCompletion.CompletesExactlyWhenNotReaped | src/jobs/handlers.js:36-65 | without crashes and failing calls a job keeps that promise if and only if the run does not reap its transaction |
| PaymentCompletion.CertainExactlyWhenUnreapable | src/models/Transaction.js:210-217 | whatever run without crashes and failing calls follows, a job keeps that promise, if and only if its transaction is not pending or has no expiry now |
| PaymentReaping.ReapedMidRunKillsJob | src/models/Transaction.js:213-216 | a pending transaction past its expiry, reaped before the save of the last attempt, leaves a dead job |
| PaymentReaping.DeadVerificationIsReachable | src/jobs/handlers.js:36-55 | such a job is reachable from an empty database without crash or failing call, if a transaction is submitted while pending |
| IdempotencySafety.StepKeeps | src/middlewares/idempotency.js:37-127 | every step of every interleaving keeps one record per slot, one owner per record, and writes and records that mirror their owner's capture |
| IdempotencyExclusion.FaithfulReplay | src/middlewares/idempotency.js:48-103 | every replay is the response captured by a request with the same key, user, endpoint and digest, with status below 500; each request captures at most once; one record per slot |
| IdempotencyExclusion.OnlyTheCreatorWrites | src/middlewares/idempotency.js:80-127 | a record is changed or deleted only by a write of the request that created it, or deleted by the TTL monitor |
| IdempotencyExclusion.OneHandlerPerSlot | src/models/IdempotencyKey.js:46-50 | without TTL deletions, and with closes only of captured or ended responses, at most one request per slot is running or has succeeded |
| IdempotencyExclusion.NeverRunsAgain | src/middlewares/idempotency.js:37-127 | in such runs, once a request was answered below 500 no handler for its slot starts again, also after its own response closes |
| IdempotencyExclusion.CloseIsSafeExactlyWhen | src/middlewares/idempotency.js:123-127 | a close leaves only the deletions that answer server errors pending if and only if the response was captured or ended |
| IdempotencyExclusion.DeletingIsSafeExactlyWhen | src/middlewares/idempotency.js:85-127 | deleting a record keeps the slot exclusive if and only if its owner was answered with a server error |
| IdempotencyExclusion.CloseLetsSecondHandlerIn | src/middlewares/idempotency.js:123-127 | a client close on a running request lets a retry run the handler beside it |
| IdempotencyExclusion.UncapturedEndBlocksSlot | src/middlewares/idempotency.js:105-127 | a response ended without `json` or `send` makes every later request for the slot fail with 409 or 422 until the TTL |
| IdempotencyExclusion.DuplicateIsToldTheTruth | src/middlewares/idempotency.js:46-74 | in a run that lost no write, once all have landed a duplicate gets 422, 409 or the owner's response exactly by digest and progress, and a server error has freed the slot |
| IdempotencyExclusion.GoneRecordIsThrown | src/middlewares/idempotency.js:49-58 | a duplicate whose record is gone when it looks is answered with its error |
| ResponseReplay.ReplayTellsTheAnswer | src/middlewares/idempotency.js:69-121 | a captured status of at least 500 frees the slot; after any other a duplicate with the same digest is replayed the same status, and the same text if and only if the answer was a value or a string some value prints as |
| ResponseGate.Response.CaptureResponse | src/middlewares/idempotency.js:78-103 | only the first call is acted on: it captures the body with the response's own status, 200 when that is zero |
| ResponseGate.Response.Json | src/middlewares/idempotency.js:105-108 | captures once, with the response's own status, although it calls `send` in turn, and sends one text |
| ResponseGate.Response.Send | src/middlewares/idempotency.js:110-121 | captures once, with the response's own status, although it may call `json` in turn, parsing a string that is JSON |
| ResponseGate.Response.Close | src/middlewares/idempotency.js:123-127 | gives the slot up exactly when nothing was captured and the response is not ended |
| ResponseGate.ReplayIsVerbatimExactlyWhen | src/middlewares/idempotency.js:69-121 | a replay has the same text as the answer given through `send` if and only if that was a JSON value or a string some value prints as |
| ResponseGate.PlainTextIsReplayedQuoted | src/middlewares/idempotency.js:69-121 | a string that is not JSON is replayed in quotes |
| SessionFamilies.StepKeeps | src/controllers/authController.js:115-136 | logins, refreshes, rotations, revocations, logouts and deletions keep every family a path |
| SessionFamilies.EveryFamilyIsAPath | src/controllers/authController.js:749-785 | over every run a family is one acyclic `replacedBy` path with every replaced session revoked, user and two-factor state constant, and at most one live session |
| SessionFamilies.ReuseKillsFamily | src/controllers/authController.js:743-758 | presenting an unexpired token of a revoked or replaced session revokes its whole family |
| SessionFamilies.DeadForever | src/controllers/authController.js:743-785 | no later login, refresh, revocation or logout yields a live session in a dead family |
| SessionFamilies.TokenRotatesOnce | src/controllers/authController.js:748-785 | a token whose session was revoked, by rotation or otherwise, never rotates again in either implementation |
| SessionFamilies.RevokeEndsExactly | src/controllers/authController.js:845-901 | a revocation stamps exactly the rows it is for with the time and changes no other |
| SessionFamilies.SigningOutEndsExactly | src/controllers/authController.js:845-901 | exactly which sessions stay live after revoke, revoke-all-others, logout, family revocation and a password change |
| SessionFamilies.ReuseChecksDifferExactlyWhen | mongo/repositories/SessionRepository.js:176-189 | the two reuse checks differ on an unexpired session exactly when it is revoked and not replaced |
| SessionFamilies.RotationsAgreeExactlyWhen | mongo/repositories/SessionRepository.js:236-262 | both implementations rotate the same tokens to the same state except expired sessions not yet deleted |
| SessionFamilies.LateRotationIsSafeExactlyWhen | src/controllers/authController.js:769-785 | the writes of a refresh that read earlier keep one live session if and only if no other of the family is live by then |
| SessionFamilies.OverlappedRefreshesFork | src/controllers/authController.js:737-785 | two overlapped refreshes of one token leave two live sessions |
| SessionStore.Store.Login | src/controllers/authController.js:115-136 | creates one session in a family of its own |
| SessionStore.RefreshAnswersExactly | src/controllers/authController.js:730-785 | the whole answer in terms of the stored rows: no token, unknown, expired, replayed or good, the 401 or the tokens, the one new row, the revoked family, and every row that stays as it is |
| SessionStore.TokensExactlyWhen | src/controllers/authController.js:743-785 | tokens are handed out if and only if a row has the token, is unexpired, not revoked and not replaced; otherwise 401 and no new session |
| SessionStore.Store.Refresh | src/controllers/authController.js:730-785 | the method does exactly that, expiry being checked before reuse |
| SessionStore.LoginMakesOneSession | src/controllers/authController.js:115-136 | a login's one live session, with its expiry and two-factor state, and no other change |
| SessionStore.RotatesTokenExactly | mongo/repositories/SessionRepository.js:236-262 | the repository's rotation replaces the row with the token if that is not revoked, and otherwise changes nothing |
| SessionStore.UnknownTokenRotatesNothing | mongo/repositories/SessionRepository.js:236-262 | a token that no row has rotates nothing |
| SessionStore.Store.RotateToken | mongo/repositories/SessionRepository.js:236-262 | the repository's rotation, refused for missing and revoked sessions |
| SessionStore.Store.RevokeSession | src/controllers/authController.js:845-862 | revokes the user's own session, 404 otherwise |
| SessionStore.Store.RevokeAllOther | src/controllers/authController.js:864-882 | revokes the user's other live sessions |
| SessionStore.Store.Logout | src/controllers/authController.js:886-901 | the two updates of a logout revoke the current session and the presented token's |
| SessionStore.Store.DeleteOthers | src/controllers/authController.js:973-974 | a password change deletes every other session of the user |
| Lockout.DurationIsMonotoneAndCapped | src/controllers/authController.js:54-60 | more failures never lock for less, and never for more than the maximum |
| Lockout.DurationDoublesToTheCap | src/controllers/authController.js:54-60 | each further failure doubles the lock until the maximum |
| Lockout.FirstLockIsBase | src/controllers/authController.js:54-60 | the lock at the threshold is the base, or the maximum if that is less |
| Lockout.RefusedExactlyWhen | src/controllers/authController.js:430-466 | a check is refused exactly before the lock's end, and otherwise answered by the password and the two-factor state alone |
| Lockout.NextCheckRefusedExactlyWhen | src/controllers/authController.js:430-466 | after a failed check the next is refused exactly when the failures reached the threshold and their lock has not passed |
| Lockout.FailuresAreSpaced | src/controllers/authController.js:430-466 | without a login in between the counter counts the failed checks, and each comes at least the previous one's lock after it |
| Lockout.FailuresTakeTheirTime | src/controllers/authController.js:430-466 | n consecutive failed checks span at least the sum of the locks of failures threshold to n - 1 |
| Lockout.PenaltySumIsGeometric | src/controllers/authController.js:54-60 | below the cap that sum is base * (2^(n - threshold) - 1) |
| Lockout.TwoFactorNeverResets | src/controllers/authController.js:512-544 | the counter of a two-factor account counts every failed check ever, whatever correct passwords come between |
| Lockout.LoginResetsExactlyWhen | src/controllers/authController.js:512-544 | the counter is cleared exactly by a correct password outside the lock of an account without two-factor login |
| Lockout.UserRow.CheckPassword | src/controllers/authController.js:430-545 | the password step's outcome and the new counter and lock |
| Ledger.Reconcile | mongo/repositories/EducatorBalanceRepository.js:271-311 | the loop computes the entries' totals, reports exactly the fields that differ, and is consistent exactly when none does |
| Ledger.TotalsIgnoreOrder | mongo/repositories/EducatorBalanceRepository.js:274-285 | reading the entries in any order gives the same totals |
| Payouts.ReconcilesExactlyWhen | src/services/payoutService.js:29-88 | in every run of overlapped sale recordings, crashes between a save and its entry, batch payouts, deductions and the repository's moves: balances stay non-negative; their sum is what was credited less what was deducted, plus what payouts took beyond what was owed, plus what saves missed; and the entries, in any order, reconcile if and only if the deductions equal the owed part of unwritten entries and of missed amounts plus the overdrawn and the unbacked payouts, and the unbacked payouts equal the settled part |
| PayoutOrder.SaveIsSoundExactlyWhen | src/services/payoutService.js:55-75 | the save of a recording keeps sound books sound if and only if the field it writes still holds what the recording read, or it read no row |
| PayoutOrder.SettlementIsSoundExactlyWhen | src/services/payoutService.js:346-376 | a batch settlement keeps its recipients' sound books sound if and only if every recipient's row still holds the planned amount |
| PayoutOrder.OrderlyBooksReconcileExactlyWhen | src/services/payoutService.js:29-386 | in every run whose saves meet what was read, in which an educator in an open batch is not planned, deducted from or settled otherwise, and a batch is submitted once at a time: all books stay sound, and with all entries written they reconcile if and only if nothing was deducted |
| PayoutRaces.OverlappedSalesLoseOne | src/services/payoutService.js:55-75 | two recordings of one kind that both read before either saves: the balance rises by the second amount alone, the entries by both |
| PayoutRaces.WholeRecordingAdds | src/services/payoutService.js:55-86 | a recording with nothing in between meets what it read and adds its amount to row and entries, in a new row if there is none |
| PayoutRaces.TwoBatchesOverdraw | src/services/payoutService.js:125-161 | two batches that plan one educator before either settles pay the owed amount twice; the owed balance stops at zero and the entries go below it |
| PayoutRaces.OverdrawHidesDeduction | src/services/payoutService.js:355-359 | an amount deducted between planning and settling is paid out all the same, and the books reconcile afterwards if and only if they did before |
| PayoutRaces.FailedBatchCanBeResubmitted | src/services/payoutService.js:303-336 | a failed submission leaves the batch as it was before it was submitted |
| PayoutRaces.LateFailureReopens | src/services/payoutService.js:303-336 | a failure that comes in after the batch was settled puts it back, to be submitted and settled again |
| Payouts.Service.RecordSale | src/services/payoutService.js:29-88 | without interleaving: the row rises by the sale in its own field, created if absent, and the entry is appended; nothing without a creator |
| Payouts.Service.SettleBatch | src/services/payoutService.js:346-376 | the settlement loop pays all recipients in order: clamped owed, raised settled, an entry even without a row |
| PayoutOrder.PairedBooksReconcileExactlyWhen | mongo/repositories/EducatorBalanceRepository.js:271-485 | with the repository's own atomic moves, credits and settlements paired with their entries, the entries reconcile with the stored row if and only if nothing was deducted |
| Ledger.MovesAreGuarded | mongo/repositories/EducatorBalanceRepository.js:334-485 | for credits, deductions and settlements: exactly when the move happens and by how much each balance changes; a refused or failing move changes nothing, a settlement conserves owed plus settled, no balance goes below zero, other educators are untouched |
| Ledger.BalanceStore.ReconcileBalance | mongo/repositories/EducatorBalanceRepository.js:254-312 | the missing-educator error, or the stored row and the entries' totals, consistent exactly when they are equal, with exactly the fields that differ reported |
| Ledger.BalanceStore.CreditOwedBalance | mongo/repositories/EducatorBalanceRepository.js:388-422 | the errors, and the created or increased row |
| Ledger.BalanceStore.DeductOwedBalance | mongo/repositories/EducatorBalanceRepository.js:334-373 | the errors, the refusal, and the decreased row |
| Ledger.BalanceStore.SettleOwedToSettled | mongo/repositories/EducatorBalanceRepository.js:439-485 | the errors, the refusal, and the amount moved |
| Stroops.PrinterIsExact | mongo/repositories/EducatorBalanceRepository.js:499-516 | for every integer, reading the printed decimal back times 10^8 gives the integer |
| Stroops.PrinterIsInjective | mongo/repositories/EducatorBalanceRepository.js:499-516 | different amounts print differently |
| Stroops.PrinterIsCanonical | mongo/repositories/EducatorBalanceRepository.js:499-516 | no superfluous leading zero, no trailing fraction zero, no bare point, at most eight places, a sign exactly when negative |
| Stroops.SmallForm | mongo/repositories/EducatorBalanceRepository.js:506-510 | the replacement of a trailing point by ".0" never happens |

## Left out

- PaymentCompletion.VerificationCompletes: says nothing of runs with crashes or failing calls, in which a job may die. A pending transaction at or past its expiry may be reaped; the payment and donation controllers mark a transaction retrying before they enqueue its job, so they never submit a pending one.
- PaymentSafety.EarningsAndReceiptsAtMostOnce: at most once only; a failure between confirming and the last call leaves earnings or grants undone, and the retry queues the receipt alone.
- Payouts.ReconcilesExactlyWhen: the skip of a transaction that already has its entry is in `PaymentJob`, not here, so a repeated recording counts as another credit. Amounts are unbounded integers; the repository passes them through `Number`, which is exact below 2^53.
- PayoutOrder.SettlementIsSoundExactlyWhen: the payments on the chain are not modelled; a submission settles or fails. Minimum amount, wallets and trustlines decide which educators a batch plans, here any with something owed.
- Lockout.FailuresTakeTheirTime: login attempts are atomic; concurrent attempts on one account are not modelled.
- Offset pagination without an explicit sort: its one-field sort has no `_id` tiebreaker, so its order among equal values is the database's.
- The cursor codec's internals, its fallback for cursors that are not JSON, and `BaseRepository.paginateCursor`, which pre-checks cursors in another format.
- A sort field missing from a document is treated as null, as the database does; the undefined value a cursor then carries is not kept apart.
- Handler registration; a job without a handler is a run that fails. `JOBS_ENABLED`, the driver switch, log lines, `completedAt`, `failedAt` and `lastError`.
- The inline driver's set of keys already enqueued, and several worker processes on one collection.
- The payments a verification expects (`expectedPaymentsFor`) and the on-chain lookup: the verdict is an oracle.
- A transaction's payment hash is set once and never replaced.
- Other writers of a transaction's status, and the handlers for e-mail, receipts and bulk notifications.
- The entry of the idempotency middleware: header and user checks, the endpoint's query string, and how the digest is computed.
- Status codes, headers and cookies of the session endpoints beyond the refresh answers; device data; `mark2FAVerified`.
- The repository's balance queries and transaction history, the service's statements and its audit of all balances, and `lastPayoutAt`.
