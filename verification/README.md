# sitesync, verified

A Dafny model of an offline-sync backend: field devices replay the records they
took while offline, the backend resolves them against what the customer
reported, and deployments are brought up by a saga. Its correctness rests on
small SQL updates guarded by `version` or `status`, called by concurrent
workers mostly without a surrounding transaction. The model keeps that shape.

* **Tables and statements.** `SyncDb`, `TrialDb` and `SagaDb` hold the rows and
  one function per SQL statement; `SyncStore.Store`, `TrialService.Store` and
  `SagaService.Store` are the same statements on fields updated in place.
* **Interleaving.** `SyncMachine` and `TrialMachine` run any number of calls,
  `SagaMachine` one call at a time on an order, each call with its program
  counter and local snapshots. A
  statement outside `InTx` is one atomic step, an `InTx` body is one step that
  commits or rolls back, a call may stop after any step, and time only moves
  forward. `SyncSafety`, `SyncVerdicts`, `SyncBatches`, `SyncCommits`,
  `BackfillSafety`, `Pull`, `RebuildIndex`, `SyncLeases`, `SyncStranded`,
  `TrialSafety`, `TrialCommits`, `SagaSafety`, `SagaCommits`, `SagaUndo`,
  `SagaCrashes` and `SagaRecovery` state what holds of every run; `SyncScript` is
  one run move by move.
* **Calls as written.** `SyncService.Service`, `TrialService.Service` and
  `SagaService.Service` are the service methods with their loops, early returns
  and rollbacks. Each is proved to be the program of its worker run without
  interruption (`Alone`), and a worker stepping alone is a run of the machine
  (`AloneIsARun`), so the run theorems apply to the calls.
* **From call to return.** `SyncCalls`, `SyncBatchCalls`, `BackfillCalls`,
  `TrialCalls`, `DeadlineCalls` and `ProvisionCalls` say what each call that is
  not interrupted reports and leaves, case by case and on every table the
  invariant allows, in terms of the columns alone; the service methods carry these
  contracts.
* **Sequential algorithms.** `Reconcile`, `Paging`, `PeriodDiff`, `TimeText`,
  `TimeParse`, `LeaseTiming`, `Backoff` and `Poller` are loops and arithmetic with exact
  specifications.

Instants are nanoseconds since 0000-01-01T00:00:00Z, ids are numbers, decimals
are reals, and clock readings, uuids, random draws, listing orders and driver
failures reach a call as parameters (`Oracle` in the machines).

Where the code does less than its comments say, the model follows the code and
the difference is a theorem:

* A lease is not exclusive: releasing one checks neither owner nor version.
  Exactly-once resolution is proved from record versions instead
  (`SyncSafety.LeavesPendingAtMostOnce`, `SyncSafety.VerdictsStandAtCommit`).
* A batch whose processing fails is back in `pending` before the poller backs it
  off, so its retry count stays (`Poller.FailedPollIsNotCounted`).
* Lease expiry is a comparison of texts: exact but for a proper-prefix fraction
  within one second, in both directions (`LeaseTiming.ReclaimIsExactUnlessMisread`,
  `LeaseTiming.FreedTooEarly`, `LeaseTiming.FreedTooLate`).
* The two sides of a reconciliation period cut its first and last day
  differently (`PeriodDiff.SidesAgreeExactly`).
* A saga step whose execution a crash interrupts is never finished, and the
  order goes active over it (`SagaCrashes.ActiveIsCompleteExactly`,
  `SagaCrashes.ActiveOrderWithProcessingStep`).
* Compensate answers no error although its last update found the order rewritten,
  which is then left compensating (`SagaCommits.LastUpdateAtCommit`).
* A manual review and its record are written in two commits, so a reviewed row
  can belong to a record that still waits, and then waits until it is revoked
  (`SyncStranded.WaitsUntilRevoked`, `SyncScript.StrandedHappens`).
* The trial table allows accepting an escalated trial, no statement does
  (`TrialSafety.OnwardAgainstTheTable`, `TrialSafety.TrialsMoveOnward`).
* Two direct `Escalate` calls can both report escalating one trial
  (`TrialSafety.EscalatesItselfExactly`, `TrialSafety.DirectCallsCanBothEscalate`),
  and a saga write in between can lose the handover of the order
  (`TrialSafety.EscalationHandsOver`, `TrialSafety.HandoverCanBeLost`).
* The backoff leaves the capped doubling when the 64-bit shift overflows
  (`Backoff.NextRetry`, `Backoff.DefaultsFailAtAttempt33`), a stale-manuals page
  fails near the largest offset (`Paging.ListStaleManuals`), a window of more
  than 2562047 hours wraps (`Window.ExpiredIsElapsedOverWindow`), and a rebuild
  racing a backfill leaves the counter behind (`RebuildIndex.RebuildRace`,
  `SyncScript.RebuildCanLoseTheRace`).

`dafny verify dfyconfig.toml` checks the whole project.

## Model

| member | source | states |
|---|---|---|
| Status.RecordEdgeIsTheTable | internal/domain/status.go:128-136 | the by-cases edge relation used in the proofs is exactly the record transition table |
| Status.RecordEdgeClimbs | internal/domain/status.go:128-136 | every edge of the record table climbs a rank of height three, so the table has no cycle |
| Window.ExpiredIsElapsedOverWindow | internal/window/policy.go:35-44 | a record is expired exactly when more than the window has elapsed, at every instant, if and only if the window is at most 2562047 hours either way |
| SyncSafety.VersionImpliesContents | internal/store/store.go:231-238 | in every interleaved run, two states of a record, batch, manual or work-hour row with the same version have the same contents, and rows never disappear |
| SyncSafety.FactsNeverChange | internal/store/operation_repo.go:115-136 | no statement of any run rewrites a record's order, device, responsible person, times, sequence number, content, batch or change version |
| SyncSafety.EveryChangeIsAnEdge | internal/store/operation_repo.go:115-130 | every status change in every run is an edge of the record table, although SetConflict and SetManual test no status |
| SyncSafety.AtMostThreeStatusChanges | internal/domain/status.go:128-136 | a record changes status at most three times in any run |
| SyncSafety.LeavesPendingAtMostOnce | internal/service/sync_service.go:136-200 | a record leaves pending at most once, whoever holds or loses the lease |
| SyncSafety.VerdictsStandAtCommit | internal/service/sync_service.go:148-160 | a resolving transaction either changes no table, or judges exactly the pending rows of its batch on the record, the order's window and the hours reported for the record's device on the UTC day it was taken, as they stand at commit: manual review exactly when the window has elapsed, conflict with that day's work-hour row exactly when it has not and the hours differ, accepted otherwise |
| SyncVerdicts.RuleGivesVerdict | internal/service/sync_service.go:171-200 | the rule of the transaction is that verdict, the day being the one d with d days <= occurred_at < d + 1 days and the window a 64-bit product of hours |
| SyncVerdicts.VerdictOnItsDay | internal/service/sync_service.go:183-184 | no other day's hours are looked at |
| SyncBatches.ResolvesExactly | internal/service/sync_service.go:148-216 | the transaction commits exactly when every row listed as pending is still as listed and no routed record draws a uuid of a manual row; committed, the routed records have one open manual row each and no other was made |
| SyncBatches.ResolutionCommitsExactly | internal/service/sync_service.go:148-157 | in every run, that is when a resolving step whose driver does not fail commits |
| SyncBatches.RoutingReuses | internal/service/sync_service.go:203-207 | a record that has a manual row is linked to it and no second one is made |
| SyncBatchCalls.ProcessBatchReturns | internal/service/sync_service.go:136-168 | from call to return, on any tables that satisfy the invariant: a batch not pending answers lease held and nothing changes; a failing driver or a taken uuid gives the batch back two versions on; otherwise it is completed under the owner's lease until now plus ttl with its rows counted, each pending row judged at its own clock reading and every other record as it was |
| SyncSafety.CompletedBatchesAreSettled | internal/service/sync_service.go:142-163 | a completed batch has no pending record and processed_count equal to its rows; record_count is those rows plus the inputs answered from stored rows |
| SyncSafety.RuledExactlyWhenAdjudicated | internal/service/adjudication_service.go:29-79 | a ruling exists for a record exactly when it is adjudicated, and the ruled work-hour id is the record's conflict id although it is looked up again |
| SyncSafety.RulingIsFinal | internal/store/workhour_adjudication_repo.go:56-61 | a ruling once made is never replaced or rewritten |
| SyncSafety.ManualRowIsTheNamedOne | internal/service/sync_service.go:203-264 | a record has a manual row exactly when manual_id names it, never two, and a verified record with one was decided accept |
| SyncSafety.ReviewIsFinal | internal/store/manual_syncstate_repo.go:58-68 | a review decision is written at most once and never changed |
| SyncCommits.RulingAtCommit | internal/service/adjudication_service.go:48-77 | in every run a ruling commits exactly when the row it read is unchanged, the adjudicator known and the fresh id free; it rewrites that row, names the winner, blames the other side and measures the gap to the work hours it read; otherwise nothing is written |
| SyncCommits.CorrectionAtCommit | internal/service/reconciliation_service.go:92-123 | in every run a correction commits exactly when the row is as read; it gives the row the new hours, verifies an accepted one and keeps any other status; otherwise nothing is written |
| SyncCommits.ReviewAtCommit | internal/service/sync_service.go:250-258 | the record follows the decision already written to its manual row exactly when nobody wrote the record since it was read, otherwise nothing is written |
| SyncStranded.WaitsUntilRevoked | internal/service/sync_service.go:238-258 | a record whose review is written and which no call is about to move from its current version waits in every later state of every run until it is revoked |
| SyncStranded.CrashStrandsExactly | internal/service/sync_service.go:250-258 | a crash between the two commits leaves the record so exactly when no other call is about to move it |
| SyncStranded.LostRaceStrandsExactly | internal/service/sync_service.go:250-258 | so does a move that finds the record rewritten |
| SyncScript.StrandedHappens | internal/service/sync_service.go:229-264 | a run from the empty store ends with a reviewed manual row whose record waits and nobody left to move it |
| SyncCommits.RevocationAtCommit | internal/service/reconciliation_service.go:126-143 | a revocation commits exactly when the row is as read, revoking it along the table; otherwise nothing is written |
| SyncCalls.AdjudicateReturns | internal/service/adjudication_service.go:29-79 | from call to return: an unknown record, an adjudicated one, and one that is neither in conflict nor adjudicated leave the tables alone and answer so; a conflict is ruled unless the ruling's id is taken or the adjudicator unknown, against the hours reported for the day the record was taken on, naming winner and loser and the distance |
| SyncCalls.ManualVerifyReturns | internal/service/sync_service.go:229-264 | from call to return: a record without a manual row is not found, a reviewed one is left alone, an unreviewed waiting one gets the decision and follows it, any other status is refused |
| SyncCalls.CorrectReturns | internal/service/reconciliation_service.go:92-123 | from call to return: unknown and revoked records are refused, any other gets the hours, an accepted one verified as well |
| SyncCalls.RevokeReturns | internal/service/reconciliation_service.go:126-143 | from call to return: a revoked record is left alone, one in conflict or adjudicated is refused, any other is revoked |
| SyncCommits.ReportingHours | internal/store/workhour_adjudication_repo.go:14-24 | reporting succeeds exactly for a known device whose day has hours or whose row id is free; the day then has the hours reported under the id it had |
| SyncCommits.CursorNeverGoesBack | internal/store/manual_syncstate_repo.go:79-88 | a known order's cursor becomes the larger of what it was and what is reported, and nothing else changes |
| SyncCommits.ClaimExcludesUntilReleased | internal/store/sync_repo.go:57-82 | a claimed batch cannot be claimed again, and a release by anyone undoes the claim but for two versions |
| SyncLeases.ReturnedBetweenClaims | internal/store/sync_repo.go:57-93 | in every run, between two successful claims of one batch some move released or reclaimed it from its lease |
| SyncLeases.RetryCountedExactly | internal/store/sync_repo.go:102-112 | in every run a batch's retry count moves exactly at a retry bump that finds it processing, failed or leasing |
| SyncLeases.CompletionAtCommit | internal/service/sync_service.go:162-164 | in every run a batch is completed exactly when nobody wrote its row since the call reloaded it, with the rows counted; otherwise nothing is written and the call answers a version conflict, its records already resolved |
| SyncMachine.NextKeeps | internal/service/sync_service.go:136-264 | every step of every worker and of the surroundings keeps the invariant of tables, snapshots and counts, and evolves every row forward |
| SyncTx.ResolveAllGood | internal/service/sync_service.go:148-200 | a committed resolution of distinct current snapshots keeps the table invariant, decides each pending snapshot by the rule and touches nothing else |
| SyncTx.AdjudicateGood | internal/service/adjudication_service.go:62-74 | a committed ruling keeps the table invariant, moves its record to adjudicated, adds its ruling and changes nothing else |
| SyncTx.CorrectGood | internal/service/reconciliation_service.go:92-123 | a committed correction keeps the table invariant and moves an accepted record to verified |
| SyncTx.ReviewGood | internal/store/manual_syncstate_repo.go:58-68 | reviewing from a current unreviewed snapshot keeps the table invariant |
| SyncStatements.ClaimGood | internal/store/sync_repo.go:57-69 | a claim takes a pending batch into its lease, keeps the invariant and rewrites no other row of any table |
| SyncStatements.ReleaseGood | internal/store/sync_repo.go:72-82 | releasing any leasing batch, by anyone, keeps the invariant |
| SyncStatements.ReclaimGood | internal/store/sync_repo.go:85-93 | reclaiming expired leases keeps the invariant |
| SyncStatements.ProgressGood | internal/store/sync_repo.go:96-99 | completing a settled batch with its row count keeps the invariant |
| SyncStatements.BumpGood | internal/store/sync_repo.go:102-112 | a retry bump keeps the invariant, rewrites only a processing, failed or leasing batch and otherwise changes nothing |
| SyncStatements.PermanentGood | internal/store/sync_repo.go:115-118 | dead-lettering any batch keeps the invariant |
| SyncStatements.UpsertHoursGood | internal/store/workhour_adjudication_repo.go:14-24 | an upsert keeps the invariant and a stored row keeps its id, so conflicts stay linked |
| SyncStore.Store.UpdateRecordStatus | internal/store/operation_repo.go:115-118 | the in-place statement matches id, status and version, bumps the version, or reports a version conflict and changes nothing |
| SyncStore.Store.SetConflict | internal/store/operation_repo.go:121-124 | marks the conflict and links the work-hour row under the version guard alone |
| SyncStore.Store.SetManual | internal/store/operation_repo.go:127-130 | marks the record for review and links the manual row under the version guard alone |
| SyncStore.Store.CorrectHours | internal/store/operation_repo.go:133-136 | replaces the hours under the version guard |
| SyncStore.Store.NextChangeVersion | internal/store/store.go:207-217 | hands out the counter and bumps it |
| SyncStore.Store.InsertRecord | internal/store/operation_repo.go:14-48 | stores a row and its key, or fails on a taken id or a missing reference |
| SyncStore.Store.CreateSyncBatch | internal/store/sync_repo.go:16-29 | stores a batch at version one, or fails |
| SyncStore.Store.ClaimLease | internal/store/sync_repo.go:57-64 | leases a pending batch to the owner, otherwise reports the lease as held |
| SyncStore.Store.ReleaseLease | internal/store/sync_repo.go:72-82 | returns a leasing batch to pending without looking at owner or version |
| SyncStore.Store.ReclaimExpired | internal/store/sync_repo.go:85-93 | returns exactly the leasing batches whose deadline text sorts before now to pending |
| SyncStore.Store.UpdateBatchProgress | internal/store/sync_repo.go:96-99 | writes status and count under the version guard |
| SyncStore.Store.BumpBatchRetry | internal/store/sync_repo.go:102-112 | marks a processing, failed or leasing batch failed with one more retry, otherwise changes nothing |
| SyncStore.Store.MarkBatchPermanent | internal/store/sync_repo.go:115-118 | dead-letters a batch whatever its status |
| SyncStore.Store.CreateManual | internal/store/manual_syncstate_repo.go:18-33 | stores a pending manual row, at most one per record |
| SyncStore.Store.ReviewManual | internal/store/manual_syncstate_repo.go:58-68 | writes the decision under the version guard |
| SyncStore.Store.UpsertWorkHour | internal/store/workhour_adjudication_repo.go:14-24 | inserts, or rewrites the hours of the stored row keeping its id |
| SyncStore.Store.CreateRuling | internal/store/workhour_adjudication_repo.go:56-61 | stores at most one ruling per record |
| SyncStore.Store.UpsertBackfill | internal/store/manual_syncstate_repo.go:79-88 | raises the order's cursor to the larger of stored and given |
| SyncAlone.AloneIsARun | internal/service/sync_service.go:136-168 | a call running with nobody else moving is a run of the machine |
| SyncAlone.CallsStayReachable | internal/service/sync_service.go:136-168 | a call made at any reachable point leaves reachable tables, so every run theorem holds after it |
| SyncService.Service.RouteToManual | internal/service/sync_service.go:203-216 | reuses or creates the manual row and links the record, or fails with the statement's error |
| SyncService.Service.ResolveRecord | internal/service/sync_service.go:171-200 | skips settled rows, else routes, conflicts or accepts as the rule transaction does |
| SyncService.Service.ResolveRows | internal/service/sync_service.go:148-157 | resolves every row or rolls all of them back, and counts the rows |
| SyncService.Service.ProcessBatch | internal/service/sync_service.go:136-168 | on tables that satisfy the invariant it returns what ProcessBatchReturns says, and its statements are those of the machine's worker |
| SyncService.Service.ListAndResolve | internal/service/sync_service.go:143-167 | listing, transaction and completion or release, as in the machine |
| SyncService.Service.ManualVerify | internal/service/sync_service.go:229-264 | it returns what ManualVerifyReturns says; review and record update are two commits, as in the machine |
| SyncService.Service.Rule | internal/service/adjudication_service.go:52-77 | ruling and status change commit together or not at all |
| SyncService.Service.Adjudicate | internal/service/adjudication_service.go:29-79 | it returns what AdjudicateReturns says, a conflict being ruled on the hours looked up again |
| SyncService.Service.Apply | internal/service/reconciliation_service.go:100-118 | correction and move to verified commit together or not at all |
| SyncService.Service.CorrectRecord | internal/service/reconciliation_service.go:92-123 | it returns what CorrectReturns says |
| SyncService.Service.RevokeRecord | internal/service/reconciliation_service.go:126-143 | it returns what RevokeReturns says |
| SyncService.Service.InsertRow | internal/store/operation_repo.go:14-48 | a stored row answers for itself, a new one is numbered from the counter |
| SyncService.Service.InsertBatch | internal/store/operation_repo.go:57-74 | inserts in order, stops at the first failure, and answers every row with its stored form |
| SyncService.Service.FindExisting | internal/service/sync_service.go:83-97 | reports whether every row is stored already and answers those that are |
| SyncService.Service.Replay | internal/service/sync_service.go:81-119 | batch, rows and cursor commit together or not at all; a fully known submission writes nothing |
| SyncService.Service.Backfill | internal/service/sync_service.go:42-131 | it returns what BackfillCallReturns says; on success the answer holds for each input, in replay order, the row stored before under its number or its first input as just stored, and reports none pending exactly when every number was stored already |
| ReplayOrder.ReplayOrderIsDetermined | internal/service/sync_service.go:54-60 | sorting by (occurred_at, client_sequence) with ties in submission order has one result |
| ReplayOrder.ReplayIsChronological | internal/service/sync_service.go:54-60 | an input replayed before another was taken earlier, or at the same time with no larger sequence number |
| Replay.InsertAllFills | internal/store/operation_repo.go:57-74 | replaying rows stores each unknown key once, from its first row, numbered consecutively, and nothing else |
| Replay.ReplayGood | internal/service/sync_service.go:81-119 | a committed replay keeps the table invariant |
| BackfillSafety.StoredOnce | internal/store/operation_repo.go:14-48 | in every run two records of one order with one client sequence are the same record |
| BackfillSafety.FirstInputWins | internal/service/sync_service.go:54-119 | after a committed replay each input's row is the untouched stored one, or is taken over field by field from the first input with its sequence number, received now, pending, unlinked, at version one under the new batch |
| ReplayCommits.InsertsExactly | internal/store/operation_repo.go:14-74 | storing the rows succeeds exactly when no new row's uuid is taken and every new row's order, device and person are known, and otherwise reports why the first that cannot be stored cannot |
| BackfillCalls.BackfillCallReturns | internal/service/sync_service.go:42-131 | from call to return: an empty or malformed submission, an unknown or aborted order and a fully known submission write nothing and answer so; otherwise a taken batch id, or the first new input that cannot be stored, rolls everything back; otherwise the batch counts all inputs, the new ones are stored field by field, numbered consecutively in replay order, and the cursor is at the newest |
| BackfillCalls.EveryInputAnswered | internal/service/sync_service.go:83-131 | on success each input is answered with the row stored before under its number, or with its first input as just stored |
| BackfillSafety.VersionsFollowReplayOrder | internal/store/operation_repo.go:57-74 | newly stored rows get strictly increasing change versions in replay order |
| BackfillSafety.ReplayIsIdempotent | internal/service/sync_service.go:83-100 | a submission known once stays known: replaying it later, after anything, changes nothing |
| BackfillSafety.ReplayMakesKnown | internal/service/sync_service.go:81-119 | a committed replay leaves its rows known |
| Pull.ListRecordChanges | internal/store/operation_repo.go:185-192 | the page holds the next rows after the cursor in version order, none skipped, fewer than the limit only when no more exist |
| Pull.PullChanges | internal/httpapi/handlers_sync.go:21-36 | pages of 1 to 200 rows are given as asked and any other limit is 50; returns the highest version of the page, or the given one for an empty page, as the next cursor |
| Pull.ClientStaysInStep | internal/service/sync_service.go:220-225 | in every history of moves and pulls a client holds exactly the records up to its cursor, once each, ascending |
| Pull.PullDrains | internal/httpapi/handlers_sync.go:21-36 | each pull takes the limit off the backlog or empties it |
| Pull.PollingDrains | internal/httpapi/handlers_sync.go:21-36 | with backfills stopped, ceil(backlog / limit) pulls drain the store |
| Pull.VersionsAreDistinct | internal/store/store.go:207-217 | no two records of a run share a change version |
| RebuildIndex.IndexIsExact | internal/store/manual_syncstate_repo.go:79-88 | at every reachable point the counter is one more than the largest change version and each cursor the largest of its order |
| RebuildIndex.MaxChangeVersion | cmd/opsctl/main.go:317-320 | the scan computes COALESCE(MAX(change_version), 0) |
| RebuildIndex.Rebuild | cmd/opsctl/main.go:316-337 | from any state of the index the command leaves it exact, gives every order a cursor and changes nothing else |
| RebuildIndex.RebuildChangesNothing | cmd/opsctl/main.go:316-337 | at every reachable point a rebuild keeps the counter and every cursor and only adds zero cursors for orders without records |
| RebuildIndex.RebuildRace | cmd/opsctl/main.go:317-323 | the counter a rebuild writes is exact if and only if no record was stored between its two statements |
| SyncScript.RebuildCanLoseTheRace | cmd/opsctl/main.go:317-323 | a run that stores a record between the two statements, after which the counter written is already taken |
| TimeText.DifferentSeconds | internal/store/scan.go:17-19 | for years 0000 to 9999 and different whole seconds, text order is time order |
| TimeText.SameSecond | internal/store/scan.go:17-19 | within a second, text order disagrees with time order exactly when the earlier trimmed fraction is a proper prefix of the later one |
| TimeText.TextOrderExact | internal/store/scan.go:17-19 | for any two instants of years 0000 to 9999, text order is time order exactly unless they share a second and the earlier trimmed fraction is a proper prefix of the later one |
| TimeText.WholeSecondMisread | internal/store/scan.go:17-19 | a whole second is misread against everything later in its second and nothing else |
| TimeText.DateTextOrder | internal/service/reconciliation_service.go:207-213 | dates of four-digit years compare as text as the days they name |
| TimeText.CivilOrder | internal/store/scan.go:17-19 | calendar dates are ordered as the days they name |
| TimeParse.StoredTimeReadsBack | internal/store/scan.go:17-39 | the text written for an instant of years 0000 to 9999 reads back as that instant, to the nanosecond |
| TimeParse.TextsAreDistinct | internal/store/scan.go:17-39 | two instants are never stored as one text |
| TimeParse.DateHeadsTime | internal/service/sync_service.go:183-183 | the date hours are reported under is the head of the record's timestamp |
| TimeParse.ZeroTimeIsYearOne | internal/service/sync_service.go:65-67 | the time a submission may not carry is the first instant of year one |
| LeaseTiming.ReclaimIsExactAcrossSeconds | internal/store/sync_repo.go:85-93 | in different whole seconds a lease is freed exactly when it has expired |
| LeaseTiming.ReclaimIsExactToTheSecond | internal/store/sync_repo.go:85-93 | a lease with a second or more left is never freed, one expired by a second or more always is, and no other batch is touched |
| LeaseTiming.ReclaimIsExactUnlessMisread | internal/store/sync_repo.go:85-93 | a lease is freed exactly when it has expired, if and only if deadline and clock are not in one second with the earlier trimmed fraction a proper prefix of the later one |
| LeaseTiming.FreedTooEarly | internal/store/sync_repo.go:85-93 | on any whole second every lease ending later in that second is freed |
| LeaseTiming.FreedTooLate | internal/store/sync_repo.go:85-93 | a lease that ended on a whole second is not freed for the rest of that second |
| LeaseTiming.ReclaimIsExactOnWholeSeconds | internal/store/sync_repo.go:85-93 | with deadline and clock on whole seconds a lease is freed exactly when it has expired |
| Backoff.NextRetry | internal/scheduler/poller.go:83-94 | the backoff is in (0, max], a jitter of up to half of it is added, each value drawn as it is, and the backoff is min(base * 2^attempt, max) if and only if the product did not overflow to other bits |
| Backoff.DelaysGrow | internal/scheduler/poller.go:83-94 | the intended delays never shrink and stay at the cap |
| Backoff.NoOverflowBeforeDeadLetter | internal/scheduler/poller.go:60-76 | every delay asked for before dead-lettering is the capped doubling when the last one does not overflow |
| Backoff.DefaultsFailAtAttempt33 | internal/scheduler/poller.go:83-94 | with the default two seconds and two minutes the doubling holds up to attempt 32 and fails at 33 |
| Poller.Poller.ProcessOne | internal/scheduler/poller.go:53-80 | processes, then does nothing, marks the batch failed with one more retry and a due time in range if it is still processing, failed or leasing, or dead-letters it at its last retry |
| Poller.FailedPollIsNotCounted | internal/scheduler/poller.go:53-80 | with nobody else at work a failing batch below the limit is pending again with its retry count unchanged |
| Reconcile.Aggregate | internal/reconcile/engine.go:81-90 | the totals are the per-day sums and are present exactly for the days of the inputs |
| Reconcile.SortKeys | internal/reconcile/engine.go:109-114 | the days come out strictly sorted by date then device, none lost |
| Reconcile.Compare | internal/reconcile/engine.go:117-149 | one day's figures, delta and kind, and the summary with it counted |
| Reconcile.Diff | internal/reconcile/engine.go:96-152 | one pair per day on either side, in order, each fitting the inputs, and the summary of the pairs |
| ReconcileLaws.DiffIgnoresOrder | internal/reconcile/engine.go:96-152 | the diff does not depend on the order of the inputs or of map iteration |
| ReconcileLaws.DeltasConserve | internal/reconcile/engine.go:124-147 | the deltas sum exactly to customer hours minus system hours |
| ReconcileLaws.TotalIsRounded | internal/reconcile/engine.go:150-150 | the reported total has four decimals and is within 0.00005 of that |
| ReconcileLaws.TiesGoAway | internal/reconcile/engine.go:150-150 | half of the last decimal is rounded away from zero |
| ReconcileLaws.CountsPartition | internal/reconcile/engine.go:121-146 | the five counts add up to the number of days on either side |
| ReconcileLaws.SummaryCountsPairs | internal/reconcile/engine.go:121-146 | each count is the number of pairs of its kind |
| ReconcileLaws.ConflictIsDisagreement | internal/reconcile/engine.go:132-146 | a conflict is reported exactly when some day on both sides has different totals |
| ReconcileLaws.SwapNegates | internal/reconcile/engine.go:96-152 | swapping the sides negates every delta and the total and mirrors the kinds and counts |
| PeriodDiff.ComputeDiff | internal/service/reconciliation_service.go:181-231 | paging included, the answer has one pair for each device and date on either side, in order; the system hours are the sum over the order's rows in the period taken by the device on that UTC date whose status is accepted, verified or adjudicated, the customer hours the sum reported for it, and a side is there exactly when such a row or report is |
| PeriodDiff.DiffComparesDays | internal/service/reconciliation_service.go:181-231 | any diff of the collected sides is that comparison of days |
| PeriodDiff.SettledStatuses | internal/service/reconciliation_service.go:235-241 | a status counts exactly when it is none of pending, conflict, awaiting review and revoked |
| PeriodDiff.CollectSystem | internal/service/reconciliation_service.go:184-202 | the paging loop ends and collects exactly the settled rows of the unpaged listing |
| PeriodDiff.CollectCustomer | internal/service/reconciliation_service.go:214-229 | collects the hours of each device whose date is inside the period |
| PeriodDiff.SettledUntilRevoked | internal/service/reconciliation_service.go:235-241 | a record that counts goes on counting until it is revoked |
| PeriodDiff.PeriodIsHalfOpen | internal/store/operation_repo.go:167-174 | for any instant and bounds, the records' side keeps exactly from <= t < to if and only if no misreading of t against a bound changes the answer |
| PeriodDiff.PeriodOfWholeSeconds | internal/store/operation_repo.go:167-174 | with bounds on whole seconds it keeps the start, loses the rest of the start's second, and lets in the second of the end but for the end itself |
| PeriodDiff.SidesAgreeExactly | internal/service/reconciliation_service.go:181-228 | for any instant and any bounds, absent ones included, record and report of a day are both in or both out, exactly unless the period touches the day and the record falls outside the bounds; never the other way round |
| PeriodDiff.SidesOfWholeSeconds | internal/service/reconciliation_service.go:181-228 | with bounds on whole seconds the sides differ exactly on the touched days before the start, in the rest of its second, at the end and from a second after it |
| PeriodDiff.SidesAwayFromBounds | internal/service/reconciliation_service.go:181-228 | away from the seconds of the bounds the sides differ exactly on the touched days outside from <= t < to |
| PeriodDiff.LastDayIsCustomerOnly | internal/service/reconciliation_service.go:207-228 | on the day the period ends the customer's hours are in while records a second after the end are out |
| PeriodDiff.FirstDayIsCustomerOnly | internal/service/reconciliation_service.go:207-228 | on the day the period starts the customer's hours are in while records a second before the start are out |
| Paging.Normalize | internal/domain/query.go:29-42 | a missing size is 50, one above 200 is 200, a negative offset is 0, and exactly the requests already in range are unchanged |
| Paging.Paginated | internal/store/scan.go:147-163 | returns the rows from the offset up to the size and the full count |
| Paging.ScanStale | internal/service/query_service.go:87-103 | the scan loop ends and collects exactly the stale rows for any row count |
| Paging.ListStaleManuals | internal/service/query_service.go:77-118 | returns the page of the stale rows and the next link, the window being the configured one unless the request names hours; it panics if and only if offset plus size reaches 2^63 |
| Paging.StaleExactly | internal/service/query_service.go:93-103 | a waiting row is in the unpaged answer, at its place, exactly when more than the window has passed since it was opened |
| Paging.FollowNext | internal/service/query_service.go:105-135 | following Next from offset 0 visits every stale row once, in order, for any page size |
| TrialSafety.OnwardAgainstTheTable | internal/domain/status.go:119-126 | the status moves that happen are the table without accepting an escalated trial |
| TrialSafety.TrialsMoveOnward | internal/store/trial_inspection_repo.go:64-74 | every move of a run takes every trial along those moves, and a handed-over order stays handed over |
| TrialSafety.AcceptanceIsFinal | internal/store/trial_inspection_repo.go:70-74 | exactly the accepted trials name who accepted them, and nothing that runs later changes an accepted trial |
| TrialSafety.EachTrialCountedOnce | internal/service/trial_service.go:105-137 | the counts returned by all CheckDeadlines calls add up to distinct escalated trials |
| TrialSafety.CountIsWhatWasEscalated | internal/service/trial_service.go:105-137 | a call's count is the number of trials it escalated, each past its deadline when listed, disjoint from every other call's |
| TrialSafety.EscalationHandsOver | internal/service/trial_service.go:64-69 | after the winning escalation's responsibility update the order is the customer manager's if and only if it was already or the saga has not written it since the snapshot, even when a racing Convert made the update fail |
| TrialSafety.SnapshotNotesWrites | internal/service/trial_service.go:48-51 | the snapshot counts the saga writes that came before it |
| TrialSafety.EscalatesItselfExactly | internal/service/trial_service.go:55-66 | in every run, a status update that succeeds into the handover found the trial not escalated yet exactly when the row it was made from was overdue; it escalated an escalated trial again exactly when a direct call read the trial active and its reload found it escalated |
| TrialSafety.MarksFromReadOrReload | internal/service/trial_service.go:52-63 | the row an escalation is made from is the overdue one the call read, or after marking overdue the one its reload found |
| TrialSafety.DirectCallsCanBothEscalate | internal/service/trial_service.go:55-67 | a run in which two direct calls both report escalating the same trial |
| TrialSafety.HandoverCanBeLost | internal/service/trial_service.go:48-69 | a run in which a saga write in between leaves an escalated trial's order with the field engineer |
| TrialCommits.VersionImpliesContents | internal/store/trial_inspection_repo.go:64-74 | in every run two states of a trial with the same version have the same contents |
| TrialCommits.AcceptanceAtCommit | internal/service/trial_service.go:31-36 | in every run an acceptance commits exactly when the trial is as the call read it and active or overdue; otherwise nothing is written |
| TrialCommits.ConversionAtCommit | internal/service/trial_service.go:89-92 | in every run a conversion commits exactly when the trial is as the call read it |
| TrialCommits.EscalationAtCommit | internal/service/trial_service.go:61-63 | in every run an escalation commits exactly when the trial is as the call read or reloaded it |
| TrialMachine.NextKeeps | internal/service/trial_service.go:21-137 | every step keeps the invariant of rows, snapshots and counted trials |
| TrialAlone.AloneIsARun | internal/service/trial_service.go:21-137 | a lone call is a run of the machine |
| TrialService.Store.UpdateTrialStatus | internal/store/trial_inspection_repo.go:64-67 | moves a trial under status and version guards |
| TrialService.Store.SetAccepted | internal/store/trial_inspection_repo.go:70-74 | accepts only an active or overdue trial of that version |
| TrialService.Store.UpdateResponsibility | internal/store/deployment_repo.go:110-117 | hands the order over under the version guard |
| TrialService.Store.ListTrialsPastDeadline | internal/store/trial_inspection_repo.go:77-80 | lists each active or overdue trial past its deadline once |
| TrialService.Service.Accept | internal/service/trial_service.go:21-38 | it returns what AcceptCallReturns says, statement by statement the call the run theorems are about |
| TrialService.Service.Escalate | internal/service/trial_service.go:43-74 | it returns what EscalateCallReturns says, a failed handover being ignored, statement by statement the call the run theorems are about |
| TrialService.Service.Convert | internal/service/trial_service.go:78-101 | it returns what ConvertCallReturns says, statement by statement the call the run theorems are about |
| TrialService.Service.CheckDeadlines | internal/service/trial_service.go:105-137 | it returns what CheckDeadlinesReturns says; it walks the listed trials and skips lost races and errors, the call the run theorems are about |
| DeadlineCalls.CheckDeadlinesReturns | internal/service/trial_service.go:105-137 | from call to return: every active or overdue trial past its deadline ends escalated with its order handed to the customer manager and urged to accept, every other trial and order is as it was, and the count is the number of those trials |
| DeadlineCalls.SweepGoes | internal/service/trial_service.go:112-135 | after any number of rows exactly those are escalated and exactly their orders handed over, the next row still as listed |
| TrialCalls.EscalateCallReturns | internal/service/trial_service.go:43-74 | from call to return: an active or overdue trial is escalated and its order handed over, an escalated or converted one is left alone without an error, an accepted or pending one is refused |
| TrialCalls.AcceptCallReturns | internal/service/trial_service.go:21-38 | from call to return: an active or overdue trial is accepted by the actor, an accepted one is left alone, an escalated one answers a version conflict, any other is refused |
| TrialCalls.ConvertCallReturns | internal/service/trial_service.go:78-101 | from call to return: an escalated trial is converted and its order handed over for rent or sale, a converted one is left alone, any other is refused |
| SagaSafety.EffectsOfDoneSteps | internal/service/deployment_service.go:165-242 | with crashes anywhere, a done step's trial, inspection or bill exists, each at most once, and a trial exists exactly when the order is linked to it |
| SagaSafety.NoStepRunsTwice | internal/service/deployment_service.go:120-149 | with crashes anywhere, each step commits at most once, and exactly when it is done or compensated |
| SagaSafety.ActiveStepsAreClaimed | internal/service/deployment_service.go:150-157 | an active order's steps are done or left processing |
| SagaSafety.InterruptedStepIsNeverFinished | internal/store/deployment_repo.go:192-196 | a step whose execution, or whose failure mark, a crash interrupted stays processing whatever follows |
| SagaCrashes.ProcessingExactly | internal/service/deployment_service.go:120-149 | in every run a step is processing exactly when a call is executing it now or a crash once hit a call that was |
| SagaCrashes.ActiveIsCompleteExactly | internal/service/deployment_service.go:150-157 | an active order has all five steps done exactly when no crash of the run interrupted the execution of any of them |
| SagaCrashes.OrderGoesActiveOverInterruptedStep | internal/service/deployment_service.go:124-157 | after any such crash a later Provision can make the order active with that step still processing |
| SagaCrashes.ActiveOrderWithProcessingStep | internal/service/deployment_service.go:124-157 | a run from a new order ends active with its first step still processing |
| SagaSafety.StepsStayInOrder | internal/service/deployment_service.go:120-149 | in crash-free sequential runs the steps are a done prefix, then at most one failed or running, then pending |
| SagaSafety.ActiveExactlyWhenDone | internal/service/deployment_service.go:136-157 | between calls of such a run the order is active exactly when all five steps are done and waiting for a retry exactly when one failed |
| SagaSafety.CompensateUndoes | internal/service/deployment_service.go:246-316 | when Compensate returns no step is done, each formerly done one is compensated with its inspection, bindings or draft bill undone, and an issued bill is untouched |
| SagaUndo.LoneAtStep | internal/service/deployment_service.go:246-316 | every commit of a compensation nobody disturbs keeps the tables at the point its program counter says, and its return leaves them undone |
| SagaService.CompensateReturns | internal/service/deployment_service.go:246-293 | from call to return, for any order of five steps whatever crashes left them as: an aborted order is left alone, a draft is refused, any other ends aborted with each done step compensated and its inspections, bindings or draft bill undone, everything else as it was |
| SagaUndo.AbortedIsUndone | internal/service/deployment_service.go:263-289 | in every run with crashes and outside writes, an aborted order has no done step, its compensated steps are exactly those once executed, and a compensated binding or inspection step has no device bound or inspection dispatched |
| SagaUndo.BillStaysDraftExactly | internal/service/deployment_service.go:298-304 | in every run, voiding leaves a draft bill behind exactly when the bill is a draft whose row was rewritten since it was read |
| SagaCommits.VersionImpliesContents | internal/store/deployment_repo.go:101-129 | in every run two states of an order with the same version have the same contents |
| SagaCommits.ClaimAtCommit | internal/service/deployment_service.go:105-107 | in every run Provision and Compensate claim the order exactly when nobody wrote it since they read it, and otherwise write nothing |
| SagaCommits.LinkAtCommit | internal/service/deployment_service.go:130-138 | in every run the trial step commits trial, link and mark together exactly when nobody wrote the order since the call reloaded it, and otherwise fails |
| SagaCommits.LastUpdateAtCommit | internal/service/deployment_service.go:139-157 | in every run the order goes active, back to waiting or aborted exactly when it has the version reloaded for that update; Compensate answers no error either way |
| SagaMachine.NextKeeps | internal/service/deployment_service.go:90-316 | every commit, crash and outside write keeps the invariant of rows and snapshots |
| SagaCalm.CalmNextKeeps | internal/service/deployment_service.go:90-316 | every move of a crash-free sequential run keeps the steps in order |
| SagaService.AloneIsARun | internal/service/deployment_service.go:90-316 | a lone call is a run of the machine |
| SagaService.CallsStayCalm | internal/service/deployment_service.go:90-316 | calls made one after another form a crash-free sequential run |
| SagaService.Store.constructor | internal/store/deployment_repo.go:20-65 | a new order is a draft with five pending steps |
| SagaService.Store.UpdateStatus | internal/store/deployment_repo.go:101-104 | moves the order under status and version guards |
| SagaService.Store.LinkTrial | internal/store/deployment_repo.go:120-123 | links the trial under the version guard |
| SagaService.Store.BumpRetry | internal/store/deployment_repo.go:126-129 | counts a retry without a version guard |
| SagaService.Store.MarkProcessing | internal/store/deployment_repo.go:192-196 | claims a pending or failed step of that version only |
| SagaService.Store.Mark | internal/store/deployment_repo.go:199-214 | marks a step done, failed or compensated under the version guard alone |
| SagaService.Store.CancelInspections | internal/store/trial_inspection_repo.go:159-166 | cancels exactly the dispatched inspections |
| SagaService.Store.UpdateBillStatus | internal/store/reconciliation_repo.go:59-62 | moves the bill under status and version guards |
| SagaService.Store.UnbindAllDevices | internal/store/deployment_repo.go:244-250 | removes every binding |
| SagaService.Service.RunEffect | internal/service/deployment_service.go:165-242 | a step's effect, skipped when it is there already |
| SagaService.Service.RunStep | internal/service/deployment_service.go:130-138 | effect and done mark commit together or not at all |
| SagaService.Service.Provision | internal/service/deployment_service.go:90-162 | from call to return, for any order of five steps: an active one is left alone, one being or having been compensated is refused; any other goes active with each pending or failed step done after one more attempt and its effect there once, unless one of them cannot succeed: then the first such step is failed, the ones before it done, the later ones as they were, and the order waits with one more retry; commit by commit the call the run theorems are about |
| ProvisionCalls.StepRuns | internal/service/deployment_service.go:124-242 | a claimed step fails exactly when its references do not check out or it binds an order without devices, and otherwise commits its effect and done mark |
| ProvisionCalls.StopsThere | internal/service/deployment_service.go:139-149 | giving up marks that step failed, counts the retry and leaves everything else of the walk |
| SagaService.Service.Compensate | internal/service/deployment_service.go:246-293 | leaves an aborted order alone, refuses a draft, otherwise undoes the done steps last first and aborts the order, commit by commit the call the run theorems are about |
| SagaService.Service.VoidBill | internal/service/deployment_service.go:298-304 | voids the first-period bill only while it is a draft |
| SagaRecovery.ProvisionSettles | internal/service/deployment_service.go:90-162 | an uninterrupted Provision leaves the order active and says so, or waiting for a retry and says so |
| SagaRecovery.Recover | internal/scheduler/recoverer.go:28-49 | provisions every interrupted order whatever fails, leaves the others alone, and reports no error exactly when all came up |

## Left out

- HTTP routing, JSON, middleware, logging, configuration parsing and the other opsctl commands: plumbing around the modelled calls.
- SQL text, the driver, row scanning and schema: tables are maps, each statement one guarded update, UNIQUE and foreign keys are checked where an insert can violate them.
- Audit rows, last_error, created_at, updated_at, accepted_at, notes, sources and reasons: no guard reads them.
- Trailing re-reads that only build a response: they change no table.
- Driver failures: modelled for the batch listing, inside the batch transaction and for saga steps; elsewhere a failing driver is a call that stops.
- Registry writes (customers, devices, persons, orders): moves of the surroundings in the sync machine; in the saga a missing or foreign reference is a step that fails.
- Row order within one listing: any order is allowed where the query leaves ties or the proof does not need it, except in the pull and paging queries.
- Uuids are numbers and may collide, a collision is an insert error; empty ids are None.
- Dates of records and work hours are day numbers in the sync tables and texts in the period diff.
- SumAcceptedHours and bill amounts: the sum is a floating-point cast in SQL, so exact totals would not be faithful; only a bill's status and version are kept.
- Retry liveness: a released batch is not counted as retried, so no progress is claimed beyond what the poller theorems say.
- Dead-letter rows and requeueing: they touch no modelled table.
- Poller ticks: the two listings of one tick only choose which batches `Poller.Poller.ProcessOne` sees.
- Listing of interrupted orders and lease reclaim in recovery: `SagaRecovery.Recover` walks all known orders, reclaiming is a move of the sync machine.
- TrialService.Service.Convert: the handling mode after a race with an escalation is not claimed.
- MarkProcessing and AcquireLease re-read their row in a second statement: the lease re-read is a step of its own, the saga's is not, since one saga call at a time writes the steps.
- Two saga calls on one order at the same time: the saga results are about one call at a time on an order, with crashes and outside writes in between.
