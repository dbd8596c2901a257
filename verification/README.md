# LineageGuard: verified model

LineageGuard plans a database migration, opens a GitHub review for it and records the decision
in DataHub. This project models the parts of it whose correctness is not visible in any single
function, and proves what they promise together.

**The run store** (`RunLog`, `StoreModel` … `StoreGuarantees`, `RunStore`). Several workers claim
leases on runs, move them through a fixed status graph, append to an event log and perform two
external effects, each only after validation, approval, intent, reservation and consumption.
`RunLog` is the event gate: the loop that replays a stream and the lease, fencing and status rules
it enforces. `StoreModel` holds all tables as they stand after migration 0005. `StoreSteps` states
every store method, with the procedures, unique indexes and triggers behind it, as one atomic step
that commits or rolls back. `StoreInvariant` is the joint invariant over runs, logs, validations,
approvals, intents, reservations, attempts, receipts and reconciliations; `StoreRunMethods`,
`StoreEffectMethods` and `StoreOutcomes` show that each step keeps it; `StoreTheorems` lifts that to
every interleaving, together with how rows may evolve; `StoreGuarantees`, `StoreWindows` and
`StoreCallers` state what callers get over any number of later calls, `StoreResults` what one
committed call shows, and `StoreRecovery` when a run can be taken over and when it never can, with an
example in `StoreWitness`. `StoreConditions` and `StoreEffectConditions` give for each call the exact
condition under which it succeeds in a reachable state, in the columns of the rows, and what it then
writes; `StoreReservations` shows what old reservations still say, and `StoreCompletion` that the
store gets through to COMPLETED. `RunStore` is the object itself: methods that update the database statement
by statement, each proved to commit exactly its step or to roll back, to keep the tables sound and to
give its caller what it can build the next call on. Like its source counterpart, which holds a
connection pool and no tables, it has one field: the database it is a transaction over.

**The DataHub write-back** (`WritebackModel`, `WritebackSafety`, `Writeback`). Two writes, a document
and then a tag, against a remote that may apply, delay, repeat or lose them, with other writers and
editors acting at every call, and crashes anywhere. `Surroundings` is everything the port does not
control, and has a weather: in a storm anything fails, otherwise nothing does except one chosen send.
`Port.Write` follows the source's control flow.

**Exact reconciliation** (`TreeDelta`, `GitHubReconciler`). Which existing branch counts as the GitHub
effect having happened: reading two tree listings, comparing them, comparing bytes; over Git trees
whose directory hashes depend on everything below them, and what publishing leaves on an honest server.

**Migration candidates** (`Text`, `MigrationCandidate`, `MigrationBinding`). The refinement that accepts
a candidate, and the binder that ties it to ownership and risk evidence.

**Pagination** (`Pagination`). The bounded collector and the four paged tools that feed it, against a
server that may answer anything.

**Canonical JSON** (`CanonicalJson`, `CanonicalJsonProofs`). The printer under GitHub fingerprints, a
parser that undoes it, and what printing alike means.

**Impact consumers** (`ImpactConsumers`, `CompleteContext`). The four derivation loops, and why a
complete context always shows exactly four groups.

Where the sources' statements and their code differ, the code is followed. Two promises do not hold as they
are stated.

*A schema-field listing has its declared length.* A page may return more fields than its total leaves room for:
three declared, five returned, nothing remaining, the wanted field once among them. `Pagination.CollectOverrun`
is that call, and it succeeds. Over the answers of any server, a collected listing has exactly the declared
length if and only if the last answer stays inside the total, `offset + returned <= totalFields`
(`Pagination.ExactIffInside`); with that refinement in the page schema, exactly the listings of the declared
length would be collected (`Pagination.RefinementIsExact`).

*An expired lease can be reclaimed* (docs/specs/2026-08-04-durable-run-store.md:37). In every reachable state, a
claim with fresh ids succeeds if and only if the run is due, no invocation is outstanding, and its log has room
under the cap of three hundred events: for the acquisition, and before it for the end of a lapsed lease
(`StoreRecovery.ClaimSucceedsIff`). The promise fails for good in two ways.

- An attempt awaits reconciliation when its run's lease lapses. A reconciliation needs the live lease that the
  unresolved attempt keeps anyone from taking, so nothing any worker does afterwards claims the run, moves it or
  settles the attempt (`StoreRecovery.StuckForever`). Every recorded ambiguity gets there if no reconciliation
  comes before the lease ends (`StoreRecovery.AmbiguityLapses`); `StoreWitness.ExpiredNeverReclaimed` is such a run,
  call by call from the empty database.
- The log has no room when the lease lapses. No later call claims or changes the run
  (`StoreRecovery.OutOfRoomForever`), and a full log freezes status, lease and generation even before that
  (`StoreRecovery.FullLogFreezes`). Renewals alone get there: `StoreWitness.RenewedNeverReclaimed` is one claim and 298
  renewals.

In either case, while the run sorts first among the due ones, no worker can claim any other
(`StoreRecovery.BlockedHeadStopsAll`).

Conventions: a fingerprint, content id or object hash is the value it is taken of, so hashing is
injective. Signature checks are decider functions in the store's configuration. Fresh ids, tokens,
fences and nonces are arguments. Inside one store call the database clock reads one time.

## Model

| member | source | states |
|---|---|---|
| `RunLog.CheckStream` | packages/domain/src/run.ts:203-317 | the refinement's loop accepts exactly the streams that replay without an issue, and ends with that replay's bookkeeping |
| `RunLog.FoldPrefix` | packages/domain/src/run.ts:203-317 | every prefix of an accepted stream is accepted |
| `RunLog.ReplayIsCursor` | packages/domain/src/run.ts:203-317 | applying the events with no checks at all gives the same status, lease and generation as the checked replay |
| `RunLog.StatusChangesBounded` | packages/domain/src/run.ts:36-83 | an accepted stream changes status at most twelve times, and a change to a terminal status is its last event |
| `RunLog.EdgesByRank` | packages/domain/src/run.ts:36-83 | the status graph is one step up in rank, the failure of the stage one is in, or a cancellation |
| `RunLog.TenuresHold` | packages/domain/src/run.ts:236-317 | leases of successive generations never overlap in time, and the last one ends where the active lease does |
| `RunLog.GenerationsNeverFall` | packages/domain/src/run.ts:246-262 | no event carries a generation older than one before it |
| `RunLog.EventsInsideTenure` | packages/domain/src/run.ts:230-317 | every event but an acquisition or an expiry lies inside the tenure of the lease it names |
| `StoreTheorems.StepKeepsInv` | packages/db/src/store.ts:654-2401 | every store method, success or failure, keeps the joint invariant of all tables |
| `StoreTheorems.StepEvolves` | packages/db/src/migrations.ts:106-198 | no method takes back a row: logs, validations, candidates and records only grow, versions, generations and ranks never fall, spent reservations and receipts stay |
| `StoreTheorems.RunHolds` | packages/db/src/store.ts:654-2401 | invariant and evolution over every interleaving of any workers' calls |
| `StoreRunMethods.TransitionIsRunStep` | packages/db/src/store.ts:1245-1312 | a committed transition follows a domain edge with the lease and evidence it needs, although the procedure alone would let CANCELLED follow anything |
| `StoreRunMethods.EveryReceiptIsBound` | packages/db/src/migrations.ts:951-1022 | the joins of the method's and the trigger's completion checks select the same receipts: every receipt of that run and kind |
| `StoreEffectMethods.FirstAttempt` | packages/db/src/migrations.ts:1685-1753 | a reservation that can still be consumed belongs to an intent without attempt or receipt, so its attempt is number one |
| `StoreOutcomes.OpenAttemptPinned` | packages/db/src/migrations.ts:1797-1822 | an attempt that has not succeeded and is not proved NOT_APPLIED holds its run in the effect's status under the consuming lease |
| `StoreGuarantees.CompletedRunIsBound` | packages/db/src/migrations.ts:951-1022 | a COMPLETED run has exactly one receipt of each kind, both bound to its latest validation, that validation's candidate and its artifact set |
| `StoreGuarantees.CompletionIsFinal` | packages/db/src/migrations.ts:1824-1844 | no later call of any worker changes that run, its log, its validations or those two receipts |
| `StoreGuarantees.AuthoritySpentOnce` | packages/db/src/migrations.ts:1428-1460 | at most one reservation of a kind, target and key is ever consumed |
| `StoreGuarantees.AttemptBelongsToConsumption` | packages/db/src/migrations.ts:1781-1795 | every attempt for that intent is the one its consumed reservation opened, number one |
| `StoreGuarantees.SpentOrCancelledForever` | packages/db/src/migrations.ts:1755-1780 | a consumed or cancelled reservation never changes again, so a cancelled one is never consumed |
| `StoreGuarantees.PinnedUntilResolved` | packages/db/src/migrations.ts:1797-1822 | from consumption until a receipt or a NOT_APPLIED proof, the run keeps the status, lease, worker and generation that the reservation stored |
| `StoreGuarantees.ReceiptsRecordedInPlace` | packages/db/src/store.ts:2189-2401 | only a recorded success or a reconciliation adds a receipt, and then the run stands in the status its kind requires under the identity that consumed it |
| `StoreGuarantees.OutcomesExclusive` | packages/db/src/migrations.ts:410-429 | an attempt is SUCCEEDED exactly when its intent has a receipt, its state never moves back, proofs never change, and after NOT_APPLIED no receipt ever appears |
| `StoreGuarantees.ReplayOwnsNothing` | packages/db/src/migrations.ts:733-760 | a VERIFIED_REPLAY run never owns a validation, approval, intent, reservation, attempt or receipt and never reaches VALIDATED or what follows it |
| `StoreGuarantees.ReplayRebuildsRow` | packages/db/src/store.ts:991-1014 | replaying the log from CREATED rebuilds the row's status, lease, worker, expiry and generation; sequences count from zero |
| `StoreGuarantees.LeasesExclude` | packages/db/src/store.ts:1098-1243 | in database time the leases of one run never overlap, and the row's lease is the last of them |
| `StoreGuarantees.SignedPrefixRecovered` | packages/db/src/store.ts:1372-1388 | the prefix a stored validation signed is found, exactly, in every later log of the run |
| `StoreGuarantees.SpentGuardRefused` | packages/db/src/store.ts:1072-1096 | a guard under which some call raised the version is refused by every later call, whatever happened in between |
| `StoreGuarantees.SupersededGenerationRefused` | packages/db/src/store.ts:1072-1096 | once a run has a newer generation, no call that names an older one acts on it again |
| `StoreCallers.SupersededAuthorityRefused` | packages/db/src/store.ts:2189-2310 | and calls that name only a reservation or an attempt fare no better: a reservation of an older generation is never consumed, and its attempt never gains an outcome |
| `StoreGuarantees.OnlyClaimsRaiseGeneration` | packages/db/src/store.ts:1137-1171 | a claim raises the generation by one and nothing else changes it |
| `StoreGuarantees.TerminalIsAbsorbing` | packages/db/src/migrations.ts:439-482 | a terminal run has no lease and its row and log never change again |
| `StoreGuarantees.StatusRankRises` | packages/db/src/migrations.ts:439-452 | along any run of calls a status stays or its rank rises, up to twelve |
| `StoreWindows.ReserveSnapshots` | packages/db/src/store.ts:733-760 | a reservation stores the run as it stands and ends no later than thirty seconds, the lease and the approval |
| `StoreWindows.NothingMovedSinceReservation` | packages/db/src/migrations.ts:1685-1724 | whatever happens in between, a consumption succeeds only if the run's row, log and validations are those of its reservation, inside the window and the lease |
| `StoreWindows.StepWaits` | packages/db/src/store.ts:1104-1112 | no call touches a run that has no lease and is not due |
| `StoreWindows.RetryWaits` | packages/db/src/store.ts:1576-1665 | a run given back for a retry is not claimed before its 1, 5 or 30 seconds are over |
| `StoreConditions.CreatedRunWaits` | packages/db/src/store.ts:934-981 | a run is not claimed before the time it was created for |
| `StoreConditions.CreateIff` | packages/db/src/store.ts:934-981 | a new key makes exactly one row, a used one finds its run when input and mode are the same and conflicts otherwise |
| `StoreConditions.FirstDueIff` | packages/db/src/store.ts:1104-1112 | the claim query hands out the free run whose next attempt is earliest, then the oldest, then the one with the smallest id |
| `StoreRecovery.ClaimSucceedsIff` | packages/db/src/store.ts:1098-1171 | in every reachable state a claim with valid arguments and fresh ids succeeds exactly when its run is due, no invocation is outstanding and the log has room for the events of a claim |
| `StoreConditions.ClaimCommitsIff` | packages/db/src/store.ts:1098-1171 | the same over the rows alone: the time has come, the status is not final, no lease is live, no sent or sendable effect is open, and one or two places are left in the log |
| `StoreConditions.ClaimWrites` | packages/db/src/store.ts:1113-1171 | a claim writes the end of a lapsed lease, the acquisition, the row of the lease and the run with one generation and one version more, and nothing else |
| `StoreConditions.TransitionIff` | packages/db/src/store.ts:1245-1312 | a transition commits if and only if the event comes next under the live lease and version, its id is new, no effect is open, the edge starts at the run's status, and the evidence stands: the last validation is good for the last candidate, executed under this lease for VALIDATED, and the LIVE run has exactly one GitHub receipt for REVIEW_ARTIFACT_CREATED and one of each kind for COMPLETED; it then writes exactly the new row and the event |
| `StoreConditions.ActiveIff` | packages/db/src/migrations.ts:1797-1822 | an invocation is outstanding exactly when a reservation may still be sent or its attempt has neither succeeded nor a NOT_APPLIED proof |
| `StoreConditions.RenewIff` | packages/db/src/store.ts:1173-1213 | a renewal commits exactly under the live guard, with a new id and room for its event, even while an effect is open; it prolongs the lease and writes nothing else |
| `StoreConditions.ReleaseIff` | packages/db/src/store.ts:1215-1243 | a release commits exactly under the live guard, with a new id, room for its event and no effect open |
| `StoreConditions.RetryIff` | packages/db/src/store.ts:1576-1665 | a retry is scheduled exactly as the next of its operation, at most the third, after 1, 5 or 30 seconds, in a status of that operation, with two new ids, room for two events and no effect open |
| `StoreConditions.RetryWrites` | packages/db/src/store.ts:1576-1665 | it writes the retry row, its event and the release, and the run without a lease until the given time |
| `StoreConditions.AppendRecordIff` | packages/db/src/store.ts:1667-1702 | a record is appended exactly under the live guard, a collection result in the run's mode and a decision of a scope not yet decided |
| `StoreConditions.AppendCandidateIff` | packages/db/src/store.ts:1768-1776 | a candidate is appended exactly under the live guard while there are fewer than twenty |
| `StoreConditions.IssueIff` | packages/db/src/store.ts:1812-1882 | a validation is stored exactly when the live lease holder of a LIVE run in VALIDATING validated the whole log and the last candidate, the decider takes it, and it is new and at most the twentieth |
| `StoreRecovery.OutOfRoomForever` | packages/domain/src/run.ts:199-202 | a run without a live lease and without that room is never claimed or changed by any later call |
| `StoreRecovery.FullLogFreezes` | packages/domain/src/run.ts:199-202 | once a log is full, the run keeps its log, status, lease and generation in every later state and can never be claimed, even under a live lease |
| `StoreRecovery.StuckForever` | packages/db/src/migrations.ts:1797-1822 | once the lease of a run lapses under an attempt that awaits reconciliation, no later call of any worker claims or changes the run or settles the attempt |
| `StoreRecovery.BlockedHeadStopsAll` | packages/db/src/store.ts:1104-1112 | while the run that the claim query orders first cannot be claimed, for whichever of these reasons, every claim fails, whatever else is due |
| `StoreRecovery.AmbiguityLapses` | packages/db/src/store.ts:2271-2310 | every recorded ambiguity ends there if the leases run out before it is reconciled |
| `StoreWitness.ExpiredNeverReclaimed` | docs/specs/2026-08-04-durable-run-store.md:37 | from the empty database eighteen calls, a pause before the approval and a minute's wait lead to a due run with an expired lease that no later call ever reclaims |
| `StoreWitness.RenewedNeverReclaimed` | packages/db/src/store.ts:1173-1213 | one claim, 298 renewals and a wait lead to a due run without any invocation that no later call ever reclaims |
| `StoreCompletion.SomeRunCompletes` | packages/db/src/store.ts:1245-1312 | from the empty database a run of calls goes through validation and both effects to COMPLETED |
| `StoreCompletion.SomeProofCompletes` | packages/db/src/store.ts:2312-2401 | another gets there although the outcome of its first effect was ambiguous and had to be proved APPLIED |
| `StoreCallers.GuardIsTheLogsLease` | packages/db/src/store.ts:1072-1096 | a guard that locks a run names the live lease, worker and generation that replaying the run's log from CREATED ends with |
| `StoreCallers.RequestKeyDecidesOnce` | packages/db/src/store.ts:934-981 | after a request key was used, in every later state the same input finds that run and changes nothing, and any other input or mode is refused |
| `StoreCallers.AppendedStays` | packages/db/src/store.ts:1667-1702 | whatever is appended as a record or a candidate keeps its position in every later state |
| `StoreCallers.DecidedOnce` | packages/db/src/migrations.ts:128-136 | in the life of a run each scope is decided at most once |
| `StoreCallers.VerifyPredictsConsume` | packages/db/src/migrations.ts:1631-1753 | for an unspent reservation, verification answers exactly when consuming it with fresh ids would succeed |
| `StoreCallers.SpentVerifiesForever` | packages/db/src/migrations.ts:1631-1684 | a spent reservation answers its claim unchanged in every later state, so an interrupted worker can resume |
| `StoreCallers.CancelledIsDead` | packages/db/src/migrations.ts:1755-1780 | after a cancellation no consumption of that reservation ever succeeds |
| `StoreCallers.ReservedOnce` | packages/db/src/migrations.ts:1458-1460 | in every later state a second reservation for the same intent succeeds only if the first was cancelled |
| `StoreReservations.ReservedInTime` | packages/db/src/store.ts:1940-1960 | the approval behind every reservation was given no earlier than its validation was completed, stored no earlier than given, and for at most an hour from then |
| `StoreReservations.ReachableHolds` | packages/db/src/migrations.ts:1685-1724 | in every reachable state a reservation whose run still has the reserved version describes that run, its log, its validation and its approval as they are, and no attempt carries a time to come |
| `StoreEffectConditions.RequireIff` | packages/db/src/store.ts:581-636 | the current approval is the newest unexpired one of the request, by creation and then by id, if the decider takes it |
| `StoreEffectConditions.ApprovalIff` | packages/db/src/store.ts:1903-2043 | an approval is taken exactly under the live guard of a LIVE run in the status of its kind whose validation stands, given between the validation's completion and now, for at most an hour, and newest of its request; a new one is all that is added, an equal one changes nothing |
| `StoreEffectConditions.BeginIff` | packages/db/src/store.ts:2045-2147 | an intent is begun exactly under the live lease that was validated, in production with a granted approval, and with a key that is new or belongs to an equal intent; it states both outcomes in full |
| `StoreEffectConditions.ReserveIff` | packages/db/src/store.ts:654-829 | a reservation is made exactly for a begun intent over the last validation of a live run with a granted approval, under new ids and with no other reservation of the intent left uncancelled |
| `StoreEffectConditions.VerifyIff` | packages/db/src/migrations.ts:1631-1684 | verification answers exactly a claim that repeats the stored reservation, and while that is unspent only until the run's version or the deadline has passed |
| `StoreEffectConditions.ConsumeIff` | packages/db/src/migrations.ts:1685-1753 | in a reachable state consumption succeeds exactly for such a claim, unspent, while the run has the reserved version and the deadline has not passed, under new ids |
| `StoreEffectConditions.CancelIff` | packages/db/src/migrations.ts:1755-1780 | a cancellation succeeds exactly for such a claim of an unspent reservation |
| `StoreEffectConditions.SuccessIff` | packages/db/src/store.ts:2189-2269 | a success is recorded exactly by the attempt's worker and fence, with the intent's own fields over a validation that stands, while the attempt is open, or again with the stored receipt; it writes exactly the receipt and the attempt |
| `StoreEffectConditions.AmbiguousIff` | packages/db/src/store.ts:2271-2310 | an ambiguity is recorded exactly by the attempt's worker and fence while it is open and its intent has fewer than a hundred failures; it writes exactly the failure and the attempt |
| `StoreEffectConditions.FailureStays` | packages/db/src/store.ts:2271-2310 | a recorded failure keeps its place among those of its intent in every later state |
| `StoreEffectConditions.ReconcileIff` | packages/db/src/store.ts:2312-2401 | a reconciliation is taken exactly for an attempt that awaits one, under the live guard of its intent's run and by its own worker and fence, with a proof that is new or the stored NOT_APPLIED one, and for APPLIED with the intent's own fields over a validation that stands; it writes exactly the proof, and for APPLIED the receipt and the attempt |
| `RunStore.RunStore.FindSignedPrefix` | packages/db/src/store.ts:1372-1388 | the search finds the first nonempty prefix that equals the signed one |
| `RunStore.SignedPrefixMeaning` | packages/db/src/store.ts:1372-1388 | that search succeeds exactly when the signed events are a nonempty prefix of the log, and returns their number |
| `RunStore.RunStore.RequireCurrentApproval` | packages/db/src/store.ts:581-636 | the loop finds the one newest unexpired approval that the query orders first, or reports that there is none or that it does not verify |
| `RunStore.RunStore.NextAttempt` | packages/db/src/migrations.ts:1725-1753 | the loop computes one more than the largest attempt number |
| `RunStore.RunStore.CheckPrerequisites` | packages/db/src/store.ts:1483-1574 | the evidence checks before a transition, with the loops inside them, decide exactly the step's prerequisites and report the same error; `StoreConditions.TransitionIff` says when they pass |
| `RunStore.RunStore.FindDue` | packages/db/src/store.ts:1104-1112 | the loop finds the due row that its ordering puts first among those no other transaction holds, or there is none |
| `RunStore.RunStore.ClaimDue` | packages/db/src/store.ts:1098-1171 | claims the first due row that is free and hands out a guard that locks it, or finds none due, or fails with that row's error and claims nothing; with valid arguments and fresh ids it succeeds exactly when that row is claimable, and never when it is not; the tables stay sound |
| `RunStore.RunStore.RenewLease` | packages/db/src/store.ts:1173-1213 | row and event together, or none; the lease lasts at least its new duration longer and the next guard locks the run |
| `RunStore.RunStore.ReleaseLease` | packages/db/src/store.ts:1215-1243 | row and event together, or none; the run is left without a lease |
| `RunStore.RunStore.Transition` | packages/db/src/store.ts:1245-1312 | row and event together after every check, or none; the status moved along an edge of the graph and the log ends with the event |
| `RunStore.RunStore.ScheduleRetry` | packages/db/src/store.ts:1576-1665 | retry row, both events and run row together, or none; the run is free and not due before the delay of its attempt |
| `RunStore.RunStore.IssueAndStoreValidationReceipt` | packages/db/src/store.ts:1812-1882 | stores a verified receipt over exactly the whole log and the latest candidate under the unchanged claim, and it is then the latest one; or nothing |
| `RunStore.RunStore.RecordEffectApproval` | packages/db/src/store.ts:1903-2043 | stores an approval or finds an identical one, and what it returns is the current approval of its request, over the latest validation; or nothing |
| `RunStore.RunStore.BeginEffect` | packages/db/src/store.ts:2045-2147 | returns the one intent of its kind, target and key, which is this request's over the latest validation: new, or an equal one reused; a different one is refused |
| `RunStore.RunStore.ReserveCurrentEffect` | packages/db/src/store.ts:654-829 | returns a reservation that stores the exact current state until the earliest of thirty seconds, lease expiry and approval expiry, or nothing |
| `RunStore.RunStore.ConsumeCurrentEffect` | packages/db/src/migrations.ts:1685-1753 | spends the reservation and opens attempt number one until its deadline together, or neither; the run is then pinned as the reservation stored it |
| `RunStore.RunStore.RecordEffectSuccess` | packages/db/src/store.ts:2189-2269 | receipt and attempt state together, a repeated equal receipt accepted, otherwise nothing; afterwards the intent's receipt is the caller's |
| `RunStore.RunStore.RecordEffectAmbiguous` | packages/db/src/store.ts:2271-2310 | failure and attempt state together, or nothing; the failure is then the last of its intent |
| `RunStore.RunStore.ReconcileEffectAttempt` | packages/db/src/store.ts:2312-2401 | proof, and for APPLIED receipt and attempt state, together or not at all; afterwards the reservation is unresolved no longer |
| `RunStore.RunStore.Perform` | packages/db/src/store.ts:654-2401 | any method on sound tables leaves them sound, commits exactly its step or nothing, and only moves rows forward |
| `WritebackModel.ProofIsExact` | packages/datahub/src/writeback.ts:410-425 | a read proves the document exactly when the remote holds the derived one, refuses any other under its id, and proves the tag exactly when it is there |
| `WritebackModel.ObserveIff` | packages/datahub/src/writeback.ts:382-425 | a read is accepted exactly when it shows the canonical dataset with the request's metadata, tag definition and, before the write, version, at most two hundred distinct tags, and under the request's id no visible document but its own |
| `WritebackModel.TagsPreservedIffReviewed` | packages/datahub/src/writeback.ts:443-446 | given equal metadata fingerprints, the tags were preserved exactly when Reviewed is present |
| `WritebackModel.SucceededIffHeld` | packages/datahub/src/writeback.ts:427-497 | a receipt says SUCCEEDED exactly when its last read held the document and the tag; then the tags are the prior ones plus Reviewed |
| `WritebackModel.DocumentShows` | packages/datahub/src/writeback.ts:683-731 | an undisturbed save shows in the next read and changes nothing else that is read |
| `WritebackModel.TagShows` | packages/datahub/src/writeback.ts:864-877 | an undisturbed tag shows in the next read exactly when the entity had fewer than two hundred tags |
| `WritebackSafety.ReviewedHasItsDocument` | packages/datahub/src/writeback.ts:590-774 | wherever Reviewed stands, the remote holds exactly the decision document of a request whose save was sent |
| `WritebackSafety.ReviewedHasTheDocument` | packages/datahub/src/writeback.ts:590-774 | when all writes are for one request, it is that request's document |
| `WritebackSafety.ExpiredClaimsAreSilent` | packages/datahub/src/writeback.ts:507-524 | once a claim's deadline has passed, no call and no other writer ever sends anything under it |
| `WritebackSafety.DeliveryMoves` | packages/datahub/src/writeback.ts:683-757 | a delivery that is late, repeated or out of order keeps both |
| `Writeback.Surroundings.Consume` | packages/datahub/src/writeback.ts:654-676 | a consumption may take effect and still be reported as failed; an answer means the row is consumed for this request |
| `Writeback.Port.SendInTime` | packages/datahub/src/writeback.ts:683-688 | nothing is sent once the deadline has passed |
| `Writeback.Port.EnsureDocument` | packages/datahub/src/writeback.ts:683-711 | at most one save, none when the document is there; an answered save leads on, a final refusal is what the call throws, and after a lost answer the next read decides: on if the document is there, else an ambiguous receipt |
| `Writeback.Port.EnsureTag` | packages/datahub/src/writeback.ts:733-774 | at most one tag, only for a document that is there; whatever comes back, one more read decides the receipt |
| `Writeback.Port.WriteTag` | packages/datahub/src/writeback.ts:713-774 | reads what the first write left and sends the tag only if the document is there; a lost tag ends in an ambiguous receipt, an applied one in SUCCEEDED or, at two hundred tags, in a drifted schema |
| `Writeback.Port.Write` | packages/datahub/src/writeback.ts:533-778 | under any failures, crashes and interference the remote stays safe, a final refusal of the save is what the call throws with no tag sent, the receipt counts the answered sends and is true of what the first and last reads found. While nothing else moves, a ready call ends in SUCCEEDED exactly when there was room for one more tag, also when the answer to an applied save or tag was lost; a save that was lost itself ends in an ambiguous receipt without a tag, a tag that was lost in one that shows the document; parts of the write that the claim cannot have made are a conflict, a consumed claim past its deadline sends nothing and gets an ambiguous receipt, and a repeated success sends nothing |
| `Writeback.Port.WriteAll` | packages/datahub/src/writeback.ts:590-774 | any number of calls from a clean remote, with anything in between and afterwards, never leave the tag without the exact document of a request whose save was sent, and send nothing under a claim that had expired before |
| `Writeback.Port.WriteTwice` | packages/datahub/src/writeback.ts:613-630 | a success followed by the same call succeeds again with no mutation |
| `TreeDelta.ReadTree` | apps/worker/src/github-effect-reconciler.ts:144-163 | accepts exactly complete, well-formed, duplicate-free listings, and returns the map they list |
| `TreeDelta.AssertExactTreeDelta` | apps/worker/src/github-effect-reconciler.ts:183-209 | accepts exactly when every changed path is an artifact or a directory above one and every artifact changed |
| `TreeDelta.AssertExactArtifactBytes` | apps/worker/src/github-effect-reconciler.ts:211-234 | accepts exactly when every artifact is a regular nonempty blob with its bytes |
| `TreeDelta.AcceptedTreesOverlay` | apps/worker/src/github-effect-reconciler.ts:165-234 | over Git trees, the head's files are then the base's with the artifacts laid over them |
| `TreeDelta.OverlayAccepted` | apps/worker/src/github-effect-reconciler.ts:169-181 | every genuine overlay in which each artifact changes is accepted: only directories above artifacts change with them |
| `TreeDelta.ExactIffOverlay` | apps/worker/src/github-effect-reconciler.ts:183-234 | the two checks together decide exactly those overlays |
| `GitHubReconciler.ReconcileGitHubEffect` | apps/worker/src/github-effect-reconciler.ts:272-300 | MISSING exactly without a head; every genuine publication is EXACT with its own url, number, head and base; and EXACT says, field by field, that the head has this one parent, the target is it or ahead of it, both listings are whole, and the one open pull request is a draft with these refs, hashes and repositories |
| `GitHubReconciler.PublishedStands` | apps/worker/src/github-effect-reconciler.ts:169-270 | what publishing leaves on an honest server, whichever way its listings are ordered, is accepted |
| `GitHubReconciler.StandsIff` | apps/worker/src/github-effect-reconciler.ts:102-270 | the method's tests on parents, comparison, listings and pull request come down to exactly those fields |
| `GitHubReconciler.ExactIsPublished` | apps/worker/src/github-effect-reconciler.ts:272-300 | against an honest server, EXACT means a genuine publication: the head's files are its own parent's with the artifacts laid over them |
| `MigrationCandidate.CheckPhases` | packages/domain/src/migration.ts:141-154 | the index test accepts exactly EXPAND+ MIGRATE+ CONTRACT+ |
| `MigrationCandidate.CheckStrictlySorted` | packages/domain/src/migration.ts:163-167 | the set-size and sorted-copy tests accept exactly duplicate-free sorted lists |
| `MigrationCandidate.SameEvidence` | packages/domain/src/migration.ts:174-183 | comparing serialized sorted sets is set equality |
| `MigrationCandidate.CheckRoles` | packages/domain/src/migration.ts:242-264 | the count map accepts exactly one rollback, one document and at least one of each other role |
| `MigrationCandidate.CoverByCounts` | packages/domain/src/migration.ts:265-293 | every path counted once, with no unknown target, makes the flattened targets a permutation of the artifact paths |
| `MigrationCandidate.CheckCover` | packages/domain/src/migration.ts:265-293 | the nested loops accept exactly fitting targets that cover the artifacts |
| `MigrationCandidate.CheckCandidate` | packages/domain/src/migration.ts:140-294 | the whole refinement accepts exactly the valid candidates |
| `MigrationCandidate.StepOrder` | packages/domain/src/migration.ts:118-122 | in step order all SQL and rollback artifacts precede all dbt artifacts, which precede the document |
| `MigrationBinding.CollectOwnerAssets` | packages/domain/src/migration.ts:334-340 | the map gives every owner exactly his assets in evidence order, and has no other owner |
| `MigrationBinding.AgreedOwnersAreAll` | packages/domain/src/migration.ts:341-352 | unique keys, equal counts and matching nonempty lists leave no owner out |
| `MigrationBinding.AgreeIffCovered` | packages/domain/src/migration.ts:341-352 | the reviewer-by-reviewer comparison holds exactly when the flattened (owner, asset) pairs equal the evidence pairs as multisets and each list is sorted |
| `MigrationBinding.CheckEscalations` | packages/domain/src/migration.ts:353-374 | accepts exactly when every LG005 asset is critical and the escalations are the same multiset |
| `MigrationBinding.BindMigrationCandidate` | packages/domain/src/migration.ts:302-383 | returns the candidate exactly when it is valid and bound in every respect |
| `Pagination.CollectBoundedPages` | packages/datahub/src/pagination.ts:14-72 | succeeds exactly when the server's answers make a whole listing of at most four pages, and then returns that listing with every page as it was answered; the first answer that is not taken decides the error: the server's own, a malformed page, one that starts elsewhere or leads on without an item, one that contradicts an earlier page, or one that exceeds a limit, as four pages that lead on do; an honest list is returned whole when it has at most two hundred items and exceeds the limit otherwise |
| `Pagination.RefusedHere` | packages/datahub/src/pagination.ts:24-64 | at most one answer is refused, and no later answer is looked at |
| `Pagination.CompleteReachesTotal` | packages/datahub/src/pagination.ts:14-72 | such a listing has at most two hundred items, its pages start where the last ended, and it reaches its declared total, exactly so except for schema fields |
| `Pagination.ExactIffInside` | packages/datahub/src/official-contract.ts:75-80 | it has exactly the declared length if and only if its last answer stays inside the total |
| `Pagination.RefinementIsExact` | packages/datahub/src/official-contract.ts:75-80 | with that test added to the page schema, exactly the listings of the declared length are collected and no others are lost |
| `Pagination.PageSource.Fetch` | packages/datahub/src/canonical-reader.ts:289-323 | a page is taken exactly when it meets its schema, the requested offset and what earlier pages declared |
| `Pagination.PageSource.FetchFields` | packages/datahub/src/canonical-reader.ts:344-411 | the field page's own checks, the stable match count of one among them |
| `Pagination.PageSource.FetchLineage` | packages/datahub/src/canonical-reader.ts:436-521 | the lineage page's own checks: no truncation, an offset, a consistent continuation |
| `Pagination.CollectOverrun` | packages/datahub/src/canonical-reader.ts:333-411 | the schema-field tool succeeds, its field unique, on a listing of five for a declared total of three |
| `Pagination.CollectUnique` | packages/datahub/src/canonical-reader.ts:324-331 | over any server's answers, success means exactly that they make a whole listing in which every target stands once, each shown on the page returned for it; otherwise the first target that does not decides between NOT_FOUND and AMBIGUOUS |
| `CanonicalJsonProofs.StringRoundTrip` | packages/github/src/hash.ts:16-17 | every UTF-16 string, lone surrogates included, is read back from its quoted form |
| `CanonicalJsonProofs.EscapeSpelled` | packages/github/src/hash.ts:16-17 | a string prints unit by unit: two-character escapes, four hexadecimal digits for other controls and lone surrogates, everything else as it is |
| `CanonicalJsonProofs.PrintedText` | packages/github/src/hash.ts:15-23 | the code units of null, booleans, decimal numbers, quoted strings and bracketed lists |
| `CanonicalJsonProofs.PrintedObject` | packages/github/src/hash.ts:24-29 | an object prints its own members between braces, key colon value, by rising keys |
| `CanonicalJsonProofs.ValueRoundTrip` | packages/github/src/hash.ts:15-32 | every value printed in its own key order is read back, before any continuation |
| `CanonicalJsonProofs.ParsePrint` | packages/github/src/hash.ts:15-32 | parsing the canonical text gives the value with its keys sorted at every depth |
| `CanonicalJsonProofs.PrintRoundTrip` | packages/github/src/hash.ts:15-32 | what is parsed back means what was printed |
| `CanonicalJsonProofs.PrintInjective` | packages/github/src/hash.ts:24-29 | two values print alike exactly when their sorted forms are equal |
| `CanonicalJsonProofs.PrintsAlikeIffMeansAlike` | packages/github/src/hash.ts:24-29 | two values print alike exactly when they mean the same with objects as maps, so they differ in key order at most |
| `ImpactConsumers.DeriveImpactConsumers` | packages/domain/src/impact-consumer.ts:60-143 | the consumers are exactly the offers of the evidence that stay, kind after kind and in evidence order: an offer stays unless an earlier one has its URN or a model that stayed absorbs it; each shows what its evidence says, owners and path included, and everything the evidence calls for is shown or absorbed |
| `ImpactConsumers.FirstOfferStays` | packages/domain/src/impact-consumer.ts:74-140 | the offers that stay keep their order, and each is the first with its URN |
| `ImpactConsumers.DatasetNameMeaning` | packages/domain/src/impact-consumer.ts:150-154 | a data model's title is the group of the pattern where the pattern matches its URN, and the URN where it does not |
| `ImpactConsumers.AssertExactlyFourConsumers` | packages/domain/src/impact-consumer.ts:164-183 | accepts exactly four evidenced groups of the canonical kinds in order with distinct URNs |
| `CompleteContext.CompleteGivesFour` | packages/domain/src/evidence.ts:927-1032 | whatever the evidence order, a complete context yields exactly the four canonical groups, for any seven URNs whose texts fit |
| `CompleteContext.CanonicalNamesFit` | packages/domain/src/evidence.ts:9-33 | the canonical URNs are such texts: which of them name a dataset or a staging view, and that they differ |
| `CompleteContext.CheckComplete` | packages/domain/src/impact-consumer.ts:156-183 | derivation followed by the check never fails on a complete context |

## Left out

- Hashing, Ed25519, tokens and random ids: hashes are the values, signature checks are parameters, ids are arguments.
- The legacy upgrades inside migrations 0002 to 0005, role grants, checksums and pool handling: the store starts from an empty database after 0005.
- The validation-binding resolver: the persisted impact collection and the resolver callback behind `validationBinding` are folded into the validation decider, apart from the candidate and the signed event prefix.
- Payload codecs and byte limits of bundles, decisions, failures and proofs: they are opaque fingerprints, apart from a decision's scope and the mode of a collection result.
- RunStore.RunStore.ClaimDue: the rows that other transactions hold locked at that moment are an argument.
- StoreGuarantees.SupersededGenerationRefused: a cancellation names no generation and stays possible under an older reservation; consumption and outcomes are in `StoreCallers.SupersededAuthorityRefused`.
- RunStore.RunStore.ConsumeCurrentEffect: SQL errors of any constraint or trigger are one error.
- StoreRecovery.ClaimSucceedsIff: assumes that the random ids of a claim were never used before.
- Writeback.Port.Write: the document is its list of lines, an observation time is not kept, and control characters in the rollback path, which its schema already refuses, are not replaced.
- Writeback.Surroundings.Consume: the authority is its reservation rows; the run store's own checks behind it are modelled in `RunStore`, and may appear here as a refusal.
- Two runs that write the same decision document differ in its content, so the second is expected to conflict; no convergence is claimed.
- TreeDelta.AssertExactArtifactBytes: base64 and UTF-8 decoding of a blob are not modelled; a blob's hash names its text.
- MigrationBinding.BindMigrationCandidate: the risk assessment is an argument; packages/domain/src/risk.ts is not part of this model.
- Path patterns, URN texts and string lengths of the candidate schema: paths and URNs are plain strings, list lengths are kept.
- CanonicalJsonProofs.PrintRoundTrip: numbers are integers printed in decimal, so fractions and magnitudes that print with an exponent are not modelled; undefined values and functions, which the printer rejects, have no counterpart.
- CompleteContext.CompleteGivesFour: assumes only the conjuncts of the COMPLETE clause about paths, dashboards, models and queries, so it holds for every context that meets the whole clause.
- Strings are sequences of Unicode characters, sorted by their UTF-16 code units; a string with a lone surrogate appears only in `CanonicalJson`, whose texts are code units.
- The provenance, chronology and linkage refinements of the context schema outside its COMPLETE clause, and the invocation ids that page observations and errors carry: bookkeeping of who observed what when.
- HTTP, MCP stdio, Docker, GitHub publication, LLM planning, pipeline logging, the web UI and the `simple_runs` table: plumbing.
