# Durable execution core: verification project

A Dafny model of the durable execution core in `src/agentWork`, with proofs of what it is for. Worker processes race,
crash and lose leases; still they have to publish to GitHub at most once, keep one verdict per review, and stay within
hard budgets.

| files | what they model |
|---|---|
| `Leases.dfy` | the lease table, one row per (resource, work type), and fencing over whole runs |
| `Intents.dfy`, `IntentStore.dfy`, `FakeStore.dfy` | the operation-intent statements, the repository that runs them, and the in-memory store that updates objects in place |
| `Publish.dfy` | the publish protocol as a state machine: every SQL statement, every fence check and every oracle answer is a step of its own |
| `PublishSafety.dfy`, `PublishArming.dfy`, `PublishUnarmed.dfy` | at-most-once publication, when its hypothesis holds, and why it cannot be dropped |
| `PublishFencing.dfy` | what is left to an execution whose lease was overtaken or given up |
| `PublishResults.dfy`, `PublishRetry.dfy` | what an answer, a recovery or an error leaves in the row and returns; what a stopped publication leaves to the next execution |
| `PublishReplay.dfy`, `PublishOverwrite.dfy`, `PublishExclusion.dfy` | replay of stashed results and when it fails, settled intents, exclusion between work items |
| `Artifacts.dfy`, `ArtifactWalk.dfy`, `ArtifactStore.dfy`, `ArtifactRuns.dfy` | the review artifact store: hash-linked envelopes, the dependency worklist, budget and reserve |
| `AskQuota.dfy`, `AskQuotaRates.dfy`, `AskQuotaLedger.dfy` | ask admission: token buckets, outstanding counts, the ledger of provider tokens |
| `WorkItems.dfy`, `WorkItemStore.dfy` | the work-item lifecycle, attempts, cancellation under interference, supersession |
| `OwnVerdict.dfy` | the own verdict and its check-run record |
| `Capabilities.dfy` | capability observations, CI sources and their generations |
| `Sums.dfy`, `Wrappers.dfy` | totals over finite sets; the option type |

`dafny verify dfyconfig.toml` checks the whole project.

## How the publish protocol is modelled

An execution is a granted (work item, epoch). Inside it, calls for one operation key follow each other; calls for
different keys may overlap. A call is a program counter that may vanish at any step. The environment lets time pass,
grants, renews, releases and supersedes leases, settles intents through the other writers, and answers the remote call
or never answers it. `mutate()` and `recover` are nondeterministic, except that those of a void operation, such as a
verdict close, yield no value of their own; the decoder is an arbitrary function that may fail.
The log records every `mutate()` with what is known of its outcome. The fence check in front of a write and the write
itself are separate steps, so a lease may lapse or come back between them. Two fields of the program counter,
`armed` and `sole`, are bookkeeping that no step looks at: whether the arming write found its fence open, and whether
the lease was live at the in-flight query.

Three results are worth reading together.

* `PublishSafety.AtMostOncePublication` proves at-most-once for every run in which a send marker only ever lands on a
  row that is still armed.
* `PublishUnarmed.MarkIsSafeExactlyWhenArmed` proves that this condition, which the code could test before it sends, is
  exact, and `PublishUnarmed.SomeRunSendsTwice` that the code does not enforce it: the result of the arming write is
  not looked at (`src/agentWork/publishOnce.ts:613`), and a lapsed lease can be renewed
  (`src/agentWork/prActorLease.ts:63-82`). A lease that lapses between the fence check and the arming write and is
  renewed before the next check leaves a call that marks, and sends, on an unarmed row; the next execution does not see
  that row in flight.
* `PublishArming` gives hypotheses that suffice on the environment alone: no such renewal, renewals that test the
  expiry, or store calls that are single steps.

Where the code and its documentation disagree the model follows the code. `docs/adr/0030-pr-actor-lease.md:56-58` says
that once `__sendStarted` is set the next holder recovers instead of sending again; the second result shows a run in
which it sends. `src/review/recovery/reviewArtifacts.ts:76-79` admits an `opened_paths` artifact that the CHECK of
`migrations/037_review_run_artifacts.sql:7-9` refuses, so saving one is answered as refused by the table.

## Model

| member | source | states |
|---|---|---|
| `Leases.LeaseTable.Acquire` | src/agentWork/prActorLease.ts:22-61 | acquired exactly when the row is absent, unheld or lapsed; then the row carries the caller, a fresh expiry and an epoch above every earlier one; a refusal changes nothing and names the holder |
| `Leases.LeaseTable.Renew` | src/agentWork/prActorLease.ts:63-82 | renews exactly the row with this key, epoch and work item, lapsed or not, to the present moment plus the ttl, and says whether it did; a positive ttl makes it held again |
| `Leases.LeaseTable.Release` | src/agentWork/prActorLease.ts:116-130 | clears the holder of exactly this epoch, keeps the epoch and lets it expire at once; nobody holds it at the key any more |
| `Leases.LeaseTable.ReleaseHeldBy` | src/agentWork/prActorLease.ts:89-114 | clears exactly the listed (work item, epoch) pairs at one key; every other holder keeps its row |
| `Leases.LeaseTable.IsHeld` | src/agentWork/prActorLease.ts:132-147 | true exactly when some unexpired row names this work item and epoch |
| `LeaseRuns.EpochsOnlyGrow` | src/agentWork/prActorLease.ts:22-130 | over every run of acquire, renew, release, supersession and time, a row stays and its epoch never decreases |
| `LeaseRuns.AcquisitionsStrictlyIncrease` | src/agentWork/prActorLease.ts:30-48 | an acquisition any number of steps later gets an epoch strictly above the earlier one |
| `LeaseRuns.SpentForever` | src/agentWork/prActorLease.ts:22-147 | where every work item acquires only at the key of its own resource and type, the fence of an epoch that was overtaken or given up, which looks at all rows, is closed at the end of every further run |
| `LeaseRuns.AcquiringSpendsOlderEpochs` | src/agentWork/prActorLease.ts:30-48 | once a new epoch is acquired, the fence of every epoch up to the previous one is closed for ever, for every work item with that key |
| `LeaseRuns.ReleasedEpochNeverReturns` | src/agentWork/leasedExecution.ts:180-193 | the fence of an epoch given up by a failed claim or a finish stays closed even if its renewal timer is still running |
| `LeaseRuns.ReopensOnlyElsewhere` | src/agentWork/prActorLease.ts:132-147 | without the own-key hypothesis the fence of a spent epoch is open exactly while the same work item holds the same epoch number at another key |
| `LeaseRuns.ForeignKeyReopens` | src/agentWork/prActorLease.ts:30-48 | and it can be: for any two keys, one acquisition at the second opens the fence of an epoch that is spent at the first |
| `Fencing.SpentEpochsWriteNothing` | src/agentWork/operationIntentRepository.ts:86-382 | after a spent epoch, over every own-key run, a persist, a merge and a reconcile fenced with it leave the intents as they are, and a fenced transition leaves the work items as they are |
| `PublishFencing.GrantsShutOut` | src/agentWork/prActorLease.ts:22-130 | a grant shuts out every execution granted before at its lease key; a release and a supersession those they name |
| `PublishFencing.ShutOutForever` | src/agentWork/prActorLease.ts:22-147 | over every run of the publish protocol the fence of a shut-out execution never opens again |
| `PublishFencing.ShutOutWritesNothing` | src/agentWork/operationIntentRepository.ts:86-382 | however long it runs on, a shut-out execution changes no row, except that it may take back the armed flag of an intent that this epoch armed and has not sent |
| `PublishFencing.ShutOutSendsNothing` | src/agentWork/publishOnce.ts:613-654 | and a call that had not passed its last fence calls mutate() in no run |
| `PublishFencing.ShutOutSendsExactlyIfCommitted` | src/agentWork/publishOnce.ts:635-654 | a shut-out call has a send ahead of it in some run if and only if it had passed its last fence |
| `IntentStores.IntentStore.Persist` | src/agentWork/operationIntentRepository.ts:86-160 | inserts a pending row or returns the existing one with status and detail untouched; a closed fence changes nothing and is reported |
| `IntentStores.IntentStore.Merge` | src/agentWork/operationIntentRepository.ts:162-212 | merges the patch exactly into pending and failed rows and makes them pending; answers the written row, or none |
| `IntentStores.IntentStore.ReleaseUnsent` | src/agentWork/operationIntentRepository.ts:214-238 | takes back the armed flag exactly of a row this epoch armed and has not sent; none such is left |
| `IntentStores.IntentStore.Reconcile` | src/agentWork/operationIntentRepository.ts:303-382 | writes only from pending, from the same status or from unknown to reconciled; a refused downgrade of a reconciled row answers that row |
| `IntentStores.IntentStore.FindInFlight` | src/agentWork/operationIntentRepository.ts:240-301 | answers an oldest blocking intent if there is one, and none exactly when none blocks |
| `IntentStores.SweepLeavesTheRest` | src/agentWork/reconcilePendingIntents.ts:140-155 | after a finished sweep every pending intent with a publish record is reconciled with it, carries the mark reconciledFromPublishRecord and the epoch of the sweep, and every other row is as it was |
| `IntentStores.SweepResumes` | src/agentWork/reconcilePendingIntents.ts:140-155 | after a sweep cut short at any row, the next one reconciles the rest: every row is as after one uninterrupted sweep, up to the epoch it names |
| `IntentStores.IntentStore.ReconcilePending` | src/agentWork/reconcilePendingIntents.ts:132-165 | each row is written under the leases and clock of its own moment; the oldest pending intents with a record are reconciled up to the first whose fence is closed, which ends the sweep as lease lost; a finished sweep reconciles exactly those with a record, and the counts add up |
| `IntentStores.IntentStore.Adopt` | src/agentWork/publishOnce.ts:1152-1195 | touches only its key; a new intent carries the extra detail and the result, a pending one gains both, an unknown one gains both and the mark recoveredAfterMutating and is reconciled; failed, reconciled and usable ones stay as they are |
| `FakeStores.FakeStore.Persist` | src/agentWork/fakePublishStore.ts:73-104 | the objects updated in place stand for exactly the rows of the SQL statement, with the same answer |
| `FakeStores.FakeStore.Merge` | src/agentWork/fakePublishStore.ts:106-127 | same rows and answer as the SQL merge |
| `FakeStores.FakeStore.ReleaseUnsent` | src/agentWork/fakePublishStore.ts:129-143 | same rows as the SQL release, with the tests in the order of the code |
| `FakeStores.FakeStore.Reconcile` | src/agentWork/fakePublishStore.ts:171-208 | same rows and answer as the SQL reconcile |
| `FakeStores.FakeStore.FindInFlight` | src/agentWork/fakePublishStore.ts:145-169 | an oldest object passing the in-memory filter, or none |
| `FakeStores.BlocksExactlyOnSurface` | src/agentWork/fakePublishStore.ts:149-166 | for a caller whose stored epoch is its live lease, a row blocks in SQL exactly if it blocks in memory and its work item is on the lease key of the caller |
| `FakeStores.SameAnswerExactly` | src/agentWork/fakePublishStore.ts:145-169 | with distinct creation times both in-flight queries answer the same if and only if no row blocks in memory or the oldest that does is on the lease key of the caller |
| `FakeStores.SameInFlightAnswer` | src/agentWork/fakePublishStore.ts:145-169 | in particular they agree while all intents share one lease key |
| `FakeStores.OtherSurfacesDiffer` | src/agentWork/fakePublishStore.ts:149-166 | for any two lease keys and two work items there are rows for which the in-memory query answers the intent of the other resource and SQL answers none |
| `PublishSafety.OpenMeansCurrent` | src/agentWork/prActorLease.ts:132-147 | an open fence means that the epoch of the call is the one in the lease row of its own work item |
| `PublishSafety.ForeignWritesAreHarmless` | src/agentWork/operationIntentRepository.ts:86-382 | a call that is not the current one of a key can only settle that row, leave it, or take back its own unsent armed flag |
| `PublishSafety.NothingInFlight` | src/agentWork/publishOnce.ts:605-611 | when the in-flight query answers none, the own row is settled or nothing unrefused was or will be sent for its key |
| `PublishSafety.AfterParent` | src/agentWork/publishOnce.ts:513-543 | a delegated parent is reset to failed only when nothing unrefused was sent through its delegate |
| `PublishSafety.StaysBlocked` | src/agentWork/publishOnce.ts:654-741 | a row that blocks later sends keeps blocking them until its own call has proven that nothing was accepted |
| `PublishSafety.CommittingBlocks` | src/agentWork/publishOnce.ts:629-654 | the step that commits to mutate() blocks the row, and nothing unrefused was sent for the key before |
| `PublishSafety.StepKeepsInv` | src/agentWork/publishOnce.ts:508-742 | every statement, fence check, oracle answer, lease event and crash keeps the invariant, if a send marker finds its row armed |
| `PublishSafety.AtMostOncePublication` | src/agentWork/publishOnce.ts:508-742 | over every run with armed markers no (work item, operation key) has two mutate() calls that are not proven refused, delegated parents included |
| `PublishArming.OnlyRenewalReopens` | src/agentWork/prActorLease.ts:63-82 | a closed fence is opened again only by renewing the lapsed lease of that very epoch |
| `PublishArming.MarksAreArmed` | src/agentWork/publishOnce.ts:613-643 | a call whose arming write was lost is stopped by its next fence check, so an effective marker finds its row armed |
| `PublishArming.AtMostOnceWithoutRevival` | src/agentWork/publishOnce.ts:613-643 | at most once in every run where no lapsed lease is renewed under a call between a lost arming write and its marker |
| `PublishArming.AtMostOnceIfRenewalTestedExpiry` | src/agentWork/prActorLease.ts:63-82 | at most once in every run whose renewals meet unexpired leases only |
| `PublishArming.AtMostOnceIfArmingIsAtomic` | src/agentWork/fencedWrite.ts:11-30 | at most once in every run whose arming writes find their fence open, as when each store call is one step |
| `PublishUnarmed.UnarmedMarkSendsTwice` | src/agentWork/publishOnce.ts:613-654 | from any reachable marker on an unarmed row two unrefused sends can follow, even if all later markers are armed |
| `PublishUnarmed.MarkIsSafeExactlyWhenArmed` | src/agentWork/publishOnce.ts:635-654 | a marker leaves the key at most once in every armed continuation if and only if the row it marks carries the armed flag |
| `PublishUnarmed.SomeRunSendsTwice` | src/agentWork/publishOnce.ts:613-643 | the hypothesis is needed: for every work item and key some run from the initial state sends twice |
| `PublishReplay.ResultsChangeOnlyByOverwriting` | src/agentWork/publishOnce.ts:279-318 | a step changes or drops a stashed result if and only if a call settles the row of another work item over a different result, or a verdict close stores null over a value |
| `PublishReplay.LaterCallsReplay` | src/agentWork/publishOnce.ts:584-586 | where no result is overwritten, a call that starts after the stash never sends, and what it returns is the decoding of the stashed value, a stored null read as undefined |
| `PublishReplay.SequentialRunsAreClean` | src/agentWork/publishOnce.ts:605-611 | executions that begin a call only when their other calls are past their query never overwrite a result, nor do verdict closes if recoveries find no value for a void operation |
| `PublishReplay.SequentialCallsReplay` | src/agentWork/publishOnce.ts:255-273 | from the initial state, in such runs, every later call for the key replays the stashed result or fails; it never sends |
| `PublishReplay.SettledStatusesStay` | src/agentWork/operationIntentRepository.ts:338-360 | over every run and under all writers reconciled is absorbing and an unknown outcome leaves only to reconciled |
| `PublishReplay.VoidInvKept` | src/agentWork/reviewVerdict.ts:459-467 | in such runs the result of a void operation is null in every row and in every write that is under way |
| `PublishReplay.SettledRowsStartNoSend` | src/agentWork/publishOnce.ts:588-603 | whatever is sent for a settled row, terminal-unknown included, comes from a call that had set its marker before the row was settled |
| `PublishReplay.LogIsAppendOnly` | src/agentWork/publishOnce.ts:654-655 | a send once made stays in the log with its key and epoch |
| `PublishResults.AnswerIsStored` | src/agentWork/publishOnce.ts:654-675 | over every run: once mutate() answered v and v decodes, the call either throws or returns v; its stash, written under an open fence into a pending row, leaves v there, undefined as JSON null; its settlement, written under an open fence, leaves the row reconciled with v |
| `PublishResults.AnswerReplays` | src/agentWork/publishOnce.ts:584-586 | from the initial state: once the answer v was written, by the stash alone too, a call that begins later for the key sends nothing and returns the decoding of v, or of undefined where v is a JSON null |
| `PublishResults.StashIsSettled` | src/agentWork/publishOnce.ts:255-273 | a call that finds a stashed result returns its decoding and, unless the row is reconciled already, first settles the row with that result |
| `PublishResults.FoundIsStored` | src/agentWork/publishOnce.ts:279-318 | a value that recovery found is stored in the recovered intent, reconciled, and its decoding is returned |
| `PublishResults.NothingFoundIsTerminal` | src/agentWork/publishOnce.ts:361-438 | without evidence an intent in flight becomes outcome unknown, terminally; a publish record of a void call, or its reconciled status, counts as success with a null result; after an error of its own call it becomes unknown, not terminally |
| `PublishResults.FailedOracleIsNotTerminal` | src/agentWork/publishOnce.ts:374-438 | a failed oracle settles nothing, except that with a publish record an intent in flight is a void success or becomes outcome unknown, not terminally |
| `PublishResults.ErrorIsRecorded` | src/agentWork/publishOnce.ts:700-730 | a refused mutate() leaves the row failed and out of flight, an unclear one leaves it outcome unknown and not terminal; the call throws |
| `PublishResults.GivingUpIsRecorded` | src/agentWork/publishOnce.ts:700-730 | an error before anything was sent is recorded the same way |
| `PublishResults.RefusedEntryFails` | src/agentWork/publishOnce.ts:548-566 | a delegate that could not be entered changes no row, and its parent goes on to fail, out of flight |
| `PublishResults.DoubtIsLookedInto` | src/agentWork/publishOnce.ts:703-714 | an unclear error that may be looked into persists the intent again and asks the oracle |
| `PublishResults.FoundRowDecides` | src/agentWork/publishOnce.ts:587-611 | without a stashed result a pending or failed row leads to the in-flight query, a reconciled and a non-terminal unknown one to recovery, a terminal unknown one to an exception |
| `PublishResults.QueryDecides` | src/agentWork/publishOnce.ts:605-613 | an intent found in flight is recovered; if none is found the call goes on to arm its own |
| `PublishRetry.ArmedIsUnsent` | src/agentWork/publishOnce.ts:613-630 | in every reachable state the row of a current call that armed it and has not marked it is marked as unsent by its epoch, or was settled by somebody else |
| `PublishRetry.ClosedFenceLeadsToRelease` | src/agentWork/publishOnce.ts:676-698 | a call that finds its fence closed before its marker releases its arm next |
| `PublishRetry.ReleaseDisarms` | src/agentWork/operationIntentRepository.ts:214-238 | after that release the row carries no arm of the epoch and is not in flight, and the call throws |
| `PublishRetry.UnsentArmsDieWithTheirEpoch` | src/agentWork/operationIntentRepository.ts:265-281 | once its epoch was overtaken, released or superseded, an intent it armed and did not send blocks no caller of its lease key in any further run |
| `PublishRetry.ParentPrologue` | src/agentWork/publishOnce.ts:513-543 | a delegated parent that failed, or was armed but never entered, is taken out of flight before the call goes on; one that was entered is left to recovery; a new one is marked as not entered |
| `PublishRetry.ParentIsReset` | src/agentWork/publishOnce.ts:523-543 | the reset leaves a pending, unarmed, unentered row, or a failed and unarmed one, and the call goes on to persist its intent |
| `PublishOverwrite.OverlappingCallsOverwrite` | src/agentWork/publishOnce.ts:605-611 | out of turn replay fails: two overlapping calls that recover the same foreign intent leave first one result and then the other |
| `PublishOverwrite.CloseOverwritesRecovery` | src/agentWork/reviewVerdict.ts:459-467 | a value that another work item recovered for a verdict close is replaced by null when the close completes |
| `PublishExclusion.QueryClears` | src/agentWork/operationIntentRepository.ts:255-297 | under a live lease, an in-flight query that answers none has seen every send under way at that lease key |
| `PublishExclusion.MarksExclude` | src/agentWork/operationIntentRepository.ts:240-301 | when a call whose lease was live at its query sets its marker, no other work item of the lease key has an armed, marked intent without a result, whatever lapsed in between |
| `PublishExclusion.MarksExcludeSends` | src/agentWork/publishOnce.ts:605-654 | at that marker every unrefused send of a rival sits on a settled row or on one with a stashed result |
| `PublishExclusion.DeadArmsNeverBlock` | src/agentWork/operationIntentRepository.ts:265-281 | an intent armed but unsent by a superseded epoch never blocks any caller again |
| `Artifacts.OrdersAreUnique` | src/review/recovery/reviewArtifacts.ts:189-217 | two well-formed artifacts have the same order exactly when they have the same logical key |
| `Artifacts.ReadExactly` | src/agentWork/reviewArtifactRepository.ts:30-60 | a row is read as an envelope exactly if its columns agree with it, its binding is the reader's, its kind fixes its key and order, sequence and dependency count are within 100000 and 64, and it is not longer than 1 MiB |
| `Artifacts.RestsOnWhatItNames` | src/agentWork/reviewArtifactRepository.ts:145-182 | every dependency a sound decision or summary declares, and the prepared decision a settlement names, is stored under the named hash, with the same binding, earlier in the order, and sound |
| `Artifacts.ClosureMembers` | src/agentWork/reviewArtifactRepository.ts:145-182 | every artifact in the closure is stored, readable under the binding and of lower order, and sound if the root is |
| `ArtifactWalks.OverBudgetRefutes` | src/agentWork/reviewArtifactRepository.ts:129-138 | reading past the budget means that the closure does not fit, or that the edge just read is broken |
| `ArtifactWalks.CheckedIsSound` | src/agentWork/reviewArtifactRepository.ts:145-182 | when everything loaded was checked, all of it is sound and the closure is inside it |
| `ArtifactWalks.Walk.ReadPrior` | src/agentWork/reviewArtifactRepository.ts:129-144 | answers what the table or the cache holds for the key; no answer refutes the root |
| `ArtifactWalks.Walk.CheckDependencies` | src/agentWork/reviewArtifactRepository.ts:149-160 | passes only if the declared dependencies are distinct, present, strictly lower and hash-matching; a failure refutes the root |
| `ArtifactWalks.Walk.CheckDecision` | src/agentWork/reviewArtifactRepository.ts:161-179 | passes only if the implicit edge of the decision log holds; a failure refutes the root |
| `ArtifactWalks.DependencyMismatch` | src/agentWork/reviewArtifactRepository.ts:124-185 | the worklist terminates, and answers none exactly when the whole closure is present, same-binding, descending, hash-matching and within the budget; a sound envelope that does not fit is always blamed on the budget, and the budget is blamed only if everything stored plus the root exceeds it; any other reason names a fault that some artifact of the closure has |
| `ArtifactStores.SumUsage` | src/agentWork/reviewArtifactRepository.ts:249-254 | the sum of encoded and reserved bytes over all rows, in any order |
| `ArtifactStores.ArtifactStore.Load` | src/agentWork/reviewArtifactRepository.ts:199-203 | the row under the key if it decodes under the binding and its dependencies hold, otherwise nothing |
| `ArtifactStores.ArtifactStore.Save` | src/agentWork/reviewArtifactRepository.ts:204-286 | stored exactly when every check passes, and then one row is added and at most one reserve released; every other answer changes nothing; a new envelope that is sound but whose closure or total does not fit is answered capacity, an unsound one with a fault it has or, if the walk ran out of budget first, capacity |
| `ArtifactRuns.SaveKeepsInv` | src/agentWork/reviewArtifactRepository.ts:204-286 | a save keeps every row sound, the reserves exact and the total within 1 MiB, and rewrites no artifact |
| `ArtifactRuns.LoadIsExact` | src/agentWork/reviewArtifactRepository.ts:199-203 | in every reachable store a key loads exactly under the binding it was saved with |
| `ArtifactRuns.StoredLoadsForever` | src/agentWork/reviewArtifactRepository.ts:199-286 | an envelope answered stored is loaded unchanged after any further saves under any bindings |
| `ArtifactRuns.SavingAgainIsExisting` | src/agentWork/reviewArtifactRepository.ts:216-222 | saving a stored envelope again answers existing and changes nothing |
| `ArtifactRuns.SettlementAlwaysFits` | src/agentWork/reviewArtifactRepository.ts:231-259 | the matching settlement of a prepared, unsettled decision, of at most 8192 bytes, is stored in every reachable store: neither total can refuse it |
| `ArtifactRuns.EarlierDecisionsSettled` | src/agentWork/reviewArtifactRepository.ts:161-179 | a prepared decision has every earlier one prepared and settled under the same binding |
| `ArtifactRuns.DecisionLogShape` | src/agentWork/reviewArtifactRepository.ts:161-285 | in every reachable store the decisions are a prefix, at most one is unsettled, the reserves are 8192 if one is and 0 otherwise, and encoded plus reserved bytes never exceed 1 MiB |
| `AskQuota.Quota.ReserveAskQuota` | src/agentWork/askQuota.ts:230-317 | three loops in the order of the code: refill in lock order, check in check order, take in lock order; the new state and the answer are those of the specification |
| `AskQuota.Quota.AdmitAsk` | src/agentWork/askQuota.ts:658-685 | a retained mention costs nothing; an admission whose work item already existed is withdrawn |
| `AskQuota.Quota.RecordUsage` | src/agentWork/askQuota.ts:434-566 | absent or negative usage is ignored, a missing execution id is an error, anything but a counted receipt changes nothing |
| `AskQuota.Quota.ReleaseOnTerminal` | migrations/029_ask_quota_execution_receipts.sql:18-84 | the terminal trigger marks the reservation released, holds nothing back any more and charges it in full if its usage is unknown; repeated, it changes nothing |
| `AskQuotaRates.RefillsCompose` | src/agentWork/askQuota.ts:178-182 | refilling in between does not change the balance found later |
| `AskQuotaRates.AdmittedExactly` | src/agentWork/askQuota.ts:144-311 | the answer from the stored rows and the time alone: the first that fails of a free place and an earned token for actor, repository and installation, then the provider budget with its window, or admitted; a token is earned when what is left and the time that passed weigh a refill period |
| `AskQuotaRates.RestedAsksAreAdmitted` | src/agentWork/askQuota.ts:178-182 | with a free place and a token, or a whole refill period of waiting, in all three scopes, a new ask is admitted |
| `AskQuotaRates.WaitingEarnsBack` | src/agentWork/askQuota.ts:178-198 | k refill periods without an admission through a bucket leave at least the smaller of the burst and its tokens plus k |
| `AskQuotaRates.AdmissionTakesOne` | src/agentWork/askQuota.ts:280-290 | an admission takes exactly one token from each bucket it carries; a refused one takes none |
| `AskQuotaRates.AdmissionRate` | src/agentWork/askQuota.ts:144-317 | over any interval of length T at most burst + T / refillSeconds asks are admitted through one actor, repository or installation, whatever happens in between |
| `AskQuotaRates.ThrottledTakesNothing` | src/agentWork/askQuota.ts:249-278 | a throttled request leaves reservations, counts and the balance at every later time as they were, in all scopes |
| `AskQuotaLedger.AskContribution` | src/agentWork/askQuota.ts:406-432 | an ask contributes its live reservation or the unknown charge of the current window before its first receipt, and its counted receipts afterwards; nothing if its charge belonged to an earlier window |
| `AskQuotaLedger.ReceiptShare` | src/agentWork/askQuota.ts:406-432 | the adjustment computed for a receipt is exactly the change of what its ask accounts for |
| `AskQuotaLedger.ReceiptNeverClamps` | src/agentWork/askQuota.ts:545-552 | neither GREATEST(0, ...) of a receipt ever binds |
| `AskQuotaLedger.ReleaseNeverClamps` | src/agentWork/askQuota.ts:319-334 | neither GREATEST(0, ...) of a release ever binds |
| `AskQuotaLedger.ReleaseKeepsLedger` | migrations/029_ask_quota_execution_receipts.sql:18-84 | the terminal trigger, charging unknown usage in full, keeps the books |
| `AskQuotaLedger.RecordKeepsLedger` | src/agentWork/askQuota.ts:454-565 | a receipt, repeated, conflicting, late or across a window rollover, keeps the books |
| `AskQuotaLedger.RepeatsChangeNothing` | src/agentWork/askQuota.ts:474-485 | once an execution was counted, reporting it again changes nothing and is answered as repeated or conflicting, whatever admissions, releases and reports came in between |
| `AskQuotaLedger.CapsHold` | src/agentWork/askQuota.ts:253-258 | under one configuration no outstanding count ever exceeds its cap |
| `AskQuotaLedger.QuotaIsConserved` | src/agentWork/askQuota.ts:280-379 | in every reachable state a count is the number of unreleased reservations with that key, and the reserved and used tokens of an installation are the sums of its asks |
| `WorkItemRuns.EdgesAreExact` | src/agentWork/workItemTransitions.ts:144-218 | a status change is possible for some item through some call site exactly if it is one of the ten edges |
| `WorkItemRuns.CompletedExactly` | src/agentWork/workItemStateRepository.ts:317-347 | an item becomes completed exactly through markWorkCompleted of a running item under its fence, or the forced completion of a rescheduled active one, never after a cancel request |
| `WorkItemRuns.FailedExactly` | src/agentWork/workItemStateRepository.ts:386-473 | an item becomes failed exactly through markWorkFailed of a running, uncancelled item under its fence, or when its lease is long lost |
| `WorkItemRuns.RequeuedExactly` | src/agentWork/workItemStateRepository.ts:525-540 | a running, uncancelled item is queued again exactly by a retry under its fence |
| `WorkItemRuns.RunningExactly` | src/agentWork/workItemStateRepository.ts:221-250 | a queued, uncancelled item runs exactly by being claimed |
| `WorkItemRuns.SupersededExactly` | src/agentWork/autoWorkEnqueue.ts:76-119 | superseded are exactly the queued items that are not preserved, the running ones, and a lost, linked one after its cancel request |
| `WorkItemRuns.CancelledExactly` | src/agentWork/workItemStateRepository.ts:370-554 | every way into cancelled, with the status, stored epoch and fence it asks for |
| `WorkItemRuns.CancelRequestsExactly` | src/agentWork/workItemStateRepository.ts:475-554 | exactly the cancellations of queued items on request and of running executions, and the supersession of running ones, record a cancel request |
| `WorkItemRuns.ClaimsRecordEpochs` | src/agentWork/workItemStateRepository.ts:221-250 | a claim of an active, uncancelled item starts it and records the epoch it was given; no other step does, and key, kind and reschedule flag never change |
| `WorkItemRuns.AttemptsExactly` | src/agentWork/workItemStateRepository.ts:251-291 | an attempt is counted exactly for the first admission of an execution that owns the lease of a running, uncancelled item below the limit |
| `WorkItemRuns.CompletionIsFinal` | src/agentWork/workItemStateRepository.ts:317-330 | a running, uncancelled item is completed by the execution whose fence is open, and stays completed over every run |
| `WorkItemRuns.TerminalIsAbsorbing` | src/agentWork/workItemStateRepository.ts:317-554 | superseded, cancelled, completed and failed never change again |
| `WorkItemRuns.CancelRequestIsFinal` | src/agentWork/workItemStateRepository.ts:221-554 | after a cancel request only cancelled and superseded are reachable |
| `WorkItemRuns.OneAttemptPerExecution` | src/agentWork/workItemStateRepository.ts:251-291 | over any claims, retries and lease hops the attempt count is the number of executions that started, one each, and at most retryLimit + 1 |
| `WorkItemStores.WorkItemStore.Transition` | src/agentWork/workItemTransitions.ts:144-218 | updates the item exactly when status, cancel request, extra condition and fence all select it, and says whether it did |
| `WorkItemStores.WorkItemStore.AcquireAndClaim` | src/agentWork/leasedExecution.ts:143-202 | claimed means running under the epoch just acquired; an unclaimable item leaves items alone and its new epoch released |
| `WorkItemStores.WorkItemStore.BeginAttempt` | src/agentWork/workItemStateRepository.ts:251-291 | counts one attempt exactly for a running, uncancelled item below the limit; a lost lease changes nothing |
| `WorkItemStores.DurableContext.Admit` | src/agentWork/durableJob.ts:160-166 | the first admission begins an attempt, every later one answers the same and changes nothing, a rejection included |
| `WorkItemStores.WorkItemStore.MarkQueuedWorkCancelled` | src/agentWork/workItemStateRepository.ts:475-523 | under arbitrary interference between its statements it answers true only if the item is cancelled, and after its first read cancels only under the epoch it captured; undisturbed its answer is exact, and it cancels exactly a queued item or a running one whose lease is held, with a cancel request, and changes nothing else |
| `WorkItemStores.WorkItemStore.CancelUnderLock` | src/agentWork/workItemStateRepository.ts:509-522 | the locked transaction cancels an execution only under the epoch it was seen with |
| `WorkItemStores.WorkItemStore.SupersedeActiveAutoWork` | src/agentWork/autoWorkEnqueue.ts:76-119 | the superseded are exactly the running and the unpreserved queued auto items of the key; they become superseded, the running ones with a cancel request, and nothing else changes; their recorded epochs are no longer held, and no other holder loses its lease |
| `OwnVerdicts.SurfacesAgree` | src/agentWork/reviewVerdict.ts:567-601 | for every outcome the commit status is the one that the conclusion dictates |
| `OwnVerdicts.EndingsShow` | src/agentWork/reviewVerdict.ts:567-601 | a published verdict shows its conclusion, a partial one neutral; a cancelled, superseded or stale review shows cancelled and one that crashed or was not published asks for action; the summary is the given one or the default of the case |
| `OwnVerdicts.LiveCloses` | src/agentWork/reviewVerdict.ts:960-977 | a live close publishes the conclusion of the check, stays partial for a partial review that does not fail, and is not published without either |
| `OwnVerdicts.SummaryRemembers` | src/agentWork/reviewVerdict.ts:919-959 | the stored summary says whether the review was partial, whether that is what was published, whether the check failed or was incomplete, its count, and a note that is not empty |
| `OwnVerdicts.StoredVerdicts` | src/agentWork/reviewVerdict.ts:978-1006 | what any stored summary stands for: nothing without one, a failure when the check failed unless only a partial review without a reason was kept, with a missing count read as one and a missing note as the default |
| `OwnVerdicts.LateCloseAgrees` | src/agentWork/reviewVerdict.ts:919-1006 | a close rebuilt from the stored summary decides the same surfaces as the live one exactly if a success has no blocking finding and a partial review that does not fail has a note |
| `OwnVerdicts.CheckRunRecord.Claim` | src/agentWork/publishRecordRepository.ts:433-534 | an earlier selection survives every claim, and lacks a status no longer if the claim brings one; a record without a selection, new, reserved, started or recorded by this claim, gets exactly the selection and keeps every other field; a lease found lost selects nothing, and at most the saved check run was recorded |
| `OwnVerdicts.CheckRunRecord.RecordApplied` | src/agentWork/publishRecordRepository.ts:536-596 | accepted exactly for the stored selection on an unskipped surface, with a check run id for checks; the record is marked completed exactly when nothing is open any more |
| `OwnVerdictRuns.FirstVerdictWins` | src/agentWork/publishRecordRepository.ts:295-596 | under every interleaving conclusion, summary and link of the first selection never change, a status is added at most once, applied and skipped surfaces stay so |
| `OwnVerdictRuns.ReachableRecords` | src/agentWork/publishRecordRepository.ts:295-780 | in every reachable record the status agrees with the conclusion, no surface is both applied and skipped, and a completed record has nothing open |
| `OwnVerdictRuns.SelectionMovesExactly` | src/agentWork/publishRecordRepository.ts:433-534 | a selection appears exactly where the record has none and no older close concluded, and only a missing status is added to it, with the state of its conclusion |
| `OwnVerdictRuns.SurfacesMoveExactly` | src/agentWork/publishRecordRepository.ts:295-335 | a surface becomes applied exactly for the stored selection unless it was skipped, checks only with a run id; skipped exactly while nothing can have been accepted, checks only before a start |
| `OwnVerdictRuns.RecordsLiveExactly` | src/agentWork/publishRecordRepository.ts:620-780 | a record is created by a selection, a reservation or a recorded check run, and removed exactly by giving back a reservation before anything was selected or recorded |
| `OwnVerdictRuns.CheckRunsAreRecordedExactly` | src/agentWork/publishRecordRepository.ts:671-718 | the check run id, the completed flag and the resource change exactly by recording the check run; the epoch also by a reservation |
| `OwnVerdictRuns.ProgressMovesExactly` | src/agentWork/publishRecordRepository.ts:433-780 | the progress of a record after every statement: completed exactly when the surface applied last leaves nothing open |
| `OwnVerdictRuns.NewRecordsAre` | src/agentWork/publishRecordRepository.ts:620-718 | what a selection, a reservation and a recorded check run create |
| `Capabilities.Repository.SyncSources` | src/agentWork/githubCapabilityRepository.ts:176-219 | both sources follow the observation; the version of the head is bumped exactly if an access changed, and a repair is requested if one changed or reopened |
| `Capabilities.Repository.SaveObservation` | src/agentWork/githubCapabilityRepository.ts:60-119 | saves exactly a strictly newer generation, merging prior denials, and syncs the fanned-out heads; anything else changes nothing |
| `Capabilities.Repository.RecordDenial` | src/agentWork/githubCapabilityRepository.ts:121-155 | records a denial exactly under the stored generation |
| `Capabilities.Repository.Load` | src/agentWork/githubCapabilityRepository.ts:221-262 | syncs an existing head first and reports the rows then stored; a source without a row follows the observation, with its listing required and no unknown read |
| `Capabilities.Repository.RecordRead` | src/agentWork/githubCapabilityRepository.ts:264-323 | a read changes its row only under the generation then stored and never lifts a denial; an unknown head is an error |
| `CapabilityRuns.GenerationsGrow` | src/agentWork/githubCapabilityRepository.ts:60-323 | over every run no generation decreases, sources never run ahead of the observation, and within one generation a denied source stays denied |
| `CapabilityRuns.SameVersionSameSources` | src/agentWork/githubCapabilityRepository.ts:176-314 | versions never go back; a head whose version stayed has the same sources with the same access, and a listing is skipped only after an available, complete read |
| `CapabilityRuns.DenialsEndExactly` | src/agentWork/githubCapabilityRepository.ts:82-92 | a denied operation stops being denied if and only if a strictly newer observation reports it available |
| `CapabilityRuns.DenialsStick` | src/agentWork/githubCapabilityRepository.ts:60-155 | without such an observation a denied operation stays denied for ever |
| `CapabilityRuns.LoadsRespectDenials` | src/agentWork/githubCapabilityRepository.ts:221-262 | in every reachable state a load of an existing head reports a source denied whenever the stored observation denies it |
| `CapabilityRuns.LoadsReportExactly` | src/agentWork/githubCapabilityRepository.ts:176-262 | in every reachable state a load reports for a new or older source what the observation says of checksRead or statusesRead, and for a current one what was read, unless the observation denies it |
| `CapabilityRuns.LoadsBumpExactly` | src/agentWork/githubCapabilityRepository.ts:176-219 | a load bumps the version by one exactly if an access moved, and asks for a repair exactly then or if reads of an older generation were stuck; other heads stay |
| `CapabilityRuns.UnknownHeadsReport` | src/agentWork/githubCapabilityRepository.ts:221-262 | an unknown head reports the observation and stores nothing |
| `CapabilityRuns.FanoutFollowsAtOnce` | src/agentWork/githubCapabilityRepository.ts:93-119 | the heads that a saved observation is fanned out to follow it at once |
| `CapabilityRuns.ReadsReportExactly` | src/agentWork/githubCapabilityRepository.ts:264-323 | a read counts exactly under the current generation and against no denial; it then sets the access, makes the listing dispensable exactly if available and complete, and counts unknown reads; the version moves by one exactly if access or listing did |
| `CapabilityRuns.SavesExactly` | src/agentWork/githubCapabilityRepository.ts:60-119 | a strictly newer observation is stored as reported, but for denials it does not know better about; any other changes nothing |
| `CapabilityRuns.DenialsRecordExactly` | src/agentWork/githubCapabilityRepository.ts:121-155 | a denial is recorded exactly under the stored generation, for its operation alone |
| `CapabilityRuns.DenialsReachAtOnce` | src/agentWork/githubCapabilityRepository.ts:121-155 | and the heads it is fanned out to report the source denied at once |
| `CapabilityRuns.StaleReadsDoNotCount` | src/agentWork/githubCapabilityRepository.ts:264-306 | in every reachable state a read reported under a denial, or under a generation that is no longer current, leaves the sources as a sync leaves them |

## Left out

- PublishSafety.AtMostOncePublication: has the hypothesis that send markers find their row armed, because without it the statement is false of the code (`PublishUnarmed.SomeRunSendsTwice`).
- PublishReplay.SequentialCallsReplay: has the hypothesis that an execution begins a call only when its other calls are past their in-flight query (a delegate inside the `mutate()` of its parent is allowed), because overlapping calls can overwrite a result (`PublishOverwrite.OverlappingCallsOverwrite`). It also supposes that recoveries find no value for a void operation and that an unleased verdict close does not settle a row while another work item recovers it (`PublishOverwrite.CloseOverwritesRecovery`).
- PublishExclusion.MarksExclude: speaks of rivals that carry the armed flag, because the in-flight query looks at no other row; an unarmed marker of a rival is the case of `PublishUnarmed`.
- WorkItemStores.WorkItemStore.MarkQueuedWorkCancelled: when the first read finds no epoch, the captured epoch is the one of the second read, as in the code and in `docs/adr/0030-pr-actor-lease.md:29-33`.
- IntentStores.IntentStore.ReconcilePending: other sessions may change the leases between two rows, but not the intents, and the record found for a key is a parameter; in the state machine each of its writes is a step of its own (`SettleByOther`).
- LeaseRuns.SpentForever: has the hypothesis that a work item acquires only at its own key, which `src/agentWork/leasedExecution.ts:328` builds from the item; the lease table itself does not enforce it (`LeaseRuns.ForeignKeyReopens`).
- ArtifactStores.ArtifactStore.Save: of several faults that an unsound envelope has, which one is named depends on the order of the walk; that the one named is a fault, and that a sound envelope is never refused for one, is stated.
- AskQuotaLedger.QuotaIsConserved: reservations that retention deletes together with their work item, and expired buckets, are not part of this model.
- Unleased asks: the state machine has leased callers only. `adopt`, which only asks use, is modelled on the store.
- Identity of description intents (`withRetainedDescriptionIdentity`), mutation kinds, ids, publish record ids and timestamps of intents, holder ids of leases: carried along without effect on the properties.
- Hashing, JSON encoding, schemas and redaction: hash, length and schema check are arbitrary functions of an envelope, and decoding an encoded envelope gives it back.
- The gate of `lockRunningReview` and the kind and prepared_key columns of an artifact row: the gate is a parameter, the columns repeat what the envelope says.
- The two clocks of the quota (process and database) are one clock, and token balances are exact reals instead of doubles.
- The choice of the first hundred heads in the capability fan-out is a parameter, as are work-item creation and the liveness conditions on queue jobs.
- pg-boss delivery, the watchdog hop of the lease, timers, waiting for session locks, retention loops, logging and analytics.
- `completeSelectedCheck` and `writeOwnCommitStatus` as whole procedures: their record writes are steps of the verdict runs, their publications are calls of the publish protocol, and the null result stored at `src/agentWork/reviewVerdict.ts:459-467` is the step `SettleVoid`, which the session lock of a close keeps apart from its own unfinished call.
- Terminal close intents in `isOwnCheckOpen`, and the legacy completion query of `claimOwnVerdict`, which is a parameter.
- The retry decision of `handleDurableExecutionError` and the error classes of `retryPolicy.ts`: only the attempt limit enters the model.
