# Forge Runtime verification

A Dafny model of the parts of Forge Runtime that answer "after a worker
disappears, did the command actually run?", together with the self-contained
algorithms around them. Every claim below is a contract the Dafny verifier
accepts; `dafny verify dfyconfig.toml` checks the whole project.

| component | modules | form |
|---|---|---|
| run reducer | `RunTypes`, `Progress`, `Reducer`, `ReducerInvariant`, `ReducerRuns`, `ReducerRoutes`, `ReducerWorkflow`, `ReducerBounds`, `ReducerWindows` | `Transition` as a function, runs as input sequences |
| runner journal and engine | `Patch`, `Journal`, `Engine`, `EngineInvariant`, `EngineSteps`, `EngineTables`, `EngineRuns`, `EngineOutcomes`, `EngineScenarios` | transactions as methods of `JournalDb`; the protocol as a step machine with crashes |
| quota ledger and circuit breaker | `Quota`, `QuotaLedger`, `QuotaRuns`, `QuotaProbes`, `QuotaHistory` | `Store` with in-place tables |
| scheduler accounting | `Scheduler`, `SchedulerLedger`, `SchedulerLeases`, `SchedulerRuns`, `SchedulerSlots` | `SchedulerStore` with in-place tables, on top of the reducer |
| event delivery | `EventStream`, `EventDelivery`, `EventProgress` | `LiveHub` in place; hub, handlers and client as a step machine |
| log spool | `LogSpool`, `LogCapture`, `LogRecovery` | `LogWriter` in place, reader loop |
| text batching | `Utf8`, `JsonText`, `TextBatch` | `StreamSink` in place, binary search loop |
| pricing | `Domain`, `Pricing` | int64 arithmetic and accumulation loops |

How the pieces are stated:

- Each SQL transaction is one function on table values. Where the source updates
  rows in place, a class performs the same transaction write by write and its
  contract equates the new tables with that function of the old ones. The lemmas
  about whole runs are then about the functions.
- A run is an arbitrary sequence of steps from the empty system. Time, process
  outcomes, append failures, which tenant or runner an ordered query picks, and
  where a crash falls are all arguments of the steps, so a statement about all
  sequences covers all schedules.
- SHA-256 is injective, so a tree hash is the tree and a request hash the request.
  CRC-32 is an arbitrary function of the payload.
- Integers are unbounded unless a subset type bounds them; the places where int64 or
  uint64 matters (pricing, ledger counters, saturating log counters, event and lease
  numbers, metadata subtraction) carry the bound explicitly.

Facts about the code worth knowing, each of them proved here:

- An edit to a path `safePath` accepts but `readTree` skips is not visible to the
  settlement test: `Patch.HiddenEditEscapes` gives the patch and
  `Patch.PlanIsSeenIffVisible` the exact condition under which the planned tree is
  what `readTree` reports.
- "One probe in flight" is not promised: `QuotaProbes.TwoProbesInFlight` is a ten-step
  run from the empty ledger that admits a second probe while the first is dispatched,
  unreported and before its deadline. As long as no configuration raises the failure
  threshold, every first failure report of another dispatched request of the group
  discards the live probe, and nothing else of another request does; after a raise it
  does so exactly when the failures counted meet the new threshold
  (`QuotaProbes.AnyFirstFailureDiscardsProbe`). What is promised is one admission
  per opening.
- Re-claiming a released allocation balances the runner's counter exactly when the row
  already sits on the chosen runner (`SchedulerLedger.ReclaimNeedsStickiness`);
  the invariant that runs stay on their runner makes that so.
- An empty text buffer makes progress on every text exactly when it holds four bytes
  (`TextBatch.RoomForAnyTextIff`); configuration validation refuses anything smaller,
  so the loop of `emit` always ends.
- A cancel request that commits after an executor's one read of it, and before a file
  tool's first edit, need not stop that tool: `EngineRuns.CancelledRunsIff` gives the
  exact condition.
- A spool write that fails after any byte of a frame reached the disk leaves metadata
  the reader refuses; with no byte of it on disk the metadata is accepted,
  provided no termination was observed unrequested (`LogRecovery.ShortWriteAcceptedIff`).

## Model

| member | source | states |
|---|---|---|
| Domain.MoneyAdd | internal/domain/types.go:117-128 | ledger addition succeeds exactly when it fits; negative operands and overflow each give their own error, exactly |
| Pricing.Cost | internal/domain/types.go:129-151 | exact ceiling of tokens times rate per million, every int64 intermediate in range, overflow exactly when the value does not fit |
| Pricing.CeilingUnique | internal/domain/types.go:129-151 | the ceiling relation determines the price |
| Pricing.PriceTerms | internal/application/pricing.go:88-104 | the accumulation loop yields the ceiling of the whole weighted sum, or an error exactly when that is impossible |
| Pricing.PriceOneTerm | internal/application/pricing.go:88-104 | one term priced by the loop agrees with Cost |
| Pricing.AddTokens | internal/application/pricing.go:105-118 | sum of token counts, refusing negatives and overflow |
| Pricing.ReserveCost | internal/application/pricing.go:73-87 | reservation is the ceiling of the dearest input rate and the output rate over the frozen bounds |
| Pricing.InputTermsFacts | internal/application/pricing.go:119-183 | each provider's input split covers exactly the billed input at rates no dearer than the reserved one |
| Pricing.ReservationBoundsUsage | internal/application/pricing.go:73-183 | usage within the frozen bounds weighs no more than the reservation |
| Pricing.PriceUsage | internal/application/pricing.go:119-183 | the settled cost is the ceiling of each input class at its provider's rate plus the output at its own; exactly when usage is invalid, unpriced or overflows; within the frozen bounds never more than the reservation |
| Pricing.InputTermsMeaning | internal/application/pricing.go:119-183 | the input split weighs what the provider bills, said on quote and usage alone, and is refused or left unpriced exactly on overbilled or ambiguous usage |
| Progress.Remember | internal/runtime/progress.go:83-93 | the window stays duplicate-free and within capacity |
| Progress.RememberSuffix | internal/runtime/progress.go:83-93 | the bounded window of the newest log entries stays the newest log entries, for a log that grows by every first observation |
| Progress.ObserveAllSuffix | internal/runtime/progress.go:94-160 | a whole batch leaves both windows the newest stretches of their logs |
| Progress.LogAllFacts | internal/runtime/progress.go:94-160 | the logs only grow, hold every observation of the batch and repeat a value only after a whole window of others |
| Progress.ObserveLoop | internal/runtime/progress.go:94-160 | the in-place loop computes the digest of the batch |
| Progress.ObserveProgressValid | internal/runtime/progress.go:94-160 | an accepted frame leaves a progress record that validation accepts |
| Progress.NoEviction | internal/runtime/progress.go:83-160 | with stocks no larger than the windows nothing is evicted, and the digest grows exactly when a batch brings novelty or the first baseline |
| Reducer.BatchErrorMeaning | internal/runtime/reducer.go:489-603 | batch validation reports exactly the first fault, with its own error or the caller's for a repeated ID, and nothing exactly on good batches |
| Reducer.CheckBatch | internal/runtime/reducer.go:128-156 | the checking loop agrees with that meaning |
| ReducerInvariant.SoundIsValid | internal/runtime/reducer.go:489-585 | the inductive invariant implies every clause of validateState |
| ReducerInvariant.NewStateInv | internal/runtime/types.go:206-212 | a valid new run satisfies the invariant |
| ReducerInvariant.LeaseClockInv | internal/persistence/scheduler.go:183-194 | rewriting the lease expiry in place keeps the invariant |
| ReducerInvariant.DispatchInv | internal/runtime/reducer.go:437-443 | dispatching the planned effect keeps the invariant |
| ReducerInvariant.ScheduleInv | internal/runtime/reducer.go:415-435 | scheduling the next effect, gate, stop or ingest keeps the invariant |
| ReducerInvariant.ClaimInv | internal/runtime/reducer.go:255-280 | every way of claiming keeps the invariant |
| ReducerInvariant.AdoptInv | internal/runtime/reducer.go:282-309 | adoption keeps the invariant, parking or resuming the batch |
| ReducerInvariant.DecideApprovalInv | internal/runtime/reducer.go:311-329 | a decision keeps the invariant |
| ReducerInvariant.SettleInv | internal/runtime/reducer.go:331-367 | settling by receipt keeps the invariant |
| ReducerInvariant.VerificationCompletedInv | internal/runtime/reducer.go:369-393 | a verdict keeps the invariant |
| ReducerInvariant.ConfirmStopInv | internal/runtime/reducer.go:395-413 | confirming a stop keeps the invariant |
| ReducerInvariant.ContextBuiltInv | internal/runtime/reducer.go:82-105 | building context with the no-progress window keeps the invariant |
| ReducerInvariant.BranchInv | internal/runtime/reducer.go:51-243 | every branch that accepts keeps the invariant |
| ReducerInvariant.ValidationNeverRejects | internal/runtime/reducer.go:18-253 | from an invariant state, an event its branch accepts always passes the closing validation |
| ReducerRuns.ReachableNeverRejectedByValidation | internal/runtime/reducer.go:18-253 | over every event sequence from a valid new run, the closing validation never rejects |
| ReducerRuns.TransitionFacts | internal/runtime/reducer.go:282-393 | what one accepted event may do to ledger, approvals, revision and verdict |
| ReducerRuns.DispatchesBalance | internal/runtime/reducer.go:415-443 | over a run, execute commands, settlements and the open effect balance, and ToolCalls counts the executions exactly |
| ReducerRuns.ExecutionNeedsGrant | internal/runtime/reducer.go:311-329 | an executed effect that requires approval follows a grant for the same ID, arguments, policy and revision |
| ReducerRuns.StopDominates | internal/runtime/reducer.go:37-47 | after a stop request only stop and publish commands appear and the target never changes |
| ReducerRuns.RevisionMonotone | internal/runtime/reducer.go:331-367 | the workspace revision never decreases over a run |
| ReducerRuns.VerificationOnRecord | internal/runtime/reducer.go:369-393 | a held verdict was accepted at the current revision with no settlement since |
| ReducerRuns.CompletedIsVerified | internal/runtime/reducer.go:191-201 | a completed run has a trusted, passing verification at its final revision and no effect after it |
| ReducerRoutes.BranchRoutes | internal/runtime/reducer.go:51-243 | each branch accepts exactly the events its conditions name and leads exactly to the snapshot and commands of its route |
| ReducerRoutes.AcceptedIff | internal/runtime/reducer.go:18-253 | in every state a run reaches, an event is accepted exactly when admissible and taken by its branch, or a repeated cancellation, and then follows its route one version on |
| ReducerRoutes.BatchNovel | internal/runtime/progress.go:94-160 | a batch counts as new exactly when the log of first observations grows beyond its first baseline |
| ReducerWorkflow.EveryStageAsks | internal/runtime/reducer.go:51-478 | over any run each accepted event emits exactly the command its new stage or status stands for |
| ReducerWorkflow.WorkflowHolds | internal/runtime/reducer.go:51-367 | over any run a finishing response goes to verification and any other to its tools, a failed or cancelled receipt outside a stop clears the batch, and every other event moves along its one edge |
| ReducerWorkflow.BatchInOrder | internal/runtime/reducer.go:331-443 | a batch is executed in its order, each effect once, up to the first that does not succeed, and whole before its results are read otherwise |
| ReducerWorkflow.CountersCount | internal/runtime/reducer.go:82-123 | cost is the sum of the accepted completions, rounds and steps count the contexts that opened one, the version counts accepted events |
| ReducerBounds.TransitionSpends | internal/runtime/reducer.go:18-253 | every accepted worker event spends potential; a claim adds at most one |
| ReducerBounds.WorkerEventsBounded | internal/runtime/reducer.go:52-487 | accepted worker events are at most 7 rounds + 2 calls + 4 + claims |
| ReducerBounds.RepetitionStops | internal/runtime/reducer.go:82-105 | with finitely many trees and fingerprints the run stops within (trees + fingerprints + 1) times the limit |
| ReducerWindows.WindowsAreLogSuffixes | internal/runtime/progress.go:83-160 | in every state a run reaches, each window is the newest min(capacity, length) entries of the log of first observations of the whole run |
| Patch.PatchPlan | internal/runner/files.go:255-306 | the planning loop accepts exactly patches whose every edit is well formed, up to date and small enough; in the plan unedited paths keep their file, deleted ones are gone and the others hold the edit's content with its bit or the one before; a refusal names the first fault |
| Patch.ValidPatchMeaning | internal/runner/files.go:255-306 | validity of a patch and its plan, path by path, without replaying the edits |
| Patch.EditErrorMeaning | internal/runner/files.go:255-306 | each edit is accepted exactly when good, and its error is the first thing wrong with it |
| Patch.PlanUnique | internal/runner/files.go:277-306 | the path-by-path reading determines the plan |
| Patch.SeenStep | internal/runner/files.go:308-371 | one more edit on disk shows exactly one more reported edit |
| Patch.PlanIsSeenIffVisible | internal/runner/files.go:118-306 | the planned tree is what readTree reports exactly when every edited path is reported |
| Patch.HiddenEditEscapes | internal/runner/files.go:89-142 | a valid patch whose plan is never reported |
| Journal.JournalDb.DoReserve | internal/runner/journal.go:222-278 | reservation in place: refusals in order, replay of the same request, one active operation |
| Journal.JournalDb.DoMarkRunning | internal/runner/journal.go:279-282 | prepared becomes running and dispatched |
| Journal.JournalDb.DoMarkUnknown | internal/runner/journal.go:283-286 | only unsettled rows become unknown |
| Journal.JournalDb.DoRequestCancel | internal/runner/journal.go:287-290 | only unsettled rows record the cancel request |
| Journal.JournalDb.DoSetStartIntent | internal/runner/engine.go:428-437 | intent is set exactly when running and not cancelled |
| Journal.JournalDb.DoFinish | internal/runner/journal.go:295-338 | settlement in place: errors in order, idempotent, clears the active operation |
| Journal.JournalDb.DoSetFence | internal/runner/journal.go:347-372 | fencing raises the epoch and closes the workspace, or refuses |
| Journal.JournalDb.DoCompleteAdoption | internal/runner/journal.go:373-383 | adoption completes exactly when nothing is active and the workspace is open at that epoch |
| Journal.ExtendsTransitive | internal/runner/journal.go:222-383 | nothing durable is ever taken back, composed over transactions |
| Journal.ReserveKeeps | internal/runner/journal.go:222-278 | reservation keeps the active operation unique and only extends the journal |
| Journal.FinishKeeps | internal/runner/journal.go:295-338 | so does settlement |
| Journal.UpdateKeeps | internal/runner/journal.go:279-290 | so do single-row updates |
| Journal.FlagsKeep | internal/runner/journal.go:341-383 | so do fence, adoption and release |
| Journal.CreateKeeps | internal/runner/journal.go:163-179 | so does a new workspace |
| EngineOutcomes.PatchIsReconciled | internal/runner/engine.go:714-731 | over every run, a reconciled patch ends succeeded exactly when the tree is its plan, failed exactly when it is the before tree and not the plan, and otherwise stays unsettled and unknown |
| EngineOutcomes.ReadOnlyIsReconciled | internal/runner/engine.go:714-731 | a read-only tool reconciled after dispatch ends failed with its files unchanged |
| EngineOutcomes.UndispatchedIsReconciled | internal/runner/engine.go:656-659 | an undispatched operation under a cancel ends cancelled and never started, at the revision it began with |
| EngineOutcomes.UnintendedIsReconciled | internal/runner/engine.go:667-698 | so does a process whose start was never intended |
| EngineOutcomes.JobIsCollected | internal/runner/engine.go:699-713 | a stopped job is answered by its exit code, or as cancelled when interrupted |
| EngineOutcomes.CompletionIsPublished | internal/runner/engine.go:526-588 | a completed execution is published with its status and the tree that is there; a patch neither succeeded nor whole stays unknown |
| EngineOutcomes.CheckedCancelIsAnswered | internal/runner/engine.go:365-376 | a cancel found at the check is answered before anything runs |
| EngineOutcomes.BadArgumentsAreAnswered | internal/runner/engine.go:387-405 | malformed process arguments are answered as failed without a container |
| EngineOutcomes.EditsAreAnswered | internal/runner/engine.go:506-588 | finished edits are answered as succeeded with what they left; broken off ones as failed when the directory shows the old or the planned tree, and not at all otherwise |
| EngineScenarios.StartRecordsIff | internal/runner/engine.go:224-338 | on an unlocked workspace a start records the operation exactly when the workspace is open, idle and at its epoch and revision and a patch is acceptable for the tree there |
| EngineScenarios.ReadOnlyRuns | internal/runner/engine.go:358-517 | a read-only tool left to itself runs once and is answered by its own result |
| EngineScenarios.PatchRuns | internal/runner/files.go:308-371 | a patch left to itself applies every edit in order and succeeds with the reported part of its plan |
| EngineScenarios.ProcessRuns | internal/runner/engine.go:377-505 | a process left to itself is created, intended, started once and answered by its exit |
| EngineScenarios.CancelStopsOperation | internal/runner/engine.go:825-866 | a cancel before body, check and intent keeps the body from ever running |
| EngineScenarios.FenceRecords | internal/runner/journal.go:347-372 | a fence takes effect exactly for the owner at a current or newer epoch |
| EngineScenarios.FenceHolds | internal/runner/engine.go:886-956 | after a fence nothing enters until adoption, nothing older ever, and after a stop nothing at all |
| EngineScenarios.AdoptionRecords | internal/runner/journal.go:373-383 | adoption reopens exactly an idle workspace fenced at that epoch, neither stopped nor released |
| EngineSteps.HeldStep | internal/runner/engine.go:358-517 | a step of the goroutine holding the lock keeps the runner invariant |
| EngineSteps.CheckCancelKept | internal/runner/engine.go:365-376 | the one read of the cancel request keeps it |
| EngineSteps.StartToolKept | internal/runner/engine.go:506-511 | starting a file tool after that read keeps it |
| EngineSteps.IntendKept | internal/runner/engine.go:428-437 | committing start intent keeps it |
| EngineSteps.SendKept | internal/runner/engine.go:445-452 | sending the start request keeps it |
| EngineSteps.EditFileKept | internal/runner/files.go:308-371 | each edit of a patch keeps it |
| EngineSteps.SettleTreeKept | internal/runner/engine.go:714-731 | reconciling a file tool from the directory keeps it |
| EngineSteps.SettleNeverKept | internal/runner/engine.go:656-659 | settling an undispatched operation keeps it |
| EngineSteps.RemoveNeverKept | internal/runner/engine.go:667-698 | removing a never-intended container keeps it |
| EngineTables.DeliverKept | internal/runner/engine.go:445-452 | a late start request keeps it |
| EngineTables.CreatedKept | internal/runner/engine.go:286-306 | a reservation under the lock keeps it |
| EngineTables.SettlementKept | internal/runner/engine.go:526-588 | publishing a settlement keeps it |
| EngineTables.FinishAccepted | internal/runner/engine.go:526-588 | a settlement that is not a partial patch is never refused by the journal |
| EngineTables.DoKept | internal/runner/engine.go:224-956 | every step, crash included, keeps the invariant and only extends the journal |
| EngineRuns.BodyRunsAtMostOnce | internal/runner/engine.go:286-376 | over every step sequence an operation's body runs at most once |
| EngineRuns.CancelPrecludesStart | internal/runner/engine.go:428-437 | once a cancel committed before intent, intent is never set and a process never runs |
| EngineRuns.CancelledNeverRuns | internal/runner/engine.go:365-376 | a cancel committed before the executor's check and before start intent keeps the body from ever running |
| EngineRuns.CancelledRunsIff | internal/runner/engine.go:369-376 | a cancelled operation without intent can still run its body exactly when its file tool already passed the check |
| EngineRuns.NeverStartedForever | internal/runner/engine.go:643-698 | a never-started receipt is true when written and for ever |
| EngineRuns.SettledIsQuiet | internal/runner/journal.go:295-338 | a settled row is frozen and nothing runs on its behalf afterwards |
| EngineRuns.AdoptionFencesOut | internal/runner/engine.go:868-942 | after adoption every smaller-epoch operation of the workspace is already settled, for good |
| EngineRuns.AbsentNeverStarts | internal/application/driver.go:505-518 | with the dispatch-epoch test, an older effect absent at adoption never enters the journal nor runs |
| EngineRuns.FencedTakesNothing | internal/runner/journal.go:339-372 | from a committed fence until adoption no operation enters the workspace |
| EngineRuns.StoppedTakesNothing | internal/runner/journal.go:222-240 | a stopped or released workspace never takes another operation |
| EngineRuns.ActiveIsTheUnsettledOne | internal/runner/journal.go:222-338 | the active operation is exactly the one non-terminal operation |
| EngineRuns.SettledOperationsChain | internal/runner/engine.go:549-553 | settled operations form one chain of revisions, each step 0 or 1, ending at the workspace revision |
| EngineRuns.SettledPatchIsWhole | internal/runner/engine.go:538-553 | a settled patch left its before tree or its plan (its reported part if a path is skipped), with the revision raised exactly on change |
| EngineRuns.SettlementReadsDirectory | internal/runner/engine.go:526-588 | a row settles only in finish, with the tree the directory then shows, never on a partial patch |
| Quota.SweepRows | internal/quota/store.go:94-131 | the sweep releases exactly the overdue rows of the group |
| Quota.Store.DoConfigure | internal/quota/store.go:23-35 | configuration in place |
| Quota.Store.ExpireSlots | internal/quota/store.go:94-131 | the loop over returned rows counts slots and recovers the probe |
| Quota.Store.DoReserve | internal/quota/store.go:133-217 | admission in place, keeping maintenance on denial and rolling back on error |
| Quota.Store.DoMutate | internal/quota/store.go:221-250 | mutation of one reservation under the group row, or no change on error |
| Quota.Store.DoExpireRequestSlots | internal/quota/store.go:417-438 | the sweep as its own transaction |
| QuotaLedger.HeldUpdate | internal/quota/store.go:286-358 | changing one row changes the group's sums by exactly that row |
| QuotaLedger.HeldSweep | internal/quota/store.go:94-131 | a sweep lowers the slot sum by exactly its count and nothing else |
| QuotaLedger.SweepFacts | internal/quota/store.go:76-131 | rotation and sweep keep counters equal to sums and leave only a probe with time left |
| QuotaLedger.EffectFacts | internal/quota/store.go:256-413 | every accepted action moves counters by exactly the row's change |
| QuotaLedger.DoInv | internal/quota/store.go:23-438 | every transaction, whatever its result, keeps the ledger invariant |
| QuotaRuns.CountersAreSums | internal/quota/store.go:76-358 | in every reachable ledger the counters equal the sums over reservations, every CHECK constraint of both tables holds and no token or cost amount leaves int64 |
| QuotaRuns.LimitsHold | internal/quota/store.go:187-216 | without lowered limits or overrun settlements, committed plus reserved and concurrency never exceed their limits |
| QuotaRuns.AdmittedIff | internal/quota/store.go:176-217 | a new attempt is admitted exactly when deadline, breaker, concurrency and both budgets, computed from the reservations, allow it |
| QuotaRuns.CommittedIsSettledUsage | internal/quota/store.go:318-358 | within one window committed amounts grow by exactly the usage settled in it; rotation starts from zero |
| QuotaRuns.DoChanges | internal/quota/store.go:351-413 | the only ways a transaction moves the breaker |
| QuotaRuns.OnlyTheProbeCloses | internal/quota/store.go:377-413 | an open breaker closes only on its probe's success |
| QuotaRuns.OneAdmissionPerOpening | internal/quota/store.go:179-212 | at most one request is admitted per opening |
| QuotaRuns.SweepLeavesLiveProbe | internal/quota/store.go:94-131 | after any sweep a remaining probe's deadline lies ahead |
| QuotaRuns.BreakerRecovers | internal/quota/store.go:119-131 | a sweep after the probe's deadline gives it up, and a reservation one cooldown later is not denied by the breaker |
| QuotaProbes.BreakerDeniesOnlyIf | internal/quota/store.go:179-186 | over every run the breaker denies only while a probe with time left is in flight, or within one cooldown of an opening on record or caused by this request |
| QuotaProbes.OpenMeansTripped | internal/quota/store.go:398-404 | unless a configuration raised the threshold, an open breaker means the failures reached it |
| QuotaProbes.BreakerOpensIff | internal/quota/store.go:398-404 | over every run a closed breaker opens exactly on a first failure report of a dispatched reservation that meets the threshold |
| QuotaProbes.ProbeDiscardedIff | internal/quota/store.go:94-413 | exactly which transaction of another key discards a probe before its deadline |
| QuotaProbes.AnyFirstFailureDiscardsProbe | internal/quota/store.go:398-404 | over every run without a raised threshold it is any first failure report of another dispatched reservation of the group, and nothing else |
| QuotaProbes.TwoProbesInFlight | internal/quota/store.go:209-404 | a run with two probes in flight at once |
| QuotaHistory.FailuresAreTheStreak | internal/quota/store.go:373-413 | over every run with fixed thresholds the failure count is the number of first failure reports since the last success that met a closed breaker or came from the probe, up to the threshold |
| QuotaHistory.StreakOpensBreaker | internal/quota/store.go:398-404 | a closed breaker opens exactly on the failure report that completes that streak |
| QuotaHistory.FailuresStep | internal/quota/store.go:373-413 | nothing but outcome reports moves the failure count |
| QuotaHistory.WindowTurnsIff | internal/quota/store.go:76-92 | a window turns exactly when a transaction touches its group at or past its end |
| QuotaHistory.WindowLasts | internal/quota/store.go:23-92 | before its end a window never turns, whatever is configured meanwhile |
| QuotaHistory.RowsRecord | internal/quota/store.go:94-413 | every existing reservation changes exactly as accepted actions and sweeps say, and stays in place |
| QuotaHistory.ActionAcceptedIff | internal/quota/store.go:221-413 | a reservation accepts exactly the actions its record permits |
| QuotaHistory.ReserveAnswers | internal/quota/store.go:133-219 | an admission adds exactly one row; a replay finds its own and a refusal adds none |
| QuotaHistory.ReserveRefusals | internal/quota/store.go:133-219 | which refusals roll back, and for what |
| QuotaHistory.DenialReasons | internal/quota/store.go:160-219 | a denial names the first limit in the way, measured on the reservations themselves |
| QuotaHistory.ConfigureSets | internal/quota/store.go:23-35 | a configuration sets exactly its limits |
| QuotaHistory.ProbeActs | internal/quota/store.go:317-413 | the probe's success closes the breaker, its other reports and its abandonment reopen it, the rest leave it |
| QuotaHistory.ReportMoves | internal/quota/store.go:373-413 | what every first report does to breaker and probe |
| Scheduler.SchedulerStore.ReleaseAllocation | internal/persistence/scheduler.go:221-236 | releasing in place, at most once |
| Scheduler.SchedulerStore.PersistTransition | internal/persistence/scheduler.go:238-313 | fenced write of a transition, giving up the slot of a stopped or waiting run |
| Scheduler.SchedulerStore.DoClaim | internal/persistence/scheduler.go:36-172 | claim, takeover or postponement in place |
| Scheduler.SchedulerStore.DoApply | internal/persistence/scheduler.go:406-446 | one worker or control event in place |
| Scheduler.SchedulerStore.DoDefer | internal/persistence/execution.go:196-224 | lease yield, releasing only process-free stages |
| Scheduler.SchedulerStore.DoRequeue | internal/persistence/capacity.go:24-78 | capacity rejection in place |
| SchedulerLedger.UpdateCounts | internal/persistence/scheduler.go:221-236 | changing one allocation changes both sums by exactly its share |
| SchedulerLedger.ReleaseInv | internal/persistence/scheduler.go:221-236 | release restores the invariant and lowers both counters together |
| SchedulerLedger.PersistInv | internal/persistence/scheduler.go:238-313 | a persisted transition keeps it |
| SchedulerLedger.ClaimInv | internal/persistence/scheduler.go:102-155 | a claim keeps it and never moves a run to another runner |
| SchedulerLedger.DoInv | internal/persistence/scheduler.go:36-446 | every transaction keeps it |
| SchedulerLedger.CapacityIsConserved | internal/persistence/scheduler.go:52-155 | counters equal the allocation table and never pass their maxima |
| SchedulerLedger.IdleRunsHoldNoSlot | internal/persistence/scheduler.go:309-313 | a stopped or waiting run holds no slot |
| SchedulerLedger.RunnerIsSticky | internal/persistence/scheduler.go:106-155 | a bound run never moves |
| SchedulerLedger.ReclaimNeedsStickiness | internal/persistence/scheduler.go:143-144 | conservation of a re-claim holds exactly on the same runner |
| SchedulerLeases.ClaimGrantsNextEpoch | internal/persistence/scheduler.go:126-155 | a claim takes only an expired lease, opens the next epoch and leaves an unreleased allocation of that epoch on the run's runner |
| SchedulerLeases.EpochStep | internal/persistence/scheduler.go:36-446 | a transaction raises a run's epoch by one exactly when it claims the run |
| SchedulerLeases.EpochCountsClaims | internal/persistence/scheduler.go:126-155 | over any run the epoch counts the successful claims, so epochs are never shared or reused |
| SchedulerLeases.StaleWorkerIsFenced | internal/persistence/scheduler.go:260-280 | after any later claim of the run, however many transactions on, an older epoch's events, deferrals, capacity rejections and heartbeats change no table |
| SchedulerRuns.StoredRowIsRun | internal/persistence/scheduler.go:238-273 | every stored snapshot is what some sequence of events and lease updates makes of a new run of the same key |
| SchedulerRuns.StoredRowsAreSound | internal/persistence/scheduler.go:406-446 | every stored snapshot satisfies the reducer invariant, or is a queued one that never passed validation |
| SchedulerRuns.StoredCompletedIsVerified | internal/persistence/scheduler.go:406-446 | a run stored as completed was verified at its final revision, and every approval-bound execution was granted |
| SchedulerRuns.StoredCommandsAreNeeded | internal/persistence/scheduler.go:238-313 | in every reachable database the commands on record are exactly what the stored snapshot needs done |
| SchedulerSlots.SlotMoves | internal/persistence/scheduler.go:36-313 | over every run a run holds a slot exactly when this transaction claimed it, or it held one and this did not give it back |
| SchedulerSlots.DeferSlot | internal/persistence/execution.go:196-224 | a deferral is accepted exactly for the current worker, ends the lease, delays the run, and gives the slot back exactly when no process can be running |
| SchedulerSlots.DeferReleasesIff | internal/persistence/execution.go:214-218 | with a copy read at any earlier point, a deferral releases exactly when the row as now stored is running at the model or context stage with no stop and no pending effect |
| SchedulerSlots.VersionFixesRow | internal/persistence/scheduler.go:238-273 | a stored version determines its snapshot but for the lease expiry |
| SchedulerSlots.HeartbeatSlot | internal/persistence/scheduler.go:183-198 | a heartbeat moves exactly the lease of its owner in an unexpired epoch |
| SchedulerSlots.ClaimSucceedsIff | internal/persistence/scheduler.go:36-172 | in every reachable database a claim succeeds exactly when its run is due, unleased, not held, allowed on the runner, and its slot is held or free by the allocation table |
| SchedulerSlots.ApplyAnswers | internal/persistence/scheduler.go:406-446 | in every reachable database an event is committed exactly under the stated conditions and writes exactly the reducer's snapshot and commands |
| SchedulerSlots.RequeueAnswers | internal/persistence/capacity.go:24-78 | a capacity rejection succeeds only for the current worker of a run told to initialize, and queues it again without an owner a second later |
| EventStream.LiveHub.DoPublish | internal/eventstream/hub.go:207-236 | the batch loop in place: cursor, bounded history, offers, slow removal |
| EventStream.LiveHub.DoSubscribe | internal/eventstream/hub.go:112-127 | the join loop in place: catch up from history or reset |
| EventStream.LiveHub.DoRetire | internal/eventstream/hub.go:163-175 | retirement closes every subscriber |
| EventDelivery.CatchupIs | internal/eventstream/hub.go:112-127 | a joined queue is exactly the log between covered position and cursor |
| EventDelivery.DeliverInv | internal/eventstream/hub.go:207-236 | publishing one event keeps every queue a continuation of its handler |
| EventDelivery.JoinInv | internal/eventstream/hub.go:82-145 | joining, with or without a hub, keeps it |
| EventDelivery.DoInv | internal/eventstream/hub.go:82-236 | every step keeps the delivery invariant |
| EventDelivery.HandlerWritesTheLog | internal/httpapi/sse.go:75-147 | a handler writes exactly the log entries after its cursor, no gap, no duplicate |
| EventDelivery.ClientPrintsTheLog | cmd/forge/watch.go:75-218 | the client prints contiguous log entries with only forward snapshot resets; gap and regression errors are unreachable |
| EventDelivery.HubNeverSeesGap | internal/eventstream/hub.go:208-213 | the hub's own gap test never fires |
| EventProgress.DeliverServes | internal/eventstream/hub.go:208-234 | delivery moves the hub one log entry, keeps the newest history, hands the entry to every open subscriber that lacks it and has room, and closes only full ones |
| EventProgress.FetchReads | internal/eventstream/hub.go:187-205 | a poll reads the next entries, and retires the hub exactly when its position was trimmed |
| EventProgress.JoinSucceedsIff | internal/eventstream/hub.go:112-127 | a join succeeds exactly when the missed events are still in the history and fit one queue |
| EventProgress.ReplayReaches | internal/httpapi/sse.go:75-147 | replaying page by page reaches the covered position or a finishing event |
| EventProgress.ReadReaches | cmd/forge/watch.go:182-218 | reading every frame brings the client to its handler's position or to a finishing event |
| EventProgress.ClientCanCatchUp | cmd/forge/watch.go:59-159 | from every reachable world a watching client can be served to the end of the log, by replay where retained and by snapshot where trimmed |
| EventProgress.LiveClientCatchesUp | internal/eventstream/hub.go:177-236 | a client of a live handler gets every entry to the end of the log by polls, deliveries, receives and reads alone |
| LogSpool.NumberOfBigEndian | internal/runner/log_capture.go:157-159 | big-endian fields read back as written |
| LogSpool.HeadOfFrame | internal/runner/log_capture.go:304-312 | a whole frame reads back as its chunk, a cut one as nothing |
| LogSpool.ParseTruncated | internal/runner/log_capture.go:300-326 | any truncation yields exactly the whole frames before the cut |
| LogSpool.WholeIsLongest | internal/runner/log_capture.go:300-326 | and no longer prefix of whole frames fits |
| LogSpool.RoundTrip | internal/runner/log_capture.go:153-160 | a complete spool reads back exactly |
| LogCapture.LogWriter.DoWrite | internal/runner/log_capture.go:129-181 | the framing loop in place, with limit and saturating counters |
| LogCapture.FillFramed | internal/runner/log_capture.go:145-180 | every byte is framed in order or the limit was reached |
| LogCapture.FillKeepsMost | internal/runner/log_capture.go:145-180 | a write is framed in frames that are full but for the last, fails exactly when not all of it fits, and then not one byte more would fit |
| LogCapture.NoFramingKeepsMore | internal/runner/log_capture.go:145-152 | no other framing gets more of the data into the budget |
| LogCapture.PreviewIs | internal/runner/log_capture.go:174-177 | the preview is the beginning of everything framed, in order |
| LogRecovery.WriteOk | internal/runner/log_capture.go:129-181 | one write keeps file, counters and streams in agreement |
| LogRecovery.HeadIsFrame | internal/runner/log_capture.go:304-312 | an accepted frame is byte for byte what the writer produces |
| LogRecovery.ReadSpool | internal/runner/log_capture.go:299-326 | the reading loop returns the checked prefix and its counters, for any bytes |
| LogRecovery.ReadBack | internal/runner/log_capture.go:129-326 | after any writes, reading back recovers every frame and each stream's bytes |
| LogRecovery.CrashKeepsWholeFrames | internal/runner/log_capture.go:281-326 | after a cut at any byte, the longest whole-frame prefix |
| LogRecovery.MetadataAcceptedIff | internal/runner/log_capture.go:190-372 | after any writes, published metadata is accepted on reading back exactly under a condition on the arguments of Finish |
| LogRecovery.SeenIsRetainedPlusDropped | internal/runner/log_capture.go:207-225 | after any writes, a complete capture accounts for every byte sent: retained as parsed back, or dropped |
| LogRecovery.ShortWriteAcceptedIff | internal/runner/log_capture.go:161-170 | after a write error, metadata is accepted exactly when no byte of the failed frame reached the disk |
| LogRecovery.RunBytesHold | internal/runner/log_journal.go:25-43 | all spools of a run together stay within its byte budget |
| Utf8.BoundaryIff | internal/application/text_batch.go:172-174 | RuneStart recognises exactly the character boundaries of valid text |
| Utf8.ValidSplit | internal/application/text_batch.go:139-153 | cutting at a boundary leaves two valid texts |
| JsonText.EscapeRoundTrip | internal/application/text_batch.go:41-52 | decoding an encoded delta gives it back |
| JsonText.EscapeConcat | internal/application/text_batch.go:47-52 | encoding distributes over concatenation |
| JsonText.EscapeRuneMeaning | internal/application/text_batch.go:41-52 | exactly quotes, backslashes, control and HTML characters and line separators are escaped, to two bytes where a short form exists and six otherwise |
| JsonText.EscapeSize | internal/application/text_batch.go:47-52 | the encoded size is the sum over the characters |
| JsonText.EscapedIsSafe | internal/application/text_batch.go:41-52 | no encoding holds a control or HTML character |
| TextBatch.SizeMonotone | internal/application/text_batch.go:57-76 | longer prefixes encode to no fewer bytes |
| TextBatch.RuneEnds | internal/application/text_batch.go:57-61 | the loop lists every character boundary in order |
| TextBatch.TextPayloadPrefix | internal/application/text_batch.go:51-80 | the binary search finds the largest fitting prefix, or none fits |
| TextBatch.FirstRuneFits | internal/application/text_batch.go:75-77 | with a valid attempt ID the capacity error is unreachable |
| TextBatch.CutPositiveIff | internal/application/text_batch.go:170-187 | the cut advances exactly when the room holds the first character |
| TextBatch.RoomForAnyTextIff | internal/application/text_batch.go:28-39 | an empty buffer advances on every text exactly when it holds four bytes |
| TextBatch.Normalize | internal/application/text_batch.go:28-39 | defaults for zero fields, and acceptance exactly within the documented ranges |
| TextBatch.StreamSink.Flush | internal/application/text_batch.go:139-153 | greedy largest events recorded against what was pending, text preserved, nothing retried after a failure |
| TextBatch.StreamSink.Emit | internal/application/text_batch.go:155-189 | text taken is a prefix of what was emitted, all of it without error; every event is the largest fitting prefix of what its flush had left, and emit flushes only a buffer without room for any character |
| TextBatch.StreamSink.Close | internal/application/text_batch.go:191-203 | closing flushes what is pending |
| TextBatch.StreamAll | internal/application/text_batch.go:139-203 | over a whole stream the events add up to exactly the emitted text and are the greedy splits of the flushed batches |

## Left out

- EngineOutcomes.JobIsCollected: does not model that a job whose captured log fails its own check is failed whatever its exit code; log capture and job status meet nowhere else.
- Patch planning bounds the total size of the resulting workspace; the model carries that test as the predicate `limits.fits` on the planned tree, without the arithmetic inside it.
- The catch-up results of event delivery say that serving a client suffices; that the handler goroutines, the poll timer and the network are in fact scheduled is not stated.
- The reducer's helpers (`claim`, `adopt`, `settleEffect`, `scheduleEffect`, `stop`) update a private copy in place; they are functions on values here, so aliasing inside one transition is not captured.
- The engine, the HTTP handler and the watch client are step machines on values rather than imperative code: their state is shared by goroutines, processes and a daemon, and a crash or another participant may act between any two steps. The journal, the ledgers, the hub, the log writer and the text sink keep their in-place form.
- Grant signing, authentication, tenant row security and permissions: only the epoch carried by a request is kept.
- JSON canonicalisation, schema validation and SHA-256: an effect carries the validators' verdict.
- `verify` runs in a clean copy of the workspace; here a process may write the workspace, which allows more than the code.
- Reading the directory is one step; a job that is still running never overlaps a settlement, so nothing is lost by this.
- Storage release, snapshots, artifact publication and garbage collection of workspaces.
- The driver's polling loop, retry policy, telemetry and model calls; of the driver only the rule that decides whether an effect may be started.
- Which tenant, run or runner the scheduler's ordered queries pick: every eligible choice is allowed, so fairness is not stated.
- Snapshot compatibility holds beyond the flag that keeps a held run from being claimed.
- Event frames travel as values: the `id:`/`event:`/`data:` text framing, heartbeats and HTTP status mapping other than 410 are not modelled, nor are the limits on hubs and subscribers.
- Spool and metadata I/O errors other than a failed frame write: sync, close and metadata write failures are not modelled.
- Policy normalisation of log limits: its bounds are the predicate `LogSpool.ValidPolicy`.
- The timer goroutine of the text sink appears as optional flushes between emits.
- Provider adapters, HTTP routing, gRPC mapping, Docker CLI calls, route fallback and configuration parsing.
