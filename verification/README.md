# Cedar commit kernel: a verified model

A Dafny model of the transactional kernel of Cedar, a temporal graph database, with proofs
about every run of its protocols and every input of its codecs and readers.

| module | what it models |
|---|---|
| `CloseProtocol` | lock-free registration of commit calls against `Database::Close` |
| `Requests`, `AppendQueues` | commit footprints, the conflict index, the bounded append queue and group collection |
| `Preflight` | the planning loop of the speculative preflight worker |
| `CommitKernel` | the whole commit pipeline as one transition system: clients, append worker, preflight worker, store, completions, handles, shutdown |
| `KernelFrames`, `KernelOrder`, `KernelSpeculation`, `KernelLog`, `KernelHandles` | what its steps leave alone, and the four parts of its inductive invariant |
| `KernelTheorems`, `KernelOutcomes`, `KernelWitness` | what the invariant means for requests and for handles, and a run that exercises both commit paths |
| `KernelPrediction` | snapshot validation, and when the predicted write agrees with the general path |
| `KernelShutdown` | commit calls, `Database::Close` and the pipeline as one system |
| `Completion` | epoch completions and commit handles as objects |
| `SubmissionExecutor` | the bounded asynchronous submission mailbox and its shutdown |
| `SubmissionShutdown` | the mailbox joined to commit calls, `Database::Close` and the pipeline |
| `PressureControl`, `EpochLimits`, `Maintenance`, `Histograms` | pressure hysteresis, adaptive limits, maintenance credits, percentile summaries |
| `SemanticKey`, `StatementKey`, `PreparedCache` | the prepared-statement key and the bounded plan cache |
| `PreparedDecisions` | two-phase prepared commits with crashes between their writes |
| `Common` | options, 64-bit words and their saturating sum |
| `Facts`, `SnapshotReads`, `Overlay` | temporal facts, streamed snapshot reads and a transaction's read-your-writes overlay |

Protocols are transition systems: a step is one critical section, one atomic operation, one
store call or one publication, a run is any interleaving of enabled steps, and waits are
guards. Objects the program updates in place are classes whose methods are tied to functions
on values; the transition systems step with the same functions. Clocks, I/O outcomes, crashes
and visitor answers are parameters, so the theorems hold for all of them. Snapshot validation is
computed from what the log has written; strict reads and edge identities of a general-path
request are validated by a parameter.

Four expectations hold only under a condition, which is proved exactly:

- `KernelPrediction.DecidedRefinesGeneral`: a prediction whose dependencies were captured at the
  base of the epoch in flight is written without validation. It agrees with the general path
  unless a commit from outside the pipeline, such as a finalized prepared batch, took one of the
  sequences the epoch in flight was predicted to take and overlaps the plan.
- `Overlay.OverlayStateAgrees`: a point read through the overlay shows what committing first
  would show except in two cases. The base reader answers a durable deletion with nothing, so
  its boundary is lost and an earlier staged assertion shows through. And staged events are
  filtered by the boundary and change bounds of the specification before one is picked, while
  a committed point read ignores those bounds; an assertion or the end of one can be lost.
- `Overlay.CappedReadAgrees`: the overlay cuts its rows in canonical order, oldest boundary of
  a fact first, the committed reader in key order, newest first. The two cut differently
  exactly when the cap falls inside one fact.
- `Histograms.RankIsExact`: the percentile rank is the exact ceiling as long as the 64-bit
  product does not wrap.

The discard counters count a promoted group that proves stale both as promoted and as
discarded; `KernelTheorems.SlotAccounting` states the balance with that overlap taken out.

## Model

| member | source | states |
|---|---|---|
| `CloseProtocol.DrainExcludesCommits` | src/kernel/transaction.cc:434-477 | In every interleaving of commit and close calls: the counter is the number of registered calls, at most one close is in progress, and past its drain wait no commit is admitted |
| `CloseProtocol.ClosedForever` | src/kernel/database.cc:2186-2291 | Once a close succeeded the database stays closed and no commit is ever admitted again |
| `CloseProtocol.RunInv` | src/kernel/database.cc:2175-2291 | The inductive invariant behind both, including closes that fail and roll back |
| `CloseProtocol.CounterStep` | src/kernel/transaction.cc:445-477 | Every atomic operation keeps the counter equal to the number of registered, unended calls |
| `AppendQueues.MergedShares` | src/storage/facts/group_commit_planner.cc:244-259 | Testing a candidate against four accumulated sets decides exactly the pairwise may-share rule |
| `AppendQueues.ConflictIndex.Insert` | src/storage/facts/group_commit_planner.cc:253-269 | Accepts a footprint exactly when it shares with every member, and then holds one member more |
| `AppendQueues.LongestAdmissibleUnique` | src/kernel/database.cc:966-987 | The longest admissible prefix is unique, and nonempty for a waiting queue and a positive limit |
| `AppendQueues.AdmissiblePrefixClosed` | src/kernel/database.cc:966-987 | Every shorter prefix of an admissible group is admissible, so stopping at the first failure finds the longest |
| `AppendQueues.AppendQueue.TryAdmit` | src/kernel/database.cc:1401-1441 | Admits exactly when count, queued bytes and reserved bytes have room; the counters stay balanced and a refusal changes nothing |
| `AppendQueues.AppendQueue.CollectNext` | src/kernel/database.cc:972-987 | One round of the loop takes the next request exactly when the longer group is still admissible |
| `AppendQueues.AppendQueue.Collect` | src/kernel/database.cc:966-988 | Pops the longest admissible prefix: conflict-free, within the count limit, and within the byte target unless a single request |
| `AppendQueues.AppendQueue.Promote` | src/kernel/database.cc:918-932 | Pops exactly the predicted prefix and keeps the counters balanced |
| `AppendQueues.AppendQueue.Cancel` | src/kernel/database.cc:1523-1533 | Removes the request exactly when it is still queued, and gives back its count and bytes |
| `AppendQueues.AppendQueue.Release` | src/kernel/database.cc:1323-1332 | Gives back the reservation of the finished group |
| `AppendQueues.PushedBalanced` | src/kernel/database.cc:1482-1498 | Admission keeps every counter equal to what it counts and within bounds |
| `AppendQueues.TakenBalanced` | src/kernel/database.cc:983-986 | Selection moves bytes from queued to held without changing the reservation |
| `AppendQueues.ErasedBalanced` | src/kernel/database.cc:1526-1530 | Cancellation keeps the counters balanced |
| `AppendQueues.ReleasedBalanced` | src/kernel/database.cc:1331-1331 | Release returns exactly what the group held |
| `Preflight.Plan` | src/kernel/database.cc:745-761 | Plans the longest prefix of predictable requests that share with each other and with the epoch in flight, within the limits |
| `Preflight.PlanStep` | src/kernel/database.cc:746-757 | What the loop tests on a candidate is exactly what the longer plan needs |
| `KernelTheorems.RunInv` | src/kernel/database.cc:685-1340 | One invariant holds in every state of every interleaving of clients, append worker, preflight worker, store and shutdown |
| `KernelTheorems.StepKeepsInv` | src/kernel/database.cc:685-1340 | Every critical section, store call and publication keeps it |
| `KernelTheorems.AdmittedInOnePlace` | src/kernel/database.cc:1272-1340 | Each admitted request is in exactly one of cancelled, queued, selected, publishing and finished |
| `KernelTheorems.QueueConservation` | src/kernel/database.cc:1401-1441 | In every reachable state the queue count and the queued and reserved bytes equal what they count, and stay within bounds |
| `KernelTheorems.DrainedMeansPublished` | src/kernel/database.cc:1696-1703 | When the drain predicate holds, every uncancelled admitted request has its terminal result visible and that result agrees with the log |
| `KernelTheorems.SettledTerminal` | src/kernel/database.cc:1313-1340 | A finished or published request shows exactly the result fixed for it |
| `KernelTheorems.SequencesFollowAdmission` | src/kernel/database.cc:860-988 | Sequences are gap-free with one owner each, only uncancelled admitted requests own one, and the earlier admitted of two has the smaller |
| `KernelTheorems.CommitsInOrder` | src/kernel/database.cc:1080-1115 | Commit order is admission order across the predicted and the general path |
| `KernelPrediction.DecidedRefinesGeneral` | src/storage/rocks/rocks_adapter.cc:5527-5624 | In every run a decided write on a stale base writes nothing and falls back; on the live base it does what the general path would, snapshot validation included, if and only if the prediction was checked or no commit from outside the pipeline between the two bases overlaps the plan |
| `KernelPrediction.PredecessorCommittedAgrees` | src/kernel/database.cc:1172-1204 | A prediction whose predecessor epoch committed every request is always written as the general path would write it |
| `KernelPrediction.UncheckedGroup` | src/kernel/database.cc:244-258 | On the predicted base, dependencies captured at the epoch base hold if and only if no commit from outside the pipeline overlaps one of them |
| `KernelPrediction.PipelineDoesNotOverlap` | src/kernel/database.cc:745-761 | What the pipeline commits behind a plan overlaps none of its dependencies, because the plan avoids the epoch in flight |
| `KernelPrediction.RunForeseen` | src/kernel/database.cc:745-828 | The invariant behind these: plan, slot and promoted group avoid what their predecessor wrote, unchecked ones saw its base, and checked ones hold while the base is live |
| `KernelPrediction.PredecessorFills` | src/kernel/database.cc:1187-1192 | If the whole predecessor committed, it owns every sequence between the two bases |
| `KernelTheorems.GroupsArePrefixes` | src/kernel/database.cc:860-988 | A promoted or collected group is a conflict-free prefix of the queue |
| `KernelTheorems.PlansAlwaysShare` | src/kernel/database.cc:745-761 | Plans and slots hold only requests that may share one write |
| `KernelTheorems.SlotAccounting` | src/kernel/database.cc:1172-1204 | A slot carries the generation of the epoch in flight or just finished and never meets a collection; eligible = promoted + slot discards + pending; reasons sum to the discards |
| `KernelOutcomes.OutcomeIsFinal` | src/kernel/transaction.cc:373-391 | An outcome of an admitted request, sync or async, observed anywhere in a run is its outcome from then on |
| `KernelOutcomes.OutcomeIsTrue` | src/kernel/database.cc:1217-1271 | An admitted request shows Committed(n) exactly when the log holds it at n, cancelled exactly when it was removed from the queue, and never a refusal or the shutdown answer |
| `KernelOutcomes.OutcomeKept` | src/kernel/database.cc:1514-1573 | No single step of any thread changes an outcome of an admitted request that could already be observed |
| `KernelOutcomes.HandleOutcomeIsFinal` | src/kernel/transaction.cc:373-391 | The first outcome any handle shows, of an admitted, refused or swept request, is the one it shows from then on |
| `KernelOutcomes.HandleOutcomeIsTrue` | src/kernel/database.cc:139-167 | Whatever any handle shows is the truth: Committed(n) exactly when the log holds the request at n, cancelled exactly when removed from the queue, refused or shut down exactly when never admitted |
| `KernelOutcomes.TurnedAwayNeverCommits` | src/kernel/database.cc:1457-1512 | A request whose handle shows a refusal or the shutdown answer is admitted and committed at no moment of the run, before or after |
| `KernelOutcomes.QuiescedIsDrained` | src/kernel/database.cc:1696-1703 | Once admission is closed for good the pipeline stays drained |
| `KernelOutcomes.QuiescedDecidesAdmitted` | src/kernel/database.cc:1696-1707 | When shutdown starts sweeping, every request ever admitted, cancelled ones included, shows its outcome |
| `KernelOutcomes.SweepAnswers` | src/kernel/database.cc:1705-1707 | A handle visited by the shutdown sweep shows an outcome from then on, and the sweep replaces none |
| `KernelOutcomes.ResultsKept` | src/kernel/database.cc:1217-1271 | The result of a request is written once |
| `KernelOutcomes.RemovedWasHandled` | src/kernel/database.cc:1514-1533 | Only asynchronous requests are cancelled out of the queue |
| `KernelOrder.CancelOrdered` | src/kernel/database.cc:1523-1533 | Cancelling erases one request from the first-in first-out arrangement and nowhere else |
| `KernelOrder.OrderedSelect` | src/kernel/database.cc:860-988 | Selection keeps released, held and queued requests in admission order |
| `KernelSpeculation.SpecWrite` | src/kernel/database.cc:1172-1204 | Checking, writing and settling keep the slot sound and its accounting exact |
| `KernelSpeculation.SpecSelect` | src/kernel/database.cc:850-933 | Promotion, discard and exit keep the slot sound and its accounting exact |
| `KernelSpeculation.SpecOther` | src/kernel/database.cc:778-828 | Planning and installing keep the slot sound and its accounting exact |
| `KernelLog.LandIsAppend` | src/storage/rocks/rocks_adapter.cc:5469-5488 | Writing a group gives its survivors consecutive sequences, as appending them one at a time would |
| `KernelLog.SeqWritten` | src/kernel/database.cc:1098-1115 | A write that lands, fails or is refused keeps log, results and worker in agreement |
| `KernelHandles.HandleBind` | src/kernel/database.cc:1062-1074 | Binding the next handle keeps the handle invariant: each bound handle carries its ordinal in the one completion of its epoch, and no other handle is touched |
| `KernelHandles.HandleSweep` | src/kernel/database.cc:1705-1707 | A shutdown sweep after the drain keeps the handle invariant: every admitted handle is already decided, so the sweep writes none of them |
| `KernelWitness.BothPathsCommit` | src/kernel/database.cc:685-1340 | A concrete run commits one request on the general path and the next on the predicted path, so the theorems are not vacuous |
| `KernelWitness.UncheckedCanDisagree` | src/kernel/database.cc:1180-1192 | A concrete run in which a commit from outside takes the sequence of a refused request: the slot is kept, since only the visible base is compared, and the unchecked prediction is written where the general path would refuse it |
| `KernelShutdown.CloseRespectsPipeline` | src/kernel/database.cc:2186-2291 | Close and pipeline composed: in every run each step passes the guards the pipeline model states, so the store prepares to close only on a drained pipeline without cancellations and nobody submits behind it |
| `KernelShutdown.PipelineRun` | src/kernel/database.cc:2186-2291 | Every pipeline state inside a composed run is reached by a run of the pipeline alone, so its theorems hold there |
| `KernelShutdown.StepKeepsCoupled` | src/kernel/database.cc:2186-2291 | Every step of a commit call, a close call or the pipeline keeps the two halves in step, through failed closes that reopen |
| `KernelShutdown.OutcomesSurviveClose` | src/kernel/database.cc:2186-2291 | No step of commit calls, close calls or the pipeline changes an outcome a handle has shown |
| `KernelShutdown.CloseAnswersEveryRequest` | src/kernel/database.cc:2235-2291 | Once the store agreed to close, and for good after a successful close, the pipeline is empty and every request ever admitted shows the outcome the log gives it |
| `KernelShutdown.NoCallsWhileTearingDown` | src/kernel/database.cc:2250-2291 | While the pipeline is torn down, and after a close, no commit call is inside and no cancellation is under way |
| `SubmissionShutdown.StopAnswersEveryTicket` | src/kernel/async_submission_executor.cc:83-114 | Executor, commit calls, close and pipeline joined: when Stop has returned, every ticket the executor ever accepted has a handle with an outcome |
| `SubmissionShutdown.CloseAnswersEveryTicket` | src/kernel/database.cc:2250-2291 | The same after a successful close |
| `SubmissionShutdown.RunJoined` | src/kernel/database.cc:1594-1622 | The invariant behind both: a ticket leaves the table only after its request was admitted or its handle told, and the executor stops before the pipeline |
| `SubmissionShutdown.ToldStays` | src/kernel/database.cc:139-155 | A handle that was completed or bound stays so under every step of the pipeline |
| `Completion.EpochCompletion.Publish` | src/kernel/epoch_completion.cc:21-31 | Installs all results once, one per request |
| `Completion.EpochCompletion.WaitForResult` | src/kernel/epoch_completion.cc:39-46 | Answers with the result at the ordinal after publication, blocks before, and rejects an ordinal out of range |
| `Completion.CommitHandleState.AwaitAcceptance` | src/kernel/database.cc:1650-1693 | A non-pipelined submission is accepted exactly when its epoch is durable while it waits for that, or it committed; refused exactly when it ended otherwise; it blocks while neither is known |
| `Completion.CommitHandleState.Complete` | src/kernel/database.cc:139-155 | The first writer wins and an epoch keeps what it owns |
| `Completion.CommitHandleState.Bind` | src/kernel/database.cc:157-167 | The handle then takes its outcome from the epoch at that ordinal |
| `Completion.CommitHandleState.Wait` | src/kernel/transaction.cc:373-391 | A bound handle answers with the published result at its ordinal, whatever was written to it directly |
| `Completion.HandlesMatchModel` | src/kernel/database.cc:139-155 | The objects follow the rules the pipeline model steps with and answers by |
| `SubmissionExecutor.ReservationsMatchTickets` | src/kernel/async_submission_executor.cc:33-81 | In every interleaving the reserved requests and bytes equal the live ticket table and stay within the mailbox bounds |
| `SubmissionExecutor.CallbacksRunOnce` | src/kernel/async_submission_executor.cc:68-81 | In every interleaving no release callback runs twice, and none for a ticket still in the table |
| `SubmissionExecutor.StopReleasesEverythingOnce` | src/kernel/async_submission_executor.cc:83-114 | After Stop nothing is reserved and every accepted ticket left the table exactly once; its callback ran exactly once, unless a thread outside the executor removed it and still has to run it |
| `SubmissionExecutor.SubmissionOrder` | src/kernel/async_submission_executor.cc:126-153 | Tickets leave the mailbox in submission order, each once, and all have left after Stop |
| `SubmissionExecutor.RunInv` | src/kernel/async_submission_executor.cc:33-153 | The invariant behind these, over workers that read the cancelled bit and hand off in separate steps, callbacks run outside the lock, external release and shutdown |
| `SubmissionExecutor.AsyncSubmissionExecutor.Start` | src/kernel/async_submission_executor.cc:16-31 | Starts once, and only with workers and positive bounds |
| `SubmissionExecutor.AsyncSubmissionExecutor.TrySubmit` | src/kernel/async_submission_executor.cc:33-58 | Accepts under a fresh id exactly when complete, running and within both bounds; a refusal changes nothing |
| `SubmissionExecutor.AsyncSubmissionExecutor.Cancel` | src/kernel/async_submission_executor.cc:60-66 | Marks a live ticket and nothing else |
| `SubmissionExecutor.AsyncSubmissionExecutor.Release` | src/kernel/async_submission_executor.cc:68-81 | Exactly the caller that finds the ticket gives back its reservation and runs the callback |
| `SubmissionExecutor.AsyncSubmissionExecutor.BeginStop` | src/kernel/async_submission_executor.cc:83-94 | The first stop takes the whole mailbox in order and closes admission; later stops do nothing |
| `EpochLimits.Clamped` | src/kernel/adaptive_epoch_controller.cc:21-32 | Options become usable and usable options are left alone |
| `EpochLimits.SaturatingMultiply` | src/kernel/adaptive_epoch_controller.cc:12-17 | The exact product, or the largest 64-bit value when it does not fit |
| `EpochLimits.AdaptiveEpochController.Observe` | src/kernel/adaptive_epoch_controller.cc:38-47 | Updates the averages only from nonempty epochs, and the sync average only from known costs |
| `EpochLimits.AdaptiveEpochController.NextLimits` | src/kernel/adaptive_epoch_controller.cc:54-131 | Limits lie in [1, configured maximum]; age plus remaining wait never exceeds the larger of the age and the collection window; exact shape per pressure state |
| `EpochLimits.LimitsForQueue` | src/kernel/database.cc:471-498 | The same under the batch configuration, the pressure targets and both windows |
| `EpochLimits.GroupsNeverEmpty` | src/kernel/database.cc:966-987 | Under any pressure history a group collected from a waiting queue is nonempty and within the configured batch |
| `PressureControl.Ewma` | src/runtime/pressure_controller.cc:57-60 | The average stays between the old value and the sample, and never returns to zero |
| `Common.SaturatingAdd` | src/runtime/pressure_controller.cc:42-44 | The exact sum, capped at the largest 64-bit value |
| `PressureControl.ProjectedDebt` | src/runtime/pressure_controller.cc:46-53 | The exact five-second projection, capped at the largest 64-bit value |
| `PressureControl.PressureController.UpdateState` | src/runtime/pressure_controller.cc:117-150 | The state and recovery counter follow the hysteresis rule |
| `PressureControl.PressureController.UpdateTargets` | src/runtime/pressure_controller.cc:152-173 | Targets follow the state and the busy streak |
| `PressureControl.PressureController.Observe` | src/runtime/pressure_controller.cc:62-174 | One observation, averages first |
| `PressureControl.PressureController.DecideAdmission` | src/runtime/pressure_controller.cc:176-187 | Admits exactly outside Hard, within the targets, and not a deadline-free request behind others in Soft |
| `PressureControl.HardAtOnce` | src/runtime/pressure_controller.cc:98-133 | A hard signal forces Hard at once, and nothing else enters Hard |
| `PressureControl.RecoveryCountsStreak` | src/runtime/pressure_controller.cc:117-150 | The recovery counter is the length of the current streak of passing samples, below three |
| `PressureControl.LeavingTakesThree` | src/runtime/pressure_controller.cc:117-145 | Leaving Hard or Soft downward takes three consecutive passing samples in that state |
| `PressureControl.ThreeCleanReturnToNormal` | src/runtime/pressure_controller.cc:117-150 | Three consecutive clean samples return any state to Normal |
| `PressureControl.TargetsInRange` | src/runtime/pressure_controller.cc:152-173 | Over every sample sequence the target count is 64, 128, 192 or 256 and the byte target is fixed by the state |
| `PressureControl.AveragesWithinSamples` | src/runtime/pressure_controller.cc:62-77 | The rate averages never leave the range of the sampled rates |
| `Maintenance.PercentCeiling` | src/kernel/maintenance_policy.cc:31-36 | The exact ceiling of value times percent over 100, with no intermediate overflow |
| `Maintenance.WbmThresholdExact` | src/kernel/maintenance_policy.cc:38-42 | The threshold test is the exact fraction comparison |
| `Maintenance.FlushUnitBytes` | src/kernel/maintenance_policy.cc:66-74 | The largest unit over all column families and the totals |
| `Maintenance.SelectionSound` | src/kernel/maintenance_policy.cc:91-156 | Nothing is selected in an unsafe state; credits depend on the snapshot alone; a budget yield is followed by a budget that fits the reported unit |
| `Maintenance.MaintenanceController.PublishSnapshot` | src/kernel/maintenance_controller.cc:39-46 | A new snapshot opens a new sequence unless stopping |
| `Maintenance.MaintenanceController.TakeGrant` | src/kernel/maintenance_controller.cc:151-181 | Takes a grant exactly when a worker and a credit are free, and charges the current sequence |
| `Maintenance.MaintenanceController.FinishGrant` | src/kernel/maintenance_controller.cc:122-149 | Returns the grant, updates the history and keeps the first real error |
| `Maintenance.GrantsWithinCredits` | src/kernel/maintenance_controller.cc:82-120 | For any number of workers each published snapshot authorises at most its credits per lane, and at most one grant per worker runs |
| `Maintenance.GrantsConserved` | src/kernel/maintenance_controller.cc:151-209 | Requested grants are completed or outstanding |
| `Maintenance.NothingAfterError` | src/kernel/maintenance_controller.cc:82-86 | After the first error nothing is dispatched again, even across a restart |
| `Maintenance.NothingWhileStopping` | src/kernel/maintenance_controller.cc:151-160 | While stopping nothing is dispatched |
| `Histograms.Histogram.Record` | src/kernel/database.cc:54-64 | Buckets keep counting exactly the recorded samples |
| `Histograms.Histogram.ApproximatePercentile` | src/kernel/database.cc:383-396 | Reports the bound of the first bucket reaching the rank, or the maximum in the last bucket |
| `Histograms.PercentileNeverBelow` | src/kernel/database.cc:383-396 | The report is never below the true rank-th smallest sample, and no smaller bucket bound would do |
| `Histograms.RankthExists` | src/kernel/database.cc:386-387 | Some recorded sample has every rank |
| `Histograms.BucketsSumToCount` | src/kernel/database.cc:54-64 | The buckets sum to the number of samples |
| `Histograms.RankIsExact` | src/kernel/database.cc:385-387 | The rank is the exact ceiling if and only if count times percentile plus 99 fits in 64 bits |
| `Histograms.GroupFillBucket` | include/cedar/database.h:126-136 | The least bucket bound at or above the request count |
| `SemanticKey.SemanticKeyWriter.Integer` | src/cypher/semantic_key.cc:10-15 | Appends a tag and eight little-endian bytes |
| `SemanticKey.SemanticKeyWriter.AppendText` | src/cypher/semantic_key.cc:17-21 | Appends a tag, the length and the bytes |
| `SemanticKey.SemanticKeyWriter.Optional` | src/cypher/semantic_key.cc:23-27 | Appends presence and, if present, the value |
| `SemanticKey.SemanticKeyWriter.Sequence` | src/cypher/semantic_key.cc:29-34 | Appends a tag, the length and every element in order |
| `SemanticKey.PrimitivesUnambiguous` | src/cypher/semantic_key.cc:10-21 | Integers and texts, and whatever follows them, can be recovered from the bytes |
| `SemanticKey.OptionalUnambiguous` | src/cypher/semantic_key.cc:23-27 | An optional of an unambiguous encoding is unambiguous |
| `SemanticKey.SequenceUnambiguous` | src/cypher/semantic_key.cc:29-34 | A sequence of unambiguous encodings is unambiguous |
| `StatementKey.PatternPeel` | src/cypher/semantic_key.cc:77-95 | A path pattern can be recovered from its bytes |
| `StatementKey.PredicatePeel` | src/cypher/semantic_key.cc:96-105 | A predicate can be recovered from its bytes |
| `StatementKey.RoutingPeel` | src/cypher/semantic_key.cc:68-76 | Kind, graph, parts, scopes and the change flag can be recovered |
| `StatementKey.ClausesPeel` | src/cypher/semantic_key.cc:77-124 | All clause lists can be recovered |
| `StatementKey.DemandPeel` | src/cypher/semantic_key.cc:125-130 | The fact demand can be recovered |
| `StatementKey.PreparedSemanticKey` | src/cypher/semantic_key.cc:57-132 | The writer produces exactly the specified key |
| `StatementKey.KeyDecidesStatement` | src/cypher/semantic_key.cc:57-132 | Two keys are equal if and only if fingerprint, options and every encoded statement field are equal |
| `PreparedCache.CypherSession.Touch` | src/cypher/session.cc:38-52 | Moves a cached key to the front and evicts to 64; the key itself survives; cache, list and positions stay in step |
| `PreparedCache.CypherSession.Lookup` | src/cypher/session.cc:64-71 | A hit returns the cached plan and refreshes it; a miss changes nothing |
| `PreparedCache.CypherSession.Insert` | src/cypher/session.cc:79-86 | The first published plan of a key wins |
| `PreparedCache.TruncatedTouch` | src/cypher/session.cc:38-52 | Truncating before a touch loses nothing that survives the next truncation |
| `PreparedCache.CacheIsMostRecent` | src/cypher/session.cc:38-52 | In every interleaving the cache holds exactly the 64 most recently touched keys, in recency order |
| `PreparedCache.HitEqualsCompile` | src/cypher/session.cc:54-87 | In every interleaving a preparation is given the plan its own statement compiles to |
| `PreparedDecisions.Database.PersistPreparedCommit` | src/kernel/database.cc:2566-2580 | Refused once decided, committed or prepared with another batch |
| `PreparedDecisions.Database.PersistPreparedDecision` | src/storage/rocks/rocks_adapter.cc:4740-4790 | Records the first decision of a prepared transaction, accepts the same one again, refuses another |
| `PreparedDecisions.Database.FinalizePreparedCommit` | src/kernel/database.cc:2619-2670 | Decision first, always synchronized, then the write with the durability asked for; a crash may fall after either and may take back a buffered write |
| `PreparedDecisions.Database.AbortPreparedCommit` | src/kernel/database.cc:2672-2697 | Decision first, then the removal; a crash may fall after either |
| `PreparedDecisions.DecisionNeverChanges` | src/kernel/database.cc:2619-2697 | Over every sequence of calls and crashes a recorded decision is permanent |
| `PreparedDecisions.FinalizedOnlyOnCommit` | src/kernel/database.cc:2619-2697 | A transaction is finalized only after a commit decision and never when an abort is decided at any time |
| `PreparedDecisions.FinalizesWhatWasPrepared` | src/kernel/database.cc:2566-2580 | Nothing but the batch first prepared is finalized |
| `PreparedDecisions.SyncedFinalizeStays` | src/kernel/database.cc:2619-2670 | A synchronized finalize that returned Ok is there after any later calls and crashes |
| `PreparedDecisions.LostFinalizeIsRetried` | src/kernel/database.cc:2644-2669 | A buffered finalize taken back by a crash leaves the same batch prepared under the same decision: every abort is refused and repeating the call completes it |
| `PreparedDecisions.DifferentDecisionRefused` | src/kernel/database.cc:2638-2643 | A call is refused, changing nothing, exactly when outcome or certificate differ from the record |
| `PreparedDecisions.RetryCompletes` | src/kernel/database.cc:2644-2669 | A commit interrupted after its decision is completed by repeating the call, and repeating again is harmless |
| `SnapshotReads.EventBatcher.Append` | src/kernel/snapshot.cc:422-450 | Adds one row; delivers a full batch, and stops exactly at the cap |
| `SnapshotReads.ReadEvents` | src/kernel/snapshot.cc:407-480 | For every scan order, part list, batch limit and cap the delivered rows are exactly the first min(cap, n) matching events, no batch over the limit; a rejecting visitor gets a prefix |
| `SnapshotReads.StateScan` | src/kernel/snapshot.cc:764-797 | Delivers the rows of the scan in bounded batches; a rejecting visitor or a failing point read of a scanned fact ends it with a prefix |
| `SnapshotReads.StateScanIsExact` | src/kernel/snapshot.cc:764-797 | For a scan grouped by fact: exactly one row per scanned fact whose point read is present and matches |
| `Overlay.Transaction.Stage` | src/kernel/transaction.cc:544-557 | Accepts a valid mutation exactly when its fact and boundary are not staged yet |
| `Overlay.Transaction.StageEdge` | src/kernel/transaction.cc:559-576 | Stages the edge state and its identity together or not at all; a different identity is a conflict |
| `Overlay.VisitStaged` | src/kernel/transaction.cc:328-352 | Visits exactly the matching staged events in staging order |
| `Overlay.ReadEvents` | src/kernel/transaction.cc:215-278 | Delivers the sorted merge of base and staged events, up to the cap, in bounded batches; a rejecting visitor gets a prefix |
| `Overlay.ReadYourWrites` | src/kernel/transaction.cc:215-278 | An uncapped read delivers, in canonical order, exactly what a reader at base + 1 would select had the transaction committed alone, whatever its scan order |
| `Overlay.CappedReadAgrees` | src/kernel/transaction.cc:233-261 | With a row cap the overlay delivers the rows of the committed reader, which cuts in key order, if and only if the cap does not fall inside one fact of the rows the merge sees |
| `Overlay.CappedReadCanDisagree` | src/kernel/transaction.cc:233-261 | For any durable boundary and any earlier staged one of the same fact, a cap of one makes the overlay deliver the earlier where the committed reader delivers the later |
| `Overlay.SortedUnique` | src/kernel/transaction.cc:247-258 | The canonical order leaves one arrangement of a set of events |
| `Overlay.ReadStateAt` | src/kernel/transaction.cc:164-197 | The loop computes the later of the durable state and the staged winner |
| `Overlay.WinnerIsLatest` | src/storage/rocks/rocks_adapter.cc:3717-3745 | The state in force is the latest boundary not after the time, then the latest sequence |
| `Overlay.OverlayPicksTheWinner` | src/kernel/transaction.cc:164-197 | For an exact specification without boundary filters, where the durable state is present or has no boundary yet, the overlay picks the event a committed reader would |
| `Overlay.OverlayStateAgrees` | src/kernel/transaction.cc:164-197 | For every exact specification the overlay shows the state a committed reader would if and only if neither a durable deletion nor the filters of the specification hide the event in force; compared as states, since the overlay answers a staged deletion with the deletion itself |
| `Overlay.OverlayCanDisagree` | src/kernel/transaction.cc:172-182 | A fact deleted at 10 and staged again from 5 is shown at 20 by the overlay and not by a committed reader |
| `Overlay.FilteredReadCanDisagree` | src/kernel/transaction.cc:164-197 | A fact staged from 10 and read at 20 with a lower boundary bound of 15 is missing from the overlay and present for a committed reader |
| `Overlay.FilteredDeletionCanDisagree` | src/kernel/transaction.cc:164-197 | A fact asserted at 5 and deleted by a staged event at 10, read at 20 with boundaries up to 7, still shows in the overlay and not for a committed reader |
| `Overlay.AcceptedIsExact` | src/kernel/snapshot.cc:358-371 | Every specification the point reader accepts, the largest entity id without an upper bound included, names exactly one fact |

## Left out

- Overlay.ReadYourWrites: the sequence after the largest 64-bit base is not modelled; there the overlay reuses the base.
- Overlay.OverlayStateAgrees: reads at the overlay's own sequence; a caller-supplied older sequence is not modelled.
- KernelOutcomes.OutcomeIsTrue: the log is the visible commit log; whether a write reported indeterminate is found again by recovery is not modelled.
- KernelShutdown.CloseRespectsPipeline: the test-only mode that stops the pipeline before it is drained is not modelled.
- PreparedDecisions.FinalizedOnlyOnCommit: covers the policy that awaits an external decision, not finalizing every prepared batch on open.
- SnapshotReads.ReadEvents: a store iterator that fails is not modelled; the reader, and the overlay above it, return its error unchanged.
- KernelPrediction.DecidedRefinesGeneral: the general path it compares with has store reads that succeed; a failing read aborts a request there.
- KernelPrediction.UncheckedGroup: the recent-write index, identity history and interval cache that shorten validation are not modelled, only the rule they shorten.
- SubmissionShutdown.StopAnswersEveryTicket: `Stop` is the one `Close` calls; the executor's destructor calls it too.
- StatementKey.KeyDecidesStatement: source spans are not part of the key and not part of the model.
- PreparedCache.HitEqualsCompile: compilation is a function of the bound statement; a failed compilation is a step that leaves the cache alone.
- Memory reservations of readers and batches, and the columnar readers, which repeat the row readers column by column.
- Timed waits: how long a worker sleeps is not modelled, only what it may do when it wakes.
- Wrap-around of 64-bit counters that only ever grow (generations, ticket ids, metrics).
- The fact store's encoding, compaction and recovery, the Cypher parser, binder and query runtime.
- Total latency sums and the remaining pipeline metrics, which are only ever added to.
