# Verified models of the weather export pipeline

The repository collects weather facts, publishes them as immutable content-addressed files,
and serves them to readers. This project models the parts whose correctness depends on several
functions, several transactions or several processes at once, and proves what they promise.
`dafny verify dfyconfig.toml` checks everything.

## The models

**The export pipeline** (`ExportTypes`, `Lifecycle`, `Heads`, `Pipeline*`, `HeadChain`,
`Supersession`, `NextSince`, `Reconcile`, `PromotionPins`, `PromotionOutcome`, `FreshPublication`,
`Approvals`, `AttemptLimits`, `ProcessLimits`, `DailyProgress`). `Lifecycle` and `Heads` give
every database transaction as a function from database to database. `Pipeline` interleaves them,
step by step, with file writes, reconcile ticks, promotions, garbage collectors, readers and daily
reducers: one action is one transaction, one file operation or one critical section of the
artifact guard, any number of processes run at once, and any of them can stop between two of its
steps. `PipelineInvariant` says what every reachable state satisfies, the other `Pipeline*`
modules prove it step by step, and `PipelineTheorems`, `HeadChain`, `Supersession`, `NextSince`,
`PromotionPins`, `Approvals`, `AttemptLimits`, `ProcessLimits` and `Reconcile` state the results
over all runs. `PromotionOutcome`, `FreshPublication` and `DailyProgress` are the other side of
safety: when a promotion does publish, that no state is stuck, and that reducers catch up. A
digest is a free constructor over the lines of a file, so equal digests mean equal contents; the
canonical digest of a sorted list of semantic points is the multiset of them; a seal digest is the
record of what it covers. Instants are integers. Row locks are the atomicity of a step.

**The same transactions in the source's own form** (`ExportDatabase`, `HeadVerification`,
`ArtifactCollection`, `SnapshotHandles`): objects with updated fields and the loops of
`claim`, `close_plan`, `reconcile`, `promote`, the collector's scan and unlink batches and the
reader handles, each proved against the function or predicate the state machine uses.

**The artifact guard** (`Guard`, `GuardCalls`): slots, turnstile and lock files as a protocol of
single lock attempts, and the retry loops that run it while other callers act in between.

**Daily summaries** (`Daily`, `DailySummary`), **paging** (`Paging`), **partitions**
(`Partitions`), **the DEFAULT partition** (`DefaultPartition`, `OperatorSteps`), **the fresh
publisher sweep** (`FreshSweep`), **short-forecast retention** (`Retention`), **alert reduction**
(`Alerts`) and **the plan cache** (`PlanCache`).

## Where a promise needs a condition

- `close_plan` accepts several chunks without a point: values that have already expired when a
  chunk arrives are not stored (`repository.py`, lines 1867-1876). Such chunks are one and the same
  file, which a generation may name once (`export_heads.py`, line 250). `PromotionOutcome.PromotionAlone`
  says exactly when a promotion publishes; `FreshPublication.TwoEmptyChunks` is a run of the model
  in which a complete candidate is sealed and refused for this reason alone.
- `active_alert_values` removes duplicates by identity key. Every deciding announcement is reported
  where rows of one key carry the same title (`Alerts.ReportedWhenTitlesAgree`), as the KMA
  producer's rows do: its source record key is derived from the title. `Alerts.ReportedExactly` is
  the exact condition, and the hand-made rows of `Alerts.NewerVersionIsLost`, which no producer
  here makes, show that one is needed.
- `ensure_partitions` speaks of covering the requested days. A partition of another name that
  starts inside a day leaves a gap before it (`Partitions.MorningLost`);
  `Partitions.CoveredExactly` says of the partitions before the call exactly when a day ends up
  covered.
- The lag that a retention run reports bounds the age of what is left, except after a dry run
  whose first batch commits and finds all expired rows, of which there are some, within one batch
  (`Retention.RunRetention`, `Retention.DryRunUnderstates`).
- An observation read before its own target time is dropped for good
  (`Daily.FutureObservationIsLost`). Only timely observations decide the state
  (`Daily.BatchesWinners`), which is that of all observations exactly when no early one would have
  won (`Daily.AllWinnersExactly`).
- A scope that enters a forecast reader's roster after its head was published is sent with its next
  publication only (`NextSince.FollowerKnowsExactly`).

## Model

| member | source | states |
|---|---|---|
| PipelineSteps.NextKeeps | src/kortravelweather/export_heads.py:811-1125 | every action of every process keeps the invariant of the whole pipeline and undoes nothing that was final |
| PipelineSteps.RunKeeps | src/kortravelweather/export_lifecycle.py:212-687 | the same over any run from any state that satisfies the invariant |
| PipelineSteps.Reachable | src/kortravelweather/export_heads.py:482-1125 | every state reachable from empty tables satisfies the invariant |
| PipelineTheorems.NoReferencedFileMissing | src/kortravelweather/export_gc.py:85-133 | in every interleaving, no file is missing or of another size that a head, an approved location, a generation the daily checkpoint has not passed, or a handed-out snapshot (until one hour after it expires) refers to |
| PipelineTheorems.NoPendingFileMissing | src/kortravelweather/export_gc.py:119-132 | the written file of a receipt stays while its attempt is pending, and a pinned parent file stays while it is pinned |
| PipelineTheorems.ReturnedSnapshotReadable | src/kortravelweather/export_snapshots.py:151-165 | a snapshot whose files were checked under the shared guard keeps its row, its members and all their files until an hour after its expiry, whatever happens afterwards |
| ProcessLimits.OnlyOldFilesGo | src/kortravelweather/export_gc.py:136-242 | in every reachable state only an unlink inside the guard removes a file, one five minutes old to which nothing referred at the first look nor at the recheck |
| ProcessLimits.VisitExactly | src/kortravelweather/export_gc.py:172-192 | a file becomes eligible exactly if it was old and nothing referred to it when the collector started |
| ProcessLimits.RecheckExactly | src/kortravelweather/export_gc.py:198-214 | what a recheck keeps is exactly what something refers to in the tables at that moment |
| ProcessLimits.UnlinkExactly | src/kortravelweather/export_gc.py:215-229 | inside the guard a file of the batch goes exactly if it is still old and the recheck found no reference |
| ProcessLimits.ShortestCollection | src/kortravelweather/export_gc.py:154-172 | a collection starts exactly for a retention of an hour and a grace of five minutes at least |
| ProcessLimits.HandleTimes | src/kortravelweather/export_snapshots.py:112-134 | fifteen minutes of life, renewed on reuse only while unexpired and never shortened; gone only six hours after expiry |
| PipelineFiles.NeededIsLive | src/kortravelweather/export_gc.py:58-133 | whatever must be on disk is found by the reference query of any collector with a retention of at least an hour |
| PipelineFiles.RecheckCovers | src/kortravelweather/export_gc.py:198-214 | the recheck inside the exclusive guard covers every needed file of its batch |
| PipelineFiles.GcUnlinkKeeps | src/kortravelweather/export_gc.py:212-232 | an unlink never removes a needed file and keeps the whole invariant |
| PipelineFiles.ConfirmKeeps | src/kortravelweather/export_artifacts.py:298-319 | handing out a snapshot after its files were seen keeps the invariant |
| PipelineFiles.FreezeKeeps | src/kortravelweather/export_snapshots.py:449-493 | issuing a handle without the guard makes no file needed |
| PipelineFiles.RenewKeeps | src/kortravelweather/export_snapshots.py:549-578 | extending an unexpired handle needs no file that was not needed |
| PipelineFiles.PruneKeeps | src/kortravelweather/export_snapshots.py:112-136 | pruning old handles keeps the invariant |
| PipelineFiles.WriteKeeps | src/kortravelweather/export_artifacts.py:321-349 | the collector's write after its commit keeps the invariant |
| PipelineFiles.ReprojectKeeps | src/kortravelweather/export_inventory.py:130-160 | re-projecting approvals of a current head, without the guard, keeps the invariant |
| PipelineCas.CasKeeps | src/kortravelweather/export_heads.py:980-1125 | the head compare-and-swap, won or lost, keeps the invariant and moves nothing backwards |
| PipelineCas.WonFiles | src/kortravelweather/export_heads.py:1028-1032 | a winning promotion makes only files needed that were just seen, so nothing needed is missing |
| PipelineCas.WonHeads | src/kortravelweather/export_heads.py:1060-1115 | a winning promotion extends the parent chain of its namespace and no other |
| PipelineCas.PublicationTimeAdvances | src/kortravelweather/export_heads.py:1033-1054 | whatever the server clock says, the publication time is later than the clock row and than every generation, and no later than that needs |
| PipelinePromotion.CandidateFiles | src/kortravelweather/export_heads.py:914-979 | the files a promotion publishes, its own or the parent's, hold the bound points once each, cover the declared locations, and have truthful references |
| PipelinePromotion.ReusedFiles | src/kortravelweather/export_heads.py:957-979 | files reused from a parent of equal content satisfy the same, by induction along the chain |
| PipelinePromotion.ReindexedLines | src/kortravelweather/export_heads.py:965-979 | rebuilding the location index of reused files changes no line and no digest |
| PipelinePromotion.PinRoots | src/kortravelweather/export_heads.py:878-913 | pinning adds no file that the current head did not already need |
| HeadChain.OneChainPerNamespace | src/kortravelweather/export_heads.py:1005-1115 | the generations of a namespace form one parent chain ending at the head; its version is the chain's length, revisions never fall, equal revisions have equal content |
| HeadChain.HeadsOnlyAdvance | src/kortravelweather/export_heads.py:1016-1115 | over any run a head's version, revision and collection time never fall, and a version or revision is never reused for other content |
| HeadChain.StepPublishesAtMostOne | src/kortravelweather/export_heads.py:984-1125 | a step publishes nothing, or one generation of the attempt that is then current epoch owner of all its scopes, sealed, with a successful run and no generation, raising one version by one |
| HeadChain.OneGenerationPerAttempt | src/kortravelweather/export_heads.py:984-996 | an attempt publishes at most once |
| HeadChain.PublishedFilesHoldSource | src/kortravelweather/export_heads.py:914-979 | every published generation's files hold exactly the bound multiset of semantic points, each logical point once, over exactly the declared locations |
| HeadChain.BoundResponseIsPublished | src/kortravelweather/export_heads.py:727-798 | whatever happens after a response is bound, a generation of that attempt holds exactly that response |
| HeadChain.SealIsFinal | src/kortravelweather/export_lifecycle.py:457-549 | after `close_plan` nothing the seal covers ever changes, and the completeness barrier keeps holding |
| AttemptLimits.ReachableLimits | src/kortravelweather/export_lifecycle.py:308-455 | in every reachable state: at most 10,000 plan rows with 50,000 references, which the counter equals; every receipt counts its points by source and repeats its plan row; every closure names chunks that cover it; a bound response was fetched after the declaration |
| AttemptLimits.SealedPinsExactly | src/kortravelweather/export_heads.py:811-877 | of the checks before pinning, only ownership and the size of the promotion can still refuse a sealed attempt |
| HeadChain.PublicationTimesRise | src/kortravelweather/export_heads.py:1033-1054 | publication times rise strictly in commit order |
| HeadChain.DailyAppliesEachOnce | src/kortravelweather/export_daily_store.py:98-240 | over all races and crashes the applied generations are a prefix of the published ones, each once, none skipped; unread means not yet applied |
| PipelineDaily.AnswersFollow | src/kortravelweather/export_daily_store.py:98-114 | the keyset query after the checkpoint answers exactly the next published generations |
| PipelineDaily.NothingSkipped | src/kortravelweather/export_daily_store.py:102-114 | the next published generation is never passed over by the query |
| PipelineDaily.WinnerPosition | src/kortravelweather/export_daily_store.py:169-186 | the batch that wins the checkpoint race starts where the applied log ends |
| DailyProgress.AnswerExactly | src/kortravelweather/export_daily_store.py:102-114 | the query has exactly one answer: the next `limit` published generations, or all that are left |
| DailyProgress.CatchesUp | src/kortravelweather/export_daily_store.py:98-240 | from any reachable state, n undisturbed rounds of an idle reducer apply the next n times `limit` generations, or all of them |
| NextSince.SentExactlyTheChanges | src/kortravelweather/export_forecasts.py:409-419 | a poll sends a scope exactly when its head is not the one of the client's watermark |
| NextSince.FollowerKnowsExactly | src/kortravelweather/export_forecasts.py:85-101 | a client that follows `next_since` knows after every poll the current head of exactly those scopes that were in the roster of the first poll after its publication |
| NextSince.FollowerMissesNothing | src/kortravelweather/export_forecasts.py:85-101 | a scope that is in the roster of every poll is never missed, whatever is published between polls |
| Supersession.ClaimedCases | src/kortravelweather/export_collector.py:435-473 | a claimed attempt owns all its scopes, lost all of them or lost some, exclusively, and only the second kind is retired as SUPERSEDED |
| Supersession.RetiredExactly | src/kortravelweather/export_collector.py:435-518 | exactly when an attempt is retired as SUPERSEDED, and what that changes |
| Supersession.EndedExactly | src/kortravelweather/export_collector.py:508-620 | exactly when it is given up because its run ended |
| Supersession.LostScopeStaysLost | src/kortravelweather/export_lifecycle.py:267-306 | a scope taken over by a later claim is never owned again |
| Supersession.LostScopeFailsEveryCheck | src/kortravelweather/export_lifecycle.py:149-179 | an attempt with a lost scope cannot record a chunk for it, close it, be reconciled, pinned or published |
| Supersession.SupersededIsFinal | src/kortravelweather/export_collector.py:676-707 | the SUPERSEDED condition is stable and no continuation publishes the attempt, so retiring it loses nothing |
| Supersession.PartlyTakenWaits | src/kortravelweather/export_collector.py:435-473 | an attempt that lost only some scopes is not retired this way and never publishes either |
| Supersession.RetiredNeverPublishes | src/kortravelweather/export_collector.py:508-518 | however an attempt was given up, no later step publishes it |
| Reconcile.TickRowsBound | src/kortravelweather/export_lifecycle.py:612-619 | a tick checks at most 16 MiB, and at least one receipt while any is left |
| Reconcile.TickRowsMaximal | src/kortravelweather/export_lifecycle.py:577-619 | a tick takes unvalidated receipts in key order and stops short of its limit only at the last one or at one beyond 16 MiB |
| Reconcile.TickProgress | src/kortravelweather/export_lifecycle.py:551-687 | an undisturbed tick validates its rows and seals exactly when they were the last |
| Reconcile.DrainSeals | src/kortravelweather/export_lifecycle.py:551-687 | undisturbed ticks seal a closed attempt with readable files after at most as many ticks as unvalidated receipts, and change nothing else |
| Reconcile.SealedMeansVerified | src/kortravelweather/export_lifecycle.py:620-687 | a sealed attempt is closed, and every receipt's file was read and found intact |
| Reconcile.WitnessedIsRead | src/kortravelweather/export_artifacts.py:351-381 | a file counts as verified only from a read that found its size and line count |
| PipelinePublisher.TickRowsUnvalidated | src/kortravelweather/export_lifecycle.py:577-593 | a tick takes the first unvalidated receipts in key order, at most the limit |
| PromotionOutcome.PromotionAlone | src/kortravelweather/export_heads.py:811-1125 | from any state, an undisturbed promotion of a sealed attempt with readable files publishes exactly when the chunks make up the bound response, the head is not ahead and at most one own chunk is empty; it then moves this head alone, by one version, onto that response, and the approvals of its locations and no others; otherwise it leaves only its pins |
| PromotionOutcome.OwnFilesDistinct | src/kortravelweather/export_heads.py:250 | a complete candidate meets the one-name-per-file constraint exactly when at most one of its chunks is empty |
| PromotionOutcome.EqualContentSelected | src/kortravelweather/export_heads.py:957-971 | the check of a reused parent's points never fails, because its content is the candidate's |
| Approvals.ApprovalsOnlyAdvance | src/kortravelweather/export_inventory.py:101-107 | over any run no approval is lost, and one that changes goes to a generation created later |
| Approvals.ReprojectedIsYoungest | src/kortravelweather/export_inventory.py:130-165 | a re-projected head approves a location exactly where no generation at least as young does |
| PipelineReferences.RunKeepsRefs | src/kortravelweather/export_heads.py:957-962 | over any run, published manifests keep the bounds under which a later promotion can reuse them |
| FreshPublication.AnyResponsePublishes | src/kortravelweather/export_lifecycle.py:212-687 | from any state of the pipeline, a new attempt can take the scope over, capture any complete response that is not behind the head or less than half its size, in any division into chunks, and be sealed; its promotion then publishes exactly that response if at most one chunk is empty or the head has this content, and otherwise leaves only its pins |
| FreshPublication.NeverStuck | src/kortravelweather/export_heads.py:482-1125 | from every reachable state such a response can be published: no run leads to one where publication has become impossible |
| FreshPublication.TwoEmptyChunks | src/kortravelweather/export_heads.py:250 | a run after which a complete candidate that is not behind the head is sealed and still not published, because two of its chunks are the empty file |
| PromotionPins.EveryPinProtectsParent | src/kortravelweather/export_heads.py:800-810 | over every run and every try, the second transaction pins the whole present manifest of the namespace, whatever rows earlier tries left |
| PromotionPins.PinnedParentStays | src/kortravelweather/export_heads.py:878-1032 | a promoter that is still current owner of a pending attempt finds the head it pinned, and until its final transaction every file of that head stays on disk |
| PromotionPins.RunKeepsPins | src/kortravelweather/export_heads.py:902-913 | over any run, the parent rows of a current owner name the files of the present head, and those of a running promotion cover all of them |
| ExportDatabase.Database.CurrentOwners | src/kortravelweather/export_lifecycle.py:149-179 | the row comparison decides current ownership, for all or for selected sources |
| ExportDatabase.Database.Claim | src/kortravelweather/export_lifecycle.py:267-306 | the upsert loop takes every planned scope at its next epoch, or only checks a repeated claim |
| ExportDatabase.Database.CreateAttempt | src/kortravelweather/export_receipts.py:112-167 | a new attempt of a running run, native without or dagster with the run's orchestrator |
| ExportDatabase.Database.Declare | src/kortravelweather/export_heads.py:497-563 | a policy is declared once, by the current owner of its one source, before anything is planned |
| ExportDatabase.Database.Bind | src/kortravelweather/export_heads.py:727-798 | a response fetched after the declaration is fixed once, before anything is planned, unless it has less than half of the head's points |
| ExportDatabase.ValidateHeadCapture | src/kortravelweather/export_heads.py:404-459 | the loops accept exactly captures whose values lie in the policy and are those bound, all of them for a nowcast, some without repeats for a forecast |
| ExportDatabase.Database.RecordChunk | src/kortravelweather/export_receipts.py:168-261 | a receipt is recorded once, as planned and counted, while the plan is open; a repeated capture must be equal |
| ExportDatabase.Database.ExpectChunk | src/kortravelweather/export_lifecycle.py:308-405 | a plan row is inserted once, within the bounds, and a repeated one must be equal |
| ExportDatabase.Database.CloseSource | src/kortravelweather/export_lifecycle.py:407-455 | a source is closed once, with planned chunks that cover it |
| ExportDatabase.ChunksBySource | src/kortravelweather/export_lifecycle.py:490-493 | the loop finds for every planned source exactly the chunks covering it, or an unplanned source |
| ExportDatabase.AdmittedBySource | src/kortravelweather/export_lifecycle.py:494-499 | the loop sums the admitted points of every source, or finds an unplanned one |
| ExportDatabase.BarrierDecided | src/kortravelweather/export_lifecycle.py:500-508 | the final comparison holds exactly when the completeness barrier does |
| ExportDatabase.Database.ClosePlan | src/kortravelweather/export_lifecycle.py:457-549 | sealing happens exactly when owner, run, barrier and bound plan allow it |
| ExportDatabase.Database.CommitTick | src/kortravelweather/export_lifecycle.py:632-687 | the second reconcile transaction adds missing rows only and seals when none is missing |
| ExportDatabase.Database.Pin | src/kortravelweather/export_heads.py:838-913 | the insert loops leave existing pin rows alone |
| ExportDatabase.Database.Decide | src/kortravelweather/export_heads.py:984-1031 | the order of tests that decides a promotion race |
| ExportDatabase.Database.Swap | src/kortravelweather/export_heads.py:1032-1125 | the winner writes generation, head, clock, approvals and attempt; a loser writes nothing |
| ExportDatabase.Database.ApplyBatch | src/kortravelweather/export_daily_store.py:169-239 | the checkpoint moves only from where the batch was read |
| HeadVerification.VerifyCandidate | src/kortravelweather/export_heads.py:914-956 | the verification loops accept exactly the readable candidates whose points are the bound source, and compute its content |
| HeadVerification.VerifyParent | src/kortravelweather/export_heads.py:957-979 | the parent's files are accepted exactly when readable and within the selection, and are reindexed |
| ArtifactCollection.Store.Scan | src/kortravelweather/export_gc.py:136-197 | only old files are listed to which no row refers that must keep them, and all of them on completion |
| ArtifactCollection.Store.Collect | src/kortravelweather/export_gc.py:136-242 | a file goes only if it is old and no row keeps it; a complete deleting run leaves exactly the young files and those that a head, an approval, a generation younger than the retention, a snapshot unexpired past it or among the latest 64, a generation after the checkpoint, a pending receipt or a pin refers to; a dry run deletes nothing |
| ArtifactCollection.ReferencedIs | src/kortravelweather/export_gc.py:85-133 | the reference query finds exactly those files, stated on the tables |
| SnapshotHandles.Handles.Freeze | src/kortravelweather/export_snapshots.py:444-493 | a handle is reused exactly when it is unexpired, of the same manifest and the latest of its selection; the answer is the latest handle afterwards |
| SnapshotHandles.Handles.PreviousSuccess | src/kortravelweather/export_snapshots.py:505-542 | the fallback answers the manifest issued last, behind a live handle |
| SnapshotHandles.Handles.Renew | src/kortravelweather/export_snapshots.py:549-578 | a renewal never shortens a handle and touches no other |
| SnapshotHandles.Handles.Prune | src/kortravelweather/export_snapshots.py:112-136 | of the unlocked handles expired longer than the retention, as many go as the limit allows, those that expired first |
| SnapshotHandles.EnsureSnapshotFiles | src/kortravelweather/export_snapshots.py:151-165 | at most three issues and two checks of all references against the store; the handle returned is the first whose check passed, and none exactly when both failed |
| SnapshotHandles.AllRefsPresent | src/kortravelweather/export_artifacts.py:298-312 | the loop decides whether every reference is there at its size |
| SnapshotHandles.CheckedIsPresent | src/kortravelweather/export_snapshots.py:151-165 | that check of a manifest is the pipeline's test for handing its snapshot out |
| Guard.StepConsistent | src/kortravelweather/export_artifacts.py:180-248 | the lock files held are always those that the progress of the calls implies |
| Guard.MutualExclusion | src/kortravelweather/export_artifacts.py:180-248 | in every reachable state at most two readers, no reader beside a writer, no two writers, and the exclusive holder holds the turnstile |
| Guard.ReaderPastTurnstileNeverBlocks | src/kortravelweather/export_artifacts.py:201-222 | a reader with the turnstile is never refused the lock |
| Guard.NoReaderEntersPastWriter | src/kortravelweather/export_artifacts.py:155-178 | while a writer has the turnstile no reader gets the lock |
| Guard.WriterWaitsForReadersOnly | src/kortravelweather/export_artifacts.py:203-228 | a writer waits for at most the two readers it found |
| Guard.NoDeadlock | src/kortravelweather/export_artifacts.py:129-248 | while any call is under way some call can take its next step |
| Guard.RefinesReadersWriterLock | src/kortravelweather/export_artifacts.py:180-248 | the protocol refines a lock for two readers or one writer |
| GuardCalls.LockFiles.Enter | src/kortravelweather/export_artifacts.py:129-228 | the retry loops, with others acting in between, end inside the guard or with nothing held, and the guard excludes what it must when they do |
| GuardCalls.LockFiles.Exit | src/kortravelweather/export_artifacts.py:233-248 | leaving releases everything the call held |
| Daily.MergeObservations | src/kortravelweather/export_daily.py:107-121 | the in-place merge is the fold of the per-point rule |
| Daily.BatchesWinners | src/kortravelweather/export_daily.py:45-121 | however observations are batched and whatever the clocks of the merges, the state is the least-rank winner per hour and field among the timely points |
| Daily.FirstTimelyWins | src/kortravelweather/export_daily.py:88-121 | an hour and field holds the timely offer of the provider first in the list, then of the latest target, then known last, then with the smallest hash, and nothing exactly when there is none |
| Daily.FiledUnder | src/kortravelweather/export_daily.py:63-105 | an observation is filed under the Seoul day, hour and slot of its instant, rain under the hour before |
| Daily.AcceptedExactly | src/kortravelweather/export_daily.py:46-84 | exactly which metrics, units and ranges are accepted, and the value in the field's unit |
| Daily.OrderAndBatchesDoNotMatter | src/kortravelweather/export_daily.py:91-121 | two histories with the same timely observations end in the same state |
| Daily.AllWinnersExactly | src/kortravelweather/export_daily.py:107-121 | the state is that of all points offered exactly when no point that came too early would have won |
| Daily.NoneEarlyAllWin | src/kortravelweather/export_daily.py:111-121 | when no observation came before its target time, the state is the winner of all points offered |
| Daily.MergeIsIdempotent | src/kortravelweather/export_daily.py:107-121 | merging the same points again changes nothing, for any state and clock |
| Daily.AtMostSixHoursOfFive | src/kortravelweather/export_daily.py:107-108 | after any merges into the stored state, never more than six hours with five fields each |
| Daily.FutureObservationIsLost | src/kortravelweather/export_daily.py:111-113 | an observation from the future is dropped for good, so only the timely ones decide |
| DailySummary.PrecipitationOnlyWhenCovered | src/kortravelweather/export_daily.py:137-154 | after any merges into the stored state, exactly when a precipitation sum, "no rain" and "rain" are published |
| DailySummary.TemperaturesAgree | src/kortravelweather/export_daily.py:127-152 | the extremes are winners' values, no hour's winner is outside them, the average lies between them, and all are present exactly when there is a winner |
| DailySummary.SkyIsMostFrequent | src/kortravelweather/export_daily.py:135-136 | the sky code is a winner's, none is shown in more hours, and it is the smallest of those shown in as many |
| DailySummary.SummaryFields | src/kortravelweather/export_daily.py:124-161 | averages and rain sum are those of the winners, with the hour count, the providers and whether the slot is still running |
| Paging.ForecastPage | src/kortravelweather/export_forecasts.py:409-502 | the nested loops answer the longest prefix within both limits, the cursor of the rest, and whether anything is left |
| Paging.DailyPage | src/kortravelweather/export_daily_reader.py:364-425 | the same for the daily reader, which reads `more` off the cursor |
| Paging.LocationsPage | src/kortravelweather/export_snapshots.py:646-661 | the sliced location list answers the longest prefix within both limits, and fails exactly when the page would stop inside its slice at an item that fits no page |
| Paging.GreedyUnique | src/kortravelweather/export_snapshots.py:644-725 | a page is determined by the list and the limits |
| Paging.MoreMeansProgress | src/kortravelweather/export_forecasts.py:485-502 | a page that announces more is not empty and shortens what is left |
| Paging.ReadAll | src/kortravelweather/export_snapshots.py:644-725 | following the cursor of any of the three readers yields the whole list once and in order, and fails exactly when one item fits no page |
| Partitions.OverlappingUpperBound | src/kortravelweather/partitions.py:84-101 | the greatest upper bound among the overlapping partitions |
| Partitions.Table.EnsurePartitions | src/kortravelweather/partitions.py:392-451 | it fails exactly when a requested day without a partition is filled to its end, and otherwise creates exactly the missing days from where they start |
| Partitions.Table.MissingForwardDays | src/kortravelweather/partitions.py:363-374 | exactly the unnamed days at or after the floor, in order |
| Partitions.Table.EnsureForward | src/kortravelweather/partitions.py:377-389 | only ranges at or after the floor are created, and every such day of the range is named; it fails exactly when one of the missing days is filled to its end |
| Partitions.EnsuredDisjoint | src/kortravelweather/partitions.py:392-451 | every created partition is disjoint from every existing and every other created one |
| Partitions.NeverOverlaps | src/kortravelweather/partitions.py:428-449 | the clamped range of a day overlaps nothing, so the database never refuses it for that |
| Partitions.CoveredExactly | src/kortravelweather/partitions.py:392-451 | exactly when, by the partitions before the call, a requested day is covered afterwards |
| Partitions.NoGaps | src/kortravelweather/partitions.py:392-451 | where older partitions reach into a day only from before its midnight, the range has no gap |
| Partitions.MorningLost | src/kortravelweather/partitions.py:428-449 | a partition that starts inside the day leaves the time before it uncovered |
| DefaultPartition.EveryBoundary | src/kortravelweather/default_partition.py:235-392 | at every transaction boundary of every run: DEFAULT below a validated floor, its partitions there, removals before their cutoff, a validated key without dangling pointers |
| DefaultPartition.IngestExactly | src/kortravelweather/partitions.py:319-342 | a new row goes to the partition whose range holds it, otherwise to DEFAULT unless the floor refuses it |
| DefaultPartition.ValidatedWithPartitions | src/kortravelweather/default_partition.py:326-374 | the commit that validates the floor also has every forward partition |
| DefaultPartition.FloorNeverMoves | src/kortravelweather/default_partition.py:282-289 | a validated floor's value never changes |
| DefaultPartition.NoFactVanishes | src/kortravelweather/default_partition.py:722-801 | a fact stays or is recorded as removed |
| DefaultPartition.ValidForecastsAreKept | src/kortravelweather/default_partition.py:596-610 | over any run a short forecast stays as long as it is valid at or after the short cutoffs of the removal steps |
| DefaultPartition.ValidPointersAreKept | src/kortravelweather/default_partition.py:553-590 | so does the projection pointer to it |
| DefaultPartition.DeletesExactlyExpired | src/kortravelweather/default_partition.py:590-620 | the row-by-row path removes exactly the rows of its batch known before the cutoff that are not short forecasts still valid |
| DefaultPartition.NormalReturnLeavesNoDangling | src/kortravelweather/default_partition.py:642-651 | on normal return of the swap path no pointer dangles, and the second validation cannot fail |
| DefaultPartition.NextRunFinishesSwap | src/kortravelweather/default_partition.py:752-761 | a run that died after the swap is finished by the next one |
| DefaultPartition.LeftoverFloorIsRemoved | src/kortravelweather/default_partition.py:272-281 | a floor left unvalidated is removed before anything else |
| OperatorSteps.WalkDelete | src/kortravelweather/default_partition.py:472-551 | the page walk deletes exactly the matching rows from its start block on and counts them |
| OperatorSteps.FactTable.ValidateAndCreate | src/kortravelweather/default_partition.py:326-374 | validation and partitions commit together, exactly when no DEFAULT row is at or above the floor and no missing day is filled, or not at all |
| OperatorSteps.FactTable.SwapDefault | src/kortravelweather/default_partition.py:654-679 | the swap is refused exactly while a short forecast valid at or after the short cutoff is inside, and otherwise empties DEFAULT into a detached table under the same floor |
| OperatorSteps.FactTable.DropOldDefault | src/kortravelweather/default_partition.py:694-703 | the old DEFAULT is dropped exactly unless it holds a short forecast valid at or after the short cutoff |
| OperatorSteps.FactTable.ValidateForeignKeys | src/kortravelweather/default_partition.py:642-651 | validate, delete what dangles, validate again |
| OperatorSteps.FactTable.EstablishFloor | src/kortravelweather/default_partition.py:235-319 | alone it ends with a validated floor and its partitions, with the floor it found, or, exactly when a row lies above the new floor or a missing day is filled, without success |
| OperatorSteps.FactTable.PurgeWhole | src/kortravelweather/default_partition.py:752-784 | alone it finishes a leftover whatever floor and cutoff are, refuses without a validated floor, and otherwise empties DEFAULT, keeps the floor and leaves no dangling pointer; it returns normally exactly when no row it would remove is a forecast still valid |
| FreshSweep.TopRows | src/kortravelweather/export_collector.py:921-923 | a descending limited query answers the greatest rows, in order |
| FreshSweep.PublishFresh | src/kortravelweather/export_collector.py:926-1015 | over a fixed set of candidates the sweep ends, visits no attempt twice, in non-increasing finish time also across window boundaries, all of them exactly when they fit the maximum and the budget, and otherwise the most recent ones |
| FreshSweep.WindowDone | src/kortravelweather/export_collector.py:994-1001 | leaving a finished window skips nothing, although runs on both sides may share a finish time |
| Retention.Store.Purge | src/kortravelweather/repository.py:4192-4310 | a committed batch takes and counts the first expired keys after the position, as many as fit, and tells whether any are left; a deferred one changes nothing |
| Retention.RunRetention | src/kortravelweather/retention.py:231-338 | the run removes and counts the block of expired keys from its effective start to its resume key, the greatest of them; a dry run moves nothing; from its input, exactly when the reported lag is a bound |
| Retention.DryRunUnderstates | src/kortravelweather/retention.py:331-336 | a dry run that reports no lag although an expired row is there |
| Retention.HeadScannedWithinADay | src/kortravelweather/retention.py:207-228 | over chained runs, 24 hours after the last head scan the next run starts from the head |
| Retention.ResumesExactly | src/kortravelweather/retention.py:207-228 | exactly when the recorded position is taken up, and when it is only kept in reserve |
| Retention.RecordedIsLastHeadRun | src/kortravelweather/retention.py:256-275 | the recorded head scan time is that of the last run from the head |
| Retention.StallMeansNoProgress | src/kortravelweather/retention.py:352-369 | over any chain of runs the count is the number of stalled runs at its end: behind by more than a day and not less late than the run before |
| Alerts.Reduce | src/kortravelweather/alerts.py:139-148 | the loops decide every identity by the first row that names it |
| Alerts.ActiveAlertValues | src/kortravelweather/alerts.py:90-164 | the result is the list of distinct winners, latest event first, then latest known |
| Alerts.ActiveExactly | src/kortravelweather/alerts.py:96-148 | by event time, then known time, source record and value id: an identity is active exactly when some live announcement for it has no later release, expired releases included, and the latest such announcement decides |
| Alerts.ReportedExactly | src/kortravelweather/alerts.py:150-164 | every deciding announcement is reported exactly when no two share a value id, and nothing else is reported |
| Alerts.ReportedWhenTitlesAgree | src/kortravelweather/alerts.py:150-164 | where rows of one value id carry the same title, exactly the deciding announcements are reported |
| Alerts.InputOrderDoesNotMatter | src/kortravelweather/alerts.py:129-137 | without ties the result is the same for any order of the rows |
| Alerts.NewerVersionIsLost | src/kortravelweather/alerts.py:151-155 | two hand-made rows with one value id and different titles show that the condition is needed |
| PlanCache.MetadataBudget.AddBoundedRecord | src/kortravelweather/export_capacity.py:48-57 | the budget grows by the record and refuses it beyond either bound |
| PlanCache.ReadScopePlans | src/kortravelweather/export_capacity.py:103-132 | a read succeeds exactly when all plans exist, are readable and fit the budget |
| PlanCache.Cache.Remembered | src/kortravelweather/export_inventory_selection.py:186-194 | hits are answered and move behind the others, which keep their order; the cache keeps its entries and limits |
| PlanCache.Cache.Remember | src/kortravelweather/export_inventory_selection.py:197-209 | new entries go behind the others, only the least recently used are dropped and no more than the limits force; the byte counter stays the sum of the entries |
| PlanCache.Cache.ParsedScopePlans | src/kortravelweather/export_inventory_selection.py:212-237 | the answer is that of an uncached read, whatever is cached |
| PlanCache.Serve | src/kortravelweather/export_inventory_selection.py:174-237 | over any sequence of requests, with plans added or lost in between, every answer is that of a process that remembers nothing |

## Left out

- SHA-256 and canonical JSON are free constructors; hash collisions and encodings are not modelled.
- SQL text, row locks, statement and lock timeouts: a transaction is one atomic step, and one that times out is a step that does not happen.
- Provider response proofs (`export_external.py`, `export_sdk.py`, `export_mid.py`, the KMA announcement check) and the collectors' normalizers: a bound response is whatever the provider's normalizer produced.
- `validate_head_capture` compares the captured values with the bound response; that a stored point repeats its value after rounding and replay is left to promotion, which decides the published content; weather domain and normalizer version are part of the policy.
- The catalog checks of `declare` and `record_approved_locations` are a Boolean and a set of locations chosen by the environment; `source_part` of the inventory key is folded into its data set.
- Freezing may pick any existing generations, more than the readers do, and a promotion may be tried at any time, not only after an eligible tick; results hold for these larger sets of runs.
- One monotone clock is shared by readers and collectors; publication stamps are arbitrary instants after 1970. A request is taken to last less than the six hours after which an expired handle is pruned.
- `.candidate-` temporaries, fsync order, symbolic links and files damaged outside the managed writers.
- A crash frees all locks of a guard call at once; the kernel's order of closing descriptors is not modelled. Lock fairness between retrying callers is not modelled: the guard is free of deadlock, but a single caller can time out.
- The daily reducer's coverage rows and the step from files to hourly state: publication order and exactly-once application are proved in the pipeline, the merge of points in `Daily`.
- `bind_kma_response` limits a nowcast to 5,000 points and its other responses by rows times locations; the model has the common limit of 100,000 points.
- Decimal rounding: values, quotients and averages are reals.
- Lifecycle.CreateAttempt: the text shape of scope and chunk names is not modelled.
- Heads.CasOutcome: rejected promotions are grouped as refused; which exception is raised is not modelled.
- FreshSweep.PublishFresh: the deadline and the stop after repeated database errors are one number, the rows processed before either.
- ExportDatabase.Database.Claim: the result of a repeated claim is a Boolean instead of an exception, as for the other transactions.
- Partitions.Table.Create: rows of DEFAULT inside a new range are excluded by the floor in `DefaultPartition`, not here; unparsable bounds do not occur.
- OperatorSteps.FactTable.EstablishFloor: lock retries, savepoints, the dry run and the choice of the floor day; interleaving with ingest and crashes is in `DefaultPartition`.
- PlanCache.Cache.Remembered: hits are taken in key order, where the source takes them in the order of the request.
- The retention job's own detaching and dropping of dated partitions, VACUUM and progress logging.
- Alert title parsing (`_warning_names`, `_is_release`): names and release flag are given with the row.
- Freshness and staleness verdicts, `approved_source_selection`, metrics, settings, the web interface and the session layer.
