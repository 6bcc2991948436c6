# A verified model of the recommendation service

This project models the parts of the recommendation service whose correctness depends on many
steps, many processes or real arithmetic, and proves what they promise. It is plain Dafny 4.11;
`dafny verify dfyconfig.toml` checks all of it.

| file | what it models |
|---|---|
| `Basics.dfy` | `Option`, the two model families VIDEO and LIVE |
| `Artifacts.dfy` | the candidate / active / previous files of one family, promotion and rollback as programs of single file actions that can stop anywhere |
| `TrainingProtocol.dfy` | train requests, background runs and rollback requests as one state machine: every statement on a lock row, every change of a job row and every file action is a step of its own, anything can raise or be killed between two steps |
| `TrainingSerial.dfy` | serializability of the artifact files, and what can ever be served |
| `TrainingJobs.dfy` | the life of a job, and what a status means to whoever polls it |
| `BackgroundRun.dfy` | one background run against a session that can be left in an aborted transaction |
| `PrepareDemo.dfy` | the demo script's retraining with its compensating rollback |
| `LiveCandidates.dfy` | the greedy allocator of LIVE candidates |
| `RankingMetrics.dfy` | DCG, nDCG, precision, recall, hit rate, MRR |
| `Calibration.dfy` | rank vectors and pairwise inversions before and after calibration |
| `Constraints.dfy` | relative constraints, the effect of reranking, the policy verdict |
| `Reconciliation.dfy` | interactions that arrive before their content |
| `Migrations.dfy` | replicas that migrate under an advisory lock before they serve |
| `ScopedModel.dfy` | swapping the served model for a block, with a cache and one writer, and the benchmark matrix |
| `ModelCache.dfy` | the stable-read protocol of the model cache while another process replaces the files |
| `ServiceHistories.dfy` | what that protocol meets when the other process runs promotions and rollbacks |
| `OfflineValidation.dfy` | the tallies and cohorts of the two-tower validation |
| `BulkGeneration.dfy` | the bulk loop and batch commits of the synthetic data |

Code that changes state step by step is a method with loops or a class with fields; its contract
ties it to a function, and the lemmas are about that function. Protocols are step relations with
properties of every run. Randomness, clocks, failures and remote answers are parameters, so each
statement is about all of them.

## What the code does not quite promise

Wherever a property one would expect does not hold of the code, the exact condition is proved.

- **The training lock is not exclusive for slow runs.** A lock row older than 1800 seconds is
  reclaimed even if its owner is still at work. Operations of one family stay apart in a run if and
  only if no such live reclaim happens in it (`ExclusiveIffNoLiveReclaim`), which is guaranteed when
  no operation outlives the time to live (`TimelyRunsAreExclusive`) and otherwise fails with the
  next request (`OverdueHolderIsDisplaced`, `OverdueHolderIsReachable`). Even then nothing but a
  validated artifact is ever served (`OnlyValidatedIsServed`).
- **A job is SUCCEEDED before its lock is free** (`SucceededMeansServing`), so a rollback sent on
  seeing SUCCEEDED can be refused (`EarlyRequestIsRefused`), and then the demo script leaves the
  wrong model live.
- **A FAILED job may have changed what is served.** Over an active pair, it left that artifact
  active exactly when its promotion stopped before the first retiring rename (or went through and
  promoted the same artifact); its own is live from the seventh file action on, and nothing is in
  between (`FailedLeaves`, which also covers a first promotion). Every such end is reached by a run
  (`EveryFailureIsReachable`).
- **A bad promotion can survive the demo script** (scripts/prepare_demo.py:24-27 says it never
  does). A lost reply to the train request, an answer that cannot be read, a deadline that passes
  and a FAILED answer end the script without a rollback, with whatever the training run has done by
  then; the new artifact is live at the exit exactly where `EndsLive` says, and each of the four
  does leave it live (`WhatIsActiveAtExit`, `GivingUpLeavesItLive`). After a mismatch the old
  artifact is back exactly when it was loadable and the rollback got the free lock, passed the smoke
  test and came to its third file action (or both are the same); the reply need not be 200 for that,
  since a release that raises turns a finished rollback into a 500.
- **A displaced job can release its successor's lock** (app/services/training_lock.py:83-84 says it
  must not). `release` reads the row and then deletes it by model type alone. It takes another
  operation's row exactly when the row was its own at the first statement and the other's at the
  second (`ReleaseTakesAnothersRowIff`), which takes a live reclaim (`ReleaseTakesItsOwnRow`); then
  a third request enters beside the second although neither is overdue (`NewcomerLosesItsRow`).
- **A lock can leak.** `mark_running` is outside the inner `try`: if it aborts the transaction, the
  release meets an aborted session and is not retried (`BackgroundRun.RunTrainingJob`).
- **"A rollback target is always available after at least one successful promotion"**
  (app/ml/artifact_lifecycle.py:13-16) is false: the first promotion leaves none, and a rollback
  spends it. There is one exactly after a promotion that was not the first (`RollbackTarget`,
  `RollbackTargetInRuns`). A promotion over a missing active artifact keeps an older `previous`,
  which a rollback then resurrects (`RollbackUndoesPromotion`).
- **A promotion stopped between its two retiring renames** leaves neither the old artifact servable
  nor a valid rollback target (`RetiredArtifactSurvives`).
- **A session lost while migrating lets a second replica in**: the lock and the upgrade use
  different connections. Replicas stay apart in a run if and only if none acquires the lock while
  another is inside (`ExclusiveIffNoIntrusion`), which takes a lost session of the replica intruded
  on (`IntrusionNeedsALoss`) and does happen (`LostSessionLetsAnotherIn`).
- **A content request that dies between its two commits loses evidence for good**: exactly the
  events that were waiting for it, since a repeated post is refused before it reconciles
  (`CutLosesExactlyTheWaiting`, `CutsLoseExactlyTheWaiting`; app/api/content_routes.py:144-146 promises otherwise). An event
  request that dies between its two leaves a stale popularity until the next new event
  (`UnscoredUntilTheNextEvent`).
- **Popularity is not recomputed by reconciliation** (`PopularityIsFreshIff`), and a wrong-domain
  event is stored, pending for good, exactly if it is delivered before its content is posted
  (`MismatchIsStoredIffEarly`).
- **Reused constraint names** break the balance between reranker effects and the stage counters,
  exactly when they hide unequally many passes (`EffectsAreConserved`, `ReusedNamesBreakTheBalance`).
- **The model cache can serve a torn pair.** app/ml/model_cache.py:16-18 promises that a reader never
  sees one. A stamp is modification time and size, a rename keeps both, and a rollback renames the
  old model back. A stable attempt returns a pair that was on disk together exactly if the model it
  hashed is the one it deserialized, and otherwise a pair that never was; what it remembers is right
  exactly if that is also the model it stamped (`StableLoadIsAtomicIff`), and stays right or wrong
  whenever it is met again (`HitIsTrueIff`). It goes wrong only when a promotion retires the old pair and commits between the
  first two looks, and a rollback's rename falls between the hash and the last look at the model
  (`InterferenceIsAPromotionAndARollback`). It does go wrong (`RollbackTearsThePair`), and if the
  rollback stops there the torn pair is served for good where the disk refuses to load
  (`TornPairIsServed`).
- **`use_model` restores paths, not files**: an inner block that saves to the same place leaves its
  own model to the outer block (`OuterModelReturnsIff`).
- **A synthetic load that fails after its first batch cannot be repeated** (`RetryCompletesIff`), and
  more than 12197 rows can reach past the reference time (`NeverInTheFutureIff`).

## Model

| member | source | states |
|---|---|---|
| Artifacts.Directory.Save | app/ml/model_store.py:142-150 | saving leaves the files as its two-action program does |
| Artifacts.Directory.Promote | app/ml/artifact_lifecycle.py:78-116 | a missing candidate is NotFound, an invalid or smoke-failing one is refused, both with every file unchanged; otherwise the files are exactly the prefix of the promotion program that was reached |
| Artifacts.Directory.Rollback | app/ml/artifact_lifecycle.py:119-145 | the same for rollback, from the previous pair |
| Artifacts.StatusTells | app/ml/model_store.py:168-208 | a pair is ready iff both files are there with one checksum, missing iff one is not there, corrupted otherwise |
| Artifacts.RenamesFailIff | app/ml/artifact_lifecycle.py:103-114 | a rename fails, changing nothing, iff its source is gone |
| Artifacts.ReplacementTrace | app/ml/artifact_lifecycle.py:101-114 | every file after each single action of a promotion over an active pair |
| Artifacts.RollbackTrace | app/ml/artifact_lifecycle.py:136-143 | every file after each single action of a rollback |
| Artifacts.PromotionFinished | app/ml/artifact_lifecycle.py:78-116 | a finished promotion serves the candidate however torn the files were, and retires the old pair exactly when both its files were there |
| Artifacts.RollbackFinished | app/ml/artifact_lifecycle.py:119-145 | a finished rollback serves what was previous and leaves no previous |
| Artifacts.PromotionStopped | app/ml/artifact_lifecycle.py:101-114 | for every stopping point, what is active: the old artifact, nothing, or the new one, never a mixture that loads |
| Artifacts.StoppedPromotionServes | app/ml/artifact_lifecycle.py:101-114 | exactly where a promotion can stop with the old artifact still active, and with its own live |
| Artifacts.RetiredArtifactSurvives | app/ml/artifact_lifecycle.py:101-113 | the old artifact stays servable or a rollback target, or the new one is live, wherever a promotion stops, except exactly between the two retiring renames |
| Artifacts.RollbackStopped | app/ml/artifact_lifecycle.py:136-143 | for every stopping point of a rollback, what is active and what is previous |
| Artifacts.RollbackUndoesPromotion | app/ml/artifact_lifecycle.py:13-16 | rolling a promotion back restores the old active artifact if and only if one was loadable |
| Artifacts.RollbackTarget | app/ml/artifact_lifecycle.py:13-16 | over any sequence of finished operations, something is active iff anything was promoted, and a rollback target exists iff the last operation was a promotion and not the first |
| TrainingProtocol.HeldStep | app/services/training_lock.py:45-88 | one step keeps "whoever is in its critical section owns its lock row" exactly when it does not reclaim a live lock |
| TrainingProtocol.ExclusiveIffNoLiveReclaim | app/api/training_routes.py:199-216 | in every run: operations of one family never overlap iff no live lock is reclaimed |
| TrainingProtocol.TimelyRunsAreExclusive | app/services/training_lock.py:9-11 | if no operation outlives the lock's time to live, no live lock is reclaimed and operations never overlap |
| TrainingProtocol.OverdueHolderIsDisplaced | app/services/training_lock.py:48-73 | an operation past the time to live is displaced by the next request, and both own the files |
| TrainingProtocol.OverdueHolderIsReachable | app/services/training_lock.py:38-42 | a run from the initial state that reaches such an operation |
| TrainingProtocol.RequestEntersIff | app/services/training_lock.py:45-79 | in every run a request gets the lock iff the row was absent at both its statements, or stale at the first and unchanged at the second |
| TrainingProtocol.AbandonedLockIsReclaimed | app/services/training_lock.py:9-11 | in any state, an uninterrupted request gets in iff the row is absent or older than the time to live, whoever owned it |
| TrainingProtocol.LockWrites | app/services/training_lock.py:45-88 | a lock row changes only when a request gets in or a release has read its own row, so a killed operation leaves its row behind |
| TrainingProtocol.ValidatedIff | app/ml/artifact_lifecycle.py:65-75 | an operation comes to the active files iff both its files are there, of one checksum, and pass the smoke test; otherwise it fails with every file as it was |
| TrainingProtocol.RaiseLeadsOn | app/api/training_routes.py:76-93 | an exception leads to the recording of the failure or to the release, never out of the critical section at once |
| TrainingProtocol.ReleaseTakesAnothersRowIff | app/services/training_lock.py:82-88 | in every run a release deletes another operation's row iff the row was its own when read and the other's when deleted |
| TrainingProtocol.ReleaseTakesItsOwnRow | app/services/training_lock.py:82-88 | without a live reclaim every release deletes its own row and no other |
| TrainingProtocol.NewcomerLosesItsRow | app/services/training_lock.py:82-88 | a run in which a displaced request deletes its successor's row, and two operations within their time to live end up on the same files |
| TrainingProtocol.OnlyTheHolderTouchesFiles | app/api/training_routes.py:73-113 | without a live reclaim, files change only in a file action of the operation that owns the family's lock row |
| TrainingProtocol.FamiliesAreIndependent | app/services/training_lock.py:3-7 | over any stretch of steps of the other family, a family's lock, files and history stay as they were |
| TrainingSerial.SerialStep | app/api/training_routes.py:199-209 | one step of any operation keeps the files on the serial account |
| TrainingSerial.ActLeadsOn | app/ml/artifact_lifecycle.py:101-116 | an operation whose rename fails has failed, one that has done its whole program goes on to report or release, any other goes on with the rest |
| TrainingSerial.FilesAreSerial | app/api/training_routes.py:199-209 | in every run without a live reclaim the files equal the serial replay of the operations in lock order, each stopped after its own prefix, then the part done by the one in flight |
| TrainingSerial.RollbackTargetInRuns | app/ml/artifact_lifecycle.py:13-16 | the rollback-target condition, carried over to idle states of concurrent runs whose operations completed |
| TrainingSerial.OnlyValidatedIsServed | app/ml/artifact_lifecycle.py:10-17 | in every state of every run, live reclaims and kills included, what loads from the active pair is an artifact that passed validation |
| TrainingJobs.NoTransitionIsRejected | app/services/job_store.py:22-28 | no transition the routes ask for is ever rejected by the job store |
| TrainingJobs.JobsOnlyMoveForward | app/services/job_store.py:47-60 | over any stretch of any run a job only moves PENDING, RUNNING, terminal; a terminal status never changes |
| TrainingJobs.RefusedJobNeverRuns | app/api/training_routes.py:125-134 | a job refused the lock never runs: it stays PENDING or becomes FAILED |
| TrainingJobs.RefusalIsRecorded | app/api/training_routes.py:128-132 | in every run, a refused training request that is answered leaves its job FAILED for good |
| TrainingJobs.RefusedJobEnds | app/api/training_routes.py:125-134 | in every run, the job of a refused request that is gone is FAILED iff the request was answered and PENDING iff its process died before |
| TrainingJobs.JobWrites | app/services/job_store.py:39-78 | which steps write job rows and what they write; every other step leaves every row alone |
| TrainingJobs.SucceededMeansServing | app/api/training_routes.py:79-92 | when a job becomes SUCCEEDED its own artifact is active and its lock is still taken |
| TrainingJobs.FailedLeaves | app/api/training_routes.py:79-90 | in every run without a live reclaim, a job that becomes FAILED leaves the files its promotion had reached; the artifact active before still is, the failed run's own is, or none is, each exactly for the stated stopping points |
| TrainingJobs.EveryFailureIsReachable | app/api/training_routes.py:79-90 | from any files and for every number of file actions there is a run that ends FAILED after exactly those |
| TrainingJobs.EarlyRequestIsRefused | app/services/training_lock.py:48-51 | in every run, a request that reads a lock row within its time to live never reaches the files, even if the lock is free before it answers |
| BackgroundRun.FailJobSafely | app/api/training_routes.py:33-56 | the job becomes FAILED exactly when the session could be restored and the write worked, and when the session is left aborted |
| BackgroundRun.ReleaseLockSafely | app/api/training_routes.py:59-70 | the lock row goes exactly when the session is healthy, the statement works and the row is the job's own |
| BackgroundRun.RunTrainingJob | app/api/training_routes.py:73-113 | in terms of the single faults: exactly when the job ends PENDING, SUCCEEDED, FAILED and stuck RUNNING, exactly when the lock comes back, and no other job or lock changes |
| PrepareDemo.Server.RollBack | app/api/training_routes.py:210-239 | 200 means the previous artifact is active, none is left to restore and the lock is free; 404 and 409 mean no file moved; 500 may hide any part of a rollback; the lock is left behind exactly when the release raises |
| PrepareDemo.RollbackAfterPromotion | scripts/prepare_demo.py:128-132 | for every stopping point of a rollback after a promotion, exactly when the artifact active before the promotion is active again and when the promoted one still is |
| PrepareDemo.Await | scripts/prepare_demo.py:106-116 | the loop stops at the first answer that ends the polling, with the training run exactly as many file actions on as the answers so far |
| PrepareDemo.TrainAndVerify | scripts/prepare_demo.py:99-141 | for every call, each exit if and only if what the call meets, the selected model, family and eligibility spelled out, and the whole files at that exit |
| PrepareDemo.WhatIsActiveAtExit | scripts/prepare_demo.py:24-27 | for every call, exactly when the new artifact is live at the exit and exactly when the one active before still is |
| PrepareDemo.WhatTheExitTells | scripts/prepare_demo.py:128-141 | a return means the expected family and an eligible model are active; after a mismatch 200 means that what a rollback can restore is active, 404 and 409 that the new artifact stayed |
| PrepareDemo.GivingUpLeavesItLive | scripts/prepare_demo.py:106-119 | a lost reply, an unreadable answer, the deadline after a RUNNING answer and a FAILED answer each end with the new artifact live, over any active pair, once the training run has come to its seventh file action |
| LiveCandidates.GenerateLive | app/api/candidate_routes.py:42-70 | the nested loops compute the allocation of the requested streams, or of the local ones when none are given, cut to a prefix |
| LiveCandidates.ActiveOfParts | app/api/candidate_routes.py:49-50 | the parsed streams are the active ones, in order and as often as they come |
| LiveCandidates.AllocationIs | app/api/candidate_routes.py:51-69 | the whole answer, source by source in priority order with each label's condition written out: best viewers first, up to a sixth of the limit (at least one) of what earlier sources left, a qualifying stream passed over only for a full share that precedes it; then the rest in input order up to the limit |
| LiveCandidates.PreferredIff | app/api/candidate_routes.py:51 | a category is preferred iff one of the first two streams by interactions has it and any interactions |
| LiveCandidates.BuildPools | app/api/candidate_routes.py:52-59 | each pool holds, in order, the active streams its predicate accepts |
| LiveCandidates.AddFrom | app/api/candidate_routes.py:61-66 | one pass appends the first `quota` streams of the pool whose id is free |
| LiveCandidates.PreferredAreTheTopTwo | app/api/candidate_routes.py:51 | at most two preferred categories, each from a stream with interactions; a stream left out is beaten by two others |
| LiveCandidates.RoundIsGreedy | app/api/candidate_routes.py:61-66 | what a source takes is greedy: fresh distinct ids of its pool in viewer order, and a pool member passed over implies a full quota that all beat it |
| LiveCandidates.GreedyIsUnique | app/api/candidate_routes.py:61-66 | with distinct stream ids, being greedy determines the selection: any greedy selection is the one the source takes |
| LiveCandidates.AllocationIsSound | app/api/candidate_routes.py:51-69 | no id twice and every label sound for its pool's predicate |
| LiveCandidates.AnswerIsSoundAndFull | app/api/candidate_routes.py:49-70 | for every input, duplicate ids included: no id twice, only active input streams, exactly min(limit, distinct active ids) entries, and no truncation from a limit of six on |
| RankingMetrics.DescendingIsOptimal | app/benchmark/metrics.py:26-32 | among all permutations the descending sort has the largest DCG at every cutoff, attained exactly by those that agree with it above the cutoff |
| RankingMetrics.NdcgIsNormalised | app/benchmark/metrics.py:30-32 | nDCG is in [0, 1]; with a positive ideal it is 1 iff the top of the ranking is the ideal top; the ideal is 0 iff nothing has a positive grade (or k is 0) |
| RankingMetrics.DcgIsLinear | app/benchmark/metrics.py:26-27 | DCG adds up over grades, position by position |
| RankingMetrics.OneGradeDcg | app/benchmark/metrics.py:26-27 | one graded item alone is worth its grade times its position's weight above the cutoff, and nothing below |
| RankingMetrics.NdcgIsTheQuotient | app/benchmark/metrics.py:30-32 | nDCG times the ideal is the DCG, and nDCG is 0 where the ideal is |
| RankingMetrics.MetricsCount | app/benchmark/metrics.py:35-55 | precision, recall and hit rate by the positions graded 2 or more alone, with the program's value for empty and irrelevant rankings |
| RankingMetrics.MrrIsOfTheFirst | app/benchmark/metrics.py:58-62 | the reciprocal rank is that of the first position graded 2 or more |
| RankingMetrics.PrecisionTimesCutoffIsRecallTimesRelevant | app/benchmark/metrics.py:35-48 | precision@k times min(k, n) equals recall@k times the number of relevant items |
| RankingMetrics.RecallGrows | app/benchmark/metrics.py:43-48 | recall never falls as k grows and is 1 once everything is in the top |
| RankingMetrics.HitIffReciprocalRank | app/benchmark/metrics.py:51-62 | hit rate@k is 1 iff MRR is at least 1/k |
| RankingMetrics.PromotingABetterItemHelps | app/benchmark/metrics.py:26-62 | moving a better-graded item up past its neighbour lowers no metric, and strictly raises nDCG when it enters a position above the cutoff |
| Calibration.RanksKeepOrder | app/benchmark/diagnostics.py:125-126 | ranks by first appearance are distinct and ordered as the scores are |
| Calibration.CompareRankings | app/benchmark/diagnostics.py:128-144 | the double loop returns the number of pairs that the two rank vectors order differently, and reports identity exactly when the rank vectors are equal |
| Calibration.RankCounts | app/benchmark/diagnostics.py:125-126 | a rank is one more than the scores that are higher, or as high and earlier |
| Calibration.NoInversionsIffSameRanks | app/benchmark/diagnostics.py:144 | zero inversions iff equal rank vectors |
| Calibration.InversionBounds | app/benchmark/diagnostics.py:128-143 | symmetric, at most every pair, and every pair iff the orders are opposite |
| Calibration.InversionTriangle | app/benchmark/diagnostics.py:118-135 | the triangle inequality across three scorings |
| Calibration.CalibrationKeepsRanking | app/benchmark/diagnostics.py:118-120 | a non-decreasing calibration map keeps the ranking iff it collapses no pair whose better item came later; a strictly increasing one always does |
| Constraints.MarginsTelescope | app/benchmark/constraints.py:21-24 | along a chain of passed constraints the margins add up to a positive score difference |
| Constraints.EvaluatedIff | app/benchmark/constraints.py:13-29 | a constraint is evaluated iff both candidates are scored, and passes iff the higher one leads by more than the minimum margin, and at all |
| Constraints.CyclesNeverPass | app/benchmark/constraints.py:13-35 | passed constraints never form a cycle, whatever their minimum margins |
| Constraints.PassedConstraintsHoldInRanking | app/benchmark/runner.py:179-180 | the raw ranking places the first candidate of a chain of passed constraints before the last |
| Constraints.ClassifyRerankerEffect | app/benchmark/constraints.py:38-57 | the loop returns, in order of first appearance, the names of each effect |
| Constraints.EffectsBySpelling | app/benchmark/constraints.py:44-57 | for any two lists of results, which names are improved, degraded and neutral, by the verdicts alone; a name that only one stage has is none of them |
| Constraints.VerdictIsTheLast | app/benchmark/constraints.py:44-45 | the verdict on a name is that of its last result |
| Constraints.CounterCounts | app/benchmark/scenario_types.py:169-171 | the stage counter is the number of passed results |
| Constraints.CountIsPassedPlusShadowed | app/benchmark/scenario_types.py:169-171 | the stage counter is the number of passed names plus the passes a later result of the same name hides |
| Constraints.EffectsPartition | app/benchmark/constraints.py:38-57 | for results with the same names, every name is in exactly one of improved, degraded, neutral |
| Constraints.EffectsAreConserved | app/benchmark/constraints.py:38-57 | improved minus degraded is the change of the stage counter iff reused names hide equally many passes at both stages, as unique names do |
| Constraints.ReusedNamesBreakTheBalance | app/benchmark/constraints.py:44-45 | two constraints of one name and two score tables for which the stage counter falls with no effect reported |
| Constraints.PolicyPassesIff | app/benchmark/layers.py:107-118 | the policy report passes iff in every scenario every name passed on raw scores is still passed after reranking |
| Reconciliation.Database.StoreEvent | app/services/event_service.py:36-114 | each reply (stored, duplicate, inactive, wrong type) if and only if the state it belongs to, the stored row, and the popularity of exactly that content, also when the process dies between its two commits |
| Reconciliation.Database.CreateContent | app/api/content_routes.py:190-266 | an existing id is refused with nothing changed; a new one is added active and exactly its waiting rows of its own domain are released, or none if the process dies between its two commits |
| Reconciliation.Database.ResolvePending | app/api/content_routes.py:138-176 | the loop clears exactly the pending rows of this content and its domain |
| Reconciliation.Database.UpdateStatus | app/api/content_routes.py:289-303 | only the activity flag of that content changes |
| Reconciliation.AlwaysSettled | app/api/content_routes.py:148-156 | in every reachable store a row is pending iff its content is unknown or of the other domain |
| Reconciliation.NothingIsForgotten | app/api/content_routes.py:162-176 | over any run rows are never lost or rewritten, the flag never goes back to pending, contents never vanish or change domain |
| Reconciliation.InactiveTakesNothing | app/api/content_routes.py:290-302 | over any history from a deactivation until the next reactivation, no new event of that content is stored and neither its rows nor its popularity change |
| Reconciliation.NewEventIsStoredIff | app/services/event_service.py:45-64 | in any store a new event is stored iff its content is unknown, or active and of its domain |
| Reconciliation.ReconcilingAgainChangesNothing | app/api/content_routes.py:158-161 | reconciling once more changes no row, in any reachable store |
| Reconciliation.EvidenceIsWarranted | app/api/content_routes.py:138-147 | the non-pending rows are exactly the posted events whose content was posted in the event's domain |
| Reconciliation.ArrivalOrderDoesNotMatter | app/api/content_routes.py:138-147 | two histories of the same posts in any order and multiplicity end with the same evidence |
| Reconciliation.MismatchIsStoredIffEarly | app/services/event_service.py:53-64 | over every history, deactivations and repeats included, a wrong-domain event is stored iff some delivery of it precedes every post of its content, and is then pending |
| Reconciliation.CutLosesExactlyTheWaiting | app/api/content_routes.py:257-265 | after a cut between the two commits, whatever is posted later, the evidence is what it would have been without the rows that were waiting; nothing is lost iff none was |
| Reconciliation.CutsLoseExactlyTheWaiting | app/api/content_routes.py:257-265 | with any of the requests of a history dying between its commits, in any order of arrival, the evidence is the warranted set without the events that were waiting at a cut |
| Reconciliation.PopularityIsFreshIff | app/services/event_service.py:102-113 | after a VIDEO content arrives its popularity covers all evidence iff nothing had been waiting for it or a new event was stored against it since |
| Reconciliation.UnscoredUntilTheNextEvent | app/services/event_service.py:76-113 | after a cut between the two commits of an event, the popularity covers all evidence iff a new event was stored against the content since |
| Migrations.ServingImpliesHead | scripts/run_migrations.py:20-24 | in every run, lost sessions and kills included: who serves goes on serving at head, and who is out does not hold the lock |
| Migrations.OverStaysOver | scripts/run_migrations.py:20-24 | the schema revision never decreases, and a replica that serves or has exited stays so |
| Migrations.FailureNeverServes | scripts/run_migrations.py:20-24 | in every run, a replica that fails, committed or not, exits without the lock, leaves the schema as it is and never serves |
| Migrations.LostSessionNeverServes | scripts/run_migrations.py:103-104 | in every run, a replica that lost its lock session never serves |
| Migrations.ServingIsByUnlock | scripts/run_migrations.py:97-107 | a replica comes to serve exactly by unlocking a lock that is still its own |
| Migrations.MigratesOnceInOrder | scripts/run_migrations.py:14-18 | with lock sessions kept: at most one replica between lock and unlock, and the committed revisions are 1, 2, ... without gap or repetition |
| Migrations.NothingHalfDone | migrations/env.py:77-83 | the committed schema is where it started or at head, in every run; this rests on the commit being one step, as the single transaction makes it |
| Migrations.ExclusiveIffNoIntrusion | scripts/run_migrations.py:14-18 | in every run: at most one replica is inside in all states iff none acquires the lock while another is inside |
| Migrations.IntrusionNeedsALoss | scripts/run_migrations.py:89-97 | such an acquisition goes back to a lost lock session of the replica already inside |
| Migrations.LostSessionLetsAnotherIn | scripts/run_migrations.py:89-101 | a run of two replicas from the start in which both upgrade at once, from the same revision |
| Migrations.RunsAreBounded | scripts/run_migrations.py:86-107 | the steps taken plus the remaining measure never exceed the first state's measure |
| Migrations.SomeoneCanMove | scripts/run_migrations.py:86-107 | no deadlock: until all serve or exited, some replica can take a step, not a failure unless its lock session was lost |
| Migrations.StartupEnds | scripts/run_migrations.py:110-131 | every run is bounded, and one that cannot go on has every replica serving or exited, at head if any serves |
| Migrations.HealthyStartupServes | scripts/run_migrations.py:14-18 | without failures and lost sessions, every start-up that has run its course has every replica serving at head |
| ScopedModel.OverlapIffSamePlace | app/benchmark/runner.py:148-149 | two blocks write a common file iff directory and algorithm both agree |
| ScopedModel.LoadsIff | app/ml/model_store.py:162-209 | a pair loads iff both files are readable, compatible and of one checksum |
| ScopedModel.WhatRaises | app/ml/model_cache.py:61-89 | a score is taken with the loaded artifact, and raises where none loads |
| ScopedModel.ExceptionsEndTheRest | app/benchmark/runner.py:157-163 | an exception ends everything that was to come after it |
| ScopedModel.TornSaveIsNoticedIff | app/ml/model_cache.py:66-69 | after a save that died between its swaps the cache answers rightly iff the file's stamp changed or the model is the same |
| ScopedModel.Service.Get | app/ml/model_cache.py:59-94 | with no other writer the first attempt is stable, and the cache answers what loading the current pair from disk would |
| ScopedModel.Service.Enter | app/benchmark/runner.py:146-158 | a failed save patches nothing; otherwise the files are saved, the paths are the block's, the cache is coherent |
| ScopedModel.Service.Execute | app/benchmark/runner.py:137-163 | for every nesting of blocks, exceptions and recoveries: the paths on exit are those on entry, and scores, outcome and files are those of a lexically scoped reading without patching or cache |
| ScopedModel.InnermostModelIsScored | app/benchmark/runner.py:138-143 | every score is taken with the model of the innermost block around it, as long as no block is written to while in use |
| ScopedModel.OuterModelReturnsIff | app/benchmark/runner.py:150-163 | after an inner block the outer one goes on with its own model iff the inner was saved elsewhere or is the same model |
| ScopedModel.RunScenarioIsolated | app/benchmark/runner.py:210-231 | a scenario is scored on its own history only, with the model served |
| ScopedModel.RunFullMatrix | app/benchmark/runner.py:251-282 | the matrix holds for each algorithm the arranged results of its own model alone, or nothing if any cannot be completed, and the paths are restored |
| ScopedModel.CellHoldsEachAlone | app/benchmark/runner.py:267-282 | with distinct ids, each named entry is what that scenario gives by itself on an empty database |
| ScopedModel.CellHoldsThePairs | app/benchmark/runner.py:270-282 | the dominant-category entry and the four paired entries are each what their own scenario gives by itself |
| ScopedModel.MatrixIsUnique | app/benchmark/runner.py:264-282 | the matrix depends on the set of algorithms, not on their order |
| ModelCache.StableLoadIsAtomicIff | app/ml/model_cache.py:60-94 | a stable attempt's pair was on disk together at the hash if the model hashed is the one deserialized, and at no instant of all history if not; what it remembers is true of its stamps iff that is also the model stamped |
| ModelCache.StableRefusalIsTrue | app/ml/model_cache.py:75-89 | a missing or refused answer after a stable attempt is true of the disk at one instant of the attempt |
| ModelCache.HitIsTrueIff | app/ml/model_cache.py:66-69 | a remembered pair whose stamps are met again, one file after the other, is what is on disk then iff the attempt that made it was smooth |
| ModelCache.LoadedIsTrueIff | app/ml/model_cache.py:71-94 | a freshly loaded pair was on disk at an instant of the attempt iff what was hashed is what was loaded |
| ModelCache.Cache.Get | app/ml/model_cache.py:51-100 | the look-by-look loop, for any disk that changes at any time, computes the answer, the cache and the clock of the calls the other rows are about |
| ModelCache.GetAnswers | app/ml/model_cache.py:11-18 | if no stable attempt was interfered with between hash and last look, every answer of a call is true of the disk at a single instant of it |
| ModelCache.BusyIsDisturbed | app/ml/model_cache.py:96-100 | Busy means that the pair changed during each of the separate attempts |
| ModelCache.BusyAfterThree | app/ml/model_cache.py:59-100 | a call is Busy iff three attempts in a row found the signature changed, twenty-seven looks after it began, with nothing remembered or forgotten |
| ModelCache.TurnRemembers | app/ml/model_cache.py:61-94 | a missing file drops the entry, a successful load replaces it with what it answers, a refusal leaves it, and every other entry stays |
| ModelCache.StraddledOrSmooth | app/ml/model_cache.py:60-86 | where a model that comes back finds other metadata, a stable attempt is smooth unless the metadata was swapped between its first two looks |
| ServiceHistories.StampsTellAlways | app/ml/artifact_lifecycle.py:101-114 | every sequence of file actions, overlapping and interrupted ones included, meets what the cache's exact conditions ask of the disk |
| ServiceHistories.EveryRunIsACourse | app/ml/artifact_lifecycle.py:101-143 | the files of a family in any run of the training protocol are such a sequence |
| ServiceHistories.InterferenceIsAPromotionAndARollback | app/ml/artifact_lifecycle.py:103-141 | a stable attempt that is not smooth has a promotion's retirement and metadata commit between its first two looks, and a rollback's rename between its hash and its last look at the model |
| ServiceHistories.CacheIsSoundOverTheService | app/ml/model_cache.py:11-18 | under promotions and rollbacks that retire in pairs, every answer of a call is true at a single instant of it unless an attempt straddled a metadata swap |
| ServiceHistories.ProgramsRetireInPairs | app/ml/artifact_lifecycle.py:101-104 | operations one after the other retire in pairs wherever they stop, unless one stopped between its retiring renames is followed by another |
| ServiceHistories.RollbackTearsThePair | app/ml/artifact_lifecycle.py:136-142 | a promotion and a rollback cut after its rename, and an attempt that answers and remembers the old model with the new metadata, a pair never on disk together |
| ServiceHistories.TornPairIsServed | app/ml/model_cache.py:66-69 | from then on the disk refuses to load and every call answers that pair |
| OfflineValidation.BisectCountsEarlier | scripts/run_two_tower_offline_validation.py:200 | the insertion point is the number of that user's strictly earlier rows |
| OfflineValidation.GroupTimes | scripts/run_two_tower_offline_validation.py:178-180 | the loop over the sorted rows gives each user the times of its rows, in order |
| OfflineValidation.PriorCountsEarlierRows | scripts/run_two_tower_offline_validation.py:178-202 | the prior count recorded for each query is the number of its user's strictly earlier rows, in whatever order the rows came |
| OfflineValidation.HitMeansRetrieved | scripts/run_two_tower_offline_validation.py:190-196 | a hit at k is a target among the first k retrieved |
| OfflineValidation.TallyQueries | scripts/run_two_tower_offline_validation.py:182-202 | the loop's hits, reciprocal ranks, gains and prior counts are those of the queries, one by one |
| OfflineValidation.ReciprocalsAreWeighed | scripts/run_two_tower_offline_validation.py:197 | the reciprocal ranks add up to 1/p for every query whose target is at rank p |
| OfflineValidation.GainsAreWeighed | scripts/run_two_tower_offline_validation.py:198-199 | the gains add up to the discount of p for every query whose target is at rank p, down to ten |
| OfflineValidation.AllAtOneRank | scripts/run_two_tower_offline_validation.py:197 | with every target found at rank p, p times the reciprocal sum is the number found |
| OfflineValidation.RecallsAgree | scripts/run_two_tower_offline_validation.py:204-205 | Recall@5 <= Recall@10 <= Recall@20 <= 1 for every non-empty list |
| OfflineValidation.MrrAgrees | scripts/run_two_tower_offline_validation.py:205-206 | Recall@20 / 20 <= MRR <= Recall@20, the last with equality iff every target found is found first |
| OfflineValidation.NdcgAgrees | scripts/run_two_tower_offline_validation.py:198-207 | nDCG@10 <= Recall@10, with equality iff every target in the top ten is first |
| OfflineValidation.CohortQuality | scripts/run_two_tower_offline_validation.py:225-245 | the cohort table holds count and hits of the members of each cohort |
| OfflineValidation.MembersBySpelling | scripts/run_two_tower_offline_validation.py:231-236 | who is sparse, medium and high, for any thresholds |
| OfflineValidation.ThresholdsAreThirds | scripts/run_two_tower_offline_validation.py:225-227 | each threshold is the order statistic of the run's own counts: at most a third (two thirds) below it, more than that at or below |
| OfflineValidation.CohortsPartition | scripts/run_two_tower_offline_validation.py:231-245 | the three cohorts partition the queries, for any thresholds |
| OfflineValidation.CohortHitsAddUp | scripts/run_two_tower_offline_validation.py:238-245 | the hits of the cohorts add up to the overall hits at any cutoff |
| OfflineValidation.CohortTableAddsUp | scripts/run_two_tower_offline_validation.py:182-245 | the cohorts of the tallied queries add up to that tally's hits |
| OfflineValidation.CohortsAreTerciles | scripts/run_two_tower_offline_validation.py:225-236 | more than a third of the queries are sparse and fewer than a third high, however many counts tie |
| BulkGeneration.SomethingIsAvailable | scripts/generate_synthetic_data.py:1296-1307 | the random choice always has a content to choose from |
| BulkGeneration.BulkLoop | scripts/generate_synthetic_data.py:1304-1324 | at any stopping point the committed rows and the buffer are the produced rows, in order, split at the last full batch |
| BulkGeneration.Generate | scripts/generate_synthetic_data.py:1287-1363 | a finished call commits every produced row once, in order, then the cohorts; an interrupted one the full batches only; one on existing rows nothing |
| BulkGeneration.ProducedIsChronological | scripts/generate_synthetic_data.py:1305-1323 | times strictly increase and no row is older than its content |
| BulkGeneration.RowIsDrawn | scripts/generate_synthetic_data.py:1305-1323 | each row has its own time and the drawn one of the contents available then |
| BulkGeneration.InterruptedKeepsThousands | scripts/generate_synthetic_data.py:1324 | an interrupted call leaves the produced rows in whole thousands |
| BulkGeneration.NeverInTheFutureIff | scripts/generate_synthetic_data.py:1305-1306 | whatever is drawn no row lies past the reference time, iff at most 12197 are asked for |
| BulkGeneration.RetryCompletesIff | scripts/generate_synthetic_data.py:1289-1290 | a call that raised is made good by a second one iff it raised before its first commit |

## Assumptions

- Database statements and single file operations are atomic, and the clock is one clock.
- A checksum identifies a model file; ids drawn as uuids are distinct.
- Scores are real numbers. The discount `1 / log2(i + 2)` is any positive, strictly decreasing
  sequence that starts at 1.
- In `Migrations`, all replicas ship the same head, and the revisions run in one transaction.
- In `ModelCache`, one stamp names one model file, which may come back, and the stamp of a replaced
  metadata file is not used again; both hold of every sequence of the service's file actions
  (`StampsTellAlways`) as long as newly written files get new stamps.
- In `ScopedModel`, nobody else writes the files meanwhile, and the clock has moved on before a save
  that dies between its two swaps; `TornSaveIsNoticedIff` says why that is needed.

## Left out

- Reconciliation.AlwaysSettled: about requests that run to their end; `CutsLoseExactlyTheWaiting` says what those that die leave.
- Reconciliation.ArrivalOrderDoesNotMatter: assumes that nothing is deactivated and that an id always carries the same payload, because refused events do depend on the order.
- TrainingSerial.FilesAreSerial: assumes no live reclaim, since overlapping operations are not serializable.
- TrainingSerial.RollbackTargetInRuns: covers operations that completed; `PromotionStopped` and `RollbackStopped` cover the others.
- LiveCandidates.GreedyIsUnique: assumes distinct stream ids; with duplicates `AnswerIsSoundAndFull` is what holds.
- BackgroundRun.RunTrainingJob: treats statements after a failed ROLLBACK as raising; connections that heal by themselves are not modelled.
- PrepareDemo.TrainAndVerify: stops at the script's exit, although an unfinished training run goes on; assumes no other operator, and that a lock found taken is not stale; the concurrent case is `EarlyRequestIsRefused` and `RequestEntersIff`.
- TrainingJobs.FailedLeaves: assumes no live reclaim, after which two runs share the files.
- Migrations.MigratesOnceInOrder: assumes that lock sessions are kept; `LostSessionLetsAnotherIn` shows why.
- ScopedModel.Service.Get: assumes no other writer; `ModelCache.Cache.Get` has the retries and any writers.
- ModelCache.Cache.Get: one reader at a time; `peek_status` and explicit invalidation are left out.
- ServiceHistories.InterferenceIsAPromotionAndARollback: assumes that saved models are new and that retirements come in pairs (`ProgramsRetireInPairs`); the exact conditions of `ModelCache` need neither.
- BulkGeneration.Generate: the call owns its session, and the database holds synthetic rows only.
- BulkGeneration.RetryCompletesIff: the additional cohorts are any non-empty rows; their generators are left out.
- HTTP routing, authentication, request validation, error bodies and codes, logging, printed reports.
- Training itself, features, eligibility gates, the reranker, predictions: models are opaque artifacts and scores are inputs.
- The reading of local LIVE streams (`load_active_live_candidates`): a parameter of `GenerateLive`.
- Category inference and the other columns of contents and interactions.
- Rounding to six digits; `diversity_diagnostics`; score-resolution and feature-delta summaries.
- The connection-retry deadline of `wait_for_ready` and the SQLite shortcut of the migration runner.
- Races within one event or content request; requests interleave only as a whole in `Reconciliation`.
- The `.tmp` file names of a candidate save, which no other operation reads.
- The shadow pipeline and latency measurements of the two-tower script.
