# Verification of the replication engine

This project models the crash-prone core of the cross-cluster syncer and proves what it promises:
that the destination converges to the source, that nothing is lost or repeated where it must not be,
and that jobs, permits and load are shared out correctly.  To verify it:
`dafny verify dfyconfig.toml`.

## How it is built

Each protocol is a value-level machine: a state, events with the replies of the outside world as
data, a step function, and runs as event sequences.  A crash is an event that replaces the progress
in memory by the stored row.  Safety statements are lemmas over all runs.  Beside each machine stand
classes in the form of the source, mutating their fields step by step, whose methods are proved to
take exactly the machine's steps and say, reply by reply, what they leave in the fields.  The modules
named `…Trace` read whole runs off their events: what must have gone before a commit, before replay, and
what the alias map holds.

| files | what they hold |
|---|---|
| `progress.dfy` | the progress of a job, in memory and stored, with its transition methods |
| `watermarks.dfy` | table and partition watermarks, the filters they drive, and the switch that drops them |
| `binlogs.dfy`, `upsert.dfy`, `upsert_trace.dfy`, `upsert_job.dfy` | replay of one upsert at a time through begin, ingest, commit and rollback |
| `ddl.dfy`, `ddl_job.dfy`, `job_handle.dfy` | replay of schema changes with a look before the act, and the table of their handlers |
| `txn_link.dfy`, `pipeline.dfy`, `pipeline_safety.dfy`, `pipeline_once.dfy`, `pipeline_trace.dfy`, `pipeline_job.dfy` | the pipelined replay, its chain of one-slot channels, and what every run of it keeps |
| `pipeline_runs.dfy`, `replica_runs.dfy` | runs that are there, among them those where a stronger promise fails |
| `snapshot.dfy`, `snapshot_trace.dfy`, `snapshot_job.dfy` | full and partial sync and where they can be restarted |
| `replica.dfy`, `replica_convergence.dfy` | the contents of both clusters over runs of everything above |
| `alias_swap.dfy` | swapping restored aliases in, with crashes |
| `rebalance.dfy`, `syncer_db.dfy`, `membership.dfy`, `checker.dfy` | load split, the shared tables, the membership protocol and the checker that runs it |
| `ingest_plan.dfy`, `ingest_run.dfy` | which tablets load from which, and what the collectors hold in the end |
| `limiter.dfy`, `window.dfy` | permits for backups and restores, and the window that bounds ingests |
| `wrappers.dfy` | optional values, results, iteration orders |

## Assumptions

- A snapshot at a position holds exactly the binlogs up to it, and what is said about a snapshot does not change.
- A partial snapshot lies at or after the binlog that asked for it and after every earlier watermark of its region, and describes its own table only; the binlog that asked for it touches only its region, or partitions already past it.
- In a full snapshot a table without a watermark has no data up to the position where replay starts.
- A restore job of a destination database is over before another one begins, so an unfinished one only disturbs the region being restored.
- Rollback replies name a status the transaction really has; an OK to a commit means it is committed; transaction ids are not reused.
- At the schemas they meet, schema handlers can be tried again: `DdlReplay.Trusts` says what that takes, and `DdlReplay.ExactlyOnceExactly` that nothing less would do.
- Stamps given out by the shared store are fresh and increasing, and recovering a job succeeds.
- Fetched binlogs follow the position asked for without a gap.

## Where code and comments differ

- `pkg/ccr/job_pipeline.go:303-305` says that yielding the pipeline also records binlogs skipped by `launchTxn`.  Skipping does not move the commit position, so nothing is recorded (`PipelineSafety.YieldRecordsNothing`) and skipped binlogs are judged again after a restart (`PipelineRuns.SkippedIsJudgedAgain`).  The model follows the code.
- `pkg/ccr/job.go:1750-1751` leaves open what happens when the partition watermarks are not empty.  `ReplicaConvergence.DirectDdlExactly` gives the exact condition, `ReplicaRuns.DirectDdlGoesWrong` a run that ends where it fails; a schema change that does nothing when made twice is not told apart from one that does.
- The pipeline is not exactly-once: a commit whose answer is lost (`PipelineOnce.LostReplyCommitsTwice`) and a commit answered just before the process dies (`PipelineOnce.CrashBeforeSealCommitsTwice`) are both made again; `PipelineOnce.SealedExactly` and `PipelineOnce.SecondCommitExactly` say exactly when that can happen.
- A stored job can end with an owner that has no row in the syncers table, where no checker finds it: `Membership.OwnedExactly` says exactly when, `Membership.MutualSuspicionStrandsAll` and `Membership.OutlivedSyncerStrands` give runs, `Membership.LostUntilRegistered` says how long it lasts.  The HTTP service accepts jobs before the checker has registered the syncer (`cmd/ccr_syncer/ccr_syncer.go:194-220`), which is one of the two ways.
- Two indexes of a source table can load into one index of the destination where names clash: `IngestPlan.ShareExactly` says exactly when, `IngestPlan.RollupNamedLikeTheTable` gives the input.
- `RebalanceLoad` can ask a syncer to give jobs away, which `pkg/storage/sqlite.go:397-398` cannot do and answers with a panic; `Rebalance.NonNegativeExactly` and `SyncerStore.SlicesExactly` say exactly when.

## Model

| member | source | states |
|---|---|---|
| ReplicaConvergence.ReplicaConverges | pkg/ccr/job.go:607-1834 | Over every run of full syncs, table and partition partial syncs, filtered replay, crashes and restarts: while the job replays, each destination partition equals the source after exactly the binlogs up to the highest of the replay position, its table watermark and its own; a running partial sync keeps this outside its region. |
| ReplicaConvergence.CaughtUp | pkg/ccr/job.go:3306-3343 | Once the replay position reaches the end of the log, every destination partition equals the source, whatever watermarks are left. |
| ReplicaConvergence.DirectDdlExactly | pkg/ccr/job.go:1750-1759 | The question left open beside the committed test, answered: a handler that changes the destination directly is right if and only if no partition it touches is covered by its own watermark without being covered by its table's.  Changes are uninterpreted: contents are the positions of the changes made, so one made twice in a row always counts as wrong, even where it would do no harm. |
| ReplicaConvergence.Straddled | pkg/ccr/job.go:1745-1761 | For a partition covered by its own watermark only, the direct change is applied a second time and the contents, as sequences of uninterpreted changes, differ from the source. |
| ReplicaConvergence.CommittedIsReached | pkg/ccr/job.go:1745-1761 | With no binlog applied by hand, the committed test is the table watermark alone in every reachable state. |
| ReplicaConvergence.Advance | pkg/ccr/job.go:1763-1793 | One replayed binlog moves a partition from one level to the next whether its record was filtered or applied. |
| ReplicaConvergence.UpsertKeeps | pkg/ccr/job.go:1918-1941 | Raising watermarks by a committed upsert, or dropping them after it, changes no partition's level. |
| ReplicaConvergence.TriggerKeeps | pkg/ccr/job.go:4193-4229 | Starting a partial sync at the binlog that asked for it leaves every partition outside its region at the level of that binlog. |
| ReplicaConvergence.FullRestored | pkg/ccr/job.go:1483-1505 | When a full restore is done, every partition, in place or under an alias, holds its snapshot, which is its level once replay starts at the smallest watermark. |
| ReplicaConvergence.PartialRestored | pkg/ccr/job.go:935-946 | When a partial restore is done, merging its watermarks puts every partition of its region at the snapshot's position and moves no other. |
| ReplicaConvergence.PersistKeeps | pkg/ccr/job.go:1509-1606 | Swapping any part of the aliases, saving the result and finishing keep the contents right at every point where the process may die. |
| ReplicaConvergence.FullFinishes | pkg/ccr/job.go:1587-1606 | The last step of a full sync makes the restored level the replay level. |
| ReplicaConvergence.PartialFinishes | pkg/ccr/job.go:991-1020 | The last step of a partial sync does too; for a whole table synced by itself replay jumps to the snapshot's position. |
| ReplicaConvergence.ReloadKeeps | pkg/ccr/job_progress.go:272-296 | A crash at any point, with everything not stored lost, keeps the contents consistent with the row that is reloaded. |
| ReplicaConvergence.NewPartialKeeps | pkg/ccr/job.go:4182-4229 | A partial sync that starts over never leaves a partition behind that its predecessor had begun to overwrite. |
| ReplicaConvergence.DroppedTableIsSkipped | pkg/ccr/job.go:578-591 | A table found dropped during a partial sync: replay resumes at the commit position, every binlog of that table counts as committed, the one that drops it included, and the filter of other tables does not change. |
| ReplicaRuns.FullSyncGetsThere | pkg/ccr/job.go:1070-1606 | Any snapshot that fits the log takes a new job, of a database or of a table, through the steps of a full sync to replay from the smallest watermark or the table's. |
| ReplicaRuns.PartialSyncGetsThere | pkg/ccr/job.go:607-1022 | From replay, a partial sync asked for by any binlog that touches only its region or filtered partitions gets through, and replay goes on at the position and with the watermarks the source gives it. |
| ReplicaRuns.TableSyncGetsThere | pkg/ccr/job.go:998-1017 | A table synced by itself: a full sync, a whole-table partial sync, and replay from the second snapshot without watermarks. |
| ReplicaRuns.StraddlingGetsThere | pkg/ccr/job.go:1745-1761 | The failing side of DirectDdlExactly is reachable: a full sync, a partial sync of one partition whose snapshot already holds the next schema change, and that change, made directly, is in the partition twice and in the source once. |
| ReplicaRuns.DirectDdlGoesWrong | pkg/ccr/job.go:1745-1761 | The smallest such run, written out: one table, one partition, binlogs at 1, 2 and 3, the change at 2 made twice (again, no effect of a change is looked into). |
| ReplicaRuns.StepsAreReplay | pkg/ccr/job.go:3306-3343 | The single step by which the contents of both clusters replay an upsert leaves the row that its replay through begin, ingest, commit and seal leaves; likewise for one without relevant records and for a schema change. |
| UpsertReplay.ExactlyOnce | pkg/ccr/job.go:1882-2198 | With crashes after any step, lost replies and arbitrary commit errors, every relevant upsert up to the stored position has exactly one committed destination transaction, an irrelevant one none, and a transaction committed beyond it is the one the stored row names. |
| UpsertReplay.ExactlyOnceForLife | pkg/ccr/job.go:1882-2198 | Over the whole life of a job, with any number of snapshots taking over from replay in between: an upsert up to the stored position has no committed transaction if it was judged irrelevant or came with a snapshot, and exactly one otherwise; what was settled before stays as it was. |
| UpsertReplay.PhasesChain | pkg/ccr/job.go:3315-3325 | Every phase ended by a snapshot hands the next one a start that all these results hold from. |
| UpsertReplay.PayloadIsThere | pkg/ccr/job.go:1900-1910 | The payload the upsert machine decodes or casts is always there and names a transaction the destination knows. |
| UpsertTrace.CommitsWereIngested | pkg/ccr/job.go:2072-2149 | Over every run with crashes and lost replies: a commit is sent for a transaction only after an earlier event of the run reported the load of that very transaction successful. |
| UpsertTrace.NoneCommittedUningested | pkg/ccr/job.go:2072-2149 | So every transaction committed along a run was ingested along the run. |
| UpsertTrace.ComesToRest | pkg/ccr/job.go:1882-2198 | Wherever the process dies along a run, there is a continuation that rolls back or records what was under way and leaves the job ready for the next binlog. |
| UpsertTrace.UpsertGetsThrough | pkg/ccr/job.go:1882-2198 | From rest the next upsert can be replayed to its end: one transaction of its own committed, nothing else at the destination changed, positions at the binlog, the tables it wrote raised, and the watermarks dropped if it was the last they held back. |
| UpsertTrace.IrrelevantPasses | pkg/ccr/job.go:1943-1968 | And one without relevant records passes and leaves the destination alone. |
| UpsertJobs.UpsertJob.UpdateInMemory | pkg/ccr/job.go:1900-1910 | Loads the stored payload after a restart and keeps the one in memory otherwise. |
| UpsertJobs.UpsertJob.JudgeRecords | pkg/ccr/job.go:1943-2015 | The Done case: an upsert without relevant records ends there, another gets its payload in memory only. |
| UpsertJobs.UpsertJob.BeginTransactionCase | pkg/ccr/job.go:2016-2071 | The transaction id is stored before anything is ingested; a missing table rolls the progress back. |
| UpsertJobs.UpsertJob.IngestBinlogCase | pkg/ccr/job.go:2072-2110 | Only a successful load leads to the commit; a failed one, and one that asks for a snapshot, lead to the rollback; each is stored with its payload. |
| UpsertJobs.UpsertJob.CommitTransactionCase | pkg/ccr/job.go:2111-2155 | A commit that is not answered with OK leads to rollback, whether or not it took effect. |
| UpsertJobs.UpsertJob.RollbackTransactionCase | pkg/ccr/job.go:2157-2191 | Each reply to the rollback is handled as the source does, a commit found out late included. |
| UpsertJobs.UpsertJob.Committed | pkg/ccr/job.go:1918-1941 | Raises the watermarks of the written tables and stores them before the progress is sealed. |
| UpsertJobs.UpsertJob.StartBinlog | pkg/ccr/job.go:3720-3725 | A binlog is only started from a finished progress, and the start is stored. |
| UpsertJobs.UpsertJob.AfterBinlog | pkg/ccr/job.go:3322-3331 | The watermark switch and the final write after a handled binlog. |
| UpsertJobs.UpsertJob.RecoverIncrementalSync | pkg/ccr/job.go:3853-3862 | Recovery resumes an upsert and rolls everything else back. |
| ProgressObject.JobProgress.Persist | pkg/ccr/job_progress.go:436-479 | Stores the row as it is in memory. |
| ProgressObject.JobProgress.Reload | pkg/ccr/job_progress.go:272-296 | Brings back the stored row; empty maps come back as nil and the payload is lost. |
| ProgressObject.JobProgress.StartHandle | pkg/ccr/job_progress.go:308-313 | Moves only the commit positions and stores them. |
| ProgressObject.JobProgress.NextSubVolatile | pkg/ccr/job_progress.go:317-320 | Moves the step and the payload in memory and stores nothing. |
| ProgressObject.JobProgress.NextSubCheckpoint | pkg/ccr/job_progress.go:352-363 | Stores a step and its payload and leaves both positions alone. |
| ProgressObject.JobProgress.DoneSubCheckpoint | pkg/ccr/job_progress.go:340-349 | Also takes the commit position over as done. |
| ProgressObject.JobProgress.CommitNextSubWithPersist | pkg/ccr/job_progress.go:365-373 | Also sets the commit position. |
| ProgressObject.JobProgress.PersistInMemoryData | pkg/ccr/job_progress.go:375-378 | Stores the payload held in memory. |
| ProgressObject.JobProgress.NextWithPersist | pkg/ccr/job_progress.go:383-408 | Changes the sync state, drops both payloads, and moves the done position only together with Done. |
| ProgressObject.JobProgress.Finish | pkg/ccr/job_progress.go:413-421 | Seals the handled binlog. |
| ProgressObject.JobProgress.Rollback | pkg/ccr/job_progress.go:423-432 | Returns to the done position and remembers where it was as unknown. |
| Watermarks.SwitchIsInvisible | pkg/ccr/job.go:3346-3370 | Dropping both watermark maps changes no answer of the upsert filter or the committed test for any later binlog, for ever, across partial and full syncs, saves and crashes. |
| Watermarks.SwitchPoint | pkg/ccr/job.go:3349-3367 | At the moment of the switch nothing after the current binlog was filtered by the maps. |
| Watermarks.SwitchExactly | pkg/ccr/job.go:3345-3369 | The switch happens exactly when, in a database sync with table watermarks, no entry of either map lies beyond the binlog; otherwise nothing changes. |
| Watermarks.EventsAreSteps | pkg/ccr/job.go:1918-1941 | The events over which the switch is invisible are what happens to a row: a handled upsert that raises and may switch, and a crash that decodes the stored maps. |
| Watermarks.RaiseIsBounded | pkg/ccr/job_pipeline.go:854-864 | Applying a transaction never lifts a watermark above the position applied, although destination ids are looked up among source ids. |
| Watermarks.FilterKeepsTheRest | pkg/ccr/job.go:1763-1793 | A partition record is kept if and only if no watermark covers it; no kept table record is empty and no table appears twice. |
| Watermarks.GetDbSyncTableRecords | pkg/ccr/job.go:1763-1793 | The filter loop computes exactly those records. |
| Watermarks.FilterPartitions | pkg/ccr/job.go:1812-1824 | The inner loop keeps exactly the partitions not covered by their own watermark, in order. |
| Watermarks.RaiseTables | pkg/ccr/job.go:1924-1935 | The raising loop, for destination ids in any order. |
| Watermarks.ScanReached | pkg/ccr/job.go:3350-3362 | The scan finds a watermark beyond the binlog if there is one. |
| Watermarks.AfterHandleBinlog | pkg/ccr/job.go:3346-3370 | The switch drops the maps exactly when every watermark is reached. |
| DdlReplay.DdlExactlyOnce | pkg/ccr/job.go:3711-3862 | With crashes before or after execution, and changes that can be tried again at the schemas they meet, the destination schema is as after one application of every change reached; only the very next change can have landed already, and then it is marked unknown. |
| DdlReplay.ExactlyOnceExactly | pkg/ccr/job.go:3711-3862 | Every run leaves the schema as if each change had been made once if and only if, for every change to come, the look does not mistake the schema before for the one after, and on the one after it finds the change or the handler may run again. |
| DdlReplay.WithoutTheLook | pkg/ccr/job.go:3767-3776 | With the flag that looks before acting turned off, that holds for every run if and only if no change made a second time right after the first changes anything. |
| DdlJobs.DdlJob.DetermineBinlogState | pkg/ccr/job.go:3593-3709 | Idempotent handlers are never looked up; others answer, fail, or, when nothing can be told, force a full sync and count as committed. |
| DdlJobs.DdlJob.StartBinlog | pkg/ccr/job.go:3720-3725 | Starting a binlog stores its position before any effect. |
| DdlJobs.DdlJob.Look | pkg/ccr/job.go:3766-3778 | A binlog left unknown and found committed is not executed again; a failed check ends the attempt, a forced full sync ends the phase. |
| DdlJobs.DdlJob.Handle | pkg/ccr/job.go:3785-3851 | Runs the handler; its effect and its reply may part. |
| DdlJobs.DdlJob.RecoverIncrementalSync | pkg/ccr/job.go:3853-3862 | Rolling back marks the interrupted binlog as unknown. |
| JobHandles.FilterKeepsTrust | pkg/ccr/job_handle.go:61-91 | The watermark filter behind the committed check does not break exactly-once: if the handlers of the binlogs not covered are honest at the schemas they meet, every run makes each change once; of the handlers and checks of covered binlogs, which are asked before the filter, nothing is required. |
| JobHandles.CoveredIsUntouched | pkg/ccr/job_handle.go:61-91 | Whether the check takes a covered binlog for committed or lets it through to the filter, no step of its handling changes the schema. |
| JobHandles.SaveShadows | pkg/ccr/job_handle.go:62-71 | A covered alter job adds its own shadow indexes while it is in flight, known ones keeping their entry, removes them when it has ended, and touches nothing else of the job. |
| JobHandles.EndedTakesBack | pkg/ccr/job.go:2543-2615 | Once an alter job has ended none of its shadow indexes is left, whatever it left in flight, and every other one is as before. |
| JobHandles.LastRegistrationWins | pkg/ccr/job_handle.go:104-113 | The table knows exactly the registered types, each with the methods of the handler registered last. |
| JobHandles.HandleRegistry.RegisterJobHandle | pkg/ccr/job_handle.go:104-113 | The new handler is the one of its type; every other type keeps its own. |
| JobHandles.HandleRegistry.HandleBinlog | pkg/ccr/job_handle.go:47-77 | In terms of the registered handlers: the no-handle error exactly for unregistered types, the bad-record error exactly when the last handler does not decode, the schema untouched for a covered binlog, and otherwise that handler's own result and nothing else. |
| JobHandles.HandleRegistry.IsBinlogCommitted | pkg/ccr/job_handle.go:79-92 | In terms of the registered handlers: an idempotent one is not asked, not even to decode; otherwise the last handler's own answer or error. |
| TxnLinks.InLaunchOrder | pkg/ccr/job_pipeline.go:27-35 | For every interleaving of the ingest goroutines results are received in launch order without a gap, and there is exactly one token, in one channel or with one goroutine. |
| TxnLinks.NeverJams | pkg/ccr/job_pipeline.go:694-733 | While a result is missing, the first transaction not done with its link is still ingesting or its goroutine can move. |
| TxnLinks.OutcomeIsOwn | pkg/ccr/job_pipeline.go:27-35 | What a result says of a transaction is what the end of its own ingest, or its launch, told: no step of the chain makes up, changes or loses an outcome. |
| PipelineSafety.LosesNothing | pkg/ccr/job_pipeline.go:179-355 | Across crashes, resets, lost replies and late commits every upsert at or below the stored positions was committed or judged irrelevant. |
| PipelineSafety.NonUpsertIsBarrier | pkg/ccr/job_pipeline.go:220-234 | While a non-upsert is handled every earlier upsert is settled, no transaction was ever begun for a later one, in this context or an earlier one, and everything this context launched is committed. |
| PipelineSafety.Bookkeeping | pkg/ccr/job_pipeline.go:98-169 | Done position < running transactions < queued binlogs <= fetch position, both lists increasing, and never more running than allowed. |
| PipelineSafety.NeverFaults | pkg/ccr/job_pipeline.go:416-460 | The panics, and the errors raised only for broken bookkeeping, are unreachable: the fetch behind the done position, the reset without a context, a mismatched or missing commitable transaction, an invalid state after a restart. |
| PipelineSafety.ResultIsHead | pkg/ccr/job_pipeline.go:103-115 | Whatever result is next, it is that of the oldest running transaction. |
| PipelineTrace.CommitsWereIngested | pkg/ccr/job_pipeline.go:274-289 | Over every run: whenever a commit is made, its transaction is the one received last from the channel, the result received says that the ingest succeeded, and in the same context the goroutine of that very transaction had ended so. |
| PipelineTrace.NoneCommittedUningested | pkg/ccr/job_pipeline.go:274-289 | So every transaction asked to commit along a run, and every one committed, was ingested along the run. |
| PipelineOnce.AtMostOnceIfSealed | pkg/ccr/job_pipeline.go:311-331 | If every commit that takes effect is recorded in the store before the process dies or the context is reset, no upsert is committed twice and none beyond the recorded position is committed, whatever such world the phase starts from. |
| PipelineOnce.LossExposes | pkg/ccr/job_pipeline.go:311-331 | Each of the three ways to lose a commit, an answer that fails, a commit landing late, a crash between the answer and the write that records it, leaves a committed transaction beyond the recorded position, from any reachable state without an earlier loss. |
| PipelineOnce.ExposedCommitsAgain | pkg/ccr/job_pipeline.go:340-347 | From every such state there is a run, with no further loss, that commits an upsert a second time, because the rollback that finds the transaction committed does not move the done position. |
| PipelineOnce.SecondCommitExactly | pkg/ccr/job_pipeline.go:311-347 | In any reachable state with no upsert committed twice so far, a second commit can follow without a further loss if and only if a committed transaction lies beyond the recorded position. |
| PipelineOnce.SealedExactly | pkg/ccr/job_pipeline.go:311-347 | Over whole runs: no state from which a second commit can follow is ever met if and only if every commit that took effect was recorded before the next crash or reset. |
| PipelineOnce.SealedPhasesChain | pkg/ccr/job_pipeline.go:199-218 | A phase without a lost commit hands the next one a start these results hold from. |
| PipelineSafety.YieldRecordsNothing | pkg/ccr/job_pipeline.go:302-306 | In every reachable state the yield, and every other outcome of its branch, leaves both stored positions where they were. |
| PipelineRuns.SkippedIsJudgedAgain | pkg/ccr/job_pipeline.go:302-306 | An upsert judged irrelevant, a yield, a crash: the same upsert is fetched and judged a second time. |
| PipelineRuns.PhasesChain | pkg/ccr/job_pipeline.go:199-218 | When a snapshot takes over and replay resumes after it, the new phase starts from a state all these results hold from. |
| PipelineOnce.LostReplyCommitsTwice | pkg/ccr/job_pipeline.go:318-321 | The answer is lost: from any start with an upsert next, whatever came before, a run in which one commit takes effect and reports failure commits that upsert a second time. |
| PipelineOnce.CrashBeforeSealCommitsTwice | pkg/ccr/job_pipeline.go:318-324 | The answer arrives: from any such start, a run in which every commit is answered and the process dies once between the answer and the write that records it commits that upsert a second time. |
| PipelineSafety.FoundCommittedKeeps | pkg/ccr/job_pipeline.go:891-895 | Only the oldest transaction of a rolled back list can turn out committed, so the position it sets is safe. |
| PipelineSafety.HeadIsSafe | pkg/ccr/job_pipeline.go:226-234 | With nothing running, everything before a non-upsert at the head of the queue is settled. |
| PipelineJobs.PipelineJob.EnterSync | pkg/ccr/job_pipeline.go:179-189 | The head of the function: a restarted pipeline goes to rollback, stale binlogs are drained. |
| PipelineJobs.PipelineJob.DoneBranch | pkg/ccr/job_pipeline.go:194-225 | The Done branch: trigger, recovery, user skip, launch or non-upsert. |
| PipelineJobs.PipelineJob.GetNextBinlogs | pkg/ccr/job_pipeline.go:452-514 | The fetch, its panic and each of its outcomes. |
| PipelineJobs.PipelineJob.BeginTxn | pkg/ccr/job_pipeline.go:632-692 | The begun transaction joins the running list and is stored with it. |
| PipelineJobs.PipelineJob.LaunchBranch | pkg/ccr/job_pipeline.go:236-258 | Each outcome of judging, beginning and preparing the next upsert. |
| PipelineJobs.PipelineJob.TakeBranch | pkg/ccr/job_pipeline.go:274-289 | An ingested result of the oldest transaction is handed to the commit and stored, one that asks for a snapshot stores the rollback, a failed one drops the context. |
| PipelineJobs.PipelineJob.CommitPipelineBranch | pkg/ccr/job_pipeline.go:260-309 | The choice between waiting, launching, closing and yielding. |
| PipelineJobs.PipelineJob.ApplyTxn | pkg/ccr/job_pipeline.go:848-872 | Moves the commit position and the watermarks of the applied transaction. |
| PipelineJobs.PipelineJob.CommitTxnBranch | pkg/ccr/job_pipeline.go:311-321 | An answered commit moves position and watermarks in memory only and nothing stored; any other outcome drops the context. |
| PipelineJobs.PipelineJob.SealCommit | pkg/ccr/job_pipeline.go:323-331 | Only this write records the commit: the list without it and the done position at its binlog, stored together. |
| PipelineJobs.PipelineJob.RollbackTxnTurn | pkg/ccr/job_pipeline.go:340-346 | One turn of the rollback loop for each reply. |
| PipelineJobs.PipelineJob.RollbackBranch | pkg/ccr/job_pipeline.go:333-341 | The list to roll back comes from memory or from the store. |
| PipelineJobs.PipelineJob.HandleBinlogTail | pkg/ccr/job_pipeline.go:226-234 | What happens to the queue and the progress after a non-upsert handler. |
| PipelineJobs.PipelineJob.InitializePipelineContext | pkg/ccr/job_pipeline.go:387-405 | A new context starts at the commit position with one token; an old one is reopened. |
| PipelineJobs.PipelineJob.ResetPipeline | pkg/ccr/job_pipeline.go:407-414 | Drops the context, and panics without one. |
| PipelineJobs.JobPipelineContext.DrainStaledBinlogs | pkg/ccr/job_pipeline.go:357-369 | Drops exactly the leading binlogs at or below the done position. |
| PipelineJobs.JobPipelineContext.TakeNextCommitableTxn | pkg/ccr/job_pipeline.go:151-169 | Receives the next result, or none. |
| Snapshots.RestartSafe | pkg/ccr/job.go:624-1029 | In every reachable state of full and partial sync, a table found dropped included, the payload in memory has the type the next step casts to, only three steps are ever stored, and none of them needs memory, so no crash reloads into a step that lacks its data. |
| Snapshots.PartialNeverStuck | pkg/ccr/job.go:991-1020 | A partial sync always has its parameters, starting over with them is never refused, nor is starting over with the whole table unless a table sync was restoring a view; its last step reaches replay exactly if it is part of a database sync, covers partitions only, or finds the watermark of its table, which a restored table always left. |
| Snapshots.PartialWaitRestoreKeeps | pkg/ccr/job.go:902-946 | Expiry and a signature mismatch restart with parameters that are not refused. |
| SnapshotTrace.ReplayFollowsAllSteps | pkg/ccr/job.go:1060-1617 | Over every run with failures, repetitions and crashes: replay begins only with the last write of a sync, after each of its six steps had its good outcome since the sync began; the one exception is a table found dropped. |
| SnapshotTrace.StagesPassed | pkg/ccr/job.go:1060-1617 | Every step a sync has behind it had its good outcome since the sync began, and the snapshot it waits for, reads and restores is the one whose backup was begun then. |
| SnapshotTrace.AliasesAreReplies | pkg/ccr/job.go:1430-1458 | Over every run the alias map of a full sync holds exactly the latest alias that a restore asked for each table since the sync began, and is empty from the moment the swap is saved. |
| SnapshotTrace.SwapPutsRepliesIn | pkg/ccr/job.go:1509-1546 | What the swap works on are those replies: after any number of interrupted runs of its loop each table that did not match holds what was restored under the alias asked for last, that alias is gone and every other table is as it was. |
| SnapshotJobs.StartCommitSeq | pkg/ccr/job.go:1484-1497 | The loop finds the smallest nonzero watermark, bounded by the snapshot's own position. |
| SnapshotJobs.SnapshotJob.NewSnapshot | pkg/ccr/job.go:4152-4175 | Starts a full sync and forgets partial parameters and aliases. |
| SnapshotJobs.SnapshotJob.NewPartialSnapshot | pkg/ccr/job.go:4182-4229 | Starts a partial sync at the commit position; refused exactly for another table in a table sync and when partitions are to replace a table. |
| SnapshotJobs.SnapshotJob.PartialSyncTableDropped | pkg/ccr/job.go:569-591 | A dropped table gets the greatest watermark and replay resumes; a table sync only reports it. |
| SnapshotJobs.SnapshotJob.WaitBackupCase | pkg/ccr/job.go:1135-1150 | Only a finished backup is stored. |
| SnapshotJobs.SnapshotJob.RestoreSnapshotCase | pkg/ccr/job.go:1260-1394 | Works from the payload in memory, or decodes the stored one. |
| SnapshotJobs.SnapshotJob.FullInfoCase | pkg/ccr/job.go:1152-1237 | Each reply about the snapshot, a changed table id included. |
| SnapshotJobs.SnapshotJob.FullWaitRestoreCase | pkg/ccr/job.go:1396-1507 | Each outcome of the restore; where it did not match, the alias is entered under its table and stored before the restore is repeated. |
| SnapshotJobs.SnapshotJob.FullPersistRestoreInfoCase | pkg/ccr/job.go:1509-1611 | The swap result is stored before the final write. |
| SnapshotJobs.SnapshotJob.PartialInfoCase | pkg/ccr/job.go:687-776 | Each reply about the partial snapshot; a view's watermark is kept under the id the view has in the backup, without the checks made of a table. |
| SnapshotJobs.SnapshotJob.PartialWaitRestoreCase | pkg/ccr/job.go:902-946 | Merges table or partition watermarks and stores them with the step. |
| SnapshotJobs.SnapshotJob.PartialPersistRestoreInfoCase | pkg/ccr/job.go:948-1022 | The final position per sync type and region. |
| SnapshotJobs.SnapshotJob.FullSync | pkg/ccr/job.go:1060-1617 | One pass of the switch is one step of the machine. |
| SnapshotJobs.SnapshotJob.PartialSync | pkg/ccr/job.go:607-1029 | One pass of the switch is one step of the machine. |
| AliasSwap.SwapSurvivesCrashes | pkg/ccr/job.go:1513-1547 | However often the swap loop died, each time in an order of its own, the run that gets through leaves every target with its restored content, no alias, and all other tables as they were. |
| AliasSwap.PartialSwapSurvivesCrashes | pkg/ccr/job.go:955-984 | The same for the one alias of a partial sync, whose target may be missing; in between the tables are untouched or already final. |
| AliasSwap.SwapAliases | pkg/ccr/job.go:1520-1539 | The loop, stopped at any turn with or without that turn's effect, equals the turns taken, and succeeds exactly when it is not stopped and no turn is refused. |
| AliasSwap.NeverRefused | pkg/ccr/job.go:1533-1535 | Right after a restore, however often the loop died since, no replacement is refused. |
| AliasSwap.SwapTurn | pkg/ccr/job.go:1527-1538 | The existence check makes a turn idempotent. |
| AliasSwap.SwapPartial | pkg/ccr/job.go:955-978 | Replace when the target exists, rename when it does not, nothing when the alias is gone. |
| Membership.ReassignedJobsAreNoticed | pkg/ccr/checker.go:93-177 | In every state any number of syncers can reach, a job of a host that the host neither runs nor is about to start implies that the stored stamp differs from the one the host remembers, although stamp and jobs are read in two steps. |
| Membership.RefreshMeansRunning | pkg/storage/sqlite.go:199-213 | So a swap that succeeds proves that every job of the syncer is running or was just stored by the syncer itself and is about to run. |
| Membership.CatchUp | pkg/ccr/checker.go:125-136 | Four undisturbed steps after a failed swap bring a syncer up to date. |
| Membership.FindDeadExactly | pkg/ccr/checker.go:138-140 | A check finds exactly the syncers whose row is more than 12,000,000,000 nanoseconds behind the stamp the checker remembers. |
| Membership.RecentIsNotDead | pkg/ccr/checker.go:28-31 | Once a syncer has written its stamp, whatever happens in between, no check made with a stamp at most twelve seconds later takes it for dead. |
| Membership.OwnedExactly | pkg/storage/sqlite.go:360-409 | Over every run of any number of syncers: all stored jobs keep an owner with a row if and only if no job is added by a syncer without one and no transaction over jobs of the dead finds nobody else in the table. |
| Membership.LostUntilRegistered | pkg/storage/sqlite.go:283-323 | A job whose owner has no row, and which no checker already under way is moving, stays with that owner, over every run, exactly until it registers again. |
| Membership.MutualSuspicionStrandsAll | pkg/ccr/checker.go:138-145 | From any stored tables two syncers can take each other for dead so that the table of syncers ends empty and every stored job is lost in this sense, with both processes up. |
| Membership.OutlivedSyncerStrands | pkg/ccr/checker.go:138-145 | From any stored tables a slow syncer can lose its row to another and then add a job that is lost in this sense. |
| CheckerObject.Checker.StartCheck | pkg/ccr/checker.go:86-91 | Each check starts from Refresh. |
| CheckerObject.Checker.Advance | pkg/ccr/checker.go:93-123 | The state after each handler. |
| CheckerObject.Checker.HandleRefresh | pkg/ccr/checker.go:125-127 | The swap is a step of the protocol. |
| CheckerObject.Checker.HandleUpdateStamp | pkg/ccr/checker.go:129-131 | The first read of an update. |
| CheckerObject.Checker.HandleUpdateJobs | pkg/ccr/checker.go:129-131 | The second read, which may see other jobs than the first. |
| CheckerObject.Checker.HandleUpdateRecover | pkg/ccr/checker.go:132-135 | Starting the jobs read. |
| CheckerObject.Checker.HandleCheck | pkg/ccr/checker.go:138-140 | Finds exactly the syncers more than twelve seconds behind. |
| CheckerObject.Checker.HandleRebalance | pkg/ccr/checker.go:142-145 | Whatever the transaction does to the tables is a move the protocol allows; a slice that cannot be cut ends the process. |
| CheckerObject.JobManager.Recover | pkg/ccr/job_manager.go:100-128 | The running set grows by exactly the given names. |
| CheckerObject.JobManager.AddJob | pkg/ccr/job_manager.go:59-98 | A job is started only after its row was stored. |
| CheckerObject.AddJobIsTwoSteps | pkg/ccr/job_manager.go:90-95 | Adding a job is two steps of the protocol, and in between the job counts as the syncer's. |
| SyncerStore.SyncerDb.AddSyncer | pkg/storage/sqlite.go:186-197 | Registers the syncer with a new stamp. |
| SyncerStore.SyncerDb.AddJob | pkg/storage/sqlite.go:61-79 | A job name is stored once. |
| SyncerStore.SyncerDb.RefreshSyncer | pkg/storage/sqlite.go:199-213 | Compare and swap of the own stamp. |
| SyncerStore.SyncerDb.GetDeadSyncers | pkg/storage/sqlite.go:284-299 | Exactly the stamps below the limit. |
| SyncerStore.SyncerDb.GetOrphanJobs | pkg/storage/sqlite.go:301-323 | The jobs of all dead syncers, whose rows go. |
| SyncerStore.SyncerDb.GetLoadInfo | pkg/storage/sqlite.go:325-346 | One entry per live syncer counting its jobs, and the sum. |
| SyncerStore.SyncerDb.DispatchJobs | pkg/storage/sqlite.go:348-353 | Reassigns a slice. |
| SyncerStore.SyncerDb.DispatchAll | pkg/storage/sqlite.go:396-402 | The backward slicing: succeeds exactly when every slice can be cut, and then reassigns and bumps exactly the planned ones. |
| SyncerStore.SyncerDb.RebalanceLoadFromDeadSyncers | pkg/storage/sqlite.go:360-409 | All or nothing; which of the two is decided by the split alone. |
| SyncerStore.OrphanMembers | pkg/storage/sqlite.go:301-323 | Every job of a dead syncer is collected exactly once. |
| SyncerStore.SlicesExactly | pkg/storage/sqlite.go:396-402 | The slices can all be cut if and only if no syncer is asked to give jobs away. |
| SyncerStore.MovesTile | pkg/storage/sqlite.go:396-402 | The backward slices partition the orphans: each goes to exactly one live syncer. |
| SyncerStore.DispatchMatchesPlan | pkg/storage/sqlite.go:384-402 | Afterwards every live syncer owns exactly its planned number of jobs, jobs of the living never move, and jobs stay with the dead if and only if there are some and no syncer is left in the table. |
| SyncerStore.DispatchKeepsEven | pkg/storage/sqlite.go:384-402 | If job counts of live syncers differ by at most one before, they do after. |
| SyncerStore.EvenLoadsDispatch | pkg/storage/sqlite.go:391-402 | From even loads the transaction never fails to cut a slice; its only failure is having nothing to hand out. |
| SyncerStore.DispatchIsValid | pkg/storage/sqlite.go:360-409 | The transaction is one the membership protocol relies on: fresh stamps for every receiver, and all jobs of the dead moved unless no syncer is left. |
| Rebalance.SortByLoad | pkg/storage/utils.go:54-55 | Sorted by load and a permutation. |
| Rebalance.FilterHighLoadSyncer | pkg/storage/utils.go:54-67 | Finds the longest prefix whose last load is below the average, or fails. |
| Rebalance.KeptMeans | pkg/storage/utils.go:60-65 | Everything beyond the prefix is at or above the average, the last of the prefix below it. |
| Rebalance.Level | pkg/storage/utils.go:79-89 | The two loops end exactly at the levelled list and never run past the prefix. |
| Rebalance.RebalanceLoad | pkg/storage/utils.go:69-92 | The call on the array gives the outcome stated for the sorted list. |
| Rebalance.RebalanceConserves | pkg/storage/utils.go:69-92 | The returned syncers take over exactly the additional load, each ending at the floor of the average or one above. |
| Rebalance.ErrorExactly | pkg/storage/utils.go:66-66 | The error is raised if and only if the list is not empty, nothing is to be handed out and all loads are the same positive number. |
| Rebalance.NegativeSplit | pkg/storage/utils.go:80-84 | Loads 0, 9 and 100 with one orphan take four jobs from the second syncer. |
| Rebalance.NonNegativeExactly | pkg/storage/utils.go:80-84 | Nobody is asked to give jobs away if and only if the most loaded syncer kept is not above the average of the kept ones. |
| Rebalance.BalanceIsPreserved | pkg/storage/utils.go:54-92 | If live loads differ by at most one, nobody gives jobs away and all loads still differ by at most one. |
| IngestRun.CommitInfosAreComplete | pkg/ccr/ingest_binlog_job.go:258-291 | For any interleaving, an ingest that ends without error has exactly one commit info per replica of every destination tablet to be loaded, each from a source replica with the binlog's version, and the eligible source replicas of a tablet were read equally often, give or take one. |
| IngestRun.SourcesShareEvenly | pkg/ccr/ingest_binlog_job.go:276-282 | For a handler whose loads all succeeded, the numbers of destination replicas loaded from any two eligible source replicas differ by at most one. |
| IngestRun.FailsForAReason | pkg/ccr/ingest_binlog_job.go:258-291 | An ingest fails only for a load that failed, a tablet without a source that has the version, or a replica on an unknown backend. |
| IngestRun.IngestEnds | pkg/ccr/ingest_binlog_job.go:258-291 | No interleaving is longer than the work there is, and one after which nothing can move has every handler over. |
| IngestRun.TabletIngestBinlogHandler.ScanSources | pkg/ccr/ingest_binlog_job.go:262-269 | The eligible source replicas in order. |
| IngestRun.TabletIngestBinlogHandler.Handle | pkg/ccr/ingest_binlog_job.go:258-282 | Replica k reads from the source whose turn it is; the scan ends early exactly at an unknown backend. |
| IngestPlan.PlanMembers | pkg/ccr/ingest_binlog_job.go:479-683 | A plan holds a job exactly for each tablet of each index neither dropped nor shadow, of each partition neither temporary nor dropped, of each table not dropped, paired by rank with a tablet of the index where its data belongs: the one named like the destination table for the one named like the source table of a table sync, otherwise the base index for the base index and the namesake for any other. |
| IngestPlan.PlanDestinations | pkg/ccr/ingest_binlog_job.go:702-717 | The destination tablets of the plan are the tablets to be loaded, each as often and in the same order. |
| IngestPlan.ShareExactly | pkg/ccr/ingest_binlog_job.go:515-524 | Two source indexes of different names load into one destination index if and only if a name of the source clashes with one of the destination: a rollup named like the base index there or, in a table sync, like the destination table. |
| IngestPlan.RollupsApart | pkg/ccr/ingest_binlog_job.go:515-524 | In a database sync two rollups never load into the same index. |
| IngestPlan.RollupNamedLikeTheTable | pkg/ccr/ingest_binlog_job.go:515-524 | The clash written out: table t goes to table d and has a rollup named d; both of its indexes load into the base index of d. |
| IngestPlan.IngestBinlogJob.PrepareIndex | pkg/ccr/ingest_binlog_job.go:413-477 | Pairs the tablets by rank, or fails when their numbers differ. |
| IngestPlan.IngestBinlogJob.PreparePartition | pkg/ccr/ingest_binlog_job.go:479-597 | Both passes over the indexes; fails for a kept index without a partner. |
| IngestPlan.IngestBinlogJob.CheckIndexes | pkg/ccr/ingest_binlog_job.go:526-550 | The checking pass. |
| IngestPlan.IngestBinlogJob.PrepareTable | pkg/ccr/ingest_binlog_job.go:599-683 | Both passes over the partition records. |
| IngestPlan.IngestBinlogJob.CheckRanges | pkg/ccr/ingest_binlog_job.go:647-664 | The checking pass. |
| IngestPlan.IngestBinlogJob.PrepareTabletIngestJobs | pkg/ccr/ingest_binlog_job.go:702-717 | All tables, or the error. |
| Limiter.PermitsAreExact | pkg/ccr/backup_restore_limiter.go:42-88 | Over all interleavings of any number of jobs the count stored for a key is the number of jobs that noted it, no zero is stored, a permit asked for is granted exactly while fewer than the limit hold one, and without observed permits no count ever exceeds it. |
| Limiter.BackupRestoreLimiter.TryAcquire | pkg/ccr/backup_restore_limiter.go:42-56 | Grants exactly below the limit, or where there is none. |
| Limiter.BackupRestoreLimiter.Observe | pkg/ccr/backup_restore_limiter.go:58-67 | Counts without asking. |
| Limiter.BackupRestoreLimiter.Release | pkg/ccr/backup_restore_limiter.go:69-88 | Gives back one and removes a zero. |
| PermitJobs.PermitJob.TryAcquirePermit | pkg/ccr/job.go:464-485 | Gives the old permit back before asking for another, also when refused. |
| PermitJobs.PermitJob.ObservePermit | pkg/ccr/job.go:487-505 | Takes note of a permit in use. |
| PermitJobs.PermitJob.ReleasePermit | pkg/ccr/job.go:507-516 | Leaves the job without a permit. |
| PermitJobs.PermitJob.FullSyncGate | pkg/ccr/job.go:1031-1051 | With a limit no step of a full sync is taken without the permit it needs; without one every step is taken and permits are only given back. |
| ConcurrencyWindows.NoLostWakeup | pkg/rpc/concurrency.go:51-71 | The window never holds more than its limit, and whoever sleeps does so because it is full or enough woken goroutines are on their way, newcomers or not. |
| ConcurrencyWindows.SleepersAreServed | pkg/rpc/concurrency.go:51-71 | When all woken have run and all holders left, nobody sleeps. |
| ConcurrencyWindows.EntersExactly | pkg/rpc/concurrency.go:51-59 | In every reachable state a goroutine is let in exactly if fewer than the limit are inside, and otherwise sleeps behind the others. |
| ConcurrencyWindows.ReleaseServes | pkg/rpc/concurrency.go:61-71 | Who releases is out; the one asleep longest is woken, and finds room if it is the next to run. |
| ConcurrencyWindows.ConcurrencyWindow.AcquireTurn | pkg/rpc/concurrency.go:51-59 | From taking the lock to entering or going to sleep. |
| ConcurrencyWindows.ConcurrencyWindow.ReleaseTurn | pkg/rpc/concurrency.go:61-71 | One place is freed and one sleeper woken. |

## Left out

- Pipeline.Next: upserts wrapped in barrier logs, the retry of an upsert after a metadata error, and a full sync started by the error handler while a pipeline context is alive are not events, because these paths break the bookkeeping the context relies on; sub states left by older versions only appear as the conversion to Done.
- UpsertReplay.ExactlyOnce: the retry wrapper around the upsert handler is not part of the machine; after a metadata error it runs the handler again from the position already rolled back.
- Replica.Enabled: a direct schema change is an event only where `DirectDdlExactly` says it is right; a partial sync of a view is an event in a database sync only; a table id that changes at the source and the table dropped during a partial sync, of whose contents nothing is promised from then on, are not events.
- Membership.Next: a syncer wrongly taken for dead keeps its jobs running, since nothing in the source stops them; the reply of adding a job is not lost; jobs are not removed.
- CheckerObject.Checker: the loop that calls the handlers until Finish or Error has no bound in the source and is represented by its steps.
- Rebalance.FilterHighLoadSyncer: the comparison of floats is one of integers, load times number of syncers against the sum; the standard library's sort is any sort by load.
- Snapshots.Next: the feature flags for atomic and compressed restores, and the text of table references are not modelled; whether a snapshot expired is a reply.
- AliasSwap.SwapAliases: the aliases are assumed distinct from each other and from the tables they stand in for, as their generated names are.
- IngestRun.Next: the infos collected per sub transaction of a transactional insert, and the cancel flag nothing ever sets.
- IngestPlan.Meta: dropped binlogs applied before an ingest, and building the metadata itself.
- Limiter.Next: the limit is fixed and positive; a job's own note and its call of the limiter are one event, since no other job reads the note.
- ConcurrencyWindows.Next: a limit below one, under which every goroutine sleeps for ever.
- DdlReplay.Next: the individual schema handlers are an effect and a check; which binlog types count as idempotent is part of the handlers.
- ProgressObject.JobProgress.Persist: the write of a deleted job is skipped and a failed write repeated until it succeeds; both are left out.
- Progress: times, labels, locked positions, name mappings and shadow indexes of the progress row; the JSON form, taken as an exact copy.
- The MySQL and PostgreSQL stores, which have the shape of the SQLite one.
- The RPC clients, SQL text, the HTTP service, metrics, flags, host mappings and frontend failover, which move data without deciding anything modelled here.
