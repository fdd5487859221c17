# A verified model of the distributed crontab

Workers keep a table of cron jobs in step with etcd, start each job when it is due, take a
lease-based lock so that the job does not run twice at once, run its shell command, and ship the
log to Mongo in batches. This project models the parts of that program whose correctness rests on
interleaving, and proves what every run keeps.

Four machines are modelled, each as a set of small steps that any number of goroutines, clients
and servers take in any order, and then put together:

- **The job lock** (`LockModel.dfy`): an etcd server with live leases and lock keys, and any
  number of `TryLock` / command / `UnLock` attempts. Commits stay deliverable for ever and may be
  applied more than once, replies get lost, revokes fail, any lease may expire at any moment.
  `JobLock.dfy` holds `TryLock`, `UnLock` and `ExecuteJob` as imperative code, every method of
  which is a run of that machine.
- **The scheduler** (`Tables.dfy`): what an event, a visit to one plan, and a result do to the plan
  table and the executing table. `Scheduler.dfy` holds the handlers, the pass with its map
  iteration and its pointer to the earliest plan, and the select loop, on heap objects, proved
  against those functions.
- **The log writer** (`SinkModel.dfy`): queue, open batch, timers and their callbacks.
  `LogSink.dfy` is the heap version, where a stale batch is recognised by reference comparison.
- **The event feed** (`Feed.dfy`, `JobMgr.dfy`): the store as a history of changes, the snapshot and
  watch of a worker, and the master's `SaveJob`, `DeleteJob` and `KillJob` that write the history.

`WorkerModel.dfy` interleaves the scheduler goroutine, execution goroutines, watchers, log writer,
timers and clock of one worker; `WorkerTheorems.dfy` states what holds in every reachable state.
`Process.dfy` puts the heap objects of scheduler and log writer together with the channels and shows
that under any schedule they do what that machine does.
`Results.dfy` follows a result from the command to the log record. `ClusterModel.dfy` lets any number
of such workers share one lock service; `ClusterResults.dfy` follows the answers of etcd to the results.

Time is an integer number of nanoseconds and clocks never go back. The cron library is a parameter:
an expression parses or not, and `Next` returns a strictly later instant or the zero time
(`LibraryLaw`). The code treats a job at the zero time as permanently due; where that matters the
theorems say so. JSON coding is a parameter too (`JsonLaw`: what was encoded decodes to the same
job); values that do not decode are part of the model.

Where the code and its comments disagree, the code is followed. In particular the comments say that
deleting a missing key still delivers a delete event; in the model a delete that removes nothing
makes no revision, and the feed theorems hold for histories with such deletes as well.

Three things the code does not do are stated exactly instead of being assumed:

- A running command is not stopped when its lease expires, so two commands of one job can overlap
  (`LockModel.OverlapIsPossible`). In every run the earlier winner of two overlapping commands has
  lost its lease (`ClusterModel.CommandsOverlapOnlyAfterLeaseLoss`). A running command can be joined
  by another of its job, without any further lease dying, if and only if the lock key is absent or
  another attempt of the job has won the lock and not turned back, its lease alive or not
  (`LockModel.OverlapIffFreeOrOnItsWay`); so a client that pauses between its put and its command
  past the life of its lease joins even a holder whose lease is alive
  (`LockModel.LateStarterJoinsHolder`). The same is stated for each execution of a cluster, wherever
  it is (`ClusterModel.OverlapIffCanRun`).
- A value that does not decode or whose cron expression does not parse is skipped, and the previous
  job stays. A worker's table agrees with the store on a name if and only if the name is not stale
  in this sense (`Feed.FeedExact`). Two workers agree on a name if and only if it is stale for both
  or for neither (`Feed.WorkersAgreeExactly`, `JobMgrs.PlanTablesAgreeExactly`), and workers that
  started at different revisions can disagree (`Feed.BadOverwriteSplitsWorkers`).
- Of two starts of one job the later has the later plan time if and only if its plan time is not the
  zero time, which `NextTime.IsZero()` tells before TryStartJob (`WorkerTheorems.PlanTimesIncrease`).
  The plan times of an expression's jobs increase in every run if and only if the library returns a
  later instant for every instant (`WorkerTheorems.PlanTimesIncreaseIffInstants`); a run from the
  start that begins a job twice for the same plan time is `WorkerTheorems.RepeatingRun`.

`dafny verify dfyconfig.toml` checks the whole project.

## Model

| member | source | states |
|---|---|---|
| `LockModel.RunKeepsInv` | src/worker/JobLock.go:49-157 | every step of every attempt and of the server keeps: leases are distinct, lock keys are exactly the locks of winners with a live lease, and earlier winners of a job are dead |
| `LockModel.OneLiveHolder` | src/worker/JobLock.go:97-135 | two winners of one job with live leases are the same attempt, and the lock key is bound to exactly its lease |
| `LockModel.OverlapOnlyAfterLeaseLoss` | src/worker/JobLock.go:49-143 | in every run, of two attempts past TryLock for one job at most one has a live lease; the one that won first is the one that lost it |
| `LockModel.OverlapIsPossible` | src/worker/JobLock.go:78-95 | two commands of one job can run at once, because expiry only ends the keep-alive goroutine |
| `LockModel.NobodyNewRunsWhileHeld` | src/worker/JobLock.go:97-135 | a run that brings a command of an attempt that had not won before outlives the lease its key was bound to |
| `LockModel.SomebodyNewCanRunIffFree` | src/worker/JobLock.go:97-135 | with no lease dying, an attempt that has not won can come to run its command iff the key is absent (the transaction's guard), iff no winner of the job is alive |
| `LockModel.CommandReachableIffCanRun` | src/worker/JobLock.go:49-143 | for every attempt, wherever in TryLock it is: it can come to its command without any lease dying iff it has won and not turned back, or the key is absent and it is still on its way with a lease that lives |
| `LockModel.OverlapIffFreeOrOnItsWay` | src/worker/JobLock.go:78-127 | a running command can be joined by another of its job, no lease dying, iff the key is absent or another attempt of the job has won and is Committing, Locked or Running |
| `LockModel.LateStarterJoinsHolder` | src/worker/JobLock.go:78-127 | a winner whose lease expired before its command began joins a holder whose lease is alive |
| `LockModel.RollbackIsComplete` | src/worker/JobLock.go:111-142 | once a refused attempt's lease is gone, no later run binds a key to it and no delivery of its commit creates a key, whether it was applied before, after or never |
| `LockModel.ExpiryFinishesRollback` | src/worker/JobLock.go:136-142 | if the revoke is lost, expiry has exactly the effect the revoke would have had |
| `LockModel.UnlockRemovesOnlyItsOwn` | src/worker/JobLock.go:148-157 | UnLock removes a key iff that key is bound to its own lease, leaves all others, and is idempotent |
| `LockModel.LateUnlockSparesTheNewHolder` | src/worker/JobLock.go:148-157 | after lease loss, a late UnLock leaves the lock of the worker that acquired the job since |
| `LockModel.FreeIffNoLiveWinner` | src/worker/JobLock.go:97-109 | the lock key is absent iff no winner of the job has a live lease |
| `LockModel.FreeLockIsWon` | src/worker/JobLock.go:97-135 | an undisturbed attempt on a free key with a live lease gets the lock |
| `LockModel.AnswerDecides` | src/worker/JobLock.go:111-135 | in every run an attempt fails because the lock was taken iff its client received the answer that the transaction took the else branch, and gets past TryLock iff it received the other |
| `LockModel.TakenMeansHeld` | src/worker/JobLock.go:102-127 | that answer is given iff the transaction was applied while the key was there |
| `JobLocks.EtcdCluster.Txn` | src/worker/JobLock.go:97-127 | commit with lost, late or repeated application: the three ways it can answer and the program point each leads to |
| `JobLocks.JobLock.TryLock` | src/worker/JobLock.go:49-143 | nil iff locked iff the transaction was answered with success since the call; then the attempt won, its lease is being renewed and the key is bound to it while it lives; ERR_LOCK_ALREADY_REQUIRET iff it was answered that the key is taken; on any error renewal is off and a lease that was granted was handed to Revoke; all of it one run of the lock machine |
| `JobLocks.JobLock.UnLock` | src/worker/JobLock.go:148-157 | releases once locked, no effect at all after a failed TryLock, safe to repeat |
| `JobLocks.Executor.ExecuteJob` | src/worker/Executor.go:25-85 | exactly one result is pushed; if the lock was won it carries the command's output and error, and its start time was read after TryLock returned; else it has no output, its start time was read before TryLock, and its error is LockTaken iff etcd answered so; when it is pushed a lock that was won is still unreleased, and at the end it is released |
| `SchedulerTables.PassMeaning` | src/worker/Scheduler.go:129-188 | for every iteration order a pass starts exactly the due names not executing, each once, with its own plan time and the clock reading of its own visit, moves exactly the due plans to Next(now), and changes nothing else |
| `SchedulerTables.PassOrderIrrelevant` | src/worker/Scheduler.go:143-155 | two iteration orders give the same plans, the same executing names and the same executions up to numbering |
| `SchedulerTables.PassIdempotent` | src/worker/Scheduler.go:57-78 | a second pass at the same now changes nothing, in any order and for any cron library |
| `SchedulerTables.SecondPassSameDelay` | src/worker/Scheduler.go:57-78 | a second pass at the same now, in any order, returns the same delay as the first |
| `SchedulerTables.DelayMeaning` | src/worker/Scheduler.go:129-160 | the delay is at most zero iff some plan is due, zero-time plans included, and one second for an empty table |
| `SchedulerTables.EventMovesPlans` | src/worker/Scheduler.go:92-112 | a parsable SAVE files exactly that job with the instant after the clock reading, a DELETE removes the name, every other plan stays |
| `SchedulerTables.PassLeavesNothingDue` | src/worker/Scheduler.go:143-155 | after a pass every plan is strictly later than now, or at the zero time |
| `SchedulerTables.TableIsLastSaveSinceDelete` | src/worker/Scheduler.go:92-124 | for every event sequence the table maps a name to job j iff j is the last parsable SAVE since the last DELETE |
| `Schedulers.Scheduler.HandleJobEvent` | src/worker/Scheduler.go:92-124 | SAVE, DELETE and KILL on the heap do what the table function says, unparsable SAVE included |
| `Schedulers.Scheduler.TryStartJob` | src/worker/Scheduler.go:170-188 | skips an executing job, otherwise spawns one execution with the plan's job and time and the clock's reading, and files it under its name |
| `Schedulers.Scheduler.TrySchedule` | src/worker/Scheduler.go:129-160 | one full iteration in some order with in-place plan updates, and the returned delay is the saturating difference to the earliest plan of the updated table, one second if it is empty |
| `Schedulers.Scheduler.HandleJobResult` | src/worker/Scheduler.go:200-234 | frees the name of that execution; unless the error is lock contention hands one record to the sink that says, field by field, whose run it was, what it printed, how it ended and when, and that is dropped iff 1000 are queued |
| `Schedulers.Scheduler.ScheduleLoop` | src/worker/Scheduler.go:49-79 | a first pass, then every message is handled once, in order, and followed by exactly one pass over all plans; instants never go back; tables and log sink are what these operations make of them; the timer holds the delay from the last pass to the earliest plan |
| `WorkerProcesses.LoopOpIsRun` | src/worker/Scheduler.go:49-79 | each operation ScheduleLoop is made of, a whole pass included, is a run of the worker machine wherever its message is at hand, to the same tables, sink and clock |
| `WorkerProcesses.WorkerProcess.Work` | src/worker/Scheduler.go:49-234 | the scheduler and log sink on the heap, with their channels and the execution goroutines, under any schedule: the heap is in the state the worker machine reaches by exactly the steps scheduled, with time going by in between |
| `WorkerProcesses.StartAndWork` | src/worker/Scheduler.go:32-79 | from its start, under any schedule, the heap is in the state of a reachable worker, so every theorem about reachable workers holds of it |
| `WorkerModel.RunKeepsInv` | src/worker/Scheduler.go:49-234 | every interleaving of scheduler, executions, watchers, log writer and clock keeps single flight, instants, history and log accounting |
| `WorkerTheorems.OneExecutionPerName` | src/worker/Scheduler.go:170-209 | a name is in the executing table iff exactly one started execution of it is unhandled, and the entry is that one, across delete and re-save |
| `WorkerTheorems.ResultRemovesItsOwnEntry` | src/worker/Scheduler.go:200-209 | handling a result removes the entry of the execution that produced it |
| `WorkerTheorems.ResultQueueBounded` | src/worker/Scheduler.go:193-195 | the result queue never exceeds the executing table, so result sends cannot block while at most 1000 jobs execute |
| `WorkerTheorems.SendBlocksIffFull` | src/worker/Scheduler.go:84-86 | a send of an event or a result blocks iff 1000 are waiting |
| `WorkerTheorems.SelectTakesAny` | src/worker/Scheduler.go:61-78 | at its select the scheduler can take an event iff there is one, a result iff there is one, whatever the other channel holds |
| `WorkerTheorems.NoDeadlock` | src/worker/Scheduler.go:61-78 | from every reachable state the scheduler alone empties both channels and returns to its select, and every blocked sender can then send |
| `WorkerTheorems.PassAfterEveryMessage` | src/worker/Scheduler.go:61-78 | in every run a pass begins between receiving a message or a timer fire and the next select |
| `WorkerTheorems.TimerStartsDueJobs` | src/worker/Scheduler.go:69-78 | from every select a timer fire alone lets the scheduler bring every due job into execution |
| `WorkerTheorems.PlanTimesIncrease` | src/worker/Scheduler.go:101-150 | over whole runs, across re-saves and deletes: of two starts of a name the later plan time is strictly later iff it is not the zero time |
| `WorkerTheorems.PlanTimesIncreaseIffInstants` | src/worker/Scheduler.go:143-150 | plan times of jobs with an expression increase strictly in every run iff Next is later than its argument for every instant |
| `WorkerTheorems.PlanTimesComeFromCron` | src/common/Protocol.go:200-229 | each plan time was returned by the job's own expression for an earlier clock reading, and is not after the start |
| `WorkerTheorems.RepeatingRun` | src/worker/Scheduler.go:143-150 | if no instant follows t, a run from the start, with the clock at t, starts the job twice with the same plan time |
| `WorkerTheorems.TimerIsRight` | src/worker/Scheduler.go:57-78 | at every select all plans lie after the last pass or at the zero time, and the timer holds exactly the delay to the earliest |
| `WorkerTheorems.EventsHandledInOrder` | src/worker/Scheduler.go:61-68 | events handled, then those in the channel, are the events pushed, in order |
| `WorkerTheorems.TableFollowsEvents` | src/worker/Scheduler.go:92-124 | in every reachable state the plan table is the last-save-since-delete table of the events handled |
| `WorkerTheorems.StartsFollowEvents` | src/worker/Scheduler.go:92-188 | each execution runs the job of the last parsable SAVE before it; nothing starts between a DELETE and the next valid SAVE |
| `WorkerTheorems.KillsAreExact` | src/worker/Scheduler.go:113-122 | an execution's context is cancelled iff a KILL of its name was handled after its start and before its result was handled |
| `WorkerTheorems.EveryResultAccountedFor` | src/worker/Scheduler.go:200-233 | results handled = lost lock races + dropped logs + logs saved, in the open batch or queued, with one Append per other result, in order |
| `ResultTheorems.ResultsHandledInOrder` | src/worker/Scheduler.go:193-195 | results handled, then those in the channel, are the results sent, in order: none is lost |
| `ResultTheorems.SentIffQueued` | src/worker/Scheduler.go:193-209 | an execution has sent its result and not had it handled iff the channel holds a result of it, and then exactly one |
| `ResultTheorems.EverySentResultAccountedFor` | src/worker/Scheduler.go:193-233 | results sent = waiting + lost lock races + dropped logs + logs saved, in the open batch or queued |
| `ResultTheorems.ResultsTellTheTruth` | src/worker/Executor.go:44-82 | every result sent carries what the lock or the command answered to its own execution, and the instants of that answer: the start is when the lock was won, or when the goroutine began if it was refused |
| `ResultTheorems.AnyAnswerCanCome` | src/worker/Executor.go:52-76 | an execution can come to any refusal and to any output and error |
| `ResultTheorems.LogsAreRecordsOfResults` | src/worker/Scheduler.go:213-233 | the k-th log handed to Append records, field by field, the k-th result handled that was not a lost race |
| `WorkerTheorems.LogTimesOrdered` | src/worker/Scheduler.go:214-222 | planTime <= scheduleTime <= startTime <= endTime in milliseconds for every log record, zero-time plans included |
| `GoTime.TwoDivisions` | src/worker/Scheduler.go:218-221 | two truncating divisions by 1000 are one by 1000000, for negative values too |
| `GoTime.MillisOrdered` | src/worker/Scheduler.go:218-221 | the conversion to milliseconds preserves order, 64-bit wrap-around of the zero time included |
| `GoTime.MillisMeaning` | src/worker/Scheduler.go:218-221 | for an instant since the epoch the milliseconds that have passed completely; for the zero time, whose nanoseconds wrap, -6795364578871 |
| `SinkModel.EveryRunAccountsForItsLogs` | src/worker/LogSink.go:62-167 | saved logs, then the open batch, then the queue, are the accepted logs in order; each batch is non-empty and at most max(1, B), full iff saved by size; an open batch holds 1 to B-1 |
| `SinkModel.RefusedOnlyWhenFull` | src/worker/LogSink.go:158-167 | in every run a log is refused iff exactly 1000 logs are queued at its Append, else it goes to the end of the queue |
| `SinkModel.AttemptsAreAppends` | src/worker/LogSink.go:158-167 | the logs tried are those handed to Append, in order |
| `SinkModel.RunKeepsInv` | src/worker/LogSink.go:71-143 | in every run the open batch, and a full one until its timer is stopped, has exactly one wake-up pending; no other batch has a running timer |
| `SinkModel.WakeSavesIffCurrent` | src/worker/LogSink.go:131-141 | a received wake-up saves a batch iff it names the open batch; a stale one changes nothing else |
| `SinkModel.LateTimerIsHarmless` | src/worker/LogSink.go:112-141 | a timer that fires during saveJobLogs, before Stop, leaves everything as if Stop had come first, once its wake-up was received |
| `SinkModel.TimerCanBeatStop` | src/worker/LogSink.go:80-130 | with B <= 1 too: a batch saved by size whose wake-up arrives afterwards |
| `SinkModel.NoBatchStranded` | src/worker/LogSink.go:77-141 | a batch once opened stays open with one wake-up pending, or has been saved exactly once with at least its logs |
| `SinkModel.EverythingCanBeSaved` | src/worker/LogSink.go:62-144 | from every reachable state writer and timers alone can hand all accepted logs to Mongo in order |
| `LogSinks.LogSink.OnLog` | src/worker/LogSink.go:73-114 | the log case of the select on the heap as far as the call of saveJobLogs: open with timer, append, hand over when full |
| `LogSinks.LogSink.OnSaved` | src/worker/LogSink.go:114-122 | the rest of it: forget the batch, stop its timer, which may have fired meanwhile |
| `LogSinks.LogSink.OnWake` | src/worker/LogSink.go:131-141 | the timeout case on the heap: reference comparison decides |
| `LogSinks.LogSink.Append` | src/worker/LogSink.go:158-167 | never blocks; adds the log at the end of the queue, or drops it exactly when the queue holds 1000 |
| `LogSinks.LogSink.WriteLoop` | src/worker/LogSink.go:62-144 | under any schedule of writer, callers and timers, which may fire during saveJobLogs, the heap follows the step machine exactly |
| `Protocol.JobKeyRoundTrip` | src/common/Protocol.go:172-181 | key and job name determine each other for job and killer keys |
| `Protocol.DirectoriesDisjoint` | src/common/Constants.go:3-14 | no job name makes a key of one directory fall under another |
| `Feed.FeedGivesVisible` | src/worker/JobMgr.go:79-131 | snapshot at r in any order plus the watched suffix gives, name by name, the good value last visible |
| `Feed.FeedExact` | src/worker/JobMgr.go:79-131 | the worker's table agrees with the store on a name iff the name is not stale |
| `Feed.WorkersAgree` | src/worker/JobMgr.go:79-131 | if all values decode and parse, workers started at different revisions hold exactly the jobs in the store |
| `Feed.WorkersAgreeExactly` | src/worker/JobMgr.go:79-131 | after snapshots at any two revisions and all changes since, two workers hold the same under a name iff it is stale for both or for neither |
| `Feed.BadOverwriteSplitsWorkers` | src/worker/JobMgr.go:109-113 | a bad value over a good one splits workers by their start revision |
| `JobMgrs.MasterJobMgr.SaveJob` | src/master/JobMgr.go:72-103 | writes the job under its own name without a lease and nothing else, returns the previous job, and on error may or may not have written; keeps the history master-written |
| `JobMgrs.SavedJobStays` | src/master/JobMgr.go:80-88 | a saved job stays as written whichever leases run out and whatever is killed afterwards |
| `JobMgrs.MasterJobMgr.DeleteJob` | src/master/JobMgr.go:110-134 | removes the key, returns the previous job, makes no revision for a missing key |
| `JobMgrs.MasterJobMgr.KillJob` | src/master/JobMgr.go:176-200 | adds one mark under the kill directory, on a new one-second lease to which nothing else is bound |
| `JobMgrs.KvStore.Expire` | src/master/JobMgr.go:185-195 | when a lease runs out exactly its keys are deleted, by one revision each |
| `JobMgrs.WorkerJobMgr.WatchJobs` | src/worker/JobMgr.go:66-134 | pushes exactly the snapshot's events, then those of the watched changes, in order, which is the feed of the history if the watch delivers its job part; nothing if the snapshot fails |
| `JobMgrs.WorkerJobMgr.WatchKiller` | src/worker/JobMgr.go:152-186 | one KILL per mark, none for its expiry |
| `JobMgrs.KillArrivesOnce` | src/worker/JobMgr.go:164-181 | KillJob reaches the killer watch as one KILL of exactly that name; saves, deletes and locks make none, and the job watch sees no marks or locks |
| `JobMgrs.CancelledIffMarked` | src/worker/JobMgr.go:152-186 | in a run whose KILLs are what watchKiller makes of the changes, an execution's context is cancelled iff a mark of its name was put whose KILL was handled between its start and the handling of its result; marks and KILLs correspond one to one, in order |
| `JobMgrs.PlanTableMatchesStore` | src/worker/JobMgr.go:66-134 | from SaveJob to plan table: in any run whose watchers pushed what WatchJobs makes of the history, kills in between or not, and whose event channel is empty, plan table and store agree on exactly the names that are not stale |
| `JobMgrs.PlanTablesAgree` | src/worker/JobMgr.go:66-134 | if all values are good, two such workers, started at any revisions, hold exactly the jobs in the store |
| `JobMgrs.PlanTablesAgreeExactly` | src/worker/JobMgr.go:66-134 | for any values, the plan tables of two such workers agree on a name iff it is stale for both or for neither |
| `ClusterModel.RunKeepsInv` | src/worker/Executor.go:25-85 | executions of all workers and lock attempts stay in one-to-one correspondence and agree on where they are |
| `ClusterModel.ClusterWorkersAreWorkers` | src/worker/Executor.go:25-85 | sharing one lock service takes a worker to no state it cannot reach alone, so every theorem about reachable workers holds for each worker of a cluster |
| `ClusterModel.CommandsOverlapOnlyAfterLeaseLoss` | src/worker/Executor.go:52-77 | two commands of one job running at once run on different workers, and the one that won the lock first has lost its lease |
| `ClusterResults.LostRaceIffAnsweredTaken` | src/worker/Executor.go:52-62 | in every run of a cluster an execution's result is LockTaken, and so unlogged, iff etcd answered its attempt that the key is taken |
| `ClusterResults.UnlockedAfterSend` | src/worker/Executor.go:53-82 | in every run of a cluster a lock is given back only after the result of its execution was sent |
| `ClusterModel.CommandReachableIffCanRun` | src/worker/Executor.go:25-77 | for every execution of every worker, begun or not: it can come to run its command without any lease dying iff its attempt can, or it has not begun and the key is absent |
| `ClusterModel.OverlapIffCanRun` | src/worker/Executor.go:52-77 | beside a running command another execution of its job, at whatever point, can come to run, no lease dying, iff it can by that condition; one that has not begun can iff no winner of the job is alive |
| `ClusterModel.ClusterRunIsLockRun` | src/worker/JobLock.go:49-157 | seen from etcd a run of any number of workers is a run of the lock machine |

## Left out

- HTTP handlers, pages, configuration and both main programs: input and output only.
- Mongo reads and the outcome of InsertMany: the code ignores it, so "saved" means handed to InsertMany once.
- ListJobs, worker registration and ListWorkers: plain reads and writes that would add only easy members.
- The insides of cronexpr, encoding/json, os/exec, context and etcd: abstract functions or store steps with the stated laws; the watch delivers every change after the snapshot, in order, without compaction.
- Once-per-tick execution across the cluster and the fairness of the random sleep: the code does not guarantee the first, the second is probabilistic; the sleep is a place where anything may happen.
- The variables that the watcher goroutine of watchJobs shares with its parent, and the error watchJobs returns: one watcher runs after the snapshot was pushed, and no caller reads the error.
- The effect of a cancelled context on the command: output and error of a command are arbitrary.
- When the re-armed timer fires: a timer fire may be received at any select, early, late or spurious, so nothing is claimed about punctuality.
- `JobLocks.Executor.ExecuteJob`: the wait for room in the result channel is an arbitrary pause; the channel's capacity is in WorkerModel.
- `JobMgrs.WorkerJobMgr.WatchJobs`: lists the events pushed; waiting for a full event channel is modelled in WorkerModel, and PlanTableMatchesStore joins the two.
- `Schedulers.Scheduler.ScheduleLoop`: runs the scheduler goroutine alone for a given list of messages; `WorkerProcesses.WorkerProcess.Work` is the same code interleaved with everything else, a pass being one step per plan.
- `WorkerProcesses.WorkerProcess.Work`: what TryLock answers is part of the schedule; the lock itself is in LockModel and ClusterModel.
- The text of an error from etcd: `etcd` stands for any text other than that of ERR_LOCK_ALREADY_REQUIRET.
- Printing and log text other than the fields of the log record.
