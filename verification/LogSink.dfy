/** The log writer on the heap: batches are objects, and staleness is reference comparison. */
module LogSinks {
  import opened Wrappers
  import opened Protocol
  import opened SinkModel

  class JobLogBatch {
    var jobLogs: seq<JobLog>
    ghost const id: nat

    constructor (ghost id: nat)
      ensures jobLogs == [] && this.id == id
    {
      jobLogs := [];
      this.id := id;
    }
  }

  /** Armed; fired, its callback waiting to send; or spent (delivered or stopped in time). */
  datatype TimerState = Armed | Blocked | Spent

  /** time.AfterFunc with a callback that captured its own batch pointer. */
  class Timer {
    const batch: JobLogBatch
    var state: TimerState

    constructor (batch: JobLogBatch)
      ensures this.batch == batch && state == Armed
    {
      this.batch := batch;
      state := Armed;
    }

    /** Stop cannot take back a callback that is already running. */
    method Stop()
      modifies this
      ensures state == if old(state) == Armed then Spent else old(state)
    {
      if state == Armed {
        state := Spent;
      }
    }
  }

  class LogSink {
    const batchSize: int                    // MongodbLogBatchSize
    var logChan: seq<JobLog>
    var autoCommitChan: seq<JobLogBatch>
    var jobLogBatch: JobLogBatch?           // local to writeLoop
    var commitTimer: Timer?                 // local to writeLoop
    var saving: bool                        // writeLoop is inside saveJobLogs of a full batch
    var timers: seq<Timer>                  // every timer the runtime was given
    ghost var Repr: set<object>
    ghost var saved: seq<Saved>
    ghost var attempts: seq<(JobLog, bool)>

    ghost predicate Valid()
      reads this, Repr
      ensures Valid() ==> this in Repr
    {
      && this in Repr
      && (forall i :: 0 <= i < |timers| ==>
            timers[i] in Repr && timers[i].batch in Repr && timers[i].batch.id == i)
      && (forall b :: b in autoCommitChan ==> b.id < |timers| && timers[b.id].batch == b)
      && |timers| == |saved| + (if Open() then 1 else 0)
      && (saving ==> jobLogBatch != null && |saved| > 0)
      && (jobLogBatch != null ==>
            && jobLogBatch == timers[|timers| - 1].batch
            && commitTimer == timers[|timers| - 1])
    }

    /** There is a batch, and it has not been handed to saveJobLogs. */
    predicate Open()
      reads this
    {
      jobLogBatch != null && !saving
    }

    ghost function Ids(chan: seq<JobLogBatch>): (ids: seq<nat>)
      ensures |ids| == |chan| && forall i :: 0 <= i < |chan| ==> ids[i] == chan[i].id
    {
      seq(|chan|, i requires 0 <= i < |chan| => chan[i].id)
    }

    ghost function InState(state: TimerState): set<nat>
      reads this, timers
    {
      set i: nat | 0 <= i < |timers| && timers[i].state == state
    }

    ghost function Abs(): Sink
      reads this, Repr
      requires Valid()
    {
      Sink(logChan, Ids(autoCommitChan),
           if Open() then Some(Batch(jobLogBatch.id, jobLogBatch.jobLogs)) else None,
           if saving then Some(jobLogBatch.id) else None,
           InState(Armed), InState(Blocked), saved, attempts)
    }

    constructor (batchSize: int)
      ensures Valid() && fresh(Repr) && this.batchSize == batchSize
      ensures Abs() == EMPTY
    {
      this.batchSize := batchSize;
      logChan, autoCommitChan, timers := [], [], [];
      jobLogBatch, commitTimer := null, null;
      saving, saved, attempts := false, [], [];
      Repr := {this};
    }

    /** Called from the scheduler; never blocks, drops the log when the queue is full. */
    method Append(jobLog: JobLog)
      requires Valid()
      modifies this`logChan, this`attempts
      ensures Valid() && Abs() == AppendLog(old(Abs()), jobLog)
      ensures Repr == old(Repr)
      ensures logChan == old(logChan) + if |old(logChan)| < 1000 then [jobLog] else []
      ensures attempts == old(attempts) + [(jobLog, |old(logChan)| < 1000)]
    {
      if |logChan| < LOG_QUEUE_CAPACITY {
        logChan := logChan + [jobLog];
        attempts := attempts + [(jobLog, true)];
      } else {
        attempts := attempts + [(jobLog, false)];
      }
    }

    /** InsertMany with whatever the batch holds; its outcome is ignored. */
    method SaveJobLogs(batch: JobLogBatch, ghost bySize: bool)
      modifies this`saved
      ensures saved == old(saved) + [Saved(batch.id, batch.jobLogs, bySize)]
    {
      saved := saved + [Saved(batch.id, batch.jobLogs, bySize)];
    }

    method OpenBatch()
      requires Valid() && jobLogBatch == null && !saving
      modifies this`jobLogBatch, this`commitTimer, this`timers, this`Repr
      ensures Valid() && fresh(Repr - old(Repr)) && old(Repr) <= Repr
      ensures jobLogBatch != null && fresh(jobLogBatch) && commitTimer != null && fresh(commitTimer)
      ensures Abs() == old(Abs()).(open := Some(Batch(|saved|, [])), armed := old(Abs()).armed + {|saved|})
    {
      jobLogBatch := new JobLogBatch(|timers|);
      commitTimer := new Timer(jobLogBatch);
      timers := timers + [commitTimer];
      Repr := Repr + {commitTimer, jobLogBatch};
      assert InState(Armed) == old(InState(Armed)) + {|saved|};
      assert InState(Blocked) == old(InState(Blocked));
      assert Ids(autoCommitChan) == old(Ids(autoCommitChan));
    }

    method AddToBatch(jobLog: JobLog)
      requires Valid() && Open()
      modifies jobLogBatch
      ensures Valid() && Repr == old(Repr)
      ensures var b := old(Abs()).open.value;
              Abs() == old(Abs()).(open := Some(Batch(b.id, b.logs + [jobLog])))
    {
      jobLogBatch.jobLogs := jobLogBatch.jobLogs + [jobLog];
      assert InState(Blocked) == old(InState(Blocked));
      assert InState(Armed) == old(InState(Armed));
    }

    /** The size trigger: the call of saveJobLogs begins. */
    method SaveFull()
      requires Valid() && Open()
      modifies this`saved, this`saving
      ensures Valid() && Repr == old(Repr)
      ensures var b := old(Abs()).open.value;
              Abs() == old(Abs()).(open := None, stopping := Some(b.id),
                                   saved := old(Abs()).saved + [Saved(b.id, b.logs, true)])
    {
      SaveJobLogs(jobLogBatch, true);
      saving := true;
    }

    /** It returns: forget the batch, try to stop its timer. */
    method OnSaved()
      requires Valid() && saving
      modifies this`saving, this`jobLogBatch, commitTimer
      ensures Valid() && Repr == old(Repr)
      ensures Abs() == SinkModel.Stop(old(Abs()))
    {
      ghost var id := jobLogBatch.id;
      saving := false;
      jobLogBatch := null;
      commitTimer.Stop();
      assert InState(Blocked) == old(InState(Blocked));
      assert InState(Armed) == old(InState(Armed)) - {id};
    }

    method TakeQueued() returns (jobLog: JobLog)
      requires Valid() && logChan != []
      modifies this`logChan
      ensures Valid() && jobLog == old(logChan)[0] && Abs() == old(Abs()).(queue := old(logChan)[1..])
    {
      jobLog := logChan[0];
      logChan := logChan[1..];
    }

    /** The select case that received a log, as far as the call of saveJobLogs if the batch is
        full; OnSaved is the rest of it. */
    method OnLog()
      requires Valid() && !saving && logChan != []
      modifies Repr
      ensures Valid() && fresh(Repr - old(Repr))
      ensures Abs() == Receive(batchSize, old(Abs()))
    {
      var jobLog := TakeQueued();
      if jobLogBatch == null {
        OpenBatch();
      }
      AddToBatch(jobLog);
      if |jobLogBatch.jobLogs| >= batchSize {
        SaveFull();
      }
    }

    /** The select case that received a batch from a timer callback. */
    method OnWake()
      requires Valid() && !saving && autoCommitChan != []
      modifies Repr
      ensures Valid() && fresh(Repr - old(Repr))
      ensures Abs() == Wake(old(Abs()))
    {
      var timeoutBatch := autoCommitChan[0];
      autoCommitChan := autoCommitChan[1..];
      if timeoutBatch != jobLogBatch {
        return;
      }
      SaveJobLogs(timeoutBatch, false);
      jobLogBatch := null;
    }

    /** The timer goroutine: the callback starts and blocks on its send. */
    method OnTimer(id: nat)
      requires Valid() && id < |timers| && timers[id].state == Armed
      modifies timers
      ensures Valid() && Repr == old(Repr)
      ensures Abs() == Fire(old(Abs()), id)
    {
      timers[id].state := Blocked;
      assert InState(Blocked) == old(InState(Blocked)) + {id};
      assert InState(Armed) == old(InState(Armed)) - {id};
    }

    /** The callback's send completes; the batch it sends is the one it captured. */
    method OnSend(id: nat)
      requires Valid() && id < |timers| && timers[id].state == Blocked
      requires |autoCommitChan| < WAKE_QUEUE_CAPACITY
      modifies this`autoCommitChan, timers
      ensures Valid() && Repr == old(Repr)
      ensures Abs() == Send(old(Abs()), id)
    {
      autoCommitChan := autoCommitChan + [timers[id].batch];
      timers[id].state := Spent;
      assert InState(Blocked) == old(InState(Blocked)) - {id};
      assert InState(Armed) == old(InState(Armed));
    }

    /** writeLoop and everything that runs beside it, under an arbitrary schedule, in
        which timers may fire at any moment, also while the writer is in saveJobLogs: the heap
        follows the step machine exactly. */
    method WriteLoop(schedule: seq<SinkStep>)
      requires Valid()
      modifies Repr
      ensures Valid() && fresh(Repr - old(Repr))
      ensures Abs() == Run(batchSize, old(Abs()), schedule)
    {
      ghost var start := Abs();
      assert schedule[..0] == [];
      for k := 0 to |schedule|
        invariant Valid() && fresh(Repr - old(Repr))
        invariant Abs() == Run(batchSize, start, schedule[..k])
      {
        OneStep(schedule[k]);
        Then(batchSize, start, schedule[..k], schedule[k]);
        assert schedule[..k + 1] == schedule[..k] + [schedule[k]];
      }
      assert schedule[..|schedule|] == schedule;
    }

    method OneStep(step: SinkStep)
      requires Valid()
      modifies Repr
      ensures Valid() && fresh(Repr - old(Repr))
      ensures Abs() == Step(batchSize, old(Abs()), step)
    {
      match step
      case Append(log) =>
        Append(log);
      case TakeLog =>
        if !saving && logChan != [] {
          OnLog();
        }
      case StopTimer =>
        if saving {
          OnSaved();
        }
      case TakeWake =>
        if !saving && autoCommitChan != [] {
          OnWake();
        }
      case TimerFires(id) =>
        if id < |timers| && timers[id].state == Armed {
          OnTimer(id);
        }
      case Deliver(id) =>
        if id < |timers| && timers[id].state == Blocked && |autoCommitChan| < WAKE_QUEUE_CAPACITY {
          OnSend(id);
        }
    }
  }
}
