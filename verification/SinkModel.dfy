/**
  The batch log writer as a step machine: one consumer (the writer), any number of callers of
  Append, and one timer per batch whose callback runs in its own goroutine.

  A batch is named by its position in the order of creation; comparing names is comparing the
  batch pointers of the program. When a batch is full, the writer first hands it to InsertMany and
  stops its timer only after that call has returned; in between, timers fire, callbacks send and
  logs are queued. The heap version is in LogSink.dfy.
*/
module SinkModel {
  import opened Wrappers
  import opened Protocol

  const LOG_QUEUE_CAPACITY := 1000
  const WAKE_QUEUE_CAPACITY := 1

  datatype Batch = Batch(id: nat, logs: seq<JobLog>)

  /** One InsertMany call: the batch, what it held, and which of the two triggers fired. */
  datatype Saved = Saved(id: nat, logs: seq<JobLog>, bySize: bool)

  datatype Sink = Sink(
    queue: seq<JobLog>,             // logChan
    wake: seq<nat>,                 // autoCommitChan
    open: Option<Batch>,            // jobLogBatch, until it is handed to saveJobLogs
    stopping: Option<nat>,          // full batch in saveJobLogs, its timer not stopped yet
    armed: set<nat>,                // timers that have not fired
    blocked: set<nat>,              // callbacks waiting to send on autoCommitChan
    saved: seq<Saved>,              // calls of saveJobLogs, in order
    attempts: seq<(JobLog, bool)>)  // calls of Append, and whether the log was accepted

  const EMPTY := Sink([], [], None, None, {}, {}, [], [])

  datatype SinkStep =
    | Append(log: JobLog)
    | TakeLog            // writer: log received from logChan; if the batch is full, up to InsertMany
    | StopTimer          // writer: InsertMany returned, the batch is forgotten, its timer stopped
    | TakeWake           // writer: batch received from autoCommitChan
    | TimerFires(id: nat)
    | Deliver(id: nat)   // a callback's send on autoCommitChan completes

  function AppendLog(s: Sink, log: JobLog): Sink {
    if |s.queue| < LOG_QUEUE_CAPACITY
    then s.(queue := s.queue + [log], attempts := s.attempts + [(log, true)])
    else s.(attempts := s.attempts + [(log, false)])
  }

  function Receive(size: int, s: Sink): Sink
    requires s.queue != []
  {
    var b := if s.open.None? then Batch(|s.saved|, []) else s.open.value;
    var armed := if s.open.None? then s.armed + {b.id} else s.armed;
    var logs := b.logs + [s.queue[0]];
    if |logs| >= size then
      s.(queue := s.queue[1..], open := None, stopping := Some(b.id), armed := armed,
         saved := s.saved + [Saved(b.id, logs, true)])
    else
      s.(queue := s.queue[1..], open := Some(Batch(b.id, logs)), armed := armed)
  }

  /** A timer that has fired already is not affected. */
  function Stop(s: Sink): Sink
    requires s.stopping.Some?
  {
    s.(stopping := None, armed := s.armed - {s.stopping.value})
  }

  function Wake(s: Sink): Sink
    requires s.wake != []
  {
    var popped := s.(wake := s.wake[1..]);
    if s.open.None? || s.wake[0] != s.open.value.id then popped
    else popped.(open := None, saved := s.saved + [Saved(s.wake[0], s.open.value.logs, false)])
  }

  function Fire(s: Sink, id: nat): Sink
    requires id in s.armed
  {
    s.(armed := s.armed - {id}, blocked := s.blocked + {id})
  }

  function Send(s: Sink, id: nat): Sink
    requires id in s.blocked && |s.wake| < WAKE_QUEUE_CAPACITY
  {
    s.(blocked := s.blocked - {id}, wake := s.wake + [id])
  }

  /** The writer is at its select, not inside the log case. */
  predicate AtSelect(s: Sink) { s.stopping.None? }

  /** One step for a configured batch size; a step that is not enabled changes nothing. */
  function Step(size: int, s: Sink, step: SinkStep): Sink {
    match step
    case Append(log) => AppendLog(s, log)
    case TakeLog => if AtSelect(s) && s.queue != [] then Receive(size, s) else s
    case StopTimer => if s.stopping.Some? then Stop(s) else s
    case TakeWake => if AtSelect(s) && s.wake != [] then Wake(s) else s
    case TimerFires(id) => if id in s.armed then Fire(s, id) else s
    case Deliver(id) => if id in s.blocked && |s.wake| < WAKE_QUEUE_CAPACITY then Send(s, id) else s
  }

  function Run(size: int, s: Sink, steps: seq<SinkStep>): Sink {
    if steps == [] then s
    else Step(size, Run(size, s, steps[..|steps| - 1]), steps[|steps| - 1])
  }

  // ---------------------------------------------------------------- accounting

  function Flatten(saved: seq<Saved>): seq<JobLog> {
    if saved == [] then [] else Flatten(saved[..|saved| - 1]) + saved[|saved| - 1].logs
  }

  function OpenLogs(s: Sink): seq<JobLog> {
    if s.open.None? then [] else s.open.value.logs
  }

  /** The logs Append let in, in the order of the calls. */
  function Accepted(attempts: seq<(JobLog, bool)>): seq<JobLog> {
    if attempts == [] then []
    else
      var last := attempts[|attempts| - 1];
      Accepted(attempts[..|attempts| - 1]) + if last.1 then [last.0] else []
  }

  /** All logs handed to Append, let in or not. */
  function Tried(attempts: seq<(JobLog, bool)>): seq<JobLog> {
    if attempts == [] then [] else Tried(attempts[..|attempts| - 1]) + [attempts[|attempts| - 1].0]
  }

  /** Nothing lost, duplicated or reordered. */
  ghost predicate Conserved(s: Sink) {
    Flatten(s.saved) + OpenLogs(s) + s.queue == Accepted(s.attempts)
  }

  lemma FlattenSnoc(saved: seq<Saved>, b: Saved)
    ensures Flatten(saved + [b]) == Flatten(saved) + b.logs
  {
    assert (saved + [b])[..|saved|] == saved;
  }

  lemma ReceiveMoves(size: int, s: Sink)
    requires s.queue != []
    ensures var s' := Receive(size, s);
            && Flatten(s'.saved) + OpenLogs(s') == Flatten(s.saved) + OpenLogs(s) + [s.queue[0]]
            && s'.queue == s.queue[1..] && s'.attempts == s.attempts
  {
    var id := if s.open.None? then |s.saved| else s.open.value.id;
    FlattenSnoc(s.saved, Saved(id, OpenLogs(s) + [s.queue[0]], true));
  }

  lemma HeadMoves(kept: seq<JobLog>, queue: seq<JobLog>)
    requires queue != []
    ensures kept + [queue[0]] + queue[1..] == kept + queue
  {
  }

  lemma ReceiveConserves(size: int, s: Sink)
    requires Conserved(s) && s.queue != []
    ensures Conserved(Receive(size, s))
  {
    ReceiveMoves(size, s);
    HeadMoves(Flatten(s.saved) + OpenLogs(s), s.queue);
  }

  lemma AppendConserves(s: Sink, log: JobLog)
    requires Conserved(s)
    ensures Conserved(AppendLog(s, log))
  {
    assert (s.attempts + [(log, true)])[..|s.attempts|] == s.attempts;
    assert (s.attempts + [(log, false)])[..|s.attempts|] == s.attempts;
    var kept := Flatten(s.saved) + OpenLogs(s);
    assert kept + (s.queue + [log]) == kept + s.queue + [log];
  }

  lemma WakeConserves(s: Sink)
    requires Conserved(s) && s.wake != []
    ensures Conserved(Wake(s))
  {
    FlattenSnoc(s.saved, Saved(s.wake[0], OpenLogs(s), false));
    var kept := Flatten(s.saved) + OpenLogs(s);
    assert kept + [] + s.queue == kept + s.queue;
  }

  lemma StepConserves(size: int, s: Sink, step: SinkStep)
    requires Conserved(s)
    ensures Conserved(Step(size, s, step))
  {
    match step
    case Append(log) => AppendConserves(s, log);
    case TakeLog => if AtSelect(s) && s.queue != [] { ReceiveConserves(size, s); }
    case StopTimer =>
    case TakeWake => if AtSelect(s) && s.wake != [] { WakeConserves(s); }
    case TimerFires(_) =>
    case Deliver(_) =>
  }

  // ---------------------------------------------------------------- batches and wake-ups

  function Full(size: int): nat { if size < 1 then 1 else size }

  /** How many wake-ups for a batch are on their way to the writer. */
  function Wakes(s: Sink, id: nat): nat {
    (if id in s.armed then 1 else 0) + (if id in s.blocked then 1 else 0) + multiset(s.wake)[id]
  }

  ghost predicate SavedOk(size: int, saved: seq<Saved>) {
    forall i :: 0 <= i < |saved| ==>
      && saved[i].id == i
      && 1 <= |saved[i].logs| <= Full(size)
      && (saved[i].bySize <==> |saved[i].logs| == Full(size))
  }

  /** The batch that the writer works on, which is the newest one. */
  predicate Current(s: Sink, id: nat) {
    (s.open.Some? && id == s.open.value.id) || s.stopping == Some(id)
  }

  /** Every saved batch has the size its trigger calls for; the open batch is the newest one and
      is neither empty nor full; only the current batch has a running timer. */
  ghost predicate BatchesOk(size: int, s: Sink) {
    && |s.queue| <= LOG_QUEUE_CAPACITY
    && |s.wake| <= WAKE_QUEUE_CAPACITY
    && SavedOk(size, s.saved)
    && (s.open.Some? ==> s.open.value.id == |s.saved| && 1 <= |s.open.value.logs| < size)
    && (s.stopping.Some? ==> s.open.None? && s.stopping.value == |s.saved| - 1)
    && (forall id :: id in s.armed ==> Current(s, id))
  }

  /** The current batch has exactly one wake-up pending, no batch has two. */
  ghost predicate WakeOk(s: Sink, id: nat) {
    && Wakes(s, id) <= 1
    && (Wakes(s, id) > 0 ==> id < |s.saved| || Current(s, id))
    && (Current(s, id) ==> Wakes(s, id) == 1)
  }

  ghost predicate Inv(size: int, s: Sink) {
    BatchesOk(size, s) && (forall id: nat :: WakeOk(s, id)) && Conserved(s)
  }

  lemma NewBatchHasNoWake(size: int, s: Sink)
    requires Inv(size, s) && s.open.None?
    ensures Wakes(s, |s.saved|) == 0
  {
    assert WakeOk(s, |s.saved|);
  }

  /** Only opening a batch creates a wake-up, and only Stop and its receipt end one. */
  lemma ReceiveWakes(size: int, s: Sink, id: nat)
    requires s.queue != []
    ensures Wakes(Receive(size, s), id) ==
            Wakes(s, id) + if s.open.None? && id == |s.saved| && id !in s.armed then 1 else 0
  {
  }

  lemma StopWakes(s: Sink, id: nat)
    requires s.stopping.Some?
    ensures Wakes(Stop(s), id) == Wakes(s, id) - if s.stopping.value == id && id in s.armed then 1 else 0
  {
  }

  lemma TakeWakeWakes(s: Sink, id: nat)
    requires s.wake != []
    ensures Wakes(Wake(s), id) == Wakes(s, id) - if s.wake[0] == id then 1 else 0
  {
    assert s.wake == [s.wake[0]] + s.wake[1..];
  }

  lemma FireWakes(s: Sink, i: nat, id: nat)
    requires i in s.armed && WakeOk(s, i)
    ensures Wakes(Fire(s, i), id) == Wakes(s, id)
  {
  }

  lemma SendWakes(s: Sink, i: nat, id: nat)
    requires i in s.blocked && |s.wake| < WAKE_QUEUE_CAPACITY && WakeOk(s, i)
    ensures Wakes(Send(s, i), id) == Wakes(s, id)
  {
  }

  lemma OtherWakes(size: int, s: Sink, step: SinkStep, id: nat)
    requires !step.TakeLog? && !step.StopTimer? && forall i: nat :: WakeOk(s, i)
    ensures var s' := Step(size, s, step);
            if step.TakeWake? && AtSelect(s) && s.wake != [] && s.wake[0] == id then Wakes(s', id) == Wakes(s, id) - 1
            else Wakes(s', id) == Wakes(s, id)
  {
    match step
    case TakeWake => if s.wake != [] { TakeWakeWakes(s, id); }
    case TimerFires(i) => if i in s.armed { FireWakes(s, i, id); }
    case Deliver(i) => if i in s.blocked && |s.wake| < WAKE_QUEUE_CAPACITY { SendWakes(s, i, id); }
    case Append(_) =>
  }

  lemma ReceiveKeepsWakeOk(size: int, s: Sink, id: nat)
    requires Inv(size, s) && AtSelect(s) && s.queue != []
    ensures WakeOk(Receive(size, s), id)
  {
    assert WakeOk(s, id);
    if s.open.None? {
      NewBatchHasNoWake(size, s);
    }
    ReceiveWakes(size, s, id);
  }

  lemma WakesAfter(size: int, s: Sink, step: SinkStep, id: nat)
    requires Inv(size, s)
    ensures WakeOk(Step(size, s, step), id)
  {
    assert WakeOk(s, id);
    if step.TakeLog? {
      if AtSelect(s) && s.queue != [] {
        ReceiveKeepsWakeOk(size, s, id);
      }
    } else if step.StopTimer? {
      if s.stopping.Some? {
        StopWakes(s, id);
      }
    } else {
      OtherWakes(size, s, step, id);
    }
  }

  lemma SavedOneMore(size: int, saved: seq<Saved>, b: Saved)
    requires SavedOk(size, saved) && b.id == |saved|
    requires 1 <= |b.logs| <= Full(size) && (b.bySize <==> |b.logs| == Full(size))
    ensures SavedOk(size, saved + [b])
  {
  }

  lemma ReceiveKeepsBatches(size: int, s: Sink)
    requires BatchesOk(size, s) && AtSelect(s) && s.queue != []
    ensures BatchesOk(size, Receive(size, s))
  {
    var logs := OpenLogs(s) + [s.queue[0]];
    if |logs| >= size {
      SavedOneMore(size, s.saved, Saved(|s.saved|, logs, true));
    }
  }

  lemma StepKeepsBatches(size: int, s: Sink, step: SinkStep)
    requires BatchesOk(size, s)
    requires forall id: nat :: WakeOk(s, id)
    ensures BatchesOk(size, Step(size, s, step))
  {
    if step.TakeLog? && AtSelect(s) && s.queue != [] {
      ReceiveKeepsBatches(size, s);
    } else if step.TakeWake? && AtSelect(s) && s.wake != [] && s.open.Some? && s.wake[0] == s.open.value.id {
      SavedOneMore(size, s.saved, Saved(|s.saved|, s.open.value.logs, false));
      assert WakeOk(s, s.wake[0]);
    }
  }

  lemma OnlyAppendAttempts(size: int, s: Sink, step: SinkStep)
    requires !step.Append?
    ensures Step(size, s, step).attempts == s.attempts
  {
  }

  lemma StepKeepsInv(size: int, s: Sink, step: SinkStep)
    requires Inv(size, s)
    ensures Inv(size, Step(size, s, step))
  {
    var s' := Step(size, s, step);
    StepConserves(size, s, step);
    StepKeepsBatches(size, s, step);
    forall id: nat ensures WakeOk(s', id) {
      WakesAfter(size, s, step, id);
    }
  }

  /** Over every run from the empty sink: conservation, batch sizes, and the wake-up of the
      open batch. */
  lemma {:induction false} RunKeepsInv(size: int, s: Sink, steps: seq<SinkStep>)
    requires Inv(size, s)
    ensures Inv(size, Run(size, s, steps))
  {
    if steps != [] {
      RunKeepsInv(size, s, steps[..|steps| - 1]);
      StepKeepsInv(size, Run(size, s, steps[..|steps| - 1]), steps[|steps| - 1]);
    }
  }

  lemma EveryRunAccountsForItsLogs(size: int, steps: seq<SinkStep>)
    ensures var s := Run(size, EMPTY, steps);
            && Flatten(s.saved) + OpenLogs(s) + s.queue == Accepted(s.attempts)
            && (forall i :: 0 <= i < |s.saved| ==>
                  && s.saved[i].id == i
                  && 1 <= |s.saved[i].logs| <= Full(size)
                  && (s.saved[i].bySize <==> |s.saved[i].logs| == Full(size)))
            && (s.open.Some? ==> 1 <= |s.open.value.logs| <= size - 1)
  {
    assert Inv(size, EMPTY);
    RunKeepsInv(size, EMPTY, steps);
  }

  /** In every run a log is refused exactly when 1000 logs are queued at the moment of its Append;
      otherwise it goes to the end of the queue. */
  lemma RefusedOnlyWhenFull(size: int, steps: seq<SinkStep>, log: JobLog)
    ensures var s, s' := Run(size, EMPTY, steps), Run(size, EMPTY, steps + [Append(log)]);
            && s'.attempts == s.attempts + [(log, |s.queue| != 1000)]
            && s'.queue == s.queue + (if |s.queue| != 1000 then [log] else [])
            && s' == s.(queue := s'.queue, attempts := s'.attempts)
  {
    assert Inv(size, EMPTY);
    RunKeepsInv(size, EMPTY, steps);
    Then(size, EMPTY, steps, Append(log));
  }

  /** Nothing but Append counts as an attempt. */
  lemma {:induction false} AttemptsAreAppends(size: int, steps: seq<SinkStep>)
    ensures Tried(Run(size, EMPTY, steps).attempts) == Appends(steps)
  {
    if steps != [] {
      AttemptsAreAppends(size, steps[..|steps| - 1]);
      var s, last := Run(size, EMPTY, steps[..|steps| - 1]), steps[|steps| - 1];
      if last.Append? {
        assert Step(size, s, last).attempts[..|s.attempts|] == s.attempts;
      } else {
        OnlyAppendAttempts(size, s, last);
      }
    }
  }

  /** The logs that callers handed to Append. */
  function Appends(steps: seq<SinkStep>): seq<JobLog> {
    if steps == [] then []
    else
      var last := steps[|steps| - 1];
      Appends(steps[..|steps| - 1]) + if last.Append? then [last.log] else []
  }

  // ---------------------------------------------------------------- stale and due wake-ups

  /** Receiving a wake-up saves a batch exactly when it names the batch that is still open; a
      stale one is dropped and changes nothing else. */
  lemma WakeSavesIffCurrent(size: int, s: Sink)
    requires Inv(size, s) && AtSelect(s) && s.wake != []
    ensures var s' := Step(size, s, TakeWake);
            && (s'.saved != s.saved <==> s.open.Some? && s.open.value.id == s.wake[0])
            && (s'.saved != s.saved ==> s' == s.(wake := [], open := None,
                  saved := s.saved + [Saved(s.wake[0], OpenLogs(s), false)]))
            && (s'.saved == s.saved ==> s' == s.(wake := []) && s.wake[0] < |s.saved|)
  {
    assert WakeOk(s, s.wake[0]);
    assert s.wake[1..] == [];
    if s.open.Some? && s.open.value.id == s.wake[0] {
      assert |Step(size, s, TakeWake).saved| == |s.saved| + 1;
    }
  }

  /** A timer that fires while its full batch is in saveJobLogs, before Stop, costs one stale
      wake-up and nothing else: once that has been received, and whatever stale one was in its
      way, everything is as if Stop had come first. */
  lemma LateTimerIsHarmless(size: int, s: Sink)
    requires Inv(size, s) && s.stopping.Some? && s.stopping.value in s.armed
    ensures var id := s.stopping.value;
            Run(size, s, [TimerFires(id), StopTimer, TakeWake, Deliver(id), TakeWake])
                == Run(size, s, [StopTimer, TakeWake])
  {
    var id := s.stopping.value;
    LateTimerSteps(size, s, id);
    assert WakeOk(s, id);
    assert (s.armed - {id}) - {id} == s.armed - {id};
    assert (s.blocked + {id}) - {id} == s.blocked;
    if s.wake != [] {
      assert s.wake == [s.wake[0]];
      assert WakeOk(s, s.wake[0]);
    }
  }

  lemma Unroll(size: int, s: Sink, steps: seq<SinkStep>, k: nat)
    requires 1 <= k <= |steps|
    ensures Run(size, s, steps[..k]) == Step(size, Run(size, s, steps[..k - 1]), steps[k - 1])
    ensures k == |steps| ==> steps[..k] == steps
  {
    assert steps[..k][..k - 1] == steps[..k - 1];
  }

  lemma LateTimerSteps(size: int, s: Sink, id: nat)
    ensures Run(size, s, [TimerFires(id), StopTimer, TakeWake, Deliver(id), TakeWake]) ==
            Step(size, Step(size, Step(size, Step(size, Step(size, s,
              TimerFires(id)), StopTimer), TakeWake), Deliver(id)), TakeWake)
    ensures Run(size, s, [StopTimer, TakeWake]) == Step(size, Step(size, s, StopTimer), TakeWake)
  {
    var all := [TimerFires(id), StopTimer, TakeWake, Deliver(id), TakeWake];
    Unroll(size, s, all, 5);
    Unroll(size, s, all, 4);
    Unroll(size, s, all, 3);
    Unroll(size, s, all, 2);
    Unroll(size, s, all, 1);
    Unroll(size, s, [StopTimer, TakeWake], 2);
    Unroll(size, s, [StopTimer, TakeWake], 1);
  }

  /** It does happen, also to batches of one log, whose timer lives only as long as InsertMany
      takes: the batch is saved by size, and its wake-up arrives after that. */
  lemma TimerCanBeatStop(size: int, log: JobLog)
    requires size <= 1
    ensures var s := Run(size, EMPTY, [Append(log), TakeLog, TimerFires(0), StopTimer, Deliver(0)]);
            s.saved == [Saved(0, [log], true)] && s.open.None? && AtSelect(s) && s.wake == [0]
  {
    var all := [Append(log), TakeLog, TimerFires(0), StopTimer, Deliver(0)];
    var s1 := EMPTY.(queue := [log], attempts := [(log, true)]);
    var s2 := s1.(queue := [], stopping := Some(0), armed := {0}, saved := [Saved(0, [log], true)]);
    assert Step(size, EMPTY, Append(log)) == s1;
    assert Step(size, s1, TakeLog) == s2 by {
      assert [] + [log] == [log];
    }
    Unroll(size, EMPTY, all, 5);
    Unroll(size, EMPTY, all, 4);
    Unroll(size, EMPTY, all, 3);
    Unroll(size, EMPTY, all, 2);
    Unroll(size, EMPTY, all, 1);
  }

  ghost predicate Extends(s: Sink, s': Sink) {
    && s.saved <= s'.saved
    && (s.open.Some? ==>
          if |s'.saved| == |s.saved|
          then s'.open.Some? && s'.open.value.id == s.open.value.id && s.open.value.logs <= s'.open.value.logs
          else s.open.value.id < |s'.saved| && s.open.value.logs <= s'.saved[s.open.value.id].logs)
  }

  lemma {:induction false} RunExtends(size: int, s: Sink, steps: seq<SinkStep>)
    requires Inv(size, s)
    ensures Extends(s, Run(size, s, steps))
  {
    if steps != [] {
      var mid := Run(size, s, steps[..|steps| - 1]);
      RunExtends(size, s, steps[..|steps| - 1]);
      RunKeepsInv(size, s, steps[..|steps| - 1]);
      StepExtends(size, mid, steps[|steps| - 1]);
    }
  }

  lemma StepExtends(size: int, s: Sink, step: SinkStep)
    requires Inv(size, s)
    ensures Extends(s, Step(size, s, step))
  {
  }

  /** No batch is stranded. Whatever happens after a batch was opened, either it is still open
      and exactly one wake-up for it is pending, or it has been saved, once, with at least the
      logs it held. In particular, once its wake-up has been consumed it is saved. */
  lemma NoBatchStranded(size: int, s: Sink, steps: seq<SinkStep>)
    requires Inv(size, s) && s.open.Some?
    ensures var b := s.open.value; var s' := Run(size, s, steps);
            if |s'.saved| == |s.saved|
            then s'.open.Some? && s'.open.value.id == b.id && b.logs <= s'.open.value.logs && Wakes(s', b.id) == 1
            else && b.id < |s'.saved| && b.logs <= s'.saved[b.id].logs
                 && (forall i :: 0 <= i < |s'.saved| && s'.saved[i].id == b.id ==> i == b.id)
  {
    RunExtends(size, s, steps);
    RunKeepsInv(size, s, steps);
    assert WakeOk(Run(size, s, steps), s.open.value.id);
  }

  // ---------------------------------------------------------------- draining

  lemma {:induction false} RunConcat(size: int, s: Sink, a: seq<SinkStep>, b: seq<SinkStep>)
    ensures Run(size, s, a + b) == Run(size, Run(size, s, a), b)
  {
    if b == [] {
      assert a + b == a;
    } else {
      assert (a + b)[..|a + b| - 1] == a + b[..|b| - 1];
      RunConcat(size, s, a, b[..|b| - 1]);
    }
  }

  ghost predicate NoAppends(steps: seq<SinkStep>) {
    forall i :: 0 <= i < |steps| ==> !steps[i].Append?
  }

  lemma Then(size: int, s: Sink, steps: seq<SinkStep>, step: SinkStep)
    ensures Run(size, s, steps + [step]) == Step(size, Run(size, s, steps), step)
  {
    assert (steps + [step])[..|steps|] == steps;
  }

  lemma First(size: int, s: Sink, step: SinkStep, rest: seq<SinkStep>)
    ensures Run(size, s, [step] + rest) == Run(size, Step(size, s, step), rest)
  {
    RunConcat(size, s, [step], rest);
    assert [step][..0] == [];
    assert Run(size, s, [step]) == Step(size, s, step);
  }

  /** The writer can always come back to its select. */
  lemma ReturnToSelect(size: int, s: Sink) returns (steps: seq<SinkStep>)
    requires Inv(size, s)
    ensures NoAppends(steps)
    ensures var s' := Run(size, s, steps);
            AtSelect(s') && Inv(size, s') && s'.queue == s.queue && s'.attempts == s.attempts
  {
    steps := [];
    if s.stopping.Some? {
      steps := [StopTimer] + [];
      First(size, s, StopTimer, []);
      StepKeepsInv(size, s, StopTimer);
    }
  }

  /** The writer can always empty the queue. */
  lemma {:induction false} DrainQueue(size: int, s: Sink) returns (steps: seq<SinkStep>)
    requires Inv(size, s)
    ensures NoAppends(steps)
    ensures var s' := Run(size, s, steps); AtSelect(s') && s'.queue == [] && s'.attempts == s.attempts
    decreases |s.queue|
  {
    steps := ReturnToSelect(size, s);
    var s1 := Run(size, s, steps);
    if s1.queue != [] {
      StepKeepsInv(size, s1, TakeLog);
      var rest := DrainQueue(size, Step(size, s1, TakeLog));
      First(size, s1, TakeLog, rest);
      RunConcat(size, s, steps, [TakeLog] + rest);
      steps := steps + ([TakeLog] + rest);
    }
  }

  /** The writer is done: nothing queued, no batch open, and Append was not called since s. */
  ghost predicate Done(s: Sink, s': Sink) {
    s'.queue == [] && s'.open.None? && s'.attempts == s.attempts
  }

  lemma CloseFromWake(size: int, s: Sink) returns (steps: seq<SinkStep>)
    requires AtSelect(s) && s.queue == [] && s.open.Some? && s.wake == [s.open.value.id]
    ensures NoAppends(steps) && Done(s, Run(size, s, steps))
  {
    steps := [TakeWake] + [];
    First(size, s, TakeWake, []);
  }

  /** A stale wake-up may sit in the channel; the writer drops it and makes room. */
  lemma {:induction false} CloseFromBlocked(size: int, s: Sink) returns (steps: seq<SinkStep>)
    requires AtSelect(s) && s.queue == [] && s.open.Some? && s.open.value.id in s.blocked
    requires |s.wake| <= WAKE_QUEUE_CAPACITY && s.open.value.id !in s.wake
    ensures NoAppends(steps) && Done(s, Run(size, s, steps))
    decreases |s.wake|
  {
    var rest;
    if s.wake == [] {
      rest := CloseFromWake(size, Step(size, s, Deliver(s.open.value.id)));
      First(size, s, Deliver(s.open.value.id), rest);
      steps := [Deliver(s.open.value.id)] + rest;
    } else {
      assert s.wake[0] in s.wake;
      rest := CloseFromBlocked(size, Step(size, s, TakeWake));
      First(size, s, TakeWake, rest);
      steps := [TakeWake] + rest;
    }
  }

  /** With an empty queue, the open batch's own wake-up can always be brought to the writer. */
  lemma CloseBatch(size: int, s: Sink) returns (steps: seq<SinkStep>)
    requires Inv(size, s) && AtSelect(s) && s.queue == []
    ensures NoAppends(steps) && Done(s, Run(size, s, steps))
  {
    if s.open.None? {
      steps := [];
    } else {
      var id := s.open.value.id;
      assert WakeOk(s, id);
      if id in s.armed {
        var rest := CloseFromBlocked(size, Step(size, s, TimerFires(id)));
        First(size, s, TimerFires(id), rest);
        steps := [TimerFires(id)] + rest;
      } else if id in s.blocked {
        steps := CloseFromBlocked(size, s);
      } else {
        steps := CloseFromWake(size, s);
      }
    }
  }

  /** From every reachable state the writer and the timers alone, with no further Append, can
      hand every accepted log to Mongo, in order. */
  lemma EverythingCanBeSaved(size: int, s: Sink) returns (steps: seq<SinkStep>)
    requires Inv(size, s)
    ensures NoAppends(steps)
    ensures Flatten(Run(size, s, steps).saved) == Accepted(s.attempts)
  {
    var a := DrainQueue(size, s);
    RunKeepsInv(size, s, a);
    var b := CloseBatch(size, Run(size, s, a));
    RunConcat(size, s, a, b);
    steps := a + b;
    RunKeepsInv(size, s, steps);
  }
}
