/**
  A worker process: the scheduler and the log sink on the heap, the two channels between the
  goroutines, and the executions, under an arbitrary schedule of the steps of WorkerModel. The
  heap is at all times what WorkerModel makes of the steps taken, so everything proved of
  reachable workers holds of it.
*/
module WorkerProcesses {
  import opened GoTime
  import opened Clocks
  import opened Protocol
  import opened SchedulerTables
  import opened SinkModel
  import opened WorkerModel
  import opened WorkerTheorems
  import opened Schedulers
  import opened LogSinks

  function WithoutTicks(steps: seq<WorkerStep>): seq<WorkerStep> {
    if steps == [] then []
    else
      var last := steps[|steps| - 1];
      WithoutTicks(steps[..|steps| - 1]) + if last.Tick? then [] else [last]
  }

  lemma OneMoreStep(c: Config, w: Worker, steps: seq<WorkerStep>, step: WorkerStep)
    ensures WorkerModel.Run(c, w, steps + [step]) == Do(c, WorkerModel.Run(c, w, steps), step)
    ensures WithoutTicks(steps + [step]) == WithoutTicks(steps) + if step.Tick? then [] else [step]
  {
    assert (steps + [step])[..|steps|] == steps;
  }

  // ---------------------------------------------------------------- operations of the loop as runs

  /** The worker is where scheduleLoop may do this operation next, and its message is at hand. */
  ghost predicate Ready(w: Worker, op: LoopOp) {
    match op
    case Handled(ev, _) => w.loop == Select && w.events != [] && w.events[0] == ev
    case Cleared(o) =>
      && w.loop == Select && w.results != [] && w.results[0] == o
      && o.exec < |w.t.started| && o.exec < |w.phases|
    case Passed(_, _, _) => w.loop == Scanning
  }

  /** A pass under way: the plans visited so far, one step each, with the clock in between. */
  lemma {:induction false} VisitsAreRun(c: Config, w: Worker, visits: seq<Visit>, end: Time)
    returns (steps: seq<WorkerStep>)
    requires w.loop.Passing? && CanVisit(w.loop.todo, visits, w.clock, end)
    ensures AfterVisits(c, w, visits, end, WorkerModel.Run(c, w, steps))
  {
    if visits == [] {
      steps := [];
    } else {
      var init, last := visits[..|visits| - 1], visits[|visits| - 1];
      assert visits == init + [last];
      LastVisit(w.loop.todo, init, last, w.clock, end);
      steps := VisitsAreRun(c, w, init, last.at);
      steps := AddVisit(c, w, init, last, steps);
    }
  }

  ghost predicate CanVisit(todo: set<string>, visits: seq<Visit>, lo: Time, hi: Time) {
    Distinct(visits) && Names(visits) <= todo && Within(visits, lo, hi)
  }

  lemma AddVisit(c: Config, w: Worker, init: seq<Visit>, last: Visit, steps: seq<WorkerStep>)
    returns (more: seq<WorkerStep>)
    requires AfterVisits(c, w, init, last.at, WorkerModel.Run(c, w, steps))
    requires last.name in w.loop.todo && last.name !in Names(init)
    ensures AfterVisits(c, w, init + [last], last.at, WorkerModel.Run(c, w, more))
  {
    var mid := WorkerModel.Run(c, w, steps);
    more := AddStep(c, w, steps, last.at - mid.clock, WorkerStep.VisitOne(last.name), 0);
    VisitFollows(c, w, init, last, mid, WorkerModel.Run(c, w, more));
  }

  ghost predicate AfterVisits(c: Config, w: Worker, visits: seq<Visit>, end: Time, w': Worker) {
    && w.loop.Passing? && w'.loop == Passing(w.loop.now, w.loop.todo - Names(visits))
    && w'.t == VisitAll(c.cron, w.t, w.loop.now, visits) && w'.sink == w.sink
    && w.clock <= w'.clock <= end
  }

  lemma LastVisit(todo: set<string>, init: seq<Visit>, last: Visit, lo: Time, hi: Time)
    requires CanVisit(todo, init + [last], lo, hi)
    ensures CanVisit(todo, init, lo, last.at) && last.name in todo && last.name !in Names(init) && last.at <= hi
  {
    OneMoreName(init, last);
    assert (init + [last])[|init|] == last;
    forall i | 0 <= i < |init| ensures (init + [last])[i] == init[i] && init[i].name != last.name {}
  }

  lemma VisitFollows(c: Config, w: Worker, init: seq<Visit>, last: Visit, mid: Worker, next: Worker)
    requires AfterVisits(c, w, init, last.at, mid) && last.name in w.loop.todo && last.name !in Names(init)
    requires next == During(c, mid, last.at - mid.clock, WorkerStep.VisitOne(last.name), 0)
    ensures AfterVisits(c, w, init + [last], last.at, next)
  {
    VisitImage(c, mid, last.name, last.at, last.at);
    OneMoreName(init, last);
    assert (init + [last])[..|init|] == init;
    assert w.loop.todo - Names(init) - {last.name} == w.loop.todo - (Names(init) + {last.name});
  }

  lemma AddStep(c: Config, w: Worker, steps: seq<WorkerStep>, p: nat, step: WorkerStep, q: nat)
    returns (more: seq<WorkerStep>)
    ensures WorkerModel.Run(c, w, more) == During(c, WorkerModel.Run(c, w, steps), p, step, q)
    ensures WithoutTicks(more) == WithoutTicks(steps) + if step.Tick? then [] else [step]
  {
    more := steps + [Tick(p)] + [step] + [Tick(q)];
    OneMoreStep(c, w, steps, Tick(p));
    OneMoreStep(c, w, steps + [Tick(p)], step);
    OneMoreStep(c, w, steps + [Tick(p)] + [step], Tick(q));
  }

  /** A step in the middle of which the clock goes on. */
  ghost function During(c: Config, w: Worker, p: nat, step: WorkerStep, q: nat): Worker {
    Do(c, Do(c, Do(c, w, Tick(p)), step), Tick(q))
  }

  lemma DuringEnabled(c: Config, w: Worker, p: nat, step: WorkerStep, q: nat)
    requires !step.Tick? && Enabled(c, w.(clock := w.clock + p), step)
    ensures During(c, w, p, step, q) == Next(c, w.(clock := w.clock + p), step).(clock := w.clock + p + q)
  {
  }

  lemma VisitStartsAtMostOne(cron: Cron, t: Tables, now: Time, n: string, at: Time)
    ensures |t.started| <= |VisitPlan(cron, t, now, n, at).started| <= |t.started| + 1
  {
  }

  lemma ScheduledSoFar(schedule: seq<WorkerStep>, k: nat)
    requires k < |schedule|
    ensures WithoutTicks(schedule[..k + 1])
        == WithoutTicks(schedule[..k]) + if schedule[k].Tick? then [] else [schedule[k]]
  {
    assert schedule[..k + 1][..k] == schedule[..k];
  }

  /** What a process holds of the state of a worker. */
  datatype Image = Image(
    t: Tables, sink: Sink, clock: Time, events: seq<JobEvent>, results: seq<Outcome>,
    phases: seq<Phase>, loop: Loop, delay: Duration)

  function ImageOf(w: Worker): Image {
    Image(w.t, w.sink, w.clock, w.events, w.results, w.phases, w.loop, w.delay)
  }

  lemma EventImage(c: Config, w: Worker, at: Time, now: Time)
    requires w.loop == Select && w.events != [] && w.clock <= at <= now
    ensures ImageOf(During(c, w, at - w.clock, TakeEvent, now - at)) ==
            ImageOf(w).(t := OnEvent(c.cron, w.t, w.events[0], at), clock := now, events := w.events[1..],
                loop := Scanning)
  {
    DuringEnabled(c, w, at - w.clock, TakeEvent, now - at);
  }

  lemma ResultImage(c: Config, w: Worker)
    requires Enabled(c, w, TakeResult)
    ensures var o := w.results[0];
            ImageOf(During(c, w, 0, TakeResult, 0)) ==
            ImageOf(w).(t := OnResult(w.t, o.exec), results := w.results[1..], loop := Scanning,
                        phases := w.phases[o.exec := Phase.Handled],
                        sink := if o.err == LockTaken then w.sink
                                else AppendLog(w.sink, BuildLog(w.t.started[o.exec], o)))
  {
    DuringEnabled(c, w, 0, TakeResult, 0);
  }

  lemma BeginImage(c: Config, w: Worker, now: Time)
    requires w.loop == Scanning && w.clock <= now
    ensures ImageOf(During(c, w, now - w.clock, BeginPass, 0)) ==
            if w.t.plans == map[] then ImageOf(w).(clock := now, loop := Select, delay := SECOND)
            else ImageOf(w).(clock := now, loop := Passing(now, w.t.plans.Keys))
  {
    DuringEnabled(c, w, now - w.clock, BeginPass, 0);
  }

  /** After the visit to one plan, and the start of its goroutine if it started an execution. */
  function Visited(cron: Cron, s: Image, n: string, at: Time, now: Time): Image
    requires s.loop.Passing?
  {
    var t' := VisitPlan(cron, s.t, s.loop.now, n, at);
    s.(t := t', clock := now, loop := Passing(s.loop.now, s.loop.todo - {n}),
       phases := if |t'.started| == |s.t.started| then s.phases else s.phases + [Spawned])
  }

  lemma VisitImage(c: Config, w: Worker, n: string, at: Time, now: Time)
    requires w.loop.Passing? && n in w.loop.todo && w.clock <= at <= now
    ensures ImageOf(During(c, w, at - w.clock, VisitOne(n), now - at)) == Visited(c.cron, ImageOf(w), n, at, now)
  {
    DuringEnabled(c, w, at - w.clock, VisitOne(n), now - at);
  }

  lemma EndImage(c: Config, w: Worker, delay: Duration)
    requires w.loop.Passing? && w.loop.todo == {} && IsDelay(w.t.plans, w.loop.now, delay)
    ensures ImageOf(During(c, w, 0, EndPass(delay), 0)) == ImageOf(w).(loop := Select, delay := delay)
  {
    DuringEnabled(c, w, 0, EndPass(delay), 0);
  }

  lemma NoSuchEnd(c: Config, w: Worker, delay: Duration, after: Duration)
    requires w.loop.Passing? && IsDelay(w.t.plans, w.loop.now, after) && delay != after
    ensures During(c, w, 0, EndPass(delay), 0) == w
  {
    if IsDelay(w.t.plans, w.loop.now, delay) {
      DelayUnique(w.t.plans, w.loop.now, delay, after);
    }
  }

  /** TrySchedule in one piece, as the loop makes it, is a run of the machine. */
  lemma PassIsRun(c: Config, w: Worker, op: LoopOp) returns (steps: seq<WorkerStep>)
    requires op.Passed? && w.loop == Scanning && Fitting(w.t, w.clock, op)
    ensures var w' := WorkerModel.Run(c, w, steps);
            && w'.t == VisitAll(c.cron, w.t, op.now, op.visits) && w'.sink == w.sink
            && w'.loop == Select && w'.clock == op.end
  {
    BeginImage(c, w, op.now);
    steps := AddStep(c, w, [], op.now - w.clock, WorkerStep.BeginPass, 0);
    var w1 := WorkerModel.Run(c, w, steps);
    if w.t.plans == map[] {
      NoNames(op.visits);
    } else {
      var more := VisitsAreRun(c, w1, op.visits, op.end);
      WorkerTheorems.RunConcat(c, w, steps, more);
      steps := steps + more;
      var w2 := WorkerModel.Run(c, w, steps);
      var d := DelayExists(w2.t.plans, op.now);
      assert w2.loop.todo == {};
      EndImage(c, w2, d);
      steps := AddStep(c, w, steps, 0, WorkerStep.EndPass(d), 0);
    }
    var w3 := WorkerModel.Run(c, w, steps);
    assert w3.loop == Select && w3.clock <= op.end;
    OneMoreStep(c, w, steps, Tick(op.end - w3.clock));
    steps := steps + [Tick(op.end - w3.clock)];
  }

  lemma NoNames(visits: seq<Visit>)
    ensures Names(visits) == {} ==> visits == []
  {
    if visits != [] {
      assert visits[0] in visits;
    }
  }

  lemma EventIsRun(c: Config, w: Worker, ev: JobEvent, at: Time) returns (steps: seq<WorkerStep>)
    requires Ready(w, LoopOp.Handled(ev, at)) && w.clock <= at
    ensures var w' := WorkerModel.Run(c, w, steps);
            && w'.t == OnEvent(c.cron, w.t, ev, at) && w'.sink == w.sink && w'.clock == at && w'.loop == Scanning
  {
    EventImage(c, w, at, at);
    steps := AddStep(c, w, [], at - w.clock, WorkerStep.TakeEvent, 0);
  }

  lemma ResultIsRun(c: Config, w: Worker, o: Outcome) returns (steps: seq<WorkerStep>)
    requires Ready(w, Cleared(o))
    ensures var w' := WorkerModel.Run(c, w, steps);
            && LoopState(w'.t, w'.sink) == OnOutcome(LoopState(w.t, w.sink), o)
            && w'.clock == w.clock && w'.loop == Scanning
  {
    ResultImage(c, w);
    steps := AddStep(c, w, [], 0, WorkerStep.TakeResult, 0);
  }

  /** Each operation that ScheduleLoop is made of is a run of the machine, wherever its message is at
      hand: to the same tables and the same sink. */
  lemma LoopOpIsRun(c: Config, w: Worker, op: LoopOp) returns (steps: seq<WorkerStep>)
    requires Ready(w, op) && Fitting(w.t, w.clock, op)
    ensures var w' := WorkerModel.Run(c, w, steps);
            && LoopState(w'.t, w'.sink) == Perform(c.cron, LoopState(w.t, w.sink), op)
            && w'.clock == (if op.Cleared? then w.clock else Latest([op], w.clock))
            && w'.loop == if op.Passed? then Select else Scanning
  {
    match op
    case Handled(ev, at) => steps := EventIsRun(c, w, ev, at);
    case Cleared(o) => steps := ResultIsRun(c, w, o);
    case Passed(_, _, _) => steps := PassIsRun(c, w, op);
  }

  lemma GoroutineImage(c: Config, w: Worker, i: nat, step: WorkerStep, now: Time)
    requires w.clock <= now && ByGoroutine(step) && step.i == i && Enabled(c, w, step)
    ensures ImageOf(During(c, w, now - w.clock, step, 0)) ==
            ImageOf(w).(clock := now, phases := w.phases[i := NextPhase(w.phases, i, step, now)])
  {
    DuringEnabled(c, w, now - w.clock, step, 0);
  }

  /** What the goroutine of execution i does next, if it reads the clock at `now`. */
  function NextPhase(phases: seq<Phase>, i: nat, step: WorkerStep, now: Time): Phase
    requires i < |phases| && ByGoroutine(step) && step.i == i
    requires step.LockFails? ==> phases[i].Contending?
    requires step.CommandEnds? ==> phases[i].Running?
  {
    if step.Begin? then Contending(now)
    else if step.LockWon? then Running(now)
    else if step.LockFails? then Pushing(Outcome(i, "", step.err, phases[i].start, now))
    else Pushing(Outcome(i, step.output, step.err, phases[i].start, now))
  }

  class WorkerProcess {
    const c: Config
    const scheduler: Scheduler
    const logSink: LogSink
    const clock: Clock
    var jobEventChan: seq<JobEvent>
    var jobExecuteResultChan: seq<Outcome>
    var phases: seq<Phase>                // the goroutines of the executions
    var loop: Loop                        // where scheduleLoop is
    var nearTime: JobSchedulePlan?        // local to TrySchedule
    var scheduleAfter: Duration           // what scheduleTimer was last reset to

    /** The parts share nothing. */
    ghost predicate Apart()
      reads scheduler, logSink
    {
      && scheduler.Repr !! logSink.Repr && clock !in scheduler.Repr && clock !in logSink.Repr
      && this !in scheduler.Repr && this !in logSink.Repr
      && scheduler.cron == c.cron && logSink.batchSize == c.batchSize
    }

    /** The parts are in order. */
    ghost predicate Sound()
      reads this`loop, this`nearTime, scheduler, scheduler.Repr, logSink, logSink.Repr
    {
      && scheduler.Valid() && logSink.Valid() && Apart()
      && (loop.Passing? ==>
            && scheduler.jobPlanTable != map[] && loop.todo <= scheduler.jobPlanTable.Keys
            && scheduler.IsNearest(nearTime, scheduler.jobPlanTable.Keys - loop.todo))
    }

    ghost function Here(): Image
      requires Sound()
      reads this`jobEventChan, this`jobExecuteResultChan, this`phases, this`loop, this`nearTime, this`scheduleAfter
      reads scheduler, scheduler.Repr, logSink, logSink.Repr, clock
    {
      Image(scheduler.Abs(), logSink.Abs(), clock.now, jobEventChan, jobExecuteResultChan, phases, loop, scheduleAfter)
    }

    /** The heap is in the state of this worker. */
    ghost predicate Shows(w: Worker)
      reads this, scheduler, scheduler.Repr, logSink, logSink.Repr, clock
    {
      Sound() && Here() == ImageOf(w) && |phases| == |scheduler.spawned|
    }

    constructor (c: Config, clock: Clock)
      ensures Shows(Init(clock.now)) && fresh(scheduler.Repr) && fresh(logSink.Repr)
      ensures this.clock == clock && this.c == c
    {
      this.c, this.clock := c, clock;
      scheduler := new Scheduler(c.cron);
      logSink := new LogSink(c.batchSize);
      jobEventChan, jobExecuteResultChan, phases := [], [], [];
      loop, nearTime, scheduleAfter := Scanning, null, 0;
    }

    // -------------------------------------------------------------- the select of scheduleLoop

    method HandleEvent() returns (ghost at: Time)
      requires Sound() && loop == Select && jobEventChan != []
      modifies this`jobEventChan, this`loop, scheduler.Repr, clock
      ensures Sound() && fresh(scheduler.Repr - old(scheduler.Repr))
      ensures old(clock.now) <= at <= clock.now
      ensures Here() == old(Here()).(t := OnEvent(c.cron, old(Here()).t, old(jobEventChan)[0], at), clock := clock.now,
                                     events := old(jobEventChan)[1..], loop := Scanning)
      ensures |scheduler.spawned| == |old(scheduler.spawned)|
    {
      ghost var t := scheduler.Abs();
      at := scheduler.HandleJobEvent(jobEventChan[0], clock);
      EventEffect(c.cron, t, jobEventChan[0], at);
      assert |t.started| == |old(scheduler.spawned)| && |scheduler.Abs().started| == |scheduler.spawned|;
      jobEventChan := jobEventChan[1..];
      loop := Scanning;
    }

    method HandleResult()
      requires Sound() && loop == Select && jobExecuteResultChan != []
      requires jobExecuteResultChan[0].exec < |scheduler.spawned| == |phases|
      modifies this`jobExecuteResultChan, this`phases, this`loop, scheduler, logSink
      ensures Sound() && scheduler.Repr == old(scheduler.Repr) && logSink.Repr == old(logSink.Repr)
      ensures var o, s := old(jobExecuteResultChan)[0], old(Here());
              Here() == s.(t := OnResult(s.t, o.exec), results := s.results[1..], loop := Scanning,
                           phases := s.phases[o.exec := Phase.Handled],
                           sink := if o.err == LockTaken then s.sink
                                   else AppendLog(s.sink, BuildLog(s.t.started[o.exec], o)))
      ensures |scheduler.spawned| == |phases|
    {
      var outcome := jobExecuteResultChan[0];
      scheduler.HandleJobResult(scheduler.spawned[outcome.exec], outcome, logSink);
      jobExecuteResultChan := jobExecuteResultChan[1..];
      phases := phases[outcome.exec := Phase.Handled];
      loop := Scanning;
    }

    // -------------------------------------------------------------- TrySchedule, one plan at a time

    /** An empty table needs no pass. */
    method Start()
      requires Sound() && loop == Scanning
      modifies this`loop, this`nearTime, this`scheduleAfter, clock
      ensures Sound() && old(clock.now) <= clock.now
      ensures var s := old(Here());
              Here() == if s.t.plans == map[] then s.(loop := Select, delay := SECOND)
                        else s.(clock := clock.now, loop := Passing(clock.now, s.t.plans.Keys))
    {
      PlansMirrored();
      if |scheduler.jobPlanTable| == 0 {
        SkipPass();
      } else {
        var start := ReadClock();
        BeginAt(start);
      }
    }

    lemma PlansMirrored()
      requires Sound()
      ensures Here().t.plans.Keys == scheduler.jobPlanTable.Keys
      ensures Here().t.plans == map[] <==> |scheduler.jobPlanTable| == 0
    {
    }

    method ReadClock() returns (now: Time)
      requires Sound()
      modifies clock
      ensures Sound() && old(clock.now) <= now && Here() == old(Here()).(clock := now)
    {
      now := clock.Now();
    }

    method SkipPass()
      requires Sound()
      modifies this`loop, this`scheduleAfter
      ensures Sound() && Here() == old(Here()).(loop := Select, delay := SECOND)
    {
      loop, scheduleAfter := Select, SECOND;
    }

    method BeginAt(start: Time)
      requires Sound() && loop == Scanning && scheduler.jobPlanTable != map[]
      modifies this`loop, this`nearTime
      ensures Sound() && Here() == old(Here()).(loop := Passing(start, scheduler.jobPlanTable.Keys))
    {
      loop, nearTime := Passing(start, scheduler.jobPlanTable.Keys), null;
      assert scheduler.jobPlanTable.Keys - loop.todo == {};
    }

    method VisitTables(n: string) returns (ghost at: Time)
      requires Sound() && loop.Passing? && n in loop.todo
      modifies this`loop, this`nearTime, scheduler.Repr, clock
      ensures Sound() && fresh(scheduler.Repr - old(scheduler.Repr))
      ensures old(clock.now) <= at <= clock.now
      ensures var s := old(Here());
              Here() == s.(t := VisitPlan(c.cron, s.t, s.loop.now, n, at), clock := clock.now,
                           loop := Passing(s.loop.now, s.loop.todo - {n}))
    {
      at := VisitInTurn(n);
      LeavePlan(n);
    }

    method VisitInTurn(n: string) returns (ghost at: Time)
      requires Sound() && loop.Passing? && n in loop.todo
      modifies this`nearTime, scheduler.Repr, clock
      ensures scheduler.Valid() && fresh(scheduler.Repr - old(scheduler.Repr)) && Apart()
      ensures logSink.Valid() && logSink.Abs() == old(logSink.Abs())
      ensures scheduler.jobPlanTable == old(scheduler.jobPlanTable)
      ensures scheduler.IsNearest(nearTime, scheduler.jobPlanTable.Keys - (loop.todo - {n}))
      ensures old(clock.now) <= at <= clock.now
      ensures scheduler.Abs() == VisitPlan(c.cron, old(scheduler.Abs()), loop.now, n, at)
    {
      ghost var done := scheduler.jobPlanTable.Keys - loop.todo;
      nearTime, at := scheduler.VisitAndCompare(n, loop.now, clock, nearTime, done);
      assert scheduler.jobPlanTable.Keys - (loop.todo - {n}) == done + {n};
    }

    method LeavePlan(n: string)
      requires scheduler.Valid() && logSink.Valid() && Apart()
      requires loop.Passing? && n in loop.todo
      requires scheduler.jobPlanTable != map[] && loop.todo <= scheduler.jobPlanTable.Keys
      requires scheduler.IsNearest(nearTime, scheduler.jobPlanTable.Keys - (loop.todo - {n}))
      modifies this`loop
      ensures Sound() && loop == Passing(old(loop).now, old(loop).todo - {n})
      ensures scheduler.Abs() == old(scheduler.Abs()) && logSink.Abs() == old(logSink.Abs())
    {
      loop := Passing(loop.now, loop.todo - {n});
    }

    /** The goroutine of an execution, if one was just started. */
    method Spawn()
      requires Sound() && |phases| <= |scheduler.spawned| <= |phases| + 1
      modifies this`phases
      ensures Sound() && |phases| == |scheduler.spawned|
      ensures Here() == old(Here()).(phases := if |scheduler.spawned| == |old(phases)| then old(phases)
                                               else old(phases) + [Spawned])
    {
      if |scheduler.spawned| > |phases| {
        phases := phases + [Spawned];
      }
    }

    method Visit(n: string) returns (ghost at: Time)
      requires Sound() && loop.Passing? && n in loop.todo && |phases| == |scheduler.spawned|
      modifies this`phases, this`loop, this`nearTime, scheduler.Repr, clock
      ensures Sound() && fresh(scheduler.Repr - old(scheduler.Repr))
      ensures old(clock.now) <= at <= clock.now
      ensures Here() == Visited(c.cron, old(Here()), n, at, clock.now)
      ensures |phases| == |scheduler.spawned|
    {
      ghost var s := Here();
      at := VisitTables(n);
      VisitStartsAtMostOne(c.cron, s.t, s.loop.now, n, at);
      assert |s.t.started| == |phases| && |Here().t.started| == |scheduler.spawned|;
      Spawn();
    }

    method Remaining() returns (after: Duration)
      requires Sound() && loop.Passing? && loop.todo == {}
      ensures IsDelay(Here().t.plans, loop.now, after)
    {
      assert scheduler.jobPlanTable.Keys - {} == scheduler.jobPlanTable.Keys;
      scheduler.NearestGivesDelay(nearTime, loop.now);
      after := Sub(nearTime.nextTime, loop.now);
    }

    method Rearm(after: Duration)
      requires Sound()
      modifies this`loop, this`scheduleAfter
      ensures Sound() && Here() == old(Here()).(loop := Select, delay := after)
    {
      loop, scheduleAfter := Select, after;
    }

    // -------------------------------------------------------------- the steps of the machine

    method TakeEvent(ghost w: Worker) returns (ghost p: nat, ghost q: nat)
      requires Shows(w) && loop == Select && jobEventChan != []
      modifies this`jobEventChan, this`loop, scheduler.Repr, clock
      ensures fresh(scheduler.Repr - old(scheduler.Repr))
      ensures Shows(During(c, w, p, WorkerStep.TakeEvent, q))
    {
      ghost var at := HandleEvent();
      EventImage(c, w, at, clock.now);
      p, q := at - w.clock, clock.now - at;
    }

    method TakeResult(ghost w: Worker)
      requires Shows(w) && loop == Select && jobExecuteResultChan != []
      requires jobExecuteResultChan[0].exec < |scheduler.spawned|
      modifies this`jobExecuteResultChan, this`phases, this`loop, scheduler, logSink
      ensures scheduler.Repr == old(scheduler.Repr) && logSink.Repr == old(logSink.Repr)
      ensures Shows(During(c, w, 0, WorkerStep.TakeResult, 0))
    {
      assert |w.t.started| == |scheduler.spawned|;
      ResultImage(c, w);
      HandleResult();
    }

    method BeginPass(ghost w: Worker) returns (ghost p: nat)
      requires Shows(w) && loop == Scanning
      modifies this`loop, this`nearTime, this`scheduleAfter, clock
      ensures Shows(During(c, w, p, WorkerStep.BeginPass, 0))
    {
      Start();
      BeginImage(c, w, clock.now);
      p := clock.now - w.clock;
    }

    method VisitOne(n: string, ghost w: Worker) returns (ghost p: nat, ghost q: nat)
      requires Shows(w) && loop.Passing? && n in loop.todo
      modifies this`phases, this`loop, this`nearTime, scheduler.Repr, clock
      ensures fresh(scheduler.Repr - old(scheduler.Repr))
      ensures Shows(During(c, w, p, WorkerStep.VisitOne(n), q))
    {
      ghost var at := Visit(n);
      VisitImage(c, w, n, at, clock.now);
      p, q := at - w.clock, clock.now - at;
    }

    /** The step names the delay that the timer is reset to; no other delay makes a step. */
    method EndPass(delay: Duration, ghost w: Worker)
      requires Shows(w) && loop.Passing? && loop.todo == {}
      modifies this`loop, this`scheduleAfter
      ensures Shows(During(c, w, 0, WorkerStep.EndPass(delay), 0))
    {
      var after := Remaining();
      assert w.t == Here().t && w.loop == loop;
      if delay == after {
        EndWith(after, w);
      } else {
        NoSuchEnd(c, w, delay, after);
      }
    }

    method EndWith(after: Duration, ghost w: Worker)
      requires Shows(w) && w.loop.Passing? && w.loop.todo == {} && IsDelay(w.t.plans, w.loop.now, after)
      modifies this`loop, this`scheduleAfter
      ensures Shows(During(c, w, 0, WorkerStep.EndPass(after), 0))
    {
      EndImage(c, w, after);
      Rearm(after);
    }

    method TakeTimer(ghost w: Worker)
      requires Shows(w) && loop == Select
      modifies this`loop
      ensures Shows(During(c, w, 0, WorkerStep.TakeTimer, 0))
    {
      loop := Scanning;
    }

    method PushEvent(ev: JobEvent, ghost w: Worker)
      requires Shows(w) && |jobEventChan| < CHANNEL_CAPACITY
      modifies this`jobEventChan
      ensures Shows(During(c, w, 0, WorkerStep.PushEvent(ev), 0))
    {
      jobEventChan := jobEventChan + [ev];
    }

    method PushResult(i: nat, ghost w: Worker)
      requires Shows(w) && i < |phases| && phases[i].Pushing? && |jobExecuteResultChan| < CHANNEL_CAPACITY
      modifies this`jobExecuteResultChan, this`phases
      ensures Shows(During(c, w, 0, WorkerStep.PushResult(i), 0))
    {
      jobExecuteResultChan := jobExecuteResultChan + [phases[i].outcome];
      phases := phases[i := Pushed];
    }

    /** The goroutine of execution i reads the clock and goes on. */
    method Goroutine(i: nat, step: WorkerStep, ghost w: Worker) returns (ghost p: nat)
      requires Shows(w) && ByGoroutine(step) && step.i == i && Enabled(c, w, step)
      modifies this`phases, clock
      ensures Shows(During(c, w, p, step, 0))
    {
      var now := ReadClock();
      GoroutineImage(c, w, i, step, now);
      phases := phases[i := NextPhase(phases, i, step, now)];
      p := now - w.clock;
    }

    method MoveSink(step: SinkStep, ghost w: Worker)
      requires Shows(w) && !step.Append?
      modifies logSink.Repr
      ensures fresh(logSink.Repr - old(logSink.Repr))
      ensures Shows(During(c, w, 0, SinkMoves(step), 0))
    {
      logSink.OneStep(step);
    }

    method Sleep(passed: nat, ghost w: Worker)
      requires Shows(w)
      modifies clock
      ensures Shows(During(c, w, 0, Tick(passed), 0))
    {
      clock.Pass(passed);
    }

    /** What the select receives; a step that is not possible now is skipped. */
    method SelectStep(step: WorkerStep, ghost w: Worker) returns (ghost p: nat, ghost q: nat)
      requires Shows(w) && (step.TakeEvent? || step.TakeResult? || step.TakeTimer?)
      modifies this, scheduler, scheduler.Repr, logSink, clock
      ensures fresh(scheduler.Repr - old(scheduler.Repr)) && logSink.Repr == old(logSink.Repr)
      ensures Shows(During(c, w, p, step, q))
    {
      p, q := 0, 0;
      if loop == Select {
        if step.TakeTimer? {
          TakeTimer(w);
        } else if step.TakeEvent? {
          if jobEventChan != [] {
            p, q := TakeEvent(w);
          }
        } else if jobExecuteResultChan != [] && jobExecuteResultChan[0].exec < |scheduler.spawned| {
          TakeResult(w);
        }
      }
    }

    /** A step of TrySchedule. */
    method PassStep(step: WorkerStep, ghost w: Worker) returns (ghost p: nat, ghost q: nat)
      requires Shows(w) && (step.BeginPass? || step.VisitOne? || step.EndPass?)
      modifies this, scheduler, scheduler.Repr, clock
      ensures fresh(scheduler.Repr - old(scheduler.Repr)) && logSink.Repr == old(logSink.Repr)
      ensures Shows(During(c, w, p, step, q))
    {
      p, q := 0, 0;
      if step.BeginPass? {
        if loop == Scanning {
          p := BeginPass(w);
        }
      } else if step.VisitOne? {
        if loop.Passing? && step.n in loop.todo {
          p, q := VisitOne(step.n, w);
        }
      } else if loop.Passing? && loop.todo == {} {
        EndPass(step.delay, w);
      }
    }

    /** A step of anyone else. */
    method OtherStep(step: WorkerStep, ghost w: Worker) returns (ghost p: nat)
      requires Shows(w) && !ByScheduler(step)
      modifies this, logSink.Repr, clock
      ensures fresh(logSink.Repr - old(logSink.Repr)) && scheduler.Repr == old(scheduler.Repr)
      ensures Shows(During(c, w, p, step, 0))
    {
      p := 0;
      if ByGoroutine(step) {
        if CanGoOn(step) {
          p := Goroutine(step.i, step, w);
        }
      } else if step.Tick? {
        Sleep(step.passed, w);
      } else if step.PushEvent? {
        if |jobEventChan| < CHANNEL_CAPACITY {
          PushEvent(step.ev, w);
        }
      } else if step.PushResult? {
        if step.i < |phases| && phases[step.i].Pushing? && |jobExecuteResultChan| < CHANNEL_CAPACITY {
          PushResult(step.i, w);
        }
      } else if !step.step.Append? {
        MoveSink(step.step, w);
      }
    }

    predicate CanGoOn(step: WorkerStep)
      requires ByGoroutine(step)
      reads this
    {
      && step.i < |phases|
      && (step.Begin? ==> phases[step.i] == Spawned)
      && (step.LockFails? ==> phases[step.i].Contending? && step.err != NoError)
      && (step.LockWon? ==> phases[step.i].Contending?)
      && (step.CommandEnds? ==> phases[step.i].Running? && step.err != LockTaken)
    }

    method OneStep(step: WorkerStep, ghost w: Worker) returns (ghost p: nat, ghost q: nat)
      requires Shows(w)
      modifies this, scheduler, scheduler.Repr, logSink, logSink.Repr, clock
      ensures fresh(scheduler.Repr - old(scheduler.Repr)) && fresh(logSink.Repr - old(logSink.Repr))
      ensures Shows(During(c, w, p, step, q))
    {
      q := 0;
      if step.TakeEvent? || step.TakeResult? || step.TakeTimer? {
        p, q := SelectStep(step, w);
      } else if step.BeginPass? || step.VisitOne? || step.EndPass? {
        p, q := PassStep(step, w);
      } else {
        p := OtherStep(step, w);
      }
    }

    /** The whole process, under any schedule whatever: at the end the heap is in the state that the
        worker machine reaches by the steps scheduled, with some time going by in between. */
    method Work(schedule: seq<WorkerStep>, ghost start: Worker) returns (ghost trace: seq<WorkerStep>)
      requires Shows(start)
      modifies this, scheduler, scheduler.Repr, logSink, logSink.Repr, clock
      ensures fresh(scheduler.Repr - old(scheduler.Repr)) && fresh(logSink.Repr - old(logSink.Repr))
      ensures Shows(WorkerModel.Run(c, start, trace)) && WithoutTicks(trace) == WithoutTicks(schedule)
    {
      trace := [];
      for k := 0 to |schedule|
        invariant fresh(scheduler.Repr - old(scheduler.Repr)) && fresh(logSink.Repr - old(logSink.Repr))
        invariant Shows(WorkerModel.Run(c, start, trace)) && WithoutTicks(trace) == WithoutTicks(schedule[..k])
      {
        trace := Next(schedule, k, start, trace);
      }
      assert schedule[..|schedule|] == schedule;
    }

    method Next(schedule: seq<WorkerStep>, k: nat, ghost start: Worker, ghost trace: seq<WorkerStep>)
      returns (ghost more: seq<WorkerStep>)
      requires k < |schedule|
      requires Shows(WorkerModel.Run(c, start, trace)) && WithoutTicks(trace) == WithoutTicks(schedule[..k])
      modifies this, scheduler, scheduler.Repr, logSink, logSink.Repr, clock
      ensures fresh(scheduler.Repr - old(scheduler.Repr)) && fresh(logSink.Repr - old(logSink.Repr))
      ensures Shows(WorkerModel.Run(c, start, more)) && WithoutTicks(more) == WithoutTicks(schedule[..k + 1])
    {
      ghost var p, q := OneStep(schedule[k], WorkerModel.Run(c, start, trace));
      more := AddStep(c, start, trace, p, schedule[k], q);
      ScheduledSoFar(schedule, k);
    }
  }

  /** A worker process from its start, under any schedule: what the heap then holds is what a
      reachable worker holds, so that whatever is proved of reachable workers is true of it. */
  method StartAndWork(c: Config, clock: Clock, schedule: seq<WorkerStep>)
    returns (process: WorkerProcess, ghost w: Worker)
    requires clock.now >= 0
    modifies clock
    ensures Reachable(c, w) && process.Shows(w) && process.c == c
    ensures exists trace ::
              w == WorkerModel.Run(c, Init(old(clock.now)), trace) && WithoutTicks(trace) == WithoutTicks(schedule)
  {
    process := new WorkerProcess(c, clock);
    ghost var trace := process.Work(schedule, Init(clock.now));
    w := WorkerModel.Run(c, Init(old(clock.now)), trace);
  }
}
