/**
  One worker process as a step machine: the scheduler loop, any number of execution goroutines,
  the watchers that push events, the log writer with its timers, and the clock, interleaved in
  any order. The scheduler's own actions are the functions of SchedulerTables; a pass is split
  into one step per plan, so that executions start, run and report while the pass goes on.
*/
module WorkerModel {
  import opened GoTime
  import opened Protocol
  import opened SchedulerTables
  import opened SinkModel

  const CHANNEL_CAPACITY := 1000   // jobEventChan and jobExecuteResultChan

  datatype Config = Config(cron: Cron, batchSize: int)

  /** Where an execution goroutine is. */
  datatype Phase =
    | Spawned                      // started, has not read the clock
    | Contending(start: Time)      // sleeping, then in TryLock
    | Running(start: Time)         // holds the lock, runs its command
    | Pushing(outcome: Outcome)    // wants to send its result
    | Pushed                       // its result is in jobExecuteResultChan
    | Handled                      // its result was handled

  /** Where the scheduler goroutine is: about to start a pass, inside one, or at its select. */
  datatype Loop = Scanning | Passing(now: Time, todo: set<string>) | Select

  /** What the scheduler did, in order. */
  datatype Entry = Received(ev: JobEvent) | Begun(exec: nat) | Ended(outcome: Outcome, info: Info)

  datatype Worker = Worker(
    t: Tables,
    loop: Loop,
    lastNow: Time,               // when the last complete pass began
    delay: Duration,             // what the timer was last reset to
    clock: Time,
    events: seq<JobEvent>,       // jobEventChan
    results: seq<Outcome>,       // jobExecuteResultChan
    phases: seq<Phase>,          // by execution
    history: seq<Entry>,
    begunAt: seq<nat>,           // by execution: its position in the history
    sink: Sink)

  function Init(clock: Time): Worker {
    Worker(NO_JOBS, Scanning, clock, 0, clock, [], [], [], [], [], EMPTY)
  }

  datatype WorkerStep =
    | Tick(passed: nat)
    | PushEvent(ev: JobEvent)
    // the scheduler goroutine
    | TakeEvent
    | TakeTimer                   // a timer fire, due, undrained or spurious
    | TakeResult
    | BeginPass
    | VisitOne(n: string)
    | EndPass(delay: Duration)
    // the goroutine of execution i
    | Begin(i: nat)
    | LockFails(i: nat, err: ExecError)
    | LockWon(i: nat)
    | CommandEnds(i: nat, output: string, err: ExecError)
    | PushResult(i: nat)
    // the log writer and its timers
    | SinkMoves(step: SinkStep)

  ghost predicate Enabled(c: Config, w: Worker, step: WorkerStep) {
    match step
    case Tick(_) => true
    case PushEvent(_) => |w.events| < CHANNEL_CAPACITY
    case TakeEvent => w.loop == Select && w.events != []
    case TakeTimer => w.loop == Select
    case TakeResult =>
      w.loop == Select && w.results != [] && w.results[0].exec < |w.t.started| && w.results[0].exec < |w.phases|
    case BeginPass => w.loop == Scanning
    case VisitOne(n) => w.loop.Passing? && n in w.loop.todo
    case EndPass(delay) => w.loop.Passing? && w.loop.todo == {} && IsDelay(w.t.plans, w.loop.now, delay)
    case Begin(i) => i < |w.phases| && w.phases[i] == Spawned
    case LockFails(i, err) => i < |w.phases| && w.phases[i].Contending? && err != NoError
    case LockWon(i) => i < |w.phases| && w.phases[i].Contending?
    case CommandEnds(i, _, err) => i < |w.phases| && w.phases[i].Running? && err != LockTaken
    case PushResult(i) => i < |w.phases| && w.phases[i].Pushing? && |w.results| < CHANNEL_CAPACITY
    case SinkMoves(s) => !s.Append?
  }

  function SetPhase(w: Worker, i: nat, phase: Phase): Worker
    requires i < |w.phases|
  {
    w.(phases := w.phases[i := phase])
  }

  function DoVisit(c: Config, w: Worker, n: string): Worker
    requires w.loop.Passing?
  {
    var t' := VisitPlan(c.cron, w.t, w.loop.now, n, w.clock);
    var w' := w.(t := t', loop := Passing(w.loop.now, w.loop.todo - {n}));
    if |t'.started| == |w.t.started| then w'
    else w'.(phases := w.phases + [Spawned],
             begunAt := w.begunAt + [|w.history|],
             history := w.history + [Begun(|w.t.started|)])
  }

  function DoResult(w: Worker): Worker
    requires w.results != [] && w.results[0].exec < |w.t.started| && w.results[0].exec < |w.phases|
  {
    var o := w.results[0];
    var info := w.t.started[o.exec];
    w.(t := OnResult(w.t, o.exec), loop := Scanning, results := w.results[1..],
       phases := w.phases[o.exec := Handled],
       history := w.history + [Ended(o, info)],
       sink := if o.err == LockTaken then w.sink else AppendLog(w.sink, BuildLog(info, o)))
  }

  function DoEvent(c: Config, w: Worker): Worker
    requires w.events != []
  {
    w.(t := OnEvent(c.cron, w.t, w.events[0], w.clock), loop := Scanning,
       events := w.events[1..], history := w.history + [Received(w.events[0])])
  }

  ghost function Next(c: Config, w: Worker, step: WorkerStep): Worker
    requires Enabled(c, w, step)
  {
    match step
    case Tick(passed) => w.(clock := w.clock + passed)
    case PushEvent(ev) => w.(events := w.events + [ev])
    case TakeEvent => DoEvent(c, w)
    case TakeTimer => w.(loop := Scanning)
    case TakeResult => DoResult(w)
    case BeginPass =>
      if w.t.plans == map[] then w.(loop := Select, lastNow := w.clock, delay := SECOND)
      else w.(loop := Passing(w.clock, w.t.plans.Keys))
    case VisitOne(n) => DoVisit(c, w, n)
    case EndPass(delay) => w.(loop := Select, lastNow := w.loop.now, delay := delay)
    case Begin(i) => SetPhase(w, i, Contending(w.clock))
    case LockFails(i, err) => SetPhase(w, i, Pushing(Outcome(i, "", err, w.phases[i].start, w.clock)))
    case LockWon(i) => SetPhase(w, i, Running(w.clock))
    case CommandEnds(i, output, err) => SetPhase(w, i, Pushing(Outcome(i, output, err, w.phases[i].start, w.clock)))
    case PushResult(i) => SetPhase(w, i, Pushed).(results := w.results + [w.phases[i].outcome])
    case SinkMoves(s) => w.(sink := SinkModel.Step(c.batchSize, w.sink, s))
  }

  /** A step that is not enabled changes nothing, so every sequence of steps is a run. */
  ghost function Do(c: Config, w: Worker, step: WorkerStep): Worker {
    if Enabled(c, w, step) then Next(c, w, step) else w
  }

  ghost function Run(c: Config, w: Worker, steps: seq<WorkerStep>): Worker {
    if steps == [] then w else Do(c, Run(c, w, steps[..|steps| - 1]), steps[|steps| - 1])
  }

  // ---------------------------------------------------------------- single flight

  /** A name is in the executing table exactly while one execution of it is unhandled, and the
      entry is that execution's. */
  ghost predicate SingleFlight(executing: map<string, nat>, started: seq<Info>, phases: seq<Phase>) {
    && |phases| == |started|
    && (forall n :: n in executing ==>
          executing[n] < |started| && started[executing[n]].job.name == n && phases[executing[n]] != Handled)
    && (forall i :: 0 <= i < |started| && phases[i] != Handled ==>
          started[i].job.name in executing && executing[started[i].job.name] == i)
  }

  /** Every queued result belongs to an execution that pushed it and has not been handled, and
      no execution has two. */
  ghost predicate QueueOk(results: seq<Outcome>, phases: seq<Phase>) {
    && |results| <= CHANNEL_CAPACITY
    && (forall k :: 0 <= k < |results| ==> results[k].exec < |phases| && phases[results[k].exec] == Pushed)
    && (forall k, l :: 0 <= k < l < |results| ==> results[k].exec != results[l].exec)
    && (forall i :: 0 <= i < |phases| && phases[i].Pushing? ==> phases[i].outcome.exec == i)
  }

  /** Plans are filed under their job's name and parsed from its expression. */
  ghost predicate PlansOk(c: Config, plans: map<string, Plan>, loop: Loop) {
    && (loop.Passing? ==> loop.todo <= plans.Keys)
    && (forall n :: n in plans ==>
          && plans[n].job.name == n && plans[n].expr == Expression(plans[n].job.cronExpr)
          && c.cron.parses(plans[n].job.cronExpr))
  }

  ghost predicate FlightOk(c: Config, w: Worker) {
    && SingleFlight(w.t.executing, w.t.started, w.phases)
    && QueueOk(w.results, w.phases)
    && PlansOk(c, w.t.plans, w.loop)
    && |w.events| <= CHANNEL_CAPACITY
  }

  lemma PhaseKeepsFlight(executing: map<string, nat>, started: seq<Info>, phases: seq<Phase>,
                         results: seq<Outcome>, i: nat, phase: Phase)
    requires SingleFlight(executing, started, phases) && QueueOk(results, phases) && i < |phases|
    requires phases[i] != Handled && phase != Handled && phases[i] != Pushed
    requires phase.Pushing? ==> phase.outcome.exec == i
    ensures SingleFlight(executing, started, phases[i := phase]) && QueueOk(results, phases[i := phase])
  {
  }

  lemma PushKeepsFlight(results: seq<Outcome>, phases: seq<Phase>, i: nat)
    requires QueueOk(results, phases) && i < |phases| && phases[i].Pushing? && |results| < CHANNEL_CAPACITY
    ensures QueueOk(results + [phases[i].outcome], phases[i := Pushed])
  {
  }

  lemma StartKeepsFlight(executing: map<string, nat>, started: seq<Info>, phases: seq<Phase>, results: seq<Outcome>,
                         info: Info)
    requires SingleFlight(executing, started, phases) && QueueOk(results, phases) && info.job.name !in executing
    ensures SingleFlight(executing[info.job.name := |started|], started + [info], phases + [Spawned])
    ensures QueueOk(results, phases + [Spawned])
  {
  }

  lemma VisitKeepsPlans(c: Config, w: Worker, n: string)
    requires FlightOk(c, w) && Enabled(c, w, VisitOne(n))
    ensures PlansOk(c, DoVisit(c, w, n).t.plans, DoVisit(c, w, n).loop)
  {
  }

  lemma VisitKeepsFlight(c: Config, w: Worker, n: string)
    requires FlightOk(c, w) && Enabled(c, w, VisitOne(n))
    ensures FlightOk(c, DoVisit(c, w, n))
  {
    VisitKeepsPlans(c, w, n);
    if Due(w.t, w.loop.now, n) && n !in w.t.executing {
      StartKeepsFlight(w.t.executing, w.t.started, w.phases, w.results, BuildJobExecuteInfo(w.t.plans[n], w.clock));
    }
  }

  lemma ResultKeepsFlight(c: Config, w: Worker)
    requires FlightOk(c, w) && Enabled(c, w, TakeResult)
    ensures FlightOk(c, DoResult(w))
  {
    var w' := DoResult(w);
    var e := w.results[0].exec;
    assert forall k :: 0 <= k < |w'.results| ==> w'.results[k] == w.results[k + 1];
    forall i | 0 <= i < |w'.t.started| && w'.phases[i] != Handled
      ensures w'.t.started[i].job.name in w'.t.executing && w'.t.executing[w'.t.started[i].job.name] == i
    {
      assert i != e && w.phases[i] != Handled;
    }
    forall n | n in w'.t.executing ensures w'.t.executing[n] != e {}
  }

  /** The steps in which the goroutine of an execution goes on, up to the send of its result. */
  predicate ByGoroutine(step: WorkerStep) {
    step.Begin? || step.LockFails? || step.LockWon? || step.CommandEnds?
  }

  predicate ByExecutor(step: WorkerStep) {
    ByGoroutine(step) || step.PushResult?
  }

  /** Executor goroutines touch their own phase and the result channel, nothing else. */
  lemma ExecutorKeepsFlight(c: Config, w: Worker, step: WorkerStep)
    requires FlightOk(c, w) && Enabled(c, w, step) && ByExecutor(step)
    ensures FlightOk(c, Next(c, w, step))
  {
    var w' := Next(c, w, step);
    PhaseKeepsFlight(w.t.executing, w.t.started, w.phases, w.results, step.i, w'.phases[step.i]);
    if step.PushResult? {
      PushKeepsFlight(w.results, w.phases, step.i);
    }
  }

  lemma EventKeepsFlight(c: Config, w: Worker)
    requires FlightOk(c, w) && Enabled(c, w, TakeEvent)
    ensures FlightOk(c, DoEvent(c, w))
  {
    EventEffect(c.cron, w.t, w.events[0], w.clock);
  }

  lemma StepKeepsFlight(c: Config, w: Worker, step: WorkerStep)
    requires FlightOk(c, w) && Enabled(c, w, step)
    ensures FlightOk(c, Next(c, w, step))
  {
    if ByExecutor(step) {
      ExecutorKeepsFlight(c, w, step);
    } else if step.TakeEvent? {
      EventKeepsFlight(c, w);
    } else if step.TakeResult? {
      ResultKeepsFlight(c, w);
    } else if step.VisitOne? {
      VisitKeepsFlight(c, w, step.n);
    }
  }

  // ---------------------------------------------------------------- instants

  /** Strictly after `now`, unless the expression has no further instant. */
  predicate Later(next: Time, now: Time) {
    next > now || next == ZERO_TIME
  }

  /** An instant the cron library returned for this expression, asked since the epoch and no later than `clock`. */
  ghost predicate FromCron(cron: Cron, source: string, time: Time, clock: Time) {
    exists asked :: 0 <= asked <= clock && cron.next(source, asked) == time
  }

  ghost predicate PlanTimes(c: Config, plans: map<string, Plan>, clock: Time) {
    && clock >= 0
    && forall n :: n in plans ==>
         Later(plans[n].nextTime, -1) && FromCron(c.cron, plans[n].job.cronExpr, plans[n].nextTime, clock)
  }

  ghost predicate StartTimes(c: Config, started: seq<Info>, clock: Time) {
    forall i :: 0 <= i < |started| ==>
      && started[i].planTime <= started[i].realTime <= clock
      && Later(started[i].planTime, -1) && 0 <= started[i].realTime
      && FromCron(c.cron, started[i].job.cronExpr, started[i].planTime, clock)
  }

  predicate OutcomeTimes(info: Info, o: Outcome, clock: Time) {
    info.realTime <= o.startTime <= o.endTime <= clock
  }

  predicate PhaseTime(info: Info, phase: Phase, clock: Time) {
    match phase
    case Contending(start) => info.realTime <= start <= clock
    case Running(start) => info.realTime <= start <= clock
    case Pushing(o) => OutcomeTimes(info, o, clock)
    case _ => true
  }

  ghost predicate PhaseTimes(started: seq<Info>, phases: seq<Phase>, clock: Time) {
    forall i :: 0 <= i < |started| && i < |phases| ==> PhaseTime(started[i], phases[i], clock)
  }

  ghost predicate ResultTimes(started: seq<Info>, results: seq<Outcome>, clock: Time) {
    forall k :: 0 <= k < |results| && results[k].exec < |started| ==>
        OutcomeTimes(started[results[k].exec], results[k], clock)
  }

  /** The plan times of one job's starts increase, and its plan lies after all of them. */
  ghost predicate Rising(plans: map<string, Plan>, started: seq<Info>) {
    && (forall i, j :: 0 <= i < j < |started| && started[i].job.name == started[j].job.name ==>
          Later(started[j].planTime, started[i].planTime))
    && (forall i :: 0 <= i < |started| && started[i].job.name in plans ==>
          Later(plans[started[i].job.name].nextTime, started[i].planTime))
  }

  /** In a pass, the plans visited so far lie after it; at the select, all plans lie after the
      last pass and the timer was reset to the delay to the earliest. */
  ghost predicate LoopTimes(plans: map<string, Plan>, started: seq<Info>, loop: Loop, lastNow: Time, delay: Duration,
                            clock: Time)
  {
    match loop
    case Scanning => true
    case Passing(now, todo) =>
      && 0 <= now <= clock
      && (forall i :: 0 <= i < |started| ==> started[i].planTime <= now)
      && (forall n :: n in plans && n !in todo ==> Later(plans[n].nextTime, now))
    case Select =>
      && lastNow <= clock
      && (forall n :: n in plans ==> Later(plans[n].nextTime, lastNow))
      && IsDelay(plans, lastNow, delay)
  }

  ghost predicate TimesOk(c: Config, w: Worker) {
    && PlanTimes(c, w.t.plans, w.clock) && StartTimes(c, w.t.started, w.clock)
    && PhaseTimes(w.t.started, w.phases, w.clock) && ResultTimes(w.t.started, w.results, w.clock)
    && Rising(w.t.plans, w.t.started)
    && LoopTimes(w.t.plans, w.t.started, w.loop, w.lastNow, w.delay, w.clock)
  }

  lemma TickKeepsTimes(c: Config, w: Worker, passed: nat)
    requires TimesOk(c, w)
    ensures TimesOk(c, w.(clock := w.clock + passed))
  {
    forall n | n in w.t.plans
      ensures FromCron(c.cron, w.t.plans[n].job.cronExpr, w.t.plans[n].nextTime, w.clock + passed)
    {
      var asked :| 0 <= asked <= w.clock && c.cron.next(w.t.plans[n].job.cronExpr, asked) == w.t.plans[n].nextTime;
    }
    forall i | 0 <= i < |w.t.started|
      ensures FromCron(c.cron, w.t.started[i].job.cronExpr, w.t.started[i].planTime, w.clock + passed)
    {
      var asked :| 0 <= asked <= w.clock && c.cron.next(w.t.started[i].job.cronExpr, asked) == w.t.started[i].planTime;
    }
  }

  lemma EventKeepsTimes(c: Config, w: Worker)
    requires LibraryLaw(c.cron) && TimesOk(c, w) && w.events != []
    ensures TimesOk(c, DoEvent(c, w))
  {
    var ev, w' := w.events[0], DoEvent(c, w);
    if ev.eventType == JOB_EVENT_SAVE && c.cron.parses(ev.job.cronExpr) {
      var next := c.cron.next(ev.job.cronExpr, w.clock);
      assert Later(next, w.clock);
      assert FromCron(c.cron, ev.job.cronExpr, next, w.clock);
    }
  }

  /** A plan that comes up in a pass: where its new instant stands. */
  lemma DuePlanAdvances(c: Config, w: Worker, n: string)
    requires LibraryLaw(c.cron) && FlightOk(c, w) && TimesOk(c, w) && Enabled(c, w, VisitOne(n))
    requires Due(w.t, w.loop.now, n)
    ensures var next := c.cron.next(w.t.plans[n].expr.source, w.loop.now);
            && Later(next, w.loop.now) && FromCron(c.cron, w.t.plans[n].job.cronExpr, next, w.clock)
            && forall i :: 0 <= i < |w.t.started| ==> Later(next, w.t.started[i].planTime)
  {
  }

  lemma AdvanceKeepsRising(plans: map<string, Plan>, started: seq<Info>, n: string, next: Time)
    requires Rising(plans, started) && n in plans
    requires forall i :: 0 <= i < |started| ==> Later(next, started[i].planTime)
    ensures Rising(plans[n := plans[n].(nextTime := next)], started)
  {
  }

  lemma StartKeepsRising(plans: map<string, Plan>, started: seq<Info>, n: string, next: Time, info: Info)
    requires Rising(plans, started) && n in plans
    requires info.job.name == n && info.planTime == plans[n].nextTime && Later(next, info.planTime)
    requires forall i :: 0 <= i < |started| ==> Later(next, started[i].planTime)
    ensures Rising(plans[n := plans[n].(nextTime := next)], started + [info])
  {
    AdvanceKeepsRising(plans, started, n, next);
    assert forall i :: 0 <= i < |started| && started[i].job.name == n ==> Later(info.planTime, started[i].planTime);
  }

  lemma VisitKeepsRising(c: Config, w: Worker, n: string)
    requires LibraryLaw(c.cron) && FlightOk(c, w) && TimesOk(c, w) && Enabled(c, w, VisitOne(n))
    ensures Rising(DoVisit(c, w, n).t.plans, DoVisit(c, w, n).t.started)
  {
    if Due(w.t, w.loop.now, n) {
      DuePlanAdvances(c, w, n);
      var next := c.cron.next(w.t.plans[n].expr.source, w.loop.now);
      AdvanceKeepsRising(w.t.plans, w.t.started, n, next);
      if n !in w.t.executing {
        StartKeepsRising(w.t.plans, w.t.started, n, next, BuildJobExecuteInfo(w.t.plans[n], w.clock));
      }
    }
  }

  lemma AdvanceKeepsPlanTimes(c: Config, plans: map<string, Plan>, clock: Time, n: string, next: Time)
    requires PlanTimes(c, plans, clock) && n in plans
    requires Later(next, -1) && FromCron(c.cron, plans[n].job.cronExpr, next, clock)
    ensures PlanTimes(c, plans[n := plans[n].(nextTime := next)], clock)
  {
  }

  lemma StartKeepsStartTimes(c: Config, started: seq<Info>, clock: Time, info: Info)
    requires StartTimes(c, started, clock)
    requires info.planTime <= info.realTime <= clock && Later(info.planTime, -1) && 0 <= info.realTime
    requires FromCron(c.cron, info.job.cronExpr, info.planTime, clock)
    ensures StartTimes(c, started + [info], clock)
  {
  }

  lemma VisitKeepsInstants(c: Config, w: Worker, n: string)
    requires LibraryLaw(c.cron) && FlightOk(c, w) && TimesOk(c, w) && Enabled(c, w, VisitOne(n))
    ensures PlanTimes(c, DoVisit(c, w, n).t.plans, w.clock) && StartTimes(c, DoVisit(c, w, n).t.started, w.clock)
  {
    if Due(w.t, w.loop.now, n) {
      DuePlanAdvances(c, w, n);
      AdvanceKeepsPlanTimes(c, w.t.plans, w.clock, n, c.cron.next(w.t.plans[n].expr.source, w.loop.now));
      if n !in w.t.executing {
        StartKeepsStartTimes(c, w.t.started, w.clock, BuildJobExecuteInfo(w.t.plans[n], w.clock));
      }
    }
  }

  /** A due plan has been moved: it needs no more visit. */
  lemma AdvanceKeepsLoop(plans: map<string, Plan>, started: seq<Info>, loop: Loop, lastNow: Time, delay: Duration,
                         clock: Time, n: string, next: Time)
    requires loop.Passing? && LoopTimes(plans, started, loop, lastNow, delay, clock)
    requires n in plans && Later(next, loop.now)
    ensures LoopTimes(plans[n := plans[n].(nextTime := next)], started, Passing(loop.now, loop.todo - {n}), lastNow,
        delay, clock)
  {
  }

  lemma StartKeepsLoop(plans: map<string, Plan>, started: seq<Info>, loop: Loop, lastNow: Time, delay: Duration,
                       clock: Time, info: Info)
    requires loop.Passing? && LoopTimes(plans, started, loop, lastNow, delay, clock) && info.planTime <= loop.now
    ensures LoopTimes(plans, started + [info], loop, lastNow, delay, clock)
  {
  }

  lemma SkipKeepsLoop(plans: map<string, Plan>, started: seq<Info>, loop: Loop, lastNow: Time, delay: Duration,
                      clock: Time, n: string)
    requires loop.Passing? && LoopTimes(plans, started, loop, lastNow, delay, clock)
    requires n in plans ==> plans[n].nextTime > loop.now
    ensures LoopTimes(plans, started, Passing(loop.now, loop.todo - {n}), lastNow, delay, clock)
  {
  }

  lemma VisitLoopTimes(c: Config, w: Worker, n: string)
    requires w.loop.Passing? && LoopTimes(w.t.plans, w.t.started, w.loop, w.lastNow, w.delay, w.clock)
    requires n in w.t.plans ==> w.t.plans[n].job.name == n
    requires Due(w.t, w.loop.now, n) ==> Later(c.cron.next(w.t.plans[n].expr.source, w.loop.now), w.loop.now)
    ensures var w' := DoVisit(c, w, n); LoopTimes(w'.t.plans, w'.t.started, w'.loop, w.lastNow, w.delay, w.clock)
  {
    if Due(w.t, w.loop.now, n) {
      var next := c.cron.next(w.t.plans[n].expr.source, w.loop.now);
      AdvanceKeepsLoop(w.t.plans, w.t.started, w.loop, w.lastNow, w.delay, w.clock, n, next);
      if n !in w.t.executing {
        StartKeepsLoop(w.t.plans[n := w.t.plans[n].(nextTime := next)], w.t.started,
            Passing(w.loop.now, w.loop.todo - {n}),
                       w.lastNow, w.delay, w.clock, BuildJobExecuteInfo(w.t.plans[n], w.clock));
      }
    } else {
      SkipKeepsLoop(w.t.plans, w.t.started, w.loop, w.lastNow, w.delay, w.clock, n);
    }
  }

  lemma VisitKeepsLoop(c: Config, w: Worker, n: string)
    requires LibraryLaw(c.cron) && FlightOk(c, w) && TimesOk(c, w) && Enabled(c, w, VisitOne(n))
    ensures var w' := DoVisit(c, w, n); LoopTimes(w'.t.plans, w'.t.started, w'.loop, w.lastNow, w.delay, w.clock)
  {
    if Due(w.t, w.loop.now, n) {
      DuePlanAdvances(c, w, n);
    }
    VisitLoopTimes(c, w, n);
  }

  lemma StartKeepsTimes(started: seq<Info>, phases: seq<Phase>, results: seq<Outcome>, clock: Time, info: Info)
    requires PhaseTimes(started, phases, clock) && ResultTimes(started, results, clock) && QueueOk(results, phases)
    requires |phases| == |started|
    ensures PhaseTimes(started + [info], phases + [Spawned], clock) && ResultTimes(started + [info], results, clock)
  {
  }

  lemma VisitKeepsTimes(c: Config, w: Worker, n: string)
    requires LibraryLaw(c.cron) && FlightOk(c, w) && TimesOk(c, w) && Enabled(c, w, VisitOne(n))
    ensures TimesOk(c, DoVisit(c, w, n))
  {
    VisitKeepsRising(c, w, n);
    VisitKeepsInstants(c, w, n);
    VisitKeepsLoop(c, w, n);
    if Due(w.t, w.loop.now, n) && n !in w.t.executing {
      StartKeepsTimes(w.t.started, w.phases, w.results, w.clock, BuildJobExecuteInfo(w.t.plans[n], w.clock));
    }
  }

  lemma PhaseKeepsTimes(started: seq<Info>, phases: seq<Phase>, clock: Time, i: nat, phase: Phase)
    requires PhaseTimes(started, phases, clock) && i < |phases| == |started| && PhaseTime(started[i], phase, clock)
    ensures PhaseTimes(started, phases[i := phase], clock)
  {
  }

  lemma PushKeepsTimes(started: seq<Info>, results: seq<Outcome>, clock: Time, o: Outcome)
    requires ResultTimes(started, results, clock) && o.exec < |started| && OutcomeTimes(started[o.exec], o, clock)
    ensures ResultTimes(started, results + [o], clock)
  {
  }

  lemma ExecutorKeepsTimes(c: Config, w: Worker, step: WorkerStep)
    requires FlightOk(c, w) && TimesOk(c, w) && Enabled(c, w, step) && ByExecutor(step)
    ensures TimesOk(c, Next(c, w, step))
  {
    var i := step.i;
    assert w.t.started[i].realTime <= w.clock && PhaseTime(w.t.started[i], w.phases[i], w.clock);
    PhaseKeepsTimes(w.t.started, w.phases, w.clock, i, Next(c, w, step).phases[i]);
    if step.PushResult? {
      PushKeepsTimes(w.t.started, w.results, w.clock, w.phases[i].outcome);
    }
  }

  lemma ResultKeepsTimes(c: Config, w: Worker)
    requires FlightOk(c, w) && TimesOk(c, w) && Enabled(c, w, TakeResult)
    ensures TimesOk(c, DoResult(w))
  {
    var w' := DoResult(w);
    assert forall k :: 0 <= k < |w'.results| ==> w'.results[k] == w.results[k + 1];
  }

  lemma PassKeepsTimes(c: Config, w: Worker, step: WorkerStep)
    requires FlightOk(c, w) && TimesOk(c, w) && Enabled(c, w, step) && (step.BeginPass? || step.EndPass?)
    ensures TimesOk(c, Next(c, w, step))
  {
    assert forall i :: 0 <= i < |w.t.started| ==> w.t.started[i].planTime <= w.clock;
  }

  lemma QuietStepKeepsTimes(c: Config, w: Worker, step: WorkerStep)
    requires TimesOk(c, w) && Enabled(c, w, step) && (step.PushEvent? || step.TakeTimer? || step.SinkMoves?)
    ensures TimesOk(c, Next(c, w, step))
  {
  }

  lemma PassStepKeepsTimes(c: Config, w: Worker, step: WorkerStep)
    requires LibraryLaw(c.cron) && FlightOk(c, w) && TimesOk(c, w) && Enabled(c, w, step)
    requires step.VisitOne? || step.BeginPass? || step.EndPass?
    ensures TimesOk(c, Next(c, w, step))
  {
    if step.VisitOne? {
      VisitKeepsTimes(c, w, step.n);
    } else {
      PassKeepsTimes(c, w, step);
    }
  }

  lemma SelectKeepsTimes(c: Config, w: Worker, step: WorkerStep)
    requires LibraryLaw(c.cron) && FlightOk(c, w) && TimesOk(c, w) && Enabled(c, w, step)
    requires step.TakeEvent? || step.TakeResult?
    ensures TimesOk(c, Next(c, w, step))
  {
    if step.TakeEvent? {
      EventKeepsTimes(c, w);
    } else {
      ResultKeepsTimes(c, w);
    }
  }

  lemma StepKeepsTimes(c: Config, w: Worker, step: WorkerStep)
    requires LibraryLaw(c.cron) && FlightOk(c, w) && TimesOk(c, w) && Enabled(c, w, step)
    ensures TimesOk(c, Next(c, w, step))
  {
    if ByExecutor(step) {
      ExecutorKeepsTimes(c, w, step);
    } else if step.Tick? {
      TickKeepsTimes(c, w, step.passed);
    } else if step.TakeEvent? || step.TakeResult? {
      SelectKeepsTimes(c, w, step);
    } else if step.VisitOne? || step.BeginPass? || step.EndPass? {
      PassStepKeepsTimes(c, w, step);
    } else {
      QuietStepKeepsTimes(c, w, step);
    }
  }

  // ---------------------------------------------------------------- history

  function Events(history: seq<Entry>): seq<JobEvent> {
    if history == [] then []
    else
      Events(history[..|history| - 1])
      + if history[|history| - 1].Received? then [history[|history| - 1].ev] else []
  }

  /** Execution i's result was handled before position k. */
  ghost predicate EndedBefore(history: seq<Entry>, k: int, i: nat) {
    exists m :: 0 <= m < k && m < |history| && history[m].Ended? && history[m].outcome.exec == i
  }

  predicate IsKill(e: Entry, name: string) {
    e.Received? && e.ev.eventType == JOB_EVENT_KILL && e.ev.job.name == name
  }

  /** A KILL of this name was handled after position `from` and before execution i's result was. */
  ghost predicate KilledInFlight(history: seq<Entry>, from: nat, i: nat, name: string) {
    exists k :: from < k < |history| && IsKill(history[k], name) && !EndedBefore(history, k, i)
  }

  /** Starts and results are recorded once each, where they happened. */
  ghost predicate Recorded(history: seq<Entry>, begunAt: seq<nat>, started: seq<Info>, phases: seq<Phase>) {
    && |begunAt| == |started| == |phases|
    && (forall i :: 0 <= i < |begunAt| ==> begunAt[i] < |history| && history[begunAt[i]] == Begun(i))
    && (forall k :: 0 <= k < |history| && history[k].Begun? ==>
          history[k].exec < |begunAt| && begunAt[history[k].exec] == k)
    && (forall k :: 0 <= k < |history| && history[k].Ended? ==>
          var e := history[k].outcome.exec;
          e < |started| && history[k].info == started[e] && phases[e] == Handled)
    && (forall k, l :: 0 <= k < l < |history| && history[k].Ended? && history[l].Ended? ==>
          history[k].outcome.exec != history[l].outcome.exec)
    && (forall i :: 0 <= i < |phases| && phases[i] == Handled ==> EndedBefore(history, |history|, i))
  }

  /** A context is cancelled exactly for the executions that were killed in flight. */
  ghost predicate KillsOk(history: seq<Entry>, begunAt: seq<nat>, started: seq<Info>, cancelled: set<nat>) {
    && |begunAt| == |started|
    && (forall i :: i in cancelled ==> i < |started|)
    && forall i :: 0 <= i < |started| ==>
         (i in cancelled <==> KilledInFlight(history, begunAt[i], i, started[i].job.name))
  }

  /** The jobs in the table are what the events so far make of the empty table; and each
      execution was started with the job its name had in the table at that moment. */
  ghost predicate JobsOk(c: Config, history: seq<Entry>, begunAt: seq<nat>, started: seq<Info>,
                         plans: map<string, Plan>)
  {
    && |begunAt| == |started|
    && Jobs(plans) == JobsAfter(c.cron, map[], Events(history))
    && forall i :: 0 <= i < |started| ==>
        begunAt[i] <= |history| && StartedFromTable(c, history[..begunAt[i]], started[i])
  }

  ghost predicate StartedFromTable(c: Config, before: seq<Entry>, info: Info) {
    var jobs := JobsAfter(c.cron, map[], Events(before));
    info.job.name in jobs && jobs[info.job.name] == info.job
  }

  ghost predicate HistoryOk(c: Config, w: Worker) {
    && Recorded(w.history, w.begunAt, w.t.started, w.phases)
    && KillsOk(w.history, w.begunAt, w.t.started, w.t.cancelled)
    && JobsOk(c, w.history, w.begunAt, w.t.started, w.t.plans)
  }

  lemma EndedBeforeExtends(history: seq<Entry>, e: Entry, k: int, i: nat)
    requires k <= |history|
    ensures EndedBefore(history + [e], k, i) <==> EndedBefore(history, k, i)
  {
    if EndedBefore(history + [e], k, i) {
      var m :| 0 <= m < k && (history + [e])[m].Ended? && (history + [e])[m].outcome.exec == i;
      assert history[m] == (history + [e])[m];
    }
    if EndedBefore(history, k, i) {
      var m :| 0 <= m < k && history[m].Ended? && history[m].outcome.exec == i;
      assert (history + [e])[m] == history[m];
    }
  }

  lemma KilledExtends(history: seq<Entry>, e: Entry, from: nat, i: nat, name: string)
    requires from < |history|
    ensures KilledInFlight(history + [e], from, i, name) <==>
            KilledInFlight(history, from, i, name) || (IsKill(e, name) && !EndedBefore(history, |history|, i))
  {
    var longer := history + [e];
    if KilledInFlight(longer, from, i, name) {
      var k :| from < k < |longer| && IsKill(longer[k], name) && !EndedBefore(longer, k, i);
      EndedBeforeExtends(history, e, k, i);
      assert k < |history| ==> history[k] == longer[k];
    }
    if KilledInFlight(history, from, i, name) {
      var k :| from < k < |history| && IsKill(history[k], name) && !EndedBefore(history, k, i);
      EndedBeforeExtends(history, e, k, i);
      assert longer[k] == history[k];
    }
    EndedBeforeExtends(history, e, |history|, i);
    assert longer[|history|] == e;
  }

  lemma EventsExtend(history: seq<Entry>, e: Entry)
    ensures Events(history + [e]) == if e.Received? then Events(history) + [e.ev] else Events(history)
  {
    assert (history + [e])[..|history|] == history;
  }

  /** A new entry leaves the record of earlier starts as it was. */
  lemma EntryKeepsJobs(c: Config, history: seq<Entry>, begunAt: seq<nat>, started: seq<Info>,
                       plans: map<string, Plan>, e: Entry, plans': map<string, Plan>)
    requires JobsOk(c, history, begunAt, started, plans)
    requires Jobs(plans') == if e.Received? then ApplyEvent(c.cron, Jobs(plans), e.ev) else Jobs(plans)
    ensures JobsOk(c, history + [e], begunAt, started, plans')
  {
    EventsExtend(history, e);
    if e.Received? {
      JobsAfterOneMore(c.cron, map[], Events(history), e.ev);
    }
    forall i | 0 <= i < |started|
      ensures begunAt[i] <= |history + [e]| && StartedFromTable(c, (history + [e])[..begunAt[i]], started[i])
    {
      assert (history + [e])[..begunAt[i]] == history[..begunAt[i]];
    }
  }

  lemma HandledMeansEnded(history: seq<Entry>, begunAt: seq<nat>, started: seq<Info>, phases: seq<Phase>, i: nat)
    requires Recorded(history, begunAt, started, phases) && i < |phases|
    ensures EndedBefore(history, |history|, i) <==> phases[i] == Handled
  {
  }

  /** Of all executions, an event can only cancel the one in the table, which is in flight. */
  lemma EventKeepsKills(history: seq<Entry>, begunAt: seq<nat>, started: seq<Info>, phases: seq<Phase>,
                        executing: map<string, nat>, cancelled: set<nat>, ev: JobEvent)
    requires Recorded(history, begunAt, started, phases) && SingleFlight(executing, started, phases)
    requires KillsOk(history, begunAt, started, cancelled)
    ensures var kills := ev.eventType == JOB_EVENT_KILL && ev.job.name in executing;
            KillsOk(history + [Received(ev)], begunAt, started,
                    if kills then cancelled + {executing[ev.job.name]} else cancelled)
  {
    var cancelled' := if ev.eventType == JOB_EVENT_KILL && ev.job.name in executing
                      then cancelled + {executing[ev.job.name]} else cancelled;
    forall i | 0 <= i < |started|
      ensures i in cancelled' <==> KilledInFlight(history + [Received(ev)], begunAt[i], i, started[i].job.name)
    {
      KilledExtends(history, Received(ev), begunAt[i], i, started[i].job.name);
      HandledMeansEnded(history, begunAt, started, phases, i);
    }
  }

  /** Any other entry cancels nothing. */
  lemma EntryKeepsKills(history: seq<Entry>, begunAt: seq<nat>, started: seq<Info>, cancelled: set<nat>, e: Entry)
    requires KillsOk(history, begunAt, started, cancelled) && !e.Received?
    requires forall i :: 0 <= i < |begunAt| ==> begunAt[i] < |history|
    ensures KillsOk(history + [e], begunAt, started, cancelled)
  {
    forall i | 0 <= i < |started|
      ensures i in cancelled <==> KilledInFlight(history + [e], begunAt[i], i, started[i].job.name)
    {
      KilledExtends(history, e, begunAt[i], i, started[i].job.name);
    }
  }

  lemma EventKeepsRecord(history: seq<Entry>, begunAt: seq<nat>, started: seq<Info>, phases: seq<Phase>, ev: JobEvent)
    requires Recorded(history, begunAt, started, phases)
    ensures Recorded(history + [Received(ev)], begunAt, started, phases)
  {
    forall i | 0 <= i < |phases| && phases[i] == Handled
      ensures EndedBefore(history + [Received(ev)], |history| + 1, i)
    {
      EndedStaysEnded(history, Received(ev), i);
    }
  }

  lemma EndedStaysEnded(history: seq<Entry>, e: Entry, i: nat)
    requires EndedBefore(history, |history|, i)
    ensures EndedBefore(history + [e], |history| + 1, i)
  {
    var m :| 0 <= m < |history| && history[m].Ended? && history[m].outcome.exec == i;
    assert (history + [e])[m] == history[m];
  }

  lemma EventKeepsHistory(c: Config, w: Worker)
    requires FlightOk(c, w) && HistoryOk(c, w) && Enabled(c, w, TakeEvent)
    ensures HistoryOk(c, DoEvent(c, w))
  {
    var ev := w.events[0];
    EventEffect(c.cron, w.t, ev, w.clock);
    EventKeepsRecord(w.history, w.begunAt, w.t.started, w.phases, ev);
    EventKeepsKills(w.history, w.begunAt, w.t.started, w.phases, w.t.executing, w.t.cancelled, ev);
    EventUpdatesJobs(c.cron, w.t, ev, w.clock);
    EntryKeepsJobs(c, w.history, w.begunAt, w.t.started, w.t.plans, Received(ev), DoEvent(c, w).t.plans);
  }

  lemma ResultKeepsRecord(history: seq<Entry>, begunAt: seq<nat>, started: seq<Info>, phases: seq<Phase>, o: Outcome)
    requires Recorded(history, begunAt, started, phases) && o.exec < |phases| && phases[o.exec] != Handled
    ensures Recorded(history + [Ended(o, started[o.exec])], begunAt, started, phases[o.exec := Handled])
  {
    var e := Ended(o, started[o.exec]);
    var longer := history + [e];
    assert longer[|history|] == e;
    forall i | 0 <= i < |phases| && (phases[i] == Handled || i == o.exec) ensures EndedBefore(longer, |longer|, i) {
      if i != o.exec {
        EndedStaysEnded(history, e, i);
      }
    }
  }

  lemma ResultKeepsHistory(c: Config, w: Worker)
    requires FlightOk(c, w) && HistoryOk(c, w) && Enabled(c, w, TakeResult)
    ensures HistoryOk(c, DoResult(w))
  {
    var e := Ended(w.results[0], w.t.started[w.results[0].exec]);
    ResultKeepsRecord(w.history, w.begunAt, w.t.started, w.phases, w.results[0]);
    EntryKeepsKills(w.history, w.begunAt, w.t.started, w.t.cancelled, e);
    EntryKeepsJobs(c, w.history, w.begunAt, w.t.started, w.t.plans, e, w.t.plans);
  }

  lemma StartKeepsRecord(history: seq<Entry>, begunAt: seq<nat>, started: seq<Info>, phases: seq<Phase>, info: Info)
    requires Recorded(history, begunAt, started, phases)
    ensures Recorded(history + [Begun(|started|)], begunAt + [|history|], started + [info], phases + [Spawned])
  {
    forall i | 0 <= i < |phases| && phases[i] == Handled
      ensures EndedBefore(history + [Begun(|started|)], |history| + 1, i)
    {
      EndedStaysEnded(history, Begun(|started|), i);
    }
  }

  lemma StartKeepsKills(history: seq<Entry>, begunAt: seq<nat>, started: seq<Info>, cancelled: set<nat>, info: Info)
    requires KillsOk(history, begunAt, started, cancelled)
    requires forall i :: 0 <= i < |begunAt| ==> begunAt[i] < |history|
    ensures KillsOk(history + [Begun(|started|)], begunAt + [|history|], started + [info], cancelled)
  {
    EntryKeepsKills(history, begunAt, started, cancelled, Begun(|started|));
  }

  lemma StartKeepsJobs(c: Config, history: seq<Entry>, begunAt: seq<nat>, started: seq<Info>,
                       plans: map<string, Plan>, info: Info, plans': map<string, Plan>)
    requires JobsOk(c, history, begunAt, started, plans) && Jobs(plans') == Jobs(plans)
    requires info.job.name in plans && info.job == plans[info.job.name].job
    ensures JobsOk(c, history + [Begun(|started|)], begunAt + [|history|], started + [info], plans')
  {
    var e := Begun(|started|);
    EntryKeepsJobs(c, history, begunAt, started, plans, e, plans');
    assert (history + [e])[..|history|] == history;
    assert Jobs(plans)[info.job.name] == info.job;
    assert StartedFromTable(c, history, info);
  }

  lemma VisitKeepsHistory(c: Config, w: Worker, n: string)
    requires FlightOk(c, w) && HistoryOk(c, w) && Enabled(c, w, VisitOne(n))
    ensures HistoryOk(c, DoVisit(c, w, n))
  {
    var w' := DoVisit(c, w, n);
    VisitKeepsJobs(c.cron, w.t, w.loop.now, n, w.clock);
    if Due(w.t, w.loop.now, n) && n !in w.t.executing {
      var info := BuildJobExecuteInfo(w.t.plans[n], w.clock);
      assert w'.t.started == w.t.started + [info];
      StartKeepsRecord(w.history, w.begunAt, w.t.started, w.phases, info);
      StartKeepsKills(w.history, w.begunAt, w.t.started, w.t.cancelled, info);
      StartKeepsJobs(c, w.history, w.begunAt, w.t.started, w.t.plans, info, w'.t.plans);
    }
  }

  lemma PhaseKeepsRecord(history: seq<Entry>, begunAt: seq<nat>, started: seq<Info>, phases: seq<Phase>, i: nat,
                         phase: Phase)
    requires Recorded(history, begunAt, started, phases) && i < |phases|
    requires phases[i] != Handled && phase != Handled
    ensures Recorded(history, begunAt, started, phases[i := phase])
  {
  }

  lemma StepKeepsHistory(c: Config, w: Worker, step: WorkerStep)
    requires FlightOk(c, w) && HistoryOk(c, w) && Enabled(c, w, step)
    ensures HistoryOk(c, Next(c, w, step))
  {
    if ByExecutor(step) {
      PhaseKeepsRecord(w.history, w.begunAt, w.t.started, w.phases, step.i, Next(c, w, step).phases[step.i]);
    } else if step.TakeEvent? {
      EventKeepsHistory(c, w);
    } else if step.TakeResult? {
      ResultKeepsHistory(c, w);
    } else if step.VisitOne? {
      VisitKeepsHistory(c, w, step.n);
    }
  }

  // ---------------------------------------------------------------- accounting

  /** The log records due for the results handled so far: all but those of lost lock races. */
  function Logged(history: seq<Entry>): seq<JobLog> {
    if history == [] then []
    else
      var e := history[|history| - 1];
      if e.Ended? && e.outcome.err != LockTaken
      then Logged(history[..|history| - 1]) + [BuildLog(e.info, e.outcome)] else Logged(history[..|history| - 1])
  }

  /** Append was called for exactly those records, in that order; and the sink keeps its own
      invariant. */
  ghost predicate LogsOk(c: Config, w: Worker) {
    SinkModel.Inv(c.batchSize, w.sink) && Tried(w.sink.attempts) == Logged(w.history)
  }

  ghost predicate EntryTimes(history: seq<Entry>, clock: Time) {
    forall k :: 0 <= k < |history| && history[k].Ended? ==> OutcomeTimes(history[k].info, history[k].outcome, clock)
  }

  lemma LoggedExtends(history: seq<Entry>, e: Entry)
    ensures Logged(history + [e]) == if e.Ended? && e.outcome.err != LockTaken
                                     then Logged(history) + [BuildLog(e.info, e.outcome)] else Logged(history)
  {
    assert (history + [e])[..|history|] == history;
  }

  lemma ResultKeepsLogs(c: Config, w: Worker)
    requires LogsOk(c, w) && Enabled(c, w, TakeResult)
    ensures LogsOk(c, DoResult(w))
  {
    var o := w.results[0];
    var log := BuildLog(w.t.started[o.exec], o);
    LoggedExtends(w.history, Ended(o, w.t.started[o.exec]));
    if o.err != LockTaken {
      SinkModel.StepKeepsInv(c.batchSize, w.sink, Append(log));
      assert AppendLog(w.sink, log).attempts[..|w.sink.attempts|] == w.sink.attempts;
    }
  }

  lemma SinkKeepsLogs(c: Config, w: Worker, s: SinkStep)
    requires LogsOk(c, w) && !s.Append?
    ensures LogsOk(c, w.(sink := SinkModel.Step(c.batchSize, w.sink, s)))
  {
    SinkModel.StepKeepsInv(c.batchSize, w.sink, s);
    SinkModel.OnlyAppendAttempts(c.batchSize, w.sink, s);
  }

  lemma StepKeepsLogs(c: Config, w: Worker, step: WorkerStep)
    requires LogsOk(c, w) && Enabled(c, w, step)
    ensures LogsOk(c, Next(c, w, step))
  {
    if step.TakeResult? {
      ResultKeepsLogs(c, w);
    } else if step.SinkMoves? {
      SinkKeepsLogs(c, w, step.step);
    } else if step.TakeEvent? {
      LoggedExtends(w.history, Received(w.events[0]));
    } else if step.VisitOne? {
      LoggedExtends(w.history, Begun(|w.t.started|));
    }
  }

  lemma EntryTimesExtend(history: seq<Entry>, clock: Time, e: Entry)
    requires EntryTimes(history, clock) && (e.Ended? ==> OutcomeTimes(e.info, e.outcome, clock))
    ensures EntryTimes(history + [e], clock)
  {
  }

  lemma StepKeepsEntryTimes(c: Config, w: Worker, step: WorkerStep)
    requires FlightOk(c, w) && TimesOk(c, w) && EntryTimes(w.history, w.clock) && Enabled(c, w, step)
    ensures EntryTimes(Next(c, w, step).history, Next(c, w, step).clock)
  {
    if step.TakeResult? {
      EntryTimesExtend(w.history, w.clock, Ended(w.results[0], w.t.started[w.results[0].exec]));
    } else if step.TakeEvent? {
      EntryTimesExtend(w.history, w.clock, Received(w.events[0]));
    } else if step.VisitOne? {
      EntryTimesExtend(w.history, w.clock, Begun(|w.t.started|));
    }
  }

  // ---------------------------------------------------------------- runs

  ghost predicate Inv(c: Config, w: Worker) {
    FlightOk(c, w) && TimesOk(c, w) && HistoryOk(c, w) && LogsOk(c, w) && EntryTimes(w.history, w.clock)
  }

  lemma EmptySinkOk(size: int)
    ensures SinkModel.Inv(size, EMPTY)
  {
  }

  lemma InitHistory(c: Config, clock: Time)
    ensures HistoryOk(c, Init(clock))
  {
    assert Jobs(Init(clock).t.plans) == map[];
  }

  lemma InitOk(c: Config, clock: Time)
    requires clock >= 0
    ensures Inv(c, Init(clock))
  {
    EmptySinkOk(c.batchSize);
    InitHistory(c, clock);
  }

  lemma StepKeepsInv(c: Config, w: Worker, step: WorkerStep)
    requires LibraryLaw(c.cron) && Inv(c, w) && Enabled(c, w, step)
    ensures Inv(c, Next(c, w, step))
  {
    StepKeepsFlight(c, w, step);
    StepKeepsTimes(c, w, step);
    StepKeepsHistory(c, w, step);
    StepKeepsLogs(c, w, step);
    StepKeepsEntryTimes(c, w, step);
  }

  lemma {:induction false} RunKeepsInv(c: Config, w: Worker, steps: seq<WorkerStep>)
    requires LibraryLaw(c.cron) && Inv(c, w)
    ensures Inv(c, Run(c, w, steps))
  {
    if steps != [] {
      RunKeepsInv(c, w, steps[..|steps| - 1]);
      var mid := Run(c, w, steps[..|steps| - 1]);
      if Enabled(c, mid, steps[|steps| - 1]) {
        StepKeepsInv(c, mid, steps[|steps| - 1]);
      }
    }
  }

  ghost predicate Reachable(c: Config, w: Worker) {
    exists clock, steps :: clock >= 0 && w == Run(c, Init(clock), steps)
  }

  lemma InitReachable(c: Config, clock: Time)
    requires clock >= 0
    ensures Reachable(c, Init(clock))
  {
    assert Run(c, Init(clock), []) == Init(clock);
  }

  lemma StepsReach(c: Config, w: Worker, step: WorkerStep)
    requires Reachable(c, w)
    ensures Reachable(c, Do(c, w, step))
  {
    var clock, steps :| clock >= 0 && w == Run(c, Init(clock), steps);
    assert (steps + [step])[..|steps|] == steps;
    assert Do(c, w, step) == Run(c, Init(clock), steps + [step]);
  }

  lemma ReachableOk(c: Config, w: Worker)
    requires LibraryLaw(c.cron) && Reachable(c, w)
    ensures Inv(c, w)
  {
    var clock, steps :| clock >= 0 && w == Run(c, Init(clock), steps);
    InitOk(c, clock);
    RunKeepsInv(c, Init(clock), steps);
  }
}
