/** What holds in every reachable state of one worker, for every interleaving. */
module WorkerTheorems {
  import opened GoTime
  import opened Protocol
  import opened SchedulerTables
  import SinkModel
  import opened WorkerModel

  // ---------------------------------------------------------------- single flight

  predicate InFlight(w: Worker, i: nat, n: string) {
    i < |w.t.started| && i < |w.phases| && w.t.started[i].job.name == n && w.phases[i] != Handled
  }

  /** A name is in the executing table if and only if exactly one started execution of it has not
      had its result handled, and the entry is that execution; deleting and re-saving the job
      while it runs makes no difference. */
  lemma OneExecutionPerName(c: Config, w: Worker, n: string)
    requires LibraryLaw(c.cron) && Reachable(c, w)
    ensures n in w.t.executing <==> exists i :: InFlight(w, i, n)
    ensures forall i :: InFlight(w, i, n) ==> w.t.executing[n] == i
  {
    ReachableOk(c, w);
    if n in w.t.executing {
      assert InFlight(w, w.t.executing[n], n);
    }
  }

  /** Handling a result removes the entry of the very execution that produced it. */
  lemma ResultRemovesItsOwnEntry(c: Config, w: Worker)
    requires LibraryLaw(c.cron) && Reachable(c, w) && Enabled(c, w, TakeResult)
    ensures var e := w.results[0].exec; var n := w.t.started[e].job.name;
            && n in w.t.executing && w.t.executing[n] == e
            && Next(c, w, TakeResult).t.executing == w.t.executing - {n}
  {
    ReachableOk(c, w);
  }

  function ResultNames(started: seq<Info>, results: seq<Outcome>): set<string>
    requires forall k :: 0 <= k < |results| ==> results[k].exec < |started|
  {
    if results == [] then {}
    else ResultNames(started, results[..|results| - 1]) + {started[results[|results| - 1].exec].job.name}
  }

  ghost predicate Queued(results: seq<Outcome>, e: nat) {
    exists k :: 0 <= k < |results| && results[k].exec == e
  }

  lemma LastQueued(executing: map<string, nat>, started: seq<Info>, phases: seq<Phase>, results: seq<Outcome>)
    requires SingleFlight(executing, started, phases) && QueueOk(results, phases) && results != []
    ensures var init, e := results[..|results| - 1], results[|results| - 1].exec;
            && QueueOk(init, phases) && e < |started|
            && started[e].job.name in executing && executing[started[e].job.name] == e
            && !Queued(init, e) && Queued(results, e)
            && forall x: nat :: Queued(init, x) ==> Queued(results, x)
  {
    var init, e := results[..|results| - 1], results[|results| - 1].exec;
    assert phases[e] == Pushed;
    forall k | 0 <= k < |init| ensures init[k] == results[k] && init[k].exec != e {}
  }

  /** Queued results are of different jobs, all of them executing. */
  lemma {:induction false} ResultNamesDistinct(executing: map<string, nat>, started: seq<Info>, phases: seq<Phase>,
                                               results: seq<Outcome>)
    requires SingleFlight(executing, started, phases) && QueueOk(results, phases)
    ensures var names := ResultNames(started, results);
            |names| == |results| && forall n :: n in names ==> n in executing && Queued(results, executing[n])
  {
    if results != [] {
      LastQueued(executing, started, phases, results);
      ResultNamesDistinct(executing, started, phases, results[..|results| - 1]);
    }
  }

  lemma SmallerSet(a: set<string>, b: set<string>)
    requires a <= b
    ensures |a| <= |b|
  {
    assert b == a + (b - a);
  }

  lemma QueueLeavesRoom(executing: map<string, nat>, started: seq<Info>, phases: seq<Phase>, results: seq<Outcome>,
                        i: nat)
    requires SingleFlight(executing, started, phases) && QueueOk(results, phases)
    requires i < |phases| && phases[i].Pushing?
    ensures |results| < |executing|
  {
    var names, n := ResultNames(started, results), started[i].job.name;
    ResultNamesDistinct(executing, started, phases, results);
    assert n !in names;
    SmallerSet(names + {n}, executing.Keys);
    assert |executing.Keys| == |executing|;
  }

  lemma QueueWithinExecuting(executing: map<string, nat>, started: seq<Info>, phases: seq<Phase>, results: seq<Outcome>)
    requires SingleFlight(executing, started, phases) && QueueOk(results, phases)
    ensures |results| <= |executing|
  {
    ResultNamesDistinct(executing, started, phases, results);
    SmallerSet(ResultNames(started, results), executing.Keys);
    assert |executing.Keys| == |executing|;
  }

  lemma ReachableFlight(c: Config, w: Worker)
    requires LibraryLaw(c.cron) && Reachable(c, w)
    ensures FlightOk(c, w)
  {
    ReachableOk(c, w);
  }

  /** The result queue never holds more entries than there are executing jobs; so a result send
      cannot block while at most 1000 jobs are executing. */
  lemma ResultQueueBounded(c: Config, w: Worker, i: nat)
    requires LibraryLaw(c.cron) && Reachable(c, w)
    ensures |w.results| <= |w.t.executing|
    ensures i < |w.phases| && w.phases[i].Pushing? && |w.t.executing| <= CHANNEL_CAPACITY ==>
        Enabled(c, w, PushResult(i))
  {
    ReachableFlight(c, w);
    QueueWithinExecuting(w.t.executing, w.t.started, w.phases, w.results);
    if i < |w.phases| && w.phases[i].Pushing? {
      QueueLeavesRoom(w.t.executing, w.t.started, w.phases, w.results, i);
    }
  }

  // ---------------------------------------------------------------- instants

  /** Over whole runs, across re-saves, deletes and re-creations: of two starts of one job name
      the later has the later plan time if and only if its plan was not at the zero time, which
      NextTime.IsZero() tells before TryStartJob. So no cron instant is ever started twice. */
  lemma PlanTimesIncrease(c: Config, w: Worker, i: nat, j: nat)
    requires LibraryLaw(c.cron) && Reachable(c, w)
    requires i < j < |w.t.started| && w.t.started[i].job.name == w.t.started[j].job.name
    ensures w.t.started[i].planTime < w.t.started[j].planTime <==> w.t.started[j].planTime != ZERO_TIME
  {
    ReachableOk(c, w);
    assert Later(w.t.started[i].planTime, -1);
  }

  /** Whatever a worker does, a start of a job with this expression has a later plan time than
      every earlier start of its name. */
  ghost predicate NeverRepeats(c: Config, source: string) {
    forall w, i: nat, j: nat :: Reachable(c, w) && Restarts(w, i, j) && w.t.started[j].job.cronExpr == source ==>
      w.t.started[i].planTime < w.t.started[j].planTime
  }

  predicate Restarts(w: Worker, i: nat, j: nat) {
    i < j < |w.t.started| && w.t.started[i].job.name == w.t.started[j].job.name
  }

  /** There is always a further instant: the library never returns the zero time. */
  ghost predicate HasInstants(cron: Cron, source: string) {
    forall t :: t >= 0 ==> cron.next(source, t) > t
  }

  /** The condition on the expression, exactly: plan times of its job increase in every run if
      and only if it has an instant after every instant. */
  lemma PlanTimesIncreaseIffInstants(c: Config, source: string)
    requires LibraryLaw(c.cron) && c.cron.parses(source)
    ensures NeverRepeats(c, source) <==> HasInstants(c.cron, source)
  {
    if HasInstants(c.cron, source) {
      forall w, i: nat, j: nat | Reachable(c, w) && Restarts(w, i, j) && w.t.started[j].job.cronExpr == source
        ensures w.t.started[i].planTime < w.t.started[j].planTime
      {
        PlanTimesComeFromCron(c, w, j);
        PlanTimesIncrease(c, w, i, j);
      }
    } else {
      var t :| t >= 0 && c.cron.next(source, t) <= t;
      var job := Job("job", "command", source);
      var w := RepeatingRun(c, job, t);
      assert Restarts(w, 0, 1);
    }
  }

  /** Every start happened at or after its plan time, which the cron library returned for the
      job's own expression when asked at some earlier clock reading. */
  lemma PlanTimesComeFromCron(c: Config, w: Worker, i: nat)
    requires LibraryLaw(c.cron) && Reachable(c, w) && i < |w.t.started|
    ensures var info := w.t.started[i];
            && info.planTime <= info.realTime <= w.clock
            && exists asked :: 0 <= asked <= w.clock && c.cron.next(info.job.cronExpr, asked) == info.planTime
  {
    ReachableOk(c, w);
    assert FromCron(c.cron, w.t.started[i].job.cronExpr, w.t.started[i].planTime, w.clock);
  }

  /** One step of a run. */
  lemma Go(c: Config, w: Worker, step: WorkerStep) returns (w': Worker)
    requires Reachable(c, w) && Enabled(c, w, step)
    ensures Reachable(c, w') && w' == Next(c, w, step)
  {
    StepsReach(c, w, step);
    w' := Next(c, w, step);
  }

  /** A worker about to make a pass, with one job, at the zero time, that is not executing; all
      its starts were of this job and for the zero time. */
  ghost predicate OnlyDeadJob(w: Worker, job: Job, t: Time) {
    && w.loop == Scanning && w.clock == t && w.results == [] && |w.phases| == |w.t.started|
    && w.t.plans == map[job.name := Plan(job, Expression(job.cronExpr), ZERO_TIME)]
    && job.name !in w.t.executing
    && AllDead(w.t.started, job)
  }

  predicate AllDead(started: seq<Info>, job: Job) {
    forall i :: 0 <= i < |started| ==> started[i].job == job && started[i].planTime == ZERO_TIME
  }

  lemma SaveDeadJob(c: Config, job: Job, t: Time) returns (w: Worker)
    requires c.cron.parses(job.cronExpr) && t >= 0 && c.cron.next(job.cronExpr, t) == ZERO_TIME
    ensures Reachable(c, w) && OnlyDeadJob(w, job, t) && w.t.started == []
  {
    InitReachable(c, t);
    w := Go(c, Init(t), BeginPass);
    w := Go(c, w, PushEvent(JobEvent(JOB_EVENT_SAVE, job)));
    w := Go(c, w, TakeEvent);
  }

  /** The pass starts it. */
  lemma StartDeadJob(c: Config, w: Worker, job: Job, t: Time) returns (w': Worker)
    requires c.cron.next(job.cronExpr, t) == ZERO_TIME && t >= 0
    requires Reachable(c, w) && OnlyDeadJob(w, job, t)
    ensures Reachable(c, w') && w'.t.plans == w.t.plans && w'.results == [] && w'.clock == t
    ensures w'.loop == Passing(t, {}) && |w'.t.started| == |w.t.started| + 1 && AllDead(w'.t.started, job)
    ensures w'.phases == w.phases + [Spawned]
  {
    var n := job.name;
    assert n in w.t.plans;
    w' := Go(c, w, BeginPass);
    assert w'.loop == Passing(t, {n});
    w' := Go(c, w', VisitOne(n));
    assert w'.t.plans == w.t.plans;
  }

  /** The pass ends, and the lock is taken. */
  lemma LoseDeadJob(c: Config, w: Worker, job: Job, t: Time) returns (w': Worker)
    requires Reachable(c, w) && w.loop == Passing(t, {}) && w.clock == t && w.results == []
    requires |w.phases| == |w.t.started| > 0 && w.phases[|w.phases| - 1] == Spawned
    ensures var i := |w.phases| - 1;
            && Reachable(c, w') && w'.loop == Select && w'.clock == t && w'.t == w.t
            && w'.results == [Outcome(i, "", LockTaken, t, t)] && |w'.phases| == |w.phases|
  {
    var i := |w.phases| - 1;
    var d := DelayExists(w.t.plans, t);
    w' := Go(c, w, EndPass(d));
    w' := Go(c, w', Begin(i));
    w' := Go(c, w', LockFails(i, LockTaken));
    w' := Go(c, w', PushResult(i));
  }

  /** The result is handled, and the next pass is due. */
  lemma FinishDeadJob(c: Config, w: Worker, job: Job, t: Time) returns (w': Worker)
    requires Reachable(c, w) && w.loop == Passing(t, {}) && w.clock == t && w.results == []
    requires w.t.plans == map[job.name := Plan(job, Expression(job.cronExpr), ZERO_TIME)]
    requires |w.t.started| > 0 && AllDead(w.t.started, job)
    requires |w.phases| == |w.t.started| && w.phases[|w.phases| - 1] == Spawned
    ensures Reachable(c, w') && OnlyDeadJob(w', job, t) && w'.t.started == w.t.started
  {
    w' := LoseDeadJob(c, w, job, t);
    assert w'.results == [w'.results[0]];
    w' := Go(c, w', TakeResult);
  }

  /** The exception is real: if there is no instant after t, a run in which the clock shows t
      starts the job twice with the same plan time. */
  lemma RepeatingRun(c: Config, job: Job, t: Time) returns (w: Worker)
    requires LibraryLaw(c.cron) && c.cron.parses(job.cronExpr) && t >= 0 && c.cron.next(job.cronExpr, t) <= t
    ensures Reachable(c, w) && |w.t.started| == 2
    ensures w.t.started[0].planTime == w.t.started[1].planTime == ZERO_TIME
    ensures w.t.started[0].job == w.t.started[1].job == job
  {
    w := SaveDeadJob(c, job, t);
    w := StartDeadJob(c, w, job, t);
    w := FinishDeadJob(c, w, job, t);
    w := StartDeadJob(c, w, job, t);
  }

  /** At every select, all plans lie after the last pass (or have no instant left), and the timer
      was reset to exactly the delay to the earliest plan, one second for an empty table. */
  lemma TimerIsRight(c: Config, w: Worker)
    requires LibraryLaw(c.cron) && Reachable(c, w) && w.loop == Select
    ensures forall n :: n in w.t.plans ==> w.t.plans[n].nextTime > w.lastNow || w.t.plans[n].nextTime == ZERO_TIME
    ensures IsDelay(w.t.plans, w.lastNow, w.delay)
  {
    ReachableOk(c, w);
  }

  // ---------------------------------------------------------------- events

  /** The events that the watchers pushed in a run, in order. */
  ghost function Pushes(c: Config, w: Worker, steps: seq<WorkerStep>): seq<JobEvent> {
    if steps == [] then []
    else
      var last := steps[|steps| - 1];
      Pushes(c, w, steps[..|steps| - 1])
      + if last.PushEvent? && Enabled(c, Run(c, w, steps[..|steps| - 1]), last) then [last.ev] else []
  }

  lemma TakeKeepsEventOrder(history: seq<Entry>, events: seq<JobEvent>)
    requires events != []
    ensures Events(history + [Received(events[0])]) + events[1..] == Events(history) + events
  {
    EventsExtend(history, Received(events[0]));
  }

  lemma StepKeepsEventOrder(c: Config, w: Worker, step: WorkerStep)
    ensures var w' := Do(c, w, step);
            Events(w'.history) + w'.events ==
            Events(w.history) + w.events + if step.PushEvent? && Enabled(c, w, step) then [step.ev] else []
  {
    if Enabled(c, w, step) {
      match step
      case TakeEvent => TakeKeepsEventOrder(w.history, w.events);
      case TakeResult => EventsExtend(w.history, Ended(w.results[0], w.t.started[w.results[0].exec]));
      case VisitOne(_) => EventsExtend(w.history, Begun(|w.t.started|));
      case _ =>
    }
  }

  /** The scheduler handles the events in the order in which they were pushed; what it has not
      handled is in the channel. */
  lemma {:induction false} EventsHandledInOrder(c: Config, clock: Time, steps: seq<WorkerStep>)
    ensures var w := Run(c, Init(clock), steps); Events(w.history) + w.events == Pushes(c, Init(clock), steps)
  {
    if steps != [] {
      EventsHandledInOrder(c, clock, steps[..|steps| - 1]);
      StepKeepsEventOrder(c, Run(c, Init(clock), steps[..|steps| - 1]), steps[|steps| - 1]);
    }
  }

  /** The plan table maps a name to the job of its last parsable SAVE since its last DELETE, and
      to nothing if there is none, whatever else happened. */
  lemma TableFollowsEvents(c: Config, w: Worker, n: string, j: Job)
    requires LibraryLaw(c.cron) && Reachable(c, w)
    ensures n in w.t.plans && w.t.plans[n].job == j <==> LastDecisionSaves(c.cron, Events(w.history), n, j)
  {
    ReachableOk(c, w);
    TableIsLastSaveSinceDelete(c.cron, Events(w.history), n, j);
    assert n in w.t.plans ==> Jobs(w.t.plans)[n] == w.t.plans[n].job;
  }

  /** An execution runs the job of the last parsable SAVE of its name before it was started; in
      particular, after a DELETE nothing of that name starts until a later valid SAVE. */
  lemma StartsFollowEvents(c: Config, w: Worker, i: nat)
    requires LibraryLaw(c.cron) && Reachable(c, w) && i < |w.t.started|
    ensures i < |w.begunAt| && w.begunAt[i] < |w.history| && w.history[w.begunAt[i]] == Begun(i)
    ensures LastDecisionSaves(c.cron, Events(w.history[..w.begunAt[i]]), w.t.started[i].job.name, w.t.started[i].job)
  {
    ReachableOk(c, w);
    var before := w.history[..w.begunAt[i]];
    assert StartedFromTable(c, before, w.t.started[i]);
    TableIsLastSaveSinceDelete(c.cron, Events(before), w.t.started[i].job.name, w.t.started[i].job);
  }

  /** A kill reaches exactly the right run: an execution's cancel function has been called if and
      only if a KILL of its name was handled after its start and before its result was. */
  lemma KillsAreExact(c: Config, w: Worker, i: nat)
    requires LibraryLaw(c.cron) && Reachable(c, w) && i < |w.t.started|
    ensures i < |w.begunAt|
    ensures i in w.t.cancelled <==>
            exists k :: w.begunAt[i] < k < |w.history| && IsKill(w.history[k], w.t.started[i].job.name)
              && !EndedBefore(w.history, k, i)
  {
    ReachableOk(c, w);
    assert i in w.t.cancelled <==> KilledInFlight(w.history, w.begunAt[i], i, w.t.started[i].job.name);
  }

  // ---------------------------------------------------------------- accounting

  function ResultsHandled(history: seq<Entry>): nat {
    if history == [] then 0
    else ResultsHandled(history[..|history| - 1]) + if history[|history| - 1].Ended? then 1 else 0
  }

  function RacesLost(history: seq<Entry>): nat {
    if history == [] then 0
    else
      var e := history[|history| - 1];
      RacesLost(history[..|history| - 1]) + if e.Ended? && e.outcome.err == LockTaken then 1 else 0
  }

  function Dropped(attempts: seq<(JobLog, bool)>): nat {
    if attempts == [] then 0
    else Dropped(attempts[..|attempts| - 1]) + if attempts[|attempts| - 1].1 then 0 else 1
  }

  lemma {:induction false} LoggedOrLost(history: seq<Entry>)
    ensures ResultsHandled(history) == RacesLost(history) + |Logged(history)|
  {
    if history != [] {
      LoggedOrLost(history[..|history| - 1]);
    }
  }

  lemma {:induction false} AcceptedOrDropped(attempts: seq<(JobLog, bool)>)
    ensures |SinkModel.Tried(attempts)| == |SinkModel.Accepted(attempts)| + Dropped(attempts)
  {
    if attempts != [] {
      AcceptedOrDropped(attempts[..|attempts| - 1]);
    }
  }

  /** End to end: every result handled is a lost race for the lock, or a log that was dropped
      because the queue was full, or a log that has been handed to Mongo, is in the open batch or
      is queued; and Append was called once, in order, for each result of the other kinds. */
  lemma EveryResultAccountedFor(c: Config, w: Worker)
    requires LibraryLaw(c.cron) && Reachable(c, w)
    ensures SinkModel.Tried(w.sink.attempts) == Logged(w.history)
    ensures ResultsHandled(w.history) == RacesLost(w.history) + Dropped(w.sink.attempts)
              + |SinkModel.Flatten(w.sink.saved)| + |SinkModel.OpenLogs(w.sink)| + |w.sink.queue|
    ensures SinkModel.Flatten(w.sink.saved) + SinkModel.OpenLogs(w.sink) + w.sink.queue
        == SinkModel.Accepted(w.sink.attempts)
  {
    ReachableOk(c, w);
    LoggedOrLost(w.history);
    AcceptedOrDropped(w.sink.attempts);
  }

  predicate Ordered(log: JobLog) {
    log.planTime <= log.scheduleTime <= log.startTime <= log.endTime
  }

  lemma LogOrdered(info: Info, o: Outcome, clock: Time)
    requires info.planTime == ZERO_TIME || 0 <= info.planTime
    requires info.planTime <= info.realTime && 0 <= info.realTime && OutcomeTimes(info, o, clock) && clock <= MAX_INT64
    ensures Ordered(BuildLog(info, o))
  {
    MillisOrdered(info.planTime, info.realTime);
    MillisOrdered(info.realTime, o.startTime);
    MillisOrdered(o.startTime, o.endTime);
  }

  /** Entries of finished executions carry instants in order, none before the epoch but a plan
      at the zero time. */
  ghost predicate EntriesInOrder(history: seq<Entry>, clock: Time) {
    forall k :: 0 <= k < |history| && history[k].Ended? ==>
      var info := history[k].info;
      && (info.planTime == ZERO_TIME || 0 <= info.planTime) && 0 <= info.realTime
      && info.planTime <= info.realTime && OutcomeTimes(info, history[k].outcome, clock)
  }

  lemma InvEntriesInOrder(c: Config, w: Worker)
    requires WorkerModel.Inv(c, w)
    ensures EntriesInOrder(w.history, w.clock)
  {
  }

  lemma {:induction false} LoggedOrdered(history: seq<Entry>, clock: Time)
    requires EntriesInOrder(history, clock) && clock <= MAX_INT64
    ensures forall log :: log in Logged(history) ==> Ordered(log)
  {
    if history != [] {
      var e := history[|history| - 1];
      LoggedOrdered(history[..|history| - 1], clock);
      if e.Ended? {
        LogOrdered(e.info, e.outcome, clock);
      }
    }
  }

  /** Every log record has planTime <= scheduleTime <= startTime <= endTime, in milliseconds, on
      the success path, the failed-command path and the failed-lock path alike, while the clock
      is between 1970 and 2262; a plan at the zero time, whose UnixNano wraps, included. */
  lemma LogTimesOrdered(c: Config, w: Worker, log: JobLog)
    requires LibraryLaw(c.cron) && Reachable(c, w) && w.clock <= MAX_INT64
    requires log in SinkModel.Tried(w.sink.attempts)
    ensures log.planTime <= log.scheduleTime <= log.startTime <= log.endTime
  {
    ReachableOk(c, w);
    InvEntriesInOrder(c, w);
    LoggedOrdered(w.history, w.clock);
  }

  // ---------------------------------------------------------------- no deadlock

  predicate ByScheduler(step: WorkerStep) {
    step.TakeEvent? || step.TakeTimer? || step.TakeResult? || step.BeginPass? || step.VisitOne? || step.EndPass?
  }

  ghost predicate SchedulerOnly(steps: seq<WorkerStep>) {
    forall k :: 0 <= k < |steps| ==> ByScheduler(steps[k])
  }

  lemma {:induction false} RunConcat(c: Config, w: Worker, a: seq<WorkerStep>, b: seq<WorkerStep>)
    ensures Run(c, w, a + b) == Run(c, Run(c, w, a), b)
  {
    if b == [] {
      assert a + b == a;
    } else {
      assert (a + b)[..|a + b| - 1] == a + b[..|b| - 1];
      RunConcat(c, w, a, b[..|b| - 1]);
    }
  }

  lemma First(c: Config, w: Worker, step: WorkerStep, rest: seq<WorkerStep>)
    ensures Run(c, w, [step] + rest) == Run(c, Do(c, w, step), rest)
  {
    RunConcat(c, w, [step], rest);
    assert [step][..0] == [];
    assert Run(c, w, [step]) == Do(c, w, step);
  }

  /** Nobody who wants to send a result is disturbed. */
  ghost predicate SendersKept(w: Worker, w': Worker) {
    && |w.phases| <= |w'.phases|
    && forall i :: 0 <= i < |w.phases| && w.phases[i].Pushing? ==> w'.phases[i] == w.phases[i]
  }

  lemma VisitIsQuiet(c: Config, w: Worker, n: string)
    requires FlightOk(c, w) && w.loop.Passing? && n in w.loop.todo
    ensures var w' := Do(c, w, VisitOne(n));
            && FlightOk(c, w') && SendersKept(w, w') && w'.events == w.events && w'.results == w.results
            && w'.loop == Passing(w.loop.now, w.loop.todo - {n})
  {
    StepKeepsFlight(c, w, VisitOne(n));
  }

  lemma CloseThePass(c: Config, w: Worker) returns (steps: seq<WorkerStep>)
    requires FlightOk(c, w) && w.loop.Passing? && w.loop.todo == {}
    ensures SchedulerOnly(steps)
    ensures var w' := Run(c, w, steps);
            && w'.loop == Select && w'.events == w.events && w'.results == w.results && w'.t == w.t
            && FlightOk(c, w') && SendersKept(w, w')
  {
    var d := DelayExists(w.t.plans, w.loop.now);
    steps := [EndPass(d)] + [];
    First(c, w, EndPass(d), []);
    StepKeepsFlight(c, w, EndPass(d));
  }

  /** The scheduler can always finish its pass by itself: no handler blocks. */
  lemma {:induction false} FinishPass(c: Config, w: Worker) returns (steps: seq<WorkerStep>)
    requires FlightOk(c, w) && w.loop.Passing?
    ensures SchedulerOnly(steps)
    ensures var w' := Run(c, w, steps);
            && w'.loop == Select && w'.events == w.events && w'.results == w.results
            && FlightOk(c, w') && SendersKept(w, w')
    decreases w.loop.todo
  {
    if w.loop.todo == {} {
      steps := CloseThePass(c, w);
    } else {
      var n :| n in w.loop.todo;
      VisitIsQuiet(c, w, n);
      var rest := FinishPass(c, Do(c, w, VisitOne(n)));
      First(c, w, VisitOne(n), rest);
      steps := [VisitOne(n)] + rest;
    }
  }

  lemma ReachSelect(c: Config, w: Worker) returns (steps: seq<WorkerStep>)
    requires FlightOk(c, w)
    ensures SchedulerOnly(steps)
    ensures var w' := Run(c, w, steps);
            && w'.loop == Select && w'.events == w.events && w'.results == w.results
            && FlightOk(c, w') && SendersKept(w, w')
  {
    match w.loop
    case Select => steps := [];
    case Passing(_, _) => steps := FinishPass(c, w);
    case Scanning =>
      var w1 := Do(c, w, BeginPass);
      StepKeepsFlight(c, w, BeginPass);
      var rest: seq<WorkerStep> := [];
      if w1.loop.Passing? {
        rest := FinishPass(c, w1);
      }
      First(c, w, BeginPass, rest);
      steps := [BeginPass] + rest;
  }

  lemma TakeOne(c: Config, w: Worker) returns (step: WorkerStep)
    requires FlightOk(c, w) && w.loop == Select && (w.events != [] || w.results != [])
    ensures ByScheduler(step)
    ensures var w' := Do(c, w, step);
            FlightOk(c, w') && SendersKept(w, w') && |w'.events| + |w'.results| == |w.events| + |w.results| - 1
  {
    step := if w.events != [] then TakeEvent else TakeResult;
    StepKeepsFlight(c, w, step);
  }

  lemma Chain(c: Config, w: Worker, first: seq<WorkerStep>, step: WorkerStep, rest: seq<WorkerStep>)
    returns (steps: seq<WorkerStep>)
    requires SchedulerOnly(first) && ByScheduler(step) && SchedulerOnly(rest)
    ensures SchedulerOnly(steps) && Run(c, w, steps) == Run(c, Do(c, Run(c, w, first), step), rest)
  {
    First(c, Run(c, w, first), step, rest);
    RunConcat(c, w, first, [step] + rest);
    steps := first + ([step] + rest);
  }

  lemma {:induction false} Drain(c: Config, w: Worker) returns (steps: seq<WorkerStep>)
    requires FlightOk(c, w)
    ensures SchedulerOnly(steps)
    ensures var w' := Run(c, w, steps); w'.loop == Select && w'.events == [] && w'.results == [] && SendersKept(w, w')
    decreases |w.events| + |w.results|
  {
    var first := ReachSelect(c, w);
    var w1 := Run(c, w, first);
    if w1.events == [] && w1.results == [] {
      steps := first;
    } else {
      var step := TakeOne(c, w1);
      var rest := Drain(c, Do(c, w1, step));
      steps := Chain(c, w, first, step, rest);
    }
  }

  /** No deadlock among scheduler, executors and watchers: from every reachable state the
      scheduler alone can take everything out of both channels and return to its select, after
      which every sender that was blocked on a full channel can send. */
  lemma NoDeadlock(c: Config, w: Worker) returns (steps: seq<WorkerStep>)
    requires LibraryLaw(c.cron) && Reachable(c, w)
    ensures SchedulerOnly(steps)
    ensures var w' := Run(c, w, steps);
            && w'.loop == Select && w'.events == [] && w'.results == []
            && (forall ev :: Enabled(c, w', PushEvent(ev)))
            && forall i :: 0 <= i < |w.phases| && w.phases[i].Pushing? ==> Enabled(c, w', PushResult(i))
  {
    ReachableFlight(c, w);
    steps := Drain(c, w);
  }

  /** A watcher is blocked exactly when 1000 events are waiting, and an execution that has its result
      exactly when 1000 results are. */
  lemma SendBlocksIffFull(c: Config, w: Worker, ev: JobEvent, i: nat)
    requires LibraryLaw(c.cron) && Reachable(c, w)
    ensures !Enabled(c, w, PushEvent(ev)) <==> |w.events| == 1000
    ensures i < |w.phases| && w.phases[i].Pushing? ==> (!Enabled(c, w, PushResult(i)) <==> |w.results| == 1000)
  {
    ReachableFlight(c, w);
  }

  /** At its select the scheduler takes whatever is there: an event or a result whenever its channel
      holds one, whatever the other holds. */
  lemma SelectTakesAny(c: Config, w: Worker)
    requires LibraryLaw(c.cron) && Reachable(c, w) && w.loop == Select
    ensures Enabled(c, w, TakeEvent) <==> w.events != []
    ensures Enabled(c, w, TakeResult) <==> w.results != []
    ensures Enabled(c, w, TakeTimer)
  {
    ReachableFlight(c, w);
  }

  // ---------------------------------------------------------------- passes

  predicate Takes(step: WorkerStep) { step.TakeEvent? || step.TakeResult? || step.TakeTimer? }

  /** Between receiving a message, or a timer fire, and the next select there is a pass, whatever the
      other goroutines do meanwhile. */
  lemma {:induction false} PassAfterEveryMessage(c: Config, w: Worker, step: WorkerStep, steps: seq<WorkerStep>)
    requires Takes(step) && Enabled(c, w, step) && Run(c, Next(c, w, step), steps).loop == Select
    ensures exists k ::
              0 <= k < |steps| && steps[k] == BeginPass && Enabled(c, Run(c, Next(c, w, step), steps[..k]), BeginPass)
  {
    if NoPass(c, Next(c, w, step), steps) {
      StaysScanning(c, Next(c, w, step), steps);
    }
  }

  ghost predicate NoPass(c: Config, w: Worker, steps: seq<WorkerStep>) {
    forall k :: 0 <= k < |steps| && steps[k] == BeginPass ==> !Enabled(c, Run(c, w, steps[..k]), BeginPass)
  }

  lemma {:induction false} StaysScanning(c: Config, w: Worker, steps: seq<WorkerStep>)
    requires w.loop == Scanning && NoPass(c, w, steps)
    ensures Run(c, w, steps).loop == Scanning
  {
    if steps != [] {
      var init, last := steps[..|steps| - 1], steps[|steps| - 1];
      forall k | 0 <= k < |init| ensures init[k] == steps[k] && init[..k] == steps[..k] {}
      StaysScanning(c, w, init);
      assert steps[..|steps| - 1] == init;
    }
  }

  /** What is left of a pass starts every plan that is still due. */
  ghost predicate DueStarted(w: Worker, w': Worker, todo: set<string>, now: Time) {
    forall n :: n in todo && Due(w.t, now, n) ==> n in w'.t.executing
  }

  lemma VisitStartsDue(c: Config, w: Worker, n: string)
    requires FlightOk(c, w) && w.loop.Passing? && n in w.loop.todo
    ensures var w' := Do(c, w, VisitOne(n));
            && (Due(w.t, w.loop.now, n) ==> n in w'.t.executing)
            && w.t.executing.Keys <= w'.t.executing.Keys
            && forall m :: m != n && Due(w.t, w.loop.now, m) ==> Due(w'.t, w.loop.now, m)
  {
  }

  lemma {:induction false} PassStartsDue(c: Config, w: Worker) returns (steps: seq<WorkerStep>)
    requires FlightOk(c, w) && w.loop.Passing?
    ensures SchedulerOnly(steps)
    ensures var w' := Run(c, w, steps);
            && w'.loop == Select && w.t.executing.Keys <= w'.t.executing.Keys
            && DueStarted(w, w', w.loop.todo, w.loop.now)
    decreases w.loop.todo
  {
    if w.loop.todo == {} {
      steps := CloseThePass(c, w);
    } else {
      var n :| n in w.loop.todo;
      VisitIsQuiet(c, w, n);
      VisitStartsDue(c, w, n);
      var rest := PassStartsDue(c, Do(c, w, VisitOne(n)));
      First(c, w, VisitOne(n), rest);
      steps := [VisitOne(n)] + rest;
    }
  }

  /** At its select a timer fire is enough: with no message at all, the scheduler alone then brings
      every job that is due into execution. */
  lemma TimerStartsDueJobs(c: Config, w: Worker) returns (steps: seq<WorkerStep>)
    requires LibraryLaw(c.cron) && Reachable(c, w) && w.loop == Select
    ensures SchedulerOnly(steps)
    ensures forall n :: Due(w.t, w.clock, n) ==> n in Run(c, w, [TakeTimer] + steps).t.executing
  {
    ReachableFlight(c, w);
    var w1 := Do(c, w, TakeTimer);
    var w2 := Do(c, w1, BeginPass);
    StepKeepsFlight(c, w, TakeTimer);
    StepKeepsFlight(c, w1, BeginPass);
    var rest: seq<WorkerStep> := [];
    if w2.loop.Passing? {
      rest := PassStartsDue(c, w2);
    }
    First(c, w1, BeginPass, rest);
    steps := [BeginPass] + rest;
    First(c, w, TakeTimer, steps);
  }
}
