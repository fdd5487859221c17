/**
  The scheduler on the heap: plan objects are updated in place while the plan table is iterated
  in an arbitrary order, the minimum is tracked through a pointer into one of them, and each
  execution's info object carries its own cancellation. Every handler is shown to do to the
  tables exactly what the functions of SchedulerTables say.
*/
module Schedulers {
  import opened GoTime
  import opened Clocks
  import opened Protocol
  import opened SchedulerTables
  import opened SinkModel
  import opened LogSinks

  class JobSchedulePlan {
    const job: Job
    const expr: Expression
    var nextTime: Time

    constructor (plan: Plan)
      ensures View() == plan
    {
      job, expr, nextTime := plan.job, plan.expr, plan.nextTime;
    }

    function View(): Plan
      reads this
    {
      Plan(job, expr, nextTime)
    }
  }

  class JobExecuteInfo {
    const info: Info
    var cancelled: bool      // CancelCtx is done
    ghost const id: nat

    constructor (info: Info, ghost id: nat)
      ensures this.info == info && this.id == id && !cancelled
    {
      this.info, this.id := info, id;
      cancelled := false;
    }

    method CancelFunc()
      modifies this
      ensures cancelled
    {
      cancelled := true;
    }
  }

  /** What the loop received at its select. */
  datatype Message =
    | EventReceived(ev: JobEvent)
    | TimerFired
    | ResultReceived(outcome: Outcome)

  /** What the loop did: handled an event, handled a result, or made a pass that ended at `end`. */
  datatype LoopOp =
    | Handled(ev: JobEvent, at: Time)
    | Cleared(outcome: Outcome)
    | Passed(now: Time, visits: seq<Visit>, end: Time)

  /** The two tables and the log sink, as values. */
  datatype LoopState = LoopState(t: Tables, sink: Sink)

  ghost function Perform(cron: Cron, st: LoopState, op: LoopOp): LoopState {
    match op
    case Handled(ev, at) => st.(t := OnEvent(cron, st.t, ev, at))
    case Cleared(outcome) => if outcome.exec < |st.t.started| then OnOutcome(st, outcome) else st
    case Passed(now, visits, _) => st.(t := VisitAll(cron, st.t, now, visits))
  }

  /** A result frees its name, and is logged unless the lock was taken. */
  function OnOutcome(st: LoopState, outcome: Outcome): LoopState
    requires outcome.exec < |st.t.started|
  {
    LoopState(OnResult(st.t, outcome.exec),
              if outcome.err == LockTaken then st.sink
              else AppendLog(st.sink, BuildLog(st.t.started[outcome.exec], outcome)))
  }

  ghost function PerformAll(cron: Cron, st: LoopState, ops: seq<LoopOp>): LoopState {
    if ops == [] then st else Perform(cron, PerformAll(cron, st, ops[..|ops| - 1]), ops[|ops| - 1])
  }

  /** The latest instant the operations mention, none being earlier than `from`. */
  function Latest(ops: seq<LoopOp>, from: Time): Time {
    if ops == [] then from
    else
      match ops[|ops| - 1]
      case Handled(_, at) => at
      case Cleared(_) => Latest(ops[..|ops| - 1], from)
      case Passed(_, _, end) => end
  }

  /** An operation the loop may do next: instants do not go back, and a pass visits every plan
      of its table once. */
  ghost predicate Fitting(t: Tables, latest: Time, op: LoopOp) {
    match op
    case Handled(_, at) => latest <= at
    case Cleared(_) => true
    case Passed(now, visits, end) => latest <= now && Iteration(t, visits) && Within(visits, now, end)
  }

  ghost predicate AllFitting(cron: Cron, st: LoopState, from: Time, ops: seq<LoopOp>) {
    ops == [] || (
      && AllFitting(cron, st, from, ops[..|ops| - 1])
      && Fitting(PerformAll(cron, st, ops[..|ops| - 1]).t, Latest(ops[..|ops| - 1], from), ops[|ops| - 1]))
  }

  /** These operations lead from st, at `from`, to st', not after `now`. */
  ghost predicate Did(cron: Cron, st: LoopState, from: Time, ops: seq<LoopOp>, st': LoopState, now: Time) {
    && AllFitting(cron, st, from, ops) && Latest(ops, from) <= now
    && st' == PerformAll(cron, st, ops)
  }

  lemma OneMoreOp(cron: Cron, st: LoopState, from: Time, ops: seq<LoopOp>, mid: LoopState, now: Time, op: LoopOp)
    requires Did(cron, st, from, ops, mid, now) && Fitting(mid.t, now, op)
    ensures Did(cron, st, from, ops + [op], Perform(cron, mid, op), if op.Cleared? then now else Latest([op], now))
  {
    assert (ops + [op])[..|ops|] == ops;
  }

  /** An event or result is handled by its own operation; a timer fire needs none. */
  predicate Handles(op: LoopOp, message: Message) {
    match message
    case EventReceived(ev) => op.Handled? && op.ev == ev
    case TimerFired => false
    case ResultReceived(outcome) => op == Cleared(outcome)
  }

  /** The initial pass, then for every message in order: its handling, and one pass. */
  predicate Answers(messages: seq<Message>, ops: seq<LoopOp>)
    decreases |messages|
  {
    && ops != [] && ops[|ops| - 1].Passed?
    && if messages == [] then |ops| == 1
       else
         var rest, last := messages[..|messages| - 1], messages[|messages| - 1];
         if last.TimerFired? then Answers(rest, ops[..|ops| - 1])
         else |ops| >= 2 && Handles(ops[|ops| - 2], last) && Answers(rest, ops[..|ops| - 2])
  }

  lemma OneMoreAnswer(messages: seq<Message>, k: nat, ops: seq<LoopOp>, handling: seq<LoopOp>, pass: LoopOp)
    requires k < |messages| && Answers(messages[..k], ops) && pass.Passed?
    requires if messages[k].TimerFired? then handling == [] else |handling| == 1 && Handles(handling[0], messages[k])
    ensures Answers(messages[..k + 1], ops + handling + [pass])
  {
    var longer := ops + handling + [pass];
    assert messages[..k + 1][..k] == messages[..k];
    assert longer[..|ops|] == ops;
  }

  class Scheduler {
    const cron: Cron
    var jobPlanTable: map<string, JobSchedulePlan>
    var jobExecutingTable: map<string, JobExecuteInfo>
    var spawned: seq<JobExecuteInfo>   // what was handed to Executor.ExecuteJob, in order
    ghost var Repr: set<object>

    ghost predicate Valid()
      reads this, Repr
      ensures Valid() ==> this in Repr
    {
      && this in Repr
      && (forall n :: n in jobPlanTable ==> jobPlanTable[n] in Repr && jobPlanTable[n].job.name == n)
      && (forall i :: 0 <= i < |spawned| ==> spawned[i] in Repr && spawned[i].id == i)
      && (forall n :: n in jobExecutingTable ==>
            jobExecutingTable[n].id < |spawned| && spawned[jobExecutingTable[n].id] == jobExecutingTable[n])
    }

    ghost function Plans(): map<string, Plan>
      reads this, jobPlanTable.Values
    {
      map n | n in jobPlanTable :: jobPlanTable[n].View()
    }

    ghost function Executing(): map<string, nat>
      reads this
    {
      map n | n in jobExecutingTable :: jobExecutingTable[n].id
    }

    ghost function Cancelled(): set<nat>
      reads this, spawned
    {
      set i: nat | i < |spawned| && spawned[i].cancelled
    }

    ghost function Started(): (infos: seq<Info>)
      reads this
      ensures |infos| == |spawned| && forall i :: 0 <= i < |infos| ==> infos[i] == spawned[i].info
    {
      var all := spawned;
      seq(|all|, i requires 0 <= i < |all| => all[i].info)
    }

    ghost function Abs(): Tables
      requires Valid()
      reads this, Repr
    {
      Tables(Plans(), Executing(), Cancelled(), Started())
    }

    constructor (cron: Cron)
      ensures Valid() && fresh(Repr) && this.cron == cron && Abs() == NO_JOBS
    {
      this.cron := cron;
      jobPlanTable, jobExecutingTable, spawned := map[], map[], [];
      Repr := {this};
    }

    method SetPlan(name: string, plan: Plan)
      requires Valid() && plan.job.name == name
      modifies this`jobPlanTable, this`Repr
      ensures Valid() && fresh(Repr - old(Repr)) && old(Repr) <= Repr
      ensures Abs() == old(Abs()).(plans := old(Abs()).plans[name := plan])
      ensures name in jobPlanTable && jobPlanTable[name].View() == plan
    {
      var jobSchedulePlan := new JobSchedulePlan(plan);
      jobPlanTable := jobPlanTable[name := jobSchedulePlan];
      Repr := Repr + {jobSchedulePlan};
      assert Plans() == old(Plans())[name := plan];
    }

    method Cancel(jobExecuteInfo: JobExecuteInfo)
      requires Valid() && jobExecuteInfo.id < |spawned| && spawned[jobExecuteInfo.id] == jobExecuteInfo
      modifies jobExecuteInfo
      ensures Valid()
      ensures Abs() == old(Abs()).(cancelled := old(Abs()).cancelled + {jobExecuteInfo.id})
    {
      jobExecuteInfo.CancelFunc();
      assert Plans() == old(Plans());
      assert Cancelled() == old(Cancelled()) + {jobExecuteInfo.id};
    }

    method HandleJobEvent(jobEvent: JobEvent, clock: Clock) returns (ghost at: Time)
      requires Valid() && clock !in Repr
      modifies Repr, clock
      ensures Valid() && fresh(Repr - old(Repr))
      ensures old(clock.now) <= at <= clock.now
      ensures Abs() == OnEvent(cron, old(Abs()), jobEvent, at)
    {
      at := clock.now;
      if jobEvent.eventType == JOB_EVENT_SAVE {
        var now := clock.Now();
        at := now;
        var built := BuildJobSchedulePlan(cron, jobEvent.job, now);
        if built.Some? {
          SetPlan(jobEvent.job.name, built.value);
        }
      } else if jobEvent.eventType == JOB_EVENT_DELETE {
        if jobEvent.job.name in jobPlanTable {
          jobPlanTable := jobPlanTable - {jobEvent.job.name};
        }
        assert Plans() == old(Plans()) - {jobEvent.job.name};
      } else if jobEvent.eventType == JOB_EVENT_KILL {
        if jobEvent.job.name in jobExecutingTable {
          Cancel(jobExecutingTable[jobEvent.job.name]);
        }
      }
    }

    /** Put a new execution into the table and hand it to the executor. */
    method Spawn(info: Info)
      requires Valid()
      modifies this`jobExecutingTable, this`spawned, this`Repr
      ensures Valid() && fresh(Repr - old(Repr)) && old(Repr) <= Repr
      ensures Abs() == old(Abs()).(executing := old(Abs()).executing[info.job.name := |old(Abs()).started|],
                                   started := old(Abs()).started + [info])
      ensures |spawned| == |old(spawned)| + 1 && spawned[|old(spawned)|].info == info
      ensures info.job.name in jobExecutingTable && jobExecutingTable[info.job.name] == spawned[|old(spawned)|]
    {
      var jobExecuteInfo := new JobExecuteInfo(info, |spawned|);
      jobExecutingTable := jobExecutingTable[info.job.name := jobExecuteInfo];
      spawned := spawned + [jobExecuteInfo];
      Repr := Repr + {jobExecuteInfo};
      assert Executing() == old(Executing())[info.job.name := |old(spawned)|];
      assert Cancelled() == old(Cancelled());
      assert Started() == old(Started()) + [info];
    }

    method TryStartJob(jobPlan: JobSchedulePlan, clock: Clock) returns (ghost at: Time)
      requires Valid() && clock !in Repr
      modifies this`jobExecutingTable, this`spawned, this`Repr, clock
      ensures Valid() && fresh(Repr - old(Repr)) && old(Repr) <= Repr
      ensures old(clock.now) <= at <= clock.now
      ensures Abs() == TryStart(old(Abs()), jobPlan.View(), at)
      ensures jobPlan.job.name in old(jobExecutingTable) ==> spawned == old(spawned)
      ensures jobPlan.job.name !in old(jobExecutingTable) ==>
                && |spawned| == |old(spawned)| + 1 && jobPlan.job.name in jobExecutingTable
                && jobExecutingTable[jobPlan.job.name] == spawned[|old(spawned)|]
                && spawned[|old(spawned)|].info.job == jobPlan.job
                && spawned[|old(spawned)|].info.planTime == jobPlan.nextTime
                && spawned[|old(spawned)|].info.realTime == at
    {
      at := clock.now;
      if jobPlan.job.name in jobExecutingTable {
        return;
      }
      var now := clock.Now();
      at := now;
      Spawn(BuildJobExecuteInfo(jobPlan.View(), now));
    }

    /** Update one plan in place: it is filed under one key only, because its job has one name. */
    method Reschedule(jobPlan: JobSchedulePlan, ghost n: string, next: Time)
      requires Valid() && n in jobPlanTable && jobPlanTable[n] == jobPlan
      modifies jobPlan
      ensures Valid() && jobPlan.nextTime == next
      ensures Abs() == old(Abs()).(plans := old(Abs()).plans[n := old(jobPlan.View()).(nextTime := next)])
    {
      jobPlan.nextTime := next;
      assert Plans() == old(Plans())[n := old(jobPlan.View()).(nextTime := next)];
      assert Cancelled() == old(Cancelled());
    }

    /** The loop body of TrySchedule. */
    method VisitOne(jobPlan: JobSchedulePlan, ghost n: string, now: Time, clock: Clock) returns (ghost at: Time)
      requires Valid() && clock !in Repr && n in jobPlanTable && jobPlanTable[n] == jobPlan
      modifies this`jobExecutingTable, this`spawned, this`Repr, clock, jobPlan
      ensures Valid() && fresh(Repr - old(Repr)) && old(Repr) <= Repr
      ensures old(clock.now) <= at <= clock.now
      ensures Abs() == VisitPlan(cron, old(Abs()), now, n, at)
      ensures jobPlan.nextTime == if old(jobPlan.nextTime) <= now then cron.next(jobPlan.expr.source, now)
                                  else old(jobPlan.nextTime)
    {
      at := clock.now;
      if jobPlan.nextTime < now || jobPlan.nextTime == now {
        at := TryStartJob(jobPlan, clock);
        Reschedule(jobPlan, n, cron.next(jobPlan.expr.source, now));
      }
    }

    /** The plans of the names in done are not earlier than nearTime, which is one of them. */
    ghost predicate IsNearest(nearTime: JobSchedulePlan?, done: set<string>)
      requires done <= jobPlanTable.Keys
      reads this, jobPlanTable.Values
    {
      && (nearTime == null <==> done == {})
      && (nearTime != null ==>
            && (exists n :: n in done && jobPlanTable[n] == nearTime)
            && forall n :: n in done ==> nearTime.nextTime <= jobPlanTable[n].nextTime)
    }

    lemma NearestGivesDelay(nearTime: JobSchedulePlan, now: Time)
      requires Valid() && jobPlanTable != map[] && IsNearest(nearTime, jobPlanTable.Keys)
      ensures IsDelay(Abs().plans, now, Sub(nearTime.nextTime, now))
    {
      var n :| n in jobPlanTable && jobPlanTable[n] == nearTime;
      assert Abs().plans[n].nextTime == nearTime.nextTime;
      assert Abs().plans.Keys == jobPlanTable.Keys;
    }

    /** Another plan enters the comparison; the pointer moves if that plan is earlier. */
    method Compare(nearTime: JobSchedulePlan?, jobPlan: JobSchedulePlan, ghost done: set<string>, ghost n: string)
      returns (nearer: JobSchedulePlan)
      requires done <= jobPlanTable.Keys && IsNearest(nearTime, done)
      requires n in jobPlanTable && jobPlanTable[n] == jobPlan
      ensures IsNearest(nearer, done + {n})
    {
      nearer := jobPlan;
      if nearTime != null && !(jobPlan.nextTime < nearTime.nextTime) {
        nearer := nearTime;
      }
    }

    /** The loop body: visit the plan, then compare it with the nearest so far. */
    method VisitAndCompare(n: string, start: Time, clock: Clock, nearTime: JobSchedulePlan?, ghost done: set<string>)
      returns (nearer: JobSchedulePlan, ghost at: Time)
      requires Valid() && clock !in Repr && n in jobPlanTable && n !in done
      requires done <= jobPlanTable.Keys && IsNearest(nearTime, done)
      modifies Repr, clock
      ensures Valid() && fresh(Repr - old(Repr)) && jobPlanTable == old(jobPlanTable)
      ensures old(clock.now) <= at <= clock.now
      ensures Abs() == VisitPlan(cron, old(Abs()), start, n, at)
      ensures IsNearest(nearer, done + {n})
    {
      var jobPlan := jobPlanTable[n];
      at := VisitOne(jobPlan, n, start, clock);
      nearer := Compare(nearTime, jobPlan, done, n);
    }

    method Turn(n: string, start: Time, clock: Clock, nearTime: JobSchedulePlan?, ghost before: Tables,
                ghost visits: seq<Visit>)
      returns (nearer: JobSchedulePlan, ghost more: seq<Visit>)
      requires Valid() && clock !in Repr && n in jobPlanTable && n in before.plans && n !in Names(visits)
      requires Underway(cron, before, start, clock.now, visits, Abs())
      requires Names(visits) <= jobPlanTable.Keys && IsNearest(nearTime, Names(visits))
      modifies Repr, clock
      ensures Valid() && fresh(Repr - old(Repr)) && clock !in Repr
      ensures jobPlanTable == old(jobPlanTable) && old(clock.now) <= clock.now
      ensures Names(more) == Names(visits) + {n}
      ensures Underway(cron, before, start, clock.now, more, Abs())
      ensures IsNearest(nearer, Names(more))
    {
      ghost var at;
      nearer, at := VisitAndCompare(n, start, clock, nearTime, Names(visits));
      more := visits + [Visit(n, at)];
      OneMoreVisit(cron, before, start, old(clock.now), clock.now, visits, Visit(n, at), old(Abs()));
    }

    /** The loop of TrySchedule: it visits every plan once, in whatever order the map yields. */
    method Scan(start: Time, clock: Clock)
      returns (nearTime: JobSchedulePlan?, ghost visits: seq<Visit>)
      requires Valid() && start <= clock.now && clock !in Repr
      modifies Repr, clock
      ensures Valid() && fresh(Repr - old(Repr)) && old(clock.now) <= clock.now
      ensures jobPlanTable == old(jobPlanTable) && IsNearest(nearTime, jobPlanTable.Keys)
      ensures FullPass(cron, old(Abs()), start, clock.now, visits, Abs())
    {
      nearTime, visits := null, [];
      var todo := jobPlanTable.Keys;
      ghost var before := Abs();
      while todo != {}
        invariant Valid() && fresh(Repr - old(Repr)) && clock !in Repr && old(clock.now) <= clock.now
        invariant jobPlanTable == old(jobPlanTable)
        invariant todo <= jobPlanTable.Keys && Names(visits) == jobPlanTable.Keys - todo
        invariant Underway(cron, before, start, clock.now, visits, Abs())
        invariant IsNearest(nearTime, Names(visits))
        decreases todo
      {
        var n :| n in todo;
        nearTime, visits := Turn(n, start, clock, nearTime, before, visits);
        todo := todo - {n};
      }
      assert Names(visits) == jobPlanTable.Keys;
      assert before.plans.Keys == jobPlanTable.Keys;
      CompletedPass(cron, before, start, clock.now, visits, Abs());
    }

    /** A pass: tables, visits and clock as the functions of SchedulerTables have them, and the
        delay to the earliest plan of the updated table. */
    method TrySchedule(clock: Clock) returns (scheduleAfter: Duration, ghost now: Time, ghost visits: seq<Visit>)
      requires Valid() && clock !in Repr
      modifies Repr, clock
      ensures Valid() && fresh(Repr - old(Repr))
      ensures FullPass(cron, old(Abs()), now, clock.now, visits, Abs()) && old(clock.now) <= now
      ensures IsDelay(Abs().plans, now, scheduleAfter)
    {
      if |jobPlanTable| == 0 {
        assert Abs().plans == map[];
        EmptyPass(cron, Abs(), clock.now);
        return SECOND, clock.now, [];
      }
      var start := clock.Now();
      assert Abs() == old(Abs());
      var nearTime;
      nearTime, visits := Scan(start, clock);
      now := start;
      NearestGivesDelay(nearTime, start);
      scheduleAfter := Sub(nearTime.nextTime, start);
    }

    method Clear(jobExecuteInfo: JobExecuteInfo)
      requires Valid() && jobExecuteInfo.id < |spawned| && spawned[jobExecuteInfo.id] == jobExecuteInfo
      modifies this`jobExecutingTable
      ensures Valid() && Abs() == OnResult(old(Abs()), jobExecuteInfo.id)
      ensures jobExecutingTable == old(jobExecutingTable) - {jobExecuteInfo.info.job.name}
    {
      jobExecutingTable := jobExecutingTable - {jobExecuteInfo.info.job.name};
      assert Executing() == old(Executing()) - {jobExecuteInfo.info.job.name};
      assert Plans() == old(Plans());
    }

    /** Free the name for the next start, and log everything but a lost race for the lock. */
    method HandleJobResult(jobExecuteInfo: JobExecuteInfo, outcome: Outcome, logSink: LogSink)
      requires Valid() && logSink.Valid() && Repr !! logSink.Repr
      requires outcome.exec < |spawned| && spawned[outcome.exec] == jobExecuteInfo
      modifies this`jobExecutingTable, logSink`logChan, logSink`attempts
      ensures Valid() && logSink.Valid() && logSink.Repr == old(logSink.Repr)
      ensures Abs() == OnResult(old(Abs()), outcome.exec)
      ensures logSink.Abs() == if outcome.err == LockTaken then old(logSink.Abs())
                               else AppendLog(old(logSink.Abs()), BuildLog(jobExecuteInfo.info, outcome))
      ensures jobExecutingTable == old(jobExecutingTable) - {jobExecuteInfo.info.job.name}
      ensures outcome.err == LockTaken ==>
                logSink.logChan == old(logSink.logChan) && logSink.attempts == old(logSink.attempts)
      ensures outcome.err != LockTaken ==>
                exists log :: RecordOf(log, jobExecuteInfo.info, outcome)
                  && logSink.attempts == old(logSink.attempts) + [(log, |old(logSink.logChan)| < 1000)]
                  && logSink.logChan == old(logSink.logChan) + if |old(logSink.logChan)| < 1000 then [log] else []
    {
      LogIsRecord(jobExecuteInfo.info, outcome);
      Clear(jobExecuteInfo);
      if outcome.err != LockTaken {
        logSink.Append(BuildLog(jobExecuteInfo.info, outcome));
      }
    }

    ghost function State(logSink: LogSink): LoopState
      requires Valid() && logSink.Valid()
      reads this, Repr, logSink, logSink.Repr
    {
      LoopState(Abs(), logSink.Abs())
    }

    /** A result of an execution that was never started cannot arrive, and would do nothing. */
    method HandleMessage(message: Message, clock: Clock, logSink: LogSink) returns (ghost handling: seq<LoopOp>)
      requires Valid() && logSink.Valid() && Repr !! logSink.Repr && clock !in Repr && clock !in logSink.Repr
      modifies Repr, clock, logSink
      ensures Valid() && logSink.Valid() && fresh(Repr - old(Repr)) && logSink.Repr == old(logSink.Repr)
      ensures old(clock.now) <= clock.now
      ensures if message.TimerFired? then handling == [] else |handling| == 1 && Handles(handling[0], message)
      ensures handling == [] ==> State(logSink) == old(State(logSink))
      ensures handling != [] ==> State(logSink) == Perform(cron, old(State(logSink)), handling[0])
      ensures handling != [] && handling[0].Handled? ==> old(clock.now) <= handling[0].at <= clock.now
    {
      handling := [];
      match message
      case EventReceived(ev) =>
        ghost var at := HandleJobEvent(ev, clock);
        handling := [Handled(ev, at)];
      case TimerFired =>
      case ResultReceived(outcome) =>
        if outcome.exec < |spawned| {
          HandleJobResult(spawned[outcome.exec], outcome, logSink);
        }
        handling := [Cleared(outcome)];
    }

    method HandleAndRecord(message: Message, clock: Clock, logSink: LogSink,
                           ghost start: LoopState, ghost from: Time, ghost ops: seq<LoopOp>)
      returns (ghost handling: seq<LoopOp>)
      requires Valid() && logSink.Valid() && Repr !! logSink.Repr && clock !in Repr && clock !in logSink.Repr
      requires Did(cron, start, from, ops, State(logSink), clock.now)
      modifies Repr, clock, logSink
      ensures Valid() && logSink.Valid() && fresh(Repr - old(Repr)) && logSink.Repr == old(logSink.Repr)
      ensures if message.TimerFired? then handling == [] else |handling| == 1 && Handles(handling[0], message)
      ensures Did(cron, start, from, ops + handling, State(logSink), clock.now)
    {
      handling := HandleMessage(message, clock, logSink);
      if handling == [] {
        assert ops + handling == ops;
      } else {
        OneMoreOp(cron, start, from, ops, old(State(logSink)), old(clock.now), handling[0]);
        assert handling == [handling[0]];
      }
    }

    method PassAndRecord(clock: Clock, logSink: LogSink, ghost start: LoopState, ghost from: Time,
                         ghost ops: seq<LoopOp>)
      returns (scheduleAfter: Duration, ghost pass: LoopOp)
      requires Valid() && logSink.Valid() && Repr !! logSink.Repr && clock !in Repr && clock !in logSink.Repr
      requires Did(cron, start, from, ops, State(logSink), clock.now)
      modifies Repr, clock
      ensures Valid() && logSink.Valid() && fresh(Repr - old(Repr))
      ensures pass.Passed? && Did(cron, start, from, ops + [pass], State(logSink), clock.now)
      ensures IsDelay(Abs().plans, pass.now, scheduleAfter)
    {
      ghost var now, visits;
      scheduleAfter, now, visits := TrySchedule(clock);
      pass := Passed(now, visits, clock.now);
      OneMoreOp(cron, start, from, ops, old(State(logSink)), old(clock.now), pass);
    }

    /** One turn of the select loop: handle what was received, then always make a pass. */
    method Iterate(messages: seq<Message>, k: nat, clock: Clock, logSink: LogSink,
                   ghost start: LoopState, ghost from: Time, ghost ops: seq<LoopOp>)
      returns (scheduleAfter: Duration, ghost more: seq<LoopOp>)
      requires Valid() && logSink.Valid() && Repr !! logSink.Repr && clock !in Repr && clock !in logSink.Repr
      requires k < |messages| && Answers(messages[..k], ops)
      requires Did(cron, start, from, ops, State(logSink), clock.now)
      modifies Repr, clock, logSink
      ensures Valid() && logSink.Valid() && fresh(Repr - old(Repr)) && logSink.Repr == old(logSink.Repr)
      ensures Answers(messages[..k + 1], more)
      ensures Did(cron, start, from, more, State(logSink), clock.now)
      ensures IsDelay(Abs().plans, more[|more| - 1].now, scheduleAfter)
    {
      ghost var handling, pass;
      handling := HandleAndRecord(messages[k], clock, logSink, start, from, ops);
      scheduleAfter, pass := PassAndRecord(clock, logSink, start, from, ops + handling);
      OneMoreAnswer(messages, k, ops, handling, pass);
      more := ops + handling + [pass];
    }

    /** scheduleLoop for any messages in any order: a first pass; then each message is handled, in
        order and once, and followed by exactly one pass over all plans; tables and log sink are
        what these operations make of them; and the timer is re-armed with exactly the delay from
        the last pass to the earliest plan. */
    method ScheduleLoop(messages: seq<Message>, clock: Clock, logSink: LogSink)
      returns (scheduleAfter: Duration, ghost ops: seq<LoopOp>)
      requires Valid() && logSink.Valid() && Repr !! logSink.Repr && clock !in Repr && clock !in logSink.Repr
      modifies Repr, clock, logSink
      ensures Valid() && logSink.Valid() && fresh(Repr - old(Repr))
      ensures Answers(messages, ops)
      ensures Did(cron, old(State(logSink)), old(clock.now), ops, State(logSink), clock.now)
      ensures IsDelay(Abs().plans, ops[|ops| - 1].now, scheduleAfter)
    {
      ghost var start, from := State(logSink), clock.now;
      ghost var pass;
      scheduleAfter, pass := PassAndRecord(clock, logSink, start, from, []);
      ops := [] + [pass];
      for k := 0 to |messages|
        invariant Valid() && logSink.Valid() && fresh(Repr - old(Repr))
        invariant Repr !! logSink.Repr && logSink.Repr == old(logSink.Repr) && clock !in Repr
        invariant Answers(messages[..k], ops)
        invariant Did(cron, start, from, ops, State(logSink), clock.now)
        invariant IsDelay(Abs().plans, ops[|ops| - 1].now, scheduleAfter)
      {
        scheduleAfter, ops := Iterate(messages, k, clock, logSink, start, from, ops);
      }
      assert messages[..|messages|] == messages;
    }
  }
}
