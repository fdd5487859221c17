/**
  The scheduler's two tables and what its handlers do to them, as functions on values.
  Executions are named by the order in which they were started.
*/
module SchedulerTables {
  import opened GoTime
  import opened Protocol

  datatype Tables = Tables(
    plans: map<string, Plan>,       // jobPlanTable
    executing: map<string, nat>,    // jobExecutingTable
    cancelled: set<nat>,            // executions whose CancelFunc was called
    started: seq<Info>)             // every execution ever started

  const NO_JOBS := Tables(map[], map[], {}, [])

  function OnEvent(cron: Cron, t: Tables, ev: JobEvent, now: Time): Tables {
    if ev.eventType == JOB_EVENT_SAVE then
      match BuildJobSchedulePlan(cron, ev.job, now)
      case None => t
      case Some(plan) => t.(plans := t.plans[ev.job.name := plan])
    else if ev.eventType == JOB_EVENT_DELETE then
      t.(plans := t.plans - {ev.job.name})
    else if ev.eventType == JOB_EVENT_KILL then
      if ev.job.name in t.executing then t.(cancelled := t.cancelled + {t.executing[ev.job.name]}) else t
    else t
  }

  /** TryStartJob: nothing if the job is still executing. */
  function TryStart(t: Tables, plan: Plan, at: Time): Tables {
    if plan.job.name in t.executing then t
    else t.(executing := t.executing[plan.job.name := |t.started|],
            started := t.started + [BuildJobExecuteInfo(plan, at)])
  }

  /** One turn of the loop in TrySchedule: the plan under key n, in a pass that began at `now`;
      `at` is the clock when the execution info is built. */
  function VisitPlan(cron: Cron, t: Tables, now: Time, n: string, at: Time): Tables {
    if n !in t.plans || t.plans[n].nextTime > now then t
    else
      var p := t.plans[n];
      TryStart(t, p, at).(plans := t.plans[n := p.(nextTime := cron.next(p.expr.source, now))])
  }

  function OnResult(t: Tables, exec: nat): Tables
    requires exec < |t.started|
  {
    t.(executing := t.executing - {t.started[exec].job.name})
  }

  datatype Visit = Visit(name: string, at: Time)

  function VisitAll(cron: Cron, t: Tables, now: Time, visits: seq<Visit>): Tables {
    if visits == [] then t
    else
      var last := visits[|visits| - 1];
      VisitPlan(cron, VisitAll(cron, t, now, visits[..|visits| - 1]), now, last.name, last.at)
  }

  // ---------------------------------------------------------------- one pass

  /** Each plan is filed under its job's name. */
  ghost predicate Keyed(t: Tables) {
    forall n :: n in t.plans ==> t.plans[n].job.name == n
  }

  function Names(visits: seq<Visit>): (names: set<string>)
    ensures forall v :: v in visits ==> v.name in names
  {
    set v | v in visits :: v.name
  }

  /** Clock readings of a pass lie between its beginning and its end, and do not go back. */
  ghost predicate Within(visits: seq<Visit>, lo: Time, hi: Time) {
    && lo <= hi
    && (forall i :: 0 <= i < |visits| ==> lo <= visits[i].at <= hi)
    && (forall i, j :: 0 <= i < j < |visits| ==> visits[i].at <= visits[j].at)
  }

  ghost predicate Distinct(visits: seq<Visit>) {
    forall i, j :: 0 <= i < j < |visits| ==> visits[i].name != visits[j].name
  }

  /** A pass begun at `start` in t has made these visits by `now` and turned t into t'. */
  ghost predicate Underway(cron: Cron, t: Tables, start: Time, now: Time, visits: seq<Visit>, t': Tables) {
    && Distinct(visits) && Within(visits, start, now) && Names(visits) <= t.plans.Keys
    && t' == VisitAll(cron, t, start, visits)
  }

  lemma OneMoreWithin(visits: seq<Visit>, v: Visit, start: Time, now: Time, later: Time)
    requires Within(visits, start, now) && now <= v.at <= later
    ensures Within(visits + [v], start, later)
  {
  }

  lemma OneMoreName(visits: seq<Visit>, v: Visit)
    ensures Names(visits + [v]) == Names(visits) + {v.name}
    ensures Distinct(visits) && v.name !in Names(visits) ==> Distinct(visits + [v])
  {
    assert v in visits + [v];
    forall w | w in visits ensures w in visits + [v] && w.name in Names(visits) {}
    forall i | 0 <= i < |visits| ensures visits[i] in visits {}
  }

  lemma OneMoreVisit(cron: Cron, t: Tables, start: Time, now: Time, later: Time, visits: seq<Visit>, v: Visit,
                     t': Tables)
    requires Underway(cron, t, start, now, visits, t') && v.name in t.plans && v.name !in Names(visits)
    requires now <= v.at <= later
    ensures Underway(cron, t, start, later, visits + [v], VisitPlan(cron, t', start, v.name, v.at))
    ensures Names(visits + [v]) == Names(visits) + {v.name}
  {
    OneMoreWithin(visits, v, start, now, later);
    OneMoreName(visits, v);
    assert (visits + [v])[..|visits|] == visits;
  }

  /** An iteration of the plan table in some order. */
  ghost predicate Iteration(t: Tables, visits: seq<Visit>) {
    Distinct(visits) && Names(visits) == t.plans.Keys
  }

  /** TrySchedule as a relation: t' comes from one full iteration of t's plans, begun at `start`. */
  ghost predicate FullPass(cron: Cron, t: Tables, start: Time, now: Time, visits: seq<Visit>, t': Tables) {
    Iteration(t, visits) && Within(visits, start, now) && t' == VisitAll(cron, t, start, visits)
  }

  lemma CompletedPass(cron: Cron, t: Tables, start: Time, now: Time, visits: seq<Visit>, t': Tables)
    requires Underway(cron, t, start, now, visits, t') && Names(visits) == t.plans.Keys
    ensures FullPass(cron, t, start, now, visits, t')
  {
  }

  lemma EmptyPass(cron: Cron, t: Tables, now: Time)
    requires t.plans == map[]
    ensures FullPass(cron, t, now, now, [], t) && IsDelay(t.plans, now, SECOND)
  {
  }

  predicate Due(t: Tables, now: Time, n: string) {
    n in t.plans && t.plans[n].nextTime <= now
  }

  /** Every due plan in vs moves to the instant after `now`; the other plans stay. */
  ghost predicate PlansMoved(cron: Cron, t: Tables, now: Time, vs: set<string>, t': Tables) {
    && t'.plans.Keys == t.plans.Keys
    && forall n :: n in t.plans ==>
         t'.plans[n] == if n in vs && Due(t, now, n)
                        then t.plans[n].(nextTime := cron.next(t.plans[n].expr.source, now)) else t.plans[n]
  }

  /** The names started are the due ones that were not executing. */
  ghost predicate NamesStarted(t: Tables, now: Time, vs: set<string>, t': Tables) {
    && t'.cancelled == t.cancelled
    && (forall n :: n in t'.executing <==> n in t.executing || (n in vs && Due(t, now, n)))
    && (forall n :: n in t.executing ==> t'.executing[n] == t.executing[n])
    && |t'.executing| - |t.executing| == |t'.started| - |t.started|
  }

  /** Each new entry of the executing table is its own new execution, which carries its own
      plan's job and instant. */
  ghost predicate NewStarts(t: Tables, now: Time, vs: set<string>, t': Tables) {
    && t.started <= t'.started
    && (forall n :: n in t'.executing && n !in t.executing ==>
          var i := t'.executing[n];
          && |t.started| <= i < |t'.started| && n in t.plans
          && t'.started[i].job == t.plans[n].job && t'.started[i].planTime == t.plans[n].nextTime)
    && (forall i :: |t.started| <= i < |t'.started| ==>
          var n := t'.started[i].job.name;
          n in t'.executing && n !in t.executing && t'.executing[n] == i)
  }

  /** What a pass over the names vs does, whatever the order. */
  ghost predicate PassEffect(cron: Cron, t: Tables, now: Time, vs: set<string>, t': Tables) {
    PlansMoved(cron, t, now, vs, t') && NamesStarted(t, now, vs, t') && NewStarts(t, now, vs, t')
  }

  /** TrySchedule starts exactly the due names that are not executing, each once and with its
      own plan's instant, moves every due plan and no other to the instant after `now`, and
      leaves everything else alone; for every iteration order and every clock. */
  lemma {:induction false} PassMeaning(cron: Cron, t: Tables, now: Time, visits: seq<Visit>)
    requires Keyed(t) && Distinct(visits)
    ensures PassEffect(cron, t, now, Names(visits), VisitAll(cron, t, now, visits))
    ensures ReadAtVisit(t, visits, VisitAll(cron, t, now, visits))
  {
    StartsReadTheClock(cron, t, now, visits);
    if visits != [] {
      var init, last := visits[..|visits| - 1], visits[|visits| - 1];
      PassMeaning(cron, t, now, init);
      assert visits == init + [last];
      assert Names(visits) == Names(init) + {last.name};
      assert last.name !in Names(init);
      VisitExtendsPass(cron, t, now, Names(init), VisitAll(cron, t, now, init), last);
    }
  }

  /** Each execution that a pass started carries the clock reading of the visit to its own plan. */
  ghost predicate ReadAtVisit(t: Tables, visits: seq<Visit>, t': Tables) {
    t.started <= t'.started
    && forall i :: |t.started| <= i < |t'.started| ==>
         Visit(t'.started[i].job.name, t'.started[i].realTime) in visits
  }

  lemma {:induction false} StartsReadTheClock(cron: Cron, t: Tables, now: Time, visits: seq<Visit>)
    requires Keyed(t)
    ensures ReadAtVisit(t, visits, VisitAll(cron, t, now, visits)) && Keyed(VisitAll(cron, t, now, visits))
  {
    if visits != [] {
      var init, last := visits[..|visits| - 1], visits[|visits| - 1];
      StartsReadTheClock(cron, t, now, init);
      var mid, t' := VisitAll(cron, t, now, init), VisitAll(cron, t, now, visits);
      forall i | |t.started| <= i < |t'.started|
        ensures Visit(t'.started[i].job.name, t'.started[i].realTime) in visits
      {
        if i < |mid.started| {
          assert t'.started[i] == mid.started[i];
          assert Visit(mid.started[i].job.name, mid.started[i].realTime) in init;
        } else {
          assert t'.started[i] == BuildJobExecuteInfo(mid.plans[last.name], last.at);
          assert visits[|visits| - 1] in visits;
        }
      }
    }
  }

  lemma VisitExtendsPass(cron: Cron, t: Tables, now: Time, vs: set<string>, mid: Tables, v: Visit)
    requires Keyed(t) && v.name !in vs && PassEffect(cron, t, now, vs, mid)
    ensures PassEffect(cron, t, now, vs + {v.name}, VisitPlan(cron, mid, now, v.name, v.at))
  {
    VisitMovesPlan(cron, t, now, vs, mid, v);
    VisitStartsName(cron, t, now, vs, mid, v);
    VisitAddsStart(cron, t, now, vs, mid, v);
  }

  lemma VisitMovesPlan(cron: Cron, t: Tables, now: Time, vs: set<string>, mid: Tables, v: Visit)
    requires v.name !in vs && PlansMoved(cron, t, now, vs, mid)
    ensures PlansMoved(cron, t, now, vs + {v.name}, VisitPlan(cron, mid, now, v.name, v.at))
  {
    assert v.name in t.plans ==> mid.plans[v.name] == t.plans[v.name];
  }

  lemma VisitStartsName(cron: Cron, t: Tables, now: Time, vs: set<string>, mid: Tables, v: Visit)
    requires Keyed(t) && v.name !in vs && PlansMoved(cron, t, now, vs, mid) && NamesStarted(t, now, vs, mid)
    ensures NamesStarted(t, now, vs + {v.name}, VisitPlan(cron, mid, now, v.name, v.at))
  {
    if v.name in t.plans {
      assert mid.plans[v.name] == t.plans[v.name];
      if v.name !in mid.executing {
        assert |mid.executing[v.name := |mid.started|]| == |mid.executing| + 1;
      }
    }
  }

  lemma VisitAddsStart(cron: Cron, t: Tables, now: Time, vs: set<string>, mid: Tables, v: Visit)
    requires Keyed(t) && v.name !in vs && PassEffect(cron, t, now, vs, mid)
    ensures NewStarts(t, now, vs + {v.name}, VisitPlan(cron, mid, now, v.name, v.at))
  {
    if Due(t, now, v.name) && v.name !in t.executing {
      var t' := VisitPlan(cron, mid, now, v.name, v.at);
      assert mid.plans[v.name] == t.plans[v.name];
      assert t'.started == mid.started + [BuildJobExecuteInfo(t.plans[v.name], v.at)];
      assert t'.executing == mid.executing[v.name := |mid.started|];
    }
  }

  /** The same plans, the same names executing, and the same executions up to numbering. */
  ghost predicate Agree(t: Tables, a: Tables, b: Tables) {
    && a.plans == b.plans && a.executing.Keys == b.executing.Keys && |a.started| == |b.started|
    && forall n :: n in a.executing && n !in t.executing ==>
         && a.executing[n] < |a.started| && b.executing[n] < |b.started|
         && a.started[a.executing[n]].job == b.started[b.executing[n]].job
         && a.started[a.executing[n]].planTime == b.started[b.executing[n]].planTime
  }

  lemma SameEffectAgrees(cron: Cron, t: Tables, now: Time, vs: set<string>, a: Tables, b: Tables)
    requires PassEffect(cron, t, now, vs, a) && PassEffect(cron, t, now, vs, b)
    ensures Agree(t, a, b)
  {
    assert a.executing.Keys == b.executing.Keys;
    assert |a.executing.Keys| == |a.executing| && |b.executing.Keys| == |b.executing|;
  }

  /** Two orders of iteration, with whatever clock readings, agree. */
  lemma PassOrderIrrelevant(cron: Cron, t: Tables, now: Time, v1: seq<Visit>, v2: seq<Visit>)
    requires Keyed(t) && Iteration(t, v1) && Iteration(t, v2)
    ensures Agree(t, VisitAll(cron, t, now, v1), VisitAll(cron, t, now, v2))
  {
    PassMeaning(cron, t, now, v1);
    PassMeaning(cron, t, now, v2);
    SameEffectAgrees(cron, t, now, t.plans.Keys, VisitAll(cron, t, now, v1), VisitAll(cron, t, now, v2));
  }

  /** A second pass at the same instant, over the same plans in any order, changes nothing at
      all: spurious or undrained timer fires are harmless. This needs no law of the library. */
  lemma {:induction false} PassIdempotent(cron: Cron, t: Tables, now: Time, v1: seq<Visit>, v2: seq<Visit>)
    requires Keyed(t) && Iteration(t, v1)
    ensures var once := VisitAll(cron, t, now, v1); VisitAll(cron, once, now, v2) == once
  {
    if v2 != [] {
      var once, last := VisitAll(cron, t, now, v1), v2[|v2| - 1];
      PassIdempotent(cron, t, now, v1, v2[..|v2| - 1]);
      PassMeaning(cron, t, now, v1);
      if Due(once, now, last.name) {
        assert Due(t, now, last.name) && last.name in once.executing;
        assert once.plans[last.name := once.plans[last.name]] == once.plans;
      }
    }
  }

  /** After a pass every plan lies strictly after it, except the plans of expressions that have
      no further instant. */
  lemma PassLeavesNothingDue(cron: Cron, t: Tables, now: Time, visits: seq<Visit>)
    requires LibraryLaw(cron) && Keyed(t) && Iteration(t, visits)
    requires forall n :: n in t.plans ==> cron.parses(t.plans[n].expr.source)
    ensures var t' := VisitAll(cron, t, now, visits);
            forall n :: n in t'.plans ==> t'.plans[n].nextTime > now || t'.plans[n].nextTime == ZERO_TIME
  {
    PassMeaning(cron, t, now, visits);
  }

  // ---------------------------------------------------------------- the timer

  /** The value TrySchedule returns: one second for an empty table, else the time from `now` to
      the earliest plan. */
  ghost predicate IsDelay(plans: map<string, Plan>, now: Time, delay: Duration) {
    if plans == map[] then delay == SECOND
    else exists n :: n in plans && delay == Sub(plans[n].nextTime, now)
           && forall m :: m in plans ==> plans[n].nextTime <= plans[m].nextTime
  }

  /** The timer fires at once exactly when some plan is due, a plan at the zero time included; with
      no plans it fires after one second. */
  lemma DelayMeaning(plans: map<string, Plan>, now: Time, delay: Duration)
    requires IsDelay(plans, now, delay)
    ensures plans == map[] ==> delay == 1_000_000_000
    ensures plans != map[] ==> (delay <= 0 <==> exists n :: n in plans && plans[n].nextTime <= now)
    ensures forall n :: n in plans && plans[n].nextTime - now <= MAX_INT64 && delay > 0 ==>
        now + delay <= plans[n].nextTime
  {
    if plans != map[] {
      var n :| n in plans && delay == Sub(plans[n].nextTime, now)
        && forall m :: m in plans ==> plans[n].nextTime <= plans[m].nextTime;
    }
  }

  lemma DelayUnique(plans: map<string, Plan>, now: Time, d: Duration, e: Duration)
    requires IsDelay(plans, now, d) && IsDelay(plans, now, e)
    ensures d == e
  {
  }

  /** A second pass at the same instant re-arms the timer with the same delay: the delay is
      unique, and the plans have not moved since the first pass. */
  lemma SecondPassSameDelay(cron: Cron, t: Tables, now: Time, v1: seq<Visit>, v2: seq<Visit>, d: Duration, e: Duration)
    requires Keyed(t) && Iteration(t, v1)
    requires var once := VisitAll(cron, t, now, v1);
             IsDelay(once.plans, now, d) && IsDelay(VisitAll(cron, once, now, v2).plans, now, e)
    ensures d == e
  {
    PassIdempotent(cron, t, now, v1, v2);
    DelayUnique(VisitAll(cron, t, now, v1).plans, now, d, e);
  }

  lemma {:induction false} EarliestPlan(plans: map<string, Plan>) returns (n: string)
    requires plans != map[]
    ensures n in plans && forall m :: m in plans ==> plans[n].nextTime <= plans[m].nextTime
    decreases |plans|
  {
    var x :| x in plans;
    var rest := plans - {x};
    n := x;
    if rest != map[] {
      assert |rest| < |plans| by { assert rest.Keys < plans.Keys; CardinalityOfSubset(rest.Keys, plans.Keys); }
      var m := EarliestPlan(rest);
      if plans[m].nextTime < plans[x].nextTime {
        n := m;
      }
    }
    forall k | k in plans ensures plans[n].nextTime <= plans[k].nextTime {
      if k != x {
        assert k in rest;
      }
    }
  }

  lemma CardinalityOfSubset(a: set<string>, b: set<string>)
    requires a < b
    ensures |a| < |b|
  {
    var x :| x in b && x !in a;
    assert b == a + (b - a);
    assert |b| == |a| + |b - a|;
  }

  lemma DelayExists(plans: map<string, Plan>, now: Time) returns (d: Duration)
    ensures IsDelay(plans, now, d)
  {
    if plans == map[] {
      d := SECOND;
    } else {
      var n := EarliestPlan(plans);
      d := Sub(plans[n].nextTime, now);
    }
  }

  // ---------------------------------------------------------------- jobs by event

  /** The plan table without its clock-dependent part. */
  function Jobs(plans: map<string, Plan>): map<string, Job> {
    map n | n in plans :: plans[n].job
  }

  /** What one event does to the jobs in the table. */
  function ApplyEvent(cron: Cron, jobs: map<string, Job>, ev: JobEvent): map<string, Job> {
    if ev.eventType == JOB_EVENT_SAVE then
      if cron.parses(ev.job.cronExpr) then jobs[ev.job.name := ev.job] else jobs
    else if ev.eventType == JOB_EVENT_DELETE then jobs - {ev.job.name}
    else jobs
  }

  function JobsAfter(cron: Cron, jobs: map<string, Job>, events: seq<JobEvent>): map<string, Job> {
    if events == [] then jobs
    else ApplyEvent(cron, JobsAfter(cron, jobs, events[..|events| - 1]), events[|events| - 1])
  }

  lemma JobsAfterOneMore(cron: Cron, jobs: map<string, Job>, events: seq<JobEvent>, ev: JobEvent)
    ensures JobsAfter(cron, jobs, events + [ev]) == ApplyEvent(cron, JobsAfter(cron, jobs, events), ev)
  {
    assert (events + [ev])[..|events|] == events;
  }

  /** What an event leaves alone, and whom a KILL cancels. */
  lemma EventEffect(cron: Cron, t: Tables, ev: JobEvent, now: Time)
    ensures var t' := OnEvent(cron, t, ev, now);
            && t'.started == t.started && t'.executing == t.executing
            && t'.cancelled == (if ev.eventType == JOB_EVENT_KILL && ev.job.name in t.executing
                                then t.cancelled + {t.executing[ev.job.name]} else t.cancelled)
  {
  }

  /** What an event makes of the plan table: a SAVE that parses files the job under its name with
      the instant that follows `now`, a DELETE takes the name out; nothing else changes a plan. */
  lemma EventMovesPlans(cron: Cron, t: Tables, ev: JobEvent, now: Time, n: string)
    ensures var t' := OnEvent(cron, t, ev, now);
            if ev.job.name == n && ev.eventType == 1 && cron.parses(ev.job.cronExpr) then
              && n in t'.plans && t'.plans[n].job == ev.job && t'.plans[n].expr.source == ev.job.cronExpr
              && t'.plans[n].nextTime == cron.next(ev.job.cronExpr, now)
            else if ev.job.name == n && ev.eventType == 2 then n !in t'.plans
            else (n in t'.plans <==> n in t.plans) && (n in t.plans ==> t'.plans[n] == t.plans[n])
  {
  }

  lemma EventUpdatesJobs(cron: Cron, t: Tables, ev: JobEvent, now: Time)
    ensures Jobs(OnEvent(cron, t, ev, now).plans) == ApplyEvent(cron, Jobs(t.plans), ev)
  {
  }

  lemma VisitKeepsJobs(cron: Cron, t: Tables, now: Time, n: string, at: Time)
    ensures Jobs(VisitPlan(cron, t, now, n, at).plans) == Jobs(t.plans)
  {
  }

  lemma {:induction false} JobsAfterConcat(cron: Cron, jobs: map<string, Job>, a: seq<JobEvent>, b: seq<JobEvent>)
    ensures JobsAfter(cron, jobs, a + b) == JobsAfter(cron, JobsAfter(cron, jobs, a), b)
  {
    if b == [] {
      assert a + b == a;
    } else {
      assert (a + b)[..|a + b| - 1] == a + b[..|b| - 1];
      JobsAfterConcat(cron, jobs, a, b[..|b| - 1]);
    }
  }

  /** An event at position k decides name n: a SAVE of n that parses, or a DELETE of n. */
  predicate Decides(cron: Cron, ev: JobEvent, n: string) {
    && ev.job.name == n
    && ((ev.eventType == JOB_EVENT_SAVE && cron.parses(ev.job.cronExpr)) || ev.eventType == JOB_EVENT_DELETE)
  }

  /** The last event that decides name n is a SAVE of j. */
  ghost predicate LastDecisionSaves(cron: Cron, events: seq<JobEvent>, n: string, j: Job) {
    exists k :: 0 <= k < |events|
      && events[k] == JobEvent(JOB_EVENT_SAVE, j) && Decides(cron, events[k], n)
      && forall m :: k < m < |events| ==> !Decides(cron, events[m], n)
  }

  /** The table maps a name to the job of its last parsable SAVE since its last DELETE, and to
      nothing if there is none; for every event sequence. */
  lemma {:induction false} TableIsLastSaveSinceDelete(cron: Cron, events: seq<JobEvent>, n: string, j: Job)
    ensures n in JobsAfter(cron, map[], events) && JobsAfter(cron, map[], events)[n] == j
            <==> LastDecisionSaves(cron, events, n, j)
  {
    if events != [] {
      var init, last := events[..|events| - 1], events[|events| - 1];
      TableIsLastSaveSinceDelete(cron, init, n, j);
      if Decides(cron, last, n) {
        assert last == events[|events| - 1];
      } else {
        LastDecisionExtends(cron, init, last, n, j);
        assert init + [last] == events;
      }
    }
  }

  lemma LastDecisionExtends(cron: Cron, init: seq<JobEvent>, last: JobEvent, n: string, j: Job)
    requires !Decides(cron, last, n)
    ensures LastDecisionSaves(cron, init + [last], n, j) <==> LastDecisionSaves(cron, init, n, j)
  {
    var events := init + [last];
    if LastDecisionSaves(cron, init, n, j) {
      var k :| 0 <= k < |init|
        && init[k] == JobEvent(JOB_EVENT_SAVE, j) && Decides(cron, init[k], n)
        && forall m :: k < m < |init| ==> !Decides(cron, init[m], n);
      assert events[k] == init[k];
      assert forall m :: k < m < |events| ==> events[m] == if m < |init| then init[m] else last;
    }
    if LastDecisionSaves(cron, events, n, j) {
      var k :| 0 <= k < |events|
        && events[k] == JobEvent(JOB_EVENT_SAVE, j) && Decides(cron, events[k], n)
        && forall m :: k < m < |events| ==> !Decides(cron, events[m], n);
      assert k < |init| && init[k] == events[k];
      assert forall m :: k < m < |init| ==> init[m] == events[m];
    }
  }
}
