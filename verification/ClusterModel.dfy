/**
  Any number of workers and the one etcd they share. The execution goroutines of WorkerModel and
  the lock attempts of LockModel move together: an execution that begins makes an attempt, what
  TryLock answers decides whether its command runs, and it unlocks only after it has pushed its
  result. Everything else moves on its own.
*/
module ClusterModel {
  import opened Wrappers
  import opened Protocol
  import SchedulerTables
  import L = LockModel
  import W = WorkerModel

  /** An execution of a worker. */
  datatype Tag = Tag(worker: nat, exec: nat)

  datatype Cluster = Cluster(
    workers: seq<W.Worker>,
    sys: L.System,
    tags: seq<Tag>)   // by lock attempt: whose it is

  datatype ClusterStep =
    | WorkerMoves(v: nat, step: W.WorkerStep)
    | Launch(v: nat, i: nat)                              // the goroutine begins, InitJobLock
    | LockMoves(move: L.Step)
    | LoseLock(a: nat)                                    // TryLock returned an error
    | StartCommand(a: nat)                                // TryLock returned nil
    | EndCommand(a: nat, output: string, err: ExecError)
    | Unlock(a: nat, applied: bool)                       // the deferred UnLock

  /** Steps of a worker that involve no lock. */
  predicate Lockless(step: W.WorkerStep) {
    !step.Begin? && !step.LockFails? && !step.LockWon? && !step.CommandEnds?
  }

  /** Steps of the lock inside TryLock, and the server's own. */
  predicate InsideTryLock(step: L.Step) {
    !step.Arrive? && !step.StartCommand? && !step.FinishCommand? && !step.Unlock?
  }

  predicate InRange(workers: seq<W.Worker>, tag: Tag) {
    && tag.worker < |workers| && tag.exec < |workers[tag.worker].phases| && tag.exec < |workers[tag.worker].t.started|
  }

  predicate Tagged(s: Cluster, a: nat) {
    a < |s.tags| && a < |s.sys.attempts| && InRange(s.workers, s.tags[a])
  }

  function ToExecError(err: L.LockError): ExecError {
    match err case AlreadyTaken => LockTaken case Unavailable => Other("etcd")
  }

  ghost function MoveWorker(c: W.Config, s: Cluster, v: nat, step: W.WorkerStep): Cluster
    requires v < |s.workers|
  {
    s.(workers := s.workers[v := W.Do(c, s.workers[v], step)])
  }

  ghost predicate Enabled(c: W.Config, s: Cluster, step: ClusterStep) {
    match step
    case WorkerMoves(v, ws) => v < |s.workers| && Lockless(ws) && W.Enabled(c, s.workers[v], ws)
    case Launch(v, i) => InRange(s.workers, Tag(v, i)) && W.Enabled(c, s.workers[v], W.Begin(i))
    case LockMoves(ls) => InsideTryLock(ls) && L.Enabled(s.sys, ls)
    case LoseLock(a) => Tagged(s, a) && s.sys.attempts[a].pc.Refused? && PhaseOf(s.workers, s.tags[a]).Contending?
    case StartCommand(a) =>
      Tagged(s, a) && s.sys.attempts[a].pc == L.Locked && PhaseOf(s.workers, s.tags[a]).Contending?
    case EndCommand(a, _, err) =>
      Tagged(s, a) && s.sys.attempts[a].pc == L.Running && PhaseOf(s.workers, s.tags[a]).Running? && err != LockTaken
    case Unlock(a, applied) =>
      && Tagged(s, a) && L.Enabled(s.sys, L.Unlock(a, applied))
      && (PhaseOf(s.workers, s.tags[a]) == W.Pushed || PhaseOf(s.workers, s.tags[a]) == W.Handled)
  }

  ghost function Next(c: W.Config, s: Cluster, step: ClusterStep): Cluster
    requires Enabled(c, s, step)
  {
    match step
    case WorkerMoves(v, ws) => MoveWorker(c, s, v, ws)
    case Launch(v, i) =>
      MoveWorker(c, s, v, W.Begin(i)).(
        sys := L.Do(s.sys, L.Arrive(s.workers[v].t.started[i].job.name)), tags := s.tags + [Tag(v, i)])
    case LockMoves(ls) => s.(sys := L.Do(s.sys, ls))
    case LoseLock(a) =>
      MoveWorker(c, s, s.tags[a].worker, W.LockFails(s.tags[a].exec, ToExecError(s.sys.attempts[a].pc.err)))
    case StartCommand(a) =>
      MoveWorker(c, s, s.tags[a].worker, W.LockWon(s.tags[a].exec)).(sys := L.Do(s.sys, L.StartCommand(a)))
    case EndCommand(a, output, err) =>
      MoveWorker(c, s, s.tags[a].worker, W.CommandEnds(s.tags[a].exec, output, err)).(
        sys := L.Do(s.sys, L.FinishCommand(a)))
    case Unlock(a, applied) => s.(sys := L.Do(s.sys, L.Unlock(a, applied)))
  }

  ghost function Do(c: W.Config, s: Cluster, step: ClusterStep): Cluster {
    if Enabled(c, s, step) then Next(c, s, step) else s
  }

  ghost function Run(c: W.Config, s: Cluster, steps: seq<ClusterStep>): Cluster {
    if steps == [] then s else Do(c, Run(c, s, steps[..|steps| - 1]), steps[|steps| - 1])
  }

  /** Workers with nothing to do yet, each with its own clock, and an empty etcd. */
  ghost predicate Fresh(s: Cluster) {
    && s.sys == L.START && s.tags == []
    && forall v :: 0 <= v < |s.workers| ==> s.workers[v].clock >= 0 && s.workers[v] == W.Init(s.workers[v].clock)
  }

  // ---------------------------------------------------------------- executions and attempts

  /** Where an execution stands towards its lock. */
  datatype Kind = Waiting | Trying | Commanding | Over

  /** All that the lock needs to know of an execution. */
  datatype Exec = Exec(job: string, kind: Kind)

  function PhaseOf(workers: seq<W.Worker>, tag: Tag): W.Phase
    requires InRange(workers, tag)
  {
    workers[tag.worker].phases[tag.exec]
  }

  function KindOf(phase: W.Phase): Kind {
    match phase
    case Spawned => Waiting
    case Contending(_) => Trying
    case Running(_) => Commanding
    case _ => Over
  }

  function View(w: W.Worker): (view: seq<Exec>)
    ensures |w.phases| == |w.t.started| ==> |view| == |w.phases|
    ensures forall i :: 0 <= i < |view| ==>
              i < |w.phases| && i < |w.t.started| && view[i] == Exec(w.t.started[i].job.name, KindOf(w.phases[i]))
  {
    seq(if |w.phases| <= |w.t.started| then |w.phases| else |w.t.started|,
        i requires 0 <= i < |w.phases| && i < |w.t.started| => Exec(w.t.started[i].job.name, KindOf(w.phases[i])))
  }

  function Views(workers: seq<W.Worker>): (views: seq<seq<Exec>>)
    ensures |views| == |workers| && forall v :: 0 <= v < |views| ==> views[v] == View(workers[v])
  {
    seq(|workers|, v requires 0 <= v < |workers| => View(workers[v]))
  }

  predicate Matches(pc: L.Pc, kind: Kind) {
    match pc
    case Running => kind == Commanding
    case Finished => kind == Over
    case Released => kind == Over
    case Refused(_) => kind == Trying || kind == Over
    case _ => kind == Trying
  }

  predicate Known(views: seq<seq<Exec>>, tag: Tag) {
    tag.worker < |views| && tag.exec < |views[tag.worker]|
  }

  function SetKind(views: seq<seq<Exec>>, tag: Tag, kind: Kind): seq<seq<Exec>>
    requires Known(views, tag)
  {
    var view := views[tag.worker];
    views[tag.worker := view[tag.exec := view[tag.exec].(kind := kind)]]
  }

  predicate Fits(views: seq<seq<Exec>>, tag: Tag, attempt: L.Attempt) {
    && Known(views, tag) && attempt.job == views[tag.worker][tag.exec].job
    && Matches(attempt.pc, views[tag.worker][tag.exec].kind)
  }

  /** Attempts and begun executions correspond one to one, and agree on where they are. */
  ghost predicate Linked(views: seq<seq<Exec>>, tags: seq<Tag>, attempts: seq<L.Attempt>) {
    && |tags| == |attempts|
    && (forall a :: 0 <= a < |tags| ==> Fits(views, tags[a], attempts[a]))
    && (forall a, b :: 0 <= a < b < |tags| ==> tags[a] != tags[b])
    && (forall tag: Tag :: Known(views, tag) && views[tag.worker][tag.exec].kind != Waiting ==> tag in tags)
  }

  ghost predicate WorkersOk(c: W.Config, workers: seq<W.Worker>) {
    forall v :: 0 <= v < |workers| ==> W.Inv(c, workers[v])
  }

  ghost predicate Inv(c: W.Config, s: Cluster) {
    Linked(Views(s.workers), s.tags, s.sys.attempts) && WorkersOk(c, s.workers) && L.Inv(s.sys)
  }

  ghost predicate SameLengths(workers: seq<W.Worker>) {
    forall v :: 0 <= v < |workers| ==> |workers[v].phases| == |workers[v].t.started|
  }

  lemma WorkersFlight(c: W.Config, workers: seq<W.Worker>)
    requires WorkersOk(c, workers)
    ensures SameLengths(workers) && forall v :: 0 <= v < |workers| ==> W.FlightOk(c, workers[v])
  {
    forall v | 0 <= v < |workers| ensures W.FlightOk(c, workers[v]) {
      assert W.Inv(c, workers[v]);
    }
  }

  /** A worker starts executions that have not begun yet. */
  lemma SpawnKeepsLink(views: seq<seq<Exec>>, tags: seq<Tag>, attempts: seq<L.Attempt>, v: nat, view: seq<Exec>)
    requires Linked(views, tags, attempts) && v < |views| && views[v] <= view
    requires forall i :: |views[v]| <= i < |view| ==> view[i].kind == Waiting
    ensures Linked(views[v := view], tags, attempts)
  {
  }

  /** An execution begins and makes an attempt. */
  lemma LaunchKeepsLink(views: seq<seq<Exec>>, tags: seq<Tag>, attempts: seq<L.Attempt>, tag: Tag)
    requires Linked(views, tags, attempts) && Known(views, tag) && views[tag.worker][tag.exec].kind == Waiting
    ensures var exec := views[tag.worker][tag.exec];
            Linked(views[tag.worker := views[tag.worker][tag.exec := Exec(exec.job, Trying)]], tags + [tag],
                   attempts + [L.Attempt(exec.job, None, L.Ready)])
  {
    assert tag !in tags by {
      assert forall a :: 0 <= a < |tags| ==> Fits(views, tags[a], attempts[a]);
    }
  }

  /** An execution and its own attempt move together. */
  lemma PairKeepsLink(views: seq<seq<Exec>>, tags: seq<Tag>, attempts: seq<L.Attempt>, a: nat, kind: Kind, pc: L.Pc)
    requires Linked(views, tags, attempts) && a < |tags| && kind != Waiting && Matches(pc, kind)
    ensures var tag := tags[a];
            Known(views, tag) && Linked(SetKind(views, tag, kind), tags, attempts[a := attempts[a].(pc := pc)])
  {
    assert Fits(views, tags[a], attempts[a]);
  }

  /** Inside TryLock only the attempts move, and stay on this side of its return. */
  lemma LockMoveKeepsLink(views: seq<seq<Exec>>, tags: seq<Tag>, sys: L.System, step: L.Step)
    requires Linked(views, tags, sys.attempts) && InsideTryLock(step) && L.Enabled(sys, step)
    ensures Linked(views, tags, L.Next(sys, step).attempts)
  {
    var attempts := L.Next(sys, step).attempts;
    forall a | 0 <= a < |tags| ensures Fits(views, tags[a], attempts[a]) {
      assert Fits(views, tags[a], sys.attempts[a]);
    }
  }

  lemma PhaseView(w: W.Worker, i: nat, phase: W.Phase)
    requires i < |w.phases| == |w.t.started|
    ensures View(W.SetPhase(w, i, phase)) == View(w)[i := View(w)[i].(kind := KindOf(phase))]
  {
  }

  lemma VisitView(c: W.Config, w: W.Worker, n: string)
    requires W.FlightOk(c, w) && W.Enabled(c, w, W.VisitOne(n))
    ensures var view := View(W.DoVisit(c, w, n));
            View(w) <= view && forall i :: |w.phases| <= i < |view| ==> view[i].kind == Waiting
  {
    var w' := W.DoVisit(c, w, n);
    assert w.t.started <= w'.t.started && w.phases <= w'.phases;
  }

  lemma ResultView(c: W.Config, w: W.Worker)
    requires W.FlightOk(c, w) && W.Enabled(c, w, W.TakeResult)
    ensures View(W.DoResult(w)) == View(w)
  {
    PhaseView(w, w.results[0].exec, W.Handled);
  }

  lemma LocklessView(c: W.Config, w: W.Worker, step: W.WorkerStep)
    requires W.FlightOk(c, w) && Lockless(step) && W.Enabled(c, w, step)
    ensures var view := View(W.Next(c, w, step));
            View(w) <= view && forall i :: |w.phases| <= i < |view| ==> view[i].kind == Waiting
  {
    if step.TakeResult? {
      ResultView(c, w);
    } else if step.PushResult? {
      PhaseView(w, step.i, W.Pushed);
    } else if step.VisitOne? {
      VisitView(c, w, step.n);
    } else if step.TakeEvent? {
      SchedulerTables.EventEffect(c.cron, w.t, w.events[0], w.clock);
    }
  }

  /** The view of the workers after one execution changed its phase. */
  lemma PhaseViews(workers: seq<W.Worker>, tag: Tag, phase: W.Phase)
    requires InRange(workers, tag) && |workers[tag.worker].phases| == |workers[tag.worker].t.started|
    ensures Known(Views(workers), tag)
    ensures var views := Views(workers);
            Views(workers[tag.worker := W.SetPhase(workers[tag.worker], tag.exec, phase)])
              == SetKind(views, tag, KindOf(phase))
  {
    PhaseView(workers[tag.worker], tag.exec, phase);
  }

  /** What each step does to one worker's phases, if it is a step at a lock's edge. */
  function EdgePhase(s: Cluster, step: ClusterStep): W.Phase
    requires (step.LoseLock? || step.StartCommand? || step.EndCommand?) && Tagged(s, step.a)
    requires step.LoseLock? ==> s.sys.attempts[step.a].pc.Refused? && PhaseOf(s.workers, s.tags[step.a]).Contending?
    requires step.EndCommand? ==> PhaseOf(s.workers, s.tags[step.a]).Running?
  {
    var tag := s.tags[step.a];
    var clock := s.workers[tag.worker].clock;
    match step
    case LoseLock(a) =>
      W.Pushing(Outcome(tag.exec, "", ToExecError(s.sys.attempts[a].pc.err), PhaseOf(s.workers, tag).start, clock))
    case StartCommand(_) => W.Running(clock)
    case EndCommand(_, output, err) => W.Pushing(Outcome(tag.exec, output, err, PhaseOf(s.workers, tag).start, clock))
    case _ => W.Spawned
  }

  lemma EdgeStep(c: W.Config, s: Cluster, step: ClusterStep)
    requires Enabled(c, s, step) && (step.LoseLock? || step.StartCommand? || step.EndCommand?)
    ensures var tag, s', attempts := s.tags[step.a], Next(c, s, step), s.sys.attempts;
            && s'.workers == s.workers[tag.worker := W.SetPhase(s.workers[tag.worker], tag.exec, EdgePhase(s, step))]
            && s'.tags == s.tags && step.a < |s'.sys.attempts|
            && s'.sys.attempts == attempts[step.a := attempts[step.a].(pc := s'.sys.attempts[step.a].pc)]
            && Matches(s'.sys.attempts[step.a].pc, KindOf(EdgePhase(s, step))) && KindOf(EdgePhase(s, step)) != Waiting
  {
  }

  lemma EdgeKeepsLink(c: W.Config, s: Cluster, step: ClusterStep)
    requires Linked(Views(s.workers), s.tags, s.sys.attempts) && SameLengths(s.workers)
    requires Enabled(c, s, step) && (step.LoseLock? || step.StartCommand? || step.EndCommand?)
    ensures var s' := Next(c, s, step); Linked(Views(s'.workers), s'.tags, s'.sys.attempts)
  {
    var s', tag := Next(c, s, step), s.tags[step.a];
    EdgeStep(c, s, step);
    PhaseViews(s.workers, tag, EdgePhase(s, step));
    PairKeepsLink(Views(s.workers), s.tags, s.sys.attempts, step.a, KindOf(EdgePhase(s, step)),
        s'.sys.attempts[step.a].pc);
  }

  lemma LaunchStepKeepsLink(c: W.Config, s: Cluster, v: nat, i: nat)
    requires Linked(Views(s.workers), s.tags, s.sys.attempts) && SameLengths(s.workers)
    requires Enabled(c, s, Launch(v, i))
    ensures var s' := Next(c, s, Launch(v, i)); Linked(Views(s'.workers), s'.tags, s'.sys.attempts)
  {
    PhaseViews(s.workers, Tag(v, i), W.Contending(s.workers[v].clock));
    LaunchKeepsLink(Views(s.workers), s.tags, s.sys.attempts, Tag(v, i));
  }

  lemma WorkerMoveKeepsLink(c: W.Config, s: Cluster, v: nat, step: W.WorkerStep)
    requires Linked(Views(s.workers), s.tags, s.sys.attempts)
    requires Enabled(c, s, WorkerMoves(v, step)) && W.FlightOk(c, s.workers[v])
    ensures var s' := MoveWorker(c, s, v, step); Linked(Views(s'.workers), s'.tags, s'.sys.attempts)
  {
    LocklessView(c, s.workers[v], step);
    var view := View(W.Next(c, s.workers[v], step));
    SpawnKeepsLink(Views(s.workers), s.tags, s.sys.attempts, v, view);
    assert Views(MoveWorker(c, s, v, step).workers) == Views(s.workers)[v := view];
  }

  lemma UnlockKeepsLink(c: W.Config, s: Cluster, a: nat, applied: bool)
    requires Linked(Views(s.workers), s.tags, s.sys.attempts) && SameLengths(s.workers)
    requires Enabled(c, s, Unlock(a, applied))
    ensures var s' := Next(c, s, Unlock(a, applied)); Linked(Views(s'.workers), s'.tags, s'.sys.attempts)
  {
    var s', tag, views := Next(c, s, Unlock(a, applied)), s.tags[a], Views(s.workers);
    PairKeepsLink(views, s.tags, s.sys.attempts, a, Over, L.Released);
    assert Fits(views, tag, s.sys.attempts[a]);
    assert views[tag.worker][tag.exec].(kind := Over) == views[tag.worker][tag.exec];
    assert views[tag.worker][tag.exec := views[tag.worker][tag.exec]] == views[tag.worker];
    assert views[tag.worker := views[tag.worker]] == views;
    assert s'.sys.attempts == s.sys.attempts[a := s.sys.attempts[a].(pc := L.Released)];
  }

  lemma StepKeepsLink(c: W.Config, s: Cluster, step: ClusterStep)
    requires Inv(c, s) && Enabled(c, s, step)
    ensures var s' := Next(c, s, step); Linked(Views(s'.workers), s'.tags, s'.sys.attempts)
  {
    WorkersFlight(c, s.workers);
    match step
    case WorkerMoves(v, ws) => WorkerMoveKeepsLink(c, s, v, ws);
    case Launch(v, i) => LaunchStepKeepsLink(c, s, v, i);
    case LockMoves(ls) => LockMoveKeepsLink(Views(s.workers), s.tags, s.sys, ls);
    case Unlock(a, applied) => UnlockKeepsLink(c, s, a, applied);
    case _ => EdgeKeepsLink(c, s, step);
  }

  lemma MoveKeepsWorkers(c: W.Config, s: Cluster, v: nat, step: W.WorkerStep)
    requires LibraryLaw(c.cron) && WorkersOk(c, s.workers) && v < |s.workers|
    ensures WorkersOk(c, MoveWorker(c, s, v, step).workers)
  {
    if W.Enabled(c, s.workers[v], step) {
      W.StepKeepsInv(c, s.workers[v], step);
    }
  }

  lemma LockStepKeepsInv(s: L.System, step: L.Step)
    requires L.Inv(s)
    ensures L.Inv(L.Do(s, step))
  {
    if L.Enabled(s, step) {
      L.StepKeepsInv(s, step);
    }
  }

  lemma StepKeepsInv(c: W.Config, s: Cluster, step: ClusterStep)
    requires LibraryLaw(c.cron) && Inv(c, s) && Enabled(c, s, step)
    ensures Inv(c, Next(c, s, step))
  {
    StepKeepsLink(c, s, step);
    match step
    case WorkerMoves(v, ws) => MoveKeepsWorkers(c, s, v, ws);
    case Launch(v, i) =>
      MoveKeepsWorkers(c, s, v, W.Begin(i));
      LockStepKeepsInv(s.sys, L.Arrive(s.workers[v].t.started[i].job.name));
    case LockMoves(ls) => LockStepKeepsInv(s.sys, ls);
    case LoseLock(a) =>
      MoveKeepsWorkers(c, s, s.tags[a].worker, W.LockFails(s.tags[a].exec, ToExecError(s.sys.attempts[a].pc.err)));
    case StartCommand(a) =>
      MoveKeepsWorkers(c, s, s.tags[a].worker, W.LockWon(s.tags[a].exec));
      LockStepKeepsInv(s.sys, L.StartCommand(a));
    case EndCommand(a, output, err) =>
      MoveKeepsWorkers(c, s, s.tags[a].worker, W.CommandEnds(s.tags[a].exec, output, err));
      LockStepKeepsInv(s.sys, L.FinishCommand(a));
    case Unlock(a, applied) => LockStepKeepsInv(s.sys, L.Unlock(a, applied));
  }

  lemma FreshOk(c: W.Config, s: Cluster)
    requires Fresh(s)
    ensures Inv(c, s)
  {
    L.StartOk();
    forall v | 0 <= v < |s.workers| ensures W.Inv(c, s.workers[v]) && View(s.workers[v]) == [] {
      W.InitOk(c, s.workers[v].clock);
    }
  }

  lemma {:induction false} RunKeepsInv(c: W.Config, s: Cluster, steps: seq<ClusterStep>)
    requires LibraryLaw(c.cron) && Inv(c, s)
    ensures Inv(c, Run(c, s, steps))
  {
    if steps != [] {
      RunKeepsInv(c, s, steps[..|steps| - 1]);
      var mid := Run(c, s, steps[..|steps| - 1]);
      if Enabled(c, mid, steps[|steps| - 1]) {
        StepKeepsInv(c, mid, steps[|steps| - 1]);
      }
    }
  }

  // ---------------------------------------------------------------- workers of a cluster

  ghost predicate WorkersReachable(c: W.Config, workers: seq<W.Worker>) {
    forall v :: 0 <= v < |workers| ==> W.Reachable(c, workers[v])
  }

  lemma MoveReaches(c: W.Config, s: Cluster, v: nat, step: W.WorkerStep)
    requires WorkersReachable(c, s.workers) && v < |s.workers|
    ensures WorkersReachable(c, MoveWorker(c, s, v, step).workers)
  {
    W.StepsReach(c, s.workers[v], step);
  }

  lemma StepReaches(c: W.Config, s: Cluster, step: ClusterStep)
    requires WorkersReachable(c, s.workers) && Enabled(c, s, step)
    ensures WorkersReachable(c, Next(c, s, step).workers)
  {
    match step
    case WorkerMoves(v, ws) => MoveReaches(c, s, v, ws);
    case Launch(v, i) => MoveReaches(c, s, v, W.Begin(i));
    case LoseLock(a) =>
      MoveReaches(c, s, s.tags[a].worker, W.LockFails(s.tags[a].exec, ToExecError(s.sys.attempts[a].pc.err)));
    case StartCommand(a) => MoveReaches(c, s, s.tags[a].worker, W.LockWon(s.tags[a].exec));
    case EndCommand(a, output, err) => MoveReaches(c, s, s.tags[a].worker, W.CommandEnds(s.tags[a].exec, output, err));
    case LockMoves(_) =>
    case Unlock(_, _) =>
  }

  /** Every worker of a cluster is at all times in a state it could have reached on its own, so
      whatever WorkerTheorems says of reachable workers holds for each of them. */
  lemma {:induction false} ClusterWorkersAreWorkers(c: W.Config, start: Cluster, steps: seq<ClusterStep>)
    requires Fresh(start)
    ensures WorkersReachable(c, Run(c, start, steps).workers)
  {
    if steps == [] {
      forall v | 0 <= v < |start.workers| ensures W.Reachable(c, start.workers[v]) {
        W.InitReachable(c, start.workers[v].clock);
      }
    } else {
      ClusterWorkersAreWorkers(c, start, steps[..|steps| - 1]);
      var mid := Run(c, start, steps[..|steps| - 1]);
      if Enabled(c, mid, steps[|steps| - 1]) {
        StepReaches(c, mid, steps[|steps| - 1]);
      }
    }
  }

  // ---------------------------------------------------------------- commands of one job

  predicate RunsCommand(s: Cluster, v: nat, i: nat, job: string) {
    InRange(s.workers, Tag(v, i)) && s.workers[v].phases[i].Running? && s.workers[v].t.started[i].job.name == job
  }

  /** The lock attempt of a running command: it won the job's key. */
  predicate HoldsFor(s: Cluster, a: nat, v: nat, i: nat, job: string) {
    && Tagged(s, a) && s.tags[a] == Tag(v, i)
    && s.sys.attempts[a].pc == L.Running && s.sys.attempts[a].job == job && a in s.sys.wins
  }

  lemma CommandHasWinner(s: Cluster, v: nat, i: nat, job: string) returns (a: nat)
    requires Linked(Views(s.workers), s.tags, s.sys.attempts) && SameLengths(s.workers) && L.PcsOk(s.sys)
    requires RunsCommand(s, v, i, job)
    ensures HoldsFor(s, a, v, i, job)
  {
    assert Known(Views(s.workers), Tag(v, i)) && Views(s.workers)[v][i].kind == Commanding;
    assert Tag(v, i) in s.tags;
    a :| a < |s.tags| && s.tags[a] == Tag(v, i);
    assert Fits(Views(s.workers), s.tags[a], s.sys.attempts[a]);
  }

  lemma OneCommandPerWorker(c: W.Config, s: Cluster, v1: nat, i1: nat, v2: nat, i2: nat, job: string)
    requires forall v :: 0 <= v < |s.workers| ==> W.FlightOk(c, s.workers[v])
    requires RunsCommand(s, v1, i1, job) && RunsCommand(s, v2, i2, job) && (v1, i1) != (v2, i2)
    ensures v1 != v2
  {
  }

  /** In every run of any number of workers, whatever their schedulers, clocks, networks and
      leases do: two commands of one job that run at the same time run on different workers, and
      one of the two has lost its lease, namely the one that won the lock first. */
  lemma CommandsOverlapOnlyAfterLeaseLoss(c: W.Config, start: Cluster, steps: seq<ClusterStep>,
                                          v1: nat, i1: nat, v2: nat, i2: nat, job: string)
    requires LibraryLaw(c.cron) && Fresh(start)
    requires (v1, i1) != (v2, i2)
    requires var s := Run(c, start, steps); RunsCommand(s, v1, i1, job) && RunsCommand(s, v2, i2, job)
    ensures v1 != v2
    ensures var s := Run(c, start, steps);
            exists a, b :: HoldsFor(s, a, v1, i1, job) && HoldsFor(s, b, v2, i2, job) && a != b
              && OneLostIt(s.sys, a, b)
  {
    var s := Run(c, start, steps);
    FreshOk(c, start);
    RunKeepsInv(c, start, steps);
    WorkersFlight(c, s.workers);
    OneCommandPerWorker(c, s, v1, i1, v2, i2, job);
    var a := CommandHasWinner(s, v1, i1, job);
    var b := CommandHasWinner(s, v2, i2, job);
    EarlierWinnerIsDead(s.sys, a, b);
  }

  ghost predicate WonBefore(sys: L.System, a: nat, b: nat) {
    exists i, j :: 0 <= i < j < |sys.wins| && sys.wins[i] == a && sys.wins[j] == b
  }

  /** The one of two winners that won first has lost its lease. */
  ghost predicate OneLostIt(sys: L.System, a: nat, b: nat) {
    (WonBefore(sys, a, b) && !L.Alive(sys, a)) || (WonBefore(sys, b, a) && !L.Alive(sys, b))
  }

  lemma EarlierWinnerIsDead(sys: L.System, a: nat, b: nat)
    requires L.Inv(sys) && a in sys.wins && b in sys.wins && a != b && L.SameJob(sys, a, b)
    ensures OneLostIt(sys, a, b)
  {
    var i :| 0 <= i < |sys.wins| && sys.wins[i] == a;
    var j :| 0 <= j < |sys.wins| && sys.wins[j] == b;
    if i < j {
      assert !L.Alive(sys, sys.wins[i]);
    } else {
      assert L.SameJob(sys, b, a);
      assert !L.Alive(sys, sys.wins[j]);
    }
  }

  // ---------------------------------------------------------------- when a second command can start

  predicate KillsLease(step: ClusterStep) {
    match step
    case LockMoves(move) => L.Kills(move)
    case Unlock(_, applied) => applied
    case _ => false
  }

  ghost predicate NoLeaseDies(steps: seq<ClusterStep>) {
    forall k :: 0 <= k < |steps| ==> !KillsLease(steps[k])
  }

  /** What a step of the cluster is to the lock. */
  ghost function LockPart(c: W.Config, s: Cluster, step: ClusterStep): seq<L.Step> {
    if !Enabled(c, s, step) then []
    else
      match step
      case Launch(v, i) => [L.Arrive(s.workers[v].t.started[i].job.name)]
      case LockMoves(move) => [move]
      case StartCommand(a) => [L.StartCommand(a)]
      case EndCommand(a, _, _) => [L.FinishCommand(a)]
      case Unlock(a, applied) => [L.Unlock(a, applied)]
      case _ => []
  }

  lemma LockPartMoves(c: W.Config, s: Cluster, step: ClusterStep)
    ensures var part, s' := LockPart(c, s, step), Do(c, s, step);
            && s'.sys == (if part == [] then s.sys else L.Do(s.sys, part[0]))
            && s.tags <= s'.tags && (part != [] && L.Kills(part[0]) ==> KillsLease(step))
  {
  }

  /** What the steps of a run are to the lock, in order. */
  ghost function LockParts(c: W.Config, s: Cluster, steps: seq<ClusterStep>): seq<L.Step> {
    if steps == [] then []
    else
      var init := steps[..|steps| - 1];
      LockParts(c, s, init) + LockPart(c, Run(c, s, init), steps[|steps| - 1])
  }

  lemma LockPartsOneMore(s: Cluster, moves: seq<L.Step>, mid: Cluster, next: Cluster, part: seq<L.Step>)
    requires mid.sys == L.Run(s.sys, moves) && |part| <= 1
    requires next.sys == if part == [] then mid.sys else L.Do(mid.sys, part[0])
    ensures next.sys == L.Run(s.sys, moves + part)
  {
    if part == [] {
      assert moves + part == moves;
    } else {
      L.Then(s.sys, moves, part[0]);
      assert part == [part[0]];
    }
  }

  /** Seen from etcd, a run of a cluster is a run of the lock machine. */
  lemma {:induction false} ClusterRunIsLockRun(c: W.Config, s: Cluster, steps: seq<ClusterStep>)
    ensures Run(c, s, steps).sys == L.Run(s.sys, LockParts(c, s, steps))
    ensures NoLeaseDies(steps) ==> L.NoLeaseDies(LockParts(c, s, steps))
    ensures s.tags <= Run(c, s, steps).tags
  {
    if steps != [] {
      var init := steps[..|steps| - 1];
      var mid, last := Run(c, s, init), steps[|steps| - 1];
      ClusterRunIsLockRun(c, s, init);
      LockPartMoves(c, mid, last);
      LockPartsOneMore(s, LockParts(c, s, init), mid, Do(c, mid, last), LockPart(c, mid, last));
    }
  }

  /** An execution of the job, not yet past its lock, that can come to run its command without any
      lease dying: its attempt can, or it has not begun and the key is absent. */
  ghost predicate CanRun(s: Cluster, v: nat, i: nat, job: string) {
    && InRange(s.workers, Tag(v, i)) && s.workers[v].t.started[i].job.name == job
    && if s.workers[v].phases[i] == W.Spawned then LockKey(job) !in s.sys.keys
       else exists a: nat :: MadeBy(s, a, v, i) && L.CanRun(s.sys, a, job)
  }

  predicate MadeBy(s: Cluster, a: nat, v: nat, i: nat) {
    a < |s.tags| && a < |s.sys.attempts| && s.tags[a] == Tag(v, i)
  }

  /** An execution that makes its attempt later has not begun; one that made it keeps it. */
  lemma AttemptThen(s: Cluster, s': Cluster, a: nat, v: nat, i: nat, job: string)
    requires Linked(Views(s.workers), s.tags, s.sys.attempts) && SameLengths(s.workers)
    requires InRange(s.workers, Tag(v, i)) && s.workers[v].t.started[i].job.name == job
    requires s.tags <= s'.tags && MadeBy(s', a, v, i) && L.CanRun(s.sys, a, job)
    requires forall b, d :: 0 <= b < d < |s'.tags| ==> s'.tags[b] != s'.tags[d]
    ensures CanRun(s, v, i, job)
  {
    var views := Views(s.workers);
    assert Known(views, Tag(v, i)) && views[v][i].kind == KindOf(s.workers[v].phases[i]);
    if a < |s.tags| {
      assert s.tags[a] == Tag(v, i) && Fits(views, s.tags[a], s.sys.attempts[a]);
      assert MadeBy(s, a, v, i);
    } else {
      forall b | 0 <= b < |s.tags| ensures s.tags[b] != Tag(v, i) {
        assert s'.tags[b] == s.tags[b];
      }
      assert Tag(v, i) !in s.tags;
      assert views[v][i].kind == Waiting;
    }
  }

  lemma RunningCouldRun(c: W.Config, s: Cluster, steps: seq<ClusterStep>, v: nat, i: nat, job: string)
    requires LibraryLaw(c.cron) && Inv(c, s) && NoLeaseDies(steps)
    requires InRange(s.workers, Tag(v, i)) && s.workers[v].t.started[i].job.name == job
    requires RunsCommand(Run(c, s, steps), v, i, job)
    ensures CanRun(s, v, i, job)
  {
    var s' := Run(c, s, steps);
    RunKeepsInv(c, s, steps);
    WorkersFlight(c, s.workers);
    WorkersFlight(c, s'.workers);
    ClusterRunIsLockRun(c, s, steps);
    var moves := LockParts(c, s, steps);
    var a := CommandHasWinner(s', v, i, job);
    L.RunningCanRun(s'.sys, a, job);
    L.CouldRunBefore(s.sys, moves, a, job);
    AttemptThen(s, s', a, v, i, job);
  }

  // ---------------------------------------------------------------- on the way to a command

  /** The next step of an execution that nobody disturbs, whose attempt is a. */
  function Onward(s: Cluster, v: nat, i: nat, a: nat, job: string): ClusterStep
    requires a <= |s.sys.attempts|
  {
    if a == |s.sys.attempts| then Launch(v, i)
    else if s.sys.attempts[a].pc == L.Locked then StartCommand(a)
    else LockMoves(L.Onward(s.sys, a, job))
  }

  /** The attempt of an execution on its way, or the one that it is about to make. */
  ghost predicate OnItsWay(s: Cluster, v: nat, i: nat, a: nat, job: string) {
    && InRange(s.workers, Tag(v, i)) && s.workers[v].t.started[i].job.name == job
    && |s.tags| == |s.sys.attempts| && a <= |s.tags| && L.CanRun(s.sys, a, job)
    && if a == |s.tags| then s.workers[v].phases[i] == W.Spawned
       else s.tags[a] == Tag(v, i) && Matches(s.sys.attempts[a].pc, KindOf(s.workers[v].phases[i]))
  }

  lemma WayOf(c: W.Config, s: Cluster, v: nat, i: nat, job: string) returns (a: nat)
    requires Inv(c, s) && CanRun(s, v, i, job)
    ensures OnItsWay(s, v, i, a, job)
  {
    if s.workers[v].phases[i] == W.Spawned {
      a := |s.tags|;
    } else {
      a :| MadeBy(s, a, v, i) && L.CanRun(s.sys, a, job);
      assert Fits(Views(s.workers), s.tags[a], s.sys.attempts[a]);
    }
  }

  ghost predicate OthersStay(s: Cluster, s': Cluster, v: nat) {
    |s'.workers| == |s.workers| && forall u :: 0 <= u < |s.workers| && u != v ==> s'.workers[u] == s.workers[u]
  }

  lemma LaunchOnward(c: W.Config, s: Cluster, v: nat, i: nat, a: nat, job: string)
    requires L.Inv(s.sys) && OnItsWay(s, v, i, a, job) && a == |s.tags|
    ensures Enabled(c, s, Launch(v, i))
    ensures var s' := Next(c, s, Launch(v, i));
            && OnItsWay(s', v, i, a, job) && OthersStay(s, s', v)
            && L.Distance(s'.sys, a) < L.Distance(s.sys, a)
  {
    L.OnwardWorks(s.sys, a, job);
  }

  lemma LockOnward(c: W.Config, s: Cluster, v: nat, i: nat, a: nat, job: string)
    requires L.Inv(s.sys) && OnItsWay(s, v, i, a, job) && a < |s.tags|
    requires !L.Runs(s.sys, a, job) && s.sys.attempts[a].pc != L.Locked
    ensures var move := L.Onward(s.sys, a, job); var s' := s.(sys := L.Next(s.sys, move));
            && InsideTryLock(move) && L.Enabled(s.sys, move) && !L.Kills(move)
            && OnItsWay(s', v, i, a, job) && L.Distance(s'.sys, a) < L.Distance(s.sys, a)
  {
    L.OnwardWorks(s.sys, a, job);
  }

  lemma StartOnward(c: W.Config, s: Cluster, v: nat, i: nat, a: nat, job: string)
    requires L.Inv(s.sys) && OnItsWay(s, v, i, a, job) && a < |s.tags| && s.sys.attempts[a].pc == L.Locked
    ensures Enabled(c, s, StartCommand(a))
    ensures var s' := Next(c, s, StartCommand(a));
            && OnItsWay(s', v, i, a, job) && OthersStay(s, s', v)
            && L.Distance(s'.sys, a) < L.Distance(s.sys, a)
  {
    L.OnwardWorks(s.sys, a, job);
  }

  lemma OnwardWorks(c: W.Config, s: Cluster, v: nat, i: nat, a: nat, job: string)
    requires L.Inv(s.sys) && OnItsWay(s, v, i, a, job) && !L.Runs(s.sys, a, job)
    ensures var step := Onward(s, v, i, a, job);
            && Enabled(c, s, step) && !KillsLease(step)
            && OnItsWay(Next(c, s, step), v, i, a, job) && OthersStay(s, Next(c, s, step), v)
            && L.Distance(Next(c, s, step).sys, a) < L.Distance(s.sys, a)
  {
    if a == |s.tags| {
      LaunchOnward(c, s, v, i, a, job);
    } else if s.sys.attempts[a].pc == L.Locked {
      StartOnward(c, s, v, i, a, job);
    } else {
      LockOnward(c, s, v, i, a, job);
    }
  }

  lemma {:induction false} RunConcat(c: W.Config, s: Cluster, a: seq<ClusterStep>, b: seq<ClusterStep>)
    ensures Run(c, s, a + b) == Run(c, Run(c, s, a), b)
  {
    if b == [] {
      assert a + b == a;
    } else {
      assert (a + b)[..|a + b| - 1] == a + b[..|b| - 1];
      RunConcat(c, s, a, b[..|b| - 1]);
    }
  }

  lemma First(c: W.Config, s: Cluster, step: ClusterStep, rest: seq<ClusterStep>)
    ensures Run(c, s, [step] + rest) == Run(c, Do(c, s, step), rest)
  {
    RunConcat(c, s, [step], rest);
    assert [step][..0] == [];
    assert Run(c, s, [step]) == Do(c, s, step);
  }

  lemma StepKeepsLock(c: W.Config, s: Cluster, step: ClusterStep)
    requires L.Inv(s.sys) && Enabled(c, s, step)
    ensures L.Inv(Next(c, s, step).sys)
  {
    var part := LockPart(c, s, step);
    LockPartMoves(c, s, step);
    if part != [] {
      LockStepKeepsInv(s.sys, part[0]);
    }
  }

  lemma {:induction false} WayToCommand(c: W.Config, s: Cluster, v: nat, i: nat, a: nat, job: string)
    returns (steps: seq<ClusterStep>)
    requires L.Inv(s.sys) && OnItsWay(s, v, i, a, job)
    ensures NoLeaseDies(steps)
    ensures var s' := Run(c, s, steps); RunsCommand(s', v, i, job) && OthersStay(s, s', v)
    decreases L.Distance(s.sys, a)
  {
    steps := [];
    if L.Runs(s.sys, a, job) {
      assert s.workers[v].phases[i].Running?;
    } else {
      var step := Onward(s, v, i, a, job);
      OnwardWorks(c, s, v, i, a, job);
      StepKeepsLock(c, s, step);
      var rest := WayToCommand(c, Next(c, s, step), v, i, a, job);
      First(c, s, step, rest);
      steps := [step] + rest;
    }
  }

  /** Which executions can come to run their command without any lease dying: exactly those that
      CanRun, wherever in TryLock they are. */
  lemma CommandReachableIffCanRun(c: W.Config, s: Cluster, v: nat, i: nat, job: string)
    requires LibraryLaw(c.cron) && Inv(c, s)
    requires InRange(s.workers, Tag(v, i)) && s.workers[v].t.started[i].job.name == job
    ensures (exists steps :: NoLeaseDies(steps) && RunsCommand(Run(c, s, steps), v, i, job)) <==> CanRun(s, v, i, job)
  {
    if CanRun(s, v, i, job) {
      var a := WayOf(c, s, v, i, job);
      var steps := WayToCommand(c, s, v, i, a, job);
    }
    forall steps | NoLeaseDies(steps) && RunsCommand(Run(c, s, steps), v, i, job) ensures CanRun(s, v, i, job) {
      RunningCouldRun(c, s, steps, v, i, job);
    }
  }

  /** Two commands of the job run. */
  predicate BothRun(s: Cluster, v1: nat, i1: nat, v2: nat, i2: nat, job: string) {
    RunsCommand(s, v1, i1, job) && RunsCommand(s, v2, i2, job)
  }

  lemma JoinerIsElsewhere(s: Cluster, v1: nat, i1: nat, v2: nat, i2: nat, a: nat, job: string)
    requires RunsCommand(s, v1, i1, job) && OnItsWay(s, v2, i2, a, job) && (v1, i1) != (v2, i2)
    requires W.SingleFlight(s.workers[v1].t.executing, s.workers[v1].t.started, s.workers[v1].phases)
    ensures v1 != v2
  {
  }

  lemma CanJoin(c: W.Config, s: Cluster, v1: nat, i1: nat, v2: nat, i2: nat, job: string)
    returns (steps: seq<ClusterStep>)
    requires Inv(c, s) && RunsCommand(s, v1, i1, job) && CanRun(s, v2, i2, job) && (v1, i1) != (v2, i2)
    ensures NoLeaseDies(steps) && BothRun(Run(c, s, steps), v1, i1, v2, i2, job)
  {
    WorkersFlight(c, s.workers);
    var a := WayOf(c, s, v2, i2, job);
    JoinerIsElsewhere(s, v1, i1, v2, i2, a, job);
    steps := WayToCommand(c, s, v2, i2, a, job);
    assert Run(c, s, steps).workers[v1] == s.workers[v1];
  }

  /** Overlap, exactly. While a command of a job runs, another execution of that job, at whatever
      point it is, can come to run its command beside it, with no further lease dying, if and only
      if it CanRun. One that has not begun can if and only if the lock key is absent, that is, no
      winner of the job has a live lease; one inside TryLock can also if it has won already, be its
      lease and the key where they may. */
  lemma OverlapIffCanRun(c: W.Config, s: Cluster, v1: nat, i1: nat, v2: nat, i2: nat, job: string)
    requires LibraryLaw(c.cron) && Inv(c, s) && RunsCommand(s, v1, i1, job) && (v1, i1) != (v2, i2)
    requires InRange(s.workers, Tag(v2, i2)) && s.workers[v2].t.started[i2].job.name == job
    ensures (exists steps :: NoLeaseDies(steps) && BothRun(Run(c, s, steps), v1, i1, v2, i2, job))
            <==> CanRun(s, v2, i2, job)
    ensures s.workers[v2].phases[i2] == W.Spawned ==> (CanRun(s, v2, i2, job) <==> L.NoLiveWinner(s.sys, job))
  {
    L.FreeIffNoLiveWinner(s.sys, job);
    if CanRun(s, v2, i2, job) {
      var steps := CanJoin(c, s, v1, i1, v2, i2, job);
    }
    forall steps | NoLeaseDies(steps) && BothRun(Run(c, s, steps), v1, i1, v2, i2, job) ensures CanRun(s, v2, i2, job) {
      RunningCouldRun(c, s, steps, v2, i2, job);
    }
  }
}
