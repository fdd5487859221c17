/** Lost races of a cluster, from the answer of etcd to the result that is not logged. */
module ClusterResults {
  import opened Protocol
  import L = LockModel
  import W = WorkerModel
  import R = ResultTheorems
  import opened ClusterModel

  /** The results of a worker that were sent so far. */
  function Results(w: W.Worker): seq<Outcome> {
    R.HandledResults(w.history) + w.results
  }

  /** Execution i has this result, sent or about to be sent. */
  predicate EndsWith(w: W.Worker, i: nat, o: Outcome) {
    (i < |w.phases| && w.phases[i] == W.Pushing(o)) || (o.exec == i && o in Results(w))
  }

  /** What the result of an attempt that stands here may say. */
  predicate Says(o: Outcome, pc: L.Pc) {
    && (o.err == LockTaken <==> pc == L.Refused(L.AlreadyTaken))
    && (pc == L.Refused(L.Unavailable) ==> o.err == Other("etcd") && o.output == "")
  }

  ghost predicate RaceTold(workers: seq<W.Worker>, tag: Tag, attempt: L.Attempt) {
    tag.worker < |workers| ==>
      forall o :: EndsWith(workers[tag.worker], tag.exec, o) ==> Says(o, attempt.pc)
  }

  /** The result of an execution is a lost race exactly if its attempt was refused for that. */
  ghost predicate RacesTold(workers: seq<W.Worker>, tags: seq<Tag>, attempts: seq<L.Attempt>) {
    |tags| == |attempts| && forall a :: 0 <= a < |tags| ==> RaceTold(workers, tags[a], attempts[a])
  }

  lemma {:induction false} HandledHaveEnded(history: seq<W.Entry>, o: Outcome)
    requires o in R.HandledResults(history)
    ensures exists k :: 0 <= k < |history| && history[k].Ended? && history[k].outcome == o
  {
    var init, last := history[..|history| - 1], history[|history| - 1];
    if o in R.HandledResults(init) {
      HandledHaveEnded(init, o);
      var k :| 0 <= k < |init| && init[k].Ended? && init[k].outcome == o;
      assert history[k] == init[k];
    } else {
      assert last.Ended? && last.outcome == o;
    }
  }

  lemma HandledMeansOver(history: seq<W.Entry>, begunAt: seq<nat>, started: seq<Info>, phases: seq<W.Phase>, o: Outcome)
    requires W.Recorded(history, begunAt, started, phases) && o in R.HandledResults(history)
    ensures o.exec < |phases| && phases[o.exec] == W.Handled
  {
    HandledHaveEnded(history, o);
  }

  lemma QueuedMeansOver(results: seq<Outcome>, phases: seq<W.Phase>, o: Outcome)
    requires W.QueueOk(results, phases) && o in results
    ensures o.exec < |phases| && phases[o.exec] == W.Pushed
  {
  }

  lemma InvParts(c: W.Config, w: W.Worker)
    requires W.Inv(c, w)
    ensures W.Recorded(w.history, w.begunAt, w.t.started, w.phases) && W.QueueOk(w.results, w.phases)
  {
  }

  /** An execution with a result is over. */
  lemma ResultMeansOver(w: W.Worker, i: nat, o: Outcome)
    requires W.Recorded(w.history, w.begunAt, w.t.started, w.phases) && W.QueueOk(w.results, w.phases)
    requires EndsWith(w, i, o)
    ensures i < |w.phases| && KindOf(w.phases[i]) == Over
  {
    if !(i < |w.phases| && w.phases[i] == W.Pushing(o)) {
      if o in R.HandledResults(w.history) {
        HandledMeansOver(w.history, w.begunAt, w.t.started, w.phases, o);
      } else {
        QueuedMeansOver(w.results, w.phases, o);
      }
    }
  }

  ghost predicate ResultsOver(w: W.Worker) {
    forall i: nat, o :: EndsWith(w, i, o) ==> i < |w.phases| && KindOf(w.phases[i]) == Over
  }

  ghost predicate AllResultsOver(workers: seq<W.Worker>) {
    forall v :: 0 <= v < |workers| ==> ResultsOver(workers[v])
  }

  lemma InvResultsOver(c: W.Config, workers: seq<W.Worker>)
    requires WorkersOk(c, workers)
    ensures AllResultsOver(workers)
  {
    forall v, i: nat, o | 0 <= v < |workers| && EndsWith(workers[v], i, o)
      ensures i < |workers[v].phases| && KindOf(workers[v].phases[i]) == Over
    {
      InvParts(c, workers[v]);
      ResultMeansOver(workers[v], i, o);
    }
  }

  lemma SendResults(c: W.Config, w: W.Worker, j: nat, i: nat, o: Outcome)
    requires W.FlightOk(c, w) && W.Enabled(c, w, W.PushResult(j)) && EndsWith(W.Next(c, w, W.PushResult(j)), i, o)
    ensures EndsWith(w, i, o)
  {
    R.StepKeepsResultOrder(c, w, W.PushResult(j));
  }

  lemma QuietPhases(c: W.Config, w: W.Worker, step: W.WorkerStep, i: nat)
    requires Lockless(step) && W.Enabled(c, w, step)
    requires i < |W.Next(c, w, step).phases| && W.Next(c, w, step).phases[i].Pushing?
    ensures i < |w.phases| && w.phases[i] == W.Next(c, w, step).phases[i]
  {
  }

  /** Steps that involve no lock bring no execution a result that it did not have. */
  lemma LocklessResults(c: W.Config, w: W.Worker, step: W.WorkerStep, i: nat, o: Outcome)
    requires W.FlightOk(c, w) && Lockless(step) && W.Enabled(c, w, step) && EndsWith(W.Next(c, w, step), i, o)
    ensures EndsWith(w, i, o)
  {
    if step.PushResult? {
      SendResults(c, w, step.i, i, o);
    } else {
      R.StepKeepsResultOrder(c, w, step);
      var w' := W.Next(c, w, step);
      if i < |w'.phases| && w'.phases[i] == W.Pushing(o) {
        QuietPhases(c, w, step, i);
      }
    }
  }

  /** The end of an execution's TryLock or command brings that execution its result only. */
  lemma PhaseResults(w: W.Worker, j: nat, phase: W.Phase, i: nat, o: Outcome)
    requires j < |w.phases| && EndsWith(W.SetPhase(w, j, phase), i, o)
    ensures EndsWith(w, i, o) || (i == j && phase == W.Pushing(o))
  {
  }

  lemma WorkerMoveTells(c: W.Config, s: Cluster, v: nat, step: W.WorkerStep)
    requires RacesTold(s.workers, s.tags, s.sys.attempts)
    requires Enabled(c, s, WorkerMoves(v, step)) && W.FlightOk(c, s.workers[v])
    ensures RacesTold(MoveWorker(c, s, v, step).workers, s.tags, s.sys.attempts)
  {
    var workers := MoveWorker(c, s, v, step).workers;
    forall a | 0 <= a < |s.tags| ensures RaceTold(workers, s.tags[a], s.sys.attempts[a]) {
      assert RaceTold(s.workers, s.tags[a], s.sys.attempts[a]);
      var tag := s.tags[a];
      if tag.worker == v {
        forall o | EndsWith(workers[v], tag.exec, o) ensures EndsWith(s.workers[v], tag.exec, o) {
          LocklessResults(c, s.workers[v], step, tag.exec, o);
        }
      }
    }
  }

  /** One execution goes on to a new phase, which brings its attempt's story to this end. */
  lemma PhaseTells(c: W.Config, s: Cluster, tag: Tag, phase: W.Phase, attempts: seq<L.Attempt>)
    requires RacesTold(s.workers, s.tags, s.sys.attempts) && InRange(s.workers, tag)
    requires |attempts| == |s.tags|
    requires forall a :: 0 <= a < |s.tags| && s.tags[a] != tag ==> attempts[a] == s.sys.attempts[a]
    requires forall o :: !EndsWith(s.workers[tag.worker], tag.exec, o)
    requires phase.Pushing? ==> forall a :: 0 <= a < |s.tags| && s.tags[a] == tag ==>
               Says(phase.outcome, attempts[a].pc)
    ensures RacesTold(s.workers[tag.worker := W.SetPhase(s.workers[tag.worker], tag.exec, phase)], s.tags, attempts)
  {
    var w := s.workers[tag.worker];
    var workers := s.workers[tag.worker := W.SetPhase(w, tag.exec, phase)];
    forall a | 0 <= a < |s.tags| ensures RaceTold(workers, s.tags[a], attempts[a]) {
      assert RaceTold(s.workers, s.tags[a], s.sys.attempts[a]);
      if s.tags[a].worker == tag.worker {
        forall o | EndsWith(workers[tag.worker], s.tags[a].exec, o)
          ensures EndsWith(w, s.tags[a].exec, o) || (s.tags[a] == tag && phase == W.Pushing(o))
        {
          PhaseResults(w, tag.exec, phase, s.tags[a].exec, o);
        }
      }
    }
  }

  lemma EdgeTells(c: W.Config, s: Cluster, step: ClusterStep)
    requires AllResultsOver(s.workers) && RacesTold(s.workers, s.tags, s.sys.attempts)
    requires forall a, b :: 0 <= a < b < |s.tags| ==> s.tags[a] != s.tags[b]
    requires Enabled(c, s, step) && (step.LoseLock? || step.StartCommand? || step.EndCommand?)
    ensures var s' := Next(c, s, step); RacesTold(s'.workers, s'.tags, s'.sys.attempts)
  {
    EdgeStep(c, s, step);
    EdgeAnswer(c, s, step);
    var s', tag := Next(c, s, step), s.tags[step.a];
    assert ResultsOver(s.workers[tag.worker]);
    PhaseTells(c, s, tag, EdgePhase(s, step), s'.sys.attempts);
  }

  /** The result that an attempt's end brings is LockTaken exactly if it was refused for that. */
  lemma EdgeAnswer(c: W.Config, s: Cluster, step: ClusterStep)
    requires Enabled(c, s, step) && (step.LoseLock? || step.StartCommand? || step.EndCommand?)
    ensures KindOf(PhaseOf(s.workers, s.tags[step.a])) != Over
    ensures var phase, attempts := EdgePhase(s, step), Next(c, s, step).sys.attempts;
            phase.Pushing? ==> Says(phase.outcome, attempts[step.a].pc)
  {
  }

  lemma LaunchTells(c: W.Config, s: Cluster, v: nat, i: nat)
    requires AllResultsOver(s.workers) && RacesTold(s.workers, s.tags, s.sys.attempts) && Enabled(c, s, Launch(v, i))
    ensures var s' := Next(c, s, Launch(v, i)); RacesTold(s'.workers, s'.tags, s'.sys.attempts)
  {
    var s', phase := Next(c, s, Launch(v, i)), W.Contending(s.workers[v].clock);
    assert ResultsOver(s.workers[v]);
    LaunchKeepsOthers(c, s, v, i);
    forall o ensures !EndsWith(W.SetPhase(s.workers[v], i, phase), i, o) {
      if EndsWith(W.SetPhase(s.workers[v], i, phase), i, o) {
        PhaseResults(s.workers[v], i, phase, i, o);
      }
    }
    assert RaceTold(s'.workers, Tag(v, i), s'.sys.attempts[|s.tags|]);
  }

  lemma LaunchKeepsOthers(c: W.Config, s: Cluster, v: nat, i: nat)
    requires AllResultsOver(s.workers) && RacesTold(s.workers, s.tags, s.sys.attempts) && Enabled(c, s, Launch(v, i))
    ensures RacesTold(Next(c, s, Launch(v, i)).workers, s.tags, s.sys.attempts)
    ensures |Next(c, s, Launch(v, i)).sys.attempts| == |s.tags| + 1
    ensures Next(c, s, Launch(v, i)).sys.attempts[..|s.tags|] == s.sys.attempts
  {
    assert ResultsOver(s.workers[v]);
    PhaseTells(c, s, Tag(v, i), W.Contending(s.workers[v].clock), s.sys.attempts);
  }

  /** Where an execution is over, its attempt is at an end that no step inside TryLock leaves. */
  lemma LockMoveTells(c: W.Config, s: Cluster, move: L.Step)
    requires AllResultsOver(s.workers) && RacesTold(s.workers, s.tags, s.sys.attempts)
    requires Linked(Views(s.workers), s.tags, s.sys.attempts) && InsideTryLock(move) && L.Enabled(s.sys, move)
    ensures RacesTold(s.workers, s.tags, L.Next(s.sys, move).attempts)
  {
    var attempts := L.Next(s.sys, move).attempts;
    forall a | 0 <= a < |s.tags| ensures RaceTold(s.workers, s.tags[a], attempts[a]) {
      assert RaceTold(s.workers, s.tags[a], s.sys.attempts[a]);
      assert Fits(Views(s.workers), s.tags[a], s.sys.attempts[a]);
      assert ResultsOver(s.workers[s.tags[a].worker]);
      EndStays(s.sys, move, a);
    }
  }

  lemma EndStays(sys: L.System, move: L.Step, a: nat)
    requires InsideTryLock(move) && L.Enabled(sys, move) && a < |sys.attempts|
    ensures |L.Next(sys, move).attempts| == |sys.attempts|
    ensures Matches(sys.attempts[a].pc, Over) ==> L.Next(sys, move).attempts[a] == sys.attempts[a]
  {
  }

  lemma UnlockTells(c: W.Config, s: Cluster, a: nat, applied: bool)
    requires RacesTold(s.workers, s.tags, s.sys.attempts) && Enabled(c, s, Unlock(a, applied))
    ensures RacesTold(s.workers, s.tags, Next(c, s, Unlock(a, applied)).sys.attempts)
  {
    var attempts := Next(c, s, Unlock(a, applied)).sys.attempts;
    forall b | 0 <= b < |s.tags| ensures RaceTold(s.workers, s.tags[b], attempts[b]) {
      assert RaceTold(s.workers, s.tags[b], s.sys.attempts[b]);
    }
  }

  lemma StepTells(c: W.Config, s: Cluster, step: ClusterStep)
    requires WorkersOk(c, s.workers) && Linked(Views(s.workers), s.tags, s.sys.attempts)
        && RacesTold(s.workers, s.tags, s.sys.attempts) && Enabled(c, s, step)
    ensures var s' := Next(c, s, step); RacesTold(s'.workers, s'.tags, s'.sys.attempts)
  {
    InvResultsOver(c, s.workers);
    WorkersFlight(c, s.workers);
    match step
    case WorkerMoves(v, ws) => WorkerMoveTells(c, s, v, ws);
    case Launch(v, i) => LaunchTells(c, s, v, i);
    case LockMoves(move) => LockMoveTells(c, s, move);
    case Unlock(a, applied) => UnlockTells(c, s, a, applied);
    case _ => EdgeTells(c, s, step);
  }

  lemma {:induction false} RunTells(c: W.Config, start: Cluster, steps: seq<ClusterStep>)
    requires LibraryLaw(c.cron) && Fresh(start)
    ensures var s := Run(c, start, steps); Inv(c, s) && RacesTold(s.workers, s.tags, s.sys.attempts)
  {
    FreshOk(c, start);
    RunKeepsInv(c, start, steps);
    if steps != [] {
      RunTells(c, start, steps[..|steps| - 1]);
      var mid := Run(c, start, steps[..|steps| - 1]);
      if Enabled(c, mid, steps[|steps| - 1]) {
        StepTells(c, mid, steps[|steps| - 1]);
      }
    }
  }

  /** In every run of a cluster, the result of an execution is LockTaken, and so is not logged, if
      and only if etcd answered Taken to the attempt of that execution. */
  lemma LostRaceIffAnsweredTaken(c: W.Config, start: Cluster, steps: seq<ClusterStep>, a: nat, o: Outcome)
    requires LibraryLaw(c.cron) && Fresh(start)
    requires var s := Run(c, start, steps);
             && a < |s.tags| && a < |s.sys.attempts| && s.tags[a].worker < |s.workers|
             && EndsWith(s.workers[s.tags[a].worker], s.tags[a].exec, o)
    ensures o.err == LockTaken <==> L.Got(L.START, LockParts(c, start, steps), 0, a, L.Taken)
    ensures Says(o, Run(c, start, steps).sys.attempts[a].pc)
  {
    var s := Run(c, start, steps);
    RunTells(c, start, steps);
    ClusterRunIsLockRun(c, start, steps);
    L.AnswerDecides(LockParts(c, start, steps), a);
    assert RaceTold(s.workers, s.tags[a], s.sys.attempts[a]);
    assert Fits(Views(s.workers), s.tags[a], s.sys.attempts[a]);
    InvParts(c, s.workers[s.tags[a].worker]);
    ResultMeansOver(s.workers[s.tags[a].worker], s.tags[a].exec, o);
  }

  // ---------------------------------------------------------------- the order of send and unlock

  predicate HasSent(phase: W.Phase) { phase == W.Pushed || phase == W.Handled }

  /** An attempt that was released belongs to an execution that has sent its result. */
  ghost predicate ReleasedAfterSend(workers: seq<W.Worker>, tags: seq<Tag>, attempts: seq<L.Attempt>) {
    |tags| == |attempts| && forall a :: 0 <= a < |tags| && attempts[a].pc == L.Released ==>
      InRange(workers, tags[a]) && HasSent(PhaseOf(workers, tags[a]))
  }

  lemma SentForGood(c: W.Config, w: W.Worker, step: W.WorkerStep, i: nat)
    requires i < |w.phases| && i < |w.t.started| && HasSent(w.phases[i])
    ensures var w' := W.Do(c, w, step); i < |w'.phases| && i < |w'.t.started| && HasSent(w'.phases[i])
  {
  }

  lemma MoveKeepsSent(c: W.Config, s: Cluster, v: nat, step: W.WorkerStep)
    requires ReleasedAfterSend(s.workers, s.tags, s.sys.attempts) && v < |s.workers|
    ensures ReleasedAfterSend(MoveWorker(c, s, v, step).workers, s.tags, s.sys.attempts)
  {
    forall a | 0 <= a < |s.tags| && s.sys.attempts[a].pc == L.Released && s.tags[a].worker == v
      ensures var w' := W.Do(c, s.workers[v], step); var i := s.tags[a].exec;
              i < |w'.phases| && i < |w'.t.started| && HasSent(w'.phases[i])
    {
      SentForGood(c, s.workers[v], step, s.tags[a].exec);
    }
  }

  /** What a step does to the attempts: only an Unlock releases one. */
  lemma OnlyUnlockReleases(c: W.Config, s: Cluster, step: ClusterStep, a: nat)
    requires Enabled(c, s, step) && a < |Next(c, s, step).sys.attempts|
    requires Next(c, s, step).sys.attempts[a].pc == L.Released
    ensures a < |s.sys.attempts|
    ensures s.sys.attempts[a].pc == L.Released || (step.Unlock? && step.a == a)
  {
    var part := LockPart(c, s, step);
    LockPartMoves(c, s, step);
    if part != [] && L.Enabled(s.sys, part[0]) {
      OnlyUnlockReleasesIt(s.sys, part[0], a);
    }
  }

  lemma OnlyUnlockReleasesIt(sys: L.System, move: L.Step, a: nat)
    requires L.Enabled(sys, move) && a < |L.Next(sys, move).attempts| && L.Next(sys, move).attempts[a].pc == L.Released
    ensures a < |sys.attempts|
    ensures sys.attempts[a].pc == L.Released || (move.Unlock? && move.a == a)
  {
  }

  lemma StepKeepsOrder(c: W.Config, s: Cluster, step: ClusterStep)
    requires ReleasedAfterSend(s.workers, s.tags, s.sys.attempts) && Enabled(c, s, step)
    requires |Next(c, s, step).tags| == |Next(c, s, step).sys.attempts|
    ensures var s' := Next(c, s, step); ReleasedAfterSend(s'.workers, s'.tags, s'.sys.attempts)
  {
    var s' := Next(c, s, step);
    WorkersMoved(c, s, step);
    forall a | 0 <= a < |s'.tags| && s'.sys.attempts[a].pc == L.Released
      ensures InRange(s'.workers, s'.tags[a]) && HasSent(PhaseOf(s'.workers, s'.tags[a]))
    {
      OnlyUnlockReleases(c, s, step, a);
    }
  }

  lemma WorkersMoved(c: W.Config, s: Cluster, step: ClusterStep)
    requires ReleasedAfterSend(s.workers, s.tags, s.sys.attempts) && Enabled(c, s, step)
    ensures ReleasedAfterSend(Next(c, s, step).workers, s.tags, s.sys.attempts)
    ensures s.tags <= Next(c, s, step).tags
  {
    match step
    case WorkerMoves(v, ws) => MoveKeepsSent(c, s, v, ws);
    case Launch(v, i) => MoveKeepsSent(c, s, v, W.Begin(i));
    case LoseLock(a) =>
      MoveKeepsSent(c, s, s.tags[a].worker, W.LockFails(s.tags[a].exec, ToExecError(s.sys.attempts[a].pc.err)));
    case StartCommand(a) => MoveKeepsSent(c, s, s.tags[a].worker, W.LockWon(s.tags[a].exec));
    case EndCommand(a, output, err) =>
      MoveKeepsSent(c, s, s.tags[a].worker, W.CommandEnds(s.tags[a].exec, output, err));
    case LockMoves(_) =>
    case Unlock(_, _) =>
  }

  /** In every run of a cluster a lock is given back only after the result of its execution was
      sent: when the next winner starts, the last one's result is in its worker's channel. */
  lemma {:induction false} UnlockedAfterSend(c: W.Config, start: Cluster, steps: seq<ClusterStep>)
    requires LibraryLaw(c.cron) && Fresh(start)
    ensures var s := Run(c, start, steps); ReleasedAfterSend(s.workers, s.tags, s.sys.attempts)
  {
    if steps != [] {
      var init, last := steps[..|steps| - 1], steps[|steps| - 1];
      UnlockedAfterSend(c, start, init);
      RunTells(c, start, steps);
      if Enabled(c, Run(c, start, init), last) {
        StepKeepsOrder(c, Run(c, start, init), last);
      }
    }
  }
}
