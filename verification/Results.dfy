/**
  What becomes of the result of an execution, from the command to the log record, in every run of
  a worker: what the goroutine was told, the result channel, the handler, the log sink.
*/
module ResultTheorems {
  import opened GoTime
  import opened Protocol
  import SinkModel
  import opened WorkerModel
  import opened WorkerTheorems

  // ---------------------------------------------------------------- the result channel

  /** The results that the goroutines sent in a run, in the order of their sends. */
  ghost function Sent(c: Config, w: Worker, steps: seq<WorkerStep>): seq<Outcome> {
    if steps == [] then []
    else
      var mid, last := Run(c, w, steps[..|steps| - 1]), steps[|steps| - 1];
      Sent(c, w, steps[..|steps| - 1])
      + if last.PushResult? && Enabled(c, mid, last) then [mid.phases[last.i].outcome] else []
  }

  /** The results that were handled, in order. */
  function HandledResults(history: seq<Entry>): seq<Outcome> {
    if history == [] then []
    else
      var last := history[|history| - 1];
      HandledResults(history[..|history| - 1]) + if last.Ended? then [last.outcome] else []
  }

  lemma HandledOneMore(history: seq<Entry>, e: Entry)
    ensures HandledResults(history + [e]) == HandledResults(history) + if e.Ended? then [e.outcome] else []
  {
    assert (history + [e])[..|history|] == history;
  }

  lemma TakeKeepsResultOrder(history: seq<Entry>, results: seq<Outcome>, info: Info)
    requires results != []
    ensures HandledResults(history + [Ended(results[0], info)]) + results[1..] == HandledResults(history) + results
  {
    HandledOneMore(history, Ended(results[0], info));
  }

  lemma OthersKeepResultOrder(c: Config, w: Worker, step: WorkerStep)
    requires Enabled(c, w, step) && !step.TakeResult?
    ensures HandledResults(Next(c, w, step).history) == HandledResults(w.history)
    ensures Next(c, w, step).results == w.results + if step.PushResult? then [w.phases[step.i].outcome] else []
  {
    if step.TakeEvent? {
      HandledOneMore(w.history, Received(w.events[0]));
    } else if step.VisitOne? {
      HandledOneMore(w.history, Begun(|w.t.started|));
    }
  }

  lemma StepKeepsResultOrder(c: Config, w: Worker, step: WorkerStep)
    ensures var w' := Do(c, w, step);
            HandledResults(w'.history) + w'.results ==
            HandledResults(w.history) + w.results
              + if step.PushResult? && Enabled(c, w, step) then [w.phases[step.i].outcome] else []
  {
    if Enabled(c, w, step) {
      if step.TakeResult? {
        TakeKeepsResultOrder(w.history, w.results, w.t.started[w.results[0].exec]);
      } else {
        OthersKeepResultOrder(c, w, step);
      }
    }
  }

  /** Results are handled in the order in which they were sent, none lost and none twice; those not
      yet handled are in the channel. */
  lemma {:induction false} ResultsHandledInOrder(c: Config, clock: Time, steps: seq<WorkerStep>)
    ensures var w := Run(c, Init(clock), steps); HandledResults(w.history) + w.results == Sent(c, Init(clock), steps)
  {
    if steps != [] {
      ResultsHandledInOrder(c, clock, steps[..|steps| - 1]);
      StepKeepsResultOrder(c, Run(c, Init(clock), steps[..|steps| - 1]), steps[|steps| - 1]);
    }
  }

  ghost predicate PushedAreQueued(results: seq<Outcome>, phases: seq<Phase>) {
    forall i :: 0 <= i < |phases| && phases[i] == Pushed ==> Queued(results, i)
  }

  lemma SendQueues(results: seq<Outcome>, phases: seq<Phase>, i: nat)
    requires PushedAreQueued(results, phases) && i < |phases| && phases[i].Pushing? && phases[i].outcome.exec == i
    ensures PushedAreQueued(results + [phases[i].outcome], phases[i := Pushed])
  {
    var longer := results + [phases[i].outcome];
    assert longer[|results|].exec == i;
    forall e: nat | Queued(results, e) ensures Queued(longer, e) {
      var k :| 0 <= k < |results| && results[k].exec == e;
      assert longer[k].exec == e;
    }
  }

  lemma HandlingDequeues(results: seq<Outcome>, phases: seq<Phase>)
    requires PushedAreQueued(results, phases) && results != [] && results[0].exec < |phases|
    ensures PushedAreQueued(results[1..], phases[results[0].exec := Handled])
  {
    forall i: nat | i < |phases| && i != results[0].exec && phases[i] == Pushed ensures Queued(results[1..], i) {
      var k :| 0 <= k < |results| && results[k].exec == i;
      assert results[1..][k - 1].exec == i;
    }
  }

  lemma OthersKeepPushed(c: Config, w: Worker, step: WorkerStep)
    requires Enabled(c, w, step) && !step.PushResult? && !step.TakeResult?
    ensures Next(c, w, step).results == w.results
    ensures forall i :: 0 <= i < |Next(c, w, step).phases| && Next(c, w, step).phases[i] == Pushed ==>
              i < |w.phases| && w.phases[i] == Pushed
  {
  }

  lemma StepKeepsQueued(c: Config, w: Worker, step: WorkerStep)
    requires QueueOk(w.results, w.phases) && PushedAreQueued(w.results, w.phases) && Enabled(c, w, step)
    ensures PushedAreQueued(Next(c, w, step).results, Next(c, w, step).phases)
  {
    if step.PushResult? {
      SendQueues(w.results, w.phases, step.i);
    } else if step.TakeResult? {
      HandlingDequeues(w.results, w.phases);
    } else {
      OthersKeepPushed(c, w, step);
    }
  }

  lemma {:induction false} RunKeepsQueued(c: Config, clock: Time, steps: seq<WorkerStep>)
    requires LibraryLaw(c.cron) && clock >= 0
    ensures var w := Run(c, Init(clock), steps); FlightOk(c, w) && PushedAreQueued(w.results, w.phases)
  {
    InitOk(c, clock);
    RunKeepsInv(c, Init(clock), steps);
    if steps != [] {
      var init, last := steps[..|steps| - 1], steps[|steps| - 1];
      RunKeepsQueued(c, clock, init);
      if Enabled(c, Run(c, Init(clock), init), last) {
        StepKeepsQueued(c, Run(c, Init(clock), init), last);
      }
    }
  }

  /** An execution has sent its result and not had it handled if and only if the channel holds a
      result of it; and then exactly one. */
  lemma SentIffQueued(c: Config, w: Worker, i: nat)
    requires LibraryLaw(c.cron) && Reachable(c, w) && i < |w.phases|
    ensures w.phases[i] == Pushed <==> Queued(w.results, i)
    ensures forall k, l :: 0 <= k < |w.results| && 0 <= l < |w.results| && w.results[k].exec == w.results[l].exec ==>
        k == l
  {
    var clock, steps :| clock >= 0 && w == Run(c, Init(clock), steps);
    RunKeepsQueued(c, clock, steps);
  }

  lemma {:induction false} HandledAreCounted(history: seq<Entry>)
    ensures |HandledResults(history)| == ResultsHandled(history)
  {
    if history != [] {
      HandledAreCounted(history[..|history| - 1]);
    }
  }

  /** End to end, from the send on: every result sent waits in the channel, or was a lost race for
      the lock, or its log was dropped, saved, is in the open batch or is queued. */
  lemma EverySentResultAccountedFor(c: Config, clock: Time, steps: seq<WorkerStep>)
    requires LibraryLaw(c.cron) && clock >= 0
    ensures var w := Run(c, Init(clock), steps);
            |Sent(c, Init(clock), steps)| ==
            |w.results| + RacesLost(w.history) + Dropped(w.sink.attempts)
              + |SinkModel.Flatten(w.sink.saved)| + |SinkModel.OpenLogs(w.sink)| + |w.sink.queue|
  {
    var w := Run(c, Init(clock), steps);
    assert Reachable(c, w);
    EveryResultAccountedFor(c, w);
    ResultsHandledInOrder(c, clock, steps);
    HandledAreCounted(w.history);
  }

  // ---------------------------------------------------------------- what a result says

  /** The run makes this step at position m, when the clock shows `time`. */
  ghost predicate Makes(c: Config, w0: Worker, steps: seq<WorkerStep>, m: nat, step: WorkerStep, time: Time) {
    && m < |steps| && steps[m] == step
    && Enabled(c, Run(c, w0, steps[..m]), step) && Run(c, w0, steps[..m]).clock == time
  }

  ghost predicate Made(c: Config, w0: Worker, steps: seq<WorkerStep>, step: WorkerStep, time: Time) {
    exists m: nat :: Makes(c, w0, steps, m, step, time)
  }

  /** The lock was refused with this error. The result carries no output, and the instants at which
      the goroutine began and at which it was refused. */
  ghost predicate WasRefused(c: Config, w0: Worker, steps: seq<WorkerStep>, o: Outcome) {
    && o.output == "" && o.err != NoError
    && Made(c, w0, steps, Begin(o.exec), o.startTime) && Made(c, w0, steps, LockFails(o.exec, o.err), o.endTime)
  }

  /** The command ran. The result carries its output and its error, and the instants at which the
      lock was won, not at which the goroutine began, and at which the command ended. */
  ghost predicate HasRun(c: Config, w0: Worker, steps: seq<WorkerStep>, o: Outcome) {
    && o.err != LockTaken
    && Made(c, w0, steps, LockWon(o.exec), o.startTime)
        && Made(c, w0, steps, CommandEnds(o.exec, o.output, o.err), o.endTime)
  }

  ghost predicate TellsTheTruth(c: Config, w0: Worker, steps: seq<WorkerStep>, o: Outcome) {
    WasRefused(c, w0, steps, o) || HasRun(c, w0, steps, o)
  }

  ghost predicate PhaseTold(c: Config, w0: Worker, steps: seq<WorkerStep>, i: nat, phase: Phase) {
    match phase
    case Contending(start) => Made(c, w0, steps, Begin(i), start)
    case Running(start) => Made(c, w0, steps, LockWon(i), start)
    case Pushing(o) => o.exec == i && TellsTheTruth(c, w0, steps, o)
    case _ => true
  }

  ghost predicate AllTold(c: Config, w0: Worker, steps: seq<WorkerStep>, phases: seq<Phase>) {
    forall i :: 0 <= i < |phases| ==> PhaseTold(c, w0, steps, i, phases[i])
  }

  lemma MadeOneMore(c: Config, w0: Worker, steps: seq<WorkerStep>, next: WorkerStep, step: WorkerStep, time: Time)
    requires Made(c, w0, steps, step, time)
    ensures Made(c, w0, steps + [next], step, time)
  {
    var m: nat :| Makes(c, w0, steps, m, step, time);
    assert (steps + [next])[..m] == steps[..m];
    assert Makes(c, w0, steps + [next], m, step, time);
  }

  lemma MadeNow(c: Config, w0: Worker, steps: seq<WorkerStep>, step: WorkerStep)
    requires Enabled(c, Run(c, w0, steps), step)
    ensures Made(c, w0, steps + [step], step, Run(c, w0, steps).clock)
  {
    assert (steps + [step])[..|steps|] == steps;
    assert Makes(c, w0, steps + [step], |steps|, step, Run(c, w0, steps).clock);
  }

  lemma TruthOneMore(c: Config, w0: Worker, steps: seq<WorkerStep>, next: WorkerStep, o: Outcome)
    requires TellsTheTruth(c, w0, steps, o)
    ensures TellsTheTruth(c, w0, steps + [next], o)
  {
    if WasRefused(c, w0, steps, o) {
      MadeOneMore(c, w0, steps, next, Begin(o.exec), o.startTime);
      MadeOneMore(c, w0, steps, next, LockFails(o.exec, o.err), o.endTime);
    } else {
      MadeOneMore(c, w0, steps, next, LockWon(o.exec), o.startTime);
      MadeOneMore(c, w0, steps, next, CommandEnds(o.exec, o.output, o.err), o.endTime);
    }
  }

  lemma ToldOneMore(c: Config, w0: Worker, steps: seq<WorkerStep>, next: WorkerStep, i: nat, phase: Phase)
    requires PhaseTold(c, w0, steps, i, phase)
    ensures PhaseTold(c, w0, steps + [next], i, phase)
  {
    match phase
    case Contending(start) => MadeOneMore(c, w0, steps, next, Begin(i), start);
    case Running(start) => MadeOneMore(c, w0, steps, next, LockWon(i), start);
    case Pushing(o) => TruthOneMore(c, w0, steps, next, o);
    case _ =>
  }

  /** A goroutine's step tells of itself. */
  lemma GoroutineTells(c: Config, w0: Worker, steps: seq<WorkerStep>, step: WorkerStep)
    requires var w := Run(c, w0, steps);
             ByGoroutine(step) && Enabled(c, w, step) && PhaseTold(c, w0, steps, step.i, w.phases[step.i])
    ensures PhaseTold(c, w0, steps + [step], step.i, Next(c, Run(c, w0, steps), step).phases[step.i])
  {
    MadeNow(c, w0, steps, step);
    var w := Run(c, w0, steps);
    if step.LockFails? {
      MadeOneMore(c, w0, steps, step, Begin(step.i), w.phases[step.i].start);
    } else if step.CommandEnds? {
      MadeOneMore(c, w0, steps, step, LockWon(step.i), w.phases[step.i].start);
    }
  }

  lemma OthersUntouched(c: Config, w: Worker, step: WorkerStep, i: nat)
    requires Enabled(c, w, step) && i < |Next(c, w, step).phases|
    requires !(ByGoroutine(step) && step.i == i)
    ensures var phase := Next(c, w, step).phases[i];
            (i < |w.phases| && phase == w.phases[i]) || phase == Spawned || phase == Pushed || phase == Handled
  {
  }

  lemma StepKeepsTold(c: Config, w0: Worker, steps: seq<WorkerStep>, step: WorkerStep)
    requires AllTold(c, w0, steps, Run(c, w0, steps).phases)
    ensures AllTold(c, w0, steps + [step], Do(c, Run(c, w0, steps), step).phases)
  {
    var w := Run(c, w0, steps);
    var w' := Do(c, w, step);
    forall i: nat | i < |w'.phases| ensures PhaseTold(c, w0, steps + [step], i, w'.phases[i]) {
      if Enabled(c, w, step) && ByGoroutine(step) && step.i == i {
        GoroutineTells(c, w0, steps, step);
      } else {
        if Enabled(c, w, step) {
          OthersUntouched(c, w, step, i);
        }
        if i < |w.phases| && w'.phases[i] == w.phases[i] {
          ToldOneMore(c, w0, steps, step, i, w.phases[i]);
        }
      }
    }
  }

  lemma {:induction false} PhasesTold(c: Config, clock: Time, steps: seq<WorkerStep>)
    ensures AllTold(c, Init(clock), steps, Run(c, Init(clock), steps).phases)
  {
    if steps != [] {
      var init, last := steps[..|steps| - 1], steps[|steps| - 1];
      assert steps == init + [last];
      PhasesTold(c, clock, init);
      StepKeepsTold(c, Init(clock), init, last);
    }
  }

  /** Every result sent in a run tells the truth: it carries exactly what the lock or the command
      answered to its own execution, and the two instants that belong to that answer. */
  lemma {:induction false} ResultsTellTheTruth(c: Config, clock: Time, steps: seq<WorkerStep>, o: Outcome)
    requires o in Sent(c, Init(clock), steps)
    ensures TellsTheTruth(c, Init(clock), steps, o)
  {
    var init, last := steps[..|steps| - 1], steps[|steps| - 1];
    assert steps == init + [last];
    if o in Sent(c, Init(clock), init) {
      ResultsTellTheTruth(c, clock, init, o);
    } else {
      PhasesTold(c, clock, init);
      var mid := Run(c, Init(clock), init);
      assert mid.phases[last.i] == Pushing(o);
      assert PhaseTold(c, Init(clock), init, last.i, mid.phases[last.i]);
    }
    TruthOneMore(c, Init(clock), init, last, o);
  }

  /** Nothing is ruled out: an execution that has not begun can come, by its own steps alone, to a
      refusal with any error, and to any output and error of a command. */
  lemma AnyAnswerCanCome(c: Config, w: Worker, i: nat, refused: bool, output: string, err: ExecError)
    returns (steps: seq<WorkerStep>)
    requires i < |w.phases| && w.phases[i] == Spawned
    requires if refused then output == "" && err != NoError else err != LockTaken
    ensures forall k :: 0 <= k < |steps| ==>
              ByGoroutine(steps[k]) && steps[k].i == i && (refused ==> !steps[k].LockWon?)
                  && (!refused ==> !steps[k].LockFails?)
    ensures var phases := Run(c, w, steps).phases;
            && i < |phases| && phases[i].Pushing?
            && phases[i].outcome.err == err && phases[i].outcome.output == output
  {
    var w1 := Do(c, w, Begin(i));
    if refused {
      First(c, w1, LockFails(i, err), []);
      First(c, w, Begin(i), [LockFails(i, err)] + []);
      steps := [Begin(i)] + ([LockFails(i, err)] + []);
    } else {
      var w2 := Do(c, w1, LockWon(i));
      First(c, w2, CommandEnds(i, output, err), []);
      First(c, w1, LockWon(i), [CommandEnds(i, output, err)] + []);
      First(c, w, Begin(i), [LockWon(i)] + ([CommandEnds(i, output, err)] + []));
      steps := [Begin(i)] + ([LockWon(i)] + ([CommandEnds(i, output, err)] + []));
    }
  }

  // ---------------------------------------------------------------- the log record of a result

  /** The entries of the results that are logged: all but those of lost races. */
  function LoggedEntries(history: seq<Entry>): (entries: seq<Entry>)
    ensures forall e :: e in entries ==> e.Ended? && e.outcome.err != LockTaken
  {
    if history == [] then []
    else
      var last := history[|history| - 1];
      LoggedEntries(history[..|history| - 1]) + if last.Ended? && last.outcome.err != LockTaken then [last] else []
  }

  lemma {:induction false} LoggedAreRecords(history: seq<Entry>)
    ensures |Logged(history)| == |LoggedEntries(history)|
    ensures forall k :: 0 <= k < |Logged(history)| ==>
              RecordOf(Logged(history)[k], LoggedEntries(history)[k].info, LoggedEntries(history)[k].outcome)
  {
    if history != [] {
      var init, last := history[..|history| - 1], history[|history| - 1];
      LoggedAreRecords(init);
      if last.Ended? {
        LogIsRecord(last.info, last.outcome);
      }
    }
  }

  /** The k-th log handed to Append is the record of the k-th result handled that was not a lost
      race: the execution's own name, command and instants, the command's output and error. */
  lemma LogsAreRecordsOfResults(c: Config, w: Worker)
    requires LibraryLaw(c.cron) && Reachable(c, w)
    ensures var logs, entries := SinkModel.Tried(w.sink.attempts), LoggedEntries(w.history);
            && |logs| == |entries|
            && forall k :: 0 <= k < |logs| ==> RecordOf(logs[k], entries[k].info, entries[k].outcome)
    ensures forall k :: 0 <= k < |w.history| && w.history[k].Ended? ==>
              var e := w.history[k].outcome.exec; e < |w.t.started| && w.history[k].info == w.t.started[e]
  {
    ReachableOk(c, w);
    EveryResultAccountedFor(c, w);
    LoggedAreRecords(w.history);
  }
}
