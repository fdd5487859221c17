/**
  TryLock, UnLock and ExecuteJob as the program writes them, against an etcd cluster whose
  calls may fail, lose their reply or take effect late, and that other clients use at the same
  time. Every method is shown to be a run of the step machine of LockModel.
*/
module JobLocks {
  import opened Wrappers
  import opened GoTime
  import opened Clocks
  import opened Protocol
  import opened LockModel

  /** The steps that only the goroutine of attempt a takes. */
  predicate TakenBy(step: Step, a: nat) {
    match step
    case Apply(_) => false
    case Expire(_) => false
    case Arrive(_) => false
    case GrantFails(b) => b == a
    case Grant(b, _) => b == a
    case KeepAliveFails(b) => b == a
    case Send(b) => b == a
    case Receive(b, _) => b == a
    case GiveUp(b) => b == a
    case Revoke(b, _) => b == a
    case StartCommand(b) => b == a
    case FinishCommand(b) => b == a
    case Unlock(b, _) => b == a
  }

  /** From position `from` on, the trace has a Revoke of attempt a's lease, effective or not. */
  ghost predicate RevokedSince(trace: seq<Step>, from: nat, a: nat) {
    exists k :: from <= k < |trace| && trace[k].Revoke? && trace[k].a == a
  }

  function Others(steps: seq<Step>, a: nat): seq<Step> {
    if steps == [] then []
    else
      var last := steps[|steps| - 1];
      Others(steps[..|steps| - 1], a) + if TakenBy(last, a) then [] else [last]
  }

  /** What the rest of the world cannot change: an attempt, and whether it sent its commit. */
  ghost predicate Untouched(s: System, t: System, a: nat) {
    && a < |s.attempts| <= |t.attempts| && t.attempts[a] == s.attempts[a]
    && (a in t.sent <==> a in s.sent)
  }

  lemma OtherStepLeaves(s: System, step: Step, a: nat)
    requires a < |s.attempts| && !TakenBy(step, a)
    ensures Untouched(s, Do(s, step), a)
  {
  }

  lemma {:induction false} OthersLeave(s: System, steps: seq<Step>, a: nat)
    requires a < |s.attempts|
    ensures Untouched(s, Run(s, Others(steps, a)), a)
  {
    if steps != [] {
      var init, last := Others(steps[..|steps| - 1], a), steps[|steps| - 1];
      OthersLeave(s, steps[..|steps| - 1], a);
      if TakenBy(last, a) {
        assert Others(steps, a) == init;
      } else {
        assert Others(steps, a)[..|init|] == init;
        OtherStepLeaves(Run(s, init), last, a);
      }
    }
  }

  /** The client's view of etcd. `trace` records every step anyone takes: the system always is
      what the trace makes of the empty store. */
  class EtcdCluster {
    var sys: System
    var renewals: set<nat>     // attempts whose client keeps their lease alive
    ghost var trace: seq<Step>

    ghost predicate Valid()
      reads this
    {
      sys == Run(START, trace) && forall a :: a in renewals ==> a < |sys.attempts|
    }

    constructor ()
      ensures Valid() && sys == START && trace == [] && renewals == {}
    {
      sys, renewals := START, {};
      trace := [];
    }

    lemma Invariant()
      requires Valid()
      ensures Inv(sys)
    {
      StartOk();
      RunKeepsInv(START, trace);
    }

    lemma NoLeaseYet(a: nat)
      requires Valid() && a < |sys.attempts| && sys.attempts[a].pc == Ready
      ensures sys.attempts[a].lease.None?
    {
      Invariant();
    }

    /** While its lease lives, the key of its job is bound to it. */
    lemma WinnerHolds(a: nat)
      requires Valid() && a < |sys.attempts| && PastTryLock(sys.attempts[a].pc)
      ensures a in sys.wins && (Alive(sys, a) ==> BoundTo(sys, LockKey(sys.attempts[a].job), a))
    {
      Invariant();
    }

    /** An attempt that was new, or not yet made, when the trace was `before` is where the answers
        since then have put it. */
    lemma Answered(a: nat, before: seq<Step>)
      requires Valid() && before <= trace && a < |sys.attempts|
      requires a < |Run(START, before).attempts| ==> Run(START, before).attempts[a].pc == Ready
      ensures LostRace(sys.attempts[a].pc) <==> Got(START, trace, |before|, a, Taken)
      ensures PastTryLock(sys.attempts[a].pc) <==> Got(START, trace, |before|, a, Won)
    {
      assert trace[..|before|] == before;
      AnswerDecides(before, a);
      AnswerDecides(trace, a);
      GotSince(START, trace, |before|, a, Taken);
      GotSince(START, trace, |before|, a, Won);
    }

    /** Any number of steps by the server and by other clients. */
    method Interfere(a: nat)
      requires Valid() && a < |sys.attempts|
      modifies this`sys, this`trace
      ensures Valid() && old(trace) <= trace && Untouched(old(sys), sys, a)
    {
      var steps: seq<Step> := *;
      OthersLeave(sys, steps, a);
      RunConcat(START, trace, Others(steps, a));
      sys := Run(sys, Others(steps, a));
      trace := trace + Others(steps, a);
    }

    /** One step. */
    method Take(step: Step)
      requires Valid()
      modifies this`sys, this`trace
      ensures Valid() && trace == old(trace) + [step] && sys == Do(old(sys), step)
    {
      assert (trace + [step])[..|trace|] == trace;
      sys := Do(sys, step);
      trace := trace + [step];
    }

    /** A new attempt comes into being; nothing is sent for it yet. */
    method Arrive(job: string) returns (a: nat)
      requires Valid()
      modifies this`sys, this`trace
      ensures Valid() && old(trace) <= trace
      ensures a == |old(sys).attempts| < |sys.attempts| && sys.attempts[a] == Attempt(job, None, Ready)
    {
      a := |sys.attempts|;
      Take(Step.Arrive(job));
      Interfere(a);
    }

    /** lease.Grant: the reply may be lost after the server granted the lease. */
    method Grant(a: nat) returns (r: Result<LeaseId, LockError>)
      requires Valid() && a < |sys.attempts| && sys.attempts[a].pc == Ready
      modifies this`sys, this`trace
      ensures Valid() && old(trace) <= trace && a < |sys.attempts|
      ensures sys.attempts[a] == match r
                case Success(l) => Attempt(old(sys).attempts[a].job, Some(l), Leased)
                case Failure(e) => old(sys).attempts[a].(pc := Refused(e))
      ensures r.Failure? ==> r.error == Unavailable
    {
      Interfere(a);
      if * {
        r := Success(sys.nextLease);
        Take(Step.Grant(a, true));
      } else if * {
        r := Failure(Unavailable);
        Take(Step.Grant(a, false));
      } else {
        r := Failure(Unavailable);
        Take(GrantFails(a));
      }
      Interfere(a);
    }

    /** lease.KeepAlive: from its success on the lease is renewed, on failure the caller goes to FAIL. */
    method KeepAlive(a: nat) returns (err: Option<LockError>)
      requires Valid() && a < |sys.attempts| && sys.attempts[a].pc == Leased
      modifies this
      ensures Valid() && old(trace) <= trace && a < |sys.attempts|
      ensures sys.attempts[a] == match err
                case None => old(sys).attempts[a]
                case Some(e) => old(sys).attempts[a].(pc := RollingBack(e))
      ensures renewals == if err.None? then old(renewals) + {a} else old(renewals)
    {
      err := None;
      if * {
        err := Some(Unavailable);
        Take(KeepAliveFails(a));
      } else {
        renewals := renewals + {a};
      }
      Interfere(a);
    }

    /** The cancel function of the context that KeepAlive was given; harmless if it failed. */
    method Cancel(a: nat)
      requires Valid()
      modifies this`renewals
      ensures Valid() && renewals == old(renewals) - {a}
    {
      renewals := renewals - {a};
    }

    /** txn.Commit: the transaction may be applied before, between or after the moments the
        client can observe; an error says nothing about whether it was. */
    method Txn(a: nat) returns (r: Result<bool, LockError>)
      requires Valid() && a < |sys.attempts| && sys.attempts[a].pc == Leased
      modifies this`sys, this`trace
      ensures Valid() && old(trace) <= trace && a < |sys.attempts|
      ensures sys.attempts[a] == old(sys).attempts[a].(pc := AfterTxn(r))
    {
      Take(Send(a));
      Interfere(a);
      if * {
        Invariant();
        Take(Apply(a));
        Interfere(a);
      }
      r := Answer(a);
      Interfere(a);
    }

    /** The reply, if one arrives. */
    method Answer(a: nat) returns (r: Result<bool, LockError>)
      requires Valid() && a < |sys.attempts| && sys.attempts[a].pc == Committing
      modifies this`sys, this`trace
      ensures Valid() && old(trace) <= trace && a < |sys.attempts|
      ensures sys.attempts[a] == old(sys).attempts[a].(pc := AfterTxn(r))
    {
      var arrives: bool := *;
      if arrives && (a, Won) in sys.replies {
        r := Success(true);
        Take(Receive(a, Won));
      } else if arrives && (a, Taken) in sys.replies {
        r := Success(false);
        Take(Receive(a, Taken));
      } else if arrives && (a, Rejected) in sys.replies {
        r := Failure(Unavailable);
        Take(Receive(a, Rejected));
      } else {
        r := Failure(Unavailable);
        Take(GiveUp(a));
      }
    }

    /** lease.Revoke at FAIL; its error is ignored. */
    method RevokeRefused(a: nat)
      requires Valid() && a < |sys.attempts| && sys.attempts[a].pc.RollingBack?
      modifies this`sys, this`trace
      ensures Valid() && old(trace) <= trace && a < |sys.attempts|
      ensures sys.attempts[a] == old(sys).attempts[a].(pc := Refused(old(sys).attempts[a].pc.err))
      ensures RevokedSince(trace, |old(trace)|, a)
    {
      Invariant();
      var applied: bool := *;
      Take(Revoke(a, applied));
      assert trace[|old(trace)|] == Revoke(a, applied);
      Interfere(a);
      assert trace[|old(trace)|] == Revoke(a, applied);
    }

    /** lease.Revoke in UnLock; its error is ignored. */
    method RevokeHeld(a: nat)
      requires Valid() && a < |sys.attempts| && sys.attempts[a].pc in {Finished, Released}
      modifies this`sys, this`trace
      ensures Valid() && old(trace) <= trace && a < |sys.attempts|
      ensures sys.attempts[a] == old(sys).attempts[a].(pc := Released)
    {
      Invariant();
      var applied: bool := *;
      Take(Unlock(a, applied));
      Interfere(a);
    }

    /** The holder starts or ends its command; etcd does not notice. */
    method Command(a: nat, start: bool)
      requires Valid() && a < |sys.attempts| && sys.attempts[a].pc == if start then Locked else Running
      modifies this`sys, this`trace
      ensures Valid() && old(trace) <= trace && a < |sys.attempts|
      ensures sys.attempts[a] == old(sys).attempts[a].(pc := if start then Running else Finished)
    {
      Take(if start then StartCommand(a) else FinishCommand(a));
      Interfere(a);
    }
  }

  function AfterTxn(r: Result<bool, LockError>): Pc {
    match r
    case Success(true) => Locked
    case Success(false) => RollingBack(AlreadyTaken)
    case Failure(e) => RollingBack(e)
  }

  class JobLock {
    const etcd: EtcdCluster
    const jobName: string
    const attempt: nat        // which attempt of the step machine this object is
    var leaseId: LeaseId
    var isLocked: bool

    /** InitJobLock. */
    constructor (jobName: string, etcd: EtcdCluster, attempt: nat)
      ensures this.jobName == jobName && this.etcd == etcd && this.attempt == attempt
      ensures !isLocked
    {
      this.jobName, this.etcd, this.attempt := jobName, etcd, attempt;
      leaseId, isLocked := 0, false;
    }

    /** The keep-alive runs: cancelFunc has not been called. */
    predicate Renewing()
      reads etcd
    {
      attempt in etcd.renewals
    }

    /** Fields and step machine agree. */
    ghost predicate Valid()
      reads this, etcd
    {
      && etcd.Valid() && attempt < |etcd.sys.attempts|
      && etcd.sys.attempts[attempt].job == jobName
      && (isLocked ==>
            && etcd.sys.attempts[attempt].lease == Some(leaseId)
            && etcd.sys.attempts[attempt].pc in {Locked, Running, Finished, Released})
    }

    /** Either the lock is held: the keep-alive runs, the attempt won the key, and as long as its
        lease lives the key is bound to it. Or an error is returned, the keep-alive is off, and
        the lease, if one was granted to this client, has been handed to Revoke. */
    method TryLock() returns (err: Option<LockError>)
      requires Valid() && etcd.sys.attempts[attempt].pc == Ready && !isLocked && !Renewing()
      modifies this, etcd
      ensures Valid() && old(etcd.trace) <= etcd.trace
      ensures isLocked <==> err.None?
      ensures etcd.renewals == if isLocked then old(etcd.renewals) + {attempt} else old(etcd.renewals)
      ensures etcd.sys.attempts[attempt].pc == match err case None => Locked case Some(e) => Refused(e)
      ensures !isLocked && etcd.sys.attempts[attempt].lease.Some? ==>
          RevokedSince(etcd.trace, |old(etcd.trace)|, attempt)
      ensures err == Some(AlreadyTaken) <==> Got(START, etcd.trace, |old(etcd.trace)|, attempt, Taken)
      ensures err.None? <==> Got(START, etcd.trace, |old(etcd.trace)|, attempt, Won)
      ensures isLocked ==> attempt in etcd.sys.wins
      ensures isLocked && leaseId in etcd.sys.live ==>
                LockKey(jobName) in etcd.sys.keys && etcd.sys.keys[LockKey(jobName)] == leaseId
    {
      ghost var called := etcd.trace;
      err := Acquire();
      etcd.Answered(attempt, called);
      if isLocked {
        etcd.WinnerHolds(attempt);
      }
    }

    /** Grant, KeepAlive, the transaction, and FAIL. */
    method Acquire() returns (err: Option<LockError>)
      requires Valid() && etcd.sys.attempts[attempt].pc == Ready && !isLocked && !Renewing()
      modifies this, etcd
      ensures Valid() && old(etcd.trace) <= etcd.trace && (isLocked <==> err.None?)
      ensures etcd.renewals == if isLocked then old(etcd.renewals) + {attempt} else old(etcd.renewals)
      ensures etcd.sys.attempts[attempt].pc == match err case None => Locked case Some(e) => Refused(e)
      ensures !isLocked && etcd.sys.attempts[attempt].lease.Some? ==>
                RevokedSince(etcd.trace, |old(etcd.trace)|, attempt)
    {
      etcd.NoLeaseYet(attempt);
      var granted := etcd.Grant(attempt);
      if granted.Failure? {
        return Some(granted.error);
      }
      err := etcd.KeepAlive(attempt);
      if err.None? {
        var response := etcd.Txn(attempt);
        if response == Success(true) {
          leaseId := granted.value;
          isLocked := true;
          return;
        }
        err := if response.Success? then Some(AlreadyTaken) else Some(response.error);
      }
      RollBack();
    }

    /** FAIL: no more renewal, and the lease, with whatever is bound to it, is to go. */
    method RollBack()
      requires Valid() && etcd.sys.attempts[attempt].pc.RollingBack? && !isLocked
      modifies etcd
      ensures Valid() && old(etcd.trace) <= etcd.trace && etcd.renewals == old(etcd.renewals) - {attempt}
      ensures var before := old(etcd.sys).attempts[attempt];
              etcd.sys.attempts[attempt] == before.(pc := Refused(before.pc.err))
      ensures RevokedSince(etcd.trace, |old(etcd.trace)|, attempt)
    {
      etcd.Cancel(attempt);
      etcd.RevokeRefused(attempt);
    }

    /** Safe to call in any case, and more than once. */
    method UnLock()
      requires Valid()
      requires etcd.sys.attempts[attempt].pc.Refused? || etcd.sys.attempts[attempt].pc in {Finished, Released}
      requires isLocked <==> !etcd.sys.attempts[attempt].pc.Refused?
      modifies this, etcd
      ensures Valid() && old(etcd.trace) <= etcd.trace && isLocked == old(isLocked)
      ensures etcd.renewals == if isLocked then old(etcd.renewals) - {attempt} else old(etcd.renewals)
      ensures isLocked ==> etcd.sys.attempts[attempt].pc == Released
      ensures !isLocked ==> etcd.sys == old(etcd.sys)
    {
      if isLocked {
        etcd.Cancel(attempt);
        etcd.RevokeHeld(attempt);
      }
    }
  }

  /** What CombinedOutput returns: all that was printed, and the error text if the command failed. */
  datatype Combined = Combined(output: string, failure: Option<string>)

  /** The result says exactly that. */
  predicate Carries(result: Outcome, answer: Combined) {
    && result.output == answer.output
    && (answer.failure.None? ==> result.err == NoError)
    && (answer.failure.Some? ==> result.err == Other(answer.failure.value))
  }

  class Executor {
    var pushed: seq<Outcome>   // results handed to PushJobResult

    constructor ()
      ensures pushed == []
    {
      pushed := [];
    }

    /** The shell command, under the lock; `answer` is what it prints and the error it ends with. */
    method RunCommand(exec: nat, jobLock: JobLock, clock: Clock, answer: Combined) returns (result: Outcome)
      requires jobLock.Valid() && jobLock.isLocked
      requires jobLock.etcd.sys.attempts[jobLock.attempt].pc == Locked
      modifies jobLock.etcd, clock
      ensures jobLock.Valid() && old(jobLock.etcd.trace) <= jobLock.etcd.trace
      ensures jobLock.etcd.sys.attempts[jobLock.attempt].pc == Finished
      ensures jobLock.etcd.renewals == old(jobLock.etcd.renewals)
      ensures result.exec == exec && Carries(result, answer)
      ensures old(clock.now) <= result.startTime <= result.endTime == clock.now
    {
      var startTime := clock.Now();
      jobLock.etcd.Command(jobLock.attempt, true);
      jobLock.etcd.Command(jobLock.attempt, false);
      var endTime := clock.Now();
      result := Outcome(exec, answer.output, if answer.failure.Some? then Other(answer.failure.value) else NoError,
                        startTime, endTime);
    }

    /** Both ways on from TryLock: report the refusal, or run the command. */
    method Finish(exec: nat, jobLock: JobLock, refused: Option<LockError>, startTime: Time,
                  clock: Clock, answer: Combined)
      returns (result: Outcome)
      requires jobLock.Valid() && (jobLock.isLocked <==> refused.None?)
      requires var pc := jobLock.etcd.sys.attempts[jobLock.attempt].pc;
               pc == match refused case None => Locked case Some(e) => Refused(e)
      modifies jobLock.etcd, clock
      ensures jobLock.Valid() && old(jobLock.etcd.trace) <= jobLock.etcd.trace
      ensures jobLock.etcd.renewals == old(jobLock.etcd.renewals)
      ensures var pc := jobLock.etcd.sys.attempts[jobLock.attempt].pc;
              pc == match refused case None => Finished case Some(e) => Refused(e)
      ensures result.exec == exec && old(clock.now) <= result.endTime == clock.now
      ensures refused.None? ==> Carries(result, answer) && old(clock.now) <= result.startTime <= result.endTime
      ensures refused.Some? ==> result.output == "" && result.err != NoError && result.startTime == startTime
      ensures refused == Some(Unavailable) ==> result.err == Other("etcd")
      ensures result.err == LockTaken <==> refused == Some(AlreadyTaken)
    {
      if refused.Some? {
        var endTime := clock.Now();
        var err := match refused.value case AlreadyTaken => LockTaken case Unavailable => Other("etcd");
        result := Outcome(exec, "", err, startTime, endTime);
      } else {
        result := RunCommand(exec, jobLock, clock, answer);
      }
    }

    /** After the random sleep: TryLock, and what follows from its answer. */
    method Contend(exec: nat, jobLock: JobLock, startTime: Time, clock: Clock, answer: Combined)
      returns (result: Outcome, ghost called: Time, ghost locked: Time)
      requires jobLock.Valid() && !jobLock.isLocked && !jobLock.Renewing() && startTime <= clock.now
      requires jobLock.etcd.sys.attempts[jobLock.attempt].pc == Ready
      modifies jobLock, jobLock.etcd, clock
      ensures jobLock.Valid() && old(jobLock.etcd.trace) <= jobLock.etcd.trace
      ensures var pc := jobLock.etcd.sys.attempts[jobLock.attempt].pc;
              && (if jobLock.isLocked then pc == Finished else pc.Refused?)
              && (result.err == LockTaken <==> pc == Refused(AlreadyTaken))
              && (pc == Refused(Unavailable) ==> result.err == Other("etcd"))
      ensures jobLock.Renewing() <==> jobLock.isLocked
      ensures old(clock.now) <= called <= locked <= result.endTime == clock.now && result.exec == exec
      ensures jobLock.isLocked ==> Carries(result, answer) && locked <= result.startTime <= result.endTime
      ensures !jobLock.isLocked ==> result.output == "" && result.err != NoError && result.startTime == startTime
    {
      TimePasses(clock);
      called := clock.now;
      var refused := jobLock.TryLock();
      TimePasses(clock);
      locked := clock.now;
      result := Finish(exec, jobLock, refused, startTime, clock, answer);
    }

    /** The goroutine of one execution. Whatever etcd does, it pushes exactly one result, after
        waiting for room in the result channel. The command ran if and only if the lock was won;
        then the result carries its answer, and its start time was read after TryLock returned, at
        `locked`. Otherwise its start time was read before TryLock was called, at `called`, and the
        error says that the lock was taken exactly if etcd answered so. When the result was pushed
        a lock that was won had not been given back yet, and at the end it has been. */
    method ExecuteJob(exec: nat, info: Info, etcd: EtcdCluster, clock: Clock, answer: Combined)
      returns (result: Outcome, jobLock: JobLock, ghost pushedAt: nat, ghost called: Time, ghost locked: Time)
      requires etcd.Valid()
      modifies this, etcd, clock
      ensures jobLock.Valid() && fresh(jobLock) && jobLock.etcd == etcd && jobLock.jobName == info.job.name
      ensures old(etcd.trace) <= etcd.trace && |old(etcd.sys).attempts| == jobLock.attempt
      ensures pushed == old(pushed) + [result] && result.exec == exec
      ensures old(clock.now) <= result.startTime <= result.endTime <= clock.now
      ensures var pc := etcd.sys.attempts[jobLock.attempt].pc;
              && !jobLock.Renewing()
              && (result.err == LockTaken <==> pc == Refused(AlreadyTaken))
              && (pc.Refused? || pc == Released)
              && (pc == Refused(Unavailable) ==> result.err == Other("etcd"))
              && (pc.Refused? ==> result.output == "" && result.err != NoError)
              && (pc.Refused? ==> result.startTime <= called && locked <= result.endTime)
              && (pc == Released ==> Carries(result, answer) && locked <= result.startTime)
              && (pc == Released <==> Got(START, etcd.trace, |old(etcd.trace)|, jobLock.attempt, Won))
      ensures old(clock.now) <= called <= locked <= clock.now
      ensures result.err == LockTaken <==> Got(START, etcd.trace, |old(etcd.trace)|, jobLock.attempt, Taken)
      ensures |old(etcd.trace)| <= pushedAt <= |etcd.trace|
      ensures var sys, pc := Run(START, etcd.trace[..pushedAt]), etcd.sys.attempts[jobLock.attempt].pc;
              jobLock.attempt < |sys.attempts|
                  && sys.attempts[jobLock.attempt].pc == if pc.Refused? then pc else Finished
    {
      var a := etcd.Arrive(info.job.name);
      jobLock := new JobLock(info.job.name, etcd, a);
      var startTime := clock.Now();
      etcd.Interfere(a);   // the random sleep
      result, called, locked := Contend(exec, jobLock, startTime, clock, answer);
      pushedAt := PushAndUnlock(result, jobLock);
      etcd.Answered(a, old(etcd.trace));
    }

    method TimePasses(clock: Clock)
      modifies clock
      ensures old(clock.now) <= clock.now
    {
      var passed: int := *;
      if passed > 0 {
        clock.Pass(passed);
      }
    }

    /** PushJobResult, then the deferred UnLock. */
    method PushAndUnlock(result: Outcome, jobLock: JobLock) returns (ghost pushedAt: nat)
      requires jobLock.Valid()
      requires var pc := jobLock.etcd.sys.attempts[jobLock.attempt].pc;
               (pc.Refused? && !jobLock.isLocked && !jobLock.Renewing()) || (pc == Finished && jobLock.isLocked)
      modifies this, jobLock, jobLock.etcd
      ensures jobLock.Valid() && old(jobLock.etcd.trace) <= jobLock.etcd.trace
      ensures pushed == old(pushed) + [result] && !jobLock.Renewing()
      ensures var before := old(jobLock.etcd.sys).attempts[jobLock.attempt].pc;
              && jobLock.etcd.sys.attempts[jobLock.attempt].pc == (if before.Refused? then before else Released)
              && |old(jobLock.etcd.trace)| <= pushedAt <= |jobLock.etcd.trace|
              && var atPush := Run(START, jobLock.etcd.trace[..pushedAt]);
                 jobLock.attempt < |atPush.attempts| && atPush.attempts[jobLock.attempt].pc == before
    {
      jobLock.etcd.Interfere(jobLock.attempt);   // jobExecuteResultChan may be full
      pushed := pushed + [result];
      pushedAt := |jobLock.etcd.trace|;
      ghost var traceThen := jobLock.etcd.trace;
      jobLock.UnLock();
      assert jobLock.etcd.trace[..pushedAt] == traceThen;
    }
  }
}
