/**
  The lease-based job lock as a step machine: an etcd server (live leases, lock keys bound to
  leases) and any number of lock attempts, each one run of TryLock, command, UnLock.

  The network is adversarial. A commit that was sent stays deliverable for ever, also after its
  client gave up, and may be applied more than once; any reply to it may arrive or be lost; a
  grant or a revoke may take effect with its reply lost, or not at all; any live lease may
  expire at any moment, whatever its holder is doing.
*/
module LockModel {
  import opened Wrappers
  import opened Protocol

  /** TryLock's error: the key was taken, or anything else. */
  datatype LockError = AlreadyTaken | Unavailable

  /** Outcomes of the transaction at the server: the put, the get, or an error (dead lease). */
  datatype Reply = Won | Taken | Rejected

  datatype Pc =
    | Ready                          // InitJobLock
    | Leased                         // Grant answered
    | Committing                     // commit sent, no answer yet
    | RollingBack(err: LockError)    // at FAIL, before Revoke
    | Refused(err: LockError)        // TryLock returned err
    | Locked                         // TryLock returned nil
    | Running                        // the command runs
    | Finished                       // the command ended, UnLock still deferred
    | Released                       // UnLock returned

  datatype Attempt = Attempt(job: string, lease: Option<LeaseId>, pc: Pc)

  datatype System = System(
    live: set<LeaseId>,
    nextLease: LeaseId,
    keys: map<string, LeaseId>,
    attempts: seq<Attempt>,
    sent: set<nat>,             // attempts whose commit is on the wire
    replies: set<(nat, Reply)>, // answers the server has produced so far
    wins: seq<nat>)             // attempts whose put was applied, in that order

  const START := System({}, 0, map[], [], {}, {}, [])

  datatype Step =
    // server
    | Apply(a: nat)
    | Expire(l: LeaseId)
    // client
    | Arrive(job: string)
    | GrantFails(a: nat)
    | Grant(a: nat, delivered: bool)
    | KeepAliveFails(a: nat)
    | Send(a: nat)
    | Receive(a: nat, reply: Reply)
    | GiveUp(a: nat)
    | Revoke(a: nat, applied: bool)
    | StartCommand(a: nat)
    | FinishCommand(a: nat)
    | Unlock(a: nat, applied: bool)

  /** A lease dies, by revoke or expiry, and every key bound to it goes with it. */
  function Kill(s: System, l: LeaseId): System {
    s.(live := s.live - {l}, keys := map k | k in s.keys && s.keys[k] != l :: s.keys[k])
  }

  /** "If CreateRevision = 0 then put with lease else get", at the server. */
  function Commit(s: System, a: nat): System
    requires a < |s.attempts| && s.attempts[a].lease.Some?
  {
    var l, key := s.attempts[a].lease.value, LockKey(s.attempts[a].job);
    if key in s.keys then s.(replies := s.replies + {(a, Taken)})
    else if l !in s.live then s.(replies := s.replies + {(a, Rejected)})
    else s.(keys := s.keys[key := l], replies := s.replies + {(a, Won)}, wins := s.wins + [a])
  }

  function Goto(s: System, a: nat, pc: Pc): System
    requires a < |s.attempts|
  {
    s.(attempts := s.attempts[a := s.attempts[a].(pc := pc)])
  }

  function AfterReply(reply: Reply): Pc {
    match reply
    case Won => Locked
    case Taken => RollingBack(AlreadyTaken)
    case Rejected => RollingBack(Unavailable)
  }

  predicate Enabled(s: System, step: Step) {
    match step
    case Apply(a) => a in s.sent && a < |s.attempts| && s.attempts[a].lease.Some?
    case Expire(l) => l in s.live
    case Arrive(job) => true
    case GrantFails(a) => a < |s.attempts| && s.attempts[a].pc == Ready
    case Grant(a, delivered) => a < |s.attempts| && s.attempts[a].pc == Ready
    case KeepAliveFails(a) => a < |s.attempts| && s.attempts[a].pc == Leased
    case Send(a) => a < |s.attempts| && s.attempts[a].pc == Leased
    case Receive(a, reply) => a < |s.attempts| && s.attempts[a].pc == Committing && (a, reply) in s.replies
    case GiveUp(a) => a < |s.attempts| && s.attempts[a].pc == Committing
    case Revoke(a, applied) => a < |s.attempts| && s.attempts[a].pc.RollingBack? && s.attempts[a].lease.Some?
    case StartCommand(a) => a < |s.attempts| && s.attempts[a].pc == Locked
    case FinishCommand(a) => a < |s.attempts| && s.attempts[a].pc == Running
    case Unlock(a, applied) =>
      && a < |s.attempts| && s.attempts[a].lease.Some?
      && (s.attempts[a].pc == Finished || s.attempts[a].pc == Released)
  }

  function Next(s: System, step: Step): System
    requires Enabled(s, step)
  {
    match step
    case Apply(a) => Commit(s, a)
    case Expire(l) => Kill(s, l)
    case Arrive(job) => s.(attempts := s.attempts + [Attempt(job, None, Ready)])
    case GrantFails(a) => Goto(s, a, Refused(Unavailable))
    case Grant(a, delivered) =>
      var granted := s.(live := s.live + {s.nextLease}, nextLease := s.nextLease + 1);
      if delivered
      then granted.(attempts := s.attempts[a := s.attempts[a].(lease := Some(s.nextLease), pc := Leased)])
      else Goto(granted, a, Refused(Unavailable))
    case KeepAliveFails(a) => Goto(s, a, RollingBack(Unavailable))
    case Send(a) => Goto(s, a, Committing).(sent := s.sent + {a})
    case Receive(a, reply) =>
      Goto(s, a, AfterReply(reply))
    case GiveUp(a) => Goto(s, a, RollingBack(Unavailable))
    case Revoke(a, applied) =>
      Goto(if applied then Kill(s, s.attempts[a].lease.value) else s, a, Refused(s.attempts[a].pc.err))
    case StartCommand(a) => Goto(s, a, Running)
    case FinishCommand(a) => Goto(s, a, Finished)
    case Unlock(a, applied) =>
      Goto(if applied then Kill(s, s.attempts[a].lease.value) else s, a, Released)
  }

  /** A step that is not enabled changes nothing, so every sequence of steps is a run. */
  function Do(s: System, step: Step): System {
    if Enabled(s, step) then Next(s, step) else s
  }

  function Run(s: System, steps: seq<Step>): System {
    if steps == [] then s else Do(Run(s, steps[..|steps| - 1]), steps[|steps| - 1])
  }

  // ---------------------------------------------------------------- the invariant

  ghost predicate LeasesDistinct(s: System) {
    && (forall l :: l in s.live ==> l < s.nextLease)
    && (forall a :: 0 <= a < |s.attempts| && s.attempts[a].lease.Some? ==> s.attempts[a].lease.value < s.nextLease)
    && (forall a, b :: 0 <= a < b < |s.attempts| && s.attempts[a].lease.Some? ==>
          s.attempts[a].lease != s.attempts[b].lease)
  }

  /** What each program point knows: its lease exists from the grant on, a commit was sent from
      Committing on, and the lock was won from Locked on. */
  ghost predicate PcsOk(s: System) {
    forall a :: 0 <= a < |s.attempts| ==>
      var t := s.attempts[a];
      && (t.lease.None? ==> t.pc == Ready || t.pc.Refused?)
      && (a in s.sent ==> t.lease.Some? && t.pc != Leased)
      && (t.pc == Ready ==> t.lease.None?)
      && (t.pc == Committing ==> a in s.sent)
      && (t.pc in {Locked, Running, Finished, Released} ==> a in s.wins)
  }

  ghost predicate MessagesOk(s: System) {
    && (forall a :: a in s.sent ==> a < |s.attempts|)
    && (forall a, r :: (a, r) in s.replies ==> a in s.sent)
    && (forall i :: 0 <= i < |s.wins| ==> s.wins[i] in s.sent)
    && (forall a: nat :: (a, Won) in s.replies <==> a in s.wins)
  }

  /** Whether the attempt's lease is still alive at the server. */
  predicate Alive(s: System, a: nat) {
    a < |s.attempts| && s.attempts[a].lease.Some? && s.attempts[a].lease.value in s.live
  }

  predicate SameJob(s: System, a: nat, b: nat) {
    a < |s.attempts| && b < |s.attempts| && s.attempts[a].job == s.attempts[b].job
  }

  ghost predicate BoundTo(s: System, key: string, a: nat) {
    && a in s.wins && a < |s.attempts|
    && LockKey(s.attempts[a].job) == key && key in s.keys && Some(s.keys[key]) == s.attempts[a].lease
  }

  /** The lock keys are exactly the locks of the winners whose lease is alive. */
  ghost predicate KeysOk(s: System) {
    && (forall key :: key in s.keys ==> s.keys[key] in s.live && exists a: nat :: BoundTo(s, key, a))
    && (forall a :: a in s.wins && Alive(s, a) ==> BoundTo(s, LockKey(s.attempts[a].job), a))
  }

  /** By the time a put wins a job, every earlier winner of that job has lost its lease. */
  ghost predicate WinsOk(s: System) {
    forall i, j | 0 <= i < j < |s.wins| && SameJob(s, s.wins[i], s.wins[j]) :: !Alive(s, s.wins[i])
  }

  ghost predicate Inv(s: System) {
    LeasesDistinct(s) && PcsOk(s) && MessagesOk(s) && KeysOk(s) && WinsOk(s)
  }

  lemma KillKeepsKeys(s: System, l: LeaseId)
    requires KeysOk(s)
    ensures KeysOk(Kill(s, l))
  {
    var s' := Kill(s, l);
    forall key | key in s'.keys ensures exists a: nat :: BoundTo(s', key, a) {
      var a: nat :| BoundTo(s, key, a);
      assert BoundTo(s', key, a);
    }
    forall a | a in s.wins && Alive(s', a) ensures BoundTo(s', LockKey(s.attempts[a].job), a) {
      assert Alive(s, a) && BoundTo(s, LockKey(s.attempts[a].job), a);
    }
  }

  lemma KillKeepsWins(s: System, l: LeaseId)
    requires WinsOk(s)
    ensures WinsOk(Kill(s, l))
  {
    assert forall a :: Alive(Kill(s, l), a) ==> Alive(s, a);
  }

  lemma KillKeepsInv(s: System, l: LeaseId)
    requires Inv(s)
    ensures Inv(Kill(s, l))
  {
    KillKeepsKeys(s, l);
    KillKeepsWins(s, l);
  }

  /** Nothing that the lock keys depend on has changed. */
  ghost predicate SameWinners(s: System, s': System) {
    && s'.keys == s.keys && s'.wins == s.wins && s.live <= s'.live
    && (forall a: nat | a in s.wins ::
          && a < |s.attempts| && a < |s'.attempts|
          && s'.attempts[a].job == s.attempts[a].job && s'.attempts[a].lease == s.attempts[a].lease
          && Alive(s', a) == Alive(s, a))
  }

  lemma SameWinnersSameKeys(s: System, s': System)
    requires KeysOk(s) && WinsOk(s) && SameWinners(s, s')
    ensures KeysOk(s') && WinsOk(s')
  {
    forall key | key in s'.keys ensures s'.keys[key] in s'.live && exists a: nat :: BoundTo(s', key, a) {
      var a: nat :| BoundTo(s, key, a);
      assert BoundTo(s', key, a);
    }
    forall a | a in s'.wins && Alive(s', a) ensures BoundTo(s', LockKey(s'.attempts[a].job), a) {
      assert BoundTo(s, LockKey(s.attempts[a].job), a);
    }
    forall i, j | 0 <= i < j < |s'.wins| && SameJob(s', s'.wins[i], s'.wins[j]) ensures !Alive(s', s'.wins[i]) {
      assert s.wins[i] in s.wins && s.wins[j] in s.wins;
      assert SameJob(s, s.wins[i], s.wins[j]);
    }
  }

  /** Moving a program counter, to a point whose knowledge is already there. */
  lemma GotoKeepsInv(s: System, a: nat, pc: Pc)
    requires Inv(s) && a < |s.attempts|
    requires pc != Ready && pc != Leased && pc != Committing
    requires s.attempts[a].lease.None? ==> pc.Refused?
    requires pc in {Locked, Running, Finished, Released} ==> a in s.wins
    ensures Inv(Goto(s, a, pc))
  {
    var s' := Goto(s, a, pc);
    forall b: nat | b in s.wins ensures b in s.sent {}
    SameWinnersSameKeys(s, s');
  }

  lemma CommitKeepsInv(s: System, a: nat)
    requires Inv(s) && Enabled(s, Apply(a))
    ensures Inv(Commit(s, a))
  {
    var s' := Commit(s, a);
    CommitKeepsMessages(s, a);
    if s'.wins == s.wins {
      forall b: nat | b in s.wins ensures b in s.sent {}
      SameWinnersSameKeys(s, s');
    } else {
      WinKeepsKeys(s, a);
      WinKeepsOrder(s, a);
    }
  }

  lemma CommitKeepsMessages(s: System, a: nat)
    requires Inv(s) && Enabled(s, Apply(a))
    ensures MessagesOk(Commit(s, a)) && PcsOk(Commit(s, a))
  {
    var s' := Commit(s, a);
    if s'.wins != s.wins {
      assert s'.wins[|s.wins|] == a;
      assert forall b: nat :: b in s'.wins <==> b in s.wins || b == a;
    }
  }

  lemma WinKeepsKeys(s: System, a: nat)
    requires Inv(s) && Enabled(s, Apply(a)) && Commit(s, a).wins != s.wins
    ensures KeysOk(Commit(s, a))
  {
    var s' := Commit(s, a);
    var key := LockKey(s.attempts[a].job);
    assert s'.wins[|s.wins|] == a && BoundTo(s', key, a);
    forall b | b in s.wins ensures b in s'.wins {}
    forall k | k in s'.keys ensures s'.keys[k] in s'.live && exists b: nat :: BoundTo(s', k, b) {
      if k != key {
        var b: nat :| BoundTo(s, k, b);
        assert BoundTo(s', k, b);
      }
    }
    forall b | b in s'.wins && Alive(s', b) ensures BoundTo(s', LockKey(s.attempts[b].job), b) {
      if b != a {
        assert b in s.wins && BoundTo(s, LockKey(s.attempts[b].job), b);
      }
    }
  }

  lemma WinKeepsOrder(s: System, a: nat)
    requires Inv(s) && Enabled(s, Apply(a)) && Commit(s, a).wins != s.wins
    ensures WinsOk(Commit(s, a))
  {
    var s' := Commit(s, a);
    forall i, j | 0 <= i < j < |s'.wins| && SameJob(s', s'.wins[i], s'.wins[j])
      ensures !Alive(s', s'.wins[i])
    {
      // a live earlier winner would still be bound to the key the put found missing
      assert s'.wins[i] == s.wins[i];
      assert Alive(s, s.wins[i]) ==> BoundTo(s, LockKey(s.attempts[s.wins[i]].job), s.wins[i]);
    }
  }

  lemma ArriveKeepsInv(s: System, job: string)
    requires Inv(s)
    ensures Inv(Next(s, Arrive(job)))
  {
    forall b: nat | b in s.wins ensures b in s.sent {}
    SameWinnersSameKeys(s, Next(s, Arrive(job)));
  }

  lemma GrantKeepsInv(s: System, a: nat, delivered: bool)
    requires Inv(s) && Enabled(s, Grant(a, delivered))
    ensures Inv(Next(s, Grant(a, delivered)))
  {
    var s' := Next(s, Grant(a, delivered));
    forall b: nat | b in s.wins ensures b in s.sent && b != a && s'.attempts[b] == s.attempts[b] {}
    SameWinnersSameKeys(s, s');
  }

  lemma SendKeepsInv(s: System, a: nat)
    requires Inv(s) && Enabled(s, Send(a))
    ensures Inv(Next(s, Send(a)))
  {
    var s' := Next(s, Send(a));
    forall b: nat | b in s.wins ensures b in s.sent {}
    SameWinnersSameKeys(s, s');
  }

  lemma StepKeepsInv(s: System, step: Step)
    requires Inv(s) && Enabled(s, step)
    ensures Inv(Next(s, step))
  {
    match step
    case Apply(a) => CommitKeepsInv(s, a);
    case Expire(l) => KillKeepsInv(s, l);
    case Arrive(job) => ArriveKeepsInv(s, job);
    case GrantFails(a) => GotoKeepsInv(s, a, Refused(Unavailable));
    case Grant(a, delivered) => GrantKeepsInv(s, a, delivered);
    case KeepAliveFails(a) => GotoKeepsInv(s, a, RollingBack(Unavailable));
    case Send(a) => SendKeepsInv(s, a);
    case Receive(a, reply) =>
      GotoKeepsInv(s, a, AfterReply(reply));
    case GiveUp(a) => GotoKeepsInv(s, a, RollingBack(Unavailable));
    case Revoke(a, applied) =>
      KillKeepsInv(s, s.attempts[a].lease.value);
      GotoKeepsInv(if applied then Kill(s, s.attempts[a].lease.value) else s, a, Refused(s.attempts[a].pc.err));
    case StartCommand(a) => GotoKeepsInv(s, a, Running);
    case FinishCommand(a) => GotoKeepsInv(s, a, Finished);
    case Unlock(a, applied) =>
      KillKeepsInv(s, s.attempts[a].lease.value);
      GotoKeepsInv(if applied then Kill(s, s.attempts[a].lease.value) else s, a, Released);
  }

  lemma {:induction false} RunKeepsInv(s: System, steps: seq<Step>)
    requires Inv(s)
    ensures Inv(Run(s, steps))
  {
    if steps != [] {
      RunKeepsInv(s, steps[..|steps| - 1]);
      var mid := Run(s, steps[..|steps| - 1]);
      if Enabled(mid, steps[|steps| - 1]) {
        StepKeepsInv(mid, steps[|steps| - 1]);
      }
    }
  }

  // ---------------------------------------------------------------- mutual exclusion

  lemma StartOk()
    ensures Inv(START)
  {
  }

  /** Two winners of one job whose leases are both alive are the same attempt, and the lock key
      is bound to exactly its lease. */
  lemma OneLiveHolder(s: System, a: nat, b: nat)
    requires Inv(s) && a in s.wins && b in s.wins && SameJob(s, a, b) && Alive(s, a) && Alive(s, b)
    ensures a == b
    ensures LockKey(s.attempts[a].job) in s.keys && Some(s.keys[LockKey(s.attempts[a].job)]) == s.attempts[a].lease
  {
    assert BoundTo(s, LockKey(s.attempts[a].job), a) && BoundTo(s, LockKey(s.attempts[b].job), b);
  }

  predicate Holds(s: System, a: nat) {
    a < |s.attempts| && s.attempts[a].pc in {Locked, Running, Finished}
  }

  /** In every run, whatever the network does: two attempts past TryLock for the same job are
      not both backed by a live lease; so commands of one job overlap only if one of them has
      lost its lease since it won. The one that won first is the one that lost it. */
  lemma OverlapOnlyAfterLeaseLoss(steps: seq<Step>, a: nat, b: nat)
    requires var s := Run(START, steps); a != b && Holds(s, a) && Holds(s, b) && SameJob(s, a, b)
    ensures var s := Run(START, steps); !Alive(s, a) || !Alive(s, b)
    ensures var s := Run(START, steps);
            exists i, j :: 0 <= i < |s.wins| && 0 <= j < |s.wins| && i != j && s.wins[i] == a && s.wins[j] == b
              && (i < j ==> !Alive(s, a)) && (j < i ==> !Alive(s, b))
  {
    var s := Run(START, steps);
    StartOk();
    RunKeepsInv(START, steps);
    var i :| 0 <= i < |s.wins| && s.wins[i] == a;
    var j :| 0 <= j < |s.wins| && s.wins[j] == b;
    assert i < j ==> !Alive(s, s.wins[i]);
    assert j < i ==> SameJob(s, b, a) && !Alive(s, s.wins[j]);
  }

  lemma Then(s: System, steps: seq<Step>, step: Step)
    ensures Run(s, steps + [step]) == Do(Run(s, steps), step)
  {
    assert (steps + [step])[..|steps|] == steps;
  }

  /** One attempt, undisturbed, from InitJobLock to its command. */
  function Solo(job: string, a: nat): seq<Step> {
    [Arrive(job), Grant(a, true), Send(a), Apply(a), Receive(a, Won), StartCommand(a)]
  }

  lemma {:induction false} RunConcat(s: System, a: seq<Step>, b: seq<Step>)
    ensures Run(s, a + b) == Run(Run(s, a), b)
  {
    if b == [] {
      assert a + b == a;
    } else {
      assert (a + b)[..|a + b| - 1] == a + b[..|b| - 1];
      RunConcat(s, a, b[..|b| - 1]);
    }
  }

  lemma Unroll(s: System, steps: seq<Step>, k: nat)
    requires 1 <= k <= |steps|
    ensures Run(s, steps[..k]) == Do(Run(s, steps[..k - 1]), steps[k - 1])
    ensures k == |steps| ==> steps[..k] == steps
  {
    assert steps[..k][..k - 1] == steps[..k - 1];
  }

  lemma SoloSteps(s: System, job: string, a: nat)
    ensures Run(s, Solo(job, a)) ==
            Do(Do(Do(Do(Do(Do(s, Arrive(job)), Grant(a, true)), Send(a)), Apply(a)), Receive(a, Won)), StartCommand(a))
  {
    var steps := Solo(job, a);
    Unroll(s, steps, 6);
    Unroll(s, steps, 5);
    Unroll(s, steps, 4);
    Unroll(s, steps, 3);
    Unroll(s, steps, 2);
    Unroll(s, steps, 1);
  }

  /** If the key is free, an undisturbed attempt gets as far as its command. */
  lemma SoloRuns(s: System, job: string)
    requires LockKey(job) !in s.keys
    ensures var a, s' := |s.attempts|, Run(s, Solo(job, |s.attempts|));
            && s'.attempts == s.attempts + [Attempt(job, Some(s.nextLease), Running)]
            && s'.live == s.live + {s.nextLease} && s'.nextLease == s.nextLease + 1
            && s'.keys == s.keys[LockKey(job) := s.nextLease]
  {
    var a := |s.attempts|;
    SoloSteps(s, job, a);
    SoloGrant(s, job);
    var s2 := Do(Do(s, Arrive(job)), Grant(a, true));
    SoloCommit(s2, a);
    var s4 := Do(Do(s2, Send(a)), Apply(a));
    SoloStart(s4, a);
    assert s4.attempts[a := s4.attempts[a].(pc := Running)] == s.attempts + [Attempt(job, Some(s.nextLease), Running)];
  }

  lemma SoloGrant(s: System, job: string)
    ensures var a, l := |s.attempts|, s.nextLease;
            Do(Do(s, Arrive(job)), Grant(a, true))
              == s.(live := s.live + {l}, nextLease := l + 1, attempts := s.attempts + [Attempt(job, Some(l), Leased)])
  {
  }

  lemma SoloCommit(s: System, a: nat)
    requires a < |s.attempts| && s.attempts[a].pc == Leased && Alive(s, a) && LockKey(s.attempts[a].job) !in s.keys
    ensures var s' := Do(Do(s, Send(a)), Apply(a));
            && s'.attempts == s.attempts[a := s.attempts[a].(pc := Committing)]
            && s'.live == s.live && s'.nextLease == s.nextLease && (a, Won) in s'.replies && s'.wins == s.wins + [a]
            && s'.keys == s.keys[LockKey(s.attempts[a].job) := s.attempts[a].lease.value]
  {
  }

  lemma SoloStart(s: System, a: nat)
    requires a < |s.attempts| && s.attempts[a].pc == Committing && (a, Won) in s.replies
    ensures Do(Do(s, Receive(a, Won)), StartCommand(a))
        == s.(attempts := s.attempts[a := s.attempts[a].(pc := Running)])
  {
  }

  /** The exception is real: nothing stops a running command when its lease expires, so a second
      command of the same job can start beside it. */
  lemma OverlapIsPossible(job: string)
    ensures exists steps :: var s := Run(START, steps);
              |s.attempts| == 2 && SameJob(s, 0, 1) && s.attempts[0].pc == Running && s.attempts[1].pc == Running
  {
    SoloRuns(START, job);
    var s1 := Run(START, Solo(job, 0));
    Then(START, Solo(job, 0), Expire(0));
    var s2 := Do(s1, Expire(0));
    SoloRuns(s2, job);
    RunConcat(START, Solo(job, 0) + [Expire(0)], Solo(job, 1));
    var s := Run(START, Solo(job, 0) + [Expire(0)] + Solo(job, 1));
    assert |s.attempts| == 2 && SameJob(s, 0, 1) && s.attempts[0].pc == Running && s.attempts[1].pc == Running;
  }

  // ---------------------------------------------------------------- what the client was told

  /** In this run, from step `from` on, the client of attempt a received this answer. */
  ghost predicate Got(s: System, steps: seq<Step>, from: nat, a: nat, reply: Reply) {
    exists k :: from <= k < |steps| && steps[k] == Receive(a, reply) && Enabled(Run(s, steps[..k]), steps[k])
  }

  lemma GotOneMore(s: System, steps: seq<Step>, step: Step, a: nat, reply: Reply)
    ensures Got(s, steps + [step], 0, a, reply) <==>
            Got(s, steps, 0, a, reply) || (step == Receive(a, reply) && Enabled(Run(s, steps), step))
  {
    var longer := steps + [step];
    forall k | 0 <= k < |steps| ensures longer[k] == steps[k] && longer[..k] == steps[..k] {}
    assert longer[..|steps|] == steps && longer[|steps|] == step;
    if Got(s, steps, 0, a, reply) {
      var k :| 0 <= k < |steps| && steps[k] == Receive(a, reply) && Enabled(Run(s, steps[..k]), steps[k]);
      assert longer[k] == Receive(a, reply) && Enabled(Run(s, longer[..k]), longer[k]);
    }
  }

  lemma GotSince(s: System, steps: seq<Step>, from: nat, a: nat, reply: Reply)
    requires from <= |steps| && !Got(s, steps[..from], 0, a, reply)
    ensures Got(s, steps, 0, a, reply) <==> Got(s, steps, from, a, reply)
  {
    forall k | 0 <= k < from ensures steps[..from][k] == steps[k] && steps[..from][..k] == steps[..k] {}
  }

  predicate PastTryLock(pc: Pc) { pc in {Locked, Running, Finished, Released} }

  predicate LostRace(pc: Pc) { pc == RollingBack(AlreadyTaken) || pc == Refused(AlreadyTaken) }

  predicate LostRaceAt(s: System, a: nat) { a < |s.attempts| && LostRace(s.attempts[a].pc) }

  predicate PastTryLockAt(s: System, a: nat) { a < |s.attempts| && PastTryLock(s.attempts[a].pc) }

  /** Only an answer decides: Taken makes a lost race, Won a lock. */
  lemma StepDecides(s: System, step: Step, a: nat)
    requires Enabled(s, step)
    ensures LostRaceAt(Next(s, step), a) <==> LostRaceAt(s, a) || step == Receive(a, Taken)
    ensures PastTryLockAt(Next(s, step), a) <==> PastTryLockAt(s, a) || step == Receive(a, Won)
  {
  }

  /** In every run an attempt fails because the lock was taken if and only if its client received
      the answer Taken, and gets past TryLock if and only if it received the answer Won. */
  lemma {:induction false} AnswerDecides(steps: seq<Step>, a: nat)
    ensures LostRaceAt(Run(START, steps), a) <==> Got(START, steps, 0, a, Taken)
    ensures PastTryLockAt(Run(START, steps), a) <==> Got(START, steps, 0, a, Won)
  {
    if steps != [] {
      var init, last := steps[..|steps| - 1], steps[|steps| - 1];
      assert steps == init + [last];
      AnswerDecides(init, a);
      GotOneMore(START, init, last, a, Taken);
      GotOneMore(START, init, last, a, Won);
      if Enabled(Run(START, init), last) {
        StepDecides(Run(START, init), last, a);
      }
    }
  }

  /** In this run the commit of attempt a was applied while its job's key was there. */
  ghost predicate AppliedWhenHeld(s: System, steps: seq<Step>, a: nat) {
    exists k :: 0 <= k < |steps| && steps[k] == Apply(a) && Enabled(Run(s, steps[..k]), steps[k])
      && LockKey(Run(s, steps[..k]).attempts[a].job) in Run(s, steps[..k]).keys
  }

  lemma AppliedOneMore(s: System, steps: seq<Step>, step: Step, a: nat)
    ensures AppliedWhenHeld(s, steps + [step], a) <==>
            AppliedWhenHeld(s, steps, a)
            || (step == Apply(a) && Enabled(Run(s, steps), step)
                && LockKey(Run(s, steps).attempts[a].job) in Run(s, steps).keys)
  {
    var longer := steps + [step];
    forall k | 0 <= k < |steps| ensures longer[k] == steps[k] && longer[..k] == steps[..k] {}
    assert longer[..|steps|] == steps && longer[|steps|] == step;
    if AppliedWhenHeld(s, steps, a) {
      var k :| 0 <= k < |steps| && steps[k] == Apply(a) && Enabled(Run(s, steps[..k]), steps[k])
        && LockKey(Run(s, steps[..k]).attempts[a].job) in Run(s, steps[..k]).keys;
      assert longer[k] == Apply(a) && Enabled(Run(s, longer[..k]), longer[k]);
    }
  }

  /** The server answers Taken if and only if it applied the transaction while the key was there;
      the key was then bound to a live lease. */
  lemma {:induction false} TakenMeansHeld(steps: seq<Step>, a: nat)
    ensures (a, Taken) in Run(START, steps).replies <==> AppliedWhenHeld(START, steps, a)
  {
    if steps != [] {
      var init, last := steps[..|steps| - 1], steps[|steps| - 1];
      assert steps == init + [last];
      TakenMeansHeld(init, a);
      AppliedOneMore(START, init, last, a);
    }
  }

  // ---------------------------------------------------------------- rollback

  /** Lease ids are never reused, so a lease that was granted and has died stays dead, and no
      key is bound to it, however the run goes on. */
  ghost predicate Gone(s: System, l: LeaseId) {
    l < s.nextLease && l !in s.live && forall key :: key in s.keys ==> s.keys[key] != l
  }

  lemma DeadIsGone(s: System, l: LeaseId)
    requires Inv(s) && l < s.nextLease && l !in s.live
    ensures Gone(s, l)
  {
  }

  lemma StepKeepsGone(s: System, l: LeaseId, step: Step)
    requires Gone(s, l) && Enabled(s, step)
    ensures Gone(Next(s, step), l)
  {
  }

  lemma {:induction false} GoneForGood(s: System, l: LeaseId, steps: seq<Step>)
    requires Gone(s, l)
    ensures Gone(Run(s, steps), l)
  {
    if steps != [] {
      GoneForGood(s, l, steps[..|steps| - 1]);
      var mid := Run(s, steps[..|steps| - 1]);
      if Enabled(mid, steps[|steps| - 1]) {
        StepKeepsGone(mid, l, steps[|steps| - 1]);
      }
    }
  }

  lemma {:induction false} RefusedForGood(s: System, a: nat, steps: seq<Step>)
    requires a < |s.attempts| && s.attempts[a].pc.Refused?
    ensures var s' := Run(s, steps); a < |s'.attempts| && s'.attempts[a] == s.attempts[a]
  {
    if steps != [] {
      RefusedForGood(s, a, steps[..|steps| - 1]);
    }
  }

  /** The rollback of an ambiguous commit is complete. Once the lease of a refused attempt has
      been revoked or has expired, no key is ever bound to it again, and delivering its commit,
      for the first time or once more, creates no key. */
  lemma RollbackIsComplete(s: System, a: nat, steps: seq<Step>)
    requires Inv(s) && a < |s.attempts| && s.attempts[a].pc.Refused? && s.attempts[a].lease.Some?
    requires !Alive(s, a)
    ensures var s' := Run(s, steps); var l := s.attempts[a].lease.value;
            && a < |s'.attempts| && s'.attempts[a] == s.attempts[a] && !Alive(s', a)
            && (forall key :: key in s'.keys ==> s'.keys[key] != l)
            && Do(s', Apply(a)).keys == s'.keys && Do(s', Apply(a)).wins == s'.wins
  {
    DeadIsGone(s, s.attempts[a].lease.value);
    GoneForGood(s, s.attempts[a].lease.value, steps);
    RefusedForGood(s, a, steps);
  }

  /** A lost revoke leaves the lock held by a refused attempt, which no longer renews its lease;
      expiry then has the effect the revoke would have had. */
  lemma ExpiryFinishesRollback(s: System, a: nat)
    requires Inv(s) && Enabled(s, Revoke(a, false)) && Alive(s, a)
    ensures var lost := Next(s, Revoke(a, false));
            Do(lost, Expire(s.attempts[a].lease.value)) == Next(s, Revoke(a, true))
  {
  }

  // ---------------------------------------------------------------- unlock

  /** UnLock removes a key if and only if that key is bound to its own lease, in which case it is
      the lock of its own job and it holds it. Every other key, in particular the same job's lock
      once another worker acquired it, is untouched, and a repeated UnLock does nothing. */
  lemma UnlockRemovesOnlyItsOwn(s: System, a: nat, key: string)
    requires Inv(s) && Enabled(s, Unlock(a, true))
    ensures var s' := Next(s, Unlock(a, true));
            && (key in s.keys && key !in s'.keys <==> BoundTo(s, key, a))
            && (key in s'.keys ==> key in s.keys && s'.keys[key] == s.keys[key])
            && !Alive(s', a)
            && Enabled(s', Unlock(a, true)) && Next(s', Unlock(a, true)) == s'
  {
    var s' := Next(s, Unlock(a, true));
    if key in s.keys {
      var b: nat :| BoundTo(s, key, b);
      assert s.attempts[a].lease == s.attempts[b].lease ==> a == b;
    }
    UnlockIsIdempotent(s, a);
  }

  lemma UnlockIsIdempotent(s: System, a: nat)
    requires Enabled(s, Unlock(a, true))
    ensures var s' := Next(s, Unlock(a, true)); Enabled(s', Unlock(a, true)) && Next(s', Unlock(a, true)) == s'
  {
    var s' := Next(s, Unlock(a, true));
    assert Next(s', Unlock(a, true)).live == s'.live;
    assert Next(s', Unlock(a, true)).keys == s'.keys;
    assert Next(s', Unlock(a, true)).attempts == s'.attempts;
  }

  lemma LateUnlockSparesTheNewHolder(s: System, a: nat, b: nat)
    requires Inv(s) && Enabled(s, Unlock(a, true))
    requires a != b && b in s.wins && Alive(s, b) && SameJob(s, a, b)
    ensures var s' := Next(s, Unlock(a, true)); Alive(s', b) && BoundTo(s', LockKey(s.attempts[b].job), b)
  {
    assert BoundTo(s, LockKey(s.attempts[b].job), b);
    assert s.attempts[a].lease != s.attempts[b].lease;
    StepKeepsInv(s, Unlock(a, true));
  }

  // ---------------------------------------------------------------- availability

  /** No winner of the job has a live lease. */
  ghost predicate NoLiveWinner(s: System, job: string) {
    forall a :: a in s.wins && a < |s.attempts| && s.attempts[a].job == job ==> !Alive(s, a)
  }

  /** The lock is free if and only if no winner of the job is alive, and then an undisturbed
      attempt gets it. */
  lemma FreeIffNoLiveWinner(s: System, job: string)
    requires Inv(s)
    ensures LockKey(job) !in s.keys <==> NoLiveWinner(s, job)
  {
    if LockKey(job) in s.keys {
      var a: nat :| BoundTo(s, LockKey(job), a);
      KeysInjective(s.attempts[a].job, job);
      assert Alive(s, a);
    } else {
      forall a | a in s.wins && a < |s.attempts| && s.attempts[a].job == job ensures !Alive(s, a) {
        assert Alive(s, a) ==> BoundTo(s, LockKey(job), a);
      }
    }
  }

  lemma FreeLockIsWon(s: System, a: nat)
    requires Inv(s) && a < |s.attempts| && s.attempts[a].pc == Leased && Alive(s, a)
    requires LockKey(s.attempts[a].job) !in s.keys
    ensures var s' := Do(Do(Do(s, Send(a)), Apply(a)), Receive(a, Won));
            s'.attempts[a].pc == Locked && BoundTo(s', LockKey(s.attempts[a].job), a)
  {
    var s2 := Do(Do(s, Send(a)), Apply(a));
    assert s2.wins[|s.wins|] == a;
  }

  // ---------------------------------------------------------------- who can get in

  /** Steps in which a lease dies. */
  predicate Kills(step: Step) {
    step.Expire? || (step.Revoke? && step.applied) || (step.Unlock? && step.applied)
  }

  ghost predicate NoLeaseDies(steps: seq<Step>) {
    forall k :: 0 <= k < |steps| ==> !Kills(steps[k])
  }

  predicate Runs(s: System, a: nat, job: string) {
    a < |s.attempts| && s.attempts[a].job == job && s.attempts[a].pc == Running
  }

  /** A command of the job runs in s' whose attempt had not won the lock in s. */
  ghost predicate SomebodyNewRuns(s: System, s': System, job: string) {
    exists a: nat :: a !in s.wins && Runs(s', a, job)
  }

  ghost predicate WinnersAmong(s: System, job: string, winners: seq<nat>) {
    forall a :: a in s.wins && a < |s.attempts| && s.attempts[a].job == job ==> a in winners
  }

  ghost predicate KeyBound(s: System, job: string, l: LeaseId) {
    LockKey(job) in s.keys && s.keys[LockKey(job)] == l
  }

  lemma KeyHeldThroughStep(s: System, step: Step, job: string, l: LeaseId)
    requires Enabled(s, step) && KeyBound(s, job, l) && l in Next(s, step).live
    ensures KeyBound(Next(s, step), job, l)
  {
  }

  /** Jobs do not change, and only an applied put makes a winner. */
  lemma WinnersOfStep(s: System, step: Step)
    requires Enabled(s, step)
    ensures var s' := Next(s, step);
            && |s.attempts| <= |s'.attempts|
            && (forall a :: 0 <= a < |s.attempts| ==> s'.attempts[a].job == s.attempts[a].job)
            && (s'.wins == s.wins
                || (step.Apply? && LockKey(s.attempts[step.a].job) !in s.keys && s'.wins == s.wins + [step.a]))
  {
  }

  lemma HeldThroughStep(s: System, step: Step, job: string, l: LeaseId, winners: seq<nat>)
    requires MessagesOk(s) && Enabled(s, step) && KeyBound(s, job, l) && WinnersAmong(s, job, winners)
    requires l in Next(s, step).live
    ensures KeyBound(Next(s, step), job, l) && WinnersAmong(Next(s, step), job, winners)
  {
    KeyHeldThroughStep(s, step, job, l);
    WinnersOfStep(s, step);
    forall a | a in s.wins ensures a in s.sent && a < |s.attempts| {}
  }

  lemma {:induction false} LeasesOnlyAge(s: System, l: LeaseId, steps: seq<Step>)
    requires l < s.nextLease
    ensures l < Run(s, steps).nextLease
  {
    if steps != [] {
      LeasesOnlyAge(s, l, steps[..|steps| - 1]);
    }
  }

  lemma LiveBefore(s: System, l: LeaseId, step: Step)
    requires l < s.nextLease && l in Do(s, step).live
    ensures l in s.live
  {
  }

  lemma {:induction false} HeldThroughRun(s: System, steps: seq<Step>, job: string, l: LeaseId)
    requires Inv(s) && KeyBound(s, job, l) && l in Run(s, steps).live
    ensures KeyBound(Run(s, steps), job, l) && WinnersAmong(Run(s, steps), job, s.wins)
  {
    if steps != [] {
      var mid, last := Run(s, steps[..|steps| - 1]), steps[|steps| - 1];
      RunKeepsInv(s, steps[..|steps| - 1]);
      LeasesOnlyAge(s, l, steps[..|steps| - 1]);
      LiveBefore(mid, l, last);
      HeldThroughRun(s, steps[..|steps| - 1], job, l);
      if Enabled(mid, last) {
        HeldThroughStep(mid, last, job, l, s.wins);
      }
    }
  }

  /** While the lease that a job's key is bound to lives, nobody who has not already won comes to
      run the job: any run that brings a command of such an attempt outlives that lease. */
  lemma NobodyNewRunsWhileHeld(s: System, steps: seq<Step>, job: string)
    requires Inv(s) && LockKey(job) in s.keys && SomebodyNewRuns(s, Run(s, steps), job)
    ensures s.keys[LockKey(job)] !in Run(s, steps).live
  {
    var s', l := Run(s, steps), s.keys[LockKey(job)];
    RunKeepsInv(s, steps);
    var a: nat :| a !in s.wins && Runs(s', a, job);
    assert a in s'.wins;
    if l in s'.live {
      HeldThroughRun(s, steps, job, l);
    }
  }

  lemma {:induction false} NoneDied(s: System, steps: seq<Step>, l: LeaseId)
    requires NoLeaseDies(steps) && l in s.live
    ensures l in Run(s, steps).live
  {
    if steps != [] {
      NoneDied(s, steps[..|steps| - 1], l);
    }
  }

  /** Exactly when the job is open to a new command: without any further lease dying, somebody
      new can come to run it if and only if its key is absent, which is the guard of the
      transaction; that is, if and only if no winner of the job is alive. */
  lemma SomebodyNewCanRunIffFree(s: System, job: string)
    requires Inv(s)
    ensures (exists steps :: NoLeaseDies(steps) && SomebodyNewRuns(s, Run(s, steps), job)) <==> LockKey(job) !in s.keys
    ensures LockKey(job) !in s.keys <==> NoLiveWinner(s, job)
  {
    FreeIffNoLiveWinner(s, job);
    if LockKey(job) !in s.keys {
      SoloRuns(s, job);
      assert Runs(Run(s, Solo(job, |s.attempts|)), |s.attempts|, job) && |s.attempts| !in s.wins;
      assert NoLeaseDies(Solo(job, |s.attempts|));
    } else if steps :| NoLeaseDies(steps) && SomebodyNewRuns(s, Run(s, steps), job) {
      NobodyNewRunsWhileHeld(s, steps, job);
      NoneDied(s, steps, s.keys[LockKey(job)]);
      assert false;
    }
  }

  // ---------------------------------------------------------------- which commands can still run

  /** Attempt b can come to run its command for the job without any lease dying. It has won and has
      not turned back, whether or not its lease has died since; or the key is absent, its lease,
      once granted, is alive, and it is still on its way. An index past the end stands for an
      attempt that has yet to be made. */
  predicate CanRun(s: System, b: nat, job: string) {
    if b >= |s.attempts| then LockKey(job) !in s.keys
    else
      && s.attempts[b].job == job
      && if b in s.wins then s.attempts[b].pc in {Committing, Locked, Running}
         else LockKey(job) !in s.keys
              && (s.attempts[b].pc == Ready || (s.attempts[b].pc in {Leased, Committing} && Alive(s, b)))
  }

  /** Without a lease dying, no step opens the way to a command. */
  lemma CanRunOnlyShrinks(s: System, step: Step, b: nat, job: string)
    requires Inv(s) && Enabled(s, step) && !Kills(step) && CanRun(Next(s, step), b, job)
    ensures CanRun(s, b, job)
  {
  }

  lemma RunningCanRun(s: System, b: nat, job: string)
    requires PcsOk(s) && Runs(s, b, job)
    ensures CanRun(s, b, job)
  {
  }

  lemma {:induction false} CouldRunBefore(s: System, steps: seq<Step>, b: nat, job: string)
    requires Inv(s) && NoLeaseDies(steps) && CanRun(Run(s, steps), b, job)
    ensures CanRun(s, b, job)
  {
    if steps != [] {
      var init, last := steps[..|steps| - 1], steps[|steps| - 1];
      var mid := Run(s, init);
      RunKeepsInv(s, init);
      if Enabled(mid, last) {
        CanRunOnlyShrinks(mid, last, b, job);
      }
      CouldRunBefore(s, init, b, job);
    }
  }

  /** The next step of an undisturbed attempt on its way to its command. */
  function Onward(s: System, b: nat, job: string): Step
    requires b <= |s.attempts|
  {
    if b == |s.attempts| then Arrive(job)
    else match s.attempts[b].pc
      case Ready => Grant(b, true)
      case Leased => Send(b)
      case Committing => if b in s.wins then Receive(b, Won) else Apply(b)
      case _ => StartCommand(b)
  }

  /** How many such steps there are. */
  function Distance(s: System, b: nat): nat {
    if b >= |s.attempts| then 6
    else match s.attempts[b].pc
      case Ready => 5
      case Leased => 4
      case Committing => if b in s.wins then 2 else 3
      case Locked => 1
      case _ => 0
  }

  lemma OnwardWorks(s: System, b: nat, job: string)
    requires Inv(s) && b <= |s.attempts| && CanRun(s, b, job) && !Runs(s, b, job)
    ensures var step := Onward(s, b, job);
            && Enabled(s, step) && !Kills(step)
            && b <= |Next(s, step).attempts| && CanRun(Next(s, step), b, job)
            && Distance(Next(s, step), b) < Distance(s, b)
  {
  }

  lemma First(s: System, step: Step, rest: seq<Step>)
    ensures Run(s, [step] + rest) == Run(Do(s, step), rest)
  {
    RunConcat(s, [step], rest);
    assert [step][..0] == [];
    assert Run(s, [step]) == Do(s, step);
  }

  ghost predicate SameButFor(s: System, s': System, b: nat) {
    |s.attempts| <= |s'.attempts| && forall a :: 0 <= a < |s.attempts| && a != b ==> s'.attempts[a] == s.attempts[a]
  }

  /** No other attempt is disturbed. */
  lemma OnwardIsQuiet(s: System, b: nat, job: string)
    requires b <= |s.attempts| && Enabled(s, Onward(s, b, job))
    ensures SameButFor(s, Next(s, Onward(s, b, job)), b)
  {
  }

  lemma {:induction false} WayToCommand(s: System, b: nat, job: string) returns (steps: seq<Step>)
    requires Inv(s) && b <= |s.attempts| && CanRun(s, b, job)
    ensures NoLeaseDies(steps) && Runs(Run(s, steps), b, job) && SameButFor(s, Run(s, steps), b)
    decreases Distance(s, b)
  {
    steps := [];
    if !Runs(s, b, job) {
      var step := Onward(s, b, job);
      OnwardWorks(s, b, job);
      StepKeepsInv(s, step);
      var rest := WayToCommand(Next(s, step), b, job);
      First(s, step, rest);
      steps := [step] + rest;
      OnwardIsQuiet(s, b, job);
    }
  }

  /** Which attempts can come to their command without any lease dying: exactly those that CanRun. */
  lemma CommandReachableIffCanRun(s: System, b: nat, job: string)
    requires Inv(s) && b <= |s.attempts|
    ensures (exists steps :: NoLeaseDies(steps) && Runs(Run(s, steps), b, job)) <==> CanRun(s, b, job)
  {
    if CanRun(s, b, job) {
      var steps := WayToCommand(s, b, job);
    }
    if steps :| NoLeaseDies(steps) && Runs(Run(s, steps), b, job) {
      RunKeepsInv(s, steps);
      RunningCanRun(Run(s, steps), b, job);
      CouldRunBefore(s, steps, b, job);
    }
  }

  /** A command of the job runs beside that of attempt a. */
  ghost predicate Joined(s: System, a: nat, job: string) {
    Runs(s, a, job) && exists b: nat :: b != a && Runs(s, b, job)
  }

  /** An attempt of the job other than a that won and has not turned back, its lease alive or not. */
  predicate OnItsWay(s: System, a: nat, b: nat, job: string) {
    && b != a && b in s.wins && b < |s.attempts| && s.attempts[b].job == job
    && s.attempts[b].pc in {Committing, Locked, Running}
  }

  /** Overlap, exactly. Without any further lease dying, the running command of attempt a can be
      joined by another of its job if and only if the key is absent, or another attempt of the job
      has won and not turned back. The latter needs no lease at all: a client that pauses between
      its put and its command past the life of its lease starts it all the same. */
  lemma OverlapIffFreeOrOnItsWay(s: System, a: nat, job: string)
    requires Inv(s) && Runs(s, a, job)
    ensures (exists steps :: NoLeaseDies(steps) && Joined(Run(s, steps), a, job))
            <==> LockKey(job) !in s.keys || exists b: nat :: OnItsWay(s, a, b, job)
  {
    if LockKey(job) !in s.keys {
      JoinerFound(s, a, |s.attempts|, job);
    }
    if b: nat :| OnItsWay(s, a, b, job) {
      JoinerFound(s, a, b, job);
    }
    if steps :| NoLeaseDies(steps) && Joined(Run(s, steps), a, job) {
      var b: nat :| b != a && Runs(Run(s, steps), b, job);
      RunKeepsInv(s, steps);
      RunningCanRun(Run(s, steps), b, job);
      CouldRunBefore(s, steps, b, job);
      assert LockKey(job) in s.keys ==> OnItsWay(s, a, b, job);
    }
  }

  lemma JoinerFound(s: System, a: nat, b: nat, job: string)
    requires Inv(s) && Runs(s, a, job) && b <= |s.attempts| && b != a && CanRun(s, b, job)
    ensures exists steps :: NoLeaseDies(steps) && Joined(Run(s, steps), a, job)
  {
    var steps := WayToCommand(s, b, job);
    assert Joined(Run(s, steps), a, job);
  }

  /** Attempt 0 wins, pauses, and loses its lease; attempt 1 runs, with a live lease and the key. */
  function PausedWinner(job: string): seq<Step> {
    [Arrive(job), Grant(0, true), Send(0), Apply(0), Expire(0)] + Solo(job, 1)
  }

  /** Such a client: the one that holds the lock, lease and all, is joined by the one that lost it
      before its command began. */
  lemma LateStarterJoinsHolder(job: string)
    ensures var s := Run(START, PausedWinner(job));
            && |s.attempts| == 2 && Runs(s, 1, job) && Alive(s, 1) && KeyBound(s, job, 1)
            && OnItsWay(s, 1, 0, job) && !Alive(s, 0)
            && Joined(Run(s, [Receive(0, Won), StartCommand(0)]), 1, job)
  {
    var prefix := [Arrive(job), Grant(0, true), Send(0), Apply(0), Expire(0)];
    RunConcat(START, prefix, Solo(job, 1));
    var s0 := Run(START, prefix);
    PausedSteps(job);
    SoloRuns(s0, job);
    var s := Run(s0, Solo(job, 1));
    SoloKeepsReplies(s0, job);
    Then(s, [], Receive(0, Won));
    Then(s, [Receive(0, Won)], StartCommand(0));
    assert [] + [Receive(0, Won)] == [Receive(0, Won)];
    assert [Receive(0, Won)] + [StartCommand(0)] == [Receive(0, Won), StartCommand(0)];
    var s' := Run(s, [Receive(0, Won), StartCommand(0)]);
    assert Runs(s', 0, job) && Runs(s', 1, job);
  }

  lemma PausedRun(job: string)
    ensures Run(START, [Arrive(job), Grant(0, true), Send(0), Apply(0), Expire(0)]) ==
            Do(Do(Do(Do(Do(START, Arrive(job)), Grant(0, true)), Send(0)), Apply(0)), Expire(0))
  {
    var steps := [Arrive(job), Grant(0, true), Send(0), Apply(0), Expire(0)];
    Unroll(START, steps, 5);
    Unroll(START, steps, 4);
    Unroll(START, steps, 3);
    Unroll(START, steps, 2);
    Unroll(START, steps, 1);
  }

  lemma PausedSteps(job: string)
    ensures var s := Run(START, [Arrive(job), Grant(0, true), Send(0), Apply(0), Expire(0)]);
            && s.live == {} && s.nextLease == 1 && s.keys == map[] && s.wins == [0]
            && s.attempts == [Attempt(job, Some(0), Committing)] && (0, Won) in s.replies
  {
    PausedRun(job);
    SoloGrant(START, job);
    var s2 := Do(Do(START, Arrive(job)), Grant(0, true));
    SoloCommit(s2, 0);
    var s4 := Do(Do(s2, Send(0)), Apply(0));
    assert s4.live == {0} && s4.keys == map[LockKey(job) := 0];
    assert Do(s4, Expire(0)) == Kill(s4, 0);
  }

  /** Answers and wins are never taken back. */
  lemma {:induction false} HistoryGrows(s: System, steps: seq<Step>)
    ensures s.replies <= Run(s, steps).replies && forall a :: a in s.wins ==> a in Run(s, steps).wins
  {
    if steps != [] {
      HistoryGrows(s, steps[..|steps| - 1]);
    }
  }

  lemma SoloKeepsReplies(s: System, job: string)
    ensures s.replies <= Run(s, Solo(job, |s.attempts|)).replies
    ensures forall a :: a in s.wins ==> a in Run(s, Solo(job, |s.attempts|)).wins
  {
    HistoryGrows(s, Solo(job, |s.attempts|));
  }
}
