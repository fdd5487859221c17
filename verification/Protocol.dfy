/** Jobs, events, plans and the key layout shared by master and worker. */
module Protocol {
  import opened Wrappers
  import opened GoTime

  /** An etcd lease id. */
  type LeaseId = nat

  const JOB_SAVE_DIR := "/cron/jobs/"
  const JOB_KILL_DIR := "/cron/killer/"
  const JOB_LOCK_DIR := "/cron/lock/"

  const JOB_EVENT_SAVE := 1
  const JOB_EVENT_DELETE := 2
  const JOB_EVENT_KILL := 3

  const ERR_LOCK_ALREADY_REQUIRET := "etcd lockKey 锁已被占用"

  datatype Job = Job(name: string, command: string, cronExpr: string)
  datatype JobEvent = JobEvent(eventType: int, job: Job)

  /** Why an execution ended: nil, ERR_LOCK_ALREADY_REQUIRET, or any other error text. */
  datatype ExecError = NoError | LockTaken | Other(msg: string)

  /** A JobExecuteResult; `exec` names the execution whose info it carries. */
  datatype Outcome = Outcome(exec: nat, output: string, err: ExecError, startTime: Time, endTime: Time)

  datatype JobLog = JobLog(jobName: string, command: string, err: string, output: string,
                           planTime: int, scheduleTime: int, startTime: int, endTime: int)

  /** The cron library: whether a text parses, and the instant that follows a given one. */
  datatype Cron = Cron(parses: string -> bool, next: (string, Time) -> Time)
  datatype Expression = Expression(source: string)

  /** What the library promises: a strictly later instant, or the zero time when none matches. */
  ghost predicate LibraryLaw(cron: Cron) {
    forall s, t :: cron.parses(s) ==> cron.next(s, t) > t || cron.next(s, t) == ZERO_TIME
  }

  /** The value of a schedule plan; the heap object that carries it is Scheduler.JobSchedulePlan. */
  datatype Plan = Plan(job: Job, expr: Expression, nextTime: Time)

  /** What an execution knows about itself, apart from its cancellation context. */
  datatype Info = Info(job: Job, planTime: Time, realTime: Time)

  function Parse(cron: Cron, s: string): Option<Expression> {
    if cron.parses(s) then Some(Expression(s)) else None
  }

  function BuildJobEvent(eventType: int, job: Job): JobEvent { JobEvent(eventType, job) }

  function BuildJobSchedulePlan(cron: Cron, job: Job, now: Time): Option<Plan> {
    match Parse(cron, job.cronExpr)
    case None => None
    case Some(expr) => Some(Plan(job, expr, cron.next(expr.source, now)))
  }

  function BuildJobExecuteInfo(plan: Plan, now: Time): Info {
    Info(plan.job, plan.nextTime, now)
  }

  function TrimPrefix(s: string, prefix: string): string {
    if prefix <= s then s[|prefix|..] else s
  }

  function ExtractJobName(jobKey: string): string { TrimPrefix(jobKey, JOB_SAVE_DIR) }

  function ExtractKillerName(killerKey: string): string { TrimPrefix(killerKey, JOB_KILL_DIR) }

  function JobKey(name: string): string { JOB_SAVE_DIR + name }
  function KillKey(name: string): string { JOB_KILL_DIR + name }
  function LockKey(name: string): string { JOB_LOCK_DIR + name }

  /** Key and name determine each other, for any name at all (empty, or itself starting with
      the prefix). */
  lemma JobKeyRoundTrip(name: string, key: string)
    ensures ExtractJobName(JobKey(name)) == name
    ensures JOB_SAVE_DIR <= key ==> JobKey(ExtractJobName(key)) == key
    ensures ExtractKillerName(KillKey(name)) == name
    ensures JOB_KILL_DIR <= key ==> KillKey(ExtractKillerName(key)) == key
  {
    assert (JOB_SAVE_DIR + name)[|JOB_SAVE_DIR|..] == name;
    assert (JOB_KILL_DIR + name)[|JOB_KILL_DIR|..] == name;
  }

  lemma KeysInjective(n: string, m: string)
    ensures JobKey(n) == JobKey(m) ==> n == m
    ensures LockKey(n) == LockKey(m) ==> n == m
  {
    assert JobKey(n)[|JOB_SAVE_DIR|..] == n && JobKey(m)[|JOB_SAVE_DIR|..] == m;
    assert LockKey(n)[|JOB_LOCK_DIR|..] == n && LockKey(m)[|JOB_LOCK_DIR|..] == m;
  }

  /** The three directories never overlap: no job name makes a key of one directory fall
      into another, so locks and kill marks are invisible to the job watcher. */
  lemma DirectoriesDisjoint(n: string)
    ensures !(JOB_SAVE_DIR <= LockKey(n)) && !(JOB_SAVE_DIR <= KillKey(n))
    ensures !(JOB_KILL_DIR <= LockKey(n)) && !(JOB_KILL_DIR <= JobKey(n))
    ensures !(JOB_LOCK_DIR <= JobKey(n)) && !(JOB_LOCK_DIR <= KillKey(n))
  {
    assert JobKey(n)[6] == 'j' && KillKey(n)[6] == 'k' && LockKey(n)[6] == 'l';
    assert JOB_SAVE_DIR[6] == 'j' && JOB_KILL_DIR[6] == 'k' && JOB_LOCK_DIR[6] == 'l';
  }

  /** The log record of a finished execution. */
  function BuildLog(info: Info, outcome: Outcome): JobLog {
    JobLog(info.job.name, info.job.command,
           match outcome.err case NoError => "" case LockTaken => ERR_LOCK_ALREADY_REQUIRET case Other(m) => m,
           outcome.output, Millis(info.planTime), Millis(info.realTime),
           Millis(outcome.startTime), Millis(outcome.endTime))
  }
  /** The record says what happened: whose run it was, what it printed, why it failed if it did,
      and when. */
  predicate RecordOf(log: JobLog, info: Info, outcome: Outcome) {
    && log.jobName == info.job.name && log.command == info.job.command
    && log.output == outcome.output
    && (outcome.err == NoError ==> log.err == "")
    && (outcome.err.Other? ==> log.err == outcome.err.msg)
    && IsMillis(log.planTime, info.planTime) && IsMillis(log.scheduleTime, info.realTime)
    && IsMillis(log.startTime, outcome.startTime) && IsMillis(log.endTime, outcome.endTime)
  }

  lemma LogIsRecord(info: Info, outcome: Outcome)
    ensures RecordOf(BuildLog(info, outcome), info, outcome)
  {
    MillisMeaning(info.planTime);
    MillisMeaning(info.realTime);
    MillisMeaning(outcome.startTime);
    MillisMeaning(outcome.endTime);
  }
}
