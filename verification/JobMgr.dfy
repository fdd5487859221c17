/** The two job managers: the master's writes to the store, and the worker's watchers. */
module JobMgrs {
  import opened Wrappers
  import opened GoTime
  import opened Protocol
  import opened SchedulerTables
  import opened Feed
  import WorkerModel
  import WorkerTheorems

  /** What the network does to one call. */
  datatype Fault = Delivered | RequestLost | ReplyLost

  /** The key-value store with its leases, and the revisions that led to it. */
  class KvStore {
    var kv: map<string, string>
    var bound: map<string, LeaseId>   // keys that go when their lease does
    var ttl: map<LeaseId, nat>        // live leases, in seconds
    var nextLease: LeaseId
    ghost var history: seq<Op>

    ghost predicate Valid()
      reads this
    {
      && kv == Store(history)
      && (forall key :: key in bound ==> key in kv && bound[key] in ttl)
      && (forall lease :: lease in ttl ==> lease < nextLease)
    }

    /** No job depends on a lease. */
    ghost predicate JobsStay()
      reads this
    {
      forall key :: key in bound ==> !(JOB_SAVE_DIR <= key)
    }

    constructor ()
      ensures Valid() && history == [] && JobsStay()
    {
      kv, bound, ttl, nextLease := map[], map[], map[], 0;
      history := [];
    }

    /** Returns the previous value. A put without a lease ends the key's tie to one. */
    method Put(key: string, value: string, lease: Option<LeaseId>) returns (prev: Option<string>)
      requires Valid() && (lease.Some? ==> lease.value in ttl)
      modifies this`kv, this`bound, this`history
      ensures Valid() && history == old(history) + [Op.Put(key, value)]
      ensures kv == old(kv)[key := value]
      ensures bound == if lease.Some? then old(bound)[key := lease.value] else old(bound) - {key}
      ensures prev == if key in old(kv) then Some(old(kv)[key]) else None
    {
      prev := if key in kv then Some(kv[key]) else None;
      assert (history + [Op.Put(key, value)])[..|history|] == history;
      kv := kv[key := value];
      bound := if lease.Some? then bound[key := lease.value] else bound - {key};
      history := history + [Op.Put(key, value)];
    }

    /** Deleting a missing key makes no revision. */
    method Delete(key: string) returns (prev: Option<string>)
      requires Valid()
      modifies this`kv, this`bound, this`history
      ensures Valid() && kv == old(kv) - {key} && bound == old(bound) - {key}
      ensures history == if key in old(kv) then old(history) + [Del(key)] else old(history)
      ensures prev == if key in old(kv) then Some(old(kv)[key]) else None
    {
      prev := None;
      if key in kv {
        prev := Some(kv[key]);
        assert (history + [Del(key)])[..|history|] == history;
        kv, bound := kv - {key}, bound - {key};
        history := history + [Del(key)];
      }
    }

    method Grant(seconds: nat) returns (lease: LeaseId)
      requires Valid()
      modifies this`ttl, this`nextLease
      ensures Valid() && lease == old(nextLease) && lease !in old(ttl)
      ensures ttl == old(ttl)[lease := seconds] && nextLease == lease + 1
    {
      lease := nextLease;
      ttl := ttl[lease := seconds];
      nextLease := nextLease + 1;
    }

    /** A lease runs out: the keys bound to it are deleted, each by a revision of its own. */
    method Expire(lease: LeaseId)
      requires Valid() && lease in ttl
      modifies this
      ensures Valid() && ttl == old(ttl) - {lease}
      ensures kv == old(kv) - old(BoundTo(lease)) && bound == old(bound) - old(BoundTo(lease))
      ensures old(history) <= history && AreDeletes(history[|old(history)|..], old(BoundTo(lease)))
      ensures old(JobsStay()) ==> JobsStay()
      ensures old(JobsStay()) ==> forall key :: JOB_SAVE_DIR <= key ==>
                (key in kv <==> key in old(kv)) && (key in kv ==> kv[key] == old(kv)[key])
    {
      var todo := set key | key in bound && bound[key] == lease;
      ghost var all, dels := todo, [];
      assert all - todo == {};
      while todo != {}
        invariant Valid() && ttl == old(ttl) && todo <= all
        invariant Dropped(old(kv), old(bound), old(history), all - todo, dels)
        decreases todo
      {
        var key :| key in todo;
        DropNext(key, old(kv), old(bound), old(history), all - todo, dels);
        OneLessToDo(all, todo, key);
        todo, dels := todo - {key}, dels + [Del(key)];
      }
      assert all - {} == all;
      ttl := ttl - {lease};
    }

    /** Since the given state the store has lost these keys by these deletes. */
    ghost predicate Dropped(kv0: map<string, string>, bound0: map<string, LeaseId>, history0: seq<Op>,
                            gone: set<string>, dels: seq<Op>)
      reads this
    {
      && kv == kv0 - gone && bound == bound0 - gone
      && history == history0 + dels && AreDeletes(dels, gone)
    }

    method DropNext(key: string, ghost kv0: map<string, string>, ghost bound0: map<string, LeaseId>,
                    ghost history0: seq<Op>,
                    ghost gone: set<string>, ghost dels: seq<Op>)
      requires Valid() && key in bound0 && key !in gone && Dropped(kv0, bound0, history0, gone, dels)
      modifies this`kv, this`bound, this`history
      ensures Valid() && Dropped(kv0, bound0, history0, gone + {key}, dels + [Del(key)])
    {
      var _ := Delete(key);
      OneMoreDelete(dels, gone, key);
      OneKeyLess(kv0, gone, key);
      OneKeyLess(bound0, gone, key);
    }

    ghost function BoundTo(lease: LeaseId): set<string>
      reads this
    {
      set key | key in bound && bound[key] == lease
    }
  }

  /** One delete for each of the keys, and nothing else. */
  ghost predicate AreDeletes(ops: seq<Op>, keys: set<string>) {
    && |ops| == |keys|
    && (forall i :: 0 <= i < |ops| ==> ops[i].Del? && ops[i].key in keys)
    && (forall i, j :: 0 <= i < j < |ops| ==> ops[i] != ops[j])
  }

  lemma OneKeyLess<V>(m: map<string, V>, gone: set<string>, key: string)
    ensures m - gone - {key} == m - (gone + {key})
  {
  }

  lemma OneLessToDo(all: set<string>, todo: set<string>, key: string)
    requires key in todo && todo <= all
    ensures all - (todo - {key}) == all - todo + {key}
  {
  }

  lemma OneMoreDelete(ops: seq<Op>, keys: set<string>, key: string)
    requires AreDeletes(ops, keys) && key !in keys
    ensures AreDeletes(ops + [Del(key)], keys + {key})
  {
  }

  /** Every value under the job directory encodes the job its key names. */
  ghost predicate MasterWritten(codec: Codec, h: seq<Op>) {
    forall i :: 0 <= i < |h| && h[i].Put? && JOB_SAVE_DIR <= h[i].key ==>
      codec.decode(h[i].value).Some? && h[i].key == JobKey(codec.decode(h[i].value).value.name)
  }

  class MasterJobMgr {
    const codec: Codec
    const store: KvStore

    constructor (codec: Codec, store: KvStore)
      ensures this.codec == codec && this.store == store
    {
      this.codec, this.store := codec, store;
    }

    /** Decode the previous value; one that does not decode is ignored. */
    function OldJob(prev: Option<string>): Option<Job> {
      match prev
      case None => None
      case Some(value) => codec.decode(value)
    }

    /** Key and value are the job's own, whatever the outcome; the previous job is returned; an
        error leaves open whether the job was saved. */
    method SaveJob(job: Job, fault: Fault) returns (oldJob: Option<Job>, failed: bool)
      requires store.Valid()
      modifies store
      ensures store.Valid()
      ensures failed <==> codec.encode(job).None? || fault != Delivered
      ensures store.history == if codec.encode(job).None? || fault == RequestLost then old(store.history)
                               else old(store.history) + [Put(JobKey(job.name), codec.encode(job).value)]
      ensures oldJob == if failed || JobKey(job.name) !in old(store.kv) then None
                        else codec.decode(old(store.kv)[JobKey(job.name)])
      ensures store.history == old(store.history) ==> store.kv == old(store.kv) && store.bound == old(store.bound)
      ensures store.history != old(store.history) ==>
                && store.kv == old(store.kv)[JobKey(job.name) := codec.encode(job).value]
                && store.bound == old(store.bound) - {JobKey(job.name)}
      ensures store.ttl == old(store.ttl) && store.nextLease == old(store.nextLease)
      ensures old(store.JobsStay()) ==> store.JobsStay()
      ensures JsonLaw(codec) && MasterWritten(codec, old(store.history)) ==> MasterWritten(codec, store.history)
    {
      var jobValue := codec.encode(job);
      if jobValue.None? || fault == RequestLost {
        return None, true;
      }
      var prev := store.Put(JobKey(job.name), jobValue.value, None);
      if fault == ReplyLost {
        return None, true;
      }
      return OldJob(prev), false;
    }

    method DeleteJob(jobName: string, fault: Fault) returns (oldJob: Option<Job>, failed: bool)
      requires store.Valid()
      modifies store
      ensures store.Valid()
      ensures failed <==> fault != Delivered
      ensures store.history == if fault == RequestLost || JobKey(jobName) !in old(store.kv) then old(store.history)
                               else old(store.history) + [Del(JobKey(jobName))]
      ensures oldJob == if failed || JobKey(jobName) !in old(store.kv) then None
                        else codec.decode(old(store.kv)[JobKey(jobName)])
      ensures store.kv == if fault == RequestLost then old(store.kv) else old(store.kv) - {JobKey(jobName)}
      ensures store.bound == if fault == RequestLost then old(store.bound) else old(store.bound) - {JobKey(jobName)}
      ensures store.ttl == old(store.ttl) && store.nextLease == old(store.nextLease)
      ensures old(store.JobsStay()) ==> store.JobsStay()
      ensures MasterWritten(codec, old(store.history)) ==> MasterWritten(codec, store.history)
    {
      if fault == RequestLost {
        return None, true;
      }
      var prev := store.Delete(JobKey(jobName));
      if fault == ReplyLost {
        return None, true;
      }
      return OldJob(prev), false;
    }

    /** A mark under the kill directory, on a new lease of one second that may fail to be granted.
        The mark is all that depends on the lease, so nothing else goes when it runs out. */
    method KillJob(jobName: string, granted: bool, fault: Fault) returns (failed: bool)
      requires store.Valid()
      modifies store
      ensures store.Valid()
      ensures failed <==> !granted || fault != Delivered
      ensures store.history == if !granted || fault == RequestLost then old(store.history)
                               else old(store.history) + [Put(KillKey(jobName), "")]
      ensures granted && fault != RequestLost ==>
                && KillKey(jobName) in store.bound
                && var lease := store.bound[KillKey(jobName)];
                   lease == old(store.nextLease) && store.ttl == old(store.ttl)[lease := 1]
                       && store.BoundTo(lease) == {KillKey(jobName)}
      ensures old(store.JobsStay()) ==> store.JobsStay()
      ensures forall key :: key != KillKey(jobName) ==>
                (key in store.kv <==> key in old(store.kv)) && (key in store.kv ==> store.kv[key] == old(store.kv)[key])
      ensures MasterWritten(codec, old(store.history)) ==> MasterWritten(codec, store.history)
    {
      if !granted {
        return true;
      }
      var lease := store.Grant(1);
      if fault == RequestLost {
        return true;
      }
      DirectoriesDisjoint(jobName);
      var _ := store.Put(KillKey(jobName), "", Some(lease));
      assert store.BoundTo(lease) == {KillKey(jobName)};
      return fault == ReplyLost;
    }
  }

  /** A job that was saved stays as it was written, whichever leases run out afterwards, and
      whatever is killed meanwhile: only a later SaveJob or DeleteJob of its name touches it. */
  method SavedJobStays(mgr: MasterJobMgr, job: Job, ended: seq<LeaseId>, killed: seq<string>)
    requires mgr.store.Valid() && mgr.store.JobsStay() && mgr.codec.encode(job).Some?
    modifies mgr.store
    ensures mgr.store.Valid() && mgr.store.JobsStay()
    ensures JobKey(job.name) in mgr.store.kv && mgr.store.kv[JobKey(job.name)] == mgr.codec.encode(job).value
  {
    var store := mgr.store;
    var _, _ := mgr.SaveJob(job, Delivered);
    assert store.history[|store.history| - 1] == Put(JobKey(job.name), mgr.codec.encode(job).value);
    DirectoriesDisjoint(job.name);
    var k := 0;
    while k < |ended| || k < |killed|
      invariant store.Valid() && store.JobsStay()
      invariant JobKey(job.name) in store.kv && store.kv[JobKey(job.name)] == mgr.codec.encode(job).value
      decreases |ended| + |killed| - k
    {
      if k < |killed| {
        assert !(JOB_KILL_DIR <= JobKey(job.name)) && JOB_KILL_DIR <= KillKey(killed[k]);
        var _ := mgr.KillJob(killed[k], true, Delivered);
      }
      if k < |ended| && ended[k] in store.ttl {
        store.Expire(ended[k]);
      }
      k := k + 1;
    }
  }

  // ---------------------------------------------------------------- the worker's watchers

  /** What watchKiller pushes for one watched change: a new mark kills, its expiry does nothing. */
  function KillEvents(op: Op): seq<JobEvent> {
    match op
    case Put(key, _) => [BuildJobEvent(JOB_EVENT_KILL, Job(ExtractKillerName(key), "", ""))]
    case Del(_) => []
  }

  function KillerEvents(ops: seq<Op>): seq<JobEvent> {
    if ops == [] then []
    else
      var last := ops[|ops| - 1];
      KillerEvents(ops[..|ops| - 1]) + if JOB_KILL_DIR <= last.key then KillEvents(last) else []
  }

  function Concat(responses: seq<seq<Op>>): seq<Op> {
    if responses == [] then [] else Concat(responses[..|responses| - 1]) + responses[|responses| - 1]
  }

  lemma ConcatOneMore(responses: seq<seq<Op>>, i: nat)
    requires i < |responses|
    ensures Concat(responses[..i + 1]) == Concat(responses[..i]) + responses[i]
  {
    assert responses[..i + 1][..i] == responses[..i];
  }

  lemma {:induction false} WatchEventsConcat(codec: Codec, a: seq<Op>, b: seq<Op>)
    ensures WatchEvents(codec, a + b) == WatchEvents(codec, a) + WatchEvents(codec, b)
    ensures KillerEvents(a + b) == KillerEvents(a) + KillerEvents(b)
  {
    if b == [] {
      assert a + b == a;
    } else {
      assert (a + b)[..|a + b| - 1] == a + b[..|b| - 1];
      WatchEventsConcat(codec, a, b[..|b| - 1]);
    }
  }

  /** All that watchJobs pushes after a successful Get. */
  function Watched(codec: Codec, kvs: seq<KV>, watchChan: seq<seq<Op>>): seq<JobEvent> {
    SnapshotEvents(codec, kvs) + WatchEvents(codec, Concat(watchChan))
  }

  /** The changes under the job directory. */
  function JobPart(ops: seq<Op>): seq<Op> {
    if ops == [] then []
    else
      var last := ops[|ops| - 1];
      JobPart(ops[..|ops| - 1]) + if JOB_SAVE_DIR <= last.key then [last] else []
  }

  /** The watch from revision r + 1, with prefix, delivers what was changed since r under the job
      directory, in order, in responses of any size. */
  ghost predicate DeliversSince(h: seq<Op>, r: nat, watchChan: seq<seq<Op>>) {
    r <= |h| && Concat(watchChan) == JobPart(h[r..])
  }

  lemma {:induction false} JobPartSuffices(codec: Codec, ops: seq<Op>)
    ensures WatchEvents(codec, JobPart(ops)) == WatchEvents(codec, ops)
  {
    if ops != [] {
      var init, last := ops[..|ops| - 1], ops[|ops| - 1];
      JobPartSuffices(codec, init);
      if JOB_SAVE_DIR <= last.key {
        assert JobPart(ops)[..|JobPart(init)|] == JobPart(init);
      } else {
        assert JobPart(ops) == JobPart(init);
      }
    }
  }

  /** What watchJobs pushes is the feed of the history. */
  lemma WatchedIsFeed(codec: Codec, h: seq<Op>, r: nat, kvs: seq<KV>, watchChan: seq<seq<Op>>)
    requires DeliversSince(h, r, watchChan)
    ensures Watched(codec, kvs, watchChan) == FeedEvents(codec, h, r, kvs)
  {
    JobPartSuffices(codec, h[r..]);
  }

  /** The server's watch filters by prefix. */
  ghost predicate Under(dir: string, responses: seq<seq<Op>>) {
    forall i, k :: 0 <= i < |responses| && 0 <= k < |responses[i]| ==> dir <= responses[i][k].key
  }

  class WorkerJobMgr {
    const codec: Codec

    constructor (codec: Codec)
      ensures this.codec == codec
    {
      this.codec := codec;
    }

    /** Events pushed to the scheduler, in order: one SAVE per decodable pair of the snapshot, then
        one event per later change that is a delete or decodes. If the snapshot fails, nothing is
        pushed and nothing is watched. */
    method WatchJobs(getResp: Option<seq<KV>>, watchChan: seq<seq<Op>>) returns (pushed: seq<JobEvent>)
      requires Under(JOB_SAVE_DIR, watchChan)
      ensures pushed == match getResp
                        case None => []
                        case Some(kvs) => Watched(codec, kvs, watchChan)
      ensures forall h, r: nat :: getResp.Some? && DeliversSince(h, r, watchChan) ==>
          pushed == FeedEvents(codec, h, r, getResp.value)
    {
      if getResp.None? {
        return [];
      }
      pushed := PushSnapshot(getResp.value);
      var changes := FollowWatch(watchChan);
      pushed := pushed + changes;
      forall h, r: nat | DeliversSince(h, r, watchChan) ensures pushed == FeedEvents(codec, h, r, getResp.value) {
        WatchedIsFeed(codec, h, r, getResp.value, watchChan);
      }
    }

    /** The goroutine that ranges over the watch channel. */
    method FollowWatch(watchChan: seq<seq<Op>>) returns (pushed: seq<JobEvent>)
      requires Under(JOB_SAVE_DIR, watchChan)
      ensures pushed == WatchEvents(codec, Concat(watchChan))
    {
      pushed := [];
      for i := 0 to |watchChan|
        invariant pushed == WatchEvents(codec, Concat(watchChan[..i]))
      {
        var more := WatchResponse(watchChan[i]);
        pushed := pushed + more;
        ConcatOneMore(watchChan, i);
        WatchEventsConcat(codec, Concat(watchChan[..i]), watchChan[i]);
      }
      assert watchChan[..|watchChan|] == watchChan;
    }

    method PushSnapshot(kvs: seq<KV>) returns (pushed: seq<JobEvent>)
      ensures pushed == SnapshotEvents(codec, kvs)
    {
      pushed := [];
      for i := 0 to |kvs|
        invariant pushed == SnapshotEvents(codec, kvs[..i])
      {
        assert kvs[..i + 1][..i] == kvs[..i];
        var job := codec.decode(kvs[i].value);
        if job.Some? {
          pushed := pushed + [BuildJobEvent(JOB_EVENT_SAVE, job.value)];
        }
      }
      assert kvs[..|kvs|] == kvs;
    }

    method WatchResponse(events: seq<Op>) returns (pushed: seq<JobEvent>)
      requires forall k :: 0 <= k < |events| ==> JOB_SAVE_DIR <= events[k].key
      ensures pushed == WatchEvents(codec, events)
    {
      pushed := [];
      for k := 0 to |events|
        invariant pushed == WatchEvents(codec, events[..k])
      {
        assert events[..k + 1][..k] == events[..k];
        match events[k]
        case Put(_, value) =>
          var job := codec.decode(value);
          if job.None? {
            continue;
          }
          pushed := pushed + [BuildJobEvent(JOB_EVENT_SAVE, job.value)];
        case Del(key) =>
          pushed := pushed + [BuildJobEvent(JOB_EVENT_DELETE, Job(ExtractJobName(key), "", ""))];
      }
      assert events[..|events|] == events;
    }

    /** One KILL per mark, none for its expiry. */
    method WatchKiller(events: seq<Op>) returns (pushed: seq<JobEvent>)
      requires forall k :: 0 <= k < |events| ==> JOB_KILL_DIR <= events[k].key
      ensures pushed == KillerEvents(events)
    {
      pushed := [];
      for k := 0 to |events|
        invariant pushed == KillerEvents(events[..k])
      {
        assert events[..k + 1][..k] == events[..k];
        if events[k].Put? {
          pushed := pushed + [BuildJobEvent(JOB_EVENT_KILL, Job(ExtractKillerName(events[k].key), "", ""))];
        }
      }
      assert events[..|events|] == events;
    }
  }

  /** KillJob(n) reaches every watcher as exactly one KILL of exactly n; and neither SaveJob nor
      DeleteJob nor the locks make one. The job watcher in turn sees none of the kill marks. */
  lemma KillArrivesOnce(codec: Codec, h: seq<Op>, n: string, value: string)
    ensures KillerEvents(h + [Put(KillKey(n), "")]) == KillerEvents(h) + [JobEvent(JOB_EVENT_KILL, Job(n, "", ""))]
    ensures KillerEvents(h + [Put(KillKey(n), ""), Del(KillKey(n))]) == KillerEvents(h + [Put(KillKey(n), "")])
    ensures KillerEvents(h + [Put(JobKey(n), value)]) == KillerEvents(h + [Del(JobKey(n))]) == KillerEvents(h)
    ensures KillerEvents(h + [Put(LockKey(n), value)]) == KillerEvents(h)
    ensures WatchEvents(codec, h + [Put(KillKey(n), "")]) == WatchEvents(codec, h)
    ensures WatchEvents(codec, h + [Put(LockKey(n), value)]) == WatchEvents(codec, h + [Del(LockKey(n))])
        == WatchEvents(codec, h)
  {
    DirectoriesDisjoint(n);
    JobKeyRoundTrip(n, "");
    forall op: Op ensures (h + [op])[..|h|] == h {}
    var marked := h + [Put(KillKey(n), "")];
    assert h + [Put(KillKey(n), ""), Del(KillKey(n))] == marked + [Del(KillKey(n))];
    assert (marked + [Del(KillKey(n))])[..|marked|] == marked;
  }

  // ---------------------------------------------------------------- marks to contexts

  /** The kills among the events. */
  function Kills(events: seq<JobEvent>): seq<JobEvent> {
    if events == [] then []
    else
      var last := events[|events| - 1];
      Kills(events[..|events| - 1]) + if last.eventType == JOB_EVENT_KILL then [last] else []
  }

  lemma {:induction false} KillsConcat(a: seq<JobEvent>, b: seq<JobEvent>)
    ensures Kills(a + b) == Kills(a) + Kills(b)
  {
    if b == [] {
      assert a + b == a;
    } else {
      assert (a + b)[..|a + b| - 1] == a + b[..|b| - 1];
      KillsConcat(a, b[..|b| - 1]);
    }
  }

  predicate IsMark(op: Op) { op.Put? && JOB_KILL_DIR <= op.key }

  /** A mark makes the kill whose number is that of the marks before it. */
  lemma {:induction false} MarkMakesKill(ops: seq<Op>, m: nat)
    requires m < |ops| && IsMark(ops[m])
    ensures |KillerEvents(ops[..m])| < |KillerEvents(ops)|
    ensures KillerEvents(ops)[|KillerEvents(ops[..m])|]
        == JobEvent(JOB_EVENT_KILL, Job(ExtractKillerName(ops[m].key), "", ""))
  {
    var init := ops[..|ops| - 1];
    if m < |init| {
      MarkMakesKill(init, m);
      assert init[..m] == ops[..m];
    }
  }

  /** Every kill comes from a mark. */
  lemma {:induction false} KillHasMark(ops: seq<Op>, j: nat) returns (m: nat)
    requires j < |KillerEvents(ops)|
    ensures m < |ops| && IsMark(ops[m]) && |KillerEvents(ops[..m])| == j
  {
    var init := ops[..|ops| - 1];
    if j < |KillerEvents(init)| {
      m := KillHasMark(init, j);
      assert init[..m] == ops[..m];
    } else {
      m := |init|;
    }
  }

  /** A KILL in the history is the kill whose number is that of the kills handled before it. */
  lemma {:induction false} KillInHistory(history: seq<WorkerModel.Entry>, k: nat)
    requires k < |history| && history[k].Received? && history[k].ev.eventType == JOB_EVENT_KILL
    ensures var kills := Kills(WorkerModel.Events(history)); var j := |Kills(WorkerModel.Events(history[..k]))|;
            j < |kills| && kills[j] == history[k].ev
  {
    var init, last := history[..|history| - 1], history[|history| - 1];
    if last.Received? {
      KillsConcat(WorkerModel.Events(init), [last.ev]);
      assert [last.ev][..0] == [];
      assert Kills([last.ev]) == if last.ev.eventType == JOB_EVENT_KILL then [last.ev] else [];
      assert WorkerModel.Events(history) == WorkerModel.Events(init) + [last.ev];
    } else {
      assert WorkerModel.Events(history) == WorkerModel.Events(init);
    }
    assert Kills(WorkerModel.Events(init)) <= Kills(WorkerModel.Events(history));
    if k < |init| {
      KillInHistory(init, k);
      assert init[..k] == history[..k];
    } else {
      assert history[..k] == init;
    }
  }

  /** The mark that was put as number m of the history was handled as entry k of the worker's. */
  ghost predicate HandledAs(h: seq<Op>, m: nat, history: seq<WorkerModel.Entry>, k: nat) {
    && m < |h| && IsMark(h[m])
    && k < |history| && history[k].Received? && history[k].ev.eventType == JOB_EVENT_KILL
    && |KillerEvents(h[..m])| == |Kills(WorkerModel.Events(history[..k]))|
  }

  /** From KillJob to the context: in a run whose KILLs are what watchKiller makes of the changes h,
      an execution's context is cancelled if and only if a mark of its name was put whose KILL was
      handled after the execution started and before its result was handled. */
  lemma CancelledIffMarked(c: WorkerModel.Config, clock: Time, steps: seq<WorkerModel.WorkerStep>, h: seq<Op>, i: nat)
    requires LibraryLaw(c.cron) && clock >= 0
    requires Kills(WorkerTheorems.Pushes(c, WorkerModel.Init(clock), steps)) == KillerEvents(h)
    requires i < |WorkerModel.Run(c, WorkerModel.Init(clock), steps).t.started|
    ensures var w := WorkerModel.Run(c, WorkerModel.Init(clock), steps);
            && i < |w.begunAt|
            && (i in w.t.cancelled <==>
                  exists m: nat, k: nat :: HandledAs(h, m, w.history, k) && h[m].key == KillKey(w.t.started[i].job.name)
                    && w.begunAt[i] < k && !WorkerModel.EndedBefore(w.history, k, i))
  {
    var w := WorkerModel.Run(c, WorkerModel.Init(clock), steps);
    var name := w.t.started[i].job.name;
    assert WorkerModel.Reachable(c, w);
    WorkerTheorems.KillsAreExact(c, w, i);
    KillsOfRun(c, clock, steps, h);
    if i in w.t.cancelled {
      var k :| w.begunAt[i] < k < |w.history| && WorkerModel.IsKill(w.history[k], name)
        && !WorkerModel.EndedBefore(w.history, k, i);
      var m := MarkOf(h, w.history, k);
      JobKeyRoundTrip(name, h[m].key);
    }
    forall m: nat, k: nat | HandledAs(h, m, w.history, k) && h[m].key == KillKey(name)
      ensures WorkerModel.IsKill(w.history[k], name)
    {
      KillOf(h, m, w.history, k);
      JobKeyRoundTrip(name, h[m].key);
    }
  }

  /** The kills handled so far are the first of those made. */
  lemma KillsOfRun(c: WorkerModel.Config, clock: Time, steps: seq<WorkerModel.WorkerStep>, h: seq<Op>)
    requires Kills(WorkerTheorems.Pushes(c, WorkerModel.Init(clock), steps)) == KillerEvents(h)
    ensures Kills(WorkerModel.Events(WorkerModel.Run(c, WorkerModel.Init(clock), steps).history)) <= KillerEvents(h)
  {
    var w := WorkerModel.Run(c, WorkerModel.Init(clock), steps);
    WorkerTheorems.EventsHandledInOrder(c, clock, steps);
    KillsConcat(WorkerModel.Events(w.history), w.events);
  }

  lemma KillOf(h: seq<Op>, m: nat, history: seq<WorkerModel.Entry>, k: nat)
    requires HandledAs(h, m, history, k) && Kills(WorkerModel.Events(history)) <= KillerEvents(h)
    ensures history[k].ev == JobEvent(JOB_EVENT_KILL, Job(ExtractKillerName(h[m].key), "", ""))
  {
    MarkMakesKill(h, m);
    KillInHistory(history, k);
  }

  lemma MarkOf(h: seq<Op>, history: seq<WorkerModel.Entry>, k: nat) returns (m: nat)
    requires k < |history| && history[k].Received? && history[k].ev.eventType == JOB_EVENT_KILL
    requires Kills(WorkerModel.Events(history)) <= KillerEvents(h)
    ensures HandledAs(h, m, history, k)
    ensures history[k].ev == JobEvent(JOB_EVENT_KILL, Job(ExtractKillerName(h[m].key), "", ""))
  {
    KillInHistory(history, k);
    m := KillHasMark(h, |Kills(WorkerModel.Events(history[..k]))|);
    KillOf(h, m, history, k);
  }

  // ---------------------------------------------------------------- store to scheduler

  /** The events other than kills. */
  function Changes(events: seq<JobEvent>): seq<JobEvent> {
    if events == [] then []
    else
      var last := events[|events| - 1];
      Changes(events[..|events| - 1]) + if last.eventType == JOB_EVENT_KILL then [] else [last]
  }

  lemma {:induction false} KillsChangeNoJobs(cron: Cron, events: seq<JobEvent>)
    ensures JobsAfter(cron, map[], events) == JobsAfter(cron, map[], Changes(events))
  {
    if events != [] {
      var init, last := events[..|events| - 1], events[|events| - 1];
      KillsChangeNoJobs(cron, init);
      if last.eventType != JOB_EVENT_KILL {
        JobsAfterOneMore(cron, map[], Changes(init), last);
      } else {
        assert Changes(events) == Changes(init);
      }
    }
  }

  lemma MasterHistoryMatches(codec: Codec, h: seq<Op>)
    requires MasterWritten(codec, h)
    ensures NamesMatchKeys(codec, h)
  {
  }

  /** A worker that ran watchJobs: its clock at the start, the steps of its run, the revision and
      the pairs of its snapshot, and what its watch delivered. */
  datatype Session = Session(
    clock: Time, steps: seq<WorkerModel.WorkerStep>, revision: nat, kvs: seq<KV>, watchChan: seq<seq<Op>>)

  ghost function Start(s: Session): WorkerModel.Worker {
    WorkerModel.Init(s.clock)
  }

  /** Its plan table at the end, as jobs. */
  ghost function PlanJobs(c: WorkerModel.Config, s: Session): map<string, Job> {
    Jobs(WorkerModel.Run(c, Start(s), s.steps).t.plans)
  }

  /** Besides kills, exactly what watchJobs makes of the history was pushed, and the scheduler has
      taken every event there was. */
  ghost predicate CaughtUp(c: WorkerModel.Config, codec: Codec, h: seq<Op>, s: Session) {
    && s.clock >= 0 && DeliversSince(h, s.revision, s.watchChan) && IsSnapshot(Store(h[..s.revision]), s.kvs)
    && Changes(WorkerTheorems.Pushes(c, Start(s), s.steps)) == Watched(codec, s.kvs, s.watchChan)
    && WorkerModel.Run(c, Start(s), s.steps).events == []
  }

  /** Its plan table is the table that the feed makes. */
  lemma TableIsFeed(c: WorkerModel.Config, codec: Codec, h: seq<Op>, s: Session)
    requires LibraryLaw(c.cron) && CaughtUp(c, codec, h, s)
    ensures PlanJobs(c, s) == JobsAfter(c.cron, map[], FeedEvents(codec, h, s.revision, s.kvs))
  {
    var w := WorkerModel.Run(c, Start(s), s.steps);
    WorkerTheorems.EventsHandledInOrder(c, s.clock, s.steps);
    assert WorkerModel.Events(w.history) + [] == WorkerModel.Events(w.history);
    WatchedIsFeed(codec, h, s.revision, s.kvs, s.watchChan);
    assert WorkerModel.Reachable(c, w);
    WorkerModel.ReachableOk(c, w);
    KillsChangeNoJobs(c.cron, WorkerModel.Events(w.history));
  }

  /** From SaveJob and DeleteJob all the way to the plan table. Whatever schedules a worker runs
      under, and whatever is started, finished or killed meanwhile: when its scheduler has taken
      all that watchJobs pushed for a master-written history, its plan table and the store agree
      on every name that is not stale, and only on those. */
  lemma PlanTableMatchesStore(c: WorkerModel.Config, codec: Codec, h: seq<Op>, s: Session, n: string)
    requires LibraryLaw(c.cron) && MasterWritten(codec, h) && CaughtUp(c, codec, h, s)
    ensures Lookup(PlanJobs(c, s), n) == InStore(codec, c.cron, Store(h), n)
            <==> !Stale(codec, c.cron, h, s.revision, n)
  {
    MasterHistoryMatches(codec, h);
    TableIsFeed(c, codec, h, s);
    FeedExact(codec, c.cron, h, s.revision, s.kvs, n);
  }

  /** When the plan tables of two workers agree on a name, exactly, whatever values were written,
      whenever they started and however they were scheduled: if the name is stale for both or for
      neither. */
  lemma PlanTablesAgreeExactly(c: WorkerModel.Config, codec: Codec, h: seq<Op>, s1: Session, s2: Session, n: string)
    requires LibraryLaw(c.cron) && MasterWritten(codec, h) && CaughtUp(c, codec, h, s1) && CaughtUp(c, codec, h, s2)
    ensures Lookup(PlanJobs(c, s1), n) == Lookup(PlanJobs(c, s2), n)
            <==> (Stale(codec, c.cron, h, s1.revision, n) <==> Stale(codec, c.cron, h, s2.revision, n))
  {
    MasterHistoryMatches(codec, h);
    TableIsFeed(c, codec, h, s1);
    TableIsFeed(c, codec, h, s2);
    WorkersAgreeExactly(codec, c.cron, h, s1.revision, s1.kvs, s2.revision, s2.kvs, n);
  }

  /** If every value decodes and parses, they hold exactly the jobs in the store. */
  lemma PlanTablesAgree(c: WorkerModel.Config, codec: Codec, h: seq<Op>, s1: Session, s2: Session)
    requires LibraryLaw(c.cron) && MasterWritten(codec, h) && AllGood(codec, c.cron, h)
    requires CaughtUp(c, codec, h, s1) && CaughtUp(c, codec, h, s2)
    ensures PlanJobs(c, s1) == PlanJobs(c, s2)
    ensures forall n :: Lookup(PlanJobs(c, s1), n) == InStore(codec, c.cron, Store(h), n)
  {
    forall n ensures Lookup(PlanJobs(c, s1), n) == InStore(codec, c.cron, Store(h), n) == Lookup(PlanJobs(c, s2), n) {
      GoodNamesAreFresh(codec, c.cron, h, n);
      PlanTableMatchesStore(c, codec, h, s1, n);
      PlanTableMatchesStore(c, codec, h, s2, n);
    }
    SameLookups(PlanJobs(c, s1), PlanJobs(c, s2));
  }

  lemma GoodNamesAreFresh(codec: Codec, cron: Cron, h: seq<Op>, n: string)
    requires AllGood(codec, cron, h)
    ensures forall r :: !Stale(codec, cron, h, r, n)
  {
    GoodHistoryGoodStore(codec, cron, h);
    assert JOB_SAVE_DIR <= JobKey(n);
  }
}
