/**
  How the job table of a worker follows the store: a snapshot at some revision, then every later
  change, both turned into scheduler events with bad values skipped in silence.

  A revision is one effective change of the key-value store; a history lists them in order.
*/
module Feed {
  import opened Wrappers
  import opened Protocol
  import opened SchedulerTables

  /** encoding/json for jobs; either direction may fail. */
  datatype Codec = Codec(encode: Job -> Option<string>, decode: string -> Option<Job>)

  /** What was encoded decodes to the same job. */
  ghost predicate JsonLaw(codec: Codec) {
    forall j :: codec.encode(j).Some? ==> codec.decode(codec.encode(j).value) == Some(j)
  }

  datatype Op = Put(key: string, value: string) | Del(key: string)
  datatype KV = KV(key: string, value: string)

  function Apply(store: map<string, string>, op: Op): map<string, string> {
    match op
    case Put(key, value) => store[key := value]
    case Del(key) => store - {key}
  }

  function Store(h: seq<Op>): map<string, string> {
    if h == [] then map[] else Apply(Store(h[..|h| - 1]), h[|h| - 1])
  }

  /** The key-value pairs under the job directory, in any order. */
  ghost predicate IsSnapshot(store: map<string, string>, kvs: seq<KV>) {
    && (forall i, j :: 0 <= i < j < |kvs| ==> kvs[i].key != kvs[j].key)
    && (forall kv :: kv in kvs <==> kv.key in store && JOB_SAVE_DIR <= kv.key && store[kv.key] == kv.value)
  }

  // ---------------------------------------------------------------- events

  function SaveEvents(codec: Codec, value: string): seq<JobEvent> {
    match codec.decode(value)
    case None => []
    case Some(job) => [BuildJobEvent(JOB_EVENT_SAVE, job)]
  }

  /** What watchJobs pushes for one watched change. */
  function ChangeEvents(codec: Codec, op: Op): seq<JobEvent> {
    match op
    case Put(_, value) => SaveEvents(codec, value)
    case Del(key) => [BuildJobEvent(JOB_EVENT_DELETE, Job(ExtractJobName(key), "", ""))]
  }

  function SnapshotEvents(codec: Codec, kvs: seq<KV>): seq<JobEvent> {
    if kvs == [] then []
    else SnapshotEvents(codec, kvs[..|kvs| - 1]) + SaveEvents(codec, kvs[|kvs| - 1].value)
  }

  /** The watch delivers the changes under the job directory only. */
  function WatchEvents(codec: Codec, ops: seq<Op>): seq<JobEvent> {
    if ops == [] then []
    else
      var last := ops[|ops| - 1];
      WatchEvents(codec, ops[..|ops| - 1]) + if JOB_SAVE_DIR <= last.key then ChangeEvents(codec, last) else []
  }

  /** All events pushed by a worker that took its snapshot at revision r. */
  function FeedEvents(codec: Codec, h: seq<Op>, r: nat, kvs: seq<KV>): seq<JobEvent>
    requires r <= |h|
  {
    SnapshotEvents(codec, kvs) + WatchEvents(codec, h[r..])
  }

  // ---------------------------------------------------------------- the two views

  /** A value counts only if it decodes and its cron expression parses. */
  function Good(codec: Codec, cron: Cron, value: string): Option<Job> {
    match codec.decode(value)
    case None => None
    case Some(job) => if cron.parses(job.cronExpr) then Some(job) else None
  }

  /** The job a name has in the store, if its value is good. */
  function InStore(codec: Codec, cron: Cron, store: map<string, string>, n: string): Option<Job> {
    if JobKey(n) in store then Good(codec, cron, store[JobKey(n)]) else None
  }

  function Lookup(jobs: map<string, Job>, n: string): Option<Job> {
    if n in jobs then Some(jobs[n]) else None
  }

  /** Values that decode at all carry the name of their key. */
  ghost predicate NamesMatchKeys(codec: Codec, h: seq<Op>) {
    forall i :: 0 <= i < |h| && h[i].Put? && JOB_SAVE_DIR <= h[i].key && codec.decode(h[i].value).Some? ==>
      h[i].key == JobKey(codec.decode(h[i].value).value.name)
  }

  ghost predicate StoreNamesMatch(codec: Codec, store: map<string, string>) {
    forall key :: key in store && JOB_SAVE_DIR <= key && codec.decode(store[key]).Some? ==>
      key == JobKey(codec.decode(store[key]).value.name)
  }

  lemma {:induction false} HistoryNamesStore(codec: Codec, h: seq<Op>)
    requires NamesMatchKeys(codec, h)
    ensures StoreNamesMatch(codec, Store(h))
  {
    if h != [] {
      assert forall i :: 0 <= i < |h| - 1 ==> h[..|h| - 1][i] == h[i];
      HistoryNamesStore(codec, h[..|h| - 1]);
    }
  }

  /** What the worker holds for a name, from the changes alone: the good value visible in the
      snapshot or since, unless deleted; a bad value leaves the previous one in place. */
  function Visible(codec: Codec, cron: Cron, h: seq<Op>, r: nat, n: string): Option<Job>
    requires r <= |h|
    decreases |h|
  {
    if |h| == r then InStore(codec, cron, Store(h), n)
    else
      var last := h[|h| - 1];
      var before := Visible(codec, cron, h[..|h| - 1], r, n);
      if last.key != JobKey(n) then before
      else match last
        case Put(_, value) => if Good(codec, cron, value).Some? then Good(codec, cron, value) else before
        case Del(_) => None
  }

  // ---------------------------------------------------------------- the feed computes Visible

  lemma SaveEventsEffect(codec: Codec, cron: Cron, jobs: map<string, Job>, value: string, n: string)
    ensures var after := JobsAfter(cron, jobs, SaveEvents(codec, value)); var good := Good(codec, cron, value);
            Lookup(after, n) == if good.Some? && good.value.name == n then good else Lookup(jobs, n)
  {
    if codec.decode(value).Some? {
      JobsAfterOneMore(cron, jobs, [], BuildJobEvent(JOB_EVENT_SAVE, codec.decode(value).value));
      assert [] + SaveEvents(codec, value) == SaveEvents(codec, value);
    }
  }

  ghost predicate PairsMatch(codec: Codec, kvs: seq<KV>) {
    forall i :: 0 <= i < |kvs| && codec.decode(kvs[i].value).Some? ==>
      kvs[i].key == JobKey(codec.decode(kvs[i].value).value.name)
  }

  /** The last good value listed for a name. */
  function Listed(codec: Codec, cron: Cron, kvs: seq<KV>, n: string): Option<Job> {
    if kvs == [] then None
    else
      var last := kvs[|kvs| - 1];
      if last.key == JobKey(n) && Good(codec, cron, last.value).Some? then Good(codec, cron, last.value)
      else Listed(codec, cron, kvs[..|kvs| - 1], n)
  }

  lemma {:induction false} SnapshotGivesListed(codec: Codec, cron: Cron, kvs: seq<KV>, n: string)
    requires PairsMatch(codec, kvs)
    ensures Lookup(JobsAfter(cron, map[], SnapshotEvents(codec, kvs)), n) == Listed(codec, cron, kvs, n)
  {
    if kvs != [] {
      var init, last := kvs[..|kvs| - 1], kvs[|kvs| - 1];
      SnapshotGivesListed(codec, cron, init, n);
      JobsAfterConcat(cron, map[], SnapshotEvents(codec, init), SaveEvents(codec, last.value));
      SaveEventsEffect(codec, cron, JobsAfter(cron, map[], SnapshotEvents(codec, init)), last.value, n);
      if Good(codec, cron, last.value).Some? {
        KeysInjective(Good(codec, cron, last.value).value.name, n);
      }
    }
  }

  lemma {:induction false} ListedOnce(codec: Codec, cron: Cron, kvs: seq<KV>, n: string)
    requires forall i, j :: 0 <= i < j < |kvs| ==> kvs[i].key != kvs[j].key
    ensures forall i :: 0 <= i < |kvs| && kvs[i].key == JobKey(n) ==>
        Listed(codec, cron, kvs, n) == Good(codec, cron, kvs[i].value)
    ensures (forall i :: 0 <= i < |kvs| ==> kvs[i].key != JobKey(n)) ==> Listed(codec, cron, kvs, n) == None
  {
    if kvs != [] {
      ListedOnce(codec, cron, kvs[..|kvs| - 1], n);
    }
  }

  lemma SnapshotMatchesStore(codec: Codec, cron: Cron, store: map<string, string>, kvs: seq<KV>, n: string)
    requires IsSnapshot(store, kvs) && StoreNamesMatch(codec, store)
    ensures Lookup(JobsAfter(cron, map[], SnapshotEvents(codec, kvs)), n) == InStore(codec, cron, store, n)
  {
    forall i | 0 <= i < |kvs|
      ensures kvs[i] in kvs && kvs[i].key in store && store[kvs[i].key] == kvs[i].value && JOB_SAVE_DIR <= kvs[i].key {}
    SnapshotGivesListed(codec, cron, kvs, n);
    ListedOnce(codec, cron, kvs, n);
    if JobKey(n) in store {
      var kv := KV(JobKey(n), store[JobKey(n)]);
      assert JOB_SAVE_DIR <= kv.key;
      assert kv in kvs;
    }
  }

  lemma ChangeEffect(codec: Codec, cron: Cron, jobs: map<string, Job>, op: Op, n: string)
    requires JOB_SAVE_DIR <= op.key
    requires op.Put? && codec.decode(op.value).Some? ==> op.key == JobKey(codec.decode(op.value).value.name)
    ensures Lookup(JobsAfter(cron, jobs, ChangeEvents(codec, op)), n) ==
            if op.key != JobKey(n) then Lookup(jobs, n)
            else match op
              case Put(_, value) => if Good(codec, cron, value).Some? then Good(codec, cron, value) else Lookup(jobs, n)
              case Del(_) => None
  {
    match op
    case Put(_, value) =>
      SaveEventsEffect(codec, cron, jobs, value, n);
      if codec.decode(value).Some? {
        KeysInjective(codec.decode(value).value.name, n);
      }
    case Del(key) =>
      var ev := BuildJobEvent(JOB_EVENT_DELETE, Job(ExtractJobName(key), "", ""));
      JobKeyRoundTrip(n, key);
      JobsAfterOneMore(cron, jobs, [], ev);
      assert [] + [ev] == [ev];
  }

  lemma FeedOneMore(codec: Codec, h: seq<Op>, r: nat, kvs: seq<KV>)
    requires r < |h|
    ensures var last := h[|h| - 1];
            FeedEvents(codec, h, r, kvs) == FeedEvents(codec, h[..|h| - 1], r, kvs)
              + if JOB_SAVE_DIR <= last.key then ChangeEvents(codec, last) else []
  {
    assert h[r..][..|h[r..]| - 1] == h[..|h| - 1][r..];
  }

  /** The table a worker builds from its feed is Visible, name by name. */
  lemma {:induction false} FeedGivesVisible(codec: Codec, cron: Cron, h: seq<Op>, r: nat, kvs: seq<KV>, n: string)
    requires NamesMatchKeys(codec, h) && r <= |h| && IsSnapshot(Store(h[..r]), kvs)
    ensures Lookup(JobsAfter(cron, map[], FeedEvents(codec, h, r, kvs)), n) == Visible(codec, cron, h, r, n)
    decreases |h|
  {
    if |h| == r {
      assert h[..r] == h && h[r..] == [];
      HistoryNamesStore(codec, h);
      SnapshotMatchesStore(codec, cron, Store(h), kvs, n);
      assert FeedEvents(codec, h, r, kvs) == SnapshotEvents(codec, kvs);
    } else {
      var init, last := h[..|h| - 1], h[|h| - 1];
      assert init[..r] == h[..r];
      FeedGivesVisible(codec, cron, init, r, kvs, n);
      FeedOneMore(codec, h, r, kvs);
      var sofar := FeedEvents(codec, init, r, kvs);
      if JOB_SAVE_DIR <= last.key {
        JobsAfterConcat(cron, map[], sofar, ChangeEvents(codec, last));
        ChangeEffect(codec, cron, JobsAfter(cron, map[], sofar), last, n);
      } else {
        assert FeedEvents(codec, h, r, kvs) == sofar;
        assert JOB_SAVE_DIR <= JobKey(n);
      }
    }
  }

  // ---------------------------------------------------------------- Visible against the store

  /** The name is in the store at revision k and after every change since. */
  ghost predicate Stays(h: seq<Op>, k: nat, n: string) {
    && k <= |h| && JobKey(n) in Store(h)
    && (k == |h| || Stays(h[..|h| - 1], k, n))
  }

  /** The name had a good value at revision k, and has been in the store ever since. */
  ghost predicate GoodSince(codec: Codec, cron: Cron, h: seq<Op>, k: nat, n: string) {
    Stays(h, k, n) && InStore(codec, cron, Store(h[..k]), n).Some?
  }

  /** The stored value of n does not decode or parse, and the worker has seen a good one since
      its snapshot, or in it, that was not deleted. */
  ghost predicate Stale(codec: Codec, cron: Cron, h: seq<Op>, r: nat, n: string) {
    && JobKey(n) in Store(h) && Good(codec, cron, Store(h)[JobKey(n)]).None?
    && exists k: nat :: r <= k && GoodSince(codec, cron, h, k, n)
  }

  lemma GoodSinceExtends(codec: Codec, cron: Cron, h: seq<Op>, k: nat, n: string)
    requires k < |h|
    ensures GoodSince(codec, cron, h, k, n) <==>
            GoodSince(codec, cron, h[..|h| - 1], k, n) && JobKey(n) in Store(h)
  {
    assert h[..|h| - 1][..k] == h[..k];
  }

  lemma {:induction false} VisibleMeansGoodSince(codec: Codec, cron: Cron, h: seq<Op>, r: nat, n: string)
    requires r <= |h|
    ensures Visible(codec, cron, h, r, n).Some? <==> exists k: nat :: r <= k && GoodSince(codec, cron, h, k, n)
    ensures InStore(codec, cron, Store(h), n).Some? ==>
        Visible(codec, cron, h, r, n) == InStore(codec, cron, Store(h), n)
    ensures JobKey(n) !in Store(h) ==> Visible(codec, cron, h, r, n) == None
    decreases |h|
  {
    assert h[..|h|] == h;
    if InStore(codec, cron, Store(h), n).Some? {
      assert GoodSince(codec, cron, h, |h|, n);
    }
    if |h| > r {
      var init := h[..|h| - 1];
      VisibleMeansGoodSince(codec, cron, init, r, n);
      forall k: nat | r <= k < |h| ensures GoodSince(codec, cron, h, k, n) <==>
                                          GoodSince(codec, cron, init, k, n) && JobKey(n) in Store(h) {
        GoodSinceExtends(codec, cron, h, k, n);
      }
      assert forall k: nat :: GoodSince(codec, cron, init, k, n) ==> k < |h|;
    }
  }

  /** The exact statement. After a snapshot at any revision r, in any order, and all changes
      since, the worker's table agrees with the store on a name if and only if that name is not
      stale. Values that do not decode or parse are the only way to disagree. */
  lemma FeedExact(codec: Codec, cron: Cron, h: seq<Op>, r: nat, kvs: seq<KV>, n: string)
    requires NamesMatchKeys(codec, h) && r <= |h| && IsSnapshot(Store(h[..r]), kvs)
    ensures Lookup(JobsAfter(cron, map[], FeedEvents(codec, h, r, kvs)), n) == InStore(codec, cron, Store(h), n)
            <==> !Stale(codec, cron, h, r, n)
  {
    FeedGivesVisible(codec, cron, h, r, kvs, n);
    VisibleMeansGoodSince(codec, cron, h, r, n);
  }

  ghost predicate AllGood(codec: Codec, cron: Cron, h: seq<Op>) {
    forall i :: 0 <= i < |h| && h[i].Put? && JOB_SAVE_DIR <= h[i].key ==> Good(codec, cron, h[i].value).Some?
  }

  lemma {:induction false} GoodHistoryGoodStore(codec: Codec, cron: Cron, h: seq<Op>)
    requires AllGood(codec, cron, h)
    ensures forall key :: key in Store(h) && JOB_SAVE_DIR <= key ==> Good(codec, cron, Store(h)[key]).Some?
  {
    if h != [] {
      assert forall i :: 0 <= i < |h| - 1 ==> h[..|h| - 1][i] == h[i];
      GoodHistoryGoodStore(codec, cron, h[..|h| - 1]);
    }
  }

  lemma SameLookups(a: map<string, Job>, b: map<string, Job>)
    requires forall n :: Lookup(a, n) == Lookup(b, n)
    ensures a == b
  {
    forall n ensures n in a <==> n in b {
      assert Lookup(a, n) == Lookup(b, n);
    }
    forall n | n in a ensures a[n] == b[n] {
      assert Lookup(a, n) == Lookup(b, n);
    }
  }

  /** If every value decodes and parses, workers that started at different revisions hold the
      same table: exactly the jobs in the store. */
  lemma WorkersAgree(codec: Codec, cron: Cron, h: seq<Op>, r1: nat, kvs1: seq<KV>, r2: nat, kvs2: seq<KV>)
    requires NamesMatchKeys(codec, h) && AllGood(codec, cron, h)
    requires r1 <= |h| && IsSnapshot(Store(h[..r1]), kvs1) && r2 <= |h| && IsSnapshot(Store(h[..r2]), kvs2)
    ensures JobsAfter(cron, map[], FeedEvents(codec, h, r1, kvs1))
        == JobsAfter(cron, map[], FeedEvents(codec, h, r2, kvs2))
    ensures forall n :: Lookup(JobsAfter(cron, map[], FeedEvents(codec, h, r1, kvs1)), n) ==
              if JobKey(n) in Store(h) then codec.decode(Store(h)[JobKey(n)]) else None
  {
    GoodHistoryGoodStore(codec, cron, h);
    var a, b := JobsAfter(cron, map[], FeedEvents(codec, h, r1, kvs1)),
        JobsAfter(cron, map[], FeedEvents(codec, h, r2, kvs2));
    forall n
      ensures Lookup(a, n) == Lookup(b, n) == if JobKey(n) in Store(h) then codec.decode(Store(h)[JobKey(n)]) else None
    {
      assert JOB_SAVE_DIR <= JobKey(n);
      FeedExact(codec, cron, h, r1, kvs1, n);
      FeedExact(codec, cron, h, r2, kvs2, n);
    }
    SameLookups(a, b);
  }

  /** Two workers that both see a job under a name see the same one. */
  lemma {:induction false} VisibleJobsEqual(codec: Codec, cron: Cron, h: seq<Op>, r1: nat, r2: nat, n: string)
    requires r1 <= r2 <= |h|
    requires Visible(codec, cron, h, r1, n).Some? && Visible(codec, cron, h, r2, n).Some?
    ensures Visible(codec, cron, h, r1, n) == Visible(codec, cron, h, r2, n)
    decreases |h|
  {
    if |h| == r2 {
      VisibleMeansGoodSince(codec, cron, h, r1, n);
    } else {
      var init, last := h[..|h| - 1], h[|h| - 1];
      if last.key != JobKey(n) || (last.Put? && Good(codec, cron, last.value).None?) {
        VisibleJobsEqual(codec, cron, init, r1, r2, n);
      }
    }
  }

  /** When workers agree, exactly: after snapshots at any two revisions and all changes since, two
      workers hold the same under a name if and only if the name is stale for both or for neither. */
  lemma WorkersAgreeExactly(codec: Codec, cron: Cron, h: seq<Op>, r1: nat, kvs1: seq<KV>, r2: nat, kvs2: seq<KV>,
                            n: string)
    requires NamesMatchKeys(codec, h)
    requires r1 <= |h| && IsSnapshot(Store(h[..r1]), kvs1) && r2 <= |h| && IsSnapshot(Store(h[..r2]), kvs2)
    ensures Lookup(JobsAfter(cron, map[], FeedEvents(codec, h, r1, kvs1)), n)
              == Lookup(JobsAfter(cron, map[], FeedEvents(codec, h, r2, kvs2)), n)
            <==> (Stale(codec, cron, h, r1, n) <==> Stale(codec, cron, h, r2, n))
  {
    FeedGivesVisible(codec, cron, h, r1, kvs1, n);
    FeedGivesVisible(codec, cron, h, r2, kvs2, n);
    VisibleMeansGoodSince(codec, cron, h, r1, n);
    VisibleMeansGoodSince(codec, cron, h, r2, n);
    if Visible(codec, cron, h, r1, n).Some? && Visible(codec, cron, h, r2, n).Some? {
      if r1 <= r2 {
        VisibleJobsEqual(codec, cron, h, r1, r2, n);
      } else {
        VisibleJobsEqual(codec, cron, h, r2, r1, n);
      }
    }
  }

  /** They need not agree: overwrite a good value with a bad one, and a worker that started in
      between keeps running the old job, which one that starts later never sees. */
  lemma BadOverwriteSplitsWorkers(codec: Codec, cron: Cron, j: Job, good: string, bad: string)
    requires codec.decode(good) == Some(j) && cron.parses(j.cronExpr)
    requires Good(codec, cron, bad).None? && NamesMatchKeys(codec, [Put(JobKey(j.name), bad)])
    ensures var h := [Put(JobKey(j.name), good), Put(JobKey(j.name), bad)];
            && Stale(codec, cron, h, 1, j.name) && !Stale(codec, cron, h, 2, j.name)
            && Lookup(JobsAfter(cron, map[], FeedEvents(codec, h, 1, [KV(JobKey(j.name), good)])), j.name) == Some(j)
            && Lookup(JobsAfter(cron, map[], FeedEvents(codec, h, 2, [KV(JobKey(j.name), bad)])), j.name) == None
  {
    var key := JobKey(j.name);
    var p1, p2 := Put(key, good), Put(key, bad);
    var h := [p1, p2];
    assert [p2][0] == p2;
    assert h[..2] == h && h[..1] == [p1] && [p1][..0] == [];
    assert Store([p1]) == map[key := good];
    assert Store(h) == Apply(Store(h[..1]), p2) == map[key := good][key := bad];
    assert map[key := good][key := bad] == map[key := bad];
    assert NamesMatchKeys(codec, h);
    SingletonSnapshot(key, good);
    SingletonSnapshot(key, bad);
    FeedGivesVisible(codec, cron, h, 1, [KV(key, good)], j.name);
    FeedGivesVisible(codec, cron, h, 2, [KV(key, bad)], j.name);
    FeedExact(codec, cron, h, 1, [KV(key, good)], j.name);
    FeedExact(codec, cron, h, 2, [KV(key, bad)], j.name);
  }

  lemma SingletonSnapshot(key: string, value: string)
    requires JOB_SAVE_DIR <= key
    ensures IsSnapshot(map[key := value], [KV(key, value)])
  {
  }
}
