/** Analysis jobs and the in-memory job store: job records, their dictionary
    form, attribute updates, capacity eviction and listing. The store keeps the
    dictionary's insertion order next to its contents. Each store method is one
    atomic step. */
module Jobs {
  import opened Common
  import Sorting
  import Config
  import Imagery

  datatype Status = Pending | Running | Completed | Failed | Cancelled

  function StatusValue(s: Status): string {
    match s
    case Pending => "pending"
    case Running => "running"
    case Completed => "completed"
    case Failed => "failed"
    case Cancelled => "cancelled"
  }

  function ParseStatus(v: string): (r: Option<Status>)
    ensures r.Some? ==> StatusValue(r.value) == v
  {
    if v == "pending" then Some(Pending)
    else if v == "running" then Some(Running)
    else if v == "completed" then Some(Completed)
    else if v == "failed" then Some(Failed)
    else if v == "cancelled" then Some(Cancelled)
    else None
  }

  /** Every status is recovered from its value, so distinct statuses have distinct values. */
  lemma {:induction false} StatusRoundTrip(s: Status)
    ensures ParseStatus(StatusValue(s)) == Some(s)
  {
    match s
    case Pending =>
    case Running => assert "running"[0] != "pending"[0];
    case Completed => assert "completed"[0] != "pending"[0] && "completed"[0] != "running"[0];
    case Failed => assert "failed"[0] != "pending"[0] && "failed"[0] != "running"[0] && "failed"[0] != "completed"[0];
    case Cancelled =>
      assert "cancelled"[0] != "pending"[0] && "cancelled"[0] != "running"[0] && "cancelled"[0] != "failed"[0];
      assert "cancelled"[1] != "completed"[1];
  }

  /** What `generate_change_statistics` returns for one change image: a handle on a remote computation. */
  datatype Stats = Stats(change: Imagery.Image, aoi: Imagery.Aoi, scale: int)

  /** The values stored in a job's results dictionary. */
  datatype ResultValue =
    | Statistics(entries: map<string, Stats>)
    | NoneValue
    | Centroid(lon: real, lat: real)
    | AreaHectares(area: real)

  /** `AnalysisJob`; times are clock readings. The configuration is a reference to the caller's object. */
  datatype Job = Job(jobId: string, status: Status, config: Config.VegChangeConfig, createdAt: int,
                     startedAt: Option<int>, completedAt: Option<int>, progress: real, currentStep: string,
                     results: Option<map<string, ResultValue>>, error: Option<string>)

  /** A job as `create` makes it: pending, with every optional field unset. */
  function NewJob(jobId: string, config: Config.VegChangeConfig, now: int): Job {
    Job(jobId, Pending, config, now, None, None, 0.0, "", None, None)
  }

  /** `AnalysisJob.to_dict`; times stay clock readings rather than ISO text. */
  datatype JobDict = JobDict(jobId: string, status: string, progress: real, currentStep: string, createdAt: int,
                             startedAt: Option<int>, completedAt: Option<int>, error: Option<string>, hasResults: bool)

  function ToDict(j: Job): (d: JobDict)
    ensures ParseStatus(d.status) == Some(j.status)
    ensures d.hasResults <==> j.results.Some?
    ensures d.jobId == j.jobId && d.progress == j.progress && d.error == j.error
  {
    StatusRoundTrip(j.status);
    JobDict(j.jobId, StatusValue(j.status), j.progress, j.currentStep, j.createdAt, j.startedAt, j.completedAt,
            j.error, j.results.Some?)
  }

  /** A fresh job's dictionary: pending, no progress, no times but creation, no error, no results. */
  lemma NewJobDict(jobId: string, config: Config.VegChangeConfig, now: int)
    ensures ToDict(NewJob(jobId, config, now)) == JobDict(jobId, "pending", 0.0, "", now, None, None, None, false)
  {
  }

  // ---------------------------------------------------------------------------
  // Attribute updates (`update(job_id, **kwargs)`)
  // ---------------------------------------------------------------------------

  /** One keyword argument of `update`: an attribute of the job and its new value, or a name the job lacks. */
  datatype FieldUpdate =
    | SetJobId(jobId: string)
    | SetStatus(status: Status)
    | SetConfig(config: Config.VegChangeConfig)
    | SetCreatedAt(createdAt: int)
    | SetStartedAt(startedAt: Option<int>)
    | SetCompletedAt(completedAt: Option<int>)
    | SetProgress(progress: real)
    | SetCurrentStep(currentStep: string)
    | SetResults(results: Option<map<string, ResultValue>>)
    | SetError(error: Option<string>)
    | SetUnknown(name: string)

  /** `if hasattr(job, key): setattr(job, key, value)` */
  function Apply(j: Job, u: FieldUpdate): Job {
    match u
    case SetJobId(v) => j.(jobId := v)
    case SetStatus(v) => j.(status := v)
    case SetConfig(v) => j.(config := v)
    case SetCreatedAt(v) => j.(createdAt := v)
    case SetStartedAt(v) => j.(startedAt := v)
    case SetCompletedAt(v) => j.(completedAt := v)
    case SetProgress(v) => j.(progress := v)
    case SetCurrentStep(v) => j.(currentStep := v)
    case SetResults(v) => j.(results := v)
    case SetError(v) => j.(error := v)
    case SetUnknown(_) => j
  }

  /** The keyword arguments applied in order. */
  function ApplyAll(j: Job, us: seq<FieldUpdate>): Job
    decreases |us|
  {
    if us == [] then j else Apply(ApplyAll(j, us[..|us| - 1]), us[|us| - 1])
  }

  /** Applying two argument lists one after the other is applying their concatenation. */
  lemma {:induction false} ApplyAllAppend(j: Job, us: seq<FieldUpdate>, vs: seq<FieldUpdate>)
    ensures ApplyAll(j, us + vs) == ApplyAll(ApplyAll(j, us), vs)
    decreases |vs|
  {
    if vs == [] {
      assert us + vs == us;
    } else {
      assert (us + vs)[..|us + vs| - 1] == us + vs[..|vs| - 1];
      assert (us + vs)[|us + vs| - 1] == vs[|vs| - 1];
      ApplyAllAppend(j, us, vs[..|vs| - 1]);
      calc {
        ApplyAll(j, us + vs);
        Apply(ApplyAll(j, us + vs[..|vs| - 1]), vs[|vs| - 1]);
        Apply(ApplyAll(ApplyAll(j, us), vs[..|vs| - 1]), vs[|vs| - 1]);
        ApplyAll(ApplyAll(j, us), vs);
      }
    }
  }

  /** An attribute no argument names keeps its value: only the named attributes change
      (identity, status and configuration). */
  lemma {:induction false} UnnamedFieldsKept(j: Job, us: seq<FieldUpdate>)
    ensures (forall i :: 0 <= i < |us| ==> !us[i].SetJobId?) ==> ApplyAll(j, us).jobId == j.jobId
    ensures (forall i :: 0 <= i < |us| ==> !us[i].SetStatus?) ==> ApplyAll(j, us).status == j.status
    ensures (forall i :: 0 <= i < |us| ==> !us[i].SetConfig?) ==> ApplyAll(j, us).config == j.config
    decreases |us|
  {
    if us != [] {
      var prefix := us[..|us| - 1];
      assert forall i :: 0 <= i < |prefix| ==> prefix[i] == us[i];
      UnnamedFieldsKept(j, prefix);
    }
  }

  /** An attribute no argument names keeps its value (the three times). */
  lemma {:induction false} UnnamedTimesKept(j: Job, us: seq<FieldUpdate>)
    ensures (forall i :: 0 <= i < |us| ==> !us[i].SetCreatedAt?) ==> ApplyAll(j, us).createdAt == j.createdAt
    ensures (forall i :: 0 <= i < |us| ==> !us[i].SetStartedAt?) ==> ApplyAll(j, us).startedAt == j.startedAt
    ensures (forall i :: 0 <= i < |us| ==> !us[i].SetCompletedAt?) ==> ApplyAll(j, us).completedAt == j.completedAt
    decreases |us|
  {
    if us != [] {
      var prefix := us[..|us| - 1];
      assert forall i :: 0 <= i < |prefix| ==> prefix[i] == us[i];
      UnnamedTimesKept(j, prefix);
    }
  }

  /** An attribute no argument names keeps its value (progress, step, results and error). */
  lemma {:induction false} UnnamedOutcomeKept(j: Job, us: seq<FieldUpdate>)
    ensures (forall i :: 0 <= i < |us| ==> !us[i].SetProgress?) ==> ApplyAll(j, us).progress == j.progress
    ensures (forall i :: 0 <= i < |us| ==> !us[i].SetCurrentStep?) ==> ApplyAll(j, us).currentStep == j.currentStep
    ensures (forall i :: 0 <= i < |us| ==> !us[i].SetResults?) ==> ApplyAll(j, us).results == j.results
    ensures (forall i :: 0 <= i < |us| ==> !us[i].SetError?) ==> ApplyAll(j, us).error == j.error
    decreases |us|
  {
    if us != [] {
      var prefix := us[..|us| - 1];
      assert forall i :: 0 <= i < |prefix| ==> prefix[i] == us[i];
      UnnamedOutcomeKept(j, prefix);
    }
  }

  /** The last argument naming the status decides it. */
  lemma {:induction false} LastStatusWins(j: Job, us: seq<FieldUpdate>, s: Status)
    requires us != [] && us[|us| - 1] == SetStatus(s)
    ensures ApplyAll(j, us).status == s
  {
  }

  /** Two keyword arguments are applied in the order given. */
  lemma ApplyTwo(j: Job, u: FieldUpdate, v: FieldUpdate)
    ensures ApplyAll(j, [u, v]) == Apply(Apply(j, u), v)
  {
    assert [u, v][..1] == [u];
    assert [u][..0] == [];
    assert ApplyAll(j, [u]) == Apply(j, u);
  }

  /** Three keyword arguments are applied in the order given. */
  lemma ApplyThree(j: Job, u: FieldUpdate, v: FieldUpdate, w: FieldUpdate)
    ensures ApplyAll(j, [u, v, w]) == Apply(Apply(Apply(j, u), v), w)
  {
    assert [u, v, w][..2] == [u, v];
    ApplyTwo(j, u, v);
  }

  /** Five keyword arguments are applied in the order given. */
  lemma ApplyFive(j: Job, u1: FieldUpdate, u2: FieldUpdate, u3: FieldUpdate, u4: FieldUpdate, u5: FieldUpdate)
    ensures ApplyAll(j, [u1, u2, u3, u4, u5]) == Apply(Apply(Apply(Apply(Apply(j, u1), u2), u3), u4), u5)
  {
    assert [u1, u2, u3, u4, u5][..4] == [u1, u2, u3, u4];
    assert [u1, u2, u3, u4][..3] == [u1, u2, u3];
    ApplyThree(j, u1, u2, u3);
  }

  // ---------------------------------------------------------------------------
  // Eviction (`_cleanup_old_jobs`)
  // ---------------------------------------------------------------------------

  predicate Terminal(j: Job) {
    j.status == Completed || j.status == Failed
  }

  /** `completed_at or created_at` */
  function AgeKey(j: Job): int {
    if j.completedAt.Some? then j.completedAt.value else j.createdAt
  }

  function AgeIn(jobs: map<string, Job>): string -> int {
    k => if k in jobs then AgeKey(jobs[k]) else 0
  }

  /** The ids of completed or failed jobs, in dictionary order. */
  function TerminalIds(order: seq<string>, jobs: map<string, Job>): (r: seq<string>)
    requires forall k :: k in order ==> k in jobs
    ensures forall k :: k in r <==> k in order && Terminal(jobs[k])
    decreases |order|
  {
    if order == [] then []
    else
      var last := order[|order| - 1];
      TerminalIds(order[..|order| - 1], jobs) + (if Terminal(jobs[last]) then [last] else [])
  }

  /** `order` without the ids in `gone`, the rest in order: what deleting dictionary keys leaves. */
  function Without(order: seq<string>, gone: set<string>): (r: seq<string>)
    ensures forall k :: k in r <==> k in order && k !in gone
    decreases |order|
  {
    if order == [] then []
    else
      var last := order[|order| - 1];
      Without(order[..|order| - 1], gone) + (if last in gone then [] else [last])
  }

  lemma {:induction false} WithoutDistinct(order: seq<string>, gone: set<string>)
    requires Distinct(order)
    ensures Distinct(Without(order, gone))
    decreases |order|
  {
    if order != [] {
      var prefix := order[..|order| - 1];
      assert Distinct(prefix);
      WithoutDistinct(prefix, gone);
    }
  }

  lemma {:induction false} WithoutUnion(order: seq<string>, a: set<string>, b: set<string>)
    ensures Without(Without(order, a), b) == Without(order, a + b)
    decreases |order|
  {
    if order != [] {
      var prefix := order[..|order| - 1];
      var last := order[|order| - 1];
      WithoutUnion(prefix, a, b);
      var inner := Without(prefix, a) + (if last in a then [] else [last]);
      if last !in a {
        assert inner[..|inner| - 1] == Without(prefix, a);
      } else {
        assert inner == Without(prefix, a);
      }
    }
  }

  /** The ids listed in `ids`. */
  function IdSet(ids: seq<string>): (r: set<string>)
    ensures forall k :: k in r <==> k in ids
  {
    set k | k in ids
  }

  lemma IdSetSnoc(ids: seq<string>, x: string)
    ensures IdSet(ids + [x]) == IdSet(ids) + {x}
  {
  }

  /** Deleting the ids one at a time: one more deletion extends the deleted prefix by its id. */
  lemma {:induction false} DeleteStep(order: seq<string>, jobs: map<string, Job>, ids: seq<string>, i: nat)
    requires i < |ids|
    ensures Without(Without(order, IdSet(ids[..i])), {ids[i]}) == Without(order, IdSet(ids[..i + 1]))
    ensures (jobs - IdSet(ids[..i])) - {ids[i]} == jobs - IdSet(ids[..i + 1])
  {
    assert ids[..i + 1] == ids[..i] + [ids[i]];
    IdSetSnoc(ids[..i], ids[i]);
    WithoutUnion(order, IdSet(ids[..i]), {ids[i]});
  }

  /** Before any deletion the store is whole. */
  lemma DeleteStart(order: seq<string>, jobs: map<string, Job>, ids: seq<string>)
    ensures Without(order, IdSet(ids[..0])) == order && jobs - IdSet(ids[..0]) == jobs
  {
    assert IdSet(ids[..0]) == {};
    WithoutNothing(order);
  }

  /** The ids `_cleanup_old_jobs` deletes: nothing below capacity; otherwise the completed and failed jobs,
      oldest first, at most size - capacity + 10 of them. */
  function Victims(order: seq<string>, jobs: map<string, Job>, maxJobs: int): (r: seq<string>)
    requires forall k :: k in order ==> k in jobs
    ensures forall k :: k in r ==> k in order && Terminal(jobs[k])
  {
    if |jobs| < maxJobs then []
    else
      var ids := TerminalIds(order, jobs);
      var r := SliceTo(Sorting.SortBy(ids, AgeIn(jobs)), |jobs| - maxJobs + 10);
      assert forall k :: k in r ==> k in ids by {
        forall k | k in r
          ensures k in ids
        {
          assert k in multiset(r);
        }
      }
      r
  }

  /** The store after `_cleanup_old_jobs`: dictionary order and contents. */
  function Evicted(order: seq<string>, jobs: map<string, Job>, maxJobs: int): (seq<string>, map<string, Job>)
    requires forall k :: k in order ==> k in jobs
  {
    var gone := IdSet(Victims(order, jobs, maxJobs));
    (Without(order, gone), jobs - gone)
  }

  /** Eviction deletes only completed or failed jobs: pending, running and cancelled jobs always survive,
      and every survivor is unchanged. Below capacity nothing is deleted. */
  lemma {:induction false} EvictionKeepsActive(order: seq<string>, jobs: map<string, Job>, maxJobs: int)
    requires forall k :: k in order ==> k in jobs
    ensures var (_, after) := Evicted(order, jobs, maxJobs);
            (forall k :: k in jobs && !Terminal(jobs[k]) ==> k in after)
            && (forall k :: k in after ==> k in jobs && after[k] == jobs[k])
            && (|jobs| < maxJobs ==> after == jobs)
  {
    if |jobs| < maxJobs {
      assert IdSet(Victims(order, jobs, maxJobs)) == {};
    }
  }

  /** At most size - capacity + 10 jobs are deleted, and only once the store is at capacity. */
  lemma {:induction false} EvictionBound(order: seq<string>, jobs: map<string, Job>, maxJobs: int)
    requires forall k :: k in order ==> k in jobs
    ensures |jobs| < maxJobs ==> Victims(order, jobs, maxJobs) == []
    ensures |jobs| >= maxJobs ==> |Victims(order, jobs, maxJobs)| <= |jobs| - maxJobs + 10
  {
  }

  /** The oldest go first: no deleted job is younger than a completed or failed job that survives. */
  lemma {:induction false} EvictionOldestFirst(order: seq<string>, jobs: map<string, Job>, maxJobs: int, v: string, t: string)
    requires forall k :: k in order ==> k in jobs
    requires v in Victims(order, jobs, maxJobs)
    requires t in order && Terminal(jobs[t]) && t !in Victims(order, jobs, maxJobs)
    ensures AgeKey(jobs[v]) <= AgeKey(jobs[t])
  {
    var ids := TerminalIds(order, jobs);
    var sorted := Sorting.SortBy(ids, AgeIn(jobs));
    assert t in multiset(sorted);
    SortedPrefixSmallest(sorted, AgeIn(jobs), |jobs| - maxJobs + 10, v, t);
  }

  /** In a sequence sorted by `key`, an element of a prefix has no larger key than an element outside it. */
  lemma {:induction false} SortedPrefixSmallest<T>(sorted: seq<T>, key: T -> int, n: int, v: T, t: T)
    requires Sorting.SortedBy(sorted, key)
    requires v in SliceTo(sorted, n) && t in sorted && t !in SliceTo(sorted, n)
    ensures key(v) <= key(t)
  {
    var prefix := SliceTo(sorted, n);
    var iv :| 0 <= iv < |prefix| && prefix[iv] == v;
    var jt :| 0 <= jt < |sorted| && sorted[jt] == t;
    assert jt >= |prefix| by {
      assert forall m :: 0 <= m < |prefix| ==> prefix[m] == sorted[m];
    }
    assert sorted[iv] == v;
  }

  /** The store after `create` inserted `job` into the evicted store; a colliding id overwrites the old
      job and keeps its position. */
  function Inserted(state: (seq<string>, map<string, Job>), job: Job): (seq<string>, map<string, Job>) {
    (if job.jobId in state.0 then state.0 else state.0 + [job.jobId], state.1[job.jobId := job])
  }

  /** Eviction never touches non-terminal jobs, so a store full of pending jobs outgrows its capacity. */
  lemma CapacityCanBeExceeded(config: Config.VegChangeConfig)
    ensures var pending := NewJob("aaaaaaaa", config, 0);
            var newer := NewJob("bbbbbbbb", config, 1);
            var after := Inserted(Evicted(["aaaaaaaa"], map["aaaaaaaa" := pending], 1), newer);
            |after.1| == 2
  {
    var pending := NewJob("aaaaaaaa", config, 0);
    var jobs := map["aaaaaaaa" := pending];
    var gone := IdSet(Victims(["aaaaaaaa"], jobs, 1));
    assert !Terminal(jobs["aaaaaaaa"]);
    assert gone == {};
    assert "bbbbbbbb" != "aaaaaaaa" by { assert "bbbbbbbb"[0] != "aaaaaaaa"[0]; }
    assert (jobs - gone)["bbbbbbbb" := NewJob("bbbbbbbb", config, 1)].Keys == {"aaaaaaaa", "bbbbbbbb"};
  }

  // ---------------------------------------------------------------------------
  // Listing
  // ---------------------------------------------------------------------------

  /** `list(self._jobs.values())` */
  function ValuesOf(order: seq<string>, jobs: map<string, Job>): (r: seq<Job>)
    requires forall k :: k in order ==> k in jobs
    ensures |r| == |order| && forall i :: 0 <= i < |order| ==> r[i] == jobs[order[i]]
  {
    seq(|order|, i requires 0 <= i < |order| => jobs[order[i]])
  }

  /** Every job drawn from the stored values is one of the stored jobs. */
  lemma StoredValues(order: seq<string>, jobs: map<string, Job>, r: seq<Job>)
    requires forall k :: k in order ==> k in jobs
    requires multiset(r) <= multiset(ValuesOf(order, jobs))
    ensures forall j :: j in r ==> exists k :: k in jobs && jobs[k] == j
  {
    var values := ValuesOf(order, jobs);
    forall j | j in r
      ensures exists k :: k in jobs && jobs[k] == j
    {
      assert j in multiset(r);
      assert j in values;
      var i :| 0 <= i < |values| && values[i] == j;
      assert jobs[order[i]] == j;
    }
  }

  /** `[j for j in jobs if j.status == status]` */
  function Matching(js: seq<Job>, s: Status): (r: seq<Job>)
    ensures forall j :: j in r ==> j.status == s
    ensures forall j :: j in js && j.status == s ==> j in r
    ensures multiset(r) <= multiset(js)
    decreases |js|
  {
    if js == [] then []
    else
      var last := js[|js| - 1];
      assert js == js[..|js| - 1] + [last];
      Matching(js[..|js| - 1], s) + (if last.status == s then [last] else [])
  }

  /** Reverse order of creation, as a sort key. */
  function NewestFirst(j: Job): int {
    -j.createdAt
  }

  /** The jobs `list_jobs` chooses from: those of the given status, or all of them. */
  function Selected(values: seq<Job>, status: Option<Status>): seq<Job> {
    if status.Some? then Matching(values, status.value) else values
  }

  /** A prefix of the newest-first order holds selected jobs only. */
  lemma {:induction false} PrefixOfSelected(values: seq<Job>, status: Option<Status>, limit: int)
    ensures var r := SliceTo(Sorting.SortBy(Selected(values, status), NewestFirst), limit);
            (status.Some? ==> forall j :: j in r ==> j.status == status.value)
            && multiset(r) <= multiset(Selected(values, status)) && multiset(r) <= multiset(values)
  {
    var selected := Selected(values, status);
    var sorted := Sorting.SortBy(selected, NewestFirst);
    var r := SliceTo(sorted, limit);
    assert multiset(selected) <= multiset(values);
    forall j | j in r
      ensures j in selected
    {
      assert j in multiset(sorted);
    }
  }

  /** A prefix of the newest-first order lists creation times in descending order. */
  lemma {:induction false} PrefixNewestFirst(selected: seq<Job>, limit: int)
    ensures var r := SliceTo(Sorting.SortBy(selected, NewestFirst), limit);
            forall i, k :: 0 <= i < k < |r| ==> r[i].createdAt >= r[k].createdAt
  {
    var sorted := Sorting.SortBy(selected, NewestFirst);
    var r := SliceTo(sorted, limit);
    forall i, k | 0 <= i < k < |r|
      ensures r[i].createdAt >= r[k].createdAt
    {
      assert r[i] == sorted[i] && r[k] == sorted[k];
      assert NewestFirst(sorted[i]) <= NewestFirst(sorted[k]);
    }
  }

  /** A prefix of the newest-first order leaves out no job newer than one it keeps. */
  lemma {:induction false} PrefixKeepsNewest(selected: seq<Job>, limit: int)
    ensures var r := SliceTo(Sorting.SortBy(selected, NewestFirst), limit);
            forall j, k :: j in r && k in selected && k.createdAt > j.createdAt ==> k in r
  {
    var sorted := Sorting.SortBy(selected, NewestFirst);
    var r := SliceTo(sorted, limit);
    forall j, k | j in r && k in selected && k.createdAt > j.createdAt
      ensures k in r
    {
      assert k in multiset(sorted);
      if k !in r {
        SortedPrefixSmallest(sorted, NewestFirst, limit, j, k);
      }
    }
  }

  /** `list_jobs`: the jobs of the given status (all without one), newest first, at most `limit` of them
      (Python slicing: a negative limit drops that many from the end). The limit keeps the newest: no
      selected job newer than a listed one is left out. */
  function ListSpec(values: seq<Job>, status: Option<Status>, limit: int): (r: seq<Job>)
    ensures status.Some? ==> forall j :: j in r ==> j.status == status.value
    ensures forall i, k :: 0 <= i < k < |r| ==> r[i].createdAt >= r[k].createdAt
    ensures multiset(r) <= multiset(Selected(values, status)) && multiset(r) <= multiset(values)
    ensures 0 <= limit ==> |r| == if limit < |Selected(values, status)| then limit else |Selected(values, status)|
    ensures forall j, k :: j in r && k in Selected(values, status) && k.createdAt > j.createdAt ==> k in r
  {
    var r := SliceTo(Sorting.SortBy(Selected(values, status), NewestFirst), limit);
    PrefixOfSelected(values, status, limit);
    PrefixNewestFirst(Selected(values, status), limit);
    PrefixKeepsNewest(Selected(values, status), limit);
    r
  }

  // ---------------------------------------------------------------------------
  // The store
  // ---------------------------------------------------------------------------

  class JobStore {
    var order: seq<string>
    var jobs: map<string, Job>
    const maxJobs: int

    /** The insertion order lists each stored id once. */
    ghost predicate Valid()
      reads this
    {
      Distinct(order) && forall k :: k in jobs <==> k in order
    }

    constructor(maxJobs: int := 100)
      ensures Valid() && order == [] && jobs == map[] && this.maxJobs == maxJobs
    {
      order := [];
      jobs := map[];
      this.maxJobs := maxJobs;
    }

    /** `create`: eviction first, then the new job under the first 8 characters of a fresh UUID. */
    method Create(config: Config.VegChangeConfig, uuid: string, now: int) returns (job: Job)
      requires Valid() && |uuid| >= 8
      modifies this
      ensures Valid()
      ensures job == NewJob(uuid[..8], config, now) && |job.jobId| == 8 && job.config == config
      ensures (order, jobs) == Inserted(Evicted(old(order), old(jobs), maxJobs), job)
    {
      job := NewJob(uuid[..8], config, now);
      CleanupOldJobs();
      jobs := jobs[job.jobId := job];
      if job.jobId !in order {
        order := order + [job.jobId];
      }
    }

    /** `_cleanup_old_jobs` */
    method CleanupOldJobs()
      requires Valid()
      modifies this
      ensures Valid()
      ensures (order, jobs) == Evicted(old(order), old(jobs), maxJobs)
    {
      var victims := Victims(order, jobs, maxJobs);
      DeleteAll(victims);
    }

    /** `for jid in to_remove: del self._jobs[jid]` */
    method DeleteAll(victims: seq<string>)
      requires Valid()
      modifies this
      ensures Valid()
      ensures jobs == old(jobs) - IdSet(victims) && order == Without(old(order), IdSet(victims))
    {
      var remaining, kept := order, jobs;
      DeleteStart(order, jobs, victims);
      var i := 0;
      while i < |victims|
        invariant 0 <= i <= |victims|
        invariant kept == jobs - IdSet(victims[..i])
        invariant remaining == Without(order, IdSet(victims[..i]))
        invariant order == old(order) && jobs == old(jobs)
      {
        DeleteStep(order, jobs, victims, i);
        kept := kept - {victims[i]};
        remaining := Without(remaining, {victims[i]});
        i := i + 1;
      }
      assert victims[..i] == victims;
      WithoutDistinct(order, IdSet(victims));
      order, jobs := remaining, kept;
    }

    /** `del self._jobs[jobId]`; an absent id leaves the store as it is. */
    method Remove(jobId: string)
      requires Valid()
      modifies this
      ensures Valid()
      ensures jobs == old(jobs) - {jobId} && order == Without(old(order), {jobId})
    {
      WithoutDistinct(order, {jobId});
      jobs := jobs - {jobId};
      order := Without(order, {jobId});
    }

    /** `get` */
    function Get(jobId: string): (r: Option<Job>)
      reads this
      ensures r.Some? <==> jobId in jobs
      ensures r.Some? ==> r.value == jobs[jobId]
    {
      if jobId in jobs then Some(jobs[jobId]) else None
    }

    /** `update`: the `setattr` loop over the arguments, on the one job named. */
    method Update(jobId: string, updates: seq<FieldUpdate>) returns (r: Option<Job>)
      requires Valid()
      modifies this
      ensures Valid() && order == old(order)
      ensures jobId !in old(jobs) ==> r.None? && jobs == old(jobs)
      ensures jobId in old(jobs) ==> r == Some(ApplyAll(old(jobs)[jobId], updates)) && jobs == old(jobs)[jobId := r.value]
    {
      if jobId !in jobs {
        return None;
      }
      var job := jobs[jobId];
      var i := 0;
      while i < |updates|
        invariant 0 <= i <= |updates|
        invariant job == ApplyAll(jobs[jobId], updates[..i])
      {
        assert updates[..i + 1][..i] == updates[..i];
        job := Apply(job, updates[i]);
        i := i + 1;
      }
      assert updates[..i] == updates;
      jobs := jobs[jobId := job];
      r := Some(job);
    }

    /** `delete` */
    method Delete(jobId: string) returns (deleted: bool)
      requires Valid()
      modifies this
      ensures Valid()
      ensures deleted == (jobId in old(jobs))
      ensures jobs == old(jobs) - {jobId} && order == Without(old(order), {jobId})
    {
      deleted := jobId in jobs;
      if deleted {
        Remove(jobId);
      } else {
        WithoutNothingOf(order, jobId);
        assert jobs == jobs - {jobId};
      }
    }

    /** `list_jobs` */
    function ListJobs(status: Option<Status>, limit: int := 50): (r: seq<Job>)
      reads this
      requires Valid()
      ensures status.Some? ==> forall j :: j in r ==> j.status == status.value
      ensures forall i, k :: 0 <= i < k < |r| ==> r[i].createdAt >= r[k].createdAt
      ensures forall j :: j in r ==> exists k :: k in jobs && jobs[k] == j
      ensures r == ListSpec(ValuesOf(order, jobs), status, limit)
    {
      var values := ValuesOf(order, jobs);
      var r := ListSpec(values, status, limit);
      StoredValues(order, jobs, r);
      r
    }
  }

  lemma {:induction false} WithoutNothing(order: seq<string>)
    ensures Without(order, {}) == order
    decreases |order|
  {
    if order != [] {
      WithoutNothing(order[..|order| - 1]);
      assert order == order[..|order| - 1] + [order[|order| - 1]];
    }
  }

  lemma {:induction false} WithoutNothingOf(order: seq<string>, k: string)
    requires k !in order
    ensures Without(order, {k}) == order
    decreases |order|
  {
    if order != [] {
      WithoutNothingOf(order[..|order| - 1], k);
      assert order == order[..|order| - 1] + [order[|order| - 1]];
    }
  }
}
