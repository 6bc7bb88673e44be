/** The job manager object: jobs shared by reference, an ordered dictionary of them, and the event publisher. */
module JobManager {
  import opened Prelude
  import L = JobLifecycle
  import opened NewestFirst

  type JobId = L.JobId

  class Job {
    const id: JobId
    const createdAt: int
    var status: L.Status
    var result: Option<string>
    var error: Option<string>
    var startedAt: Option<int>
    var completedAt: Option<int>

    function Rec(): L.Job
      reads this
    {
      L.Job(id, status, result, error, createdAt, startedAt, completedAt)
    }

    constructor (id: JobId, now: int)
      ensures this.id == id && Rec() == L.Job(id, L.PENDING, None, None, now, None, None)
    {
      this.id, this.createdAt := id, now;
      status, result, error, startedAt, completedAt := L.PENDING, None, None, None, None;
    }
  }

  /** The seconds between start and completion, summed over the jobs that have both. */
  function TotalTime(js: seq<Job>): int
    reads js
  {
    if js == [] then 0
    else
      var j := js[|js| - 1];
      TotalTime(js[..|js| - 1]) +
      if j.startedAt.Some? && j.completedAt.Some? then j.completedAt.value - j.startedAt.value else 0
  }

  /** The job has ended, at a time before the given one. */
  predicate EndedBefore(j: Job, t: int)
    reads j
  {
    j.status in {L.COMPLETED, L.FAILED, L.CANCELLED} && j.completedAt.Some? && j.completedAt.value < t
  }

  lemma KeysLeft(all: set<JobId>, gone: set<JobId>)
    requires gone <= all
    ensures |all - gone| == |all| - |gone|
  {
  }

  /** The status asked for in a listing: none, one of the five, or a string that names none of them. */
  datatype Filter = Everything | Only(status: L.Status) | Unknown

  const CREATED: Job -> int := (j: Job) => j.createdAt

  class JobManager {
    const policy: L.Policy
    var jobs: map<JobId, Job>
    var keys: seq<JobId>
    var lastCleanup: int
    var published: seq<L.Notice>

    function View(): L.Manager
      reads this, jobs.Values
    {
      L.Manager(map id | id in jobs :: jobs[id].Rec(), keys, lastCleanup, published)
    }

    ghost predicate Valid()
      reads this
    {
      && (forall id :: id in jobs ==> jobs[id].id == id)
      && Distinct(keys) && (forall id :: id in keys <==> id in jobs)
    }

    constructor (policy: L.Policy, now: int)
      ensures this.policy == policy && Valid() && View() == L.Fresh(now)
    {
      this.policy := policy;
      jobs, keys, lastCleanup, published := map[], [], now, [];
    }

    lemma ViewIs(m: L.Manager)
      requires keys == m.order && lastCleanup == m.lastCleanup && published == m.published
      requires forall id :: id in jobs <==> id in m.jobs
      requires forall id :: id in jobs ==> jobs[id].Rec() == m.jobs[id]
      ensures View() == m
    {
      assert View().jobs == m.jobs;
    }

    method CreateJob(id: JobId, tCreate: int, tCheck: int, tSweep: int)
      requires Valid() && id !in jobs
      modifies this
      ensures Valid() && View() == L.CreateJob(policy, old(View()), id, tCreate, tCheck, tSweep)
    {
      ghost var pending := L.Job(id, L.PENDING, None, None, tCreate, None, None);
      ghost var added := L.Put(View(), id, pending).(order := keys + [id]);
      var job := new Job(id, tCreate);
      jobs, keys := jobs[id := job], keys + [id];
      ViewIs(added);
      CleanupIfNeeded(tCheck, tSweep);
    }

    method StartJob(id: JobId, now: int) returns (ok: bool)
      requires Valid()
      modifies this, jobs.Values
      ensures Valid() && (View(), ok) == L.StartJob(old(View()), id, now)
    {
      ghost var m := View();
      if id !in jobs || jobs[id].status != L.PENDING {
        return false;
      }
      var job := jobs[id];
      job.status := L.RUNNING;
      job.startedAt := Some(now);
      ok := true;
      ViewIs(L.StartJob(m, id, now).0);
    }

    method CompleteJob(id: JobId, result: string, now: int) returns (ok: bool)
      requires Valid()
      modifies this, jobs.Values
      ensures Valid() && (View(), ok) == L.CompleteJob(old(View()), id, result, now)
    {
      ghost var m := View();
      if id !in jobs || (jobs[id].status != L.RUNNING && jobs[id].status != L.PENDING) {
        return false;
      }
      var job := jobs[id];
      job.status := L.COMPLETED;
      job.result := Some(result);
      job.completedAt := Some(now);
      published := published + [L.JobCompleted(id, result)];
      ok := true;
      ViewIs(L.CompleteJob(m, id, result, now).0);
    }

    method FailJob(id: JobId, error: string, now: int) returns (ok: bool)
      requires Valid()
      modifies this, jobs.Values
      ensures Valid() && (View(), ok) == L.FailJob(old(View()), id, error, now)
    {
      ghost var m := View();
      if id !in jobs || jobs[id].status.Terminal() {
        return false;
      }
      var job := jobs[id];
      job.status := L.FAILED;
      job.error := Some(error);
      job.completedAt := Some(now);
      published := published + [L.JobFailed(id, error)];
      ok := true;
      ViewIs(L.FailJob(m, id, error, now).0);
    }

    method CancelJob(id: JobId, now: int) returns (ok: bool)
      requires Valid()
      modifies this, jobs.Values
      ensures Valid() && (View(), ok) == L.CancelJob(old(View()), id, now)
    {
      ghost var m := View();
      if id !in jobs || jobs[id].status.Terminal() {
        return false;
      }
      var job := jobs[id];
      job.status := L.CANCELLED;
      job.completedAt := Some(now);
      ok := true;
      ViewIs(L.CancelJob(m, id, now).0);
    }

    method UpdateJobStatus(id: JobId, to: Option<L.Status>, result: Option<string>, error: Option<string>, now: int)
      returns (ok: bool)
      requires Valid()
      modifies this, jobs.Values
      ensures Valid() && (View(), ok) == L.UpdateJobStatus(old(View()), id, to, result, error, now)
    {
      ghost var m := View();
      if id !in jobs || to.None? || !L.ValidNext(jobs[id].status, to.value) {
        return false;
      }
      Assign(jobs[id], to.value, result, error, now);
      ok := true;
      ViewIs(L.UpdateJobStatus(m, id, to, result, error, now).0);
    }

    static method Assign(job: Job, to: L.Status, result: Option<string>, error: Option<string>, now: int)
      modifies job
      ensures job.Rec() == L.Updated(old(job.Rec()), to, result, error, now)
    {
      job.status := to;
      if to.RUNNING? && job.startedAt.None? {
        job.startedAt := Some(now);
      }
      if to.Terminal() {
        job.completedAt := Some(now);
      }
      if result.Some? {
        job.result := result;
      }
      if error.Some? {
        job.error := error;
      }
    }

    method CleanupIfNeeded(tCheck: int, tSweep: int)
      requires Valid()
      modifies this
      ensures Valid() && View() == L.CleanupIfNeeded(policy, old(View()), tCheck, tSweep)
    {
      hide L.CleanupOldJobs, Distinct;
      if tCheck - lastCleanup < policy.Interval() {
        return;
      }
      ghost var m := View();
      var _ := CleanupOldJobs(policy.retentionDays, tSweep);
      lastCleanup := tCheck;
      assert View().jobs == L.CleanupOldJobs(m, policy.retentionDays, tSweep).jobs;
    }

    method CleanupOldJobs(retentionDays: int, now: int) returns (removed: nat)
      requires Valid()
      modifies this
      ensures Valid() && View() == L.CleanupOldJobs(old(View()), retentionDays, now)
      ensures removed == |L.StaleIds(old(View()), now - L.Days(retentionDays))|
      ensures forall id :: id in jobs <==> id in old(jobs) && !EndedBefore(old(jobs)[id], now - retentionDays * 86400)
      ensures forall id :: id in jobs ==> jobs[id] == old(jobs)[id]
      ensures |jobs| == |old(jobs)| - removed
    {
      hide L.StaleIds, L.Stale, L.CleanupOldJobs, Distinct, Retain, EndedBefore, View, Valid;
      ghost var m := View();
      removed := DropStale(now - L.Days(retentionDays));
      AfterDrop(m, retentionDays, now);
    }

    static lemma AfterDrop(m: L.Manager, retentionDays: int, now: int)
      ensures var gone := L.StaleIds(m, now - L.Days(retentionDays));
        L.CleanupOldJobs(m, retentionDays, now) ==
          m.(jobs := m.jobs - gone, order := Retain(m.order, (m.jobs - gone).Keys))
      ensures L.Days(retentionDays) == retentionDays * 86400
    {
    }

    method DropStale(cutoff: int) returns (removed: nat)
      requires Valid()
      modifies this
      ensures var m := old(View());
        var gone := L.StaleIds(m, cutoff);
        && Valid() && View() == m.(jobs := m.jobs - gone, order := Retain(m.order, (m.jobs - gone).Keys))
        && removed == |gone|
      ensures forall id :: id in jobs <==> id in old(jobs) && !EndedBefore(old(jobs)[id], cutoff)
      ensures forall id :: id in jobs ==> jobs[id] == old(jobs)[id]
      ensures |jobs| == |old(jobs)| - removed
    {
      hide L.StaleIds, L.Stale, Distinct, Retain, EndedBefore, View, Valid;
      var doomed := StaleJobs(cutoff);
      KeysLeft(jobs.Keys, doomed);
      removed := |doomed|;
      Drop(doomed);
    }

    method Drop(doomed: set<JobId>)
      requires Valid() && doomed <= jobs.Keys
      modifies this
      ensures Valid() && jobs == old(jobs) - doomed && |jobs| == |old(jobs).Keys - doomed|
      ensures var m := old(View());
        View() == m.(jobs := m.jobs - doomed, order := Retain(m.order, (m.jobs - doomed).Keys))
    {
      hide Distinct, Retain;
      ghost var m := View();
      var left := Without(jobs, doomed);
      RetainDistinct(keys, left.Keys);
      RetainMembers(keys, left.Keys);
      assert left.Keys == jobs.Keys - doomed;
      assert left.Keys == (m.jobs - doomed).Keys;
      jobs, keys := left, Retain(keys, left.Keys);
      ViewIs(m.(jobs := m.jobs - doomed, order := Retain(m.order, (m.jobs - doomed).Keys)));
    }

    method StaleJobs(cutoff: int) returns (doomed: set<JobId>)
      ensures doomed == L.StaleIds(View(), cutoff)
      ensures forall id :: id in doomed <==> id in jobs && EndedBefore(jobs[id], cutoff)
    {
      doomed := set id | id in jobs && jobs[id].status.Terminal() && jobs[id].completedAt.Some?
                         && jobs[id].completedAt.value < cutoff;
    }

    /** The deletion loop of `CleanupOldJobs`. */
    static method Without(all: map<JobId, Job>, doomed: set<JobId>) returns (left: map<JobId, Job>)
      ensures left == all - doomed
    {
      left := all;
      var todo := doomed;
      while todo != {}
        invariant todo <= doomed && left == all - (doomed - todo)
        decreases todo
      {
        var id :| id in todo;
        left := left - {id};
        todo := todo - {id};
      }
    }

    predicate Wanted(id: JobId, filter: Filter)
      requires id in jobs
      reads this, jobs.Values
    {
      filter.Everything? || (filter.Only? && jobs[id].status == filter.status)
    }

    /** The stored jobs under the given keys whose status is the wanted one, in the order of the keys. */
    function Select(ks: seq<JobId>, filter: Filter): seq<Job>
      requires forall id :: id in ks ==> id in jobs
      reads this, jobs.Values
    {
      if ks == [] then []
      else Select(ks[..|ks| - 1], filter) +
           if Wanted(ks[|ks| - 1], filter) then [jobs[ks[|ks| - 1]]] else []
    }

    lemma SelectExtends(ks: seq<JobId>, i: nat, filter: Filter)
      requires i < |ks| && forall id :: id in ks ==> id in jobs
      ensures Select(ks[..i + 1], filter) ==
        Select(ks[..i], filter) + if Wanted(ks[i], filter) then [jobs[ks[i]]] else []
    {
      assert ks[..i + 1][..i] == ks[..i];
    }

    method ListJobs(filter: Filter, limit: int) returns (r: seq<Job>)
      requires Valid()
      ensures r == Slice(Sort(Select(keys, filter), CREATED), limit)
    {
      var matching: seq<Job> := [];
      for i := 0 to |keys|
        invariant matching == Select(keys[..i], filter)
      {
        SelectExtends(keys, i, filter);
        if filter.Everything? || (filter.Only? && jobs[keys[i]].status == filter.status) {
          matching := matching + [jobs[keys[i]]];
        }
      }
      assert keys[..|keys|] == keys;
      r := Slice(Sort(matching, CREATED), limit);
    }

    lemma {:induction false} SelectMembers(ks: seq<JobId>, filter: Filter)
      requires forall id :: id in ks ==> id in jobs
      ensures forall j :: j in Select(ks, filter) <==> exists id :: id in ks && jobs[id] == j && Wanted(id, filter)
      decreases |ks|
    {
      if ks != [] {
        var last, rest := ks[|ks| - 1], ks[..|ks| - 1];
        SelectMembers(rest, filter);
        forall j ensures j in Select(ks, filter) <==> exists id :: id in ks && jobs[id] == j && Wanted(id, filter) {
          if j in Select(ks, filter) && j !in Select(rest, filter) {
            assert last in ks && jobs[last] == j && Wanted(last, filter);
          }
          if id :| id in ks && jobs[id] == j && Wanted(id, filter) {
            assert id in rest || id == last;
          }
        }
      }
    }

    /** The job is stored under the id and has the status asked for; an unknown status matches nothing. */
    ghost predicate Matches(id: JobId, j: Job, filter: Filter)
      reads this, j
    {
      id in jobs && jobs[id] == j && (filter == Everything || filter == Only(j.status))
    }

    lemma SelectMatches(filter: Filter)
      requires Valid()
      ensures forall j :: j in Select(keys, filter) <==> exists id :: Matches(id, j, filter)
    {
      SelectMembers(keys, filter);
      forall j ensures j in Select(keys, filter) <==> exists id :: Matches(id, j, filter) {
        if id :| id in keys && jobs[id] == j && Wanted(id, filter) {
          assert Matches(id, j, filter);
        }
        if id :| Matches(id, j, filter) {
          assert id in keys && Wanted(id, filter);
        }
      }
    }

    /** `list_jobs` returns the first `limit` of the stable newest-first order of exactly the matching jobs. */
    lemma ListIsNewestFirst(filter: Filter, limit: nat)
      requires Valid()
      ensures var matching := Select(keys, filter);
        && (forall j :: j in matching <==> exists id :: Matches(id, j, filter))
        && (forall a, b :: 0 <= a < b < |Sort(matching, CREATED)| ==>
              Sort(matching, CREATED)[a].createdAt >= Sort(matching, CREATED)[b].createdAt)
        && IsNewestFirst(Sort(matching, CREATED), matching, CREATED)
        && multiset(Sort(matching, CREATED)) == multiset(matching)
        && (forall q :: IsNewestFirst(q, matching, CREATED) ==>
              Slice(Sort(matching, CREATED), limit) == if limit <= |q| then q[..limit] else q)
    {
      hide Select, Sort, Matches, IsNewestFirst, Distinct;
      SelectMatches(filter);
      var matching := Select(keys, filter);
      SortIsDescending(matching);
      SortOk(matching, CREATED);
      forall q | IsNewestFirst(q, matching, CREATED) ensures q == Sort(matching, CREATED) {
        SortUnique(q, matching, CREATED);
      }
    }

    /** Counts per status, the total, the number of running jobs, which a listing caps at 100, and the average
        execution time in milliseconds. */
    method GetStatistics() returns (total: nat, byStatus: map<L.Status, nat>, active: nat, average: Option<real>)
      requires Valid()
      ensures total == |jobs|
      ensures forall s :: s in byStatus <==> Select(keys, Only(s)) != []
      ensures forall s :: s in byStatus ==> byStatus[s] == |Select(keys, Only(s))|
      ensures var running := |Select(keys, Only(L.RUNNING))|; active == if running < 100 then running else 100
      ensures var completed := Slice(Sort(Select(keys, Only(L.COMPLETED)), CREATED), 100);
        average == if completed == [] then None else Some(TotalTime(completed) as real * 1000.0 / |completed| as real)
    {
      hide Select, Sort, Wanted, Distinct, TotalTime;
      total, byStatus := |jobs|, map[];
      for i := 0 to |L.STATUSES|
        invariant forall s :: s in byStatus <==> s in L.STATUSES[..i] && Select(keys, Only(s)) != []
        invariant forall s :: s in byStatus ==> byStatus[s] == |Select(keys, Only(s))|
      {
        var count := CountJobs(L.STATUSES[i]);
        assert L.STATUSES[..i + 1] == L.STATUSES[..i] + [L.STATUSES[i]];
        if count > 0 {
          byStatus := byStatus[L.STATUSES[i] := count];
        }
      }
      assert L.STATUSES[..|L.STATUSES|] == L.STATUSES;
      L.EveryStatus();
      active := CountRunning();
      average := AverageExecution();
    }

    /** Over the newest 100 completed jobs; those that were never started count as zero. */
    method AverageExecution() returns (average: Option<real>)
      requires Valid()
      ensures var completed := Slice(Sort(Select(keys, Only(L.COMPLETED)), CREATED), 100);
        average == if completed == [] then None else Some(TotalTime(completed) as real * 1000.0 / |completed| as real)
    {
      hide Select, Sort, Distinct;
      var completed := ListJobs(Only(L.COMPLETED), 100);
      if completed == [] {
        return None;
      }
      var total := 0;
      for i := 0 to |completed|
        invariant total == TotalTime(completed[..i])
      {
        assert completed[..i + 1][..i] == completed[..i];
        var j := completed[i];
        if j.startedAt.Some? && j.completedAt.Some? {
          total := total + (j.completedAt.value - j.startedAt.value);
        }
      }
      assert completed[..|completed|] == completed;
      average := Some(total as real * 1000.0 / |completed| as real);
    }

    method CountRunning() returns (active: nat)
      requires Valid()
      ensures var running := |Select(keys, Only(L.RUNNING))|; active == if running < 100 then running else 100
    {
      hide Select, Sort, Wanted, Distinct;
      var running := ListJobs(Only(L.RUNNING), 100);
      ghost var matching := Select(keys, Only(L.RUNNING));
      SortOk(matching, CREATED);
      SameLength(Sort(matching, CREATED), matching);
      active := |running|;
    }

    method CountJobs(status: L.Status) returns (count: nat)
      requires Valid()
      ensures count == |Select(keys, Only(status))|
    {
      count := 0;
      for i := 0 to |keys|
        invariant count == |Select(keys[..i], Only(status))|
      {
        SelectExtends(keys, i, Only(status));
        if jobs[keys[i]].status == status {
          count := count + 1;
        }
      }
      assert keys[..|keys|] == keys;
    }

    lemma {:induction false} CountsAddUp(ks: seq<JobId>)
      requires forall id :: id in ks ==> id in jobs
      ensures |Select(ks, Only(L.PENDING))| + |Select(ks, Only(L.RUNNING))| + |Select(ks, Only(L.COMPLETED))|
        + |Select(ks, Only(L.FAILED))| + |Select(ks, Only(L.CANCELLED))| == |ks|
      decreases |ks|
    {
      if ks != [] {
        CountsAddUp(ks[..|ks| - 1]);
      }
    }

    /** The per-status counts of the statistics sum to the number of jobs. */
    lemma StatisticsAddUp()
      requires Valid()
      ensures |Select(keys, Only(L.PENDING))| + |Select(keys, Only(L.RUNNING))| + |Select(keys, Only(L.COMPLETED))|
        + |Select(keys, Only(L.FAILED))| + |Select(keys, Only(L.CANCELLED))| == |jobs|
    {
      CountsAddUp(keys);
      DistinctCount(keys, jobs.Keys);
    }
  }

  lemma SortIsDescending(s: seq<Job>)
    ensures var js := Sort(s, CREATED); forall a, b :: 0 <= a < b < |js| ==> js[a].createdAt >= js[b].createdAt
  {
    SortOk(s, CREATED);
    var js := Sort(s, CREATED);
    forall a, b | 0 <= a < b < |js| ensures js[a].createdAt >= js[b].createdAt {
      assert CREATED(js[a]) >= CREATED(js[b]);
    }
  }

  /** The summed time of two lists of jobs is the sum of the two ... */
  lemma {:induction false} TotalTimeAdds(a: seq<Job>, b: seq<Job>)
    ensures TotalTime(a + b) == TotalTime(a) + TotalTime(b)
    decreases |b|
  {
    if b == [] {
      assert a + b == a;
    } else {
      TotalTimeAdds(a, b[..|b| - 1]);
      assert (a + b)[..|a + b| - 1] == a + b[..|b| - 1];
    }
  }

  /** ... and of one job the time from its start to its completion, or nothing if it lacks either. */
  lemma TotalTimeOfOne(j: Job)
    ensures TotalTime([j]) == match (j.startedAt, j.completedAt) case (Some(s), Some(e)) => e - s case _ => 0
  {
    assert [j][..0] == [];
  }

  lemma SameLength<T>(a: seq<T>, b: seq<T>)
    requires multiset(a) == multiset(b)
    ensures |a| == |b|
  {
    assert |multiset(a)| == |a| && |multiset(b)| == |b|;
  }

  lemma {:induction false} DistinctCount(s: seq<JobId>, all: set<JobId>)
    requires Distinct(s) && forall x :: x in s <==> x in all
    ensures |s| == |all|
    decreases |s|
  {
    if s != [] {
      var last, rest := s[|s| - 1], s[..|s| - 1];
      assert s == rest + [last];
      assert last !in rest;
      DistinctCount(rest, all - {last});
    }
  }
}
