/** The AI worker's in-memory job manager on values: transitions, timed cleanup and published events.

    Times are whole seconds.  `order` is the insertion order of the job dictionary.
 */
module JobLifecycle {
  import opened Prelude

  type JobId = nat

  datatype Status = PENDING | RUNNING | COMPLETED | FAILED | CANCELLED
  {
    predicate Terminal() { COMPLETED? || FAILED? || CANCELLED? }
  }

  const STATUSES := [PENDING, RUNNING, COMPLETED, FAILED, CANCELLED]

  lemma EveryStatus()
    ensures forall s: Status :: s in STATUSES
  {
    forall s: Status ensures s in STATUSES {
      match s
      case PENDING => assert STATUSES[0] == s;
      case RUNNING => assert STATUSES[1] == s;
      case COMPLETED => assert STATUSES[2] == s;
      case FAILED => assert STATUSES[3] == s;
      case CANCELLED => assert STATUSES[4] == s;
    }
  }

  datatype Job = Job(
    id: JobId,
    status: Status,
    result: Option<string>,
    error: Option<string>,
    createdAt: int,
    startedAt: Option<int>,
    completedAt: Option<int>)

  datatype Notice = JobCompleted(id: JobId, result: string) | JobFailed(id: JobId, error: string)

  datatype Policy = Policy(retentionDays: int, cleanupIntervalHours: int)
  {
    function Retention(): int { Days(retentionDays) }
    function Interval(): int { cleanupIntervalHours * 3600 }
  }

  function Days(n: int): int { n * 86400 }

  datatype Manager = Manager(
    jobs: map<JobId, Job>,
    order: seq<JobId>,
    lastCleanup: int,
    published: seq<Notice>)

  function Fresh(now: int): Manager { Manager(map[], [], now, []) }

  // ---------------------------------------------------------------------------------------------
  // Operations
  // ---------------------------------------------------------------------------------------------

  function Put(m: Manager, id: JobId, j: Job): Manager { m.(jobs := m.jobs[id := j]) }

  function StartJob(m: Manager, id: JobId, now: int): (Manager, bool) {
    if id !in m.jobs || m.jobs[id].status != PENDING then (m, false)
    else (Put(m, id, m.jobs[id].(status := RUNNING, startedAt := Some(now))), true)
  }

  function CompleteJob(m: Manager, id: JobId, result: string, now: int): (Manager, bool) {
    if id !in m.jobs || !(m.jobs[id].status == RUNNING || m.jobs[id].status == PENDING) then (m, false)
    else (Put(m, id, m.jobs[id].(status := COMPLETED, result := Some(result), completedAt := Some(now)))
            .(published := m.published + [JobCompleted(id, result)]), true)
  }

  function FailJob(m: Manager, id: JobId, error: string, now: int): (Manager, bool) {
    if id !in m.jobs || m.jobs[id].status.Terminal() then (m, false)
    else (Put(m, id, m.jobs[id].(status := FAILED, error := Some(error), completedAt := Some(now)))
            .(published := m.published + [JobFailed(id, error)]), true)
  }

  function CancelJob(m: Manager, id: JobId, now: int): (Manager, bool) {
    if id !in m.jobs || m.jobs[id].status.Terminal() then (m, false)
    else (Put(m, id, m.jobs[id].(status := CANCELLED, completedAt := Some(now))), true)
  }

  /** The transition table of `update_job_status`, narrower than the dedicated operations. */
  predicate ValidNext(from: Status, to: Status) {
    match from
    case PENDING => to.RUNNING? || to.CANCELLED?
    case RUNNING => to.Terminal()
    case _ => false
  }

  function Updated(j: Job, to: Status, result: Option<string>, error: Option<string>, now: int): Job {
    j.(status := to,
       startedAt := if to.RUNNING? && j.startedAt.None? then Some(now) else j.startedAt,
       completedAt := if to.Terminal() then Some(now) else j.completedAt,
       result := if result.Some? then result else j.result,
       error := if error.Some? then error else j.error)
  }

  /** `to` is `None` when the given string names no status. */
  function UpdateJobStatus(m: Manager, id: JobId, to: Option<Status>, result: Option<string>, error: Option<string>,
                           now: int): (Manager, bool)
  {
    if id !in m.jobs || to.None? || !ValidNext(m.jobs[id].status, to.value) then (m, false)
    else (Put(m, id, Updated(m.jobs[id], to.value, result, error, now)), true)
  }

  /** Terminal jobs completed before the cutoff. */
  predicate Stale(j: Job, cutoff: int) {
    j.status.Terminal() && j.completedAt.Some? && j.completedAt.value < cutoff
  }

  function StaleIds(m: Manager, cutoff: int): set<JobId> {
    set id | id in m.jobs && Stale(m.jobs[id], cutoff)
  }

  function CleanupOldJobs(m: Manager, retentionDays: int, now: int): Manager {
    var gone := StaleIds(m, now - Days(retentionDays));
    m.(jobs := m.jobs - gone, order := Retain(m.order, (m.jobs - gone).Keys))
  }

  /** The clock is read for the check and again for the cutoff. */
  function CleanupIfNeeded(p: Policy, m: Manager, tCheck: int, tSweep: int): Manager {
    if tCheck - m.lastCleanup < p.Interval() then m
    else CleanupOldJobs(m, p.retentionDays, tSweep).(lastCleanup := tCheck)
  }

  function CreateJob(p: Policy, m: Manager, id: JobId, tCreate: int, tCheck: int, tSweep: int): Manager {
    var j := Job(id, PENDING, None, None, tCreate, None, None);
    CleanupIfNeeded(p, Put(m, id, j).(order := m.order + [id]), tCheck, tSweep)
  }

  // ---------------------------------------------------------------------------------------------
  // Runs
  // ---------------------------------------------------------------------------------------------

  datatype Call =
    | Create(id: JobId, tCreate: int, tCheck: int, tSweep: int)
    | Start(id: JobId, now: int)
    | Complete(id: JobId, result: string, now: int)
    | Fail(id: JobId, error: string, now: int)
    | CancelCall(id: JobId, now: int)
    | Update(id: JobId, to: Option<Status>, newResult: Option<string>, newError: Option<string>, now: int)
    | Cleanup(retentionDays: int, now: int)

  function Begins(c: Call): int { if c.Create? then c.tCreate else c.now }

  function Ends(c: Call): int { if c.Create? then c.tSweep else c.now }

  /** A manager together with what surrounds it: the clock and the ids generated so far. */
  datatype World = World(m: Manager, clock: int, minted: set<JobId>)

  function Birth(now: int): World { World(Fresh(now), now, {}) }

  predicate Enabled(w: World, c: Call) {
    w.clock <= Begins(c) && (c.Create? ==> c.id !in w.minted && c.tCreate <= c.tCheck <= c.tSweep)
  }

  function Apply(p: Policy, m: Manager, c: Call): Manager {
    match c
    case Create(id, t1, t2, t3) => CreateJob(p, m, id, t1, t2, t3)
    case Start(id, now) => StartJob(m, id, now).0
    case Complete(id, result, now) => CompleteJob(m, id, result, now).0
    case Fail(id, error, now) => FailJob(m, id, error, now).0
    case CancelCall(id, now) => CancelJob(m, id, now).0
    case Update(id, to, result, error, now) => UpdateJobStatus(m, id, to, result, error, now).0
    case Cleanup(days, now) => CleanupOldJobs(m, days, now)
  }

  function Step(p: Policy, w: World, c: Call): World {
    World(Apply(p, w.m, c), Ends(c), if c.Create? then w.minted + {c.id} else w.minted)
  }

  predicate Legal(p: Policy, w: World, cs: seq<Call>)
    decreases |cs|
  {
    cs == [] || (Enabled(w, cs[0]) && Legal(p, Step(p, w, cs[0]), cs[1..]))
  }

  function Run(p: Policy, w: World, cs: seq<Call>): World
    decreases |cs|
  {
    if cs == [] then w else Run(p, Step(p, w, cs[0]), cs[1..])
  }

  // ---------------------------------------------------------------------------------------------
  // Invariant
  // ---------------------------------------------------------------------------------------------

  predicate JobOk(j: Job, clock: int) {
    && (j.completedAt.Some? <==> j.status.Terminal())
    && (j.status.RUNNING? ==> j.startedAt.Some?) && (j.status.PENDING? ==> j.startedAt.None?)
    && j.createdAt <= clock
    && (j.startedAt.Some? ==> j.createdAt <= j.startedAt.value <= clock)
    && (j.completedAt.Some? ==> j.createdAt <= j.completedAt.value <= clock)
    && (j.startedAt.Some? && j.completedAt.Some? ==> j.startedAt.value <= j.completedAt.value)
  }

  ghost predicate JobsOk(w: World) {
    && w.m.lastCleanup <= w.clock
    && (forall id :: id in w.m.jobs ==> id in w.minted && w.m.jobs[id].id == id && JobOk(w.m.jobs[id], w.clock))
  }

  ghost predicate OrderOk(m: Manager) {
    && Distinct(m.order)
    && (forall id :: id in m.order <==> id in m.jobs)
  }

  predicate NoticeAgrees(n: Notice, j: Job) {
    if n.JobCompleted? then j.status == COMPLETED && j.result == Some(n.result)
    else j.status == FAILED && j.error == Some(n.error)
  }

  ghost predicate NoticesOk(w: World) {
    && (forall i :: 0 <= i < |w.m.published| ==> w.m.published[i].id in w.minted)
    && (forall i, j :: 0 <= i < j < |w.m.published| ==> w.m.published[i].id != w.m.published[j].id)
    && (forall i :: 0 <= i < |w.m.published| && w.m.published[i].id in w.m.jobs ==>
          NoticeAgrees(w.m.published[i], w.m.jobs[w.m.published[i].id]))
  }

  ghost predicate Inv(w: World) { JobsOk(w) && OrderOk(w.m) && NoticesOk(w) }

  /** What any call may do to one stored job. */
  predicate JobEvolves(j: Job, j': Job) {
    && j'.id == j.id && j'.createdAt == j.createdAt
    && (j.status.Terminal() ==> j' == j)
    && (j.startedAt.Some? ==> j'.startedAt == j.startedAt)
    && (j'.status != j.status ==>
          (j.status.PENDING? && !j'.status.PENDING?) || (j.status.RUNNING? && j'.status.Terminal()))
  }

  /** The calls that touch a single job. */
  predicate Single(c: Call) { !c.Create? && !c.Cleanup? }

  lemma SingleCallShape(p: Policy, w: World, c: Call)
    requires JobsOk(w) && Enabled(w, c) && Single(c)
    ensures var m' := Apply(p, w.m, c);
      && m'.jobs.Keys == w.m.jobs.Keys && m'.order == w.m.order && m'.lastCleanup == w.m.lastCleanup
      && (forall id :: id in w.m.jobs && id != c.id ==> m'.jobs[id] == w.m.jobs[id])
      && (c.id in w.m.jobs ==> JobEvolves(w.m.jobs[c.id], m'.jobs[c.id]) && JobOk(m'.jobs[c.id], c.now))
      && (m'.published != w.m.published ==>
            && c.id in w.m.jobs && !w.m.jobs[c.id].status.Terminal()
            && exists n: Notice ::
                 n.id == c.id && m'.published == w.m.published + [n] && NoticeAgrees(n, m'.jobs[c.id]))
  {
    if c.Complete? {
      assert JobCompleted(c.id, c.result).id == c.id;
    } else if c.Fail? {
      assert JobFailed(c.id, c.error).id == c.id;
    }
  }

  lemma SingleCallOk(p: Policy, w: World, c: Call)
    requires Inv(w) && Enabled(w, c) && Single(c)
    ensures Inv(Step(p, w, c))
  {
    hide Apply, JobOk, NoticeAgrees;
    SingleCallShape(p, w, c);
    var w' := Step(p, w, c);
    forall id | id in w'.m.jobs ensures JobOk(w'.m.jobs[id], w'.clock) {
      if id != c.id {
        JobOkLater(w.m.jobs[id], w.clock, w'.clock);
      }
    }
    SingleCallNotices(p, w, c);
  }

  lemma JobOkLater(j: Job, t: int, t': int)
    requires JobOk(j, t) && t <= t'
    ensures JobOk(j, t')
  {
  }

  lemma SingleCallNotices(p: Policy, w: World, c: Call)
    requires Inv(w) && Enabled(w, c) && Single(c)
    ensures NoticesOk(Step(p, w, c))
  {
    hide Apply, JobOk, OrderOk;
    SingleCallShape(p, w, c);
    var w' := Step(p, w, c);
    var before, after := w.m.published, w'.m.published;
    forall i | 0 <= i < |before| && before[i].id in w.m.jobs
      ensures NoticeAgrees(before[i], w'.m.jobs[before[i].id])
      ensures w.m.jobs[before[i].id].status.Terminal()
    {
      assert NoticeAgrees(before[i], w.m.jobs[before[i].id]);
    }
    if after != before {
      var n: Notice :| n.id == c.id && after == before + [n] && NoticeAgrees(n, w'.m.jobs[c.id]);
    }
  }

  lemma CleanupOk(w: World, retentionDays: int, now: int)
    requires Inv(w) && w.clock <= now
    ensures Inv(World(CleanupOldJobs(w.m, retentionDays, now), now, w.minted))
  {
    hide JobOk, NoticeAgrees, Stale;
    var m' := CleanupOldJobs(w.m, retentionDays, now);
    RetainDistinct(w.m.order, m'.jobs.Keys);
    RetainMembers(w.m.order, m'.jobs.Keys);
    forall id | id in m'.jobs ensures JobOk(m'.jobs[id], now) {
      JobOkLater(w.m.jobs[id], w.clock, now);
    }
  }

  /** The manager right after a job has been added, before any cleanup. */
  function Added(m: Manager, id: JobId, tCreate: int): Manager {
    Put(m, id, Job(id, PENDING, None, None, tCreate, None, None)).(order := m.order + [id])
  }

  lemma AddedOk(w: World, id: JobId, tCreate: int)
    requires Inv(w) && w.clock <= tCreate && id !in w.minted
    ensures Inv(World(Added(w.m, id, tCreate), tCreate, w.minted + {id}))
  {
    hide NoticeAgrees;
    assert Distinct(w.m.order + [id]);
  }

  lemma StepOk(p: Policy, w: World, c: Call)
    requires Inv(w) && Enabled(w, c)
    ensures Inv(Step(p, w, c))
  {
    hide Inv, CleanupOldJobs;
    match c {
      case Create(id, t1, t2, t3) =>
        AddedOk(w, id, t1);
        CleanupIfNeededOk(p, World(Added(w.m, id, t1), t1, w.minted + {id}), t2, t3);
      case Cleanup(days, now) => CleanupOk(w, days, now);
      case _ => SingleCallOk(p, w, c);
    }
  }

  lemma CleanupIfNeededOk(p: Policy, w: World, t2: int, t3: int)
    requires Inv(w) && w.clock <= t2 <= t3
    ensures Inv(World(CleanupIfNeeded(p, w.m, t2, t3), t3, w.minted))
  {
    hide JobOk, NoticeAgrees, CleanupOldJobs;
    if t2 - w.m.lastCleanup >= p.Interval() {
      CleanupOk(w, p.retentionDays, t3);
    } else {
      forall id | id in w.m.jobs ensures JobOk(w.m.jobs[id], t3) {
        JobOkLater(w.m.jobs[id], w.clock, t3);
      }
    }
  }

  lemma {:induction false} RunOk(p: Policy, w: World, cs: seq<Call>)
    requires Inv(w) && Legal(p, w, cs)
    ensures Inv(Run(p, w, cs))
    decreases |cs|
  {
    hide Inv, Step, Enabled;
    if cs != [] {
      StepOk(p, w, cs[0]);
      RunOk(p, Step(p, w, cs[0]), cs[1..]);
    }
  }

  lemma BirthOk(now: int)
    ensures Inv(Birth(now))
  {
  }

  // ---------------------------------------------------------------------------------------------
  // What runs guarantee
  // ---------------------------------------------------------------------------------------------

  ghost predicate Reachable(p: Policy, w: World) {
    exists t0, cs :: Legal(p, Birth(t0), cs) && Run(p, Birth(t0), cs) == w
  }

  lemma ReachableOk(p: Policy, w: World)
    requires Reachable(p, w)
    ensures Inv(w)
  {
    var t0, cs :| Legal(p, Birth(t0), cs) && Run(p, Birth(t0), cs) == w;
    BirthOk(t0);
    RunOk(p, Birth(t0), cs);
  }

  lemma TimestampsAreOrdered(p: Policy, w: World, id: JobId)
    requires Reachable(p, w) && id in w.m.jobs
    ensures var j := w.m.jobs[id];
      && (j.completedAt.Some? <==> j.status.Terminal())
      && (j.status.RUNNING? ==> j.startedAt.Some?)
      && (j.startedAt.Some? ==> j.createdAt <= j.startedAt.value)
      && (j.completedAt.Some? ==> j.createdAt <= j.completedAt.value)
      && (j.startedAt.Some? && j.completedAt.Some? ==> j.startedAt.value <= j.completedAt.value)
  {
    ReachableOk(p, w);
    assert JobOk(w.m.jobs[id], w.clock);
  }

  /** At most one completed or failed event is published per job, and it tells the job's final status. */
  lemma OneNoticePerJob(p: Policy, w: World, i: nat, j: nat)
    requires Reachable(p, w) && i < |w.m.published| && j < |w.m.published|
    ensures w.m.published[i].id == w.m.published[j].id <==> i == j
    ensures w.m.published[i].id in w.m.jobs ==> NoticeAgrees(w.m.published[i], w.m.jobs[w.m.published[i].id])
  {
    ReachableOk(p, w);
  }

  lemma StepEvolves(p: Policy, w: World, c: Call, id: JobId)
    requires Inv(w) && Enabled(w, c) && id in w.m.jobs
    ensures var m' := Apply(p, w.m, c);
      && (id in m'.jobs ==> JobEvolves(w.m.jobs[id], m'.jobs[id]))
      && (id !in m'.jobs ==> w.m.jobs[id].status.Terminal())
  {
    hide JobOk, OrderOk, NoticesOk;
    if Single(c) {
      SingleCallShape(p, w, c);
    }
  }

  lemma StepNeverRevives(p: Policy, w: World, c: Call, id: JobId)
    requires Inv(w) && Enabled(w, c) && id in w.minted && id !in w.m.jobs
    ensures id in Step(p, w, c).minted && id !in Apply(p, w.m, c).jobs
  {
    hide JobOk, OrderOk, NoticesOk;
    if Single(c) {
      SingleCallShape(p, w, c);
    }
  }

  lemma {:induction false} RunNeverRevives(p: Policy, w: World, cs: seq<Call>, id: JobId)
    requires Inv(w) && Legal(p, w, cs) && id in w.minted && id !in w.m.jobs
    ensures id !in Run(p, w, cs).m.jobs
    decreases |cs|
  {
    hide Inv, Enabled, Apply;
    if cs != [] {
      StepOk(p, w, cs[0]);
      StepNeverRevives(p, w, cs[0], id);
      RunNeverRevives(p, Step(p, w, cs[0]), cs[1..], id);
    }
  }

  /** A terminal job is final for as long as it is kept; a job that disappears had ended. */
  lemma {:induction false} TerminalIsFinal(p: Policy, w: World, cs: seq<Call>, id: JobId)
    requires Inv(w) && Legal(p, w, cs) && id in w.m.jobs && w.m.jobs[id].status.Terminal()
    ensures id in Run(p, w, cs).m.jobs ==> Run(p, w, cs).m.jobs[id] == w.m.jobs[id]
    decreases |cs|
  {
    hide Inv, Enabled, Apply;
    if cs != [] {
      StepOk(p, w, cs[0]);
      StepEvolves(p, w, cs[0], id);
      var w1 := Step(p, w, cs[0]);
      if id in w1.m.jobs {
        TerminalIsFinal(p, w1, cs[1..], id);
      } else {
        MintedStays(p, w, cs[0], id);
        RunNeverRevives(p, w1, cs[1..], id);
      }
    }
  }

  lemma MintedStays(p: Policy, w: World, c: Call, id: JobId)
    requires Inv(w) && id in w.m.jobs
    ensures id in Step(p, w, c).minted
  {
  }

  // ---------------------------------------------------------------------------------------------
  // Retention
  // ---------------------------------------------------------------------------------------------

  ghost predicate Retained(p: Policy, m: Manager) {
    forall id :: id in m.jobs && m.jobs[id].status.Terminal() ==>
      m.jobs[id].completedAt.Some? && m.jobs[id].completedAt.value >= m.lastCleanup - p.Retention()
  }

  lemma StepRetains(p: Policy, w: World, c: Call)
    requires p.retentionDays >= 0 && Inv(w) && Enabled(w, c) && Retained(p, w.m)
    ensures Retained(p, Apply(p, w.m, c))
  {
    hide OrderOk, NoticesOk;
    if Single(c) {
      SingleCallRetains(p, w, c);
    }
  }

  lemma SingleCallRetains(p: Policy, w: World, c: Call)
    requires p.retentionDays >= 0 && Inv(w) && Enabled(w, c) && Single(c) && Retained(p, w.m)
    ensures Retained(p, Apply(p, w.m, c))
  {
    hide OrderOk, NoticesOk;
    SingleCallShape(p, w, c);
    if c.id in w.m.jobs {
      var j' := Apply(p, w.m, c).jobs[c.id];
      assert j' == w.m.jobs[c.id] || (j'.status.Terminal() ==> j'.completedAt == Some(c.now));
    }
  }

  lemma {:induction false} RunRetains(p: Policy, w: World, cs: seq<Call>)
    requires p.retentionDays >= 0 && Inv(w) && Legal(p, w, cs) && Retained(p, w.m)
    ensures Retained(p, Run(p, w, cs).m)
    decreases |cs|
  {
    hide Inv, Enabled, Apply;
    if cs != [] {
      StepOk(p, w, cs[0]);
      StepRetains(p, w, cs[0]);
      RunRetains(p, Step(p, w, cs[0]), cs[1..]);
    }
  }

  /** Every stored terminal job completed no earlier than one retention period before the last cleanup, in
      every reachable state, exactly when the retention period is not negative. */
  lemma RetentionBoundIff(p: Policy)
    ensures p.retentionDays >= 0 <==> forall w :: Reachable(p, w) ==> Retained(p, w.m)
  {
    if p.retentionDays >= 0 {
      forall w | Reachable(p, w) ensures Retained(p, w.m) {
        var t0, cs :| Legal(p, Birth(t0), cs) && Run(p, Birth(t0), cs) == w;
        BirthOk(t0);
        RunRetains(p, Birth(t0), cs);
      }
    } else {
      var w := FinishedAtOnce(p);
      assert w.m.jobs[0].status.Terminal() && w.m.jobs[0].completedAt == Some(0);
    }
  }

  /** A job created and completed at time 0. */
  lemma FinishedAtOnce(p: Policy) returns (w: World)
    ensures Reachable(p, w) && w.clock == 0 && w.minted == {0} && w.m.lastCleanup == 0
    ensures w.m.jobs == map[0 := Job(0, COMPLETED, Some(""), None, 0, None, Some(0))]
  {
    var create, complete := Create(0, 0, 0, 0), Complete(0, "", 0);
    var w1 := Step(p, Birth(0), create);
    w := Step(p, w1, complete);
    assert w1.m.jobs == map[0 := Job(0, PENDING, None, None, 0, None, None)];
    var cs := [create, complete];
    assert cs[1..] == [complete] && [complete][1..] == [];
    assert Legal(p, w, []) && Legal(p, w1, [complete]);
    assert Legal(p, Birth(0), cs);
    assert Run(p, w1, [complete]) == Run(p, w, []) == w;
    assert Run(p, Birth(0), cs) == w;
  }

  /** Stored terminal jobs are younger than retention plus interval right after a job is created. */
  ghost predicate Young(p: Policy, m: Manager, tCheck: int) {
    forall id :: id in m.jobs && m.jobs[id].status.Terminal() ==>
      m.jobs[id].completedAt.Some? && m.jobs[id].completedAt.value > tCheck - (p.Retention() + p.Interval())
  }

  lemma CreateLeavesYoung(p: Policy, w: World, id: JobId, t1: int, t2: int, t3: int)
    requires p.retentionDays >= 0 && p.cleanupIntervalHours > 0
    requires Reachable(p, w) && Enabled(w, Create(id, t1, t2, t3))
    ensures Young(p, CreateJob(p, w.m, id, t1, t2, t3), t2)
  {
    ReachableOk(p, w);
    RetentionBoundIff(p);
    StepRetains(p, w, Create(id, t1, t2, t3));
    CreateRetains(p, w, id, t1, t2, t3);
  }

  lemma CreateRetains(p: Policy, w: World, id: JobId, t1: int, t2: int, t3: int)
    requires p.cleanupIntervalHours > 0 && Retained(p, CreateJob(p, w.m, id, t1, t2, t3))
    ensures Young(p, CreateJob(p, w.m, id, t1, t2, t3), t2)
  {
    hide CleanupOldJobs;
    var m' := CreateJob(p, w.m, id, t1, t2, t3);
    assert m'.lastCleanup > t2 - p.Interval();
  }

  /** The strict bound holds after every creation in every run exactly when the cleanup interval is positive:
      with none, a job completed exactly one retention period ago survives. */
  lemma YoungIff(p: Policy)
    requires p.retentionDays >= 0
    ensures p.cleanupIntervalHours > 0 <==>
      forall w, id, t1, t2, t3 :: Reachable(p, w) && Enabled(w, Create(id, t1, t2, t3)) ==>
        Young(p, CreateJob(p, w.m, id, t1, t2, t3), t2)
  {
    if p.cleanupIntervalHours > 0 {
      forall w, id, t1, t2, t3 | Reachable(p, w) && Enabled(w, Create(id, t1, t2, t3))
        ensures Young(p, CreateJob(p, w.m, id, t1, t2, t3), t2)
      {
        CreateLeavesYoung(p, w, id, t1, t2, t3);
      }
    } else {
      var w := FinishedAtOnce(p);
      var t := p.Retention();
      var create := Create(1, t, t, t);
      assert Enabled(w, create);
      assert !Young(p, CreateJob(p, w.m, 1, t, t, t), t) by {
        var m' := CreateJob(p, w.m, 1, t, t, t);
        assert 0 in m'.jobs && m'.jobs[0].status.Terminal() && m'.jobs[0].completedAt == Some(0);
      }
    }
  }
}
