/** What becomes of a stored job over a run of manager calls: which call ends it, and which cleanup removes it. */
module JobHistory {
  import opened Prelude
  import opened JobLifecycle

  // ---------------------------------------------------------------------------------------------
  // Removal
  // ---------------------------------------------------------------------------------------------

  /** The time before which a call removes ended jobs: a cleanup takes the days it is given, a creation the policy's
      if the interval has passed since the last cleanup. */
  function Cutoff(p: Policy, w: World, c: Call): Option<int> {
    match c
    case Cleanup(days, now) => Some(now - days * 86400)
    case Create(_, _, tCheck, tSweep) =>
      if tCheck - w.m.lastCleanup >= p.cleanupIntervalHours * 3600 then Some(tSweep - p.retentionDays * 86400) else None
    case _ => None
  }

  /** The call finds the job ended before its cutoff. */
  predicate Outdates(p: Policy, w: World, c: Call, id: JobId) {
    && id in w.m.jobs && w.m.jobs[id].completedAt.Some?
    && Cutoff(p, w, c).Some? && w.m.jobs[id].completedAt.value < Cutoff(p, w, c).value
  }

  lemma CallRemovesIff(p: Policy, w: World, c: Call, id: JobId)
    requires Inv(w) && Enabled(w, c) && id in w.m.jobs
    ensures id !in Apply(p, w.m, c).jobs <==> Outdates(p, w, c, id)
  {
    hide OrderOk, NoticesOk;
    assert JobOk(w.m.jobs[id], w.clock);
    if Single(c) {
      hide JobOk, Apply;
      SingleCallShape(p, w, c);
    }
  }

  /** The last cleanup is the check of the last creation that found the interval passed; a cleanup by itself does not
      count as one. */
  lemma LastCleanupMoves(p: Policy, w: World, c: Call)
    requires Inv(w) && Enabled(w, c)
    ensures Apply(p, w.m, c).lastCleanup == if c.Create? && Cutoff(p, w, c).Some? then c.tCheck else w.m.lastCleanup
  {
    hide OrderOk, NoticesOk, JobOk;
    if Single(c) {
      hide Apply;
      SingleCallShape(p, w, c);
    }
  }

  /** Over every run a stored job is gone exactly if some call on the way found it ended before its cutoff; a job
      that is never outdated is kept. */
  lemma {:induction false} GoneIffOutdated(p: Policy, w: World, cs: seq<Call>, id: JobId)
    requires Inv(w) && Legal(p, w, cs) && id in w.m.jobs
    ensures id !in Run(p, w, cs).m.jobs <==> exists i :: 0 <= i < |cs| && Outdates(p, Run(p, w, cs[..i]), cs[i], id)
    decreases |cs|
  {
    hide Inv, Enabled, Apply, Outdates;
    if cs != [] {
      var w1, rest := Step(p, w, cs[0]), cs[1..];
      StepOk(p, w, cs[0]);
      CallRemovesIff(p, w, cs[0], id);
      MintedStays(p, w, cs[0], id);
      assert cs[..0] == [] && Run(p, w, cs[..0]) == w;
      forall i | 0 < i < |cs| ensures Run(p, w, cs[..i]) == Run(p, w1, rest[..i - 1]) && cs[i] == rest[i - 1] {
        assert cs[..i][1..] == rest[..i - 1];
      }
      if id in w1.m.jobs {
        GoneIffOutdated(p, w1, rest, id);
        OutdatedLater(p, w, cs, id);
      } else {
        RunNeverRevives(p, w1, rest, id);
        assert Outdates(p, Run(p, w, cs[..0]), cs[0], id);
      }
    }
  }

  lemma OutdatedLater(p: Policy, w: World, cs: seq<Call>, id: JobId)
    requires cs != [] && !Outdates(p, w, cs[0], id)
    ensures (exists i :: 0 <= i < |cs| && Outdates(p, Run(p, w, cs[..i]), cs[i], id)) <==>
      exists i :: 0 <= i < |cs[1..]| && Outdates(p, Run(p, Step(p, w, cs[0]), cs[1..][..i]), cs[1..][i], id)
  {
    hide Outdates, Step;
    var w1, rest := Step(p, w, cs[0]), cs[1..];
    assert cs[..0] == [] && Run(p, w, cs[..0]) == w;
    if i :| 0 <= i < |cs| && Outdates(p, Run(p, w, cs[..i]), cs[i], id) {
      assert i > 0;
      assert cs[..i][1..] == rest[..i - 1];
      assert Outdates(p, Run(p, w1, rest[..i - 1]), rest[i - 1], id);
    }
    if i :| 0 <= i < |rest| && Outdates(p, Run(p, w1, rest[..i]), rest[i], id) {
      assert cs[..i + 1][1..] == rest[..i];
      assert Outdates(p, Run(p, w, cs[..i + 1]), cs[i + 1], id);
    }
  }

  /** For a job that has ended the time is settled: it is gone exactly if some cutoff on the way lay above it. */
  lemma EndedJobKeptIff(p: Policy, w: World, cs: seq<Call>, id: JobId)
    requires Inv(w) && Legal(p, w, cs) && id in w.m.jobs && w.m.jobs[id].status.Terminal()
    ensures w.m.jobs[id].completedAt.Some?
    ensures id in Run(p, w, cs).m.jobs <==>
      forall i :: 0 <= i < |cs| && id in Run(p, w, cs[..i]).m.jobs ==>
        var cutoff := Cutoff(p, Run(p, w, cs[..i]), cs[i]);
        cutoff.None? || cutoff.value <= w.m.jobs[id].completedAt.value
    ensures id in Run(p, w, cs).m.jobs ==> Run(p, w, cs).m.jobs[id] == w.m.jobs[id]
  {
    assert JobOk(w.m.jobs[id], w.clock);
    GoneIffOutdated(p, w, cs, id);
    TerminalIsFinal(p, w, cs, id);
    forall i | 0 <= i < |cs| && id in Run(p, w, cs[..i]).m.jobs
      ensures Run(p, w, cs[..i]).m.jobs[id] == w.m.jobs[id]
    {
      LegalPrefix(p, w, cs, i);
      TerminalIsFinal(p, w, cs[..i], id);
    }
  }

  lemma {:induction false} LegalPrefix(p: Policy, w: World, cs: seq<Call>, i: nat)
    requires Legal(p, w, cs) && i <= |cs|
    ensures Legal(p, w, cs[..i])
    decreases |cs|
  {
    hide Enabled, Step;
    if i > 0 {
      LegalPrefix(p, Step(p, w, cs[0]), cs[1..], i - 1);
      assert cs[..i][1..] == cs[1..][..i - 1];
    }
  }

  // ---------------------------------------------------------------------------------------------
  // Ending
  // ---------------------------------------------------------------------------------------------

  /** The call starts a job of the given status. */
  predicate Starts(c: Call, id: JobId, from: Status) {
    from == PENDING && !c.Create? && !c.Cleanup? && c.id == id && (c.Start? || (c.Update? && c.to == Some(RUNNING)))
  }

  /** The status in which the call ends a job that is pending or running, if it does. */
  function EndsIn(c: Call, id: JobId, from: Status): Option<Status> {
    if c.Create? || c.Cleanup? || c.id != id || from.Terminal() then None
    else
      match c
      case Complete(_, _, _) => Some(COMPLETED)
      case Fail(_, _, _) => Some(FAILED)
      case CancelCall(_, _) => Some(CANCELLED)
      case Update(_, to, _, _, _) =>
        if to == Some(CANCELLED) || (from == RUNNING && (to == Some(COMPLETED) || to == Some(FAILED))) then to else None
      case _ => None
  }

  /** The result and error a call brings along. */
  function Brings(c: Call): (Option<string>, Option<string>) {
    match c
    case Complete(_, result, _) => (Some(result), None)
    case Fail(_, error, _) => (None, Some(error))
    case Update(_, _, result, error, _) => (result, error)
    case _ => (None, None)
  }

  function Either(a: Option<string>, b: Option<string>): Option<string> { if a.Some? then a else b }

  /** What one call makes of a stored job that stays: it starts it, ends it, or leaves it exactly as it is. */
  lemma CallMakes(p: Policy, w: World, c: Call, id: JobId)
    requires Inv(w) && Enabled(w, c) && id in w.m.jobs && id in Apply(p, w.m, c).jobs
    ensures var j, j' := w.m.jobs[id], Apply(p, w.m, c).jobs[id];
      if Starts(c, id, j.status) then
        && j'.status == RUNNING && j'.startedAt == Some(c.now) && j'.completedAt == None
        && j'.result == Either(Brings(c).0, j.result) && j'.error == Either(Brings(c).1, j.error)
      else if EndsIn(c, id, j.status).Some? then
        && j'.status == EndsIn(c, id, j.status).value && j'.completedAt == Some(c.now) && j'.startedAt == j.startedAt
        && j'.result == Either(Brings(c).0, j.result) && j'.error == Either(Brings(c).1, j.error)
      else j' == j
  {
    hide OrderOk, NoticesOk, CleanupOldJobs;
    assert JobOk(w.m.jobs[id], w.clock);
    if c.Create? || c.Cleanup? {
      UntouchedByCleanup(p, w, c, id);
    }
  }

  lemma UntouchedByCleanup(p: Policy, w: World, c: Call, id: JobId)
    requires Inv(w) && Enabled(w, c) && id in w.m.jobs && id in Apply(p, w.m, c).jobs && (c.Create? || c.Cleanup?)
    ensures Apply(p, w.m, c).jobs[id] == w.m.jobs[id]
  {
    hide OrderOk, NoticesOk, JobOk, StaleIds;
  }

  /** The first call that ends a job decides its status, its time and, with what it brings, its result and error,
      for as long as the job is kept. */
  lemma FirstEndingCallDecides(p: Policy, w: World, c: Call, cs: seq<Call>, id: JobId)
    requires Inv(w) && Enabled(w, c) && Legal(p, Step(p, w, c), cs)
    requires id in w.m.jobs && EndsIn(c, id, w.m.jobs[id].status).Some?
    requires id in Run(p, Step(p, w, c), cs).m.jobs
    ensures var j, j' := w.m.jobs[id], Run(p, Step(p, w, c), cs).m.jobs[id];
      && j'.status == EndsIn(c, id, j.status).value && j'.completedAt == Some(c.now)
      && j'.result == Either(Brings(c).0, j.result) && j'.error == Either(Brings(c).1, j.error)
  {
    hide Inv, Enabled, Run, Legal;
    StepOk(p, w, c);
    SingleKeeps(p, w, c, id);
    CallMakes(p, w, c, id);
    TerminalIsFinal(p, Step(p, w, c), cs, id);
  }

  lemma SingleKeeps(p: Policy, w: World, c: Call, id: JobId)
    requires Inv(w) && Enabled(w, c) && id in w.m.jobs && EndsIn(c, id, w.m.jobs[id].status).Some?
    ensures id in Apply(p, w.m, c).jobs && !Starts(c, id, w.m.jobs[id].status)
  {
    hide Apply, JobOk;
    SingleCallShape(p, w, c);
  }

  /** A created job is pending, with nothing set but its creation time. */
  lemma CreateMakes(p: Policy, w: World, id: JobId, t1: int, t2: int, t3: int)
    requires Inv(w) && Enabled(w, Create(id, t1, t2, t3))
    ensures var m' := CreateJob(p, w.m, id, t1, t2, t3);
      && id in m'.jobs && m'.jobs[id] == Job(id, PENDING, None, None, t1, None, None)
      && m'.published == w.m.published
  {
    hide JobOk, OrderOk, NoticesOk;
  }

  /** A notice is published exactly by a `complete_job` or `fail_job` that ends its job, with what the call brings. */
  lemma NoticesMade(p: Policy, w: World, c: Call)
    requires Inv(w) && Enabled(w, c)
    ensures Apply(p, w.m, c).published == w.m.published +
      if c.Complete? && c.id in w.m.jobs && !w.m.jobs[c.id].status.Terminal() then [JobCompleted(c.id, c.result)]
      else if c.Fail? && c.id in w.m.jobs && !w.m.jobs[c.id].status.Terminal() then [JobFailed(c.id, c.error)]
      else []
  {
    hide JobOk, OrderOk, NoticesOk;
  }

  /** The answer of a call on one job: true exactly if it started or ended the job. */
  lemma AnswerIff(m: Manager, c: Call)
    requires Single(c)
    ensures Answer(m, c) <==>
      c.id in m.jobs && (Starts(c, c.id, m.jobs[c.id].status) || EndsIn(c, c.id, m.jobs[c.id].status).Some?)
  {
  }

  function Answer(m: Manager, c: Call): bool
    requires Single(c)
  {
    match c
    case Start(id, now) => StartJob(m, id, now).1
    case Complete(id, result, now) => CompleteJob(m, id, result, now).1
    case Fail(id, error, now) => FailJob(m, id, error, now).1
    case CancelCall(id, now) => CancelJob(m, id, now).1
    case Update(id, to, result, error, now) => UpdateJobStatus(m, id, to, result, error, now).1
  }
}
