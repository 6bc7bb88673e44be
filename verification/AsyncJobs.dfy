/** The asyncio job protocol: any number of `process_job` and `cancel_job` coroutines interleaving at their
    awaits over a store that hands out the stored job objects themselves. */
module AsyncJobs {
  import opened Prelude

  type JobId = nat
  type Cid = nat

  datatype JobType = Summarization | SentimentAnalysis | DatasetProfiling

  datatype Status = Pending | Running | Completed | Failed | Cancelled
  {
    predicate Terminal() { Completed? || Failed? || Cancelled? }

    function Name(): string {
      match this
      case Pending => "pending"
      case Running => "running"
      case Completed => "completed"
      case Failed => "failed"
      case Cancelled => "cancelled"
    }
  }

  datatype TaskResult = TaskResult(success: bool, data: string, error: Option<string>)

  function Failure(error: string): TaskResult { TaskResult(false, "", Some(error)) }

  /** `trail` records every status the job has had, in order; it is observation, not behaviour. */
  datatype Job = Job(jobType: JobType, status: Status, result: Option<TaskResult>, trail: seq<Status>)
  {
    function Become(s: Status): Job { this.(status := s, trail := trail + [s]) }
  }

  function NewJob(t: JobType): Job { Job(t, Pending, None, [Pending]) }

  /** What a transition method does: change the job, or raise `ValueError`. */
  datatype Attempt = Moved(job: Job) | Refused(error: string)

  function WrongStatus(expected: Status, got: Status): string {
    "Expected status '" + expected.Name() + "', got '" + got.Name() + "'."
  }

  function MarkRunning(j: Job): Attempt {
    if j.status != Pending then Refused(WrongStatus(Pending, j.status)) else Moved(j.Become(Running))
  }

  function MarkCompleted(j: Job, r: TaskResult): Attempt {
    if j.status != Running then Refused(WrongStatus(Running, j.status))
    else Moved(j.Become(Completed).(result := Some(r)))
  }

  function MarkFailed(j: Job, error: string): Attempt {
    if j.status != Running then Refused(WrongStatus(Running, j.status))
    else Moved(j.Become(Failed).(result := Some(Failure(error))))
  }

  function Cancel(j: Job): Attempt {
    if j.status != Pending && j.status != Running then Refused("Cannot cancel job in status '" + j.status.Name() + "'.")
    else Moved(j.Become(Cancelled))
  }

  /** Where a coroutine is suspended, or how it ended. */
  datatype Phase =
    | Loading | Validating | Starting | Executing | Finishing   // process_job
    | Returned | Raised(error: string) | NotFound | Interrupted(owner: bool)
    | CancelLoading | CancelUpdating | CancelReturned            // cancel_job

  predicate Ended(p: Phase) {
    p.Returned? || p.Raised? || p.NotFound? || p.Interrupted? || p.CancelReturned?
  }

  /** The coroutine that moved the job to RUNNING and has not left `task.execute` normally. */
  predicate Owner(p: Phase) { p.Starting? || p.Executing? || p == Interrupted(true) }

  datatype Coroutine = Coroutine(jobId: JobId, phase: Phase)

  datatype Validation = Valid | InvalidPayload(error: string) | ValidationCrash(error: string)

  datatype Outcome = Produced(result: TaskResult) | RaisedValueError(error: string) | Crashed(error: string)

  /** `starts` counts, per job, how often `task.execute` was entered. */
  datatype Engine = Engine(
    registry: set<JobType>,
    jobs: map<JobId, Job>,
    coroutines: map<Cid, Coroutine>,
    starts: map<JobId, nat>)

  function Boot(registry: set<JobType>): Engine { Engine(registry, map[], map[], map[]) }

  datatype Event =
    | Submit(id: JobId, jobType: JobType)
    | CallProcess(c: Cid, id: JobId)
    | CallCancel(c: Cid, id: JobId)
    | Loaded(c: Cid)
    | Validated(c: Cid, v: Validation)
    | StartSaved(c: Cid)
    | Executed(c: Cid, o: Outcome)
    | FinishSaved(c: Cid)
    | CancelLoaded(c: Cid)
    | CancelSaved(c: Cid)
    | Interrupt(c: Cid)

  predicate At(s: Engine, c: Cid, p: Phase) { c in s.coroutines && s.coroutines[c].phase == p }

  predicate Enabled(s: Engine, e: Event) {
    match e
    case Submit(id, _) => id !in s.jobs
    case CallProcess(c, _) => c !in s.coroutines
    case CallCancel(c, _) => c !in s.coroutines
    case Loaded(c) => At(s, c, Loading)
    case Validated(c, _) => At(s, c, Validating)
    case StartSaved(c) => At(s, c, Starting)
    case Executed(c, _) => At(s, c, Executing)
    case FinishSaved(c) => At(s, c, Finishing)
    case CancelLoaded(c) => At(s, c, CancelLoading)
    case CancelSaved(c) => At(s, c, CancelUpdating)
    case Interrupt(c) => c in s.coroutines && !Ended(s.coroutines[c].phase)
  }

  /** `_fail_job` on the way out of an exception handler: the job and the phase it leads to. */
  function FailJob(j: Job, error: string): (Job, Phase) {
    var j := if j.status == Pending then j.Become(Running) else j;
    match MarkFailed(j, error)
    case Moved(j') => (j', Finishing)
    case Refused(m) => (j, Raised(m))
  }

  function NoTask(t: JobType): string {
    "No task registered for job type '" +
    (match t case Summarization => "summarization" case SentimentAnalysis => "sentiment_analysis"
             case DatasetProfiling => "dataset_profiling") + "'."
  }

  function AfterLoad(registry: set<JobType>, j: Job): (Job, Phase) {
    if j.jobType in registry then (j, Validating) else FailJob(j, NoTask(j.jobType))
  }

  function AfterValidation(j: Job, v: Validation): (Job, Phase) {
    match v
    case InvalidPayload(m) => FailJob(j, m)
    case ValidationCrash(m) => FailJob(j, "Unexpected error: " + m)
    case Valid =>
      match MarkRunning(j)
      case Moved(j') => (j', Starting)
      case Refused(m) => FailJob(j, m)
  }

  function TaskError(r: TaskResult): string {
    if r.error.Some? && r.error.value != "" then r.error.value else "Task returned failure without a message."
  }

  function AfterExecution(j: Job, o: Outcome): (Job, Phase) {
    match o
    case RaisedValueError(m) => FailJob(j, m)
    case Crashed(m) => FailJob(j, "Unexpected error: " + m)
    case Produced(r) =>
      match (if r.success then MarkCompleted(j, r) else MarkFailed(j, TaskError(r)))
      case Moved(j') => (j', Finishing)
      case Refused(m) => FailJob(j, m)
  }

  function AfterCancel(j: Job): (Job, Phase) {
    match Cancel(j)
    case Moved(j') => (j', CancelUpdating)
    case Refused(m) => (j, Raised(m))
  }

  function Goto(s: Engine, c: Cid, p: Phase): Engine
    requires c in s.coroutines
  {
    s.(coroutines := s.coroutines[c := s.coroutines[c].(phase := p)])
  }

  /** One coroutine runs to its next await, leaving its job as given. */
  function Advance(s: Engine, c: Cid, to: (Job, Phase)): Engine
    requires c in s.coroutines
  {
    Goto(s, c, to.1).(jobs := s.jobs[s.coroutines[c].jobId := to.0])
  }

  function Step(s: Engine, e: Event): Engine
    requires Enabled(s, e)
    requires e.Validated? || e.Executed? ==> s.coroutines[e.c].jobId in s.jobs
    requires e.StartSaved? ==> s.coroutines[e.c].jobId in s.starts
  {
    match e
    case Submit(id, t) => s.(jobs := s.jobs[id := NewJob(t)], starts := s.starts[id := 0])
    case CallProcess(c, id) => s.(coroutines := s.coroutines[c := Coroutine(id, Loading)])
    case CallCancel(c, id) => s.(coroutines := s.coroutines[c := Coroutine(id, CancelLoading)])
    case Loaded(c) =>
      var id := s.coroutines[c].jobId;
      if id !in s.jobs then Goto(s, c, NotFound) else Advance(s, c, AfterLoad(s.registry, s.jobs[id]))
    case Validated(c, v) => Advance(s, c, AfterValidation(s.jobs[s.coroutines[c].jobId], v))
    case StartSaved(c) =>
      var id := s.coroutines[c].jobId;
      Goto(s, c, Executing).(starts := s.starts[id := s.starts[id] + 1])
    case Executed(c, o) => Advance(s, c, AfterExecution(s.jobs[s.coroutines[c].jobId], o))
    case FinishSaved(c) => Goto(s, c, Returned)
    case CancelLoaded(c) =>
      var id := s.coroutines[c].jobId;
      if id !in s.jobs then Goto(s, c, NotFound) else Advance(s, c, AfterCancel(s.jobs[id]))
    case CancelSaved(c) => Goto(s, c, CancelReturned)
    case Interrupt(c) => Goto(s, c, Interrupted(Owner(s.coroutines[c].phase)))
  }

  // ---------------------------------------------------------------------------------------------
  // Invariant
  // ---------------------------------------------------------------------------------------------

  predicate Lifecycle(trail: seq<Status>) {
    || trail == [Pending] || trail == [Pending, Cancelled]
    || trail == [Pending, Running] || trail == [Pending, Running, Cancelled]
    || trail == [Pending, Running, Completed] || trail == [Pending, Running, Failed]
  }

  predicate JobOk(j: Job) {
    && Lifecycle(j.trail) && j.status == j.trail[|j.trail| - 1]
    && (j.result.Some? <==> j.status.Completed? || j.status.Failed?)
    && (j.result.Some? ==> j.result.value.success == j.status.Completed?)
  }

  /** What a suspended or finished coroutine knows about its job. */
  predicate PhaseOk(p: Phase, j: Job) {
    match p
    case Loading => true
    case CancelLoading => true
    case NotFound => true
    case Validating => true
    case Starting => j.status != Pending
    case Executing => j.status != Pending
    case Interrupted(owner) => owner ==> j.status != Pending
    case Finishing => j.status.Completed? || j.status.Failed?
    case Returned => j.status.Completed? || j.status.Failed?
    case Raised(_) => j.status.Terminal()
    case CancelUpdating => j.status.Cancelled?
    case CancelReturned => j.status.Cancelled?
  }

  predicate Detached(p: Phase) { p.Loading? || p.CancelLoading? || p.NotFound? || p == Interrupted(false) }

  ghost predicate CoroutineOk(s: Engine, k: Coroutine) {
    && (!Detached(k.phase) ==> k.jobId in s.jobs)
    && (k.jobId in s.jobs ==> PhaseOk(k.phase, s.jobs[k.jobId]))
  }

  ghost predicate Owns(s: Engine, c: Cid, id: JobId) {
    c in s.coroutines && s.coroutines[c].jobId == id && Owner(s.coroutines[c].phase)
  }

  ghost predicate StartsOk(s: Engine, id: JobId)
    requires id in s.jobs && id in s.starts
  {
    && s.starts[id] <= 1
    && (s.starts[id] == 1 ==> s.jobs[id].status != Pending)
    && (s.starts[id] == 1 ==>
          forall c :: c in s.coroutines && s.coroutines[c].phase.Starting? ==> s.coroutines[c].jobId != id)
    && (s.jobs[id].status == Running ==> exists c :: Owns(s, c, id))
  }

  ghost predicate Inv(s: Engine) {
    && s.starts.Keys == s.jobs.Keys
    && (forall id :: id in s.jobs ==> JobOk(s.jobs[id]))
    && (forall c :: c in s.coroutines ==> CoroutineOk(s, s.coroutines[c]))
    && (forall id :: id in s.jobs ==> StartsOk(s, id))
    && (forall c, d, id :: Owns(s, c, id) && Owns(s, d, id) ==> c == d)
  }

  /** A change of one job by one running coroutine, as every continuation makes it. */
  predicate Moves(j: Job, j': Job, p: Phase, p': Phase) {
    && JobOk(j') && j'.jobType == j.jobType
    && (j.status.Terminal() ==> j' == j)
    && (j.status != Pending ==> j'.status != Pending)
    && PhaseOk(p', j') && !Detached(p')
    && (Owner(p') ==> p.Validating? && j.status == Pending && p'.Starting?)
    && (j'.status == Running ==> Owner(p') || (j' == j && !Owner(p)))
  }

  lemma Extends(trail: seq<Status>, s: Status)
    requires Lifecycle(trail)
    requires match trail[|trail| - 1]
      case Pending => s.Running? || s.Cancelled?
      case Running => s.Terminal()
      case _ => false
    ensures Lifecycle(trail + [s])
  {
  }

  lemma FailJobMoves(j: Job, error: string, p: Phase)
    requires JobOk(j) && PhaseOk(p, j) && (p.Loading? || p.Validating? || p.Executing?)
    ensures var (j', p') := FailJob(j, error); Moves(j, j', p, p')
  {
    hide Lifecycle, WrongStatus;
    if j.status == Pending {
      Extends(j.trail, Running);
      Extends(j.Become(Running).trail, Failed);
    } else if j.status == Running {
      Extends(j.trail, Failed);
    }
  }

  lemma AfterLoadMoves(registry: set<JobType>, j: Job)
    requires JobOk(j)
    ensures var (j', p) := AfterLoad(registry, j); Moves(j, j', Loading, p)
  {
    hide Lifecycle, FailJob, NoTask;
    FailJobMoves(j, NoTask(j.jobType), Loading);
  }

  lemma AfterValidationMoves(j: Job, v: Validation)
    requires JobOk(j)
    ensures var (j', p) := AfterValidation(j, v); Moves(j, j', Validating, p)
  {
    hide Lifecycle, FailJob, WrongStatus, Moves;
    match v {
      case InvalidPayload(m) => FailJobMoves(j, m, Validating);
      case ValidationCrash(m) => FailJobMoves(j, "Unexpected error: " + m, Validating);
      case Valid =>
        if j.status == Pending {
          StartMoves(j);
        } else {
          FailJobMoves(j, WrongStatus(Pending, j.status), Validating);
        }
    }
  }

  lemma StartMoves(j: Job)
    requires JobOk(j) && j.status == Pending
    ensures Moves(j, j.Become(Running), Validating, Starting)
  {
    Extends(j.trail, Running);
  }

  lemma AfterExecutionMoves(j: Job, o: Outcome)
    requires JobOk(j) && j.status != Pending
    ensures var (j', p) := AfterExecution(j, o); Moves(j, j', Executing, p)
  {
    hide Lifecycle, FailJob, WrongStatus, Moves, TaskError;
    match o {
      case RaisedValueError(m) => FailJobMoves(j, m, Executing);
      case Crashed(m) => FailJobMoves(j, "Unexpected error: " + m, Executing);
      case Produced(r) =>
        if j.status == Running {
          FinishMoves(j, r);
        } else {
          FailJobMoves(j, WrongStatus(Running, j.status), Executing);
        }
    }
  }

  lemma FinishMoves(j: Job, r: TaskResult)
    requires JobOk(j) && j.status == Running
    ensures r.success ==> Moves(j, j.Become(Completed).(result := Some(r)), Executing, Finishing)
    ensures Moves(j, j.Become(Failed).(result := Some(Failure(TaskError(r)))), Executing, Finishing)
  {
    hide Lifecycle, TaskError;
    Extends(j.trail, Completed);
    Extends(j.trail, Failed);
  }

  lemma AfterCancelMoves(j: Job)
    requires JobOk(j)
    ensures var (j', p) := AfterCancel(j); Moves(j, j', CancelLoading, p)
  {
    hide Lifecycle;
    if !j.status.Terminal() {
      Extends(j.trail, Cancelled);
    }
  }

  /** An engine whose continuations keep to `Moves` stays sound. */
  lemma AdvanceOk(s: Engine, c: Cid, j': Job, p': Phase)
    requires Inv(s) && c in s.coroutines && s.coroutines[c].jobId in s.jobs
    requires Moves(s.jobs[s.coroutines[c].jobId], j', s.coroutines[c].phase, p')
    requires !s.coroutines[c].phase.Starting?
    ensures Inv(Advance(s, c, (j', p')))
  {
    hide JobOk;
    var id := s.coroutines[c].jobId;
    var s' := Advance(s, c, (j', p'));
    forall d | d in s'.coroutines ensures CoroutineOk(s', s'.coroutines[d]) {
      assert CoroutineOk(s, s.coroutines[d]);
    }
    OwnersAfter(s, c, j', p');
    forall i | i in s'.jobs ensures StartsOk(s', i) {
      AdvanceStarts(s, c, j', p', i);
    }
  }

  lemma OwnersAfter(s: Engine, c: Cid, j': Job, p': Phase)
    requires Inv(s) && c in s.coroutines && s.coroutines[c].jobId in s.jobs
    requires Moves(s.jobs[s.coroutines[c].jobId], j', s.coroutines[c].phase, p')
    ensures var s' := Advance(s, c, (j', p'));
      forall a, b, i :: Owns(s', a, i) && Owns(s', b, i) ==> a == b
  {
    hide JobOk;
    var s' := Advance(s, c, (j', p'));
    var id := s.coroutines[c].jobId;
    forall d, i | d != c && Owns(s', d, i) ensures Owns(s, d, i) && (i == id ==> !Owner(p')) {
      assert Owns(s, d, i);
      assert CoroutineOk(s, s.coroutines[d]);
    }
  }

  lemma AdvanceStarts(s: Engine, c: Cid, j': Job, p': Phase, id: JobId)
    requires Inv(s) && c in s.coroutines && s.coroutines[c].jobId in s.jobs && id in s.jobs
    requires Moves(s.jobs[s.coroutines[c].jobId], j', s.coroutines[c].phase, p')
    requires !s.coroutines[c].phase.Starting?
    ensures StartsOk(Advance(s, c, (j', p')), id)
  {
    hide JobOk, CoroutineOk;
    var s' := Advance(s, c, (j', p'));
    assert StartsOk(s, id);
    if s'.jobs[id].status == Running {
      if id == s.coroutines[c].jobId && Owner(p') {
        assert Owns(s', c, id);
      } else {
        var d :| Owns(s, d, id);
        assert Owns(s', d, id);
      }
    }
  }

  /** A coroutine that moves on without touching its job. */
  lemma GotoOk(s: Engine, c: Cid, p: Phase)
    requires Inv(s) && c in s.coroutines
    requires var k := s.coroutines[c];
      && (Owner(p) <==> Owner(k.phase)) && !p.Starting?
      && (!Detached(p) ==> k.jobId in s.jobs)
      && (k.jobId in s.jobs ==> PhaseOk(p, s.jobs[k.jobId]))
    ensures Inv(Goto(s, c, p))
  {
    hide JobOk, PhaseOk, Owner;
    var s' := Goto(s, c, p);
    assert forall d, id :: Owns(s', d, id) <==> Owns(s, d, id);
    forall d | d in s'.coroutines ensures CoroutineOk(s', s'.coroutines[d]) {
      assert CoroutineOk(s, s.coroutines[d]);
    }
    forall id | id in s'.jobs ensures StartsOk(s', id) {
      assert StartsOk(s, id);
      if s.jobs[id].status == Running {
        var d :| Owns(s, d, id);
        assert Owns(s', d, id);
      }
    }
  }

  /** Entering `task.execute` after the RUNNING status has been saved. */
  lemma StartSavedOk(s: Engine, c: Cid)
    requires Inv(s) && At(s, c, Starting)
    ensures s.coroutines[c].jobId in s.starts && Inv(Step(s, StartSaved(c)))
  {
    hide JobOk;
    var id := s.coroutines[c].jobId;
    assert CoroutineOk(s, s.coroutines[c]);
    assert StartsOk(s, id);
    var s' := Step(s, StartSaved(c));
    assert Owns(s, c, id);
    assert forall d, i :: Owns(s', d, i) <==> Owns(s, d, i);
    forall d | d in s'.coroutines ensures CoroutineOk(s', s'.coroutines[d]) {
      assert CoroutineOk(s, s.coroutines[d]);
    }
    forall i | i in s'.jobs ensures StartsOk(s', i) {
      assert StartsOk(s, i);
      if i == id {
        forall d | d in s'.coroutines && s'.coroutines[d].phase.Starting? ensures s'.coroutines[d].jobId != id {
          assert s.coroutines[d].jobId == id ==> Owns(s, d, id);
        }
        assert Owns(s', c, i);
      } else if s.jobs[i].status == Running {
        var d :| Owns(s, d, i);
        assert Owns(s', d, i);
      }
    }
  }

  lemma SubmitOk(s: Engine, id: JobId, t: JobType)
    requires Inv(s) && id !in s.jobs
    ensures Inv(Step(s, Submit(id, t)))
  {
    var s' := Step(s, Submit(id, t));
    assert forall d, i :: Owns(s', d, i) <==> Owns(s, d, i);
    forall d | d in s'.coroutines ensures CoroutineOk(s', s'.coroutines[d]) {
      assert CoroutineOk(s, s.coroutines[d]);
    }
    forall i | i in s'.jobs ensures StartsOk(s', i) {
      if i != id {
        assert StartsOk(s, i);
      }
    }
  }

  lemma CallOk(s: Engine, c: Cid, id: JobId, p: Phase)
    requires Inv(s) && c !in s.coroutines && (p.Loading? || p.CancelLoading?)
    ensures Inv(s.(coroutines := s.coroutines[c := Coroutine(id, p)]))
  {
    hide JobOk;
    var s' := s.(coroutines := s.coroutines[c := Coroutine(id, p)]);
    assert forall d, i :: Owns(s', d, i) <==> Owns(s, d, i);
    forall d | d in s'.coroutines ensures CoroutineOk(s', s'.coroutines[d]) {
      if d != c {
        assert CoroutineOk(s, s.coroutines[d]);
      }
    }
    forall i | i in s'.jobs ensures StartsOk(s', i) {
      assert StartsOk(s, i);
      if s.jobs[i].status == Running {
        var d :| Owns(s, d, i);
        assert Owns(s', d, i);
      }
    }
  }

  lemma StepOk(s: Engine, e: Event)
    requires Inv(s) && Enabled(s, e)
    ensures e.Validated? || e.Executed? ==> s.coroutines[e.c].jobId in s.jobs
    ensures e.StartSaved? ==> s.coroutines[e.c].jobId in s.starts
    ensures Inv(Step(s, e))
  {
    hide JobOk, StartsOk, AfterLoad, AfterValidation, AfterExecution, AfterCancel, Moves;
    match e {
      case Submit(id, t) => SubmitOk(s, id, t);
      case CallProcess(c, id) => CallOk(s, c, id, Loading);
      case CallCancel(c, id) => CallOk(s, c, id, CancelLoading);
      case _ => ResumeOk(s, e);
    }
  }

  lemma ResumeOk(s: Engine, e: Event)
    requires Inv(s) && Enabled(s, e) && !e.Submit? && !e.CallProcess? && !e.CallCancel?
    ensures e.Validated? || e.Executed? ==> s.coroutines[e.c].jobId in s.jobs
    ensures e.StartSaved? ==> s.coroutines[e.c].jobId in s.starts
    ensures Inv(Step(s, e))
  {
    hide JobOk, StartsOk, AfterLoad, AfterValidation, AfterExecution, AfterCancel, Moves, Inv;
    var c := e.c;
    var id := s.coroutines[c].jobId;
    CoroutineFacts(s, c);
    match e {
      case Loaded(_) =>
        if id in s.jobs {
          AfterLoadMoves(s.registry, s.jobs[id]);
          var to := AfterLoad(s.registry, s.jobs[id]);
          AdvanceOk(s, c, to.0, to.1);
        } else {
          GotoOk(s, c, NotFound);
        }
      case Validated(_, v) =>
        AfterValidationMoves(s.jobs[id], v);
        var to := AfterValidation(s.jobs[id], v);
        AdvanceOk(s, c, to.0, to.1);
      case StartSaved(_) => StartSavedOk(s, c);
      case Executed(_, o) =>
        AfterExecutionMoves(s.jobs[id], o);
        var to := AfterExecution(s.jobs[id], o);
        AdvanceOk(s, c, to.0, to.1);
      case FinishSaved(_) => GotoOk(s, c, Returned);
      case CancelLoaded(_) =>
        if id in s.jobs {
          AfterCancelMoves(s.jobs[id]);
          var to := AfterCancel(s.jobs[id]);
          AdvanceOk(s, c, to.0, to.1);
        } else {
          GotoOk(s, c, NotFound);
        }
      case CancelSaved(_) => GotoOk(s, c, CancelReturned);
      case Interrupt(_) => GotoOk(s, c, Interrupted(Owner(s.coroutines[c].phase)));
    }
  }

  lemma CoroutineFacts(s: Engine, c: Cid)
    requires Inv(s) && c in s.coroutines
    ensures CoroutineOk(s, s.coroutines[c])
    ensures s.starts.Keys == s.jobs.Keys
    ensures s.coroutines[c].jobId in s.jobs ==> JobOk(s.jobs[s.coroutines[c].jobId])
  {
  }

  // ---------------------------------------------------------------------------------------------
  // Every interleaving
  // ---------------------------------------------------------------------------------------------

  /** `s'` is reached from `s` by the interleaving `es`. */
  ghost predicate Reaches(s: Engine, es: seq<Event>, s': Engine)
    requires Inv(s)
    decreases |es|
  {
    if es == [] then s' == s
    else Enabled(s, es[0]) && (StepOk(s, es[0]); Reaches(Step(s, es[0]), es[1..], s'))
  }

  lemma {:induction false} ReachesOk(s: Engine, es: seq<Event>, s': Engine)
    requires Inv(s) && Reaches(s, es, s')
    ensures Inv(s')
    decreases |es|
  {
    hide Inv, Enabled, Step;
    if es != [] {
      StepOk(s, es[0]);
      ReachesOk(Step(s, es[0]), es[1..], s');
    }
  }

  lemma BootOk(registry: set<JobType>)
    ensures Inv(Boot(registry))
  {
  }

  /** In every interleaving from boot, each job has followed the lifecycle, its task was entered at most once,
      and it holds a result exactly when it completed (a successful one) or failed (an unsuccessful one). */
  lemma EveryJobIsSound(registry: set<JobType>, es: seq<Event>, s: Engine, id: JobId)
    requires Inv(Boot(registry)) && Reaches(Boot(registry), es, s) && id in s.jobs
    ensures Lifecycle(s.jobs[id].trail) && s.jobs[id].status == s.jobs[id].trail[|s.jobs[id].trail| - 1]
    ensures id in s.starts && s.starts[id] <= 1
    ensures s.jobs[id].result.Some? <==> s.jobs[id].status.Completed? || s.jobs[id].status.Failed?
    ensures s.jobs[id].status.Completed? ==> s.jobs[id].result.value.success
    ensures s.jobs[id].status.Failed? ==> !s.jobs[id].result.value.success
  {
    ReachesOk(Boot(registry), es, s);
    assert StartsOk(s, id) && JobOk(s.jobs[id]);
  }

  lemma StepFreezes(s: Engine, e: Event, id: JobId)
    requires Inv(s) && Enabled(s, e) && id in s.jobs && s.jobs[id].status.Terminal()
    requires e.Validated? || e.Executed? ==> s.coroutines[e.c].jobId in s.jobs
    requires e.StartSaved? ==> s.coroutines[e.c].jobId in s.starts
    ensures id in Step(s, e).jobs && Step(s, e).jobs[id] == s.jobs[id]
  {
    hide WrongStatus, StartsOk, JobOk, CoroutineOk;
  }

  /** Once a job is completed, failed or cancelled, nothing changes it again. */
  lemma {:induction false} TerminalIsFinal(s: Engine, es: seq<Event>, s': Engine, id: JobId)
    requires Inv(s) && Reaches(s, es, s')
    requires id in s.jobs && s.jobs[id].status.Terminal()
    ensures id in s'.jobs && s'.jobs[id] == s.jobs[id]
    decreases |es|
  {
    hide Inv, Enabled, Step;
    if es != [] {
      StepOk(s, es[0]);
      StepFreezes(s, es[0], id);
      TerminalIsFinal(Step(s, es[0]), es[1..], s', id);
    }
  }

  /** A cancellation that got as far as saving holds for good: no process coroutine can overwrite it. */
  lemma CancellationHolds(s: Engine, c: Cid, es: seq<Event>, s': Engine)
    requires Inv(s) && Reaches(s, es, s')
    requires At(s, c, CancelUpdating) || At(s, c, CancelReturned)
    ensures s.coroutines[c].jobId in s'.jobs && s'.jobs[s.coroutines[c].jobId].status == Cancelled
  {
    assert CoroutineOk(s, s.coroutines[c]);
    TerminalIsFinal(s, es, s', s.coroutines[c].jobId);
  }

  /** A `process_job` that returns leaves its job completed or failed; one that raises after finding its job
      leaves it in some terminal state. */
  lemma ProcessSettlesItsJob(s: Engine, c: Cid)
    requires Inv(s) && c in s.coroutines
    ensures s.coroutines[c].phase.Returned? ==>
      s.coroutines[c].jobId in s.jobs && s.jobs[s.coroutines[c].jobId].result.Some?
    ensures s.coroutines[c].phase.Raised? ==>
      s.coroutines[c].jobId in s.jobs && s.jobs[s.coroutines[c].jobId].status.Terminal()
  {
    assert CoroutineOk(s, s.coroutines[c]);
  }

  /** A running job always has exactly one coroutine responsible for it. When no coroutine is left, it is stuck
      in RUNNING only if that coroutine was interrupted after it had marked the job running. */
  lemma RunningJobsAreOwned(s: Engine, id: JobId)
    requires Inv(s) && id in s.jobs && s.jobs[id].status == Running
    ensures exists c :: Owns(s, c, id) && forall d :: Owns(s, d, id) ==> d == c
    ensures (forall c :: c in s.coroutines ==> Ended(s.coroutines[c].phase)) ==>
      exists c :: c in s.coroutines && s.coroutines[c] == Coroutine(id, Interrupted(true))
  {
    assert StartsOk(s, id);
    var c :| Owns(s, c, id);
    assert s.coroutines[c] == Coroutine(id, s.coroutines[c].phase);
  }
}
