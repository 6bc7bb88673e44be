/** The async orchestrator over job objects shared by reference.

    Each method below is one stretch of a coroutine between two awaits.  A suspended coroutine is a frame that
    keeps its own reference to the job it loaded; the store and every frame share that one object.
 */
module AsyncOrchestrator {
  import opened Prelude
  import opened AsyncJobs
  import AsyncAnswers

  class AIJob {
    const jobId: JobId
    const jobType: JobType
    var status: Status
    var result: Option<TaskResult>
    ghost var trail: seq<Status>

    ghost function Rec(): Job
      reads this
    {
      Job(jobType, status, result, trail)
    }

    constructor (jobId: JobId, jobType: JobType)
      ensures this.jobId == jobId && Rec() == NewJob(jobType)
    {
      this.jobId := jobId;
      this.jobType := jobType;
      this.status := Pending;
      this.result := None;
      this.trail := [Pending];
    }

    /** The job after an attempted transition, and the exception raised if it was refused. */
    ghost predicate Outcome(a: Attempt, before: Job, raised: Option<string>)
      reads this
    {
      match a
      case Moved(j) => raised == None && Rec() == j
      case Refused(m) => raised == Some(m) && Rec() == before
    }

    method RequireStatus(expected: Status) returns (raised: Option<string>)
      ensures raised == if status == expected then None else Some(WrongStatus(expected, status))
    {
      raised := if status != expected then Some(WrongStatus(expected, status)) else None;
    }

    method MarkRunning() returns (raised: Option<string>)
      modifies this
      ensures Outcome(AsyncJobs.MarkRunning(old(Rec())), old(Rec()), raised)
    {
      raised := RequireStatus(Pending);
      if raised.None? {
        status, trail := Running, trail + [Running];
      }
    }

    method MarkCompleted(r: TaskResult) returns (raised: Option<string>)
      modifies this
      ensures Outcome(AsyncJobs.MarkCompleted(old(Rec()), r), old(Rec()), raised)
    {
      raised := RequireStatus(Running);
      if raised.None? {
        status, trail := Completed, trail + [Completed];
        result := Some(r);
      }
    }

    method MarkFailed(error: string) returns (raised: Option<string>)
      modifies this
      ensures Outcome(AsyncJobs.MarkFailed(old(Rec()), error), old(Rec()), raised)
    {
      raised := RequireStatus(Running);
      if raised.None? {
        status, trail := Failed, trail + [Failed];
        result := Some(Failure(error));
      }
    }

    method Cancel() returns (raised: Option<string>)
      modifies this
      ensures Outcome(AsyncJobs.Cancel(old(Rec())), old(Rec()), raised)
    {
      if status != Pending && status != Running {
        return Some("Cannot cancel job in status '" + status.Name() + "'.");
      }
      status, trail := Cancelled, trail + [Cancelled];
      raised := None;
    }
  }

  /** A suspended or finished coroutine; `job` is the reference it holds once the job is loaded. */
  datatype Frame = Frame(jobId: JobId, phase: Phase, job: AIJob?)

  class AsyncAIJobOrchestrator {
    const registry: set<JobType>
    var store: map<JobId, AIJob>
    var frames: map<Cid, Frame>
    ghost var starts: map<JobId, nat>

    ghost function View(): Engine
      reads this, store.Values
    {
      Engine(registry, map id | id in store :: store[id].Rec(),
             map c | c in frames :: Coroutine(frames[c].jobId, frames[c].phase), starts)
    }

    /** Every frame past its load holds the very object that is stored. */
    ghost predicate ByReference()
      reads this
    {
      && (forall id :: id in store ==> store[id].jobId == id)
      && (forall c :: c in frames && !Detached(frames[c].phase) ==>
            frames[c].jobId in store && frames[c].job == store[frames[c].jobId])
    }

    ghost predicate Valid()
      reads this, store.Values
    {
      ByReference() && Inv(View())
    }

    constructor (registry: set<JobType>)
      ensures Valid() && View() == Boot(registry)
    {
      this.registry := registry;
      store, frames, starts := map[], map[], map[];
      new;
      BootOk(registry);
    }

    lemma ViewIs(s: Engine)
      requires s.registry == registry && s.starts == starts
      requires forall id :: id in store <==> id in s.jobs
      requires forall id :: id in store ==> store[id].Rec() == s.jobs[id]
      requires forall c :: c in frames <==> c in s.coroutines
      requires forall c :: c in frames ==> s.coroutines[c] == Coroutine(frames[c].jobId, frames[c].phase)
      ensures View() == s
    {
      assert View().jobs == s.jobs && View().coroutines == s.coroutines;
    }

    method SubmitJob(id: JobId, jobType: JobType) returns (job: AIJob)
      requires Valid() && Enabled(View(), Submit(id, jobType))
      modifies this
      ensures Valid() && View() == Step(old(View()), Submit(id, jobType))
    {
      hide Inv;
      StepOk(View(), Submit(id, jobType));
      ghost var s' := Step(View(), Submit(id, jobType));
      job := new AIJob(id, jobType);
      store := store[id := job];
      starts := starts[id := 0];
      ViewIs(s');
    }

    method CallProcessJob(c: Cid, id: JobId)
      requires Valid() && c !in frames
      modifies this
      ensures Valid() && View() == Step(old(View()), CallProcess(c, id))
    {
      hide Inv;
      StepOk(View(), CallProcess(c, id));
      ghost var s' := Step(View(), CallProcess(c, id));
      frames := frames[c := Frame(id, Loading, null)];
      ViewIs(s');
    }

    method CallCancelJob(c: Cid, id: JobId)
      requires Valid() && c !in frames
      modifies this
      ensures Valid() && View() == Step(old(View()), CallCancel(c, id))
    {
      hide Inv;
      StepOk(View(), CallCancel(c, id));
      ghost var s' := Step(View(), CallCancel(c, id));
      frames := frames[c := Frame(id, CancelLoading, null)];
      ViewIs(s');
    }

    /** The handler shared by both `except` clauses of `process_job`. */
    method FailJob(job: AIJob, error: string) returns (p: Phase)
      modifies job
      ensures (job.Rec(), p) == AsyncJobs.FailJob(old(job.Rec()), error)
    {
      if job.status == Pending {
        var _ := job.MarkRunning();
      }
      var raised := job.MarkFailed(error);
      p := if raised.Some? then Raised(raised.value) else Finishing;
    }

    /** The engine with everything but one job and one coroutine as in `s`. */
    ghost predicate AllBut(s: Engine, id: JobId)
      reads this, store.Values
    {
      && s.registry == registry && s.starts == starts
      && (forall k :: k in store <==> k in s.jobs)
      && (forall k :: k in store && k != id ==> store[k].Rec() == s.jobs[k])
      && (forall c :: c in frames <==> c in s.coroutines)
      && (forall c :: c in frames ==> s.coroutines[c] == Coroutine(frames[c].jobId, frames[c].phase))
    }

    lemma OthersKeep()
      requires ByReference()
      ensures forall id :: id in store ==> AllBut(View(), id)
      ensures forall id, k :: id in store && k in store && k != id ==> store[k] != store[id]
    {
    }

    /** Suspends coroutine `c` in phase `p`, holding `job`. */
    method Suspend(c: Cid, job: AIJob, p: Phase, ghost s: Engine)
      requires ByReference() && c in frames && frames[c].jobId in store && store[frames[c].jobId] == job
      requires AllBut(s, frames[c].jobId)
      modifies this`frames
      ensures ByReference() && View() == Advance(s, c, (job.Rec(), p))
    {
      frames := frames[c := Frame(frames[c].jobId, p, job)];
      ViewIs(Advance(s, c, (job.Rec(), p)));
    }

    method ResolveTask(job: AIJob) returns (p: Phase)
      modifies job
      ensures (job.Rec(), p) == AfterLoad(registry, old(job.Rec()))
    {
      hide AsyncJobs.FailJob;
      p := Validating;
      if job.jobType !in registry {
        p := FailJob(job, NoTask(job.jobType));
      }
    }

    method Begin(job: AIJob, v: Validation) returns (p: Phase)
      modifies job
      ensures (job.Rec(), p) == AfterValidation(old(job.Rec()), v)
    {
      hide AsyncJobs.FailJob, WrongStatus;
      match v {
        case InvalidPayload(m) => p := FailJob(job, m);
        case ValidationCrash(m) => p := FailJob(job, "Unexpected error: " + m);
        case Valid =>
          var raised := job.MarkRunning();
          if raised.Some? { p := FailJob(job, raised.value); } else { p := Starting; }
      }
    }

    method Conclude(job: AIJob, o: Outcome) returns (p: Phase)
      modifies job
      ensures (job.Rec(), p) == AfterExecution(old(job.Rec()), o)
    {
      hide AsyncJobs.FailJob, TaskError, WrongStatus;
      p := Finishing;
      match o {
        case RaisedValueError(m) => p := FailJob(job, m);
        case Crashed(m) => p := FailJob(job, "Unexpected error: " + m);
        case Produced(r) =>
          var raised;
          if r.success { raised := job.MarkCompleted(r); } else { raised := job.MarkFailed(TaskError(r)); }
          if raised.Some? { p := FailJob(job, raised.value); }
      }
    }

    method JobMissing(c: Cid)
      requires Valid() && c in frames && frames[c].jobId !in store
      modifies this
      ensures ByReference() && View() == Goto(old(View()), c, NotFound)
    {
      hide Inv;
      ghost var s := View();
      frames := frames[c := Frame(frames[c].jobId, NotFound, null)];
      ViewIs(Goto(s, c, NotFound));
    }

    /** `process_job` from the answer of `get_by_id` to the await of `validate_payload`. */
    method OnLoaded(c: Cid)
      requires Valid() && Enabled(View(), Loaded(c))
      modifies this, store.Values
      ensures Valid() && View() == Step(old(View()), Loaded(c))
    {
      hide Inv, AfterLoad;
      StepOk(View(), Loaded(c));
      ghost var s := View();
      var id := frames[c].jobId;
      if id !in store {
        JobMissing(c);
      } else {
        OthersKeep();
        var p := ResolveTask(store[id]);
        Suspend(c, store[id], p, s);
      }
    }

    /** From the answer of `validate_payload` to the await of the update, or through the handler. */
    method OnValidated(c: Cid, v: Validation)
      requires Valid() && Enabled(View(), Validated(c, v))
      modifies this, store.Values
      ensures old(View()).coroutines[c].jobId in old(View()).jobs
      ensures Valid() && View() == Step(old(View()), Validated(c, v))
      ensures AsyncAnswers.StartedIff(old(View()), View(), c, v)
    {
      hide Inv, AfterValidation, AsyncAnswers.StartedIff;
      StepOk(View(), Validated(c, v));
      AsyncAnswers.StartedOrNot(View(), c, v);
      ghost var s := View();
      OthersKeep();
      var job := frames[c].job;
      var p := Begin(job, v);
      Suspend(c, job, p, s);
    }

    /** The update that saves RUNNING: it stores the object that is already there; then the task is entered. */
    method OnStartSaved(c: Cid)
      requires Valid() && Enabled(View(), StartSaved(c))
      modifies this
      ensures old(View()).coroutines[c].jobId in old(View()).starts
      ensures Valid() && View() == Step(old(View()), StartSaved(c))
    {
      hide Inv;
      StepOk(View(), StartSaved(c));
      ghost var s := View();
      var id, job := frames[c].jobId, frames[c].job;
      store := store[job.jobId := job];
      starts := starts[id := starts[id] + 1];
      frames := frames[c := frames[c].(phase := Executing)];
      ViewIs(Step(s, StartSaved(c)));
    }

    /** From the outcome of `task.execute` to the await of the last update, or through the handler. */
    method OnExecuted(c: Cid, o: Outcome)
      requires Valid() && Enabled(View(), Executed(c, o))
      modifies this, store.Values
      ensures old(View()).coroutines[c].jobId in old(View()).jobs
      ensures Valid() && View() == Step(old(View()), Executed(c, o))
      ensures AsyncAnswers.CompletedIff(old(View()), View(), c, o)
    {
      hide Inv, AfterExecution, AsyncAnswers.CompletedIff;
      StepOk(View(), Executed(c, o));
      AsyncAnswers.CompletedOrNot(View(), c, o);
      ghost var s := View();
      OthersKeep();
      var job := frames[c].job;
      var p := Conclude(job, o);
      Suspend(c, job, p, s);
    }

    method OnFinishSaved(c: Cid)
      requires Valid() && Enabled(View(), FinishSaved(c))
      modifies this
      ensures Valid() && View() == Step(old(View()), FinishSaved(c))
    {
      hide Inv;
      StepOk(View(), FinishSaved(c));
      ghost var s := View();
      var job := frames[c].job;
      store := store[job.jobId := job];
      frames := frames[c := frames[c].(phase := Returned)];
      ViewIs(Step(s, FinishSaved(c)));
    }

    /** `cancel_job` from the answer of `get_by_id` to the await of the update. */
    method OnCancelLoaded(c: Cid)
      requires Valid() && Enabled(View(), CancelLoaded(c))
      modifies this, store.Values
      ensures Valid() && View() == Step(old(View()), CancelLoaded(c))
    {
      hide Inv, AsyncJobs.Cancel;
      StepOk(View(), CancelLoaded(c));
      ghost var s := View();
      var id := frames[c].jobId;
      if id !in store {
        JobMissing(c);
      } else {
        OthersKeep();
        var raised := store[id].Cancel();
        Suspend(c, store[id], if raised.Some? then Raised(raised.value) else CancelUpdating, s);
      }
    }

    method OnCancelSaved(c: Cid)
      requires Valid() && Enabled(View(), CancelSaved(c))
      modifies this
      ensures Valid() && View() == Step(old(View()), CancelSaved(c))
    {
      hide Inv;
      StepOk(View(), CancelSaved(c));
      ghost var s := View();
      var job := frames[c].job;
      store := store[job.jobId := job];
      frames := frames[c := frames[c].(phase := CancelReturned)];
      ViewIs(Step(s, CancelSaved(c)));
    }

    /** `CancelledError` delivered at whatever await the coroutine is suspended in: no handler catches it. */
    method OnInterrupt(c: Cid)
      requires Valid() && Enabled(View(), Interrupt(c))
      modifies this
      ensures Valid() && View() == Step(old(View()), Interrupt(c))
    {
      hide Inv;
      StepOk(View(), Interrupt(c));
      ghost var s := View();
      frames := frames[c := frames[c].(phase := Interrupted(Owner(frames[c].phase)))];
      ViewIs(Step(s, Interrupt(c)));
    }
  }
}
