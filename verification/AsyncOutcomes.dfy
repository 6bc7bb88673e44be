/** What finally becomes of a job: who decides it, which execution its result is from, and whether it can get
    stuck. */
module AsyncOutcomes {
  import opened Prelude
  import opened AsyncJobs

  // ---------------------------------------------------------------------------------------------
  // Who decides what becomes of a running job
  // ---------------------------------------------------------------------------------------------

  /** The event resumes a coroutine of the job at a point where it may write the job. */
  predicate Writes(s: Engine, e: Event, id: JobId) {
    (e.Executed? && Targets(s, e.c, id)) || Interferes(s, e, id)
  }

  /** The same by anyone but the coroutine that ran the task. */
  predicate Interferes(s: Engine, e: Event, id: JobId) {
    match e
    case Validated(c, _) => Targets(s, c, id)
    case CancelLoaded(c) => Targets(s, c, id)
    case Loaded(c) => Targets(s, c, id) && id in s.jobs && s.jobs[id].jobType !in s.registry
    case _ => false
  }

  predicate Targets(s: Engine, c: Cid, id: JobId) { c in s.coroutines && s.coroutines[c].jobId == id }

  /** A step changes a running job exactly if it is one of those events. */
  lemma RunningJobChangesIff(s: Engine, e: Event, id: JobId)
    requires Inv(s) && Enabled(s, e) && id in s.jobs && s.jobs[id].status == Running
    requires e.Validated? || e.Executed? ==> s.coroutines[e.c].jobId in s.jobs
    requires e.StartSaved? ==> s.coroutines[e.c].jobId in s.starts
    ensures id in Step(s, e).jobs
    ensures Step(s, e).jobs[id] != s.jobs[id] <==> Writes(s, e, id)
    ensures Writes(s, e, id) ==> Step(s, e).jobs[id].status.Terminal()
  {
    hide Inv, WrongStatus, NoTask, TaskError;
  }

  /** No event of the interleaving interferes with the job. */
  ghost predicate Undisturbed(s: Engine, es: seq<Event>, id: JobId)
    requires Inv(s)
    decreases |es|
  {
    es == [] ||
    (Enabled(s, es[0]) && !Interferes(s, es[0], id) && (StepOk(s, es[0]); Undisturbed(Step(s, es[0]), es[1..], id)))
  }

  /** A coroutine that has left `task.execute` does not get back. */
  predicate Past(p: Phase) { p.Finishing? || Ended(p) || p.CancelLoading? || p.CancelUpdating? }

  lemma StepKeepsCoroutine(s: Engine, e: Event, c: Cid)
    requires Inv(s) && Enabled(s, e) && c in s.coroutines
    requires e.Validated? || e.Executed? ==> s.coroutines[e.c].jobId in s.jobs
    requires e.StartSaved? ==> s.coroutines[e.c].jobId in s.starts
    ensures c in Step(s, e).coroutines && Step(s, e).coroutines[c].jobId == s.coroutines[c].jobId
    ensures Past(s.coroutines[c].phase) ==> Past(Step(s, e).coroutines[c].phase)
    ensures Ended(s.coroutines[c].phase) ==> Step(s, e).coroutines[c] == s.coroutines[c]
  {
    hide Inv, WrongStatus, NoTask, TaskError;
  }

  lemma {:induction false} PastStaysPast(s: Engine, es: seq<Event>, s': Engine, c: Cid)
    requires Inv(s) && Reaches(s, es, s') && c in s.coroutines && Past(s.coroutines[c].phase)
    ensures c in s'.coroutines && Past(s'.coroutines[c].phase)
    ensures Ended(s.coroutines[c].phase) ==> s'.coroutines[c] == s.coroutines[c]
    decreases |es|
  {
    hide Inv, Enabled, Step, Past, Ended;
    if es != [] {
      StepOk(s, es[0]);
      StepKeepsCoroutine(s, es[0], c);
      PastStaysPast(Step(s, es[0]), es[1..], s', c);
    }
  }

  lemma {:induction false} RunningUnlessDisturbed(s: Engine, es: seq<Event>, s': Engine, c: Cid, id: JobId)
    requires Inv(s) && Reaches(s, es, s') && id in s.jobs && s.jobs[id].status == Running
    requires Owns(s, c, id) && At(s', c, Executing)
    ensures id in s'.jobs
    ensures Undisturbed(s, es, id) ==> s'.jobs[id] == s.jobs[id]
    ensures !Undisturbed(s, es, id) ==> s'.jobs[id].status.Terminal()
    decreases |es|
  {
    hide Inv, Enabled, Step, Interferes, Lifecycle;
    if es != [] {
      var e := es[0];
      StepOk(s, e);
      var s1 := Step(s, e);
      RunningJobChangesIff(s, e, id);
      if Interferes(s, e, id) {
        TerminalIsFinal(s1, es[1..], s', id);
      } else if Writes(s, e, id) {
        OwnerLeaves(s, e, c, id);
        PastStaysPast(s1, es[1..], s', c);
      } else {
        OwnerStays(s, e, c, id);
        RunningUnlessDisturbed(s1, es[1..], s', c, id);
      }
    }
  }

  lemma OwnerLeaves(s: Engine, e: Event, c: Cid, id: JobId)
    requires Inv(s) && Enabled(s, e) && Owns(s, c, id) && e.Executed? && Targets(s, e.c, id)
    requires s.coroutines[e.c].jobId in s.jobs
    ensures e.c == c && c in Step(s, e).coroutines && Past(Step(s, e).coroutines[c].phase)
  {
    hide StartsOk, CoroutineOk, JobOk, WrongStatus, TaskError;
    assert Owns(s, e.c, id);
  }

  lemma OwnerStays(s: Engine, e: Event, c: Cid, id: JobId)
    requires Inv(s) && Enabled(s, e) && Owns(s, c, id) && !Writes(s, e, id) && id in s.jobs
    requires e.Validated? || e.Executed? ==> s.coroutines[e.c].jobId in s.jobs
    requires e.StartSaved? ==> s.coroutines[e.c].jobId in s.starts
    ensures Owns(Step(s, e), c, id)
  {
    hide Inv, WrongStatus, NoTask, TaskError;
  }

  /** From a running job and the coroutine that owns it: the owner's task outcome decides what finally becomes of
      the job exactly if nobody interferes before it.  Otherwise the job has ended without it, and the owner
      raises. */
  lemma OwnerDecidesIff(s: Engine, c: Cid, id: JobId, es: seq<Event>, s1: Engine, o: Outcome,
                        rest: seq<Event>, s': Engine)
    requires Inv(s) && id in s.jobs && s.jobs[id].status == Running && Owns(s, c, id)
    requires Inv(s1) && Reaches(s, es, s1) && At(s1, c, Executing)
    requires Reaches(s1, [Executed(c, o)] + rest, s')
    ensures id in s1.jobs && id in s'.jobs && c in s'.coroutines
    ensures Undisturbed(s, es, id) <==> s1.jobs[id].status == Running
    ensures Undisturbed(s, es, id) ==> s'.jobs[id] == AfterExecution(s.jobs[id], o).0
    ensures !Undisturbed(s, es, id) ==> s'.jobs[id] == s1.jobs[id] && s'.coroutines[c].phase.Raised?
  {
    hide Inv, Enabled, AfterExecution, Undisturbed;
    RunningUnlessDisturbed(s, es, s1, c, id);
    KeepsItsJob(s, es, s1, c);
    var e := Executed(c, o);
    assert ([e] + rest)[1..] == rest;
    assert [e] + rest != [] && ([e] + rest)[0] == e;
    StepOk(s1, e);
    ExecutedEnds(s1, c, o);
    var s2 := Step(s1, e);
    TerminalIsFinal(s2, rest, s', id);
    PastStaysPast(s2, rest, s', c);
  }

  lemma {:induction false} KeepsItsJob(s: Engine, es: seq<Event>, s': Engine, c: Cid)
    requires Inv(s) && Reaches(s, es, s') && c in s.coroutines
    ensures c in s'.coroutines && s'.coroutines[c].jobId == s.coroutines[c].jobId
    decreases |es|
  {
    hide Inv, Enabled, Step, Past;
    if es != [] {
      StepOk(s, es[0]);
      StepKeepsCoroutine(s, es[0], c);
      KeepsItsJob(Step(s, es[0]), es[1..], s', c);
    }
  }

  lemma ExecutedEnds(s: Engine, c: Cid, o: Outcome)
    requires Inv(s) && At(s, c, Executing) && s.coroutines[c].jobId in s.jobs
    ensures var id, s' := s.coroutines[c].jobId, Step(s, Executed(c, o));
      && c in s'.coroutines && (s'.coroutines[c].phase.Finishing? || s'.coroutines[c].phase.Raised?)
      && id in s'.jobs && s'.jobs[id] == AfterExecution(s.jobs[id], o).0 && s'.jobs[id].status.Terminal()
      && (s.jobs[id].status.Terminal() ==> s'.jobs[id] == s.jobs[id] && s'.coroutines[c].phase.Raised?)
  {
    hide StartsOk, WrongStatus, TaskError;
    assert CoroutineOk(s, s.coroutines[c]);
  }

  /** The error left by a validation that ends while the job is already running. */
  function SecondProcessError(v: Validation): string {
    match v
    case Valid => WrongStatus(Pending, Running)
    case InvalidPayload(m) => m
    case ValidationCrash(m) => "Unexpected error: " + m
  }

  lemma SecondValidation(s: Engine, c: Cid, v: Validation)
    requires At(s, c, Validating) && s.coroutines[c].jobId in s.jobs
    requires s.jobs[s.coroutines[c].jobId].status == Running
    ensures var id, s1 := s.coroutines[c].jobId, Step(s, Validated(c, v));
      && id in s1.jobs && s1.jobs[id].status == Failed
      && s1.jobs[id].result == Some(Failure(SecondProcessError(v)))
  {
    hide WrongStatus;
  }

  /** A second `process_job` on the same id whose validation ends, in whatever way, while the job runs fails the
      job for good, whatever the first one's task returns. */
  lemma SecondProcessFailsRunningJob(s: Engine, c: Cid, v: Validation, es: seq<Event>, s': Engine)
    requires Inv(s) && At(s, c, Validating) && s.coroutines[c].jobId in s.jobs
    requires s.jobs[s.coroutines[c].jobId].status == Running
    requires Reaches(s, [Validated(c, v)] + es, s')
    ensures s.coroutines[c].jobId in s'.jobs
    ensures s'.jobs[s.coroutines[c].jobId].status == Failed
    ensures s'.jobs[s.coroutines[c].jobId].result == Some(Failure(SecondProcessError(v)))
  {
    hide Inv, Step, SecondProcessError;
    var e, id := Validated(c, v), s.coroutines[c].jobId;
    assert ([e] + es)[1..] == es;
    StepOk(s, e);
    SecondValidation(s, c, v);
    TerminalIsFinal(Step(s, e), es, s', id);
  }

  lemma {:induction false} ReachesMore(s: Engine, es: seq<Event>, s1: Engine, e: Event)
    requires Inv(s) && Reaches(s, es, s1) && Inv(s1) && Enabled(s1, e)
    ensures e.Validated? || e.Executed? ==> s1.coroutines[e.c].jobId in s1.jobs
    ensures e.StartSaved? ==> s1.coroutines[e.c].jobId in s1.starts
    ensures Inv(Step(s1, e)) && Reaches(s, es + [e], Step(s1, e))
    decreases |es|
  {
    hide Inv, Enabled, Step;
    StepOk(s1, e);
    if es == [] {
      assert [e][1..] == [];
      assert Reaches(Step(s1, e), [], Step(s1, e));
      assert [] + [e] == [e];
    } else {
      StepOk(s, es[0]);
      ReachesMore(Step(s, es[0]), es[1..], s1, e);
      assert (es + [e])[1..] == es[1..] + [e];
    }
  }

  /** Interference does occur: two calls on one id, both loaded while the job is pending. */
  lemma SecondProcessHappens() returns (es: seq<Event>, s: Engine)
    ensures Inv(Boot({Summarization})) && Reaches(Boot({Summarization}), es, s)
    ensures 0 in s.jobs && s.jobs[0].status == Running && Owns(s, 0, 0)
    ensures At(s, 1, Validating) && s.coroutines[1].jobId == 0
  {
    hide Inv, Reaches;
    var s0 := Boot({Summarization});
    BootOk({Summarization});
    assert Reaches(s0, [], s0) by { Still(s0); }
    var s1 := Step(s0, Submit(0, Summarization));
    ReachesMore(s0, [], s0, Submit(0, Summarization));
    var s2 := Step(s1, CallProcess(0, 0));
    ReachesMore(s0, [] + [Submit(0, Summarization)], s1, CallProcess(0, 0));
    es := [] + [Submit(0, Summarization)] + [CallProcess(0, 0)];
    var s3 := Step(s2, CallProcess(1, 0));
    ReachesMore(s0, es, s2, CallProcess(1, 0));
    es := es + [CallProcess(1, 0)];
    var s4 := Step(s3, Loaded(0));
    ReachesMore(s0, es, s3, Loaded(0));
    es := es + [Loaded(0)];
    var s5 := Step(s4, Loaded(1));
    ReachesMore(s0, es, s4, Loaded(1));
    es := es + [Loaded(1)];
    s := Step(s5, Validated(0, Valid));
    ReachesMore(s0, es, s5, Validated(0, Valid));
    es := es + [Validated(0, Valid)];
  }

  lemma Still(s: Engine)
    requires Inv(s)
    ensures Reaches(s, [], s)
  {
  }

  // ---------------------------------------------------------------------------------------------
  // One execution, and its result
  // ---------------------------------------------------------------------------------------------

  /** Executing or completed jobs have had their task entered. */
  ghost predicate Entered(s: Engine) {
    && (forall c :: At(s, c, Executing) ==> s.coroutines[c].jobId in s.starts && s.starts[s.coroutines[c].jobId] == 1)
    && (forall id :: id in s.jobs && s.jobs[id].status == Completed ==> id in s.starts && s.starts[id] == 1)
  }

  /** A step that completes a job is the end of a successful execution, and its result is the job's. */
  lemma CompletionIsExecution(s: Engine, e: Event, id: JobId)
    requires Inv(s) && Enabled(s, e)
    requires e.Validated? || e.Executed? ==> s.coroutines[e.c].jobId in s.jobs
    requires e.StartSaved? ==> s.coroutines[e.c].jobId in s.starts
    requires id in Step(s, e).jobs && Step(s, e).jobs[id].status == Completed
    requires !(id in s.jobs && s.jobs[id].status == Completed)
    ensures e.Executed? && Targets(s, e.c, id) && e.o.Produced? && e.o.result.success
    ensures Step(s, e).jobs[id].result == Some(e.o.result)
  {
    hide Inv, WrongStatus, NoTask, TaskError;
  }

  lemma StepEnters(s: Engine, e: Event)
    requires Inv(s) && Enabled(s, e) && Entered(s)
    requires e.Validated? || e.Executed? ==> s.coroutines[e.c].jobId in s.jobs
    requires e.StartSaved? ==> s.coroutines[e.c].jobId in s.starts
    ensures Entered(Step(s, e))
  {
    hide Inv, Step, Enabled;
    var s' := Step(s, e);
    forall c | At(s', c, Executing)
      ensures s'.coroutines[c].jobId in s'.starts && s'.starts[s'.coroutines[c].jobId] == 1
    {
      ExecutingIsEntered(s, e, c);
    }
    forall id | id in s'.jobs && s'.jobs[id].status == Completed ensures id in s'.starts && s'.starts[id] == 1 {
      if !(id in s.jobs && s.jobs[id].status == Completed) {
        CompletionIsExecution(s, e, id);
        ExecutedAt(s, e);
      }
      StartsGrow(s, e, id);
    }
  }

  lemma ExecutedAt(s: Engine, e: Event)
    requires Enabled(s, e) && e.Executed?
    ensures At(s, e.c, Executing)
  {
  }

  /** The count of a started job does not move again. */
  lemma StartsGrow(s: Engine, e: Event, id: JobId)
    requires Inv(s) && Enabled(s, e) && id in s.starts && s.starts[id] == 1
    requires e.Validated? || e.Executed? ==> s.coroutines[e.c].jobId in s.jobs
    requires e.StartSaved? ==> s.coroutines[e.c].jobId in s.starts
    ensures id in Step(s, e).starts && Step(s, e).starts[id] == 1
  {
    hide JobOk, CoroutineOk, AfterLoad, AfterValidation, AfterExecution, AfterCancel;
    assert StartsOk(s, id);
  }

  lemma ExecutingIsEntered(s: Engine, e: Event, c: Cid)
    requires Inv(s) && Enabled(s, e) && Entered(s)
    requires e.Validated? || e.Executed? ==> s.coroutines[e.c].jobId in s.jobs
    requires e.StartSaved? ==> s.coroutines[e.c].jobId in s.starts
    requires At(Step(s, e), c, Executing)
    ensures var s' := Step(s, e);
      s'.coroutines[c].jobId in s'.starts && s'.starts[s'.coroutines[c].jobId] == 1
  {
    hide JobOk, Lifecycle, NoTask, WrongStatus, TaskError;
    if e == StartSaved(c) {
      assert CoroutineOk(s, s.coroutines[c]) && StartsOk(s, s.coroutines[c].jobId);
    } else {
      StillExecuting(s, e, c);
      StartsGrow(s, e, s.coroutines[c].jobId);
    }
  }

  lemma StillExecuting(s: Engine, e: Event, c: Cid)
    requires Inv(s) && Enabled(s, e) && e != StartSaved(c)
    requires e.Validated? || e.Executed? ==> s.coroutines[e.c].jobId in s.jobs
    requires e.StartSaved? ==> s.coroutines[e.c].jobId in s.starts
    requires At(Step(s, e), c, Executing)
    ensures At(s, c, Executing) && Step(s, e).coroutines[c] == s.coroutines[c]
  {
    hide Inv, NoTask, WrongStatus, TaskError;
  }

  lemma {:induction false} CompletedBy(s: Engine, es: seq<Event>, s': Engine, id: JobId) returns (i: nat)
    requires Inv(s) && Entered(s) && Reaches(s, es, s')
    requires !(id in s.jobs && s.jobs[id].status == Completed)
    requires id in s'.jobs && s'.jobs[id].status == Completed
    ensures i < |es| && es[i].Executed? && Targets(s', es[i].c, id)
    ensures es[i].o.Produced? && es[i].o.result.success && s'.jobs[id].result == Some(es[i].o.result)
    ensures id in s'.starts && s'.starts[id] == 1
    decreases |es|
  {
    hide Inv, Enabled, Step, Entered;
    var e := es[0];
    StepOk(s, e);
    StepEnters(s, e);
    var s1 := Step(s, e);
    if id in s1.jobs && s1.jobs[id].status == Completed {
      CompletionIsExecution(s, e, id);
      TerminalIsFinal(s1, es[1..], s', id);
      StepKeepsCoroutine(s, e, e.c);
      KeepsItsJob(s1, es[1..], s', e.c);
      EnteredAlong(s1, es[1..], s');
      CompletedIsEntered(s', id);
      i := 0;
    } else {
      var j := CompletedBy(s1, es[1..], s', id);
      i := j + 1;
    }
  }

  lemma CompletedIsEntered(s: Engine, id: JobId)
    requires Entered(s) && id in s.jobs && s.jobs[id].status == Completed
    ensures id in s.starts && s.starts[id] == 1
  {
  }

  lemma {:induction false} EnteredAlong(s: Engine, es: seq<Event>, s': Engine)
    requires Inv(s) && Entered(s) && Reaches(s, es, s')
    ensures Entered(s')
    decreases |es|
  {
    hide Inv, Enabled, Step, Entered;
    if es != [] {
      StepOk(s, es[0]);
      StepEnters(s, es[0]);
      EnteredAlong(Step(s, es[0]), es[1..], s');
    }
  }

  /** No execution of a job ends after it has ended and lost its owner. */
  lemma {:induction false} NoMoreExecutions(s: Engine, es: seq<Event>, s': Engine, id: JobId, j: nat)
    requires Inv(s) && Reaches(s, es, s') && id in s.jobs && s.jobs[id].status.Terminal()
    requires forall d :: !Owns(s, d, id)
    requires j < |es| && es[j].Executed?
    ensures !Targets(s', es[j].c, id)
    decreases |es|
  {
    hide Inv, Enabled, Step;
    var e := es[0];
    StepOk(s, e);
    StepFreezes(s, e, id);
    NoNewOwner(s, e, id);
    if j == 0 {
      StepKeepsCoroutine(s, e, e.c);
      KeepsItsJob(Step(s, e), es[1..], s', e.c);
    } else {
      NoMoreExecutions(Step(s, e), es[1..], s', id, j - 1);
    }
  }

  lemma NoNewOwner(s: Engine, e: Event, id: JobId)
    requires Inv(s) && Enabled(s, e) && id in s.jobs && s.jobs[id].status.Terminal()
    requires forall d :: !Owns(s, d, id)
    requires e.Validated? || e.Executed? ==> s.coroutines[e.c].jobId in s.jobs
    requires e.StartSaved? ==> s.coroutines[e.c].jobId in s.starts
    ensures forall d :: !Owns(Step(s, e), d, id)
    ensures e.Executed? ==> e.c in s.coroutines && s.coroutines[e.c].jobId != id
  {
    hide Inv, WrongStatus, NoTask, TaskError;
    assert e.StartSaved? || e.Executed? || e.Interrupt? ==> !Owns(s, e.c, id);
    forall d ensures !Owns(Step(s, e), d, id) {
      assert !Owns(s, d, id);
    }
  }

  /** Of one job at most one execution ever ends. */
  lemma {:induction false} OneExecution(s: Engine, es: seq<Event>, s': Engine, id: JobId, i: nat, j: nat)
    requires Inv(s) && Reaches(s, es, s')
    requires i < j < |es| && es[i].Executed? && es[j].Executed?
    ensures !(Targets(s', es[i].c, id) && Targets(s', es[j].c, id))
    decreases |es|
  {
    hide Inv, Enabled, Step;
    var e := es[0];
    StepOk(s, e);
    var s1 := Step(s, e);
    if i > 0 {
      OneExecution(s1, es[1..], s', id, i - 1, j - 1);
    } else {
      ExecutedAt(s, e);
      StepKeepsCoroutine(s, e, e.c);
      KeepsItsJob(s1, es[1..], s', e.c);
      if s1.coroutines[e.c].jobId == id {
        ExecutionWasTheOwners(s, e.c, e.o);
        NoMoreExecutions(s1, es[1..], s', id, j - 1);
      }
    }
  }

  lemma ExecutionWasTheOwners(s: Engine, c: Cid, o: Outcome)
    requires Inv(s) && At(s, c, Executing) && s.coroutines[c].jobId in s.jobs
    ensures var id, s1 := s.coroutines[c].jobId, Step(s, Executed(c, o));
      id in s1.jobs && s1.jobs[id].status.Terminal() && forall d :: !Owns(s1, d, id)
  {
    hide StartsOk, JobOk, CoroutineOk, AfterExecution;
    ExecutedEnds(s, c, o);
    var id, s1 := s.coroutines[c].jobId, Step(s, Executed(c, o));
    assert Owns(s, c, id);
    forall d ensures !Owns(s1, d, id) {
      assert d != c ==> Owns(s1, d, id) ==> Owns(s, d, id);
    }
  }

  /** In every interleaving from boot a completed job was entered once, exactly one execution of it ended, and
      the job's result is that execution's own. */
  lemma CompletedByItsExecution(registry: set<JobType>, es: seq<Event>, s: Engine, id: JobId) returns (i: nat)
    requires Inv(Boot(registry)) && Reaches(Boot(registry), es, s)
    requires id in s.jobs && s.jobs[id].status == Completed
    ensures id in s.starts && s.starts[id] == 1
    ensures i < |es| && es[i].Executed? && Targets(s, es[i].c, id)
    ensures es[i].o.Produced? && es[i].o.result.success && s.jobs[id].result == Some(es[i].o.result)
    ensures forall j :: 0 <= j < |es| && es[j].Executed? && Targets(s, es[j].c, id) ==> j == i
  {
    hide Inv, Reaches;
    i := CompletedBy(Boot(registry), es, s, id);
    forall j | 0 <= j < |es| && es[j].Executed? && Targets(s, es[j].c, id) ensures j == i {
      if i < j {
        OneExecution(Boot(registry), es, s, id, i, j);
      } else if j < i {
        OneExecution(Boot(registry), es, s, id, j, i);
      }
    }
  }

  // ---------------------------------------------------------------------------------------------
  // With the worker: interruption only after cancellation
  // ---------------------------------------------------------------------------------------------

  /** As `AsyncAIJobWorker.cancel_job` does it: a coroutine is interrupted only after a `cancel_job` of its job
      has returned. */
  ghost predicate Courteous(s: Engine, e: Event) {
    e.Interrupt? && e.c in s.coroutines ==>
      exists d :: At(s, d, CancelReturned) && s.coroutines[d].jobId == s.coroutines[e.c].jobId
  }

  ghost predicate CourteousRun(s: Engine, es: seq<Event>)
    requires Inv(s)
    decreases |es|
  {
    es == [] ||
    (Enabled(s, es[0]) && Courteous(s, es[0]) && (StepOk(s, es[0]); CourteousRun(Step(s, es[0]), es[1..])))
  }

  /** No running job has lost its owner. */
  ghost predicate Attended(s: Engine) {
    forall c :: At(s, c, Interrupted(true)) ==>
      s.coroutines[c].jobId in s.jobs && s.jobs[s.coroutines[c].jobId].status.Terminal()
  }

  lemma StepAttends(s: Engine, e: Event)
    requires Inv(s) && Enabled(s, e) && Attended(s) && Courteous(s, e)
    requires e.Validated? || e.Executed? ==> s.coroutines[e.c].jobId in s.jobs
    requires e.StartSaved? ==> s.coroutines[e.c].jobId in s.starts
    ensures Attended(Step(s, e))
  {
    hide Inv, JobOk, AfterLoad, AfterValidation, AfterExecution, AfterCancel;
    var s' := Step(s, e);
    forall c | At(s', c, Interrupted(true))
      ensures s'.coroutines[c].jobId in s'.jobs && s'.jobs[s'.coroutines[c].jobId].status.Terminal()
    {
      InterruptedBefore(s, e, c);
      StepFreezes(s, e, s.coroutines[c].jobId);
    }
  }

  lemma InterruptedBefore(s: Engine, e: Event, c: Cid)
    requires Inv(s) && Enabled(s, e) && Attended(s) && Courteous(s, e)
    requires e.Validated? || e.Executed? ==> s.coroutines[e.c].jobId in s.jobs
    requires e.StartSaved? ==> s.coroutines[e.c].jobId in s.starts
    requires At(Step(s, e), c, Interrupted(true))
    ensures c in s.coroutines && s.coroutines[c].jobId == Step(s, e).coroutines[c].jobId
    ensures s.coroutines[c].jobId in s.jobs && s.jobs[s.coroutines[c].jobId].status.Terminal()
  {
    hide StartsOk, JobOk, WrongStatus, NoTask, TaskError;
    if e == Interrupt(c) {
      var d :| At(s, d, CancelReturned) && s.coroutines[d].jobId == s.coroutines[c].jobId;
      assert CoroutineOk(s, s.coroutines[d]);
    } else {
      assert At(s, c, Interrupted(true));
    }
  }

  lemma {:induction false} AttendedAlong(s: Engine, es: seq<Event>, s': Engine)
    requires Inv(s) && Attended(s) && Reaches(s, es, s') && CourteousRun(s, es)
    ensures Attended(s')
    decreases |es|
  {
    hide Inv, Enabled, Step, Attended, Courteous;
    if es != [] {
      StepOk(s, es[0]);
      StepAttends(s, es[0]);
      AttendedAlong(Step(s, es[0]), es[1..], s');
    }
  }

  /** When interruption comes only from the worker's `cancel_job`, every running job has a live owner: no job is
      ever stuck in RUNNING. */
  lemma NoRunningJobIsStuck(registry: set<JobType>, es: seq<Event>, s: Engine, id: JobId)
    requires Inv(Boot(registry)) && Reaches(Boot(registry), es, s) && CourteousRun(Boot(registry), es)
    requires id in s.jobs && s.jobs[id].status == Running
    ensures exists c :: Owns(s, c, id) && !Ended(s.coroutines[c].phase)
  {
    hide CourteousRun, Reaches, JobOk;
    AttendedAlong(Boot(registry), es, s);
    ReachesOk(Boot(registry), es, s);
    assert StartsOk(s, id);
    var c :| Owns(s, c, id);
    assert !At(s, c, Interrupted(true));
  }
}
