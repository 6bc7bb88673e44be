/** What each continuation of `process_job` and `cancel_job` makes of its job, told by status and result alone, and
    that nothing but a passed validation leads into a task. */
module AsyncAnswers {
  import opened Prelude
  import opened AsyncJobs

  /** The job as it stands failed for the given reason. */
  predicate FailedWith(j: Job, error: string) {
    j.status == Failed && j.result == Some(TaskResult(false, "", Some(error)))
  }

  lemma NoTaskSays()
    ensures NoTask(Summarization) == "No task registered for job type 'summarization'."
    ensures NoTask(SentimentAnalysis) == "No task registered for job type 'sentiment_analysis'."
    ensures NoTask(DatasetProfiling) == "No task registered for job type 'dataset_profiling'."
  {
  }

  /** A submitted job is pending, of the given type, without a result, and never started. */
  lemma SubmitDecides(s: Engine, id: JobId, t: JobType)
    requires id !in s.jobs
    ensures var s' := Step(s, Submit(id, t));
      && s'.jobs.Keys == s.jobs.Keys + {id} && (forall k :: k in s.jobs ==> s'.jobs[k] == s.jobs[k])
      && s'.jobs[id].jobType == t && s'.jobs[id].status == Pending && s'.jobs[id].result == None
      && id in s'.starts && s'.starts[id] == 0
  {
  }

  /** Loading: an unknown id is reported, a job of a registered type goes on to validation as it is, and one of an
      unregistered type has failed by the time it is saved, unless it had ended before, when the call raises. */
  lemma LoadDecides(s: Engine, c: Cid)
    requires At(s, c, Loading)
    ensures var id, s' := s.coroutines[c].jobId, Step(s, Loaded(c));
      && (id !in s.jobs <==> At(s', c, NotFound))
      && (id !in s.jobs ==> s'.jobs == s.jobs)
      && (id in s.jobs && s.jobs[id].jobType in s.registry ==> s'.jobs == s.jobs && At(s', c, Validating))
      && (id in s.jobs && s.jobs[id].jobType !in s.registry && !s.jobs[id].status.Terminal() ==>
            At(s', c, Finishing) && FailedWith(s'.jobs[id], NoTask(s.jobs[id].jobType)))
      && (id in s.jobs && s.jobs[id].jobType !in s.registry && s.jobs[id].status.Terminal() ==>
            s'.jobs == s.jobs && c in s'.coroutines && s'.coroutines[c].phase.Raised?)
  {
    hide NoTask, WrongStatus;
    var id := s.coroutines[c].jobId;
    if id in s.jobs {
      assert s.jobs[id := s.jobs[id]] == s.jobs;
    }
  }

  /** A pending job was started exactly by a valid payload. */
  ghost predicate StartedIff(s: Engine, s': Engine, c: Cid, v: Validation)
    requires c in s.coroutines
  {
    var id := s.coroutines[c].jobId;
    id in s.jobs && s.jobs[id].status == Pending ==>
      id in s'.jobs && (s'.jobs[id].status == Running <==> v == Valid)
  }

  /** A running job was completed exactly by a successful task. */
  ghost predicate CompletedIff(s: Engine, s': Engine, c: Cid, o: Outcome)
    requires c in s.coroutines
  {
    var id := s.coroutines[c].jobId;
    id in s.jobs && s.jobs[id].status == Running ==>
      id in s'.jobs && (s'.jobs[id].status == Completed <==> o.Produced? && o.result.success)
  }

  lemma StartedOrNot(s: Engine, c: Cid, v: Validation)
    requires At(s, c, Validating) && s.coroutines[c].jobId in s.jobs
    ensures StartedIff(s, Step(s, Validated(c, v)), c, v)
  {
    hide Step;
    if s.jobs[s.coroutines[c].jobId].status == Pending {
      ValidationDecides(s, c, v);
    }
  }

  lemma CompletedOrNot(s: Engine, c: Cid, o: Outcome)
    requires At(s, c, Executing) && s.coroutines[c].jobId in s.jobs
    ensures CompletedIff(s, Step(s, Executed(c, o)), c, o)
  {
    hide Step;
    if s.jobs[s.coroutines[c].jobId].status == Running {
      ExecutionDecides(s, c, o);
    }
  }

  /** Validation of a pending job: it is left running, on the way into its task, exactly if the payload is valid, and
      otherwise failed with the validation's own error. */
  lemma ValidationDecides(s: Engine, c: Cid, v: Validation)
    requires At(s, c, Validating) && s.coroutines[c].jobId in s.jobs
    requires s.jobs[s.coroutines[c].jobId].status == Pending
    ensures var id, s' := s.coroutines[c].jobId, Step(s, Validated(c, v));
      && id in s'.jobs && c in s'.coroutines
      && (s'.jobs[id].status == Running <==> v == Valid)
      && (s'.coroutines[c].phase == Starting <==> v == Valid)
      && (v == Valid ==> s'.jobs[id].result == s.jobs[id].result)
      && (v.InvalidPayload? ==> FailedWith(s'.jobs[id], v.error) && At(s', c, Finishing))
      && (v.ValidationCrash? ==> FailedWith(s'.jobs[id], "Unexpected error: " + v.error) && At(s', c, Finishing))
      && s'.starts == s.starts
  {
    hide WrongStatus;
  }

  /** Execution of a job that is still running: a success completes it with the very result; a failure, a
      `ValueError` and any other exception fail it, each with its own message. */
  lemma ExecutionDecides(s: Engine, c: Cid, o: Outcome)
    requires At(s, c, Executing) && s.coroutines[c].jobId in s.jobs
    requires s.jobs[s.coroutines[c].jobId].status == Running
    ensures var id, s' := s.coroutines[c].jobId, Step(s, Executed(c, o));
      && id in s'.jobs && At(s', c, Finishing)
      && (s'.jobs[id].status == Completed <==> o.Produced? && o.result.success)
      && (s'.jobs[id].status == Completed ==> s'.jobs[id].result == Some(o.result))
      && (o.Produced? && !o.result.success ==>
            FailedWith(s'.jobs[id],
              if o.result.error.None? || o.result.error.value == "" then "Task returned failure without a message."
              else o.result.error.value))
      && (o.RaisedValueError? ==> FailedWith(s'.jobs[id], o.error))
      && (o.Crashed? ==> FailedWith(s'.jobs[id], "Unexpected error: " + o.error))
  {
    hide WrongStatus;
  }

  /** Cancellation: a pending or running job is cancelled, without a result of its own; any other is left as it is
      and the call raises. */
  lemma CancelDecides(s: Engine, c: Cid)
    requires At(s, c, CancelLoading)
    ensures var id, s' := s.coroutines[c].jobId, Step(s, CancelLoaded(c));
      && (id !in s.jobs <==> At(s', c, NotFound))
      && (id !in s.jobs ==> s'.jobs == s.jobs)
      && (id in s.jobs ==>
            && (s.jobs[id].status == Pending || s.jobs[id].status == Running <==> At(s', c, CancelUpdating))
            && (At(s', c, CancelUpdating) ==>
                  s'.jobs[id].status == Cancelled && s'.jobs[id].result == s.jobs[id].result)
            && (!At(s', c, CancelUpdating) ==>
                  && s'.jobs == s.jobs
                  && At(s', c, Raised("Cannot cancel job in status '" + s.jobs[id].status.Name() + "'."))))
  {
    var id := s.coroutines[c].jobId;
    if id in s.jobs {
      assert s.jobs[id := s.jobs[id]] == s.jobs;
    }
  }

  // ---------------------------------------------------------------------------------------------
  // Only a passed validation leads into a task
  // ---------------------------------------------------------------------------------------------

  /** Whoever is about to enter a task, or is in it, has passed its validation. */
  ghost predicate Vetted(s: Engine, past: seq<Event>) {
    forall c :: At(s, c, Starting) || At(s, c, Executing) ==> Validated(c, Valid) in past
  }

  lemma StepVets(s: Engine, past: seq<Event>, e: Event)
    requires Inv(s) && Enabled(s, e) && Vetted(s, past)
    requires e.Validated? || e.Executed? ==> s.coroutines[e.c].jobId in s.jobs
    requires e.StartSaved? ==> s.coroutines[e.c].jobId in s.starts
    ensures Vetted(Step(s, e), past + [e])
  {
    hide Inv, WrongStatus, NoTask, TaskError;
    var s', now := Step(s, e), past + [e];
    assert e == now[|past|];
    forall c | At(s', c, Starting) || At(s', c, Executing) ensures Validated(c, Valid) in now {
      if At(s, c, Starting) || At(s, c, Executing) {
        assert Validated(c, Valid) in past;
      }
    }
  }

  lemma {:induction false} EnteredAfterValid(s: Engine, past: seq<Event>, es: seq<Event>, s': Engine, i: nat)
    requires Inv(s) && Vetted(s, past) && Reaches(s, es, s') && i < |es| && es[i].StartSaved?
    ensures Validated(es[i].c, Valid) in past + es[..i]
    decreases |es|
  {
    hide Inv, Step;
    if i == 0 {
      assert At(s, es[0].c, Starting);
    } else {
      StepOk(s, es[0]);
      StepVets(s, past, es[0]);
      EnteredAfterValid(Step(s, es[0]), past + [es[0]], es[1..], s', i - 1);
      assert past + [es[0]] + es[1..][..i - 1] == past + es[..i];
    }
  }

  /** In every interleaving from boot, a coroutine enters `task.execute` only after its own validation found the
      payload valid. */
  lemma TaskNeedsValidPayload(registry: set<JobType>, es: seq<Event>, s: Engine, i: nat)
    requires Inv(Boot(registry)) && Reaches(Boot(registry), es, s) && i < |es| && es[i].StartSaved?
    ensures exists j :: 0 <= j < i && es[j] == Validated(es[i].c, Valid)
  {
    EnteredAfterValid(Boot(registry), [], es, s, i);
    assert [] + es[..i] == es[..i];
    var j :| 0 <= j < |es[..i]| && es[..i][j] == Validated(es[i].c, Valid);
    assert es[j] == Validated(es[i].c, Valid);
  }

  /** Starts are counted at that event and nowhere else. */
  lemma StartsCountEntries(s: Engine, e: Event, id: JobId)
    requires Inv(s) && Enabled(s, e) && id in s.starts
    requires e.Validated? || e.Executed? ==> s.coroutines[e.c].jobId in s.jobs
    requires e.StartSaved? ==> s.coroutines[e.c].jobId in s.starts
    ensures id in Step(s, e).starts
    ensures Step(s, e).starts[id] == s.starts[id] + if e.StartSaved? && s.coroutines[e.c].jobId == id then 1 else 0
  {
    hide AfterLoad, AfterValidation, AfterExecution, AfterCancel, JobOk, CoroutineOk;
  }
}
