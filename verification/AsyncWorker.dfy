/** The asyncio worker: tasks behind a semaphore, the table of running tasks, and cancellation, with every
    await a point where anything else may run. */
module AsyncWorker {
  import opened Prelude

  type JobId = nat
  type TaskId = nat
  type CallId = nat

  /** `_run`: waiting for the semaphore, inside its block, in the completion hook, or done. */
  datatype Phase = Queued | Inside | InHook | Done

  /** `callback` is true until the task's done callback has run. */
  datatype Task = Task(jobId: JobId, phase: Phase, callback: bool)

  /** `cancel_job`: awaiting the orchestrator, awaiting the cancelled task, or finished. */
  datatype CancelPhase = Asking | Gathering(task: TaskId) | Answered

  datatype CancelCall = CancelCall(jobId: JobId, phase: CancelPhase)

  datatype Worker = Worker(
    permits: int,
    tasks: map<TaskId, Task>,
    table: map<JobId, TaskId>,
    cancels: map<CallId, CancelCall>)

  function Idle(maxConcurrent: nat): Worker { Worker(maxConcurrent, map[], map[], map[]) }

  datatype Event =
    | Enqueue(id: JobId, t: TaskId)
    | Acquire(t: TaskId)
    | Leave(t: TaskId, hook: bool)
    | HookReturns(t: TaskId)
    | AbortQueued(t: TaskId)
    | AbortHook(t: TaskId)
    | DoneCallback(t: TaskId)
    | CallCancel(c: CallId, id: JobId)
    | OrchestratorAnswers(c: CallId, accepted: bool)
    | TaskGathered(c: CallId)

  predicate In(s: Worker, t: TaskId, p: Phase) { t in s.tasks && s.tasks[t].phase == p }

  predicate Enabled(s: Worker, e: Event) {
    match e
    case Enqueue(_, t) => t !in s.tasks
    case Acquire(t) => In(s, t, Queued) && s.permits > 0
    case Leave(t, _) => In(s, t, Inside)
    case HookReturns(t) => In(s, t, InHook)
    case AbortQueued(t) => In(s, t, Queued)
    case AbortHook(t) => In(s, t, InHook)
    case DoneCallback(t) => In(s, t, Done) && s.tasks[t].callback
    case CallCancel(c, _) => c !in s.cancels
    case OrchestratorAnswers(c, _) => c in s.cancels && s.cancels[c].phase == Asking
    case TaskGathered(c) => c in s.cancels && s.cancels[c].phase.Gathering? && In(s, s.cancels[c].phase.task, Done)
  }

  function Goto(s: Worker, t: TaskId, p: Phase): Worker
    requires t in s.tasks
  {
    s.(tasks := s.tasks[t := s.tasks[t].(phase := p)])
  }

  function Answer(s: Worker, c: CallId, p: CancelPhase): Worker
    requires c in s.cancels
  {
    s.(cancels := s.cancels[c := s.cancels[c].(phase := p)])
  }

  predicate Unfinished(s: Worker, t: TaskId) { t in s.tasks && s.tasks[t].phase != Done }

  function Step(s: Worker, e: Event): Worker
    requires Enabled(s, e)
  {
    match e
    case Enqueue(id, t) => s.(tasks := s.tasks[t := Task(id, Queued, true)], table := s.table[id := t])
    case Acquire(t) => Goto(s, t, Inside).(permits := s.permits - 1)
    case Leave(t, hook) => Goto(s, t, if hook then InHook else Done).(permits := s.permits + 1)
    case HookReturns(t) => Goto(s, t, Done)
    case AbortQueued(t) => Goto(s, t, Done)
    case AbortHook(t) => Goto(s, t, Done)
    case DoneCallback(t) =>
      s.(tasks := s.tasks[t := s.tasks[t].(callback := false)], table := s.table - {s.tasks[t].jobId})
    case CallCancel(c, id) => s.(cancels := s.cancels[c := CancelCall(id, Asking)])
    case OrchestratorAnswers(c, accepted) =>
      var id := s.cancels[c].jobId;
      if accepted && id in s.table && Unfinished(s, s.table[id]) then Answer(s, c, Gathering(s.table[id]))
      else Answer(s, c, Answered)
    case TaskGathered(c) => Answer(s, c, Answered).(table := s.table - {s.cancels[c].jobId})
  }

  // ---------------------------------------------------------------------------------------------
  // The semaphore
  // ---------------------------------------------------------------------------------------------

  function InsideTasks(s: Worker): set<TaskId> { set t | t in s.tasks && s.tasks[t].phase == Inside }

  ghost predicate SemaphoreOk(s: Worker, maxConcurrent: nat) {
    0 <= s.permits && s.permits + |InsideTasks(s)| == maxConcurrent
  }

  lemma StepKeepsSemaphore(s: Worker, e: Event, maxConcurrent: nat)
    requires SemaphoreOk(s, maxConcurrent) && Enabled(s, e)
    ensures SemaphoreOk(Step(s, e), maxConcurrent)
  {
    InsideAfter(s, e);
  }

  lemma InsideAfter(s: Worker, e: Event)
    requires Enabled(s, e)
    ensures var before, after := InsideTasks(s), InsideTasks(Step(s, e));
      match e
      case Acquire(t) => t !in before && after == before + {t}
      case Leave(t, _) => t in before && after == before - {t}
      case _ => after == before
  {
    var s' := Step(s, e);
    assert forall t :: t in InsideTasks(s) <==> In(s, t, Inside);
    assert forall t :: t in InsideTasks(s') <==> In(s', t, Inside);
  }

  ghost predicate Reaches(s: Worker, es: seq<Event>, s': Worker)
    decreases |es|
  {
    if es == [] then s' == s else Enabled(s, es[0]) && Reaches(Step(s, es[0]), es[1..], s')
  }

  lemma {:induction false} SemaphoreAlongRun(s: Worker, es: seq<Event>, s': Worker, maxConcurrent: nat)
    requires SemaphoreOk(s, maxConcurrent) && Reaches(s, es, s')
    ensures SemaphoreOk(s', maxConcurrent)
    decreases |es|
  {
    if es != [] {
      StepKeepsSemaphore(s, es[0], maxConcurrent);
      SemaphoreAlongRun(Step(s, es[0]), es[1..], s', maxConcurrent);
    }
  }

  /** In every interleaving, permits are conserved, so no more than `maxConcurrent` jobs are processed at once. */
  lemma ConcurrencyBound(maxConcurrent: nat, es: seq<Event>, s: Worker)
    requires Reaches(Idle(maxConcurrent), es, s)
    ensures s.permits + |InsideTasks(s)| == maxConcurrent && |InsideTasks(s)| <= maxConcurrent
  {
    assert InsideTasks(Idle(maxConcurrent)) == {};
    SemaphoreAlongRun(Idle(maxConcurrent), es, s, maxConcurrent);
  }

  // ---------------------------------------------------------------------------------------------
  // The task table
  // ---------------------------------------------------------------------------------------------

  /** No unfinished task is missing from the table. */
  ghost predicate Tracked(s: Worker) {
    forall t :: Unfinished(s, t) ==> s.tasks[t].jobId in s.table && s.table[s.tasks[t].jobId] == t
  }

  /** Unfinished, or finished with its callback still to come. */
  predicate Active(s: Worker, t: TaskId, id: JobId) {
    t in s.tasks && s.tasks[t].jobId == id && (s.tasks[t].phase != Done || s.tasks[t].callback)
  }

  predicate Awaits(s: Worker, c: CallId, id: JobId) {
    c in s.cancels && s.cancels[c].jobId == id && s.cancels[c].phase.Gathering?
  }

  ghost predicate TableOk(s: Worker) {
    && Tracked(s)
    && (forall t :: Unfinished(s, t) ==> s.tasks[t].callback)
    && (forall id :: id in s.table ==> Active(s, s.table[id], id))
    && (forall t, u, id :: Active(s, t, id) && Active(s, u, id) ==> t == u)
    && (forall c, id :: Awaits(s, c, id) ==>
          && s.cancels[c].phase.task in s.tasks
          && s.tasks[s.cancels[c].phase.task].jobId == id
          && forall t :: Active(s, t, id) ==> t == s.cancels[c].phase.task)
  }

  /** Nothing left over from an earlier run of the job can still touch its table entry. */
  ghost predicate Quiet(s: Worker, id: JobId) {
    (forall t :: !Active(s, t, id)) && (forall c :: !Awaits(s, c, id))
  }

  lemma StepKeepsTable(s: Worker, e: Event)
    requires TableOk(s) && Enabled(s, e)
    requires e.Enqueue? ==> Quiet(s, e.id)
    ensures TableOk(Step(s, e))
  {
    hide TableOk, Quiet;
    match e {
      case Enqueue(id, t) => EnqueueKeepsTable(s, id, t);
      case OrchestratorAnswers(c, accepted) => AnswerKeepsTable(s, c, accepted);
      case TaskGathered(c) => GatheredKeepsTable(s, c);
      case DoneCallback(t) => CallbackKeepsTable(s, t);
      case CallCancel(c, id) => CallKeepsTable(s, c, id);
      case Acquire(t) => MoveKeepsTable(s, t, Inside, s.permits - 1);
      case Leave(t, hook) => MoveKeepsTable(s, t, if hook then InHook else Done, s.permits + 1);
      case HookReturns(t) => MoveKeepsTable(s, t, Done, s.permits);
      case AbortQueued(t) => MoveKeepsTable(s, t, Done, s.permits);
      case AbortHook(t) => MoveKeepsTable(s, t, Done, s.permits);
    }
  }

  lemma EnqueueKeepsTable(s: Worker, id: JobId, t: TaskId)
    requires TableOk(s) && Quiet(s, id) && t !in s.tasks
    ensures TableOk(Step(s, Enqueue(id, t)))
  {
    var s' := Step(s, Enqueue(id, t));
    assert forall u, i :: Active(s', u, i) ==> Active(s, u, i) || (u == t && i == id);
    assert forall c, i :: Awaits(s', c, i) ==> Awaits(s, c, i);
  }

  lemma AnswerKeepsTable(s: Worker, c: CallId, accepted: bool)
    requires TableOk(s) && c in s.cancels && s.cancels[c].phase == Asking
    ensures TableOk(Step(s, OrchestratorAnswers(c, accepted)))
  {
    var s' := Step(s, OrchestratorAnswers(c, accepted));
    assert forall u, i :: Active(s', u, i) <==> Active(s, u, i);
    assert forall d, i :: Awaits(s', d, i) ==> Awaits(s, d, i) || (d == c && i == s.cancels[c].jobId);
  }

  lemma GatheredKeepsTable(s: Worker, c: CallId)
    requires TableOk(s) && Enabled(s, TaskGathered(c))
    ensures TableOk(Step(s, TaskGathered(c)))
  {
    var s' := Step(s, TaskGathered(c));
    assert Awaits(s, c, s.cancels[c].jobId);
    assert forall u, i :: Active(s', u, i) <==> Active(s, u, i);
    assert forall d, i :: Awaits(s', d, i) ==> Awaits(s, d, i);
    PoppedUntracked(s, s.cancels[c].phase.task, s.cancels[c].jobId);
  }

  lemma CallbackKeepsTable(s: Worker, t: TaskId)
    requires TableOk(s) && Enabled(s, DoneCallback(t))
    ensures TableOk(Step(s, DoneCallback(t)))
  {
    var s' := Step(s, DoneCallback(t));
    assert Active(s, t, s.tasks[t].jobId);
    assert forall u, i :: Active(s', u, i) ==> Active(s, u, i);
    assert forall u, i :: Active(s, u, i) && u != t ==> Active(s', u, i);
    assert forall d, i :: Awaits(s', d, i) ==> Awaits(s, d, i);
    PoppedUntracked(s, t, s.tasks[t].jobId);
  }

  lemma CallKeepsTable(s: Worker, c: CallId, id: JobId)
    requires TableOk(s) && c !in s.cancels
    ensures TableOk(Step(s, CallCancel(c, id)))
  {
    var s' := Step(s, CallCancel(c, id));
    assert forall u, i :: Active(s', u, i) <==> Active(s, u, i);
    assert forall d, i :: Awaits(s', d, i) ==> Awaits(s, d, i);
  }

  /** A task that moves on inside `_run`. */
  lemma MoveKeepsTable(s: Worker, t: TaskId, p: Phase, permits: int)
    requires TableOk(s) && Unfinished(s, t)
    ensures TableOk(Goto(s, t, p).(permits := permits))
  {
    var s' := Goto(s, t, p).(permits := permits);
    assert forall u, i :: Active(s', u, i) <==> Active(s, u, i);
    assert forall c, i :: Awaits(s', c, i) ==> Awaits(s, c, i);
  }

  /** The task whose entry is about to be popped is the only one its job can still have. */
  lemma PoppedUntracked(s: Worker, t: TaskId, id: JobId)
    requires TableOk(s) && In(s, t, Done)
    requires forall u :: Active(s, u, id) ==> u == t
    ensures forall u :: Unfinished(s, u) ==> s.tasks[u].jobId != id
  {
    assert forall u :: Unfinished(s, u) ==> Active(s, u, s.tasks[u].jobId);
  }

  ghost predicate QuietRun(s: Worker, es: seq<Event>)
    decreases |es|
  {
    es == [] || (Enabled(s, es[0]) && (es[0].Enqueue? ==> Quiet(s, es[0].id)) && QuietRun(Step(s, es[0]), es[1..]))
  }

  lemma {:induction false} TableAlongRun(s: Worker, es: seq<Event>, s': Worker)
    requires TableOk(s) && QuietRun(s, es) && Reaches(s, es, s')
    ensures TableOk(s')
    decreases |es|
  {
    if es != [] {
      StepKeepsTable(s, es[0]);
      TableAlongRun(Step(s, es[0]), es[1..], s');
    }
  }

  /** Ids that come from `submit_and_enqueue` are fresh, so none is enqueued twice. */
  predicate FreshIds(es: seq<Event>) {
    forall i, j :: 0 <= i < j < |es| && es[i].Enqueue? && es[j].Enqueue? ==> es[i].id != es[j].id
  }

  ghost predicate Unseen(s: Worker, es: seq<Event>) {
    forall t, i :: t in s.tasks && 0 <= i < |es| && es[i].Enqueue? ==> s.tasks[t].jobId != es[i].id
  }

  lemma {:induction false} FreshRunsAreQuiet(s: Worker, es: seq<Event>, s': Worker)
    requires TableOk(s) && FreshIds(es) && Unseen(s, es) && Reaches(s, es, s')
    ensures QuietRun(s, es)
    decreases |es|
  {
    if es != [] {
      StepKeepsTable(s, es[0]);
      var s1, rest := Step(s, es[0]), es[1..];
      assert forall i :: 0 <= i < |rest| ==> rest[i] == es[i + 1];
      assert Unseen(s1, rest);
      FreshRunsAreQuiet(s1, rest, s');
    }
  }

  /** When every job is submitted through `submit_and_enqueue`, no unfinished task is ever missing from the
      table, and the table holds nothing but tasks that are unfinished or about to be removed. */
  lemma SubmittedTasksAreTracked(maxConcurrent: nat, es: seq<Event>, s: Worker)
    requires FreshIds(es) && Reaches(Idle(maxConcurrent), es, s)
    ensures Tracked(s)
    ensures forall id :: id in s.table ==> Active(s, s.table[id], id)
  {
    FreshRunsAreQuiet(Idle(maxConcurrent), es, s);
    TableAlongRun(Idle(maxConcurrent), es, s);
  }

  /** A run of quiet enqueues and anything else, at whose end an unfinished task is missing from the table. */
  ghost predicate Loses(s: Worker, es: seq<Event>, s': Worker) {
    QuietRun(s, es) && Reaches(s, es, s') && !Tracked(s')
  }

  /** What the orchestrator's answer leads to: the tabled task is cancelled and awaited exactly if the cancellation was
      accepted and that task is unfinished; nothing else changes. */
  lemma AnswerDecides(s: Worker, c: CallId, accepted: bool)
    requires Enabled(s, OrchestratorAnswers(c, accepted))
    ensures var id, s' := s.cancels[c].jobId, Step(s, OrchestratorAnswers(c, accepted));
      && c in s'.cancels && s'.cancels[c].jobId == id
      && (s'.cancels[c].phase.Gathering? <==>
            accepted && id in s.table && s.table[id] in s.tasks && s.tasks[s.table[id]].phase != Done)
      && (s'.cancels[c].phase.Gathering? ==> s'.cancels[c].phase.task == s.table[id])
      && (!s'.cancels[c].phase.Gathering? ==> s'.cancels[c].phase == Answered)
      && s'.tasks == s.tasks && s'.table == s.table && s'.permits == s.permits
  {
  }

  /** Whoever awaits a cancelled task had been accepted. */
  ghost predicate Accepted(s: Worker, past: seq<Event>) {
    forall c :: c in s.cancels && s.cancels[c].phase.Gathering? ==> OrchestratorAnswers(c, true) in past
  }

  lemma {:induction false} AcceptedAlong(s: Worker, past: seq<Event>, es: seq<Event>, s': Worker)
    requires Accepted(s, past) && Reaches(s, es, s')
    ensures Accepted(s', past + es)
    decreases |es|
  {
    if es == [] {
      assert past + es == past;
    } else {
      var e, s1, now := es[0], Step(s, es[0]), past + [es[0]];
      assert e == now[|past|];
      forall c | c in s1.cancels && s1.cancels[c].phase.Gathering? ensures OrchestratorAnswers(c, true) in now {
        if c in s.cancels && s.cancels[c].phase.Gathering? {
          assert OrchestratorAnswers(c, true) in past;
        }
      }
      AcceptedAlong(s1, now, es[1..], s');
      assert now + es[1..] == past + es;
    }
  }

  /** In every interleaving a task is cancelled only on behalf of a call whose cancellation the orchestrator has
      accepted. */
  lemma OnlyAcceptedCancels(maxConcurrent: nat, es: seq<Event>, s: Worker, c: CallId)
    requires Reaches(Idle(maxConcurrent), es, s) && c in s.cancels && s.cancels[c].phase.Gathering?
    ensures OrchestratorAnswers(c, true) in es
  {
    AcceptedAlong(Idle(maxConcurrent), [], es, s);
    assert [] + es == es;
  }

  /** For any other use, exactly the quiet enqueues are safe.  After one, no run of quiet enqueues and anything
      else ever loses an unfinished task; after any other, some run does. */
  lemma EnqueueSafeIffQuiet(s: Worker, id: JobId, t: TaskId)
    requires TableOk(s) && t !in s.tasks
    ensures var s1 := Step(s, Enqueue(id, t));
      Quiet(s, id) <==> forall es, s' :: !Loses(s1, es, s')
  {
    hide TableOk, Quiet;
    var s1 := Step(s, Enqueue(id, t));
    if Quiet(s, id) {
      StepKeepsTable(s, Enqueue(id, t));
      forall es, s' ensures !Loses(s1, es, s') {
        if QuietRun(s1, es) && Reaches(s1, es, s') {
          TableAlongRun(s1, es, s');
          TableTracks(s');
        }
      }
    } else {
      var es, s' := UnquietLoses(s, id, t);
    }
  }

  lemma TableTracks(s: Worker)
    requires TableOk(s)
    ensures Tracked(s)
  {
  }

  /** An unquiet enqueue loses an unfinished task at once, or in one step that is already pending. */
  lemma UnquietLoses(s: Worker, id: JobId, t: TaskId) returns (es: seq<Event>, s': Worker)
    requires TableOk(s) && t !in s.tasks && !Quiet(s, id)
    ensures Loses(Step(s, Enqueue(id, t)), es, s')
  {
    var s1 := Step(s, Enqueue(id, t));
    es, s' := [], s1;
    assert Unfinished(s1, t);
    if u :| Active(s, u, id) {
      if s.tasks[u].phase != Done {
        assert Unfinished(s1, u);
      } else {
        s' := OneStep(s1, DoneCallback(u));
        es := [DoneCallback(u)];
        assert Unfinished(s', t);
      }
    } else {
      var c :| Awaits(s, c, id);
      assert !Active(s, s.cancels[c].phase.task, id);
      s' := OneStep(s1, TaskGathered(c));
      es := [TaskGathered(c)];
      assert Unfinished(s', t);
    }
  }

  lemma OneStep(s: Worker, e: Event) returns (s': Worker)
    requires Enabled(s, e) && !e.Enqueue?
    ensures s' == Step(s, e) && Reaches(s, [e], s') && QuietRun(s, [e])
  {
    s' := Step(s, e);
    assert [e][1..] == [];
  }

  /** The loss does happen: a job enqueued again after its first task is done, but before that task's callback
      has run, ends up with an unfinished task that the table does not know. */
  lemma ReEnqueueLosesTask() returns (es: seq<Event>, s: Worker)
    ensures Reaches(Idle(1), es, s)
    ensures Unfinished(s, 1) && s.tasks[1].jobId == 0 && 0 !in s.table && !Tracked(s)
  {
    var e := [Enqueue(0, 0), Acquire(0), Leave(0, false), Enqueue(0, 1), DoneCallback(0)];
    var s1 := Step(Idle(1), e[0]);
    var s2 := Step(s1, e[1]);
    var s3 := Step(s2, e[2]);
    var s4 := Step(s3, e[3]);
    s := OneStep(s4, e[4]);
    assert e[4..] == [e[4]] && e[3..][1..] == e[4..] && e[2..][1..] == e[3..] && e[1..][1..] == e[2..];
    assert Reaches(s3, e[3..], s);
    assert Reaches(s2, e[2..], s);
    assert Reaches(s1, e[1..], s);
    es := e;
  }

  // ---------------------------------------------------------------------------------------------
  // The worker object
  // ---------------------------------------------------------------------------------------------

  /** Each method is one uninterrupted stretch of one of the worker's coroutines or callbacks. */
  class AsyncAIJobWorker {
    var permits: int
    var tasks: map<TaskId, Task>
    var table: map<JobId, TaskId>
    var cancels: map<CallId, CancelCall>

    function View(): Worker
      reads this
    {
      Worker(permits, tasks, table, cancels)
    }

    constructor (maxConcurrent: nat)
      ensures View() == Idle(maxConcurrent)
    {
      permits, tasks, table, cancels := maxConcurrent, map[], map[], map[];
    }

    method EnqueueJob(id: JobId, t: TaskId)
      requires t !in tasks
      modifies this
      ensures View() == Step(old(View()), Enqueue(id, t))
    {
      tasks := tasks[t := Task(id, Queued, true)];
      table := table[id := t];
    }

    method EnterSemaphore(t: TaskId)
      requires Enabled(View(), Acquire(t))
      modifies this
      ensures View() == Step(old(View()), Acquire(t))
    {
      permits := permits - 1;
      tasks := tasks[t := tasks[t].(phase := Inside)];
    }

    /** Leaving the block, by return or by any exception; only a return can lead to the hook. */
    method LeaveSemaphore(t: TaskId, returned: bool, onComplete: bool)
      requires In(View(), t, Inside)
      modifies this
      ensures View() == Step(old(View()), Leave(t, returned && onComplete))
    {
      permits := permits + 1;
      var next := Done;
      if returned && onComplete {
        next := InHook;
      }
      tasks := tasks[t := tasks[t].(phase := next)];
    }

    method FinishHook(t: TaskId)
      requires In(View(), t, InHook)
      modifies this
      ensures View() == Step(old(View()), HookReturns(t))
    {
      tasks := tasks[t := tasks[t].(phase := Done)];
    }

    method AbortWaiting(t: TaskId)
      requires In(View(), t, Queued)
      modifies this
      ensures View() == Step(old(View()), AbortQueued(t))
    {
      tasks := tasks[t := tasks[t].(phase := Done)];
    }

    /** The done callback pops the entry of the job id, whichever task it holds. */
    method OnTaskDone(t: TaskId)
      requires Enabled(View(), DoneCallback(t))
      modifies this
      ensures View() == Step(old(View()), DoneCallback(t))
    {
      table := table - {tasks[t].jobId};
      tasks := tasks[t := tasks[t].(callback := false)];
    }

    method CancelJob(c: CallId, id: JobId)
      requires c !in cancels
      modifies this
      ensures View() == Step(old(View()), CallCancel(c, id))
    {
      cancels := cancels[c := CancelCall(id, Asking)];
    }

    method OnOrchestratorAnswer(c: CallId, accepted: bool)
      requires Enabled(View(), OrchestratorAnswers(c, accepted))
      modifies this
      ensures View() == Step(old(View()), OrchestratorAnswers(c, accepted))
    {
      var id := cancels[c].jobId;
      var next := Answered;
      if accepted && id in table && table[id] in tasks && tasks[table[id]].phase != Done {
        next := Gathering(table[id]);
      }
      cancels := cancels[c := cancels[c].(phase := next)];
    }

    method OnTaskGathered(c: CallId)
      requires Enabled(View(), TaskGathered(c))
      modifies this
      ensures View() == Step(old(View()), TaskGathered(c))
    {
      table := table - {cancels[c].jobId};
      cancels := cancels[c := cancels[c].(phase := Answered)];
    }
  }
}
