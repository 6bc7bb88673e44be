/** The API service's wait for a job: poll, sleep, back off, give up at the timeout.

    Time is in exact seconds since the call.  Reply number `k` of the worker and the extra time that attempt `k`
    takes beyond its sleep are oracles.
 */
module Polling {
  import opened Prelude

  /** What one status request ends in. */
  datatype Reply =
    | Status(status: string, result: Option<string>, error: string)
    | NotFound
    | RequestFailed(message: string)
    | Unexpected(message: string)

  datatype Outcome =
    | Completed(result: Option<string>)
    | TimedOut
    | Raised(message: string)

  /** What the loop does with a reply. */
  datatype Verdict = Finish(outcome: Outcome) | BackOff | WaitOnly

  function LowerChar(c: char): char { if 'A' <= c <= 'Z' then c - 'A' + 'a' else c }

  function Lower(s: string): string { seq(|s|, i requires 0 <= i < |s| => LowerChar(s[i])) }

  predicate Contains(s: string, part: string) { part <= s || (s != [] && Contains(s[1..], part)) }

  /** The handler of `ValueError`: by its message, the error either ends the wait or only delays it. */
  function OnValueError(message: string): Verdict {
    if Contains(Lower(message), "failed") || Contains(Lower(message), "cancelled") then Finish(Raised(message))
    else if !Contains(Lower(message), "job not found") then Finish(Raised(message))
    else WaitOnly
  }

  /** `get_job_status` reports every failed request as a `ValueError`, so the handler sees nothing else. */
  function Judge(jobId: string, r: Reply): Verdict {
    match r
    case Status(s, result, error) =>
      if s == "completed" then Finish(Completed(result))
      else if s == "failed" then OnValueError("Job failed: " + error)
      else if s == "cancelled" then OnValueError("Job was cancelled")
      else BackOff
    case NotFound => OnValueError("Job not found: " + jobId)
    case RequestFailed(m) => OnValueError("Failed to get job status: " + m)
    case Unexpected(m) => Finish(Raised(m))
  }

  function NextInterval(p: real): real { Least(p * 1.5, 5.0) }

  /** The interval after `k` unfinished replies. */
  function IntervalAfter(p: real, k: nat): real {
    if k == 0 then p else NextInterval(IntervalAfter(p, k - 1))
  }

  /** A wait: the job, the first interval, the timeout, the two oracles, and a time `tick` that every attempt takes
      at least; zero will do unless the first interval is itself zero. */
  datatype Wait = Wait(
    jobId: string,
    interval: real,
    timeout: real,
    replies: nat -> Reply,
    extra: nat -> real,
    tick: real)
  {
    /** What reply `k` leads to: no wait can go on with a negative interval, as the first sleep raises. */
    function Verdict(k: nat): Verdict {
      var v := Judge(jobId, replies(k));
      if v.Finish? || interval >= 0.0 then v else Finish(Raised(BAD_SLEEP))
    }

    predicate Unfinished(k: nat) { Verdict(k) == BackOff }

    predicate GoesOn(k: nat) { !Verdict(k).Finish? }

    /** Unfinished replies among the first `k`. */
    function BackOffs(k: nat): nat {
      if k == 0 then 0 else BackOffs(k - 1) + if Unfinished(k - 1) then 1 else 0
    }

    /** Status replies among the first `k`: what the loop counts as polls. */
    function Answers(k: nat): nat {
      if k == 0 then 0 else Answers(k - 1) + if replies(k - 1).Status? then 1 else 0
    }

    /** What is slept after reply `k`. */
    function Sleep(k: nat): real { IntervalAfter(interval, BackOffs(k)) }

    /** The clock before attempt `k`. */
    function Clock(k: nat): real {
      if k == 0 then 0.0 else Clock(k - 1) + extra(k - 1) + Sleep(k - 1)
    }

    /** The least time from one attempt to the next. */
    function Pace(): real { if interval < 0.0 then 1.0 else Least(interval, 5.0) + tick }

    /** How often that fits in the time left before attempt `k`. */
    function Left(k: nat): real
      requires Pace() > 0.0
    {
      (timeout - Clock(k)) / Pace()
    }

    /** The clock does not go back, and moves even if nothing is slept. */
    ghost predicate Timely() {
      && tick >= 0.0 && (interval == 0.0 ==> tick > 0.0) && Pace() > 0.0
      && forall k: nat :: extra(k) >= tick
    }

    /** `n` attempts are made: each in time and, but for the last, with a reply to go on from. */
    ghost predicate Attempts(n: nat) {
      && (forall k: nat :: k < n ==> Clock(k) <= timeout)
      && (forall k: nat :: k + 1 < n ==> GoesOn(k))
    }

    /** The wait ends after `n` attempts with the given outcome. */
    ghost predicate Ends(n: nat, outcome: Outcome) {
      && Attempts(n)
      && (if outcome.TimedOut? then Clock(n) > timeout && (n > 0 ==> GoesOn(n - 1))
          else n > 0 && !GoesOn(n - 1) && Verdict(n - 1) == Finish(outcome))
    }
  }

  lemma {:induction false} IntervalBounds(p: real, k: nat)
    requires p >= 0.0
    ensures Least(p, 5.0) <= IntervalAfter(p, k) <= Greatest(p, 5.0)
  {
    if k > 0 {
      IntervalBounds(p, k - 1);
    }
  }

  lemma ClockStep(w: Wait, k: nat)
    requires w.Timely() && w.interval >= 0.0
    ensures w.Clock(k) + w.Pace() <= w.Clock(k + 1)
  {
    hide IntervalAfter, Least, Greatest;
    IntervalBounds(w.interval, w.BackOffs(k));
    assert w.extra(k) >= w.tick;
  }

  lemma Advances(w: Wait, k: nat)
    requires w.Timely() && w.interval >= 0.0
    ensures w.Left(k + 1) <= w.Left(k) - 1.0
  {
    hide w.Clock, w.Pace;
    ClockStep(w, k);
    Divide(w.timeout - w.Clock(k + 1), w.timeout - w.Clock(k), w.Pace());
  }

  lemma Divide(a: real, b: real, m: real)
    requires m > 0.0 && a + m <= b
    ensures a / m <= b / m - 1.0
  {
    var x, y := a / m, b / m;
    assert x * m == a && y * m == b;
    assert (y - x - 1.0) * m == b - a - m;
    NonNegative(y - x - 1.0, m);
  }

  lemma NonNegative(z: real, m: real)
    requires m > 0.0 && z * m >= 0.0
    ensures z >= 0.0
  {
    if z < 0.0 {
      Negative(z, m);
    }
  }

  lemma Negative(z: real, m: real)
    requires z < 0.0 < m
    ensures z * m < 0.0
  {
  }

  /** `x or default` on optional numbers. */
  function OrElse(x: Option<real>, default: real): real { if x == None || x == Some(0.0) then default else x.value }

  /** The value in use is the given one if there is one other than zero, and the default otherwise. */
  predicate Given(x: Option<real>, default: real, used: real) {
    && (x.Some? && x.value != 0.0 ==> used == x.value)
    && (x.None? || x.value == 0.0 ==> used == default)
  }

  lemma NeverTimesOut(jobId: string, r: Reply)
    ensures Judge(jobId, r) != Finish(TimedOut)
  {
  }

  class AIWorkerClient {
    const timeoutSeconds: real
    const pollIntervalSeconds: real

    constructor (timeoutSeconds: real, pollIntervalSeconds: real)
      ensures this.timeoutSeconds == timeoutSeconds && this.pollIntervalSeconds == pollIntervalSeconds
    {
      this.timeoutSeconds, this.pollIntervalSeconds := timeoutSeconds, pollIntervalSeconds;
    }

    ghost function WaitFor(jobId: string, timeout: Option<real>, interval: Option<real>,
                           replies: nat -> Reply, extra: nat -> real, tick: real): Wait
    {
      Wait(jobId, OrElse(interval, pollIntervalSeconds), OrElse(timeout, timeoutSeconds), replies, extra, tick)
    }

    lemma WaitUsesWhatIsGiven(jobId: string, timeout: Option<real>, interval: Option<real>,
                              replies: nat -> Reply, extra: nat -> real, tick: real)
      ensures var w := WaitFor(jobId, timeout, interval, replies, extra, tick);
        && Given(timeout, timeoutSeconds, w.timeout) && Given(interval, pollIntervalSeconds, w.interval)
        && w.jobId == jobId && w.replies == replies && w.extra == extra && w.Sleep(0) == w.interval
    {
    }

    /** The loop terminates for every stream of replies, and ends as `Ends` says. */
    method PollUntilComplete(jobId: string, timeout: Option<real>, interval: Option<real>,
                             replies: nat -> Reply, extra: nat -> real, ghost tick: real)
      returns (outcome: Outcome, polls: nat, sleeps: seq<real>, attempts: nat)
      requires WaitFor(jobId, timeout, interval, replies, extra, tick).Timely()
      ensures var w := WaitFor(jobId, timeout, interval, replies, extra, tick);
        && w.Ends(attempts, outcome) && polls == w.Answers(attempts)
        && |sleeps| == (if outcome.TimedOut? then attempts else attempts - 1)
        && forall k :: 0 <= k < |sleeps| ==> sleeps[k] == w.Sleep(k)
    {
      hide OrElse, Judge, NextInterval;
      ghost var w := WaitFor(jobId, timeout, interval, replies, extra, tick);
      var elapsed, current, limit := 0.0, OrElse(interval, pollIntervalSeconds), OrElse(timeout, timeoutSeconds);
      polls, sleeps := 0, [];
      while elapsed <= limit
        invariant w.Attempts(|sleeps|) && (sleeps != [] ==> w.GoesOn(|sleeps| - 1))
        invariant elapsed == w.Clock(|sleeps|) && current == IntervalAfter(w.interval, w.BackOffs(|sleeps|))
        invariant polls == w.Answers(|sleeps|) && (sleeps == [] ==> current == w.interval)
        invariant forall k :: 0 <= k < |sleeps| ==> sleeps[k] == w.Sleep(k)
        decreases w.Left(|sleeps|)
      {
        var k := |sleeps|;
        var reply := replies(k);
        attempts := k + 1;
        if reply.Status? {
          polls := polls + 1;
        }
        var verdict := Judge(jobId, reply);
        NeverTimesOut(jobId, reply);
        if verdict.Finish? {
          outcome := verdict.outcome;
          return;
        }
        SleepSign(w, k);
        if current < 0.0 {
          outcome := Raised(BAD_SLEEP);
          return;
        }
        Advances(w, k);
        sleeps := sleeps + [current];
        elapsed := elapsed + extra(k) + current;
        if verdict.BackOff? {
          current := NextInterval(current);
        }
      }
      outcome, attempts := TimedOut, |sleeps|;
    }
  }

  /** A sleep is negative only if it is the first and the interval is. */
  lemma SleepSign(w: Wait, k: nat)
    ensures w.interval >= 0.0 ==> w.Sleep(k) >= 0.0
  {
    hide IntervalAfter;
    if w.interval >= 0.0 {
      IntervalBounds(w.interval, w.BackOffs(k));
    }
  }

  // ---------------------------------------------------------------------------------------------
  // What the wait amounts to
  // ---------------------------------------------------------------------------------------------

  /** How a wait ends is decided by its replies and its clock. */
  lemma OneEnding(w: Wait, n: nat, a: Outcome, m: nat, b: Outcome)
    requires w.Ends(n, a) && w.Ends(m, b)
    ensures n == m && a == b
  {
  }

  lemma {:induction false} LeftShrinks(w: Wait, k: nat)
    requires w.Timely() && w.interval >= 0.0
    ensures w.Left(k) <= w.Left(0) - k as real
  {
    hide w.Left;
    if k > 0 {
      LeftShrinks(w, k - 1);
      Advances(w, k - 1);
    }
  }

  lemma LeftWhileInTime(w: Wait, k: nat)
    requires w.Pace() > 0.0 && w.Clock(k) <= w.timeout
    ensures w.Left(k) >= 0.0
  {
    hide w.Clock, w.Pace;
    Quotient(w.timeout - w.Clock(k), w.Pace());
  }

  lemma Quotient(a: real, m: real)
    requires a >= 0.0 && m > 0.0
    ensures a / m >= 0.0
  {
    assert (a / m) * m == a;
    NonNegative(a / m, m);
  }

  lemma {:induction false} AnswersCounted(w: Wait, n: nat)
    ensures w.Answers(n) <= n
  {
    if n > 0 {
      AnswersCounted(w, n - 1);
    }
  }

  /** At most floor(T / (min(p, 5) + tick)) + 1 attempts are made, and no more polls than attempts; `tick` may be
      taken as 0 if p is positive, and with a negative p there is at most one attempt. */
  lemma AttemptsBound(w: Wait, n: nat)
    requires w.Timely() && w.timeout >= 0.0 && w.Attempts(n)
    ensures w.Answers(n) <= n
    ensures w.interval >= 0.0 ==> n <= (w.timeout / (Least(w.interval, 5.0) + w.tick)).Floor + 1
    ensures w.interval < 0.0 ==> n <= 1
  {
    AnswersCounted(w, n);
    if w.interval >= 0.0 {
      LeftAtStart(w);
      AttemptsFit(w, n);
    } else {
      assert n > 1 ==> w.GoesOn(0);
    }
  }

  lemma LeftAtStart(w: Wait)
    requires w.Pace() > 0.0 && w.interval >= 0.0
    ensures w.Left(0) == w.timeout / (Least(w.interval, 5.0) + w.tick)
  {
  }

  lemma AttemptsFit(w: Wait, n: nat)
    requires w.interval >= 0.0 && w.Pace() > 0.0 && w.Timely() && w.timeout >= 0.0 && w.Attempts(n)
    ensures n <= w.Left(0).Floor + 1
  {
    hide *;
    if n == 0 {
      ClockStarts(w);
      LeftWhileInTime(w, 0);
    } else {
      InTime(w, n, n - 1);
      LeftWhileInTime(w, n - 1);
      LeftShrinks(w, n - 1);
    }
  }

  lemma ClockStarts(w: Wait)
    ensures w.Clock(0) == 0.0
  {
  }

  lemma InTime(w: Wait, n: nat, k: nat)
    requires w.Attempts(n) && k < n
    ensures w.Clock(k) <= w.timeout
  {
  }

  /** The interval after `k` unfinished replies is min(p * 1.5^k, 5), but for a longer first one, which is used as it
      is until the first of them. */
  lemma {:induction false} IntervalClosedForm(p: real, k: nat)
    requires p > 0.0
    ensures IntervalAfter(p, k) == if k == 0 then p else Least(Geometric(p, 1.5, k), 5.0)
  {
    hide Geometric;
    GeometricStep(p, 1.5, if k == 0 then 0 else k - 1);
    if k > 1 {
      IntervalClosedForm(p, k - 1);
    }
  }

  // ---------------------------------------------------------------------------------------------
  // Which errors only delay
  // ---------------------------------------------------------------------------------------------

  lemma {:induction false} ContainsAt(s: string, i: nat, part: string)
    requires i <= |s| && part <= s[i..]
    ensures Contains(s, part)
  {
    if i > 0 {
      assert s[1..][i - 1..] == s[i..];
      ContainsAt(s[1..], i - 1, part);
    }
  }

  lemma {:induction false} ContainsWhere(s: string, part: string) returns (i: nat)
    requires Contains(s, part)
    ensures i <= |s| && part <= s[i..]
  {
    if part <= s {
      i := 0;
      assert s[0..] == s;
    } else {
      i := ContainsWhere(s[1..], part);
      assert s[1..][i..] == s[i + 1..];
      i := i + 1;
    }
  }

  lemma NotFoundText(id: string)
    ensures var m := Lower("Job not found: " + id);
      Contains(m, "job not found") && |m| == 15 + |id| && m[15..] == Lower(id) && m[..15] == "job not found: "
  {
    var m := Lower("Job not found: " + id);
    assert m[0..] == m;
    assert m[..15] == "job not found: ";
    assert "job not found" <= m;
  }

  lemma InJobId(id: string, part: string)
    requires part == "failed" || part == "cancelled"
    ensures Contains(Lower("Job not found: " + id), part) <==> Contains(Lower(id), part)
  {
    NotFoundText(id);
    var m := Lower("Job not found: " + id);
    if Contains(m, part) {
      var i := ContainsWhere(m, part);
      assert m[i] == part[0] && m[i + 1] == part[1];
      assert i >= 15 by {
        assert forall j :: 0 <= j < 15 ==> m[j] == "job not found: "[j];
      }
      assert m[i..] == m[15..][i - 15..];
      ContainsAt(Lower(id), i - 15, part);
    }
    if Contains(Lower(id), part) {
      var i := ContainsWhere(Lower(id), part);
      assert m[15..][i..] == m[15 + i..];
      ContainsAt(m, 15 + i, part);
    }
  }

  /** A missing job is waited for unless its own id reads like a failure; every other error ends the wait, a
      lost connection included.  Each of the three final statuses ends it too, and any other status backs off. */
  lemma OnlyMissingJobsAreAwaited(jobId: string, r: Reply)
    ensures Judge(jobId, r) == WaitOnly <==>
      r.NotFound? && !Contains(Lower(jobId), "failed") && !Contains(Lower(jobId), "cancelled")
    ensures r.RequestFailed? ==> Judge(jobId, r) == Finish(Raised("Failed to get job status: " + r.message))
    ensures r.NotFound? && Judge(jobId, r) != WaitOnly ==> Judge(jobId, r) == Finish(Raised("Job not found: " + jobId))
    ensures r.Unexpected? ==> Judge(jobId, r) == Finish(Raised(r.message))
    ensures Judge(jobId, r) == BackOff <==> r.Status? && r.status !in {"completed", "failed", "cancelled"}
    ensures r.Status? && r.status == "completed" ==> Judge(jobId, r) == Finish(Completed(r.result))
    ensures r.Status? && r.status == "failed" ==> Judge(jobId, r) == Finish(Raised("Job failed: " + r.error))
    ensures r.Status? && r.status == "cancelled" ==> Judge(jobId, r) == Finish(Raised("Job was cancelled"))
  {
    hide Contains, Lower;
    match r {
      case Status(_, _, error) =>
        JobFailedEnds(error);
        CancelledIn();
      case RequestFailed(m) => RequestFailedEnds(m);
      case NotFound =>
        InJobId(jobId, "failed");
        InJobId(jobId, "cancelled");
        NotFoundText(jobId);
      case Unexpected(_) =>
    }
  }

  lemma JobFailedEnds(error: string)
    ensures Contains(Lower("Job failed: " + error), "failed")
  {
    assert "Job failed: "[4..10] == "failed";
    FailedIn("Job failed: ", 4, error);
  }

  lemma RequestFailedEnds(message: string)
    ensures Contains(Lower("Failed to get job status: " + message), "failed")
  {
    assert "Failed to get job status: "[0..6] == "Failed";
    FailedIn("Failed to get job status: ", 0, message);
  }

  lemma FailedIn(text: string, i: nat, rest: string)
    requires i + 6 <= |text| && (text[i..i + 6] == "failed" || text[i..i + 6] == "Failed")
    ensures Contains(Lower(text + rest), "failed")
  {
    var s := text + rest;
    forall j | 0 <= j < 6 ensures Lower(s)[i..][j] == LowerChar(text[i..i + 6][j]) {
      assert text[i..i + 6][j] == s[i + j];
    }
    assert Lower(s)[i..][..6] == "failed";
    ContainsAt(Lower(s), i, "failed");
  }

  lemma CancelledIn()
    ensures Contains(Lower("Job was cancelled"), "cancelled")
  {
    assert Lower("Job was cancelled")[8..] == "cancelled";
    ContainsAt(Lower("Job was cancelled"), 8, "cancelled");
  }
}
