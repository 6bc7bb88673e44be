/** Opening the MongoDB connection: retry with capped exponential back-off, and the connection metrics. */
module Connection {
  import opened Prelude

  /** How one attempt ends; only a `Down` is retried. */
  datatype Ping = Up | Down(message: string) | Fault(message: string)

  /** The attempts in a row, from number `i` and before `n`, that find the server down. */
  function DownFrom(pings: nat -> Ping, i: nat, n: nat): nat
    decreases n - i
  {
    if i >= n || !pings(i).Down? then 0 else 1 + DownFrom(pings, i + 1, n)
  }

  lemma DownStep(pings: nat -> Ping, i: nat, n: nat)
    requires i < n
    ensures DownFrom(pings, i, n) == if pings(i).Down? then 1 + DownFrom(pings, i + 1, n) else 0
  {
  }

  lemma DownEnd(pings: nat -> Ping, n: nat)
    ensures DownFrom(pings, n, n) == 0
  {
  }

  function Delay(d: real, attempt: nat): real { Least(Geometric(d, 2.0, attempt), 30.0) }

  lemma DelaySign(d: real, attempt: nat)
    ensures d >= 0.0 ==> Delay(d, attempt) >= 0.0
    ensures attempt == 0 ==> (Delay(d, attempt) < 0.0 <==> d < 0.0)
  {
    hide Geometric;
    GeometricStep(d, 2.0, 0);
    if d >= 0.0 {
      GeometricGrows(d, attempt);
    }
  }

  function Delays(d: real, n: nat): seq<real> {
    if n == 0 then [] else Delays(d, n - 1) + [Delay(d, n - 1)]
  }

  function Monus(a: nat, b: nat): nat { if a >= b then a - b else 0 }

  /** The counters, and what a call of `connect` that slept so often adds to them. */
  datatype Counts = Counts(attempts: nat, successes: nat, failures: nat, reconnects: nat)
  {
    predicate Balanced() { attempts == successes + failures }

    function After(failed: nat, succeeded: bool, slept: nat): Counts {
      var s := if succeeded then 1 else 0;
      Counts(attempts + failed + s, successes + s, failures + failed, reconnects + Monus(slept, 1))
    }
  }

  class MongoMetrics {
    var connectAttempts: nat
    var connectSuccesses: nat
    var connectFailures: nat
    var reconnectAttempts: nat

    function View(): Counts
      reads this
    {
      Counts(connectAttempts, connectSuccesses, connectFailures, reconnectAttempts)
    }

    constructor ()
      ensures View() == Counts(0, 0, 0, 0)
    {
      connectAttempts, connectSuccesses, connectFailures, reconnectAttempts := 0, 0, 0, 0;
    }

    method RecordConnectAttempt(success: bool)
      modifies this
      ensures View() == old(View()).After(if success then 0 else 1, success, 0)
    {
      connectAttempts := connectAttempts + 1;
      if success {
        connectSuccesses := connectSuccesses + 1;
      } else {
        connectFailures := connectFailures + 1;
      }
    }

    method RecordReconnect()
      modifies this
      ensures View() == old(View()).(reconnects := old(reconnectAttempts) + 1)
    {
      reconnectAttempts := reconnectAttempts + 1;
    }
  }

  class MongoConnectionManager {
    const maxRetries: int
    const retryDelay: real
    const metrics: MongoMetrics
    var connected: bool

    constructor (maxRetries: int, retryDelay: real)
      ensures this.maxRetries == maxRetries && this.retryDelay == retryDelay && !connected
      ensures fresh(metrics) && metrics.View() == Counts(0, 0, 0, 0)
    {
      this.maxRetries, this.retryDelay, connected := maxRetries, retryDelay, false;
      metrics := new MongoMetrics();
    }

    function Tries(): nat { if maxRetries < 0 then 0 else maxRetries }

    /** `error` is what `connect` raises. A negative delay makes the first sleep raise. */
    method Connect(pings: nat -> Ping) returns (error: Option<string>, sleeps: seq<real>)
      modifies this, metrics
      ensures old(connected) ==> connected && error == None && sleeps == [] && metrics.View() == old(metrics.View())
      ensures !old(connected) ==>
        var n := Tries(); var f := DownFrom(pings, 0, n);
        if retryDelay < 0.0 && f > 0 && n > 1 then
          && !connected && error == Some(BAD_SLEEP) && sleeps == []
          && metrics.View() == old(metrics.View()).After(1, false, 0)
        else
          && connected == (f < n && pings(f).Up?) && error.Some? == !connected
          && (f < n && pings(f).Fault? ==> error == Some(pings(f).message))
          && sleeps == Delays(retryDelay, if f < n then f else Monus(n, 1))
          && metrics.View() == old(metrics.View()).After(f, connected, |sleeps|)
      ensures old(metrics.View()).Balanced() ==> metrics.View().Balanced()
    {
      hide Delay, DownFrom;
      sleeps := [];
      if connected {
        return None, [];
      }
      ghost var before, n := metrics.View(), Tries();
      DownEnd(pings, n);
      for attempt := 0 to Tries()
        invariant !connected && sleeps == Delays(retryDelay, |sleeps|)
        invariant |sleeps| == if attempt < n then attempt else Monus(n, 1)
        invariant DownFrom(pings, 0, n) == attempt + DownFrom(pings, attempt, n)
        invariant metrics.View() == before.After(attempt, false, |sleeps|)
        invariant attempt > 0 && n > 1 ==> retryDelay >= 0.0
      {
        DownStep(pings, attempt, n);
        match pings(attempt) {
          case Up =>
            connected := true;
            metrics.RecordConnectAttempt(true);
            return None, sleeps;
          case Fault(m) =>
            return Some(m), sleeps;
          case Down(_) =>
            metrics.RecordConnectAttempt(false);
            if attempt + 1 < maxRetries {
              if attempt > 0 {
                metrics.RecordReconnect();
              }
              DelaySign(retryDelay, attempt);
              if Delay(retryDelay, attempt) < 0.0 {
                return Some(BAD_SLEEP), sleeps;
              }
              sleeps := sleeps + [Delay(retryDelay, attempt)];
            }
        }
      }
      error := Some("MongoConnectionManager: failed to connect");
    }

    method Disconnect()
      modifies this
      ensures !connected
    {
      connected := false;
    }

    method Reconnect(pings: nat -> Ping) returns (error: Option<string>, sleeps: seq<real>)
      modifies this, metrics
      ensures var n := Tries(); var f := DownFrom(pings, 0, n);
        var before := old(metrics.View()).(reconnects := old(metrics.reconnectAttempts) + 1);
        if retryDelay < 0.0 && f > 0 && n > 1 then
          && !connected && error == Some(BAD_SLEEP) && sleeps == [] && metrics.View() == before.After(1, false, 0)
        else
          && connected == (f < n && pings(f).Up?) && error.Some? == !connected
          && sleeps == Delays(retryDelay, if f < n then f else Monus(n, 1))
          && metrics.View() == before.After(f, connected, |sleeps|)
      ensures old(metrics.View()).Balanced() ==> metrics.View().Balanced()
    {
      metrics.RecordReconnect();
      Disconnect();
      error, sleeps := Connect(pings);
    }
  }

  function Total(xs: seq<real>): real { if xs == [] then 0.0 else Total(xs[..|xs| - 1]) + xs[|xs| - 1] }

  /** The total sleep of `n` delays: at most 30 seconds each, and d * (2^n - 1) while the cap is not reached. */
  lemma {:induction false} TotalSleep(d: real, n: nat)
    requires d >= 0.0
    ensures forall i :: 0 <= i < |Delays(d, n)| ==>
      Delays(d, n)[i] == if Geometric(d, 2.0, i) <= 30.0 then Geometric(d, 2.0, i) else 30.0
    ensures |Delays(d, n)| == n && 0.0 <= Total(Delays(d, n)) <= 30.0 * n as real
    ensures n > 0 && Geometric(d, 2.0, n - 1) <= 30.0 ==> Total(Delays(d, n)) == Geometric(d, 2.0, n) - d
  {
    hide Geometric;
    if n > 0 {
      TotalSleep(d, n - 1);
      GeometricStep(d, 2.0, n - 1);
      GeometricGrows(d, n - 1);
      assert Delays(d, n)[..n - 1] == Delays(d, n - 1);
    }
  }

  lemma {:induction false} GeometricGrows(d: real, n: nat)
    requires d >= 0.0
    ensures Geometric(d, 2.0, n) >= d
    ensures n > 0 ==> Geometric(d, 2.0, n - 1) <= Geometric(d, 2.0, n)
  {
    hide Geometric;
    GeometricStep(d, 2.0, 0);
    if n > 0 {
      GeometricGrows(d, n - 1);
      GeometricStep(d, 2.0, n - 1);
    }
  }
}
