/** The self-pinger: three request shapes aimed at the service's own public URL,
    run together on a fixed schedule. Each network outcome is a boolean parameter. */
module AutoPing {
  import opened Wrappers
  import opened ServerStats
  import Submission
  import Routes

  /** The three ping methods, in the order of `this.methods`. */
  datatype PingVariant =
    | HealthGet   // method 1: GET  `${APP_URL}/health`
    | RootHead    // method 2: HEAD `${APP_URL}`
    | PingPost    // method 3: POST `${APP_URL}/api/ping` with a small JSON body
  {
    /** Request timeout in milliseconds: every ping gives up within 8 to 12 seconds. */
    function Timeout(): (ms: nat)
      ensures 8000 <= ms <= 12000
    {
      match this
      case HealthGet => 10000
      case RootHead => 8000
      case PingPost => 12000
    }
  }

  const Methods: seq<PingVariant> := [HealthGet, RootHead, PingPost]

  /** One entry of what `Promise.allSettled` resolves to. */
  datatype Settled<T> = Fulfilled(value: T) | Rejected

  /** `results.filter(r => r.status === 'fulfilled' && r.value).length`. */
  function CountSuccessful(results: seq<Settled<bool>>): (n: nat)
    ensures n <= |results|
    ensures n == 0 <==> forall i :: 0 <= i < |results| ==> results[i] != Fulfilled(true)
  {
    if results == [] then 0
    else (if results[0] == Fulfilled(true) then 1 else 0) + CountSuccessful(results[1..])
  }

  /** When every method fulfilled with its own outcome, the count is the number of
      outcomes that were successes. */
  lemma {:induction false} CountFulfilled(results: seq<Settled<bool>>, ok: seq<bool>)
    requires |results| == |ok|
    requires forall i :: 0 <= i < |ok| ==> results[i] == Fulfilled(ok[i])
    ensures CountSuccessful(results) == multiset(ok)[true]
  {
    if ok != [] {
      CountFulfilled(results[1..], ok[1..]);
      assert ok == [ok[0]] + ok[1..];
    }
  }

  class AutoPinger {
    /** The shared `stats` record the pings count into. */
    const stats: Stats
    const methods: seq<PingVariant>
    var isRunning: bool
    /** Recurring jobs handed to the scheduler, by their interval in minutes. */
    var jobs: seq<nat>
    /** One-shot pings queued with `setTimeout` to run shortly after start. */
    var initialPings: nat

    /** At most one recurring job and one initial ping, and both exactly when running. */
    ghost predicate Valid()
      reads this
    {
      && methods == Methods
      && (isRunning <==> |jobs| == 1) && |jobs| <= 1
      && initialPings == |jobs|
    }

    constructor (stats: Stats)
      ensures Valid()
      ensures this.stats == stats && !isRunning && jobs == [] && initialPings == 0
    {
      this.stats := stats;
      methods := Methods;
      isRunning := false;
      jobs := [];
      initialPings := 0;
    }

    /** `pingMethod1` .. `pingMethod3`: a reachable target counts one success; an error
        is caught, logged and reported as `false`, with no counter touched. */
    method PingMethod(variant: PingVariant, reachable: bool) returns (ok: bool)
      modifies stats
      ensures ok == reachable
      ensures stats.successfulRequests == old(stats.successfulRequests) + if reachable then 1 else 0
      ensures stats.totalRequests == old(stats.totalRequests)
      ensures stats.lastPing == old(stats.lastPing) && stats.activeUsers == old(stats.activeUsers)
    {
      if reachable {
        stats.successfulRequests := stats.successfulRequests + 1;
        ok := true;
      } else {
        ok := false;
      }
    }

    /** `pingAll` at time `now`, where `reachable[k]` is the network outcome of method
        `k + 1`. The methods never reject, so settling them all is running them in
        turn; the result is whether any of them succeeded. */
    method PingAll(now: Instant, reachable: seq<bool>) returns (anyOk: bool)
      requires Valid() && |reachable| == |methods|
      modifies stats
      ensures stats.lastPing == Some(now)
      ensures stats.successfulRequests == old(stats.successfulRequests) + multiset(reachable)[true]
      ensures anyOk <==> true in reachable
      ensures stats.totalRequests == old(stats.totalRequests)
      ensures stats.activeUsers == old(stats.activeUsers)
    {
      stats.lastPing := Some(now);
      var results: seq<Settled<bool>> := [];
      var i := 0;
      while i < |methods|
        invariant 0 <= i <= |methods|
        invariant |results| == i
        invariant forall k :: 0 <= k < i ==> results[k] == Fulfilled(reachable[k])
        invariant stats.successfulRequests == old(stats.successfulRequests) + multiset(reachable[..i])[true]
        invariant stats.lastPing == Some(now)
        invariant stats.totalRequests == old(stats.totalRequests)
        invariant stats.activeUsers == old(stats.activeUsers)
      {
        var ok := PingMethod(methods[i], reachable[i]);
        assert reachable[..i + 1] == reachable[..i] + [reachable[i]];
        results := results + [Fulfilled(ok)];
        i := i + 1;
      }
      assert reachable[..i] == reachable;
      var successful := CountSuccessful(results);
      CountFulfilled(results, reachable);
      anyOk := successful > 0;
    }

    /** `start(intervalMinutes = 3)`: the first call schedules one recurring job and one
        initial ping; every later call finds `isRunning` set and does nothing. */
    method Start(intervalMinutes: nat := 3)
      requires Valid()
      modifies this
      ensures Valid() && isRunning
      ensures old(isRunning) ==> jobs == old(jobs) && initialPings == old(initialPings)
      ensures !old(isRunning) ==> jobs == [intervalMinutes] && initialPings == 1
    {
      if isRunning {
        return;
      }
      isRunning := true;
      jobs := jobs + [intervalMinutes];
      initialPings := initialPings + 1;
    }
  }

  /** One `pingAll` as the server itself sees it when `APP_URL` is its own address:
      method 2's `HEAD /` is answered by the `GET /` handler and method 3's
      `POST /api/ping` by its handler, so each of the two that gets through is also
      counted in `totalRequests`; method 1's `GET /health` is not counted. */
  method SelfPingCycle(pinger: AutoPinger, now: Instant, reachable: seq<bool>) returns (anyOk: bool)
    requires pinger.Valid() && pinger.stats.Valid() && |reachable| == |pinger.methods|
    modifies pinger.stats
    ensures pinger.stats.Valid()
    ensures pinger.stats.lastPing == Some(now)
    ensures pinger.stats.successfulRequests == old(pinger.stats.successfulRequests) + multiset(reachable)[true]
    ensures pinger.stats.totalRequests ==
              old(pinger.stats.totalRequests) + (if reachable[1] then 1 else 0) + (if reachable[2] then 1 else 0)
    ensures pinger.stats.activeUsers == old(pinger.stats.activeUsers)
    ensures anyOk <==> true in reachable
  {
    var stats := pinger.stats;
    anyOk := pinger.PingAll(now, reachable);
    if reachable[1] {
      var _ := Routes.Home(stats);
    }
    if reachable[2] {
      var _, _, _ := Routes.ApiPing(stats, (now, "auto-pinger", "complex"), now);
    }
  }

  /** Starting twice leaves the pinger as starting once does. */
  method StartTwice(stats: Stats, first: nat, second: nat) returns (p: AutoPinger)
    ensures p.Valid() && p.isRunning && p.jobs == [first] && p.initialPings == 1
  {
    p := new AutoPinger(stats);
    p.Start(first);
    p.Start(second);
  }

  /** A fresh process: "alice" is recorded and thanked, then an empty name is turned
      away without touching the users. */
  method SubmitScenario(now: Instant)
  {
    var stats := new Stats(now);
    Submission.PlainNameIsClean("alice");
    var reply := Routes.Submit(stats, Some("alice"), true);
    assert reply == Submission.Sent("alice") && stats.activeUsers == ["alice"];
    reply := Routes.Submit(stats, Some(""), true);
    assert reply == Submission.Rejected && stats.activeUsers == ["alice"];
  }

  /** A cycle in which every ping fails reports failure and counts nothing. */
  method FailingPingScenario(now: Instant)
  {
    var stats := new Stats(now);
    var pinger := new AutoPinger(stats);
    pinger.Start();
    var anyOk := pinger.PingAll(now, [false, false, false]);
    assert !anyOk && stats.successfulRequests == 0 && stats.lastPing == Some(now);
  }
}
