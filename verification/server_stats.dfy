/** The process-wide `stats` record, mutated in place by the route handlers and by
    the self-pinger. */
module ServerStats {
  import opened Wrappers
  import opened Sequences

  /** A `Date`, as milliseconds since the epoch. */
  type Instant = int

  class Stats {
    const startTime: Instant
    var totalRequests: nat
    var successfulRequests: nat
    var lastPing: Option<Instant>
    /** `activeUsers`, a `Set`, listed in its iteration order (first insertion). */
    var activeUsers: seq<string>

    /** A `Set` holds each element once. */
    ghost predicate Valid()
      reads this
    {
      NoDuplicates(activeUsers)
    }

    constructor (startTime: Instant)
      ensures Valid()
      ensures this.startTime == startTime
      ensures totalRequests == 0 && successfulRequests == 0
      ensures lastPing == None && activeUsers == []
    {
      this.startTime := startTime;
      totalRequests := 0;
      successfulRequests := 0;
      lastPing := None;
      activeUsers := [];
    }
  }
}

/** The route handlers that read or write `stats`. Each takes the one `Stats` object
    the process owns. */
module Routes {
  import opened Wrappers
  import opened Sequences
  import opened InsertionOrderedSet
  import opened Submission
  import opened ServerStats

  /** `GET /`: counts the request and renders the landing page with the number of users. */
  method Home(stats: Stats) returns (totalUsers: nat)
    requires stats.Valid()
    modifies stats
    ensures stats.Valid()
    ensures stats.totalRequests == old(stats.totalRequests) + 1
    ensures stats.successfulRequests == old(stats.successfulRequests)
    ensures stats.lastPing == old(stats.lastPing) && stats.activeUsers == old(stats.activeUsers)
    ensures totalUsers == |stats.activeUsers|
  {
    stats.totalRequests := stats.totalRequests + 1;
    totalUsers := |stats.activeUsers|;
  }

  /** `POST /api/submit` with `username` from the body and `telegramSent` the outcome of
      the notification. A rejected name changes nothing; an accepted one is recorded,
      cleaned, before the notification outcome decides between 200 and 500. */
  method Submit(stats: Stats, username: Option<string>, telegramSent: bool) returns (reply: SubmitReply)
    requires stats.Valid()
    modifies stats
    ensures stats.Valid()
    ensures old(stats.activeUsers) <= stats.activeUsers
    ensures !Accepts(username) ==> reply == Rejected && stats.activeUsers == old(stats.activeUsers)
    ensures Accepts(username) ==>
              && stats.activeUsers == Add(old(stats.activeUsers), Clean(username.value))
              && reply == if telegramSent then Sent(Clean(username.value)) else SendFailed
    ensures stats.totalRequests == old(stats.totalRequests)
    ensures stats.successfulRequests == old(stats.successfulRequests)
    ensures stats.lastPing == old(stats.lastPing)
  {
    if !Accepts(username) {
      reply := Rejected;
    } else {
      var cleanUsername := Clean(username.value);
      var users := Add(stats.activeUsers, cleanUsername);
      stats.activeUsers := users;
      reply := if telegramSent then Sent(cleanUsername) else SendFailed;
    }
  }

  /** The `stats` part of the `GET /health` payload. */
  datatype HealthStats = HealthStats(totalRequests: nat, activeUsers: nat, lastPing: Option<Instant>)

  /** `GET /health`: reports the counters and changes nothing. */
  method Health(stats: Stats) returns (status: string, report: HealthStats)
    ensures status == "healthy"
    ensures report.totalRequests == stats.totalRequests
    ensures report.activeUsers == |stats.activeUsers|
    ensures report.lastPing == stats.lastPing
  {
    status := "healthy";
    report := HealthStats(stats.totalRequests, |stats.activeUsers|, stats.lastPing);
  }

  /** `POST /api/ping`: counts the request and echoes the body. */
  method ApiPing<B>(stats: Stats, received: B, now: Instant) returns (status: string, timestamp: Instant, echoed: B)
    requires stats.Valid()
    modifies stats
    ensures stats.Valid()
    ensures stats.totalRequests == old(stats.totalRequests) + 1
    ensures stats.successfulRequests == old(stats.successfulRequests)
    ensures stats.lastPing == old(stats.lastPing) && stats.activeUsers == old(stats.activeUsers)
    ensures status == "pong" && timestamp == now && echoed == received
  {
    stats.totalRequests := stats.totalRequests + 1;
    status, timestamp, echoed := "pong", now, received;
  }

  /** The `data` of `GET /api/stats`. */
  datatype StatsData = StatsData(
    startTime: Instant,
    totalRequests: nat,
    successfulRequests: nat,
    lastPing: Option<Instant>,
    activeUsers: seq<string>)

  /** `GET /api/stats`: every field of `stats`, the users as `Array.from` lists them:
      each once, in order of first submission. Changes nothing. */
  method StatsDump(stats: Stats) returns (success: bool, data: StatsData)
    requires stats.Valid()
    ensures success
    ensures data.startTime == stats.startTime
    ensures data.totalRequests == stats.totalRequests
    ensures data.successfulRequests == stats.successfulRequests
    ensures data.lastPing == stats.lastPing
    ensures data.activeUsers == stats.activeUsers && NoDuplicates(data.activeUsers)
  {
    success := true;
    data := StatsData(stats.startTime, stats.totalRequests, stats.successfulRequests,
                      stats.lastPing, stats.activeUsers);
  }

  /** A run of submissions from a fresh process: the users listed by `/api/stats` are
      the cleaned accepted names, once each, in the order they were first submitted,
      whatever the notifications did. */
  method SubmitAll(stats: Stats, usernames: seq<Option<string>>, sent: seq<bool>)
    requires stats.Valid() && stats.activeUsers == []
    requires |sent| == |usernames|
    modifies stats
    ensures stats.Valid()
    ensures stats.activeUsers == AddAll([], AcceptedNames(usernames))
    ensures stats.totalRequests == old(stats.totalRequests)
    ensures stats.successfulRequests == old(stats.successfulRequests)
    ensures stats.lastPing == old(stats.lastPing)
  {
    var i := 0;
    while i < |usernames|
      invariant 0 <= i <= |usernames|
      invariant stats.Valid()
      invariant stats.activeUsers == AddAll([], AcceptedNames(usernames[..i]))
      invariant stats.totalRequests == old(stats.totalRequests)
      invariant stats.successfulRequests == old(stats.successfulRequests)
      invariant stats.lastPing == old(stats.lastPing)
    {
      assert usernames[..i + 1] == usernames[..i] + [usernames[i]];
      AcceptedNamesAppend(usernames[..i], usernames[i]);
      ghost var names := AcceptedNames(usernames[..i]);
      if Accepts(usernames[i]) {
        AddAllAppend([], names, Clean(usernames[i].value));
      } else {
        assert names + [] == names;
      }
      var _ := Submit(stats, usernames[i], sent[i]);
      i := i + 1;
    }
    assert usernames[..i] == usernames;
  }

  /** The cleaned forms of the accepted submissions, in submission order. */
  function AcceptedNames(usernames: seq<Option<string>>): (names: seq<string>)
    ensures |names| <= |usernames|
  {
    if usernames == [] then []
    else
      var init, last := usernames[..|usernames| - 1], usernames[|usernames| - 1];
      AcceptedNames(init) + if Accepts(last) then [Clean(last.value)] else []
  }

  lemma AcceptedNamesAppend(usernames: seq<Option<string>>, u: Option<string>)
    ensures AcceptedNames(usernames + [u]) ==
              AcceptedNames(usernames) + if Accepts(u) then [Clean(u.value)] else []
  {
    assert (usernames + [u])[..|usernames|] == usernames;
  }

  /** Two runs of submissions, one after the other, record the accepted names of the
      first run followed by those of the second. */
  lemma {:induction false} AcceptedNamesConcat(first: seq<Option<string>>, second: seq<Option<string>>)
    ensures AcceptedNames(first + second) == AcceptedNames(first) + AcceptedNames(second)
  {
    if second == [] {
      assert first + second == first;
    } else {
      var init, u := second[..|second| - 1], second[|second| - 1];
      assert second == init + [u];
      assert first + second == (first + init) + [u];
      AcceptedNamesConcat(first, init);
      AcceptedNamesAppend(first + init, u);
      AcceptedNamesAppend(init, u);
    }
  }
}
