/** The sliding-window rate limiter (app/utils/rate_limiter.py): per client
    key, the times of its recent accepted requests; a request is accepted
    while fewer than `max_requests` of them fall inside the window. Times
    are integer seconds, and "now" is a parameter. */
module RateLimiter {
  import opened Common
  import opened Http
  import ChatSchemas

  const CleanupThreshold := 100
  const SecondsPerDay := 86400
  const RateLimitExceeded := "rate_limit_exceeded"

  // -----------------------------------------------------------------------
  // One identifier's request list

  /** The list comprehension that keeps the times strictly after
      `windowStart`, in their order. */
  function Prune(ts: seq<int>, windowStart: int): (r: seq<int>)
    ensures |r| <= |ts|
  {
    if ts == [] then []
    else (if ts[0] > windowStart then [ts[0]] else []) + Prune(ts[1..], windowStart)
  }

  /** A time survives pruning exactly when it was stored and lies inside
      the window. */
  lemma {:induction false} PruneMember(ts: seq<int>, windowStart: int, x: int)
    ensures x in Prune(ts, windowStart) <==> x in ts && x > windowStart
  {
    if ts != [] {
      PruneMember(ts[1..], windowStart, x);
      assert ts == [ts[0]] + ts[1..];
    }
  }

  lemma {:induction false} PruneAppend(a: seq<int>, b: seq<int>, windowStart: int)
    ensures Prune(a + b, windowStart) == Prune(a, windowStart) + Prune(b, windowStart)
  {
    if a != [] {
      assert (a + b)[1..] == a[1..] + b;
      PruneAppend(a[1..], b, windowStart);
    } else {
      assert a + b == b;
    }
  }

  /** Pruning to a window and then to a later one is pruning to the later one. */
  lemma {:induction false} PruneTwice(ts: seq<int>, s1: int, s2: int)
    requires s1 <= s2
    ensures Prune(Prune(ts, s1), s2) == Prune(ts, s2)
  {
    if ts != [] {
      PruneTwice(ts[1..], s1, s2);
      var head := if ts[0] > s1 then [ts[0]] else [];
      PruneAppend(head, Prune(ts[1..], s1), s2);
    }
  }

  /** Nothing is dropped when every time is inside the window. */
  lemma {:induction false} PruneKeepsAll(ts: seq<int>, windowStart: int)
    requires forall i :: 0 <= i < |ts| ==> ts[i] > windowStart
    ensures Prune(ts, windowStart) == ts
  {
    if ts != [] {
      PruneKeepsAll(ts[1..], windowStart);
    }
  }

  /** Something is dropped when some time is outside the window. */
  lemma {:induction false} PruneDrops(ts: seq<int>, windowStart: int, x: int)
    requires x in ts && x <= windowStart
    ensures |Prune(ts, windowStart)| < |ts|
  {
    if ts[0] != x {
      PruneDrops(ts[1..], windowStart, x);
    }
  }

  function Min(ts: seq<int>): (m: int)
    requires ts != []
    ensures m in ts
    ensures forall i :: 0 <= i < |ts| ==> m <= ts[i]
  {
    MinFrom(ts, 1, ts[0])
  }

  /** The least of `best` and the times from index `i` on. */
  function MinFrom(ts: seq<int>, i: nat, best: int): (m: int)
    requires i <= |ts| && best in ts
    ensures m in ts && m <= best
    ensures forall j :: i <= j < |ts| ==> m <= ts[j]
    decreases |ts| - i
  {
    if i == |ts| then best else MinFrom(ts, i + 1, if ts[i] < best then ts[i] else best)
  }

  function Max(ts: seq<int>): (m: int)
    requires ts != []
    ensures m in ts
    ensures forall i :: 0 <= i < |ts| ==> ts[i] <= m
  {
    MaxFrom(ts, 1, ts[0])
  }

  /** The greatest of `best` and the times from index `i` on. */
  function MaxFrom(ts: seq<int>, i: nat, best: int): (m: int)
    requires i <= |ts| && best in ts
    ensures m in ts && m >= best
    ensures forall j :: i <= j < |ts| ==> ts[j] <= m
    decreases |ts| - i
  {
    if i == |ts| then best else MaxFrom(ts, i + 1, if ts[i] > best then ts[i] else best)
  }

  /** `timedelta(seconds=delta).seconds`: the seconds part left after whole
      days are taken out (days may be negative). */
  function TimedeltaSeconds(delta: int): (r: int)
    ensures 0 <= r < SecondsPerDay
    ensures 0 <= delta < SecondsPerDay ==> r == delta
  {
    delta % SecondsPerDay
  }

  datatype Decision = Decision(allowed: bool, kept: seq<int>)

  /** What `check_rate_limit` decides for one identifier whose stored
      times are `ts`, and the list it stores afterwards. */
  function Decide(ts: seq<int>, maxRequests: int, windowSeconds: int, now: int): (d: Decision)
    requires maxRequests >= 1
    ensures d.allowed <==> |Prune(ts, now - windowSeconds)| < maxRequests
    ensures d.allowed ==> d.kept == Prune(ts, now - windowSeconds) + [now]
    ensures !d.allowed ==> d.kept == Prune(ts, now - windowSeconds)
  {
    var recent := Prune(ts, now - windowSeconds);
    if |recent| >= maxRequests then Decision(false, recent) else Decision(true, recent + [now])
  }

  /** The `retry_after` that `check_rate_limit` returns with its verdict:
      0 on acceptance; on rejection, the time until the oldest request in
      the window leaves it, as `timedelta.seconds` reports it. */
  function RetryDelay(ts: seq<int>, maxRequests: int, windowSeconds: int, now: int): (r: int)
    requires maxRequests >= 1
    ensures Decide(ts, maxRequests, windowSeconds, now).allowed ==> r == 0
    ensures 0 <= r < SecondsPerDay
  {
    var recent := Prune(ts, now - windowSeconds);
    if |recent| >= maxRequests then TimedeltaSeconds(Min(recent) + windowSeconds - now) else 0
  }

  /** No stored time lies in the future of `now`. */
  predicate NotAfter(ts: seq<int>, now: int)
  {
    forall t :: t in ts ==> t <= now
  }

  /** With a fixed `max_requests`, a stored list never grows past it. */
  lemma DecideKeepsBound(ts: seq<int>, maxRequests: int, windowSeconds: int, now: int)
    requires maxRequests >= 1 && |ts| <= maxRequests
    ensures |Decide(ts, maxRequests, windowSeconds, now).kept| <= maxRequests
  {
  }

  /** Pruning and recording `now` add no time later than `now`. */
  lemma DecideKeepsNotAfter(ts: seq<int>, maxRequests: int, windowSeconds: int, now: int)
    requires maxRequests >= 1 && NotAfter(ts, now)
    ensures NotAfter(Decide(ts, maxRequests, windowSeconds, now).kept, now)
  {
    var windowStart := now - windowSeconds;
    forall x | x in Prune(ts, windowStart) ensures x <= now {
      PruneMember(ts, windowStart, x);
    }
  }

  /** A rejection's `retry_after` lies between 0 and the window length
      when no stored time is later than `now`. */
  lemma RetryAfterWithinWindow(ts: seq<int>, maxRequests: int, windowSeconds: int, now: int)
    requires maxRequests >= 1
    ensures NotAfter(ts, now) && !Decide(ts, maxRequests, windowSeconds, now).allowed ==>
      0 <= RetryDelay(ts, maxRequests, windowSeconds, now) <= windowSeconds
  {
    var recent := Prune(ts, now - windowSeconds);
    if NotAfter(ts, now) && |recent| >= maxRequests {
      var oldest := Min(recent);
      PruneMember(ts, now - windowSeconds, oldest);
      var delta := oldest + windowSeconds - now;
      assert 0 < delta <= windowSeconds;
      assert delta % SecondsPerDay <= delta;
    }
  }

  /** The wait a rejection reports, before `timedelta` reduces it. */
  lemma RejectionWait(ts: seq<int>, maxRequests: int, windowSeconds: int, now: int) returns (wait: int)
    requires maxRequests >= 1 && |ts| <= maxRequests && NotAfter(ts, now)
    requires windowSeconds < SecondsPerDay
    requires !Decide(ts, maxRequests, windowSeconds, now).allowed
    ensures var kept := Decide(ts, maxRequests, windowSeconds, now).kept;
      && RetryDelay(ts, maxRequests, windowSeconds, now) == wait && 1 <= wait <= windowSeconds
      && |kept| == maxRequests
      && Min(kept) == now + wait - windowSeconds
  {
    var recent := Prune(ts, now - windowSeconds);
    var oldest := Min(recent);
    wait := oldest + windowSeconds - now;
    PruneMember(ts, now - windowSeconds, oldest);
  }

  /** For windows shorter than a day, `retry_after` is exactly the wait
      after which the oldest request leaves the window: a request made then
      is accepted, and one made a second earlier is still rejected. */
  lemma RetryAfterIsExact(ts: seq<int>, maxRequests: int, windowSeconds: int, now: int)
    requires maxRequests >= 1 && |ts| <= maxRequests && NotAfter(ts, now)
    requires windowSeconds < SecondsPerDay
    requires !Decide(ts, maxRequests, windowSeconds, now).allowed
    ensures var kept := Decide(ts, maxRequests, windowSeconds, now).kept;
      var r := RetryDelay(ts, maxRequests, windowSeconds, now);
      && r >= 1
      && Decide(kept, maxRequests, windowSeconds, now + r).allowed
      && !Decide(kept, maxRequests, windowSeconds, now + r - 1).allowed
  {
    var wait := RejectionWait(ts, maxRequests, windowSeconds, now);
    var kept := Decide(ts, maxRequests, windowSeconds, now).kept;
    var oldest := Min(kept);
    StillFullWhileAllInside(kept, maxRequests, windowSeconds, now + wait - 1);
    RoomOnceOneLeaves(kept, maxRequests, windowSeconds, now + wait, oldest);
  }

  /** A full list whose every time is still inside the window is rejected. */
  lemma StillFullWhileAllInside(kept: seq<int>, maxRequests: int, windowSeconds: int, t: int)
    requires maxRequests >= 1 && |kept| == maxRequests
    requires forall i :: 0 <= i < |kept| ==> kept[i] > t - windowSeconds
    ensures !Decide(kept, maxRequests, windowSeconds, t).allowed
  {
    PruneKeepsAll(kept, t - windowSeconds);
  }

  /** A list within the limit that has a time outside the window has room. */
  lemma RoomOnceOneLeaves(kept: seq<int>, maxRequests: int, windowSeconds: int, t: int, x: int)
    requires maxRequests >= 1 && |kept| <= maxRequests
    requires x in kept && x <= t - windowSeconds
    ensures Decide(kept, maxRequests, windowSeconds, t).allowed
  {
    PruneDrops(kept, t - windowSeconds, x);
  }

  // -----------------------------------------------------------------------
  // The window guarantee over a run of checks

  /** The list stored for one identifier after checks at the times
      `calls`, starting from none. */
  function Stored(calls: seq<int>, maxRequests: int, windowSeconds: int): seq<int>
    requires maxRequests >= 1
    decreases |calls|
  {
    if calls == [] then []
    else Decide(Stored(calls[..|calls| - 1], maxRequests, windowSeconds), maxRequests, windowSeconds, calls[|calls| - 1]).kept
  }

  /** The times of the checks in `calls` that were accepted. */
  function Admitted(calls: seq<int>, maxRequests: int, windowSeconds: int): seq<int>
    requires maxRequests >= 1
    decreases |calls|
  {
    if calls == [] then []
    else
      var prefix := calls[..|calls| - 1];
      var now := calls[|calls| - 1];
      Admitted(prefix, maxRequests, windowSeconds)
      + if Decide(Stored(prefix, maxRequests, windowSeconds), maxRequests, windowSeconds, now).allowed then [now] else []
  }

  predicate Nondecreasing(calls: seq<int>)
  {
    forall i, j :: 0 <= i <= j < |calls| ==> calls[i] <= calls[j]
  }

  /** One check, seen through the window: if the stored list is the
      window of the accepted times up to `before`, then at `now >= before`
      its pruned form is the window of the same accepted times, and with
      `now` appended it is the window of the accepted times plus `now`. */
  lemma WindowStep(admitted: seq<int>, stored: seq<int>, before: int, now: int, windowSeconds: int)
    requires windowSeconds >= 1 && before <= now
    requires stored == Prune(admitted, before - windowSeconds)
    ensures Prune(stored, now - windowSeconds) == Prune(admitted, now - windowSeconds)
    ensures Prune(stored, now - windowSeconds) + [now] == Prune(admitted + [now], now - windowSeconds)
  {
    var start := now - windowSeconds;
    PruneTwice(admitted, before - windowSeconds, start);
    PruneAppend(admitted, [now], start);
    PruneKeepsAll([now], start);
  }

  /** The stored list is exactly the accepted requests of the current
      window, and it never holds more than `maxRequests` of them. */
  lemma {:induction false} StoredIsWindowOfAdmitted(calls: seq<int>, maxRequests: int, windowSeconds: int)
    requires maxRequests >= 1 && windowSeconds >= 1
    requires calls != [] && Nondecreasing(calls)
    ensures Stored(calls, maxRequests, windowSeconds)
            == Prune(Admitted(calls, maxRequests, windowSeconds), calls[|calls| - 1] - windowSeconds)
    ensures |Stored(calls, maxRequests, windowSeconds)| <= maxRequests
    decreases |calls|
  {
    var prefix := calls[..|calls| - 1];
    var now := calls[|calls| - 1];
    var stored := Stored(prefix, maxRequests, windowSeconds);
    var admitted := Admitted(prefix, maxRequests, windowSeconds);
    var d := Decide(stored, maxRequests, windowSeconds, now);
    if prefix == [] {
      assert stored == [] && admitted == [];
      WindowStep(admitted, stored, now, now, windowSeconds);
    } else {
      NondecreasingPrefix(calls);
      StoredIsWindowOfAdmitted(prefix, maxRequests, windowSeconds);
      WindowStep(admitted, stored, prefix[|prefix| - 1], now, windowSeconds);
    }
    DecideKeepsBound(stored, maxRequests, windowSeconds, now);
    LastCheck(calls, maxRequests, windowSeconds);
  }

  /** The last check of a run decides on the list the earlier checks left,
      and adds its time to the accepted ones exactly when it accepts. */
  lemma LastCheck(calls: seq<int>, maxRequests: int, windowSeconds: int)
    requires maxRequests >= 1 && calls != []
    ensures var prefix := calls[..|calls| - 1];
      var now := calls[|calls| - 1];
      var d := Decide(Stored(prefix, maxRequests, windowSeconds), maxRequests, windowSeconds, now);
      && Stored(calls, maxRequests, windowSeconds) == d.kept
      && Admitted(calls, maxRequests, windowSeconds)
         == if d.allowed then Admitted(prefix, maxRequests, windowSeconds) + [now]
            else Admitted(prefix, maxRequests, windowSeconds)
  {
    assert Admitted(calls[..|calls| - 1], maxRequests, windowSeconds) + []
        == Admitted(calls[..|calls| - 1], maxRequests, windowSeconds);
  }

  /** Dropping the last check keeps the times in order, and the last time
      of the shorter run is no later than the dropped one. */
  lemma NondecreasingPrefix(calls: seq<int>)
    requires |calls| >= 2 && Nondecreasing(calls)
    ensures Nondecreasing(calls[..|calls| - 1])
    ensures calls[|calls| - 2] <= calls[|calls| - 1]
  {
  }

  /** At every check, the accepted requests of the last `windowSeconds`
      seconds number at most `maxRequests`. */
  lemma SlidingWindowBound(calls: seq<int>, maxRequests: int, windowSeconds: int)
    requires maxRequests >= 1 && windowSeconds >= 1
    requires calls != [] && Nondecreasing(calls)
    ensures |Prune(Admitted(calls, maxRequests, windowSeconds), calls[|calls| - 1] - windowSeconds)| <= maxRequests
  {
    StoredIsWindowOfAdmitted(calls, maxRequests, windowSeconds);
  }

  // -----------------------------------------------------------------------
  // Periodic cleanup

  /** `not request_times or max(request_times) < cutoff_time`. */
  predicate Stale(ts: seq<int>, cutoff: int)
  {
    ts == [] || Max(ts) < cutoff
  }

  /** An entry is stale exactly when none of its times reaches the cutoff,
      so a later check would prune all of it anyway. */
  lemma StaleMeansForgotten(ts: seq<int>, cutoff: int, windowStart: int)
    requires cutoff <= windowStart
    ensures Stale(ts, cutoff) <==> forall t :: t in ts ==> t < cutoff
    ensures Stale(ts, cutoff) ==> Prune(ts, windowStart) == []
  {
  }

  function WithoutStale(m: map<string, seq<int>>, cutoff: int): map<string, seq<int>>
  {
    map id | id in m && !Stale(m[id], cutoff) :: m[id]
  }

  /** Keeping the live entries is deleting the stale identifiers. */
  lemma WithoutStaleIsRemoval(m: map<string, seq<int>>, cutoff: int, doomed: set<string>)
    requires doomed == set id | id in m && Stale(m[id], cutoff)
    ensures WithoutStale(m, cutoff) == m - doomed
  {
    var kept := WithoutStale(m, cutoff);
    var rest := m - doomed;
    assert kept.Keys == rest.Keys;
    assert forall id :: id in kept ==> kept[id] == rest[id];
  }

  /** The list stored under `identifier`, empty for an identifier never seen. */
  function Entry(m: map<string, seq<int>>, identifier: string): (ts: seq<int>)
    ensures identifier in m ==> ts == m[identifier]
    ensures identifier !in m ==> ts == []
  {
    if identifier in m then m[identifier] else []
  }

  /** What one `check_rate_limit` call does to the limiter's state: the
      identifier's list becomes the decision's list; a rejection leaves the
      counter alone; an acceptance counts the request, and the acceptance
      that brings the counter to `threshold` also drops every stale entry
      and restarts the counter. */
  predicate Recorded(before: map<string, seq<int>>, beforeCount: int,
                     after: map<string, seq<int>>, afterCount: int, threshold: int,
                     identifier: string, maxRequests: int, windowSeconds: int, now: int)
    requires maxRequests >= 1
  {
    var d := Decide(Entry(before, identifier), maxRequests, windowSeconds, now);
    && (!d.allowed ==> after == before[identifier := d.kept] && afterCount == beforeCount)
    && (d.allowed && beforeCount + 1 < threshold ==>
          after == before[identifier := d.kept] && afterCount == beforeCount + 1)
    && (d.allowed && beforeCount + 1 >= threshold ==>
          after == WithoutStale(before[identifier := d.kept], now - windowSeconds) && afterCount == 0)
  }

  /** Whatever the cleanup drops, it never drops the list just stored: after
      an acceptance that list ends with `now`, which is inside the window.
      So the identifier's list after a check is exactly `Decide`'s list, the
      step by which `Stored` follows a history of checks. */
  lemma RecordedKeepsEntry(before: map<string, seq<int>>, beforeCount: int,
                           after: map<string, seq<int>>, afterCount: int, threshold: int,
                           identifier: string, maxRequests: int, windowSeconds: int, now: int)
    requires maxRequests >= 1 && windowSeconds >= 0
    requires Recorded(before, beforeCount, after, afterCount, threshold, identifier, maxRequests, windowSeconds, now)
    ensures identifier in after
    ensures after[identifier] == Decide(Entry(before, identifier), maxRequests, windowSeconds, now).kept
  {
    var d := Decide(Entry(before, identifier), maxRequests, windowSeconds, now);
    if d.allowed && beforeCount + 1 >= threshold {
      var kept := d.kept;
      assert kept[|kept| - 1] == now;
      assert !Stale(kept, now - windowSeconds);
    }
  }

  // -----------------------------------------------------------------------
  // The limiter object

  class SimpleRateLimiter {
    var requests: map<string, seq<int>>
    var requestCount: int
    const cleanupThreshold: int

    constructor()
      ensures requests == map[] && requestCount == 0 && cleanupThreshold == CleanupThreshold
    {
      requests := map[];
      requestCount := 0;
      cleanupThreshold := CleanupThreshold;
    }

    /** The counter of accepted requests stays below the cleanup threshold
        between calls. */
    ghost predicate Valid()
      reads this
    {
      0 <= requestCount < cleanupThreshold
    }

    ghost predicate WithinLimit(maxRequests: int)
      reads this
    {
      forall id :: id in requests ==> |requests[id]| <= maxRequests
    }

    ghost predicate AllNotAfter(now: int)
      reads this
    {
      forall id :: id in requests ==> NotAfter(requests[id], now)
    }

    /** `self.requests[identifier]`, an empty list for a new identifier. */
    function Times(identifier: string): (ts: seq<int>)
      reads this
      ensures identifier in requests ==> ts == requests[identifier]
      ensures identifier !in requests ==> ts == []
    {
      if identifier in requests then requests[identifier] else []
    }

    /** `_cleanup_old_entries`: collect the stale identifiers, then delete them. */
    method CleanupOldEntries(cutoff: int)
      modifies this`requests
      ensures requests == WithoutStale(old(requests), cutoff)
    {
      var toRemove: set<string> := {};
      var pending := requests.Keys;
      while pending != {}
        invariant pending <= requests.Keys
        invariant toRemove == set id | id in requests.Keys - pending && Stale(requests[id], cutoff)
        decreases pending
      {
        var id :| id in pending;
        if Stale(requests[id], cutoff) {
          toRemove := toRemove + {id};
        }
        pending := pending - {id};
      }
      var doomed := toRemove;
      while doomed != {}
        invariant doomed <= toRemove
        invariant requests == old(requests) - (toRemove - doomed)
        decreases doomed
      {
        var id :| id in doomed;
        requests := requests - {id};
        doomed := doomed - {id};
      }
      assert toRemove - doomed == toRemove;
      WithoutStaleIsRemoval(old(requests), cutoff, toRemove);
    }

    /** `check_rate_limit`: prune the identifier's list to the window and
        store it; reject with a retry delay when the window is full;
        otherwise record `now`, count the request, and clean up every
        `cleanupThreshold` accepted requests. */
    method CheckRateLimit(identifier: string, maxRequests: int, windowSeconds: int, now: int)
      returns (allowed: bool, retryAfter: int)
      requires maxRequests >= 1
      modifies this`requests, this`requestCount
      ensures allowed == Decide(old(Times(identifier)), maxRequests, windowSeconds, now).allowed
      ensures retryAfter == RetryDelay(old(Times(identifier)), maxRequests, windowSeconds, now)
      ensures Recorded(old(requests), old(requestCount), requests, requestCount, cleanupThreshold,
                       identifier, maxRequests, windowSeconds, now)
      ensures old(Valid()) ==> Valid()
      ensures old(WithinLimit(maxRequests)) ==> WithinLimit(maxRequests)
      ensures old(AllNotAfter(now)) ==> AllNotAfter(now)
      ensures old(AllNotAfter(now)) && !allowed ==> 0 <= retryAfter <= windowSeconds
    {
      var windowStart := now - windowSeconds;
      var requestTimes := Times(identifier);
      var recent := Prune(requestTimes, windowStart);
      if NotAfter(requestTimes, now) {
        DecideKeepsNotAfter(requestTimes, maxRequests, windowSeconds, now);
      }
      requests := requests[identifier := recent];
      if |recent| >= maxRequests {
        var oldest := Min(recent);
        retryAfter := TimedeltaSeconds(oldest + windowSeconds - now);
        allowed := false;
        RetryAfterWithinWindow(requestTimes, maxRequests, windowSeconds, now);
        return;
      }
      recent := recent + [now];
      assert recent == Decide(requestTimes, maxRequests, windowSeconds, now).kept;
      requests := requests[identifier := recent];
      requestCount := requestCount + 1;
      if requestCount >= cleanupThreshold {
        ghost var before := requests;
        assert before == old(requests)[identifier := recent];
        CleanupOldEntries(windowStart);
        assert requests == WithoutStale(before, now - windowSeconds);
        requestCount := 0;
      }
      allowed, retryAfter := true, 0;
    }
  }

  // -----------------------------------------------------------------------
  // The decorator

  /** What the wrapper can see of the incoming request. */
  datatype RequestInfo = RequestInfo(forwardedFor: Option<string>, clientHost: Option<string>)

  /** The key a client is limited under: the first `X-Forwarded-For`
      entry without surrounding whitespace, else the peer address, else
      "unknown". */
  function ClientKey(r: RequestInfo): (key: string)
    ensures r.forwardedFor.Some? && r.forwardedFor.value != "" ==>
      key == Strip(FirstField(r.forwardedFor.value, ','))
      && ',' !in key && (key != [] ==> !IsSpace(key[0]) && !IsSpace(key[|key| - 1]))
    ensures !(r.forwardedFor.Some? && r.forwardedFor.value != "") ==>
      key == (if r.clientHost.Some? then r.clientHost.value else "unknown")
  {
    if r.forwardedFor.Some? && r.forwardedFor.value != "" then
      var first := FirstField(r.forwardedFor.value, ',');
      StripKeepsOut(first, ',');
      Strip(first)
    else if r.clientHost.Some? then r.clientHost.value
    else "unknown"
  }

  /** The 429 the wrapper raises for a rejected request. */
  function TooManyRequestsError<T>(retryAfter: int): (e: Reply<T>)
    ensures e.HttpException? && e.statusCode == TooManyRequests
    ensures e.detail.Structured? && e.detail.body.error == RateLimitExceeded
    ensures e.detail.body.retryAfter == Some(retryAfter)
  {
    HttpException(TooManyRequests, Structured(ChatSchemas.ErrorResponse(
      RateLimitExceeded,
      "Too many requests. Please wait " + IntToString(retryAfter) + " seconds.",
      Some(retryAfter))))
  }

  /** The wrapper `rate_limit` puts around an endpoint: with no request
      object it lets the call through untouched; otherwise it checks the
      client's key and either lets the call through or raises 429. */
  method Guard(limiter: SimpleRateLimiter, request: Option<RequestInfo>, maxRequests: int, windowSeconds: int, now: int)
    returns (outcome: Reply<()>)
    requires maxRequests >= 1
    modifies limiter`requests, limiter`requestCount
    ensures request.None? ==>
      (outcome == Success(()) && limiter.requests == old(limiter.requests)
       && limiter.requestCount == old(limiter.requestCount))
    ensures request.Some? ==>
      var key := ClientKey(request.value);
      var d := Decide(old(limiter.Times(key)), maxRequests, windowSeconds, now);
      && (d.allowed ==> outcome == Success(()))
      && (!d.allowed ==> outcome == TooManyRequestsError<()>(RetryDelay(old(limiter.Times(key)), maxRequests, windowSeconds, now)))
      && Recorded(old(limiter.requests), old(limiter.requestCount), limiter.requests, limiter.requestCount,
                  limiter.cleanupThreshold, key, maxRequests, windowSeconds, now)
    ensures old(limiter.Valid()) ==> limiter.Valid()
    ensures old(limiter.WithinLimit(maxRequests)) ==> limiter.WithinLimit(maxRequests)
    ensures old(limiter.AllNotAfter(now)) ==> limiter.AllNotAfter(now)
  {
    if request.None? {
      return Success(());
    }
    var key := ClientKey(request.value);
    var allowed, retryAfter := limiter.CheckRateLimit(key, maxRequests, windowSeconds, now);
    if !allowed {
      return TooManyRequestsError(retryAfter);
    }
    outcome := Success(());
  }
}
