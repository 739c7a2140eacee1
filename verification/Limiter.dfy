/** Model of SlidingWindowLimiter (internal/api/access.go), which prunes its record on every request, and of the
    Retry-After header computed from its answer (internal/api/http.go). Times and durations are integers in
    nanoseconds. */
module Limiter {

  const SECOND := 1_000_000_000
  const MINUTE := 60_000_000_000

  type Hits = map<string, seq<int>>

  function TimesOf(hits: Hits, key: string): seq<int> {
    if key in hits then hits[key] else []
  }

  /** The first index from i on whose time has not expired. */
  function FirstFresh(times: seq<int>, cutoff: int, i: nat): (k: nat)
    requires i <= |times|
    ensures i <= k <= |times|
    ensures forall j | i <= j < k :: times[j] < cutoff
    ensures k < |times| ==> times[k] >= cutoff
    decreases |times| - i
  {
    if i < |times| && times[i] < cutoff then FirstFresh(times, cutoff, i + 1) else i
  }

  /** The recorded times left once the expired ones at the front are dropped. */
  function Pruned(times: seq<int>, cutoff: int): seq<int> {
    times[FirstFresh(times, cutoff, 0)..]
  }

  class SlidingWindowLimiter {
    const limit: int
    const window: int
    var hits: Hits

    constructor (limit: int, window: int)
      ensures this.limit == (if limit < 1 then 1 else limit)
      ensures this.window == (if window <= 0 then 60_000_000_000 else window)
      ensures hits == map[]
    {
      this.limit := if limit < 1 then 1 else limit;
      this.window := if window <= 0 then MINUTE else window;
      hits := map[];
    }

    /** `now` is the clock reading the call made before it took the lock. */
    method Allow(key: string, now: int) returns (ok: bool, retry: int)
      requires limit >= 1
      modifies this
      ensures Decision(ok, retry, hits) == Decide(old(hits), limit, window, Request(key, now))
    {
      var cutoff := now - window;
      var times := if key in hits then hits[key] else [];
      var i := 0;
      while i < |times| && times[i] < cutoff
        invariant 0 <= i <= |times|
        invariant FirstFresh(times, cutoff, i) == FirstFresh(times, cutoff, 0)
      {
        i := i + 1;
      }
      times := times[i..];
      assert times == Pruned(TimesOf(hits, key), cutoff);
      if |times| >= limit {
        return false, times[0] + window - now;
      }
      hits := hits[key := times + [now]];
      return true, 0;
    }
  }

  // ----- One request, as a function of the recorded hits

  datatype Request = Request(key: string, now: int)

  datatype Decision = Decision(ok: bool, retry: int, hits: Hits)

  function Decide(hits: Hits, limit: int, window: int, r: Request): Decision
    requires limit >= 1
  {
    var recent := Pruned(TimesOf(hits, r.key), r.now - window);
    if |recent| >= limit then Decision(false, recent[0] + window - r.now, hits)
    else Decision(true, 0, hits[r.key := recent + [r.now]])
  }

  /** The header value, in seconds; the handler clamps a negative wait to zero first. */
  function HeaderSeconds(retry: int): int {
    (if retry < 0 then 0 else retry) / SECOND + 1
  }

  // ----- Histories: requests in the order they took the lock, and the log of all admissions

  ghost function HitsAfter(limit: int, window: int, requests: seq<Request>): Hits
    requires limit >= 1
  {
    if requests == [] then map[]
    else Decide(HitsAfter(limit, window, requests[..|requests| - 1]), limit, window, requests[|requests| - 1]).hits
  }

  ghost function DecisionOn(limit: int, window: int, requests: seq<Request>, k: nat): Decision
    requires limit >= 1 && k < |requests|
  {
    Decide(HitsAfter(limit, window, requests[..k]), limit, window, requests[k])
  }

  ghost predicate Admitted(limit: int, window: int, requests: seq<Request>, k: nat)
    requires limit >= 1 && k < |requests|
  {
    DecisionOn(limit, window, requests, k).ok
  }

  /** The times of every admission of a key there has ever been, oldest first. Nothing is pruned here. */
  ghost function Log(limit: int, window: int, requests: seq<Request>, key: string): seq<int>
    requires limit >= 1
  {
    if requests == [] then []
    else
      var n := |requests| - 1;
      var earlier := Log(limit, window, requests[..n], key);
      if requests[n].key == key && Admitted(limit, window, requests, n) then earlier + [requests[n].now] else earlier
  }

  ghost function CountIn(times: seq<int>, low: int, high: int): nat {
    if times == [] then 0
    else CountIn(times[..|times| - 1], low, high) + (if low <= times[|times| - 1] <= high then 1 else 0)
  }

  /** The assumption on the clock: readings for the key do not decrease in the order the lock is taken. */
  ghost predicate ClockOrdered(requests: seq<Request>, key: string) {
    forall i, j | 0 <= i < j < |requests| && requests[i].key == requests[j].key == key ::
        requests[i].now <= requests[j].now
  }

  ghost predicate NotAfter(requests: seq<Request>, key: string, now: int) {
    forall i | 0 <= i < |requests| && requests[i].key == key :: requests[i].now <= now
  }

  lemma ClockPrefix(requests: seq<Request>, key: string, n: nat)
    requires ClockOrdered(requests, key) && n < |requests|
    ensures ClockOrdered(requests[..n], key)
    ensures requests[n].key == key ==> NotAfter(requests[..n], key, requests[n].now)
  {
  }

  lemma NotAfterPrefix(requests: seq<Request>, key: string, now: int, n: nat)
    requires NotAfter(requests, key, now) && n < |requests|
    ensures NotAfter(requests[..n], key, now) && (requests[n].key == key ==> requests[n].now <= now)
  {
  }

  ghost predicate Sorted(times: seq<int>) {
    forall i, j | 0 <= i < j < |times| :: times[i] <= times[j]
  }

  /** What the pruned record has to do with the full log, once the clock has reached `now`. */
  ghost predicate Represents(times: seq<int>, log: seq<int>, limit: int, window: int, now: int) {
    && |times| <= limit && |times| <= |log|
    && times == log[|log| - |times|..]
    && (forall i | 0 <= i < |log| - |times| :: log[i] < now - window)
    && Sorted(log)
    && (forall i | 0 <= i < |log| :: log[i] <= now)
  }

  lemma {:induction false} CountNone(times: seq<int>, low: int, high: int)
    requires forall i | 0 <= i < |times| :: times[i] < low
    ensures CountIn(times, low, high) == 0
  {
    if times != [] {
      CountNone(times[..|times| - 1], low, high);
    }
  }

  lemma {:induction false} CountAll(times: seq<int>, low: int, high: int)
    requires forall i | 0 <= i < |times| :: low <= times[i] <= high
    ensures CountIn(times, low, high) == |times|
  {
    if times != [] {
      CountAll(times[..|times| - 1], low, high);
    }
  }

  lemma {:induction false} CountConcat(a: seq<int>, b: seq<int>, low: int, high: int)
    ensures CountIn(a + b, low, high) == CountIn(a, low, high) + CountIn(b, low, high)
    decreases |b|
  {
    if b == [] {
      assert a + b == a;
    } else {
      CountConcat(a, b[..|b| - 1], low, high);
      assert (a + b)[..|a + b| - 1] == a + b[..|b| - 1];
    }
  }

  lemma {:induction false} CountMonotone(times: seq<int>, low: int, high: int, low': int, high': int)
    requires forall i | 0 <= i < |times| && low <= times[i] <= high :: low' <= times[i] <= high'
    ensures CountIn(times, low, high) <= CountIn(times, low', high')
  {
    if times != [] {
      CountMonotone(times[..|times| - 1], low, high, low', high');
    }
  }

  lemma PrunedRepresents(times: seq<int>, log: seq<int>, limit: int, window: int, now: int, now': int)
    requires Represents(times, log, limit, window, now) && now <= now'
    ensures Represents(Pruned(times, now' - window), log, limit, window, now')
    ensures var rest := Pruned(times, now' - window);
            forall i | 0 <= i < |rest| :: now' - window <= rest[i] <= now'
  {
    var dropped := FirstFresh(times, now' - window, 0);
    var rest := times[dropped..];
    var older := |log| - |times|;
    forall i | 0 <= i < |times|
      ensures times[i] == log[older + i]
    {
    }
    assert rest == log[older + dropped..];
    forall i | 0 <= i < older + dropped
      ensures log[i] < now' - window
    {
      if i >= older {
        assert log[i] == times[i - older];
      }
    }
    forall i | 0 <= i < |rest|
      ensures now' - window <= rest[i] <= now'
    {
      assert rest[i] == log[older + dropped + i] && times[dropped] == log[older + dropped];
    }
  }

  /** Pruning at a later time finds exactly the admissions of the closed window ending then. */
  lemma PrunedCounts(times: seq<int>, log: seq<int>, limit: int, window: int, now: int, now': int)
    requires Represents(times, log, limit, window, now) && now <= now'
    ensures |Pruned(times, now' - window)| == CountIn(log, now' - window, now')
    ensures Represents(Pruned(times, now' - window), log, limit, window, now')
  {
    hide Pruned, CountIn, Sorted;
    PrunedRepresents(times, log, limit, window, now, now');
    var rest := Pruned(times, now' - window);
    var older := log[..|log| - |rest|];
    assert log == older + rest;
    CountNone(older, now' - window, now');
    CountAll(rest, now' - window, now');
    CountConcat(older, rest, now' - window, now');
  }

  lemma RepresentsAdmission(times: seq<int>, log: seq<int>, limit: int, window: int, now: int)
    requires Represents(times, log, limit, window, now) && |times| < limit && window >= 0
    ensures Represents(times + [now], log + [now], limit, window, now)
  {
  }

  lemma RepresentsNothing(limit: int, window: int, now: int)
    requires limit >= 1
    ensures Represents([], [], limit, window, now)
  {
  }

  lemma RepresentsLater(times: seq<int>, log: seq<int>, limit: int, window: int, now: int, now': int)
    requires Represents(times, log, limit, window, now) && now <= now'
    ensures Represents(times, log, limit, window, now')
  {
  }

  lemma {:induction false} RecordRepresentsLog(limit: int, window: int, requests: seq<Request>, key: string, now: int)
    requires limit >= 1 && window > 0 && ClockOrdered(requests, key) && NotAfter(requests, key, now)
    ensures Represents(TimesOf(HitsAfter(limit, window, requests), key), Log(limit, window, requests, key), limit,
              window, now)
  {
    hide Pruned, Represents, ClockOrdered, NotAfter;
    if requests == [] {
      RepresentsNothing(limit, window, now);
    } else {
      var n := |requests| - 1;
      var r := requests[n];
      var earlier := requests[..n];
      ClockPrefix(requests, key, n);
      NotAfterPrefix(requests, key, now, n);
      if r.key == key {
        RecordRepresentsLog(limit, window, earlier, key, r.now);
        var times, log := TimesOf(HitsAfter(limit, window, earlier), key), Log(limit, window, earlier, key);
        if Admitted(limit, window, requests, n) {
          PrunedCounts(times, log, limit, window, r.now, r.now);
          RepresentsAdmission(Pruned(times, r.now - window), log, limit, window, r.now);
        }
        var times', log' := TimesOf(HitsAfter(limit, window, requests), key), Log(limit, window, requests, key);
        RepresentsLater(times', log', limit, window, r.now, now);
      } else {
        RecordRepresentsLog(limit, window, earlier, key, now);
      }
    }
  }
}
