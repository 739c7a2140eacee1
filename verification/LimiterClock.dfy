/** What becomes of the sliding-window limiter when clock readings are out of lock order: the reading is taken
    before the lock (internal/api/access.go:77-78). */
module LimiterClock {
  import opened Limiter
  import opened LimiterFacts

  /** Readings for the key step back by at most `skew` in the order the lock is taken; with 0 they never do. */
  ghost predicate SkewAtMost(requests: seq<Request>, key: string, skew: nat) {
    forall i, j | 0 <= i < j < |requests| && requests[i].key == requests[j].key == key ::
        requests[i].now <= requests[j].now + skew
  }

  ghost predicate WithinLimit(limit: int, window: int, requests: seq<Request>, key: string, start: int)
    requires limit >= 1
  {
    CountIn(Log(limit, window, requests, key), start, start + window) <= limit
  }

  // ----- A limit of one needs no clock order

  ghost predicate Spaced(log: seq<int>, window: int) {
    forall i, j | 0 <= i < j < |log| :: log[j] - log[i] > window
  }

  lemma {:induction false} SingleIsSpaced(window: int, requests: seq<Request>, key: string)
    requires window > 0
    ensures var times, log := TimesOf(HitsAfter(1, window, requests), key), Log(1, window, requests, key);
            && Spaced(log, window)
            && times == if log == [] then [] else [log[|log| - 1]]
  {
    hide Pruned, Decide, Spaced;
    if requests == [] {
      NothingSpaced(window);
    } else {
      var n := |requests| - 1;
      var earlier, r := requests[..n], requests[n];
      SingleIsSpaced(window, earlier, key);
      var hits, log := HitsAfter(1, window, earlier), Log(1, window, earlier, key);
      if r.key == key && Admitted(1, window, requests, n) {
        SingleAdmits(hits, window, r);
        assert log != [] ==> TimesOf(hits, key)[0] == log[|log| - 1];
        SpacedMore(log, window, r.now);
      } else {
        DecideFrame(hits, 1, window, r, key);
      }
    }
  }

  lemma NothingSpaced(window: int)
    ensures Spaced([], window)
  {
  }

  lemma SpacedMore(log: seq<int>, window: int, now: int)
    requires window > 0 && Spaced(log, window) && (log != [] ==> now - log[|log| - 1] > window)
    ensures Spaced(log + [now], window)
  {
    assert forall i | 0 <= i < |log| - 1 :: log[|log| - 1] - log[i] > window;
  }

  lemma SingleAdmits(hits: Hits, window: int, r: Request)
    requires window > 0 && |TimesOf(hits, r.key)| <= 1 && Decide(hits, 1, window, r).ok
    ensures TimesOf(Decide(hits, 1, window, r).hits, r.key) == [r.now]
    ensures forall i | 0 <= i < |TimesOf(hits, r.key)| :: r.now - TimesOf(hits, r.key)[i] > window
  {
  }

  lemma {:induction false} SpacedCount(log: seq<int>, window: int, start: int)
    requires Spaced(log, window)
    ensures CountIn(log, start, start + window) <= 1
  {
    if log != [] {
      var front, last := log[..|log| - 1], log[|log| - 1];
      SpacedCount(front, window, start);
      if start <= last <= start + window {
        CountNone(front, start, start + window);
      }
    }
  }

  /** Admissions under a limit of one are more than a window apart in lock order, whatever the clock does. */
  lemma SingleNeedsNoOrder(window: int, requests: seq<Request>, key: string, start: int)
    requires window > 0
    ensures WithinLimit(1, window, requests, key, start)
  {
    hide HitsAfter, Log, CountIn, Spaced;
    SingleIsSpaced(window, requests, key);
    SpacedCount(Log(1, window, requests, key), window, start);
  }

  // ----- Any larger limit does

  function Burst(key: string, n: nat): seq<Request> {
    seq(n, i => Request(key, 0))
  }

  function Zeros(n: nat): seq<int> {
    seq(n, i => 0)
  }

  lemma NothingYet(limit: int, window: int, key: string)
    requires limit >= 1
    ensures TimesOf(HitsAfter(limit, window, []), key) == Log(limit, window, [], key) == []
  {
  }

  lemma NextRequest(limit: int, window: int, requests: seq<Request>, r: Request, times: seq<int>, log: seq<int>)
    requires limit >= 1
    requires TimesOf(HitsAfter(limit, window, requests), r.key) == times
    requires Log(limit, window, requests, r.key) == log
    requires |Pruned(times, r.now - window)| < limit
    ensures TimesOf(HitsAfter(limit, window, requests + [r]), r.key) == Pruned(times, r.now - window) + [r.now]
    ensures Log(limit, window, requests + [r], r.key) == log + [r.now]
  {
    hide Pruned;
    assert (requests + [r])[..|requests|] == requests;
  }

  /** The record is sorted by age: either nothing has expired, or here everything has. */
  lemma PrunedEnds(times: seq<int>, cutoff: int)
    ensures (times != [] ==> times[0] >= cutoff) ==> Pruned(times, cutoff) == times
    ensures (forall i | 0 <= i < |times| :: times[i] < cutoff) ==> Pruned(times, cutoff) == []
  {
  }

  lemma {:induction false} BurstAdmitted(limit: int, window: int, key: string, n: nat)
    requires n <= limit && limit >= 1 && window > 0
    ensures TimesOf(HitsAfter(limit, window, Burst(key, n)), key) == Log(limit, window, Burst(key, n), key) == Zeros(n)
  {
    hide Pruned, HitsAfter, Log;
    if n == 0 {
      NothingYet(limit, window, key);
    } else {
      var r := Request(key, 0);
      BurstAdmitted(limit, window, key, n - 1);
      PrunedEnds(Zeros(n - 1), -window);
      NextRequest(limit, window, Burst(key, n - 1), r, Zeros(n - 1), Zeros(n - 1));
      assert Burst(key, n - 1) + [r] == Burst(key, n) && Zeros(n - 1) + [0] == Zeros(n);
    }
  }

  /** `limit` requests at 0, one just past the window, and one whose reading is a nanosecond older. */
  function LateReader(limit: nat, window: int, key: string): seq<Request> {
    Burst(key, limit) + [Request(key, window + 1)] + [Request(key, window)]
  }

  /** The late reader finds the window already pruned by the request before it. */
  lemma LateReaderBreaksLimit(limit: int, window: int, key: string)
    requires limit >= 2 && window > 0
    ensures SkewAtMost(LateReader(limit, window, key), key, 1)
    ensures CountIn(Log(limit, window, LateReader(limit, window, key), key), 0, window) == limit + 1
  {
    hide Pruned, HitsAfter, Log, CountIn;
    var burst, ahead, late := Burst(key, limit), Request(key, window + 1), Request(key, window);
    BurstAdmitted(limit, window, key, limit);
    PrunedEnds(Zeros(limit), 1);
    NextRequest(limit, window, burst, ahead, Zeros(limit), Zeros(limit));
    assert [] + [window + 1] == [window + 1];
    PrunedEnds([window + 1], 0);
    NextRequest(limit, window, burst + [ahead], late, [window + 1], Zeros(limit) + [window + 1]);
    CountConcat(Zeros(limit) + [window + 1], [window], 0, window);
    CountConcat(Zeros(limit), [window + 1], 0, window);
    CountAll(Zeros(limit), 0, window);
    CountSingle(window, 0, window);
    CountSingle(window + 1, 0, window);
  }

  lemma SkewFacts(requests: seq<Request>, key: string, skew: nat)
    ensures SkewAtMost(requests, key, 0) ==> ClockOrdered(requests, key)
    ensures SkewAtMost(requests, key, 1) && skew >= 1 ==> SkewAtMost(requests, key, skew)
  {
  }

  /** Histories whose readings for a key step back by at most `skew` all keep the bound in every closed window if
      and only if the limit is one or those readings do not step back at all. */
  lemma BoundSurvivesSkewIff(limit: int, window: int, skew: nat, key: string)
    requires limit >= 1 && window > 0
    ensures (limit == 1 || skew == 0) <==>
              forall requests, start | SkewAtMost(requests, key, skew) ::
                  WithinLimit(limit, window, requests, key, start)
  {
    hide HitsAfter, Log, CountIn, SkewAtMost;
    if limit == 1 || skew == 0 {
      forall requests: seq<Request>, start: int | SkewAtMost(requests, key, skew)
        ensures WithinLimit(limit, window, requests, key, start)
      {
        if limit == 1 {
          SingleNeedsNoOrder(window, requests, key, start);
        } else {
          SkewFacts(requests, key, 0);
          AtMostLimitPerWindow(limit, window, requests, key, start);
        }
      }
    } else {
      LateReaderBreaksLimit(limit, window, key);
      SkewFacts(LateReader(limit, window, key), key, skew);
      assert !WithinLimit(limit, window, LateReader(limit, window, key), key, 0);
    }
  }
}
