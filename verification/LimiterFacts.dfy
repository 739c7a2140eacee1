/** What the sliding-window limiter guarantees a key while the clock readings for it come in lock order. */
module LimiterFacts {
  import opened Limiter

  /** The pruned record decides as the full log would: a request is admitted exactly when fewer than
      `limit` past admissions of its key lie in the closed window [now - window, now]. */
  lemma AdmitsByFullLog(limit: int, window: int, requests: seq<Request>, k: nat)
    requires limit >= 1 && window > 0 && k < |requests| && ClockOrdered(requests, requests[k].key)
    ensures var r := requests[k];
            Admitted(limit, window, requests, k) <==>
              CountIn(Log(limit, window, requests[..k], r.key), r.now - window, r.now) < limit
  {
    hide Pruned, Represents, HitsAfter, Log, CountIn, ClockOrdered, NotAfter;
    var r := requests[k];
    ClockPrefix(requests, r.key, k);
    RecordRepresentsLog(limit, window, requests[..k], r.key, r.now);
    PrunedCounts(TimesOf(HitsAfter(limit, window, requests[..k]), r.key), Log(limit, window, requests[..k], r.key),
                 limit, window, r.now, r.now);
  }

  lemma LogNotLater(log: seq<int>, limit: int, window: int, now: int, times: seq<int>)
    requires Represents(times, log, limit, window, now)
    ensures Sorted(log) && Sorted(times) && |times| <= limit
    ensures forall i | 0 <= i < |log| :: log[i] <= now
    ensures forall i | 0 <= i < |times| :: times[i] <= now
  {
    forall i | 0 <= i < |times|
      ensures times[i] == log[|log| - |times| + i]
    {
    }
  }

  lemma LogLast(limit: int, window: int, requests: seq<Request>, key: string)
    requires limit >= 1 && requests != []
    ensures var n := |requests| - 1;
            Log(limit, window, requests, key) == Log(limit, window, requests[..n], key)
              + if requests[n].key == key && Admitted(limit, window, requests, n) then [requests[n].now] else []
  {
    hide Admitted;
  }

  lemma CountSingle(t: int, low: int, high: int)
    ensures CountIn([t], low, high) == if low <= t <= high then 1 else 0
  {
    assert [t][..0] == [];
  }

  lemma EmptyLog(limit: int, window: int, key: string, start: int)
    requires limit >= 1
    ensures CountIn(Log(limit, window, [], key), start, start + window) == 0
  {
  }

  /** So no closed interval as long as the window ever contains more than `limit` admissions of a key. */
  lemma {:induction false} AtMostLimitPerWindow(limit: int, window: int, requests: seq<Request>, key: string,
                                                start: int)
    requires limit >= 1 && window > 0 && ClockOrdered(requests, key)
    ensures CountIn(Log(limit, window, requests, key), start, start + window) <= limit
  {
    hide Admitted, Represents, HitsAfter, Log, CountIn, ClockOrdered, NotAfter, Sorted;
    if requests == [] {
      EmptyLog(limit, window, key, start);
    } else {
      var n := |requests| - 1;
      var r := requests[n];
      var earlier := requests[..n];
      ClockPrefix(requests, key, n);
      AtMostLimitPerWindow(limit, window, earlier, key, start);
      LogLast(limit, window, requests, key);
      var log := Log(limit, window, earlier, key);
      if r.key == key && Admitted(limit, window, requests, n) {
        RecordRepresentsLog(limit, window, earlier, key, r.now);
        LogNotLater(log, limit, window, r.now, TimesOf(HitsAfter(limit, window, earlier), key));
        AdmitsByFullLog(limit, window, requests, n);
        OneMoreInWindow(log, limit, window, start, r.now);
      } else {
        assert log + [] == log;
      }
    }
  }

  lemma OneMoreInWindow(log: seq<int>, limit: int, window: int, start: int, now: int)
    requires forall i | 0 <= i < |log| :: log[i] <= now
    requires CountIn(log, now - window, now) < limit && CountIn(log, start, start + window) <= limit
    ensures CountIn(log + [now], start, start + window) <= limit
  {
    hide CountIn;
    CountConcat(log, [now], start, start + window);
    CountSingle(now, start, start + window);
    if start <= now <= start + window {
      CountMonotone(log, start, start + window, now - window, now);
    }
  }

  // ----- Retry-After

  lemma DecideFrame(hits: Hits, limit: int, window: int, r: Request, key: string)
    requires limit >= 1 && (r.key != key || !Decide(hits, limit, window, r).ok)
    ensures TimesOf(Decide(hits, limit, window, r).hits, key) == TimesOf(hits, key)
  {
  }

  /** A request that admits nothing for the key leaves the key's record alone. */
  lemma {:induction false} RecordUnchanged(limit: int, window: int, requests: seq<Request>, from: nat, key: string)
    requires limit >= 1 && from <= |requests|
    requires forall k | from <= k < |requests| :: requests[k].key == key ==> !Admitted(limit, window, requests, k)
    ensures TimesOf(HitsAfter(limit, window, requests), key) == TimesOf(HitsAfter(limit, window, requests[..from]), key)
  {
    hide Decide;
    if from == |requests| {
      assert requests[..from] == requests;
    } else {
      var n := |requests| - 1;
      var front := requests[..n];
      forall k | from <= k < n && front[k].key == key
        ensures !Admitted(limit, window, front, k)
      {
        assert front[..k] == requests[..k];
        assert !Admitted(limit, window, requests, k);
      }
      RecordUnchanged(limit, window, front, from, key);
      DecideFrame(HitsAfter(limit, window, front), limit, window, requests[n], key);
      assert front[..from] == requests[..from];
    }
  }

  /** After a denial, and until another admission of the key, a request is admitted exactly when it
      comes strictly later than the returned wait: the closed window makes waiting just that long too
      short, and the whole seconds of the Retry-After header are always long enough. */
  lemma RetryAfterIsExact(limit: int, window: int, requests: seq<Request>, d: nat, k: nat)
    requires limit >= 1 && window > 0 && d < k < |requests| && ClockOrdered(requests, requests[k].key)
    requires requests[d].key == requests[k].key && !Admitted(limit, window, requests, d)
    requires forall i | d < i < k && requests[i].key == requests[k].key :: !Admitted(limit, window, requests, i)
    ensures var retry := DecisionOn(limit, window, requests, d).retry;
            && 0 <= retry <= window
            && (Admitted(limit, window, requests, k) <==> requests[k].now > requests[d].now + retry)
            && (requests[k].now >= requests[d].now + HeaderSeconds(retry) * SECOND ==>
                Admitted(limit, window, requests, k))
  {
    hide HitsAfter, Represents, Log, ClockOrdered, NotAfter, Sorted;
    var r, r' := requests[d], requests[k];
    var times := TimesOf(HitsAfter(limit, window, requests[..d]), r.key);
    RecordKept(limit, window, requests, d, k);
    ClockPrefix(requests, r.key, d);
    RecordRepresentsLog(limit, window, requests[..d], r.key, r.now);
    LogNotLater(Log(limit, window, requests[..d], r.key), limit, window, r.now, times);
    ClockBetween(requests, d, k);
  }

  /** The header gives the least whole number of seconds that is more than the wait. */
  lemma HeaderIsLeast(retry: int)
    requires retry >= 0
    ensures (HeaderSeconds(retry) - 1) * 1_000_000_000 <= retry < HeaderSeconds(retry) * 1_000_000_000
    ensures HeaderSeconds(-retry) == HeaderSeconds(0) == 1
  {
  }

  lemma ClockBetween(requests: seq<Request>, d: nat, k: nat)
    requires d < k < |requests| && requests[d].key == requests[k].key && ClockOrdered(requests, requests[k].key)
    ensures requests[d].now <= requests[k].now
  {
  }

  lemma RecordKept(limit: int, window: int, requests: seq<Request>, d: nat, k: nat)
    requires limit >= 1 && d < k < |requests|
    requires forall i | d <= i < k && requests[i].key == requests[k].key :: !Admitted(limit, window, requests, i)
    ensures TimesOf(HitsAfter(limit, window, requests[..k]), requests[k].key)
         == TimesOf(HitsAfter(limit, window, requests[..d]), requests[k].key)
  {
    hide HitsAfter, Decide;
    var prefix := requests[..k];
    forall i | d <= i < k && prefix[i].key == requests[k].key
      ensures !Admitted(limit, window, prefix, i)
    {
      assert prefix[..i] == requests[..i];
      assert !Admitted(limit, window, requests, i);
    }
    RecordUnchanged(limit, window, prefix, d, requests[k].key);
    assert prefix[..d] == requests[..d];
  }
}
