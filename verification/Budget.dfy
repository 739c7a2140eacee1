/** Model of Budget.Allow (internal/reliability/reliability.go): quotas over a fixed, lazily restarted window. */
module Budget {

  /** Times are integers in nanoseconds. */
  const MINUTE := 60_000_000_000

  /** A quota that is zero or negative is switched off. */
  datatype Quota = Quota(requests: int, tokens: int, cost: real)

  datatype Usage = Usage(requests: int, tokens: int, cost: real)

  datatype Call = Call(tenant: string, tokens: int, cost: real, now: int)

  datatype Outcome = Admitted | Unlimited | RequestsExceeded | TokensExceeded | CostExceeded

  datatype State = State(usage: map<string, Usage>, window: int)

  function UsageOf(usage: map<string, Usage>, tenant: string): Usage {
    if tenant in usage then usage[tenant] else Usage(0, 0, 0.0)
  }

  class Budget {
    const limits: map<string, Quota>
    var usage: map<string, Usage>
    var window: int

    constructor (limits: map<string, Quota>, now: int)
      ensures this.limits == limits && usage == map[] && window == now
    {
      this.limits := limits;
      usage := map[];
      window := now;
    }

    /** `now` is the wall time read under the lock. That it does not decrease is assumed where it matters. */
    method Allow(tenant: string, tokens: int, cost: real, now: int) returns (r: Outcome)
      modifies this
      ensures (State(usage, window), r) == Decide(limits, old(State(usage, window)), Call(tenant, tokens, cost, now))
    {
      if now - window >= MINUTE {
        usage := map[];
        window := now;
      }
      if tenant !in limits {
        return Unlimited;
      }
      var q := limits[tenant];
      var u := if tenant in usage then usage[tenant] else Usage(0, 0, 0.0);
      if q.requests > 0 && u.requests >= q.requests {
        return RequestsExceeded;
      }
      if q.tokens > 0 && u.tokens + tokens > q.tokens {
        return TokensExceeded;
      }
      if q.cost > 0.0 && u.cost + cost > q.cost {
        return CostExceeded;
      }
      usage := usage[tenant := Usage(u.requests + 1, u.tokens + tokens, u.cost + cost)];
      return Admitted;
    }
  }

  // ----- One call, as a function of the state

  function Restarted(s: State, now: int): State {
    if now - s.window >= MINUTE then State(map[], now) else s
  }

  function Verdict(q: Quota, u: Usage, c: Call): Outcome {
    if q.requests > 0 && u.requests >= q.requests then RequestsExceeded
    else if q.tokens > 0 && u.tokens + c.tokens > q.tokens then TokensExceeded
    else if q.cost > 0.0 && u.cost + c.cost > q.cost then CostExceeded
    else Admitted
  }

  function Charged(u: Usage, c: Call): Usage {
    Usage(u.requests + 1, u.tokens + c.tokens, u.cost + c.cost)
  }

  function Decide(limits: map<string, Quota>, before: State, c: Call): (State, Outcome) {
    var s := Restarted(before, c.now);
    if c.tenant !in limits then (s, Unlimited)
    else
      var u := UsageOf(s.usage, c.tenant);
      match Verdict(limits[c.tenant], u, c)
      case Admitted => (s.(usage := s.usage[c.tenant := Charged(u, c)]), Admitted)
      case denial => (s, denial)
  }

  // ----- Histories

  ghost function After(limits: map<string, Quota>, start: int, calls: seq<Call>): State {
    if calls == [] then State(map[], start)
    else Decide(limits, After(limits, start, calls[..|calls| - 1]), calls[|calls| - 1]).0
  }

  /** The last call was charged to the tenant. */
  ghost predicate LastCharged(limits: map<string, Quota>, start: int, calls: seq<Call>, tenant: string)
    requires calls != []
  {
    var n := |calls| - 1;
    calls[n].tenant == tenant && Decide(limits, After(limits, start, calls[..n]), calls[n]).1 == Admitted
  }

  /** Everything charged to the tenant in the accounting window that started at w, over the whole
      history; a window is identified by its start, since restarts are at least a minute apart. */
  ghost function Spent(limits: map<string, Quota>, start: int, calls: seq<Call>, tenant: string, w: int): Usage {
    if calls == [] then Usage(0, 0, 0.0)
    else
      var earlier := Spent(limits, start, calls[..|calls| - 1], tenant, w);
      if LastCharged(limits, start, calls, tenant) && After(limits, start, calls).window == w
      then Charged(earlier, calls[|calls| - 1]) else earlier
  }

  /** Everything charged to the tenant at times in [low, high), over the whole history. */
  ghost function SpentBetween(limits: map<string, Quota>, start: int, calls: seq<Call>, tenant: string,
                              low: int, high: int): Usage {
    if calls == [] then Usage(0, 0, 0.0)
    else
      var n := |calls| - 1;
      var earlier := SpentBetween(limits, start, calls[..n], tenant, low, high);
      if LastCharged(limits, start, calls, tenant) && low <= calls[n].now < high then Charged(earlier, calls[n])
      else earlier
  }

  ghost predicate Within(u: Usage, q: Quota, factor: int) {
    && (q.requests > 0 ==> u.requests <= factor * q.requests)
    && (q.tokens > 0 ==> u.tokens <= factor * q.tokens)
    && (q.cost > 0.0 ==> u.cost <= factor as real * q.cost)
  }

  function Plus(a: Usage, b: Usage): Usage {
    Usage(a.requests + b.requests, a.tokens + b.tokens, a.cost + b.cost)
  }

  predicate AtMost(a: Usage, b: Usage) {
    a.requests <= b.requests && a.tokens <= b.tokens && a.cost <= b.cost
  }

  /** Clock readings, the one that opened the first window included, step back by at most `skew`. */
  ghost predicate SkewAtMost(start: int, calls: seq<Call>, skew: nat) {
    && (forall i | 0 <= i < |calls| :: start <= calls[i].now + skew)
    && (forall i, j | 0 <= i < j < |calls| :: calls[i].now <= calls[j].now + skew)
  }

  ghost predicate NonNegative(calls: seq<Call>) {
    forall i | 0 <= i < |calls| :: calls[i].tokens >= 0 && calls[i].cost >= 0.0
  }

  /** A window that has not started yet has nothing charged to it. */
  lemma {:induction false} FutureUnspent(limits: map<string, Quota>, start: int, calls: seq<Call>, tenant: string,
                                         w: int)
    requires w > After(limits, start, calls).window
    ensures Spent(limits, start, calls, tenant, w) == Usage(0, 0, 0.0)
  {
    hide Verdict, Charged;
    if calls != [] {
      FutureUnspent(limits, start, calls[..|calls| - 1], tenant, w);
    }
  }

  /** The table holds exactly what was charged since the last restart, even if the clock steps back: a restart only
      ever moves the window forward. */
  lemma {:induction false} UsageIsSpent(limits: map<string, Quota>, start: int, calls: seq<Call>, tenant: string)
    ensures var s := After(limits, start, calls);
            UsageOf(s.usage, tenant) == Spent(limits, start, calls, tenant, s.window)
  {
    hide Verdict, Charged;
    if calls != [] {
      var n := |calls| - 1;
      var front := calls[..n];
      var s := After(limits, start, front);
      UsageIsSpent(limits, start, front, tenant);
      if calls[n].now - s.window >= MINUTE {
        FutureUnspent(limits, start, front, tenant, calls[n].now);
      }
    }
  }

  /** So no accounting window ever exceeds an enabled quota. */
  lemma {:induction false} WindowWithinQuota(limits: map<string, Quota>, start: int, calls: seq<Call>, tenant: string,
                                             w: int)
    requires tenant in limits
    ensures Within(Spent(limits, start, calls, tenant, w), limits[tenant], 1)
  {
    if calls != [] {
      var n := |calls| - 1;
      var front := calls[..n];
      var s := After(limits, start, front);
      WindowWithinQuota(limits, start, front, tenant, w);
      if LastCharged(limits, start, calls, tenant) && After(limits, start, calls).window == w {
        UsageIsSpent(limits, start, front, tenant);
        if calls[n].now - s.window >= MINUTE {
          FutureUnspent(limits, start, front, tenant, w);
        }
      }
    }
  }

  // ----- Any minute

  ghost function WindowAfter(limits: map<string, Quota>, start: int, calls: seq<Call>, k: nat): int
    requires k <= |calls|
  {
    After(limits, start, calls[..k]).window
  }

  lemma WindowStep(limits: map<string, Quota>, start: int, calls: seq<Call>, k: nat)
    requires k < |calls|
    ensures var before, t := WindowAfter(limits, start, calls, k), calls[k].now;
            WindowAfter(limits, start, calls, k + 1) == if t - before >= MINUTE then t else before
  {
    hide Verdict, Charged;
    assert calls[..k + 1][..k] == calls[..k];
  }

  lemma {:induction false} WindowsApart(limits: map<string, Quota>, start: int, calls: seq<Call>, j: nat, k: nat)
    requires j <= k <= |calls|
    ensures var v, w := WindowAfter(limits, start, calls, j), WindowAfter(limits, start, calls, k);
            w == v || w >= v + MINUTE
    decreases k
  {
    hide WindowAfter;
    if j < k {
      WindowsApart(limits, start, calls, j, k - 1);
      WindowStep(limits, start, calls, k - 1);
    }
  }

  lemma {:induction false} WindowNotAhead(limits: map<string, Quota>, start: int, calls: seq<Call>, k: nat, bound: int)
    requires k <= |calls| && start <= bound && forall i | 0 <= i < k :: calls[i].now <= bound
    ensures WindowAfter(limits, start, calls, k) <= bound
  {
    if k > 0 {
      WindowNotAhead(limits, start, calls, k - 1, bound);
      WindowStep(limits, start, calls, k - 1);
    }
  }

  /** No accounting window but v and w can have charges made in the minute from `low` on. */
  ghost predicate OnlyWindows(limits: map<string, Quota>, start: int, calls: seq<Call>, low: int, v: int, w: int) {
    forall k | 0 <= k <= |calls| && low - MINUTE < WindowAfter(limits, start, calls, k) <= low + MINUTE ::
        WindowAfter(limits, start, calls, k) == v || WindowAfter(limits, start, calls, k) == w
  }

  lemma WindowIn(limits: map<string, Quota>, start: int, calls: seq<Call>, high: int) returns (v: int)
    ensures high - MINUTE < v <= high
    ensures forall k | 0 <= k <= |calls| && high - MINUTE < WindowAfter(limits, start, calls, k) <= high ::
                WindowAfter(limits, start, calls, k) == v
  {
    hide WindowAfter;
    if j: nat :| j <= |calls| && high - MINUTE < WindowAfter(limits, start, calls, j) <= high {
      v := WindowAfter(limits, start, calls, j);
      forall k | 0 <= k <= |calls| && high - MINUTE < WindowAfter(limits, start, calls, k) <= high
        ensures WindowAfter(limits, start, calls, k) == v
      {
        WindowsApart(limits, start, calls, if j <= k then j else k, if j <= k then k else j);
      }
    } else {
      v := high;
    }
  }

  ghost predicate Covered(limits: map<string, Quota>, start: int, calls: seq<Call>, tenant: string, low: int, v: int,
                          w: int)
  {
    AtMost(SpentBetween(limits, start, calls, tenant, low, low + MINUTE),
           Plus(Spent(limits, start, calls, tenant, v), Spent(limits, start, calls, tenant, w)))
  }

  /** How the three quantities move with the last call. */
  lemma SpentStep(limits: map<string, Quota>, start: int, calls: seq<Call>, tenant: string, low: int, x: int)
    requires calls != []
    ensures var n := |calls| - 1;
            var c, charged := calls[n], LastCharged(limits, start, calls, tenant);
            var current := After(limits, start, calls).window;
            var before := After(limits, start, calls[..n]).window;
            && current == (if c.now - before >= MINUTE then c.now else before)
            && Spent(limits, start, calls, tenant, x) ==
                 (if charged && x == current then Charged(Spent(limits, start, calls[..n], tenant, x), c)
                  else Spent(limits, start, calls[..n], tenant, x))
            && SpentBetween(limits, start, calls, tenant, low, low + MINUTE) ==
                 (if charged && low <= c.now < low + MINUTE
                  then Charged(SpentBetween(limits, start, calls[..n], tenant, low, low + MINUTE), c)
                  else SpentBetween(limits, start, calls[..n], tenant, low, low + MINUTE))
  {
    hide Verdict, Charged;
  }

  lemma {:induction false} CoveredPrefix(limits: map<string, Quota>, start: int, calls: seq<Call>, tenant: string,
                                         low: int, v: int, w: int, n: nat)
    requires SkewAtMost(start, calls, 1) && NonNegative(calls) && n <= |calls|
    requires v != w && OnlyWindows(limits, start, calls, low, v, w)
    ensures Covered(limits, start, calls[..n], tenant, low, v, w)
  {
    hide After, Spent, SpentBetween, LastCharged, OnlyWindows;
    if n == 0 {
      NothingCovered(limits, start, tenant, low, v, w);
    } else {
      var prefix, c := calls[..n], calls[n - 1];
      assert prefix[..n - 1] == calls[..n - 1];
      CoveredPrefix(limits, start, calls, tenant, low, v, w, n - 1);
      SpentStep(limits, start, prefix, tenant, low, v);
      SpentStep(limits, start, prefix, tenant, low, w);
      WindowNotAhead(limits, start, calls, n, c.now + 1);
      ChargedIn(limits, start, calls, low, v, w, n);
    }
  }

  lemma ChargedIn(limits: map<string, Quota>, start: int, calls: seq<Call>, low: int, v: int, w: int, n: nat)
    requires 0 < n <= |calls| && OnlyWindows(limits, start, calls, low, v, w)
    requires WindowAfter(limits, start, calls, n) <= calls[n - 1].now + 1
    ensures low <= calls[n - 1].now < low + MINUTE ==>
              After(limits, start, calls[..n]).window == v || After(limits, start, calls[..n]).window == w
  {
    hide After;
    WindowStep(limits, start, calls, n - 1);
  }

  lemma NothingCovered(limits: map<string, Quota>, start: int, tenant: string, low: int, v: int, w: int)
    ensures Covered(limits, start, [], tenant, low, v, w)
  {
  }

  /** Charges made in one minute come from at most two accounting windows. */
  lemma TwoWindowsCover(limits: map<string, Quota>, start: int, calls: seq<Call>, tenant: string, low: int)
    returns (v: int, w: int)
    requires SkewAtMost(start, calls, 1) && NonNegative(calls)
    ensures v != w && Covered(limits, start, calls, tenant, low, v, w)
  {
    hide WindowAfter, Covered, SkewAtMost, NonNegative;
    v := WindowIn(limits, start, calls, low);
    w := WindowIn(limits, start, calls, low + MINUTE);
    CoveredPrefix(limits, start, calls, tenant, low, v, w, |calls|);
    assert calls[..|calls|] == calls;
  }

  /** So every half-open minute admits at most twice each enabled quota, even with readings that step back by a
      nanosecond. */
  lemma AnyMinuteWithinTwice(limits: map<string, Quota>, start: int, calls: seq<Call>, tenant: string, low: int)
    requires SkewAtMost(start, calls, 1) && NonNegative(calls) && tenant in limits
    ensures Within(SpentBetween(limits, start, calls, tenant, low, low + MINUTE), limits[tenant], 2)
  {
    hide Spent, SpentBetween, After, SkewAtMost, NonNegative;
    var v, w := TwoWindowsCover(limits, start, calls, tenant, low);
    WindowWithinQuota(limits, start, calls, tenant, v);
    WindowWithinQuota(limits, start, calls, tenant, w);
  }

  // ----- The factor two is reached

  /** One more admitted call, and what it adds to the minute that starts at `low`. */
  lemma {:induction false} OneMoreCharge(limits: map<string, Quota>, calls: seq<Call>, c: Call, low: int)
    requires c.tenant in limits
    requires Verdict(limits[c.tenant], UsageOf(Restarted(After(limits, 0, calls), c.now).usage, c.tenant), c)
              == Admitted
    ensures var s, more := Restarted(After(limits, 0, calls), c.now), calls + [c];
            && After(limits, 0, more) == s.(usage := s.usage[c.tenant := Charged(UsageOf(s.usage, c.tenant), c)])
            && SpentBetween(limits, 0, more, c.tenant, low, low + MINUTE) ==
                 (var earlier := SpentBetween(limits, 0, calls, c.tenant, low, low + MINUTE);
                  if low <= c.now < low + MINUTE then Charged(earlier, c) else earlier)
  {
    hide Verdict, Charged, Restarted;
    assert (calls + [c])[..|calls|] == calls;
  }

  /** `early` calls of one kind just before the restart, then `late` calls of the same kind just after it. */
  function Straddle(tenant: string, tokens: int, cost: real, early: nat, late: nat): seq<Call> {
    seq(early, i => Call(tenant, tokens, cost, MINUTE - 1)) + seq(late, i => Call(tenant, tokens, cost, MINUTE))
  }

  lemma StraddleClock(tenant: string, tokens: int, cost: real, early: nat, late: nat)
    requires tokens >= 0 && cost >= 0.0
    ensures SkewAtMost(0, Straddle(tenant, tokens, cost, early, late), 0)
    ensures NonNegative(Straddle(tenant, tokens, cost, early, late))
    ensures forall c | c in Straddle(tenant, tokens, cost, early, late) :: MINUTE - 1 <= c.now <= MINUTE
  {
  }

  ghost predicate StraddleState(limits: map<string, Quota>, tenant: string, early: nat, late: nat) {
    var calls := Straddle(tenant, 0, 0.0, early, late);
    && After(limits, 0, calls).window == (if late == 0 then 0 else MINUTE)
    && UsageOf(After(limits, 0, calls).usage, tenant) == Usage(if late == 0 then early else late, 0, 0.0)
    && SpentBetween(limits, 0, calls, tenant, MINUTE - 1, MINUTE - 1 + MINUTE).requests == early + late
  }

  lemma {:induction false} StraddleRequests(limits: map<string, Quota>, tenant: string, early: nat, late: nat)
    requires tenant in limits && early <= limits[tenant].requests && late <= limits[tenant].requests
    ensures StraddleState(limits, tenant, early, late)
    decreases early + late
  {
    hide After, SpentBetween;
    if early == 0 && late == 0 {
      NothingCharged(limits, tenant);
    } else {
      var fewer := if late > 0 then late - 1 else 0;
      var before := Straddle(tenant, 0, 0.0, if late > 0 then early else early - 1, fewer);
      var c := Call(tenant, 0, 0.0, if late > 0 then MINUTE else MINUTE - 1);
      assert before + [c] == Straddle(tenant, 0, 0.0, early, late);
      StraddleRequests(limits, tenant, if late > 0 then early else early - 1, fewer);
      OneMoreCharge(limits, before, c, MINUTE - 1);
    }
  }

  lemma NothingCharged(limits: map<string, Quota>, tenant: string)
    ensures StraddleState(limits, tenant, 0, 0)
  {
  }

  /** For every quota that is enabled there is a history with an ordered clock, and in it a minute that admits
      exactly twice of it: as many requests as it allows, or one request for all it allows, just before a restart and
      again just after it. */
  lemma {:induction false} TwiceIsReached(tenant: string, q: Quota)
    ensures q.requests > 0 ==>
              var limits, calls := map[tenant := q], Straddle(tenant, 0, 0.0, q.requests, q.requests);
              && SkewAtMost(0, calls, 0) && NonNegative(calls)
              && SpentBetween(limits, 0, calls, tenant, MINUTE - 1, MINUTE - 1 + MINUTE).requests == 2 * q.requests
    ensures q.tokens > 0 ==>
              var limits, calls := map[tenant := q], Straddle(tenant, q.tokens, 0.0, 1, 1);
              && SkewAtMost(0, calls, 0) && NonNegative(calls)
              && SpentBetween(limits, 0, calls, tenant, MINUTE - 1, MINUTE - 1 + MINUTE).tokens == 2 * q.tokens
    ensures q.cost > 0.0 ==>
              var limits, calls := map[tenant := q], Straddle(tenant, 0, q.cost, 1, 1);
              && SkewAtMost(0, calls, 0) && NonNegative(calls)
              && SpentBetween(limits, 0, calls, tenant, MINUTE - 1, MINUTE - 1 + MINUTE).cost == 2.0 * q.cost
  {
    hide After, SpentBetween, Straddle, SkewAtMost, NonNegative;
    var limits := map[tenant := q];
    if q.requests > 0 {
      StraddleClock(tenant, 0, 0.0, q.requests, q.requests);
      StraddleRequests(limits, tenant, q.requests, q.requests);
    }
    if q.tokens > 0 {
      StraddleClock(tenant, q.tokens, 0.0, 1, 1);
      TwoCharges(limits, tenant, q.tokens, 0.0);
    }
    if q.cost > 0.0 {
      StraddleClock(tenant, 0, q.cost, 1, 1);
      TwoCharges(limits, tenant, 0, q.cost);
    }
  }

  /** One call each side of the restart, each within the quota by itself. */
  lemma {:induction false} TwoCharges(limits: map<string, Quota>, tenant: string, tokens: int, cost: real)
    requires tenant in limits && Verdict(limits[tenant], Usage(0, 0, 0.0), Call(tenant, tokens, cost, 0)) == Admitted
    ensures SpentBetween(limits, 0, Straddle(tenant, tokens, cost, 1, 1), tenant, MINUTE - 1, MINUTE - 1 + MINUTE)
              == Usage(2, tokens + tokens, cost + cost)
  {
    hide After, SpentBetween;
    var a, b := Call(tenant, tokens, cost, MINUTE - 1), Call(tenant, tokens, cost, MINUTE);
    NothingSpent(limits, tenant);
    OneMoreCharge(limits, [], a, MINUTE - 1);
    assert [] + [a] == [a] && [a] + [b] == Straddle(tenant, tokens, cost, 1, 1);
    OneMoreCharge(limits, [a], b, MINUTE - 1);
  }

  lemma NothingSpent(limits: map<string, Quota>, tenant: string)
    ensures After(limits, 0, []) == State(map[], 0)
    ensures SpentBetween(limits, 0, [], tenant, MINUTE - 1, MINUTE - 1 + MINUTE) == Usage(0, 0, 0.0)
  {
  }
}
