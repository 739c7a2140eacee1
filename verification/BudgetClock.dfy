/** What becomes of the budget when its clock steps back: it reads wall time (internal/reliability/reliability.go:56),
    which can do so even under the lock. */
module BudgetClock {
  import opened Budget

  const LOW := MINUTE - 1

  /** In the minute from `low` on, the tenant is charged at most twice each of its enabled quotas. */
  ghost predicate TwiceAtMost(tenant: string, q: Quota, start: int, calls: seq<Call>, low: int) {
    Within(SpentBetween(map[tenant := q], start, calls, tenant, low, low + MINUTE), q, 2)
  }

  /** A call of some other tenant that restarts the window two minutes after the start, and one whose reading is two
      nanoseconds older. */
  function LateCall(calls: seq<Call>, c: Call): seq<Call> {
    calls + [Call(c.tenant + "'", 0, 0.0, 2 * MINUTE)] + [c]
  }

  /** The late call still falls into the minute, but is charged to the third accounting window. */
  lemma ThirdWindow(q: Quota, calls: seq<Call>, c: Call)
    requires c.now == 2 * MINUTE - 2 && Verdict(q, Usage(0, 0, 0.0), c) == Admitted
    requires forall e | e in calls :: e.now <= MINUTE
    ensures var limits := map[c.tenant := q];
            SpentBetween(limits, 0, LateCall(calls, c), c.tenant, LOW, LOW + MINUTE)
              == Charged(SpentBetween(limits, 0, calls, c.tenant, LOW, LOW + MINUTE), c)
  {
    hide SpentBetween, Verdict, Charged;
    var limits, other := map[c.tenant := q], Call(c.tenant + "'", 0, 0.0, 2 * MINUTE);
    assert calls[..|calls|] == calls;
    WindowNotAhead(limits, 0, calls, |calls|, MINUTE);
    OtherTenant(limits, calls, other, c.tenant);
    OneMoreCharge(limits, calls + [other], c, LOW);
  }

  lemma OtherTenant(limits: map<string, Quota>, calls: seq<Call>, other: Call, tenant: string)
    requires other.tenant != tenant && other.tenant !in limits
    requires other.now - After(limits, 0, calls).window >= MINUTE
    ensures After(limits, 0, calls + [other]) == State(map[], other.now)
    ensures SpentBetween(limits, 0, calls + [other], tenant, LOW, LOW + MINUTE)
              == SpentBetween(limits, 0, calls, tenant, LOW, LOW + MINUTE)
  {
    hide Verdict;
    assert (calls + [other])[..|calls|] == calls;
  }

  lemma LateClock(calls: seq<Call>, c: Call)
    requires SkewAtMost(0, calls, 0) && NonNegative(calls) && forall e | e in calls :: e.now <= MINUTE
    requires c.now == 2 * MINUTE - 2 && c.tokens >= 0 && c.cost >= 0.0
    ensures SkewAtMost(0, LateCall(calls, c), 2) && NonNegative(LateCall(calls, c))
  {
  }

  /** A history whose readings step back by two nanoseconds once, and in which a minute admits more than twice
      an enabled quota. */
  lemma TwoNanosecondsBreak(tenant: string, q: Quota) returns (calls: seq<Call>)
    requires q.requests > 0 || q.tokens > 0 || q.cost > 0.0
    ensures SkewAtMost(0, calls, 2) && NonNegative(calls)
    ensures !TwiceAtMost(tenant, q, 0, calls, LOW)
  {
    hide SpentBetween, Straddle, SkewAtMost, NonNegative, LateCall;
    var count := if q.requests > 0 then q.requests else 1;
    var tokens := if q.requests <= 0 && q.tokens > 0 then q.tokens else 0;
    var cost := if q.requests <= 0 && q.tokens <= 0 then q.cost else 0.0;
    var before, c := Straddle(tenant, tokens, cost, count, count), Call(tenant, tokens, cost, 2 * MINUTE - 2);
    TwiceIsReached(tenant, q);
    StraddleClock(tenant, tokens, cost, count, count);
    ThirdWindow(q, before, c);
    LateClock(before, c);
    calls := LateCall(before, c);
  }

  lemma MoreSkew(start: int, calls: seq<Call>, few: nat, many: nat)
    requires SkewAtMost(start, calls, few) && few <= many
    ensures SkewAtMost(start, calls, many)
  {
  }

  /** Histories whose readings step back by at most `skew` all keep twice the quota in every minute if and only if
      they step back by a nanosecond at most. */
  lemma TwiceSurvivesSkewIff(tenant: string, q: Quota, skew: nat)
    requires q.requests > 0 || q.tokens > 0 || q.cost > 0.0
    ensures skew <= 1 <==>
              forall start, calls, low | SkewAtMost(start, calls, skew) && NonNegative(calls) ::
                  TwiceAtMost(tenant, q, start, calls, low)
  {
    hide SpentBetween, SkewAtMost, NonNegative, Within;
    if skew <= 1 {
      forall start, calls, low | SkewAtMost(start, calls, skew) && NonNegative(calls)
        ensures TwiceAtMost(tenant, q, start, calls, low)
      {
        MoreSkew(start, calls, skew, 1);
        AnyMinuteWithinTwice(map[tenant := q], start, calls, tenant, low);
      }
    } else {
      var calls := TwoNanosecondsBreak(tenant, q);
      MoreSkew(0, calls, 2, skew);
      assert !TwiceAtMost(tenant, q, 0, calls, LOW);
    }
  }
}
