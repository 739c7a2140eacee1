/** What the budget decides about a call, in terms of the log of charges since the last restart. */
module BudgetDecisions {
  import opened Collections
  import opened Budget

  /** The calls charged to the tenant in the accounting window that started at w, oldest first. */
  ghost function ChargedCalls(limits: map<string, Quota>, start: int, calls: seq<Call>, tenant: string, w: int)
    : seq<Call>
  {
    if calls == [] then []
    else
      var n := |calls| - 1;
      var earlier := ChargedCalls(limits, start, calls[..n], tenant, w);
      if LastCharged(limits, start, calls, tenant) && After(limits, start, calls).window == w
      then earlier + [calls[n]] else earlier
  }

  ghost function TokensOf(log: seq<Call>): (tokens: seq<int>)
    ensures |tokens| == |log| && forall i | 0 <= i < |log| :: tokens[i] == log[i].tokens
  {
    seq(|log|, i requires 0 <= i < |log| => log[i].tokens)
  }

  ghost function CostOf(log: seq<Call>): real {
    if log == [] then 0.0 else CostOf(log[..|log| - 1]) + log[|log| - 1].cost
  }

  /** What is spent in a window is the number, the tokens and the cost of the calls charged to it. */
  lemma {:induction false} SpentIsLogged(limits: map<string, Quota>, start: int, calls: seq<Call>, tenant: string,
                                         w: int)
    ensures var log := ChargedCalls(limits, start, calls, tenant, w);
            Spent(limits, start, calls, tenant, w) == Usage(|log|, Sum(TokensOf(log)), CostOf(log))
  {
    hide LastCharged, After, Sum, TokensOf, CostOf;
    if calls == [] {
      NothingLogged();
    } else {
      var n := |calls| - 1;
      SpentIsLogged(limits, start, calls[..n], tenant, w);
      LogMore(ChargedCalls(limits, start, calls[..n], tenant, w), calls[n]);
    }
  }

  lemma NothingLogged()
    ensures Sum(TokensOf([])) == 0 && CostOf([]) == 0.0
  {
  }

  lemma LogMore(log: seq<Call>, c: Call)
    ensures Sum(TokensOf(log + [c])) == Sum(TokensOf(log)) + c.tokens
    ensures CostOf(log + [c]) == CostOf(log) + c.cost
  {
    hide Sum;
    assert (log + [c])[..|log|] == log;
    assert TokensOf(log + [c]) == TokensOf(log) + [c.tokens];
    SumConcat(TokensOf(log), [c.tokens]);
    SumSmall(c.tokens);
  }

  /** The start of the accounting window a call falls into: a new one once the old one is a minute old. */
  ghost function WindowOf(limits: map<string, Quota>, start: int, calls: seq<Call>, now: int): int {
    var window := After(limits, start, calls).window;
    if now - window >= 60_000_000_000 then now else window
  }

  lemma UsageInWindow(limits: map<string, Quota>, start: int, calls: seq<Call>, tenant: string, now: int)
    ensures UsageOf(Restarted(After(limits, start, calls), now).usage, tenant)
              == Spent(limits, start, calls, tenant, WindowOf(limits, start, calls, now))
  {
    hide After, Spent;
    UsageIsSpent(limits, start, calls, tenant);
    var s := After(limits, start, calls);
    if now - s.window >= MINUTE {
      FutureUnspent(limits, start, calls, tenant, now);
    }
  }

  /** A tenant without a quota is always let through. One with a quota is refused exactly if the calls charged in the
      current window leave no room for this one under an enabled quota: requests are looked at first, then tokens,
      then cost. */
  lemma DecidedByLog(limits: map<string, Quota>, start: int, calls: seq<Call>, c: Call)
    ensures var outcome := Decide(limits, After(limits, start, calls), c).1;
            var log := ChargedCalls(limits, start, calls, c.tenant, WindowOf(limits, start, calls, c.now));
            if c.tenant !in limits then outcome == Unlimited
            else
              var q := limits[c.tenant];
              var noRequest := q.requests > 0 && |log| + 1 > q.requests;
              var noToken := q.tokens > 0 && Sum(TokensOf(log)) + c.tokens > q.tokens;
              var noCost := q.cost > 0.0 && CostOf(log) + c.cost > q.cost;
              && (outcome == Admitted <==> !noRequest && !noToken && !noCost)
              && (outcome == RequestsExceeded <==> noRequest)
              && (outcome == TokensExceeded <==> noToken && !noRequest)
              && (outcome == CostExceeded <==> noCost && !noToken && !noRequest)
  {
    hide After, Spent, Sum, CostOf, ChargedCalls, WindowOf;
    UsageInWindow(limits, start, calls, c.tenant, c.now);
    SpentIsLogged(limits, start, calls, c.tenant, WindowOf(limits, start, calls, c.now));
  }
}
