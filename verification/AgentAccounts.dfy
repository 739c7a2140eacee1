/** How the steps of a behaviour move the log of a session, its account, and the accounts of the runs' own histories. */
module AgentAccounts {
  import opened Messages
  import opened Results
  import opened Compaction
  import opened AgentHistory
  import opened MemoryStore
  import opened AgentRun
  import opened AgentProtocol
  import opened AgentInvariant

  // ----- What one step does to the history of a session

  ghost predicate Appends(s: World, step: Step, id: string) {
    step.Append? && step.r < |s.runs| && s.runs[step.r].id == id
  }

  ghost predicate Replaces(s: World, step: Step, id: string) {
    (step.ReplaceTokens? || step.ReplaceLimit?) && step.r < |s.runs| && s.runs[step.r].id == id
  }

  /** Run r is about to compact a history that starts with a summary already and exceeds the token budget, or the
      message limit. No summarizer will see what it drops. */
  ghost predicate Trims(s: World, step: Step, r: nat) {
    match step
    case ApplyBudget(q, _) =>
      && q == r < |s.runs| && s.runs[r].phase.Listed?
      && Summarised(s.runs[r].phase.history)
      && OverBudget(s.runs[r].config, s.runs[r].phase.history, s.runs[r].input)
    case ApplyLimit(q, _) =>
      && q == r < |s.runs| && s.runs[r].phase.Budgeted?
      && Summarised(s.runs[r].phase.history)
      && OverLimit(s.runs[r].config, s.runs[r].phase.history)
    case _ => false
  }

  lemma StepHistory(s: World, step: Step, id: string)
    requires Invariant(s) && Enabled(s, step)
    ensures var s', account := Apply(s, step), AccountOf(s.accounts, id);
            if Appends(s, step, id) then
              && LogOf(s'.log, id) == LogOf(s.log, id) + [s.runs[step.r].phase.turn]
              && AccountOf(s'.accounts, id) == Extended(account, s.runs[step.r].phase.turn)
            else
              && LogOf(s'.log, id) == LogOf(s.log, id)
              && AccountOf(s'.accounts, id) ==
                   if Replaces(s, step, id) then ListingOf(s, step.r).account else account
  {
    hide TurnMessages, ValidRounds, MadeOf, AfterBudget, AfterLimit, AfterReply, Invariant, Moved, TokenStage,
      LimitStage;
    if Appends(s, step, id) {
      RunHolds(s, step.r);
    }
  }

  /** Runs keep their session, list once, and stay ended. */
  lemma StepRun(s: World, step: Step, r: nat)
    requires Enabled(s, step) && r < |s.runs|
    ensures var s' := Apply(s, step);
            && r < |s'.runs| && s'.runs[r].id == s.runs[r].id
            && (s'.runs[r].phase.Started? <==> s.runs[r].phase.Started? && step != List(r))
            && (s.runs[r].phase.Ended? ==> s'.runs[r].phase.Ended?)
            && (step == List(r) ==> ListingOf(s', r).account == AccountOf(s.accounts, s.runs[r].id))
  {
    hide TurnMessages, ValidRounds, TokenStage, LimitStage, CallsAccepted, Moved;
  }

  /** After its listing a run keeps the turns of its account. It has lost messages from the moment it trims, and
      not before. */
  lemma StepAccount(s: World, step: Step, r: nat)
    requires Invariant(s) && Enabled(s, step) && r < |s.runs| && step != List(r)
    ensures var s', a := Apply(s, step), ListingOf(s, r).account;
            && ListingOf(s', r).account.turns == a.turns
            && (Lossless(a) && !Trims(s, step, r) ==> Lossless(ListingOf(s', r).account))
            && (!Lossless(a) || Trims(s, step, r) ==>
                  !Lossless(ListingOf(s', r).account) || Apply(s, step).runs[r].phase.Ended?)
  {
    hide Invariant, TurnMessages, ValidRounds, AfterReply, Stands, TokenStage, LimitStage, Moved, Lossless, OverBudget,
      OverLimit, Summarised, SessionOf, AccountOf, LogOf;
    RunHolds(s, r);
    var run, a := s.runs[r], ListingOf(s, r).account;
    match step
    case ApplyBudget(q, summarize) =>
      if q == r {
        BudgetAccount(run.config, run.phase.history, a, run.input, summarize);
      }
    case ApplyLimit(q, summarize) =>
      if q == r {
        LimitAccount(run.config, run.phase.history, a, summarize);
      }
    case _ =>
  }

  lemma StandsSummarised(history: seq<Message>, a: Account)
    requires Stands(history, a)
    ensures a.covered <= a.dropped && (!Lossless(a) ==> Summarised(history))
  {
  }

  lemma BudgetAccount(config: Config, history: seq<Message>, a: Account, input: string, summarize: Option<SummaryFunc>)
    requires Stands(history, a)
    ensures var stage := TokenStage(config, history, input, summarize);
            var a' := Moved(a, history, stage, summarize);
            var trims := Summarised(history) && OverBudget(config, history, input);
            && a'.turns == a.turns
            && (Lossless(a) && !trims ==> Lossless(a'))
            && (!Lossless(a) || trims ==> !Lossless(a') || stage.Abort?)
  {
    hide Stands, Tokens, IsSummary, CompactedToBudget;
    StandsSummarised(history, a);
    if !TokenStage(config, history, input, summarize).Abort? {
      TokenStageMoves(config, history, a, input, summarize);
    }
  }

  lemma LimitAccount(config: Config, history: seq<Message>, a: Account, summarize: Option<SummaryFunc>)
    requires Stands(history, a)
    ensures var stage := LimitStage(config, history, summarize);
            var a' := Moved(a, history, stage, summarize);
            var trims := Summarised(history) && OverLimit(config, history);
            && a'.turns == a.turns
            && (Lossless(a) && !trims ==> Lossless(a'))
            && (!Lossless(a) || trims ==> !Lossless(a') || stage.Abort?)
  {
    hide Stands, IsSummary;
    StandsSummarised(history, a);
    if !LimitStage(config, history, summarize).Abort? {
      LimitStageMoves(config, history, a, summarize);
    }
  }

  lemma NewRun(s: World, step: Step)
    requires Enabled(s, step)
    ensures |s.runs| <= |Apply(s, step).runs| <= |s.runs| + 1
    ensures |Apply(s, step).runs| > |s.runs| ==> Apply(s, step).runs[|s.runs|].phase.Started?
  {
    hide TurnMessages, ValidRounds, AfterBudget, AfterLimit, AfterReply, Moved, TokenStage, LimitStage;
  }

  // ----- What behaviours do to it

  lemma {:induction false} LogGrows(states: seq<World>, steps: seq<Step>, i: nat, n: nat, id: string)
    requires Behaviour(states, steps) && i <= n < |states|
    ensures |LogOf(states[i].log, id)| <= |LogOf(states[n].log, id)|
    ensures (forall k | i <= k < n :: !Appends(states[k], steps[k], id)) ==>
              LogOf(states[n].log, id) == LogOf(states[i].log, id)
    decreases n - i
  {
    hide Enabled, Apply, Invariant, Appends;
    if i < n {
      LogGrows(states, steps, i, n - 1, id);
      InvariantAlways(states, steps, n - 1);
      StepHistory(states[n - 1], steps[n - 1], id);
    }
  }

  /** A run keeps the turns it listed, and all their messages as long as it does not trim. */
  lemma {:induction false} ListingStays(states: seq<World>, steps: seq<Step>, i: nat, n: nat, r: nat)
    requires Behaviour(states, steps) && i < n < |states| && steps[i] == List(r)
    ensures r < |states[i].runs| && r < |states[n].runs| && states[n].runs[r].id == states[i].runs[r].id
    ensures !states[n].runs[r].phase.Started?
    ensures var listed := AccountOf(states[i].accounts, states[i].runs[r].id);
            && ListingOf(states[n], r).account.turns == listed.turns
            && (Lossless(listed) && (forall k | i < k < n :: !Trims(states[k], steps[k], r)) ==>
                  Lossless(ListingOf(states[n], r).account))
  {
    hide Apply, ListingOf, AccountOf, Invariant, Trims, Lossless;
    var m := n - 1;
    assert Enabled(states[m], steps[m]);
    if i < m {
      ListingStays(states, steps, i, m, r);
      InvariantAlways(states, steps, m);
      StepAccount(states[m], steps[m], r);
    }
    StepRun(states[m], steps[m], r);
  }

  /** What a run has trimmed stays missing from its history. */
  lemma {:induction false} TrimStays(states: seq<World>, steps: seq<Step>, k: nat, n: nat, r: nat)
    requires Behaviour(states, steps) && k < n < |states| && Trims(states[k], steps[k], r)
    ensures r < |states[n].runs| && !states[n].runs[r].phase.Started?
    ensures !Lossless(ListingOf(states[n], r).account) || states[n].runs[r].phase.Ended?
  {
    hide Apply, ListingOf, AccountOf, Invariant, Lossless;
    var m := n - 1;
    assert Enabled(states[m], steps[m]);
    if k < m {
      TrimStays(states, steps, k, m, r);
    }
    InvariantAlways(states, steps, m);
    StepAccount(states[m], steps[m], r);
    StepRun(states[m], steps[m], r);
  }

  /** A run past its start has listed its session. */
  lemma {:induction false} ListedAt(states: seq<World>, steps: seq<Step>, n: nat, r: nat) returns (i: nat)
    requires Behaviour(states, steps) && n < |states| && r < |states[n].runs| && !states[n].runs[r].phase.Started?
    ensures i < n && steps[i] == List(r) && r < |states[i].runs| && states[n].runs[r].id == states[i].runs[r].id
  {
    hide Apply, ListingOf, LogOf;
    assert n > 0;
    var m := n - 1;
    assert Enabled(states[m], steps[m]);
    NewRun(states[m], steps[m]);
    StepRun(states[m], steps[m], r);
    if steps[m] == List(r) {
      i := m;
    } else {
      i := ListedAt(states, steps, m, r);
    }
  }

  lemma {:induction false} EndedStays(states: seq<World>, steps: seq<Step>, i: nat, n: nat, r: nat)
    requires Behaviour(states, steps) && i <= n < |states| && r < |states[i].runs| && states[i].runs[r].phase.Ended?
    ensures r < |states[n].runs| && states[n].runs[r].phase.Ended?
  {
    hide Apply, ListingOf, LogOf;
    if i < n {
      EndedStays(states, steps, i, n - 1, r);
      assert Enabled(states[n - 1], steps[n - 1]);
      StepRun(states[n - 1], steps[n - 1], r);
    }
  }
}
