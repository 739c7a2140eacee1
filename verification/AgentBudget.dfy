/** The token budget of the first transcript is a matter of the run's own listing, so it holds in every
    interleaving just as it does for a run by itself. */
module AgentBudget {
  import opened Messages
  import opened Results
  import opened Compaction
  import opened AgentHistory
  import opened AgentRun
  import opened AgentProtocol

  ghost predicate Within(config: Config, history: seq<Message>, input: string) {
    config.tokenBudget > 0 ==> Tokens(history + [UserMessage(input)]) <= config.tokenBudget
  }

  ghost predicate BudgetKept(run: AgentProtocol.Run, listed: seq<Message>) {
    match run.phase
    case Listed(history) => history == listed
    case ReplacingTokens(history) => FitsBeforeLimit(run, history, listed)
    case Budgeted(history) => FitsBeforeLimit(run, history, listed)
    case ReplacingLimit(history) => FitsAfterLimit(run, history, listed)
    case Calling(history, _) => FitsAfterLimit(run, history, listed)
    case _ => true
  }

  ghost predicate FitsBeforeLimit(run: AgentProtocol.Run, history: seq<Message>, listed: seq<Message>) {
    && Within(run.config, history, run.input)
    && (LateSummary(run.config, history, run.input) ==> LateSummary(run.config, listed, run.input))
  }

  ghost predicate FitsAfterLimit(run: AgentProtocol.Run, history: seq<Message>, listed: seq<Message>) {
    LateSummary(run.config, listed, run.input) || Within(run.config, history, run.input)
  }

  ghost predicate AllKept(s: World) {
    forall r | 0 <= r < |s.runs| :: BudgetKept(s.runs[r], ListingOf(s, r).history)
  }

  lemma BudgetStage(run: AgentProtocol.Run, listed: seq<Message>, summarize: Option<SummaryFunc>)
    requires run.phase == Listed(listed)
    ensures BudgetKept(run.(phase := AfterBudget(run, listed, summarize)), listed)
  {
    hide Tokens, TokenCompacted, IsSummary, UserMessage;
    var stage := TokenStage(run.config, listed, run.input, summarize);
    if !stage.Abort? && run.config.tokenBudget > 0 {
      TokenStageFits(run.config, listed, run.input, summarize);
    }
    if stage.Rewrite? {
      TokenStageSummarises(run.config, listed, run.input, summarize);
    }
  }

  lemma LimitStageKept(run: AgentProtocol.Run, history: seq<Message>, listed: seq<Message>,
                       summarize: Option<SummaryFunc>)
    requires run.phase == Budgeted(history) && BudgetKept(run, listed)
    ensures BudgetKept(run.(phase := AfterLimit(run, history, summarize)), listed)
  {
    hide Tokens, LimitStage, LateSummary, UserMessage;
    if !LimitStage(run.config, history, summarize).Abort? && run.config.tokenBudget > 0
        && !LateSummary(run.config, history, run.input)
    {
      LimitStageFits(run.config, history, run.input, summarize);
    }
  }

  lemma ReplyKept(run: AgentProtocol.Run, listed: seq<Message>, reply: Reply, outputs: seq<string>,
                  validJson: string -> bool)
    requires run.phase.Calling? && BudgetKept(run, listed)
    ensures BudgetKept(run.(phase := AfterReply(run, run.phase.history, run.phase.rounds, reply, outputs, validJson)),
              listed)
  {
    hide LateSummary, Within, CallsAccepted;
  }

  lemma KeptByOwnStep(s: World, step: Step)
    requires Enabled(s, step) && !step.Start? && BudgetKept(s.runs[step.r], ListingOf(s, step.r).history)
    ensures BudgetKept(Apply(s, step).runs[step.r], ListingOf(Apply(s, step), step.r).history)
  {
    hide LateSummary, Within, AfterBudget, AfterLimit, AfterReply, TurnMessages, ValidRounds;
    var run, listed := s.runs[step.r], ListingOf(s, step.r).history;
    match step
    case ApplyBudget(_, summarize) => BudgetStage(run, listed, summarize);
    case ApplyLimit(_, summarize) => LimitStageKept(run, run.phase.history, listed, summarize);
    case CallModel(_, reply, outputs, validJson) => ReplyKept(run, listed, reply, outputs, validJson);
    case _ =>
  }

  lemma OtherRuns(s: World, step: Step, q: nat)
    requires Enabled(s, step) && q < |Apply(s, step).runs| && (step.Start? || step.r != q)
    ensures var s' := Apply(s, step);
            if q < |s.runs| then s'.runs[q] == s.runs[q] && ListingOf(s', q) == ListingOf(s, q)
            else s'.runs[q].phase.Started?
  {
    hide AfterBudget, AfterLimit, AfterReply, TurnMessages, ValidRounds;
  }

  lemma KeptByStep(s: World, step: Step)
    requires AllKept(s) && Enabled(s, step)
    ensures AllKept(Apply(s, step))
  {
    hide BudgetKept, Apply, ListingOf;
    var s' := Apply(s, step);
    forall q | 0 <= q < |s'.runs|
      ensures BudgetKept(s'.runs[q], ListingOf(s', q).history)
    {
      if !step.Start? && step.r == q {
        KeptByOwnStep(s, step);
      } else {
        OtherRuns(s, step, q);
        NewRunKept(s'.runs[q], ListingOf(s', q).history);
      }
    }
  }

  lemma NewRunKept(run: AgentProtocol.Run, listed: seq<Message>)
    ensures run.phase.Started? ==> BudgetKept(run, listed)
  {
  }

  lemma {:induction false} KeptAlways(states: seq<World>, steps: seq<Step>, n: nat)
    requires Behaviour(states, steps) && n < |states|
    ensures AllKept(states[n])
  {
    hide Apply, Enabled, BudgetKept, ListingOf;
    if n > 0 {
      KeptAlways(states, steps, n - 1);
      KeptByStep(states[n - 1], steps[n - 1]);
    }
  }

  /** Whatever other runs do, the first transcript of a run fits its token budget unless the limit stage has
      summarized, for want of an earlier summary, a listing that the token stage let through. */
  lemma FirstTranscriptFitsBudget(s: World, r: nat)
    requires Reachable(s) && r < |s.runs| && s.runs[r].phase.Calling? && s.runs[r].config.tokenBudget > 0
    requires !LateSummary(s.runs[r].config, ListingOf(s, r).history, s.runs[r].input)
    ensures Tokens(s.runs[r].phase.history + OpenTurn(s.runs[r].input, [])) <= s.runs[r].config.tokenBudget
  {
    hide Apply, Enabled, Tokens, LateSummary;
    var states, steps :| Behaviour(states, steps) && states[|steps|] == s;
    KeptAlways(states, steps, |steps|);
    assert BudgetKept(s.runs[r], ListingOf(s, r).history);
    OpenTurnStart(s.runs[r].input);
  }
}
