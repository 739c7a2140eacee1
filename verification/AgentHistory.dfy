/** The compaction stages of internal/agent/agent.go: first the token budget, then the message limit. */
module AgentHistory {
  import opened Messages
  import opened Results
  import opened Compaction

  /** Zero means that the stage is switched off, as in the agent's options. */
  datatype Config = Config(tokenBudget: nat, contextLimit: nat, maxToolRounds: nat)

  // ----- Trimming an already summarised history

  /** The history with everything between its head and index k dropped. */
  ghost function Trim(history: seq<Message>, k: nat): seq<Message>
    requires 1 <= k <= |history|
  {
    [history[0]] + history[k..]
  }

  ghost function FirstFit(history: seq<Message>, budget: int, k: nat): (fit: nat)
    requires 1 <= k <= |history|
    ensures k <= fit <= |history|
    ensures fit == |history| || Tokens(Trim(history, fit)) <= budget
    ensures forall j | k <= j < fit :: Tokens(Trim(history, j)) > budget
    decreases |history| - k
  {
    if k == |history| || Tokens(Trim(history, k)) <= budget then k else FirstFit(history, budget, k + 1)
  }

  ghost function TokenCompacted(history: seq<Message>, budget: int, summarize: Option<SummaryFunc>): History {
    if budget <= 0 then Failure(BudgetNotPositive)
    else if Summarised(history) then
      var result := Trim(history, FirstFit(history, budget, 1));
      if Tokens(result) <= budget then Success(result) else Failure(SummaryExceedsBudget)
    else CompactedToBudget(history, budget, summarize)
  }

  method CompactTokenHistory(history: seq<Message>, budget: int, summarize: Option<SummaryFunc>)
    returns (r: History)
    ensures r == TokenCompacted(history, budget, summarize)
  {
    hide Tokens, IsSummary, CompactedToBudget;
    if budget <= 0 {
      return Failure(BudgetNotPositive);
    }
    if |history| > 0 && IsSummary(history[0]) {
      var result := history;
      ghost var k := 1;
      assert history == Trim(history, 1);
      var estimate := EstimateTokens(result);
      while |result| > 0 && estimate > budget
        invariant 1 <= k <= |history|
        invariant result == Trim(history, k)
        invariant estimate == Tokens(result)
        invariant FirstFit(history, budget, k) == FirstFit(history, budget, 1)
        decreases |result|
      {
        if |result| == 1 {
          return Failure(SummaryExceedsBudget);
        }
        result := result[..1] + result[2..];
        k := k + 1;
        assert result == Trim(history, k);
        estimate := EstimateTokens(result);
      }
      return Success(result);
    }
    r := CompactToTokenBudget(history, budget, summarize);
  }

  lemma TrimTokens(history: seq<Message>, j: nat, k: nat)
    requires 1 <= j < k <= |history|
    ensures Tokens(Trim(history, k)) < Tokens(Trim(history, j))
  {
    assert Trim(history, j) == [history[0]] + history[j..k] + history[k..];
    TokensConcat([history[0]] + history[j..k], history[k..]);
    TokensConcat([history[0]], history[j..k]);
    TokensConcat([history[0]], history[k..]);
    TokensPositive(history[j..k]);
  }

  /** On a summarised history the loop keeps the summary and the longest suffix that fits: a trim
      fits exactly from the chosen point on, and there is none exactly when the summary alone is too big. */
  lemma TrimIsLongest(history: seq<Message>, budget: int, summarize: Option<SummaryFunc>)
    requires Summarised(history) && budget > 0
    ensures match TokenCompacted(history, budget, summarize)
            case Success(result) =>
              exists fit | 1 <= fit <= |history| ::
                && result == Trim(history, fit)
                && forall k | 1 <= k <= |history| :: Tokens(Trim(history, k)) <= budget <==> fit <= k
            case Failure(error) =>
              && error == SummaryExceedsBudget
              && forall k | 1 <= k <= |history| :: Tokens(Trim(history, k)) > budget
  {
    var fit := FirstFit(history, budget, 1);
    forall k | 1 <= k <= |history|
      ensures fit < k ==> Tokens(Trim(history, k)) < Tokens(Trim(history, fit))
    {
      if fit < k {
        TrimTokens(history, fit, k);
      }
    }
  }

  /** Trimming does not retreat: a tool result loses its call exactly when the kept part starts on one. */
  lemma TrimBacked(history: seq<Message>, turns: seq<Turn>, k: nat)
    requires FromTurns(history, turns) && Summarised(history) && 1 <= k <= |history|
    ensures FromTurns(Trim(history, k), turns)
    ensures Answered(Trim(history, k))
    ensures Backed(Trim(history, k)) <==> (k < |history| ==> history[k].role != Tool)
  {
    hide FromTurns, Answered, Backed, IsSummary;
    SessionFacts(history, turns);
    SessionCompacted(history, turns, history[0], k);
    SessionFacts(Trim(history, k), turns);
    assert Summarised(Trim(history, k));
  }

  // ----- Message limit

  ghost function LimitCompacted(history: seq<Message>, limit: int, summarize: Option<SummaryFunc>): History {
    if limit <= 0 then Failure(LimitTooSmall)
    else if |history| <= limit then Success(history)
    else if Summarised(history) then Success(Trim(history, |history| - (limit - 1)))
    else Compacted(history, limit, summarize)
  }

  method CompactHistory(history: seq<Message>, limit: int, summarize: Option<SummaryFunc>)
    returns (r: History)
    ensures r == LimitCompacted(history, limit, summarize)
  {
    if limit <= 0 {
      return Failure(LimitTooSmall);
    }
    if |history| <= limit {
      return Success(history);
    }
    if |history| > 0 && IsSummary(history[0]) {
      var keep := limit - 1;
      if keep < 0 {
        keep := 0;
      }
      var start := |history| - keep;
      var result := history[..1];
      result := result + history[start..];
      assert result == Trim(history, start);
      return Success(result);
    }
    r := Compact(history, limit, summarize);
  }

  // ----- The two stages of a run

  /** Keep: the stage leaves the history alone. Rewrite: it replaces the stored session. */
  datatype Stage = Keep | Rewrite(history: seq<Message>) | Abort(error: CompactError)

  ghost function ToStage(h: History): Stage {
    match h
    case Success(history) => Rewrite(history)
    case Failure(error) => Abort(error)
  }

  ghost predicate OverBudget(config: Config, history: seq<Message>, input: string) {
    config.tokenBudget > 0 && Tokens(history + [UserMessage(input)]) > config.tokenBudget
  }

  predicate OverLimit(config: Config, history: seq<Message>) {
    config.contextLimit > 0 && |history| + 1 > config.contextLimit
  }

  ghost function TokenStage(config: Config, history: seq<Message>, input: string,
                            summarize: Option<SummaryFunc>): Stage {
    if OverBudget(config, history, input)
    then ToStage(TokenCompacted(history, config.tokenBudget - Tokens([UserMessage(input)]), summarize))
    else Keep
  }

  ghost function LimitStage(config: Config, history: seq<Message>, summarize: Option<SummaryFunc>): Stage {
    if OverLimit(config, history)
    then ToStage(LimitCompacted(history, config.contextLimit - 1, summarize))
    else Keep
  }

  ghost function After(stage: Stage, history: seq<Message>): seq<Message>
    requires !stage.Abort?
  {
    if stage.Rewrite? then stage.history else history
  }

  /** Both stages in turn; each sees the summarizer it is given. */
  ghost function Prepared(config: Config, history: seq<Message>, input: string,
                          first: Option<SummaryFunc>, second: Option<SummaryFunc>): History {
    match TokenStage(config, history, input, first)
    case Abort(e) => Failure(e)
    case one =>
      match LimitStage(config, After(one, history), second)
      case Abort(e) => Failure(e)
      case two => Success(After(two, After(one, history)))
  }

  // ----- What a history accounts for

  /** What a history stands for: of the messages of `turns` it holds those from `dropped` on, and the summary at its
      head, if it has one, is what `summarizer` answered when it was given those before `covered`. */
  datatype Account = Account(turns: seq<Turn>, covered: int, dropped: int, summarizer: Option<SummaryFunc>)

  ghost predicate Stands(s: seq<Message>, a: Account) {
    && ValidTurns(a.turns)
    && 0 <= a.covered <= a.dropped <= |Flatten(a.turns)|
    && if Summarised(s) then
         && s[1..] == Flatten(a.turns)[a.dropped..]
         && a.summarizer.Some?
         && var text := a.summarizer.value(Flatten(a.turns)[..a.covered]);
         && text.Some? && s[0] == SummaryMessage(text.value)
       else
         && a.dropped == 0
         && s == Flatten(a.turns)
  }

  /** There is such an account for those turns. */
  ghost predicate GoesBackTo(s: seq<Message>, turns: seq<Turn>) {
    exists a :: Stands(s, a) && a.turns == turns
  }

  /** Every message of the turns is still there or was shown to the summarizer. */
  predicate Lossless(a: Account) {
    a.dropped <= a.covered
  }

  /** A stage that rewrites a history behind a summary drops messages unseen. One that rewrites a history
      without a summary drops what the summarizer was given. */
  ghost function Moved(a: Account, history: seq<Message>, stage: Stage, summarize: Option<SummaryFunc>): Account {
    if !stage.Rewrite? then a
    else if Summarised(history) then a.(dropped := a.dropped + |history| - |stage.history|)
    else
      var cut := |history| + 1 - |stage.history|;
      Account(a.turns, cut, cut, summarize)
  }

  lemma StandsFromTurns(s: seq<Message>, a: Account)
    requires Stands(s, a)
    ensures FromTurns(s, a.turns)
  {
    hide Flatten, ValidTurns, IsSummary;
    assert ShapeBy(s, a.turns, a.dropped);
  }

  lemma StandsAppend(s: seq<Message>, a: Account, t: Turn)
    requires Stands(s, a) && ValidRounds(t.rounds)
    ensures Stands(s + TurnMessages(t), a.(turns := a.turns + [t]))
  {
    hide IsSummary, Flatten, ValidTurns, ValidRounds, TurnMessages;
    var all, s' := Flatten(a.turns), s + TurnMessages(t);
    FlattenAppend(a.turns, t);
    FirstMessage(a.turns + [t]);
    SummaryIsSystem(UserMessage((a.turns + [t])[0].input));
    assert (all + TurnMessages(t))[..a.covered] == all[..a.covered];
    assert (all + TurnMessages(t))[a.dropped..] == all[a.dropped..] + TurnMessages(t);
    if Summarised(s) {
      assert s'[1..] == s[1..] + TurnMessages(t);
    }
  }

  lemma TrimStands(history: seq<Message>, a: Account, k: nat)
    requires Stands(history, a) && Summarised(history) && 1 <= k <= |history|
    ensures Stands(Trim(history, k), a.(dropped := a.dropped + k - 1))
  {
    hide Flatten, IsSummary, ValidTurns, SummaryMessage;
    assert Trim(history, k)[1..] == history[1..][k - 1..] == Flatten(a.turns)[a.dropped + k - 1..];
  }

  lemma SummaryStands(history: seq<Message>, a: Account, cut: nat, summarize: SummaryFunc)
    requires Stands(history, a) && !Summarised(history) && cut <= |history| && summarize(history[..cut]).Some?
    ensures Stands([SummaryMessage(summarize(history[..cut]).value)] + history[cut..],
              Account(a.turns, cut, cut, Some(summarize)))
  {
    hide Flatten, ValidTurns;
  }

  /** The token stage keeps the account true, and moves `dropped` alone exactly when it trims behind a summary. */
  lemma TokenStageMoves(config: Config, history: seq<Message>, a: Account, input: string,
                        summarize: Option<SummaryFunc>)
    requires Stands(history, a) && !TokenStage(config, history, input, summarize).Abort?
    ensures var stage := TokenStage(config, history, input, summarize);
            && Stands(After(stage, history), Moved(a, history, stage, summarize))
            && (stage.Rewrite? && Summarised(history) ==>
                  Moved(a, history, stage, summarize) == a.(dropped := Moved(a, history, stage, summarize).dropped)
                  && Moved(a, history, stage, summarize).dropped > a.dropped)
  {
    hide Stands, Flatten, ValidTurns, IsSummary, Tokens;
    var stage := TokenStage(config, history, input, summarize);
    var budget := config.tokenBudget - Tokens([UserMessage(input)]);
    TokensConcat(history, [UserMessage(input)]);
    if stage.Rewrite? {
      if Summarised(history) {
        assert Trim(history, 1) == history;
        TrimStands(history, a, FirstFit(history, budget, 1));
      } else {
        var cut := |history| - 1;
        SummaryStands(history, a, cut, summarize.value);
        assert stage.history == [SummaryMessage(summarize.value(history[..cut]).value)] + history[cut..];
      }
    }
  }

  lemma LimitStageMoves(config: Config, history: seq<Message>, a: Account, summarize: Option<SummaryFunc>)
    requires Stands(history, a) && !LimitStage(config, history, summarize).Abort?
    ensures var stage := LimitStage(config, history, summarize);
            && Stands(After(stage, history), Moved(a, history, stage, summarize))
            && (stage.Rewrite? && Summarised(history) ==>
                  Moved(a, history, stage, summarize) == a.(dropped := Moved(a, history, stage, summarize).dropped)
                  && Moved(a, history, stage, summarize).dropped > a.dropped)
  {
    hide Stands, Flatten, ValidTurns, IsSummary;
    var stage := LimitStage(config, history, summarize);
    var limit := config.contextLimit - 1;
    if stage.Rewrite? {
      if Summarised(history) {
        TrimStands(history, a, |history| - (limit - 1));
      } else {
        SummaryStands(history, a, CutOf(history, limit), summarize.value);
      }
    }
  }

  /** A limit stage that trims an existing summary can orphan a tool result. */
  lemma LimitTrimOrphans(call: ToolCall)
    requires call.id != ""
    ensures var turn := Turn("q", [Round("", [call], ["out"])], "a");
            && ValidTurns([turn])
            && var history := [SummaryMessage("s")] + Flatten([turn]);
            && FromTurns(history, [turn]) && Answered(history) && Backed(history)
            && LimitCompacted(history, 3, None).Success?
            && !Backed(LimitCompacted(history, 3, None).value)
  {
    var turn := Turn("q", [Round("", [call], ["out"])], "a");
    assert ValidTurns([turn]);
    var history := [SummaryMessage("s")] + Flatten([turn]);
    assert [turn][..0] == [] && turn.rounds[..0] == [];
    assert Flatten([turn]) == TurnMessages(turn);
    assert RoundsMessages(turn.rounds) == RoundMessages(turn.rounds[0]);
    assert Flatten([turn]) == [UserMessage("q"), AssistantMessage("", [call]), ToolMessage(call, "out"),
                               AssistantMessage("a", [])];
    assert Flatten([turn])[0..] == Flatten([turn]);
    assert ShapeBy(history, [turn], 0);
    SessionFacts(history, [turn]);
    TrimBacked(history, [turn], 3);
  }

  // ----- The token budget of the first model call

  /** The one path on which the limit stage writes a summary of its own after the token stage passed. */
  ghost predicate LateSummary(config: Config, history: seq<Message>, input: string) {
    && Tokens(history + [UserMessage(input)]) <= config.tokenBudget
    && 1 < config.contextLimit <= |history|
    && !Summarised(history)
  }

  ghost predicate FitsBudget(config: Config, history: seq<Message>, input: string,
                             first: Option<SummaryFunc>, second: Option<SummaryFunc>) {
    match Prepared(config, history, input, first, second)
    case Failure(_) => true
    case Success(prepared) => Tokens(prepared + [UserMessage(input)]) <= config.tokenBudget
  }

  lemma TokenStageFits(config: Config, history: seq<Message>, input: string, summarize: Option<SummaryFunc>)
    requires config.tokenBudget > 0 && !TokenStage(config, history, input, summarize).Abort?
    ensures Tokens(After(TokenStage(config, history, input, summarize), history) + [UserMessage(input)])
              <= config.tokenBudget
  {
    var stage := TokenStage(config, history, input, summarize);
    if stage.Rewrite? {
      TokensConcat(stage.history, [UserMessage(input)]);
    }
  }

  lemma LimitTrimFits(history: seq<Message>, limit: int, input: string)
    requires Summarised(history) && 0 < limit < |history|
    ensures Tokens(Trim(history, |history| - (limit - 1)) + [UserMessage(input)])
              <= Tokens(history + [UserMessage(input)])
  {
    var k := |history| - (limit - 1);
    assert Trim(history, 1) == history;
    TrimTokens(history, 1, k);
    TokensConcat(history, [UserMessage(input)]);
    TokensConcat(Trim(history, k), [UserMessage(input)]);
  }

  lemma LimitStageFits(config: Config, history: seq<Message>, input: string, summarize: Option<SummaryFunc>)
    requires Tokens(history + [UserMessage(input)]) <= config.tokenBudget
    requires !LateSummary(config, history, input) && !LimitStage(config, history, summarize).Abort?
    ensures Tokens(After(LimitStage(config, history, summarize), history) + [UserMessage(input)])
              <= config.tokenBudget
  {
    hide Tokens, IsSummary, MessageTokens, UserMessage;
    var limit := config.contextLimit - 1;
    if LimitStage(config, history, summarize).Rewrite? && |history| > limit {
      LimitTrimFits(history, limit, input);
    }
  }

  /** After the token stage has rewritten the history, its head is a summary. */
  lemma TokenStageSummarises(config: Config, history: seq<Message>, input: string, summarize: Option<SummaryFunc>)
    requires TokenStage(config, history, input, summarize).Rewrite?
    ensures Summarised(TokenStage(config, history, input, summarize).history)
  {
    hide Tokens;
    TokensConcat(history, [UserMessage(input)]);
  }

  lemma NoLateSummaryFits(config: Config, history: seq<Message>, input: string,
                          first: Option<SummaryFunc>, second: Option<SummaryFunc>)
    requires config.tokenBudget > 0 && !LateSummary(config, history, input)
    ensures FitsBudget(config, history, input, first, second)
  {
    hide Tokens, IsSummary, TokenCompacted, LimitCompacted, UserMessage;
    var one := TokenStage(config, history, input, first);
    if !one.Abort? {
      TokenStageFits(config, history, input, first);
      if one.Rewrite? {
        TokenStageSummarises(config, history, input, first);
      }
      if !LimitStage(config, After(one, history), second).Abort? {
        LimitStageFits(config, After(one, history), input, second);
      }
    }
  }

  lemma LateSummaryOverruns(config: Config, history: seq<Message>, input: string)
    requires LateSummary(config, history, input)
    ensures !FitsBudget(config, history, input, None, Some(VerboseSummarizer(config.tokenBudget)))
  {
    hide Tokens, IsSummary, UserMessage, SummaryMessage;
    VerboseSummaryOverruns(config.tokenBudget, history[CutOf(history, config.contextLimit - 1)..], input);
  }

  /** Whatever the summarizers answer, the first transcript fits the token budget exactly when the
      limit stage is not about to summarize a history that the token stage let through. */
  lemma FirstCallFitsBudget(config: Config, history: seq<Message>, input: string)
    requires config.tokenBudget > 0
    ensures !LateSummary(config, history, input) <==>
              forall first, second :: FitsBudget(config, history, input, first, second)
  {
    hide LateSummary, FitsBudget;
    if LateSummary(config, history, input) {
      LateSummaryOverruns(config, history, input);
    } else {
      forall first, second
        ensures FitsBudget(config, history, input, first, second)
      {
        NoLateSummaryFits(config, history, input, first, second);
      }
    }
  }

  ghost function VerboseSummarizer(budget: nat): SummaryFunc {
    (messages: seq<Message>) => Some(seq(4 * budget, i => 'x'))
  }

  lemma VerboseSummaryOverruns(budget: nat, kept: seq<Message>, input: string)
    ensures var summary := SummaryMessage(seq(4 * budget, i => 'x'));
            Tokens([summary] + kept + [UserMessage(input)]) > budget
  {
    var summary := SummaryMessage(seq(4 * budget, i => 'x'));
    TokensSingle(summary);
    TokensConcat([summary] + kept, [UserMessage(input)]);
    TokensConcat([summary], kept);
  }
}
