/** What the estimate counts, what a compacted history keeps, and when the stages leave a history alone or fail. */
module HistoryFacts {
  import opened Collections
  import opened Messages
  import opened Results
  import opened Compaction
  import opened AgentHistory

  // ----- The estimate

  ghost function CallSizes(calls: seq<ToolCall>): (sizes: seq<int>)
    ensures |sizes| == |calls|
    ensures forall k | 0 <= k < |calls| :: sizes[k] == |calls[k].id| + |calls[k].name| + |calls[k].arguments|
  {
    seq(|calls|, k requires 0 <= k < |calls| => |calls[k].id| + |calls[k].name| + |calls[k].arguments|)
  }

  lemma {:induction false} CallCharsAre(calls: seq<ToolCall>)
    ensures CallChars(calls) == Sum(CallSizes(calls))
  {
    if calls != [] {
      var front := calls[..|calls| - 1];
      CallCharsAre(front);
      assert CallSizes(calls)[..|front|] == CallSizes(front);
    }
  }

  /** A message counts four tokens and a quarter of its runes, rounded up: of its content, its call ID, and the ID,
      name and arguments of each of its calls. */
  lemma EstimateIs(m: Message)
    ensures var runes := |m.content| + |m.callId| + Sum(CallSizes(m.calls));
            4 * (Tokens([m]) - 4) - 4 < runes <= 4 * (Tokens([m]) - 4)
  {
    TokensSingle(m);
    CallCharsAre(m.calls);
  }

  // ----- What is kept

  /** Behind a summary the message limit keeps just the summary and the newest messages, `limit` in all. */
  lemma LimitKeepsNewest(history: seq<Message>, limit: int, summarize: Option<SummaryFunc>)
    requires Summarised(history) && 0 < limit < |history|
    ensures var r := LimitCompacted(history, limit, summarize);
            && r.Success? && |r.value| == limit
            && r.value[0] == history[0]
            && r.value[1..] == history[|history| - limit + 1..]
  {
  }

  /** Without one, a history over the budget becomes a summary of all but its last message, and that message. */
  lemma BudgetKeepsLast(history: seq<Message>, budget: int, summarize: Option<SummaryFunc>)
    requires !Summarised(history) && Tokens(history) > budget
    requires TokenCompacted(history, budget, summarize).Success?
    ensures var r, n := TokenCompacted(history, budget, summarize).value, |history| - 1;
            && n > 0 && summarize.Some? && summarize.value(history[..n]).Some?
            && r == [SummaryMessage(summarize.value(history[..n]).value), history[n]]
            && Tokens(r) <= budget
  {
    hide Tokens, IsSummary;
  }

  /** And one over the message limit becomes a summary of the messages before the cut, and those after it. */
  lemma LimitKeepsSuffix(history: seq<Message>, limit: int, summarize: Option<SummaryFunc>)
    requires !Summarised(history) && 0 < limit < |history|
    requires LimitCompacted(history, limit, summarize).Success?
    ensures var r, cut := LimitCompacted(history, limit, summarize).value, CutOf(history, limit);
            && summarize.Some? && summarize.value(history[..cut]).Some?
            && r == [SummaryMessage(summarize.value(history[..cut]).value)] + history[cut..]
            && cut <= |history| - limit + 1
  {
  }

  // ----- When a stage does nothing

  lemma TokenStageChanges(config: Config, history: seq<Message>, input: string, summarize: Option<SummaryFunc>)
    requires config.tokenBudget > 0 && Tokens(history + [UserMessage(input)]) > config.tokenBudget
    requires TokenStage(config, history, input, summarize).Rewrite?
    ensures var r := TokenStage(config, history, input, summarize).history;
            Summarised(r) && (Summarised(history) ==> |r| < |history|)
  {
    hide Tokens, IsSummary;
    TokensConcat(history, [UserMessage(input)]);
    TokenStageSummarises(config, history, input, summarize);
    if Summarised(history) {
      assert Trim(history, 1) == history;
    }
  }

  lemma LimitStageChanges(config: Config, history: seq<Message>, summarize: Option<SummaryFunc>)
    requires 0 < config.contextLimit < |history| + 1
    requires LimitStage(config, history, summarize).Rewrite?
    ensures var r := LimitStage(config, history, summarize).history;
            Summarised(r) && (Summarised(history) ==> |r| < |history|)
  {
    hide Retreat;
  }

  /** The history reaches the model as it was listed if and only if, with the input, it is within the token budget
      and within the message limit, as far as these are given. */
  lemma UntouchedIff(config: Config, history: seq<Message>, input: string,
                     first: Option<SummaryFunc>, second: Option<SummaryFunc>)
    ensures Prepared(config, history, input, first, second) == Success(history) <==>
              && (config.tokenBudget > 0 ==> Tokens(history + [UserMessage(input)]) <= config.tokenBudget)
              && (config.contextLimit > 0 ==> |history| + 1 <= config.contextLimit)
  {
    hide Tokens, IsSummary, TokenCompacted, LimitCompacted;
    var one := TokenStage(config, history, input, first);
    if one.Rewrite? {
      TokenStageChanges(config, history, input, first);
    }
    if !one.Abort? {
      var two := LimitStage(config, After(one, history), second);
      if two.Rewrite? {
        LimitStageChanges(config, After(one, history), second);
      }
    }
  }

  // ----- Why compaction fails

  lemma TokenCompactionFails(history: seq<Message>, budget: int, summarize: Option<SummaryFunc>)
    ensures var r := TokenCompacted(history, budget, summarize);
            && (r == Failure(BudgetNotPositive) <==> budget <= 0)
            && (r == Failure(SummaryExceedsBudget) <==>
                  budget > 0 && Summarised(history) && Tokens([history[0]]) > budget)
            && (r == Failure(SummarizerMissing) <==>
                  budget > 0 && !Summarised(history) && Tokens(history) > budget && summarize.None?)
  {
    hide IsSummary, Tokens;
    if Summarised(history) && budget > 0 {
      TrimIsLongest(history, budget, summarize);
      assert Trim(history, |history|) == [history[0]];
    }
  }
}
