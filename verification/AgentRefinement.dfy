/** A run of Agent.Run by itself is a behaviour of the protocol, from any reachable world. */
module AgentRefinement {
  import opened Messages
  import opened Results
  import opened Compaction
  import opened AgentHistory
  import opened MemoryStore
  import opened AgentRun
  import opened AgentProtocol

  /** The run added to s0 stands at `phase`, the store is `store`, and nothing else has moved. */
  ghost predicate At(s0: World, s: World, config: Config, id: string, input: string, store: Sessions, phase: Phase) {
    Reachable(s) && s.store == store && s.runs == s0.runs + [AgentProtocol.Run(config, id, input, phase)]
  }

  lemma Take(s0: World, s: World, config: Config, id: string, input: string, store: Sessions, phase: Phase, step: Step)
    requires At(s0, s, config, id, input, store, phase) && !step.Start? && step.r == |s0.runs| && Enabled(s, step)
    ensures Reachable(Apply(s, step))
    ensures s.runs[|s0.runs|] == AgentProtocol.Run(config, id, input, phase)
    ensures forall p :: s.runs[|s0.runs| := AgentProtocol.Run(config, id, input, p)]
                        == s0.runs + [AgentProtocol.Run(config, id, input, p)]
  {
    hide Reachable, Enabled, Apply;
    StepReachable(s, step);
  }

  lemma Begins(s0: World, config: Config, id: string, input: string) returns (s: World)
    requires Reachable(s0)
    ensures At(s0, s, config, id, input, s0.store, Listed(SessionOf(s0.store, id)))
  {
    hide Reachable, SessionOf;
    StepReachable(s0, Start(config, id, input));
    var s1 := Apply(s0, Start(config, id, input));
    Take(s0, s1, config, id, input, s0.store, Started, List(|s0.runs|));
    s := Apply(s1, List(|s0.runs|));
  }

  lemma Budgets(s0: World, s: World, config: Config, id: string, input: string, store: Sessions, history: seq<Message>,
                summarize: Option<SummaryFunc>) returns (s': World)
    requires At(s0, s, config, id, input, store, Listed(history))
    ensures var stage := TokenStage(config, history, input, summarize);
            if stage.Abort? then At(s0, s', config, id, input, store, Ended(false))
            else At(s0, s', config, id, input, Stored(store, id, stage), Budgeted(After(stage, history)))
  {
    hide Reachable, TokenStage;
    var r, stage := |s0.runs|, TokenStage(config, history, input, summarize);
    Take(s0, s, config, id, input, store, Listed(history), ApplyBudget(r, summarize));
    s' := Apply(s, ApplyBudget(r, summarize));
    if stage.Rewrite? {
      Take(s0, s', config, id, input, store, ReplacingTokens(stage.history), ReplaceTokens(r));
      s' := Apply(s', ReplaceTokens(r));
    }
  }

  lemma Limits(s0: World, s: World, config: Config, id: string, input: string, store: Sessions, history: seq<Message>,
               summarize: Option<SummaryFunc>) returns (s': World)
    requires At(s0, s, config, id, input, store, Budgeted(history))
    ensures var stage := LimitStage(config, history, summarize);
            if stage.Abort? then At(s0, s', config, id, input, store, Ended(false))
            else At(s0, s', config, id, input, Stored(store, id, stage), Calling(After(stage, history), []))
  {
    hide Reachable, LimitStage;
    var r, stage := |s0.runs|, LimitStage(config, history, summarize);
    Take(s0, s, config, id, input, store, Budgeted(history), ApplyLimit(r, summarize));
    s' := Apply(s, ApplyLimit(r, summarize));
    if stage.Rewrite? {
      Take(s0, s', config, id, input, store, ReplacingLimit(stage.history), ReplaceLimit(r));
      s' := Apply(s', ReplaceLimit(r));
    }
  }

  lemma {:induction false} Talks(s0: World, s: World, config: Config, env: Environment, id: string, input: string,
                                 store: Sessions,
                                 kept: seq<Message>, t: Trace, k: nat) returns (s': World)
    requires LoopTrace(config, env, kept, input, t) && k <= |t.rounds|
    requires At(s0, s, config, id, input, store, Calling(kept, t.rounds[..k]))
    ensures At(s0, s', config, id, input, store, Calling(kept, t.rounds))
    decreases |t.rounds| - k
  {
    hide Reachable, CallsAccepted, ValidRound, OpenTurn;
    if k == |t.rounds| {
      assert t.rounds[..k] == t.rounds;
      s' := s;
    } else {
      assert ToolRound(env, k, t.replies[k], t.rounds[k]);
      var step := CallModel(|s0.runs|, t.replies[k], t.rounds[k].outputs, env.validJson);
      Take(s0, s, config, id, input, store, Calling(kept, t.rounds[..k]), step);
      assert t.rounds[..k] + [t.rounds[k]] == t.rounds[..k + 1];
      s' := Talks(s0, Apply(s, step), config, env, id, input, store, kept, t, k + 1);
    }
  }

  lemma Ends(s0: World, s: World, config: Config, env: Environment, id: string, input: string, stream: bool,
             store: Sessions,
             kept: seq<Message>, t: Trace, r: Result<ChatResult, RunError>) returns (s': World)
    requires LoopTrace(config, env, kept, input, t) && EndsWith(config, env, t, stream, r)
    requires At(s0, s, config, id, input, store, Calling(kept, t.rounds))
    ensures r.Failure? ==> At(s0, s', config, id, input, store, Ended(false))
    ensures r.Success? ==>
              && t.replies[|t.rounds|].Reply?
              && var turn := Turn(input, t.rounds, t.replies[|t.rounds|].result.content);
              At(s0, s', config, id, input, store[id := SessionOf(store, id) + TurnMessages(turn)], Ended(true))
  {
    hide Reachable, CallsAccepted, ValidRound, TurnMessages, UsageSum, Streamed, FirstProblem;
    var last := t.replies[|t.rounds|];
    var outputs: seq<string> := if last.Reply? then seq(|last.result.calls|, i => "") else [];
    var step := CallModel(|s0.runs|, last, outputs, env.validJson);
    if last.Reply? {
      FirstProblemNone(last.result.calls, 0, env.validJson);
      AcceptedIff(last.result.calls, env.validJson);
    }
    Take(s0, s, config, id, input, store, Calling(kept, t.rounds), step);
    s' := Apply(s, step);
    if r.Success? {
      var turn := Turn(input, t.rounds, last.result.content);
      Take(s0, s', config, id, input, store, Appending(turn), Append(|s0.runs|));
      s' := Apply(s', Append(|s0.runs|));
    }
  }

  lemma AcceptedIff(calls: seq<ToolCall>, validJson: string -> bool)
    ensures CallsAccepted(calls, validJson) <==> forall i | 0 <= i < |calls| :: CallProblem(calls, i, validJson).None?
  {
  }

  /** Whatever the method does in one go, the protocol does step by step: same store, same ending. */
  lemma RunIsABehaviour(s: World, config: Config, env: Environment, id: string, input: string, stream: bool,
                        after: Sessions, r: Result<ChatResult, RunError>, t: Trace) returns (s': World)
    requires Reachable(s) && RunSpec(config, env, id, input, stream, s.store, after, r, t)
    ensures Reachable(s') && s'.store == after
    ensures s'.runs == s.runs + [AgentProtocol.Run(config, id, input, Ended(r.Success?))]
  {
    hide Reachable, LoopTrace, EndsWith, TokenStage, LimitStage, TurnMessages, SessionOf, ValidRounds;
    var history := SessionOf(s.store, id);
    var one := TokenStage(config, history, input, env.summarize);
    s' := Begins(s, config, id, input);
    s' := Budgets(s, s', config, id, input, s.store, history, env.summarize);
    if !one.Abort? {
      var stored := Stored(s.store, id, one);
      var two := LimitStage(config, After(one, history), env.summarize);
      s' := Limits(s, s', config, id, input, stored, After(one, history), env.summarize);
      if !two.Abort? {
        var kept, rewritten := After(two, After(one, history)), Stored(stored, id, two);
        assert t.rounds[..0] == [];
        s' := Talks(s, s', config, env, id, input, rewritten, kept, t, 0);
        s' := Ends(s, s', config, env, id, input, stream, rewritten, kept, t, r);
      }
    }
  }
}
