/** Model of Agent.run (internal/agent/agent.go) by itself: two compaction stages, a bounded loop, one append. */
module AgentRun {
  import opened Collections
  import opened Messages
  import opened Results
  import opened Text
  import opened Compaction
  import opened AgentHistory
  import opened MemoryStore

  /** What one model call does: fail, or return a result after delivering some text deltas. */
  datatype Reply = Broken | Reply(result: ChatResult, deltas: seq<string>)

  /** Everything outside the agent. The model and the tools may answer differently in every round;
      a failing tool is one whose output is the JSON error object the agent builds. */
  datatype Environment = Environment(
    model: (nat, seq<Message>) -> Reply,
    tool: (nat, nat, ToolCall) -> string,
    summarize: Option<SummaryFunc>,
    validJson: string -> bool)

  datatype CallError = NoId | DuplicateId(id: string) | UnsupportedType(kind: string) | NoName(id: string)
    | BadArguments(id: string)

  datatype RunError =
    | CompactionFailed(compaction: CompactError)
    | ModelFailed
    | TooManyRounds
    | InvalidCalls(call: CallError)

  // ----- validateToolCalls

  function CallProblem(calls: seq<ToolCall>, i: nat, validJson: string -> bool): Option<CallError>
    requires i < |calls|
  {
    var call := calls[i];
    if call.id == "" then Some(NoId)
    else if exists j | 0 <= j < i :: calls[j].id == call.id then Some(DuplicateId(call.id))
    else if call.kind != "function" then Some(UnsupportedType(call.kind))
    else if TrimSpace(call.name) == "" then Some(NoName(call.id))
    else if TrimSpace(call.arguments) != "" && !validJson(TrimSpace(call.arguments)) then Some(BadArguments(call.id))
    else None
  }

  ghost predicate CallsAccepted(calls: seq<ToolCall>, validJson: string -> bool) {
    forall i | 0 <= i < |calls| :: CallProblem(calls, i, validJson).None?
  }

  ghost function FirstProblem(calls: seq<ToolCall>, from: nat, validJson: string -> bool): Option<CallError>
    requires from <= |calls|
    decreases |calls| - from
  {
    if from == |calls| then None
    else if CallProblem(calls, from, validJson).Some? then CallProblem(calls, from, validJson)
    else FirstProblem(calls, from + 1, validJson)
  }

  lemma {:induction false} FirstProblemNone(calls: seq<ToolCall>, from: nat, validJson: string -> bool)
    requires from <= |calls|
    ensures FirstProblem(calls, from, validJson).None? <==>
              forall i | from <= i < |calls| :: CallProblem(calls, i, validJson).None?
    decreases |calls| - from
  {
    hide CallProblem;
    if from < |calls| {
      FirstProblemNone(calls, from + 1, validJson);
    }
  }

  /** Reports the problem of the first offending call, and nothing exactly when there is none. */
  method ValidateToolCalls(calls: seq<ToolCall>, validJson: string -> bool) returns (r: Option<CallError>)
    ensures r.None? <==> CallsAccepted(calls, validJson)
    ensures r == FirstProblem(calls, 0, validJson)
  {
    hide TrimSpace;
    var seen: set<string> := {};
    for i := 0 to |calls|
      invariant seen == set j | 0 <= j < i :: calls[j].id
      invariant forall j | 0 <= j < i :: CallProblem(calls, j, validJson).None?
      invariant FirstProblem(calls, i, validJson) == FirstProblem(calls, 0, validJson)
    {
      var call := calls[i];
      ghost var problem := CallProblem(calls, i, validJson);
      if call.id == "" {
        assert problem == Some(NoId);
        return Some(NoId);
      }
      if call.id in seen {
        assert problem == Some(DuplicateId(call.id));
        return Some(DuplicateId(call.id));
      }
      seen := seen + {call.id};
      if call.kind != "function" {
        assert problem == Some(UnsupportedType(call.kind));
        return Some(UnsupportedType(call.kind));
      }
      if TrimSpace(call.name) == "" {
        assert problem == Some(NoName(call.id));
        return Some(NoName(call.id));
      }
      var arguments := TrimSpace(call.arguments);
      if arguments != "" && !validJson(arguments) {
        assert problem == Some(BadArguments(call.id));
        return Some(BadArguments(call.id));
      }
    }
    return None;
  }

  // ----- The loop

  function AddUsage(left: Usage, right: Usage): Usage {
    Usage(left.prompt + right.prompt, left.completion + right.completion, left.total + right.total)
  }

  ghost predicate AllReplied(replies: seq<Reply>) {
    forall k | 0 <= k < |replies| :: replies[k].Reply?
  }

  /** One number of each usage reported, in call order. */
  ghost function Reported(replies: seq<Reply>, number: Usage -> int): (numbers: seq<int>)
    requires AllReplied(replies)
    ensures |numbers| == |replies|
    ensures forall k | 0 <= k < |replies| :: numbers[k] == number(replies[k].result.usage)
  {
    if replies == [] then []
    else Reported(replies[..|replies| - 1], number) + [number(replies[|replies| - 1].result.usage)]
  }

  ghost function UsageSum(replies: seq<Reply>): Usage
    requires AllReplied(replies)
  {
    Usage(Sum(Reported(replies, (u: Usage) => u.prompt)), Sum(Reported(replies, (u: Usage) => u.completion)),
          Sum(Reported(replies, (u: Usage) => u.total)))
  }

  lemma UsageSumMore(replies: seq<Reply>, reply: Reply)
    requires AllReplied(replies) && reply.Reply?
    ensures UsageSum([]) == Usage(0, 0, 0)
    ensures UsageSum(replies + [reply]) == AddUsage(UsageSum(replies), reply.result.usage)
  {
    assert (replies + [reply])[..|replies|] == replies;
    SumMore(replies, reply, (u: Usage) => u.prompt);
    SumMore(replies, reply, (u: Usage) => u.completion);
    SumMore(replies, reply, (u: Usage) => u.total);
  }

  lemma SumMore(replies: seq<Reply>, reply: Reply, number: Usage -> int)
    requires AllReplied(replies) && reply.Reply?
    ensures Sum(Reported(replies + [reply], number)) == Sum(Reported(replies, number)) + number(reply.result.usage)
  {
    hide Sum;
    assert (replies + [reply])[..|replies|] == replies;
    SumConcat(Reported(replies, number), [number(reply.result.usage)]);
    SumSmall(number(reply.result.usage));
  }

  ghost function Streamed(replies: seq<Reply>): string
    requires AllReplied(replies)
  {
    if replies == [] then []
    else Streamed(replies[..|replies| - 1]) + Concat(replies[|replies| - 1].deltas)
  }

  /** The deltas of all replies, one after the other. */
  ghost function Delivered(replies: seq<Reply>): seq<string>
    requires AllReplied(replies)
  {
    if replies == [] then [] else Delivered(replies[..|replies| - 1]) + replies[|replies| - 1].deltas
  }

  lemma {:induction false} StreamedIsConcat(replies: seq<Reply>)
    requires AllReplied(replies)
    ensures Streamed(replies) == Concat(Delivered(replies))
  {
    hide Concat;
    if replies == [] {
      ConcatParts([], []);
    } else {
      StreamedIsConcat(replies[..|replies| - 1]);
      ConcatParts(Delivered(replies[..|replies| - 1]), replies[|replies| - 1].deltas);
    }
  }

  /** The tool rounds of a run and the reply of every model call it made. */
  datatype Trace = Trace(rounds: seq<Round>, replies: seq<Reply>)

  ghost predicate ToolRound(env: Environment, k: nat, reply: Reply, round: Round) {
    && reply.Reply?
    && reply.result.calls != []
    && CallsAccepted(reply.result.calls, env.validJson)
    && round.content == reply.result.content
    && round.calls == reply.result.calls
    && |round.outputs| == |round.calls|
    && forall i | 0 <= i < |round.calls| :: round.outputs[i] == env.tool(k, i, round.calls[i])
  }

  /** Model call k saw the history, the input and the first k tool rounds; its reply caused round k. */
  ghost predicate LoopTrace(config: Config, env: Environment, history: seq<Message>, input: string, t: Trace) {
    && ValidRounds(t.rounds)
    && |t.replies| == |t.rounds| + 1
    && |t.rounds| <= config.maxToolRounds
    && (forall k | 0 <= k < |t.replies| :: t.replies[k] == env.model(k, history + OpenTurn(input, t.rounds[..k])))
    && (forall k | 0 <= k < |t.rounds| :: ToolRound(env, k, t.replies[k], t.rounds[k]))
  }

  /** The loop between two model calls: every reply so far caused a tool round. */
  ghost predicate BetweenCalls(config: Config, env: Environment, history: seq<Message>, input: string, t: Trace) {
    && ValidRounds(t.rounds)
    && |t.replies| == |t.rounds| <= config.maxToolRounds
    && (forall k | 0 <= k < |t.replies| :: t.replies[k] == env.model(k, history + OpenTurn(input, t.rounds[..k])))
    && (forall k | 0 <= k < |t.rounds| :: ToolRound(env, k, t.replies[k], t.rounds[k]))
  }

  lemma AfterCall(config: Config, env: Environment, history: seq<Message>, input: string, t: Trace)
    requires BetweenCalls(config, env, history, input, t)
    ensures var reply := env.model(|t.rounds|, history + OpenTurn(input, t.rounds));
            && LoopTrace(config, env, history, input, Trace(t.rounds, t.replies + [reply]))
            && (reply.Reply? ==>
                  && UsageSum(t.replies + [reply]) == AddUsage(UsageSum(t.replies), reply.result.usage)
                  && Streamed(t.replies + [reply]) == Streamed(t.replies) + Concat(reply.deltas))
  {
    hide ValidRound, OpenTurn, CallsAccepted, Concat, UsageSum;
    var reply := env.model(|t.rounds|, history + OpenTurn(input, t.rounds));
    if reply.Reply? {
      UsageSumMore(t.replies, reply);
    }
    assert t.rounds[..|t.rounds|] == t.rounds;
    assert (t.replies + [reply])[..|t.replies|] == t.replies;
  }

  lemma AfterRound(config: Config, env: Environment, history: seq<Message>, input: string, t: Trace, next: Round)
    requires LoopTrace(config, env, history, input, t) && |t.rounds| < config.maxToolRounds
    requires ValidRound(next) && ToolRound(env, |t.rounds|, t.replies[|t.rounds|], next)
    ensures ValidRounds(t.rounds + [next])
    ensures BetweenCalls(config, env, history, input, Trace(t.rounds + [next], t.replies))
    ensures OpenTurn(input, t.rounds + [next]) == OpenTurn(input, t.rounds) + RoundMessages(next)
  {
    hide ToolRound, ValidRound, RoundMessages, OpenTurn;
    OpenTurnExtend(input, t.rounds, next);
    var rounds := t.rounds + [next];
    forall k | 0 <= k < |t.replies|
      ensures rounds[..k] == t.rounds[..k]
    {
    }
  }

  /** How the last reply ends the loop. */
  ghost predicate EndsWith(config: Config, env: Environment, t: Trace, stream: bool, r: Result<ChatResult, RunError>)
    requires |t.replies| == |t.rounds| + 1
    requires AllReplied(t.replies[..|t.rounds|])
  {
    var last := t.replies[|t.rounds|];
    if last.Broken? then r == Failure(ModelFailed)
    else if last.result.calls == [] then
      r == Success(last.result.(usage := UsageSum(t.replies),
                                content := if stream then Streamed(t.replies) else last.result.content))
    else if |t.rounds| == config.maxToolRounds then r == Failure(TooManyRounds)
    else
      var problem := FirstProblem(last.result.calls, 0, env.validJson);
      problem.Some? && r == Failure(InvalidCalls(problem.value))
  }

  // ----- The whole run

  ghost function Stored(sessions: Sessions, id: string, stage: Stage): Sessions {
    if stage.Rewrite? then sessions[id := stage.history] else sessions
  }

  /** The run read `before`, left `after`, returned r, and went through t. */
  ghost predicate RunSpec(config: Config, env: Environment, id: string, input: string, stream: bool,
                          before: Sessions, after: Sessions, r: Result<ChatResult, RunError>, t: Trace) {
    var history := SessionOf(before, id);
    var one := TokenStage(config, history, input, env.summarize);
    if one.Abort? then r == Failure(CompactionFailed(one.error)) && after == before && t == Trace([], [])
    else
      var two := LimitStage(config, After(one, history), env.summarize);
      var stored := Stored(before, id, one);
      if two.Abort? then r == Failure(CompactionFailed(two.error)) && after == stored && t == Trace([], [])
      else
        var kept := After(two, After(one, history));
        var rewritten := Stored(stored, id, two);
        && LoopTrace(config, env, kept, input, t)
        && EndsWith(config, env, t, stream, r)
        && (r.Failure? ==> after == rewritten)
        && (r.Success? ==>
              after == rewritten[id := SessionOf(rewritten, id)
                                       + TurnMessages(Turn(input, t.rounds, t.replies[|t.rounds|].result.content))])
  }

  class Agent {
    const config: Config
    const memory: InMemory

    constructor (config: Config, memory: InMemory)
      ensures this.config == config && this.memory == memory
    {
      this.config := config;
      this.memory := memory;
    }

    method Run(id: string, input: string, stream: bool, env: Environment)
      returns (r: Result<ChatResult, RunError>, ghost t: Trace)
      modifies memory
      ensures RunSpec(config, env, id, input, stream, old(memory.sessions), memory.sessions, r, t)
    {
      hide Tokens, IsSummary, TokenCompacted, LimitCompacted, CallProblem;
      t := Trace([], []);
      var history := memory.List(id);
      if config.tokenBudget > 0 {
        var estimate := EstimateTokens(history + [UserMessage(input)]);
        if estimate > config.tokenBudget {
          var inputTokens := EstimateTokens([UserMessage(input)]);
          var compacted := CompactTokenHistory(history, config.tokenBudget - inputTokens, env.summarize);
          if compacted.Failure? {
            return Failure(CompactionFailed(compacted.error)), t;
          }
          memory.Replace(id, compacted.value);
          history := compacted.value;
        }
      }
      if config.contextLimit > 0 && |history| + 1 > config.contextLimit {
        var compacted := CompactHistory(history, config.contextLimit - 1, env.summarize);
        if compacted.Failure? {
          return Failure(CompactionFailed(compacted.error)), t;
        }
        memory.Replace(id, compacted.value);
        history := compacted.value;
      }
      r, t := Loop(id, input, stream, env, history);
    }

    /** The loop of the run and its single append, from the point where the transcript is built. */
    method Loop(id: string, input: string, stream: bool, env: Environment, history: seq<Message>)
      returns (r: Result<ChatResult, RunError>, ghost t: Trace)
      modifies memory
      ensures LoopTrace(config, env, history, input, t) && EndsWith(config, env, t, stream, r)
      ensures r.Failure? ==> memory.sessions == old(memory.sessions)
      ensures r.Success? ==>
                memory.sessions == old(memory.sessions)[id := SessionOf(old(memory.sessions), id)
                  + TurnMessages(Turn(input, t.rounds, t.replies[|t.rounds|].result.content))]
    {
      hide CallProblem, CallsAccepted, LoopTrace, BetweenCalls, ToolRound, RoundMessages, RoundsMessages, UsageSum,
           Streamed;
      var historyStart := |history|;
      var transcript := history + [UserMessage(input)];
      var totalUsage := Usage(0, 0, 0);
      var streamed := "";
      t := Trace([], []);
      StartOfLoop(history, input, env);
      var round := 0;
      while true
        invariant BetweenCalls(config, env, history, input, t)
        invariant round == |t.rounds| == |t.replies| <= config.maxToolRounds
        invariant ValidRounds(t.rounds) && AllReplied(t.replies)
        invariant transcript == history + OpenTurn(input, t.rounds)
        invariant totalUsage == UsageSum(t.replies)
        invariant stream ==> streamed == Streamed(t.replies)
        invariant memory.sessions == old(memory.sessions)
        decreases config.maxToolRounds - round
      {
        var reply := env.model(round, transcript);
        AfterCall(config, env, history, input, t);
        t := Trace(t.rounds, t.replies + [reply]);
        if reply.Broken? {
          return Failure(ModelFailed), t;
        }
        if stream {
          var text := Join(reply.deltas);
          streamed := streamed + text;
        }
        totalUsage := AddUsage(totalUsage, reply.result.usage);
        if |reply.result.calls| == 0 {
          transcript := transcript + [AssistantMessage(reply.result.content, [])];
          assert transcript[historyStart..] == TurnMessages(Turn(input, t.rounds, reply.result.content));
          memory.Append(id, transcript[historyStart..]);
          var content := if stream then streamed else reply.result.content;
          return Success(reply.result.(usage := totalUsage, content := content)), t;
        }
        if round >= config.maxToolRounds {
          return Failure(TooManyRounds), t;
        }
        var problem := ValidateToolCalls(reply.result.calls, env.validJson);
        FirstProblemNone(reply.result.calls, 0, env.validJson);
        if problem.Some? {
          return Failure(InvalidCalls(problem.value)), t;
        }
        var block;
        ghost var next;
        block, next := RunTools(env, round, reply);
        transcript := transcript + block;
        AfterRound(config, env, history, input, t, next);
        t := Trace(t.rounds + [next], t.replies);
        round := round + 1;
      }
    }

    lemma StartOfLoop(history: seq<Message>, input: string, env: Environment)
      ensures BetweenCalls(config, env, history, input, Trace([], []))
      ensures OpenTurn(input, []) == [UserMessage(input)]
      ensures UsageSum([]) == Usage(0, 0, 0) && Streamed([]) == ""
    {
      SumSmall(0);
    }

    /** Invokes the calls of one reply in order; a failed tool still yields its tool message. */
    method RunTools(env: Environment, round: nat, reply: Reply) returns (block: seq<Message>, ghost next: Round)
      requires reply.Reply? && reply.result.calls != [] && CallsAccepted(reply.result.calls, env.validJson)
      ensures ToolRound(env, round, reply, next) && ValidRound(next)
      ensures block == RoundMessages(next)
      ensures var calls := reply.result.calls;
              && |block| == |calls| + 1 && block[0] == AssistantMessage(reply.result.content, calls)
              && forall k | 0 <= k < |calls| :: block[k + 1] == ToolMessage(calls[k], env.tool(round, k, calls[k]))
    {
      var calls := reply.result.calls;
      ghost var outputs: seq<string> := [];
      block := [AssistantMessage(reply.result.content, calls)];
      for i := 0 to |calls|
        invariant |outputs| == i && |block| == i + 1
        invariant block[0] == AssistantMessage(reply.result.content, calls)
        invariant forall k | 0 <= k < i :: outputs[k] == env.tool(round, k, calls[k])
        invariant forall k | 0 <= k < i :: block[k + 1] == ToolMessage(calls[k], outputs[k])
      {
        var output := env.tool(round, i, calls[i]);
        block := block + [ToolMessage(calls[i], output)];
        outputs := outputs + [output];
      }
      next := Round(reply.result.content, calls, outputs);
      AcceptedCallsDistinct(calls, env.validJson);
    }
  }

  method Join(parts: seq<string>) returns (text: string)
    ensures text == Concat(parts)
  {
    text := "";
    for i := 0 to |parts|
      invariant text == Concat(parts[..i])
    {
      text := text + parts[i];
      assert parts[..i + 1][..i] == parts[..i];
    }
    assert parts[..|parts|] == parts;
  }

  lemma AcceptedCallsDistinct(calls: seq<ToolCall>, validJson: string -> bool)
    requires CallsAccepted(calls, validJson)
    ensures forall i | 0 <= i < |calls| :: calls[i].id != ""
    ensures forall i, j | 0 <= i < j < |calls| :: calls[i].id != calls[j].id
  {
    forall i, j | 0 <= i < j < |calls|
      ensures calls[i].id != calls[j].id
    {
      assert CallProblem(calls, j, validJson).None?;
    }
    forall i | 0 <= i < |calls|
      ensures calls[i].id != ""
    {
      assert CallProblem(calls, i, validJson).None?;
    }
  }

  // ----- What a run guarantees

  /** The history a run builds its transcript on. */
  ghost function KeptHistory(config: Config, env: Environment, id: string, input: string, before: Sessions): History {
    Prepared(config, SessionOf(before, id), input, env.summarize, env.summarize)
  }

  lemma RunUsesPrepared(config: Config, env: Environment, id: string, input: string, stream: bool,
                        before: Sessions, after: Sessions, r: Result<ChatResult, RunError>, t: Trace)
    requires RunSpec(config, env, id, input, stream, before, after, r, t)
    ensures match KeptHistory(config, env, id, input, before)
            case Failure(e) => r == Failure(CompactionFailed(e)) && t == Trace([], [])
            case Success(kept) => LoopTrace(config, env, kept, input, t) && EndsWith(config, env, t, stream, r)
  {
    hide TokenStage, LimitStage, LoopTrace, EndsWith, SessionOf;
  }

  /** At most maxToolRounds + 1 model calls and maxToolRounds tool rounds; usage and, when streaming,
      the returned text are accumulated over every model call, not just the last one. */
  lemma RunAccounting(config: Config, env: Environment, id: string, input: string, stream: bool,
                      before: Sessions, after: Sessions, r: Result<ChatResult, RunError>, t: Trace)
    requires RunSpec(config, env, id, input, stream, before, after, r, t)
    ensures |t.replies| <= config.maxToolRounds + 1 && |t.rounds| <= config.maxToolRounds
    ensures r == Failure(TooManyRounds) ==> |t.replies| == config.maxToolRounds + 1
    ensures r.Success? ==>
              && AllReplied(t.replies)
              && |t.replies| == |t.rounds| + 1
              && r.value.usage.prompt == Sum(Reported(t.replies, (u: Usage) => u.prompt))
              && r.value.usage.completion == Sum(Reported(t.replies, (u: Usage) => u.completion))
              && r.value.usage.total == Sum(Reported(t.replies, (u: Usage) => u.total))
              && r.value.calls == []
              && (stream ==> r.value.content == Concat(Delivered(t.replies)))
              && var last := t.replies[|t.rounds|].result;
              && (!stream ==> r.value.content == last.content)
              && r.value.model == last.model && r.value.finishReason == last.finishReason
    ensures !(r.Failure? && r.error.CompactionFailed?) ==>
              && ValidRounds(t.rounds)
              && forall k | 0 <= k < |t.rounds| :: ToolRound(env, k, t.replies[k], t.rounds[k])
  {
    hide RunSpec, KeptHistory, ValidRounds, Streamed, CallsAccepted, FirstProblem, OpenTurn, Sum, Reported, Concat;
    RunUsesPrepared(config, env, id, input, stream, before, after, r, t);
    if r.Success? {
      StreamedIsConcat(t.replies);
    }
  }

  /** How a run that gets to the model ends: with the failure of the last call, with its answer, with more calls than
      there are rounds, or with calls that cannot be run. */
  lemma LoopOutcome(config: Config, env: Environment, history: seq<Message>, input: string, stream: bool, t: Trace,
                    r: Result<ChatResult, RunError>)
    requires LoopTrace(config, env, history, input, t) && EndsWith(config, env, t, stream, r)
    ensures var last, full := t.replies[|t.rounds|], |t.rounds| == config.maxToolRounds;
            && (r == Failure(ModelFailed) <==> last == Broken)
            && (r.Success? <==> last.Reply? && last.result.calls == [])
            && (r == Failure(TooManyRounds) <==> last.Reply? && last.result.calls != [] && full)
            && (r.Failure? && r.error.InvalidCalls? <==>
                  last.Reply? && last.result.calls != [] && !full && !CallsAccepted(last.result.calls, env.validJson))
  {
    hide CallProblem, ToolRound, ValidRounds, OpenTurn, UsageSum, Streamed;
    if t.replies[|t.rounds|].Reply? {
      FirstProblemNone(t.replies[|t.rounds|].result.calls, 0, env.validJson);
    }
  }

  lemma UpdatedSession(store: Sessions, id: string, session: seq<Message>)
    ensures store[id := session] - {id} == store - {id} && SessionOf(store[id := session], id) == session
  {
  }

  lemma StoredSession(store: Sessions, id: string, stage: Stage)
    requires !stage.Abort?
    ensures Stored(store, id, stage) - {id} == store - {id}
    ensures SessionOf(Stored(store, id, stage), id) == After(stage, SessionOf(store, id))
  {
    if stage.Rewrite? {
      UpdatedSession(store, id, stage.history);
    }
  }

  /** One turn more on success; on failure the old history or what compaction made of it. No other
      session is touched. */
  lemma RunSessionEffect(config: Config, env: Environment, id: string, input: string, stream: bool,
                         before: Sessions, after: Sessions, r: Result<ChatResult, RunError>, t: Trace)
    requires RunSpec(config, env, id, input, stream, before, after, r, t)
    ensures after - {id} == before - {id}
    ensures r.Success? ==>
              && KeptHistory(config, env, id, input, before).Success?
              && ValidRounds(t.rounds) && |t.replies| > |t.rounds| && t.replies[|t.rounds|].Reply?
              && SessionOf(after, id) == KeptHistory(config, env, id, input, before).value
                   + TurnMessages(Turn(input, t.rounds, t.replies[|t.rounds|].result.content))
    ensures r.Failure? ==>
              || SessionOf(after, id) == SessionOf(before, id)
              || SessionOf(after, id)
                  == After(TokenStage(config, SessionOf(before, id), input, env.summarize), SessionOf(before, id))
              || (KeptHistory(config, env, id, input, before).Success?
                    && SessionOf(after, id) == KeptHistory(config, env, id, input, before).value)
  {
    hide TokenStage, LimitStage, TurnMessages, ValidRounds, SessionOf, Stored, After, CallsAccepted;
    var history := SessionOf(before, id);
    var one := TokenStage(config, history, input, env.summarize);
    if !one.Abort? {
      var stored := Stored(before, id, one);
      StoredSession(before, id, one);
      var two := LimitStage(config, After(one, history), env.summarize);
      if !two.Abort? {
        var rewritten := Stored(stored, id, two);
        StoredSession(stored, id, two);
        if r.Success? {
          var turn := Turn(input, t.rounds, t.replies[|t.rounds|].result.content);
          UpdatedSession(rewritten, id, SessionOf(rewritten, id) + TurnMessages(turn));
        }
      }
    }
  }

  lemma {:induction false} TracesAgree(config: Config, env: Environment, history: seq<Message>, input: string,
                                       t: Trace, t': Trace, n: nat)
    requires LoopTrace(config, env, history, input, t) && LoopTrace(config, env, history, input, t')
    requires n <= |t.rounds| && n <= |t'.rounds|
    ensures t.rounds[..n] == t'.rounds[..n] && t.replies[..n + 1] == t'.replies[..n + 1]
  {
    hide ToolRound, OpenTurn, ValidRound;
    if n > 0 {
      TracesAgree(config, env, history, input, t, t', n - 1);
      assert t.replies[n - 1] == t.replies[..n][n - 1] == t'.replies[..n][n - 1] == t'.replies[n - 1];
      SameRound(env, n - 1, t.replies[n - 1], t.rounds[n - 1], t'.rounds[n - 1]);
      assert t.rounds[..n] == t.rounds[..n - 1] + [t.rounds[n - 1]];
      assert t'.rounds[..n] == t'.rounds[..n - 1] + [t'.rounds[n - 1]];
    }
    assert t.replies[n] == t'.replies[n];
    assert t.replies[..n + 1] == t.replies[..n] + [t.replies[n]];
    assert t'.replies[..n + 1] == t'.replies[..n] + [t'.replies[n]];
  }

  lemma SameRound(env: Environment, k: nat, reply: Reply, a: Round, b: Round)
    requires ToolRound(env, k, reply, a) && ToolRound(env, k, reply, b)
    ensures a == b
  {
    assert a.outputs == b.outputs;
  }

  /** The reply of model call n makes the loop go on. */
  ghost predicate Continues(config: Config, env: Environment, n: nat, reply: Reply) {
    reply.Reply? && reply.result.calls != [] && n < config.maxToolRounds
        && CallsAccepted(reply.result.calls, env.validJson)
  }

  lemma EndStops(config: Config, env: Environment, t: Trace, stream: bool, r: Result<ChatResult, RunError>)
    requires |t.replies| == |t.rounds| + 1 && AllReplied(t.replies[..|t.rounds|]) && |t.rounds| <= config.maxToolRounds
    requires EndsWith(config, env, t, stream, r)
    ensures !Continues(config, env, |t.rounds|, t.replies[|t.rounds|])
  {
    hide UsageSum, Streamed, FirstProblem;
    if t.replies[|t.rounds|].Reply? {
      FirstProblemNone(t.replies[|t.rounds|].result.calls, 0, env.validJson);
    }
  }

  /** A loop never stops on a reply that would have caused another tool round. */
  lemma NoEarlyEnd(config: Config, env: Environment, history: seq<Message>, input: string, stream: bool,
                   t: Trace, r: Result<ChatResult, RunError>, t': Trace)
    requires LoopTrace(config, env, history, input, t) && EndsWith(config, env, t, stream, r)
    requires LoopTrace(config, env, history, input, t')
    ensures |t'.rounds| <= |t.rounds|
  {
    hide EndsWith, Continues;
    var n := |t.rounds|;
    if n < |t'.rounds| {
      TracesAgree(config, env, history, input, t, t', n);
      assert t.replies[n] == t.replies[..n + 1][n] == t'.replies[..n + 1][n] == t'.replies[n];
      RoundContinues(config, env, history, input, t', n);
      EndStops(config, env, t, stream, r);
    }
  }

  lemma RoundContinues(config: Config, env: Environment, history: seq<Message>, input: string, t: Trace, n: nat)
    requires LoopTrace(config, env, history, input, t) && n < |t.rounds|
    ensures Continues(config, env, n, t.replies[n])
  {
    assert ToolRound(env, n, t.replies[n], t.rounds[n]);
  }

  lemma LoopIsDeterministic(config: Config, env: Environment, history: seq<Message>, input: string, stream: bool,
                            t: Trace, r: Result<ChatResult, RunError>, t': Trace, r': Result<ChatResult, RunError>)
    requires LoopTrace(config, env, history, input, t) && EndsWith(config, env, t, stream, r)
    requires LoopTrace(config, env, history, input, t') && EndsWith(config, env, t', stream, r')
    ensures t == t' && r == r'
  {
    hide UsageSum, Streamed, FirstProblem, ToolRound, ValidRound, OpenTurn;
    NoEarlyEnd(config, env, history, input, stream, t, r, t');
    NoEarlyEnd(config, env, history, input, stream, t', r', t);
    TracesAgree(config, env, history, input, t, t', |t.rounds|);
    assert t.rounds[..|t.rounds|] == t.rounds && t'.rounds[..|t.rounds|] == t'.rounds;
    assert t.replies[..|t.replies|] == t.replies && t'.replies[..|t.replies|] == t'.replies;
  }

  /** The environment decides a run completely: result, trace and stored sessions. */
  lemma RunIsDeterministic(config: Config, env: Environment, id: string, input: string, stream: bool, before: Sessions,
                           after: Sessions, r: Result<ChatResult, RunError>, t: Trace,
                           after': Sessions, r': Result<ChatResult, RunError>, t': Trace)
    requires RunSpec(config, env, id, input, stream, before, after, r, t)
    requires RunSpec(config, env, id, input, stream, before, after', r', t')
    ensures r == r' && t == t' && after == after'
  {
    hide LoopTrace, EndsWith, TokenStage, LimitStage, TurnMessages, ValidRounds, KeptHistory;
    RunUsesPrepared(config, env, id, input, stream, before, after, r, t);
    RunUsesPrepared(config, env, id, input, stream, before, after', r', t');
    var kept := KeptHistory(config, env, id, input, before);
    if kept.Success? {
      LoopIsDeterministic(config, env, kept.value, input, stream, t, r, t', r');
    }
  }

  lemma StagesGoBack(config: Config, history: seq<Message>, input: string, summarize: Option<SummaryFunc>,
                     turns: seq<Turn>)
    requires GoesBackTo(history, turns)
    ensures var one := TokenStage(config, history, input, summarize);
            !one.Abort? ==>
              && GoesBackTo(After(one, history), turns)
              && var two := LimitStage(config, After(one, history), summarize);
              !two.Abort? ==> GoesBackTo(After(two, After(one, history)), turns)
  {
    hide Stands, TokenStage, LimitStage;
    var a :| Stands(history, a) && a.turns == turns;
    var one := TokenStage(config, history, input, summarize);
    if !one.Abort? {
      TokenStageMoves(config, history, a, input, summarize);
      if !LimitStage(config, After(one, history), summarize).Abort? {
        LimitStageMoves(config, After(one, history), Moved(a, history, one, summarize), summarize);
      }
    }
  }

  lemma GoesBackFacts(s: seq<Message>, turns: seq<Turn>, t: Turn)
    requires GoesBackTo(s, turns)
    ensures FromTurns(s, turns)
    ensures ValidRounds(t.rounds) ==> GoesBackTo(s + TurnMessages(t), turns + [t])
  {
    hide Stands, FromTurns, ValidRounds, TurnMessages;
    var a :| Stands(s, a) && a.turns == turns;
    StandsFromTurns(s, a);
    if ValidRounds(t.rounds) {
      StandsAppend(s, a, t);
    }
  }

  /** Every transcript the run sends has each tool call answered, and the first one fits the token budget unless a
      late summary was written. */
  ghost predicate SentSoundly(config: Config, history: seq<Message>, kept: seq<Message>, input: string,
                              rounds: seq<Round>)
    requires ValidRounds(rounds)
  {
    && (forall k | 0 <= k <= |rounds| :: Answered(kept + OpenTurn(input, rounds[..k])))
    && (config.tokenBudget > 0 && !LateSummary(config, history, input) ==>
          Tokens(kept + OpenTurn(input, [])) <= config.tokenBudget)
  }

  lemma PreparedSends(config: Config, history: seq<Message>, input: string, summarize: Option<SummaryFunc>,
                      turns: seq<Turn>, rounds: seq<Round>)
    requires GoesBackTo(history, turns) && ValidRounds(rounds)
    requires Prepared(config, history, input, summarize, summarize).Success?
    ensures var kept := Prepared(config, history, input, summarize, summarize).value;
            GoesBackTo(kept, turns) && SentSoundly(config, history, kept, input, rounds)
  {
    hide GoesBackTo, FromTurns, TokenStage, LimitStage, LateSummary, Answered, Tokens, OpenTurn;
    var kept := Prepared(config, history, input, summarize, summarize).value;
    StagesGoBack(config, history, input, summarize, turns);
    GoesBackFacts(kept, turns, Turn(input, [], ""));
    forall k | 0 <= k <= |rounds|
      ensures Answered(kept + OpenTurn(input, rounds[..k]))
    {
      SentAnswered(kept, turns, input, rounds[..k]);
    }
    if config.tokenBudget > 0 && !LateSummary(config, history, input) {
      NoLateSummaryFits(config, history, input, summarize, summarize);
      OpenTurnStart(input);
    }
  }

  /** A session that goes back to given turns still does after the run, plus the new turn on success, and
      everything the run sends is sound. */
  lemma RunKeepsSession(config: Config, env: Environment, id: string, input: string, stream: bool,
                        before: Sessions, after: Sessions, r: Result<ChatResult, RunError>, t: Trace, turns: seq<Turn>)
    requires RunSpec(config, env, id, input, stream, before, after, r, t)
    requires GoesBackTo(SessionOf(before, id), turns)
    ensures r.Failure? ==> GoesBackTo(SessionOf(after, id), turns)
    ensures r.Success? ==>
              && |t.replies| > |t.rounds| && t.replies[|t.rounds|].Reply?
              && GoesBackTo(SessionOf(after, id), turns + [Turn(input, t.rounds, t.replies[|t.rounds|].result.content)])
    ensures t.replies != [] ==>
              && KeptHistory(config, env, id, input, before).Success? && ValidRounds(t.rounds)
              && SentSoundly(config, SessionOf(before, id), KeptHistory(config, env, id, input, before).value, input,
                     t.rounds)
  {
    hide RunSpec, GoesBackTo, TokenStage, LimitStage, EndsWith, SentSoundly, TurnMessages, SessionOf, Prepared,
      ValidRound;
    var history := SessionOf(before, id);
    RunUsesPrepared(config, env, id, input, stream, before, after, r, t);
    RunSessionEffect(config, env, id, input, stream, before, after, r, t);
    StagesGoBack(config, history, input, env.summarize, turns);
    var prepared := KeptHistory(config, env, id, input, before);
    if prepared.Success? {
      PreparedSends(config, history, input, env.summarize, turns, t.rounds);
      if r.Success? {
        GoesBackFacts(prepared.value, turns, Turn(input, t.rounds, t.replies[|t.rounds|].result.content));
      }
    }
  }

  lemma OpenTurnStart(input: string)
    ensures OpenTurn(input, []) == [UserMessage(input)]
  {
  }

  lemma SentAnswered(kept: seq<Message>, turns: seq<Turn>, input: string, rounds: seq<Round>)
    requires FromTurns(kept, turns) && ValidRounds(rounds)
    ensures Answered(kept + OpenTurn(input, rounds))
  {
    SessionFacts(kept, turns);
    OpenTurnWellPaired(input, rounds);
    AnsweredConcat(kept, OpenTurn(input, rounds));
  }
}
