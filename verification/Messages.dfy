/** Conversation messages, model results and finished turns, and the two structural facts a stored transcript
    can satisfy: every tool call is answered by exactly its results, and every tool result is backed by its
    call. */
module Messages {

  datatype Role = System | User | Assistant | Tool | Other(name: string)

  datatype ToolCall = ToolCall(id: string, kind: string, name: string, arguments: string)

  datatype Message = Message(role: Role, content: string, callId: string, calls: seq<ToolCall>)

  datatype Usage = Usage(prompt: int, completion: int, total: int)

  datatype ChatResult = ChatResult(content: string, model: string, finishReason: string,
                                   usage: Usage, calls: seq<ToolCall>)

  const SUMMARY_PREFIX := "Conversation summary:\n"

  function UserMessage(input: string): Message {
    Message(User, input, "", [])
  }

  function AssistantMessage(content: string, calls: seq<ToolCall>): Message {
    Message(Assistant, content, "", calls)
  }

  function ToolMessage(call: ToolCall, output: string): Message {
    Message(Tool, output, call.id, [])
  }

  function SummaryMessage(summary: string): Message {
    Message(System, SUMMARY_PREFIX + summary, "", [])
  }

  /** The test both compaction paths of the agent make on the head of the history. */
  predicate IsSummary(m: Message) {
    m.role == System && SUMMARY_PREFIX <= m.content
  }

  predicate Summarised(s: seq<Message>) {
    |s| > 0 && IsSummary(s[0])
  }

  // ----- Tool calls and their results

  predicate IsReply(m: Message, call: ToolCall) {
    m.role == Tool && m.callId == call.id
  }

  /** The calls of message i are answered by exactly the messages that follow it, in call order. */
  ghost predicate BlockAt(s: seq<Message>, i: nat)
    requires i < |s|
  {
    var n := |s[i].calls|;
    && i + n < |s|
    && (forall k | 0 <= k < n :: IsReply(s[i + 1 + k], s[i].calls[k]))
    && (i + 1 + n < |s| ==> s[i + 1 + n].role != Tool)
  }

  /** Each message with tool calls is followed at once by one tool message per call: same IDs, same order. */
  ghost predicate Answered(s: seq<Message>) {
    forall i | 0 <= i < |s| && s[i].calls != [] :: BlockAt(s, i)
  }

  ghost predicate RepliesTo(s: seq<Message>, j: nat, i: nat)
    requires j < i < |s|
  {
    i - j <= |s[j].calls| && IsReply(s[i], s[j].calls[i - j - 1])
  }

  ghost predicate BackedAt(s: seq<Message>, i: nat)
    requires i < |s|
  {
    exists j | 0 <= j < i :: RepliesTo(s, j, i)
  }

  /** Each tool result still has the message that carries its call. */
  ghost predicate Backed(s: seq<Message>) {
    forall i | 0 <= i < |s| && s[i].role == Tool :: BackedAt(s, i)
  }

  lemma AnsweredConcat(a: seq<Message>, b: seq<Message>)
    requires Answered(a) && Answered(b)
    requires b != [] ==> b[0].role != Tool
    ensures Answered(a + b)
  {
    var s := a + b;
    forall i | 0 <= i < |s| && s[i].calls != []
      ensures BlockAt(s, i)
    {
      if i < |a| {
        assert BlockAt(a, i);
      } else {
        assert BlockAt(b, i - |a|);
        var n := |s[i].calls|;
        forall k | 0 <= k < n
          ensures IsReply(s[i + 1 + k], s[i].calls[k])
        {
          assert s[i + 1 + k] == b[i - |a| + 1 + k];
        }
      }
    }
  }

  lemma BackedConcat(a: seq<Message>, b: seq<Message>)
    requires Backed(a) && Backed(b)
    ensures Backed(a + b)
  {
    var s := a + b;
    forall i | 0 <= i < |s| && s[i].role == Tool
      ensures BackedAt(s, i)
    {
      if i < |a| {
        assert BackedAt(a, i);
        var j :| 0 <= j < i && RepliesTo(a, j, i);
        assert RepliesTo(s, j, i);
      } else {
        assert BackedAt(b, i - |a|);
        var j :| 0 <= j < i - |a| && RepliesTo(b, j, i - |a|);
        assert RepliesTo(s, |a| + j, i);
      }
    }
  }

  /** Dropping any number of leading messages never leaves a call unanswered. */
  lemma AnsweredSuffix(s: seq<Message>, c: nat)
    requires Answered(s) && c <= |s|
    ensures Answered(s[c..])
  {
    var t := s[c..];
    forall i | 0 <= i < |t| && t[i].calls != []
      ensures BlockAt(t, i)
    {
      assert BlockAt(s, c + i);
      forall k | 0 <= k < |t[i].calls|
        ensures IsReply(t[i + 1 + k], t[i].calls[k])
      {
        assert t[i + 1 + k] == s[c + i + 1 + k];
      }
    }
  }

  lemma InsideBlock(s: seq<Message>, j: nat, c: nat)
    requires Answered(s) && j < c < |s| && c - j <= |s[j].calls|
    ensures s[c].role == Tool
  {
    assert BlockAt(s, j);
    assert IsReply(s[j + 1 + (c - j - 1)], s[j].calls[c - j - 1]);
  }

  lemma BackedHead(s: seq<Message>)
    requires Backed(s)
    ensures s != [] ==> s[0].role != Tool
  {
    if s != [] {
      assert !BackedAt(s, 0);
    }
  }

  /** A suffix keeps every tool result backed exactly when it does not start on one. */
  lemma BackedSuffix(s: seq<Message>, c: nat)
    requires Answered(s) && Backed(s) && c <= |s|
    ensures Backed(s[c..]) <==> (c < |s| ==> s[c].role != Tool)
  {
    var t := s[c..];
    if c < |s| && s[c].role == Tool {
      assert !BackedAt(t, 0);
    } else {
      forall i | 0 <= i < |t| && t[i].role == Tool
        ensures BackedAt(t, i)
      {
        assert BackedAt(s, c + i);
        var j :| 0 <= j < c + i && RepliesTo(s, j, c + i);
        if j < c {
          // c would lie inside the block of j, and the suffix start on a tool result
          InsideBlock(s, j, c);
          assert false;
        } else {
          assert RepliesTo(t, j - c, i);
        }
      }
    }
  }

  // ----- Turns

  /** One round of the agent loop that ended in tool calls, with the output recorded for each call. */
  datatype Round = Round(content: string, calls: seq<ToolCall>, outputs: seq<string>)

  /** One finished turn: the user input, the tool rounds, and the closing answer. */
  datatype Turn = Turn(input: string, rounds: seq<Round>, answer: string)

  ghost predicate ValidRound(r: Round) {
    && 0 < |r.calls| == |r.outputs|
    && (forall i | 0 <= i < |r.calls| :: r.calls[i].id != "")
    && (forall i, j | 0 <= i < j < |r.calls| :: r.calls[i].id != r.calls[j].id)
  }

  ghost predicate ValidRounds(rounds: seq<Round>) {
    forall k | 0 <= k < |rounds| :: ValidRound(rounds[k])
  }

  ghost predicate ValidTurns(turns: seq<Turn>) {
    forall k | 0 <= k < |turns| :: ValidRounds(turns[k].rounds)
  }

  ghost function RoundMessages(r: Round): seq<Message>
    requires |r.calls| == |r.outputs|
  {
    [AssistantMessage(r.content, r.calls)] +
    seq(|r.calls|, k requires 0 <= k < |r.calls| => ToolMessage(r.calls[k], r.outputs[k]))
  }

  ghost function RoundsMessages(rounds: seq<Round>): seq<Message>
    requires ValidRounds(rounds)
  {
    if rounds == [] then []
    else RoundsMessages(rounds[..|rounds| - 1]) + RoundMessages(rounds[|rounds| - 1])
  }

  /** The part of a turn already in the transcript while the loop is running. */
  ghost function OpenTurn(input: string, rounds: seq<Round>): seq<Message>
    requires ValidRounds(rounds)
  {
    [UserMessage(input)] + RoundsMessages(rounds)
  }

  ghost function TurnMessages(t: Turn): seq<Message>
    requires ValidRounds(t.rounds)
  {
    OpenTurn(t.input, t.rounds) + [AssistantMessage(t.answer, [])]
  }

  ghost function Flatten(turns: seq<Turn>): seq<Message>
    requires ValidTurns(turns)
  {
    if turns == [] then []
    else Flatten(turns[..|turns| - 1]) + TurnMessages(turns[|turns| - 1])
  }

  ghost predicate NoSystem(s: seq<Message>) {
    forall i | 0 <= i < |s| :: s[i].role != System
  }

  /** What every transcript built from whole rounds satisfies. */
  ghost predicate WellPaired(s: seq<Message>) {
    Answered(s) && Backed(s) && NoSystem(s)
  }

  lemma WellPairedConcat(a: seq<Message>, b: seq<Message>)
    requires WellPaired(a) && WellPaired(b)
    ensures WellPaired(a + b)
  {
    BackedHead(b);
    AnsweredConcat(a, b);
    BackedConcat(a, b);
  }

  lemma OpenTurnExtend(input: string, rounds: seq<Round>, next: Round)
    requires ValidRounds(rounds) && ValidRound(next)
    ensures ValidRounds(rounds + [next])
    ensures OpenTurn(input, rounds + [next]) == OpenTurn(input, rounds) + RoundMessages(next)
  {
    hide RoundMessages, ValidRound;
    assert (rounds + [next])[..|rounds|] == rounds;
  }

  lemma RoundWellPaired(r: Round)
    requires ValidRound(r)
    ensures WellPaired(RoundMessages(r)) && RoundMessages(r)[0].role == Assistant
  {
    var s := RoundMessages(r);
    assert BlockAt(s, 0);
    forall i | 0 <= i < |s| && s[i].role == Tool
      ensures BackedAt(s, i)
    {
      assert RepliesTo(s, 0, i);
    }
  }

  lemma {:induction false} RoundsWellPaired(rounds: seq<Round>)
    requires ValidRounds(rounds)
    ensures WellPaired(RoundsMessages(rounds))
  {
    if rounds != [] {
      var front := rounds[..|rounds| - 1];
      RoundsWellPaired(front);
      RoundWellPaired(rounds[|rounds| - 1]);
      WellPairedConcat(RoundsMessages(front), RoundMessages(rounds[|rounds| - 1]));
    }
  }

  lemma OpenTurnWellPaired(input: string, rounds: seq<Round>)
    requires ValidRounds(rounds)
    ensures WellPaired(OpenTurn(input, rounds)) && OpenTurn(input, rounds)[0].role == User
  {
    RoundsWellPaired(rounds);
    WellPairedConcat([UserMessage(input)], RoundsMessages(rounds));
  }

  lemma TurnWellPaired(t: Turn)
    requires ValidRounds(t.rounds)
    ensures WellPaired(TurnMessages(t)) && TurnMessages(t)[0].role == User
  {
    OpenTurnWellPaired(t.input, t.rounds);
    WellPairedConcat(OpenTurn(t.input, t.rounds), [AssistantMessage(t.answer, [])]);
  }

  /** Any sequence of finished turns is well paired, starts with a user message and ends with an answer. */
  lemma {:induction false} FlattenWellPaired(turns: seq<Turn>)
    requires ValidTurns(turns)
    ensures WellPaired(Flatten(turns))
    ensures turns == [] <==> Flatten(turns) == []
    ensures turns != [] ==>
              && Flatten(turns) != [] && Flatten(turns)[0].role == User
              && Flatten(turns)[|Flatten(turns)| - 1] == AssistantMessage(turns[|turns| - 1].answer, [])
  {
    if turns != [] {
      var front := turns[..|turns| - 1];
      FlattenWellPaired(front);
      TurnWellPaired(turns[|turns| - 1]);
      WellPairedConcat(Flatten(front), TurnMessages(turns[|turns| - 1]));
      if front == [] {
        assert Flatten(turns)[0] == TurnMessages(turns[0])[0];
      }
    }
  }

  lemma FlattenAppend(turns: seq<Turn>, t: Turn)
    requires ValidTurns(turns) && ValidRounds(t.rounds)
    ensures ValidTurns(turns + [t])
    ensures Flatten(turns + [t]) == Flatten(turns) + TurnMessages(t)
  {
    assert (turns + [t])[..|turns|] == turns;
  }

  // ----- Sessions

  ghost predicate ShapeBy(s: seq<Message>, turns: seq<Turn>, dropped: nat)
    requires ValidTurns(turns)
  {
    || s == Flatten(turns)
    || (Summarised(s) && s[0].calls == [] && dropped <= |Flatten(turns)| && s[1..] == Flatten(turns)[dropped..])
  }

  /** A session made of those turns: either exactly their messages, or one summary and a suffix of them. */
  ghost predicate FromTurns(s: seq<Message>, turns: seq<Turn>) {
    ValidTurns(turns) && exists dropped: nat :: ShapeBy(s, turns, dropped)
  }

  /** A summary put in front of any suffix of a session (its own summary aside) is a session of the same turns. */
  lemma SessionCompacted(s: seq<Message>, turns: seq<Turn>, summary: Message, kept: nat)
    requires FromTurns(s, turns) && IsSummary(summary) && summary.calls == []
    requires kept <= |s| && (Summarised(s) ==> 1 <= kept)
    ensures FromTurns([summary] + s[kept..], turns)
  {
    hide IsSummary, Flatten, ValidTurns;
    var dropped: nat :| ShapeBy(s, turns, dropped);
    var s' := [summary] + s[kept..];
    assert s'[1..] == s[kept..];
    if s == Flatten(turns) {
      assert ShapeBy(s', turns, kept);
    } else {
      assert s[kept..] == s[1..][kept - 1..];
      assert s[1..][kept - 1..] == Flatten(turns)[dropped + kept - 1..];
      assert ShapeBy(s', turns, dropped + kept - 1);
    }
  }

  lemma SummaryIsSystem(m: Message)
    ensures IsSummary(m) ==> m.role == System
  {
  }

  lemma NoSystemFacts(all: seq<Message>, dropped: nat)
    requires NoSystem(all)
    ensures forall i | 0 <= i < |all| :: all[i].role != System
    ensures dropped <= |all| ==> forall i | 0 <= i < |all| - dropped :: all[dropped..][i].role != System
  {
  }

  /** The facts that hold of every such session, however it was compacted. */
  lemma SessionFacts(s: seq<Message>, turns: seq<Turn>)
    requires FromTurns(s, turns)
    ensures Answered(s)
    ensures forall i | 1 <= i < |s| :: s[i].role != System
    ensures s != [] ==> s[|s| - 1].calls == [] && (s[|s| - 1].role == Assistant || (|s| == 1 && IsSummary(s[0])))
    ensures !Summarised(s) ==> s == Flatten(turns) && Backed(s) && (s != [] ==> s[0].role == User)
    ensures Summarised(s) ==> s[0].calls == [] && (Backed(s) <==> (|s| > 1 ==> s[1].role != Tool))
  {
    hide Answered, Backed, Flatten, ValidTurns, IsSummary, NoSystem;
    var dropped: nat :| ShapeBy(s, turns, dropped);
    var all := Flatten(turns);
    FlattenWellPaired(turns);
    NoSystemFacts(all, dropped);
    if s != [] {
      SummaryIsSystem(s[0]);
    }
    if s != all {
      AnsweredSuffix(all, dropped);
      BackedSuffix(all, dropped);
      HeadPairing(s[0], all[dropped..]);
      assert s == [s[0]] + all[dropped..];
    }
  }

  /** A head without calls or tool role neither helps nor hurts the pairing of what follows it. */
  lemma HeadPairing(head: Message, rest: seq<Message>)
    requires head.calls == [] && head.role != Tool && Answered(rest)
    ensures Answered([head] + rest)
    ensures Backed([head] + rest) <==> Backed(rest)
  {
    var s := [head] + rest;
    forall i | 0 <= i < |s| && s[i].calls != []
      ensures BlockAt(s, i)
    {
      assert BlockAt(rest, i - 1);
      forall k | 0 <= k < |s[i].calls|
        ensures IsReply(s[i + 1 + k], s[i].calls[k])
      {
        assert s[i + 1 + k] == rest[i + k];
      }
    }
    if Backed(rest) {
      BackedConcat([head], rest);
    }
    if Backed(s) {
      forall i | 0 <= i < |rest| && rest[i].role == Tool
        ensures BackedAt(rest, i)
      {
        assert BackedAt(s, i + 1);
        var j :| 0 <= j < i + 1 && RepliesTo(s, j, i + 1);
        assert RepliesTo(rest, j - 1, i);
      }
    }
  }
}
