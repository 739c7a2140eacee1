/** Model of internal/memory/compact.go: the token estimate and the two compaction entry points. */
module Compaction {
  import opened Messages
  import opened Results

  /** A summarizer maps the messages it is given to a text, or fails. None stands for a nil summarizer. */
  type SummaryFunc = seq<Message> -> Option<string>

  datatype CompactError =
    | SummarizerMissing
    | SummarizeFailed
    | BudgetNotPositive
    | UnableToFit
    | SummaryExceedsBudget
    | LimitTooSmall

  type History = Result<seq<Message>, CompactError>

  // ----- Token estimate

  ghost function CallChars(calls: seq<ToolCall>): nat {
    if calls == [] then 0
    else
      var last := calls[|calls| - 1];
      CallChars(calls[..|calls| - 1]) + |last.id| + |last.name| + |last.arguments|
  }

  ghost function MessageTokens(m: Message): nat {
    4 + (|m.content| + |m.callId| + CallChars(m.calls) + 3) / 4
  }

  ghost function Tokens(s: seq<Message>): nat {
    if s == [] then 0 else Tokens(s[..|s| - 1]) + MessageTokens(s[|s| - 1])
  }

  method EstimateTokens(messages: seq<Message>) returns (total: nat)
    ensures total == Tokens(messages)
  {
    total := 0;
    for n := 0 to |messages|
      invariant total == Tokens(messages[..n])
    {
      var message := messages[n];
      var chars := |message.content| + |message.callId|;
      for k := 0 to |message.calls|
        invariant chars == |message.content| + |message.callId| + CallChars(message.calls[..k])
      {
        var call := message.calls[k];
        chars := chars + |call.id| + |call.name| + |call.arguments|;
        assert message.calls[..k + 1][..k] == message.calls[..k];
      }
      assert message.calls[..|message.calls|] == message.calls;
      total := total + 4 + (chars + 3) / 4;
      assert messages[..n + 1][..n] == messages[..n];
    }
    assert messages[..|messages|] == messages;
  }

  /** The estimate of a transcript is the sum of the estimates of its parts. */
  lemma {:induction false} TokensConcat(a: seq<Message>, b: seq<Message>)
    ensures Tokens(a + b) == Tokens(a) + Tokens(b)
    decreases |b|
  {
    if b == [] {
      assert a + b == a;
    } else {
      TokensConcat(a, b[..|b| - 1]);
      assert (a + b)[..|a + b| - 1] == a + b[..|b| - 1];
    }
  }

  lemma TokensSingle(m: Message)
    ensures Tokens([m]) == MessageTokens(m) >= 4
  {
    assert [m][..0] == [];
  }

  /** Every message costs at least four tokens, so dropping messages strictly lowers the estimate. */
  lemma {:induction false} TokensPositive(s: seq<Message>)
    ensures Tokens(s) >= 4 * |s|
  {
    if s != [] {
      TokensPositive(s[..|s| - 1]);
    }
  }

  // ----- Compact

  /** The cut the retreat loop settles on: everything it walked back over is a tool result. */
  ghost predicate IsCut(s: seq<Message>, start: nat, cut: nat)
    requires start <= |s|
  {
    && cut <= start
    && (forall i | cut < i <= start && i < |s| :: s[i].role == Tool)
    && (0 < cut < |s| ==> s[cut].role != Tool)
    && (start == |s| ==> cut == |s|)
  }

  ghost function Retreat(s: seq<Message>, start: nat): (cut: nat)
    requires start <= |s|
    ensures IsCut(s, start, cut)
  {
    if 0 < start < |s| && s[start].role == Tool then Retreat(s, start - 1) else start
  }

  lemma CutIsUnique(s: seq<Message>, start: nat, a: nat, b: nat)
    requires start <= |s| && IsCut(s, start, a) && IsCut(s, start, b)
    ensures a == b
  {
    var high := if a < b then b else a;
    assert 0 < high < |s| ==> s[high].role != Tool;
  }

  predicate NeedsCompaction(messages: seq<Message>, limit: int) {
    0 < limit < |messages|
  }

  ghost function CutOf(messages: seq<Message>, limit: int): (cut: nat)
    requires NeedsCompaction(messages, limit)
  {
    Retreat(messages, |messages| - limit + 1)
  }

  ghost function Compacted(messages: seq<Message>, limit: int, summarize: Option<SummaryFunc>): History {
    if !NeedsCompaction(messages, limit) then Success(messages)
    else if summarize.None? then Failure(SummarizerMissing)
    else
      var cut := CutOf(messages, limit);
      match summarize.value(messages[..cut])
      case None => Failure(SummarizeFailed)
      case Some(text) => Success([SummaryMessage(text)] + messages[cut..])
  }

  method Compact(messages: seq<Message>, limit: int, summarize: Option<SummaryFunc>) returns (r: History)
    ensures r == Compacted(messages, limit, summarize)
  {
    if limit <= 0 || |messages| <= limit {
      return Success(messages);
    }
    if summarize.None? {
      return Failure(SummarizerMissing);
    }
    var cut := |messages| - limit + 1;
    if cut < 1 {
      cut := 1;
    }
    while 0 < cut < |messages| && messages[cut].role == Tool
      invariant 0 <= cut <= |messages|
      invariant Retreat(messages, cut) == CutOf(messages, limit)
      decreases cut
    {
      cut := cut - 1;
    }
    var summary := summarize.value(messages[..cut]);
    if summary.None? {
      return Failure(SummarizeFailed);
    }
    r := Success([SummaryMessage(summary.value)] + messages[cut..]);
  }

  /** The retreat goes down to message 0, which it never tests, over tool results only. */
  predicate RunsOut(messages: seq<Message>, limit: int)
    requires NeedsCompaction(messages, limit)
  {
    limit > 1 && forall i | 1 <= i <= |messages| - limit + 1 :: messages[i].role == Tool
  }

  lemma CutRunsOut(messages: seq<Message>, limit: int)
    requires NeedsCompaction(messages, limit)
    ensures CutOf(messages, limit) == 0 <==> RunsOut(messages, limit)
  {
    assert IsCut(messages, |messages| - limit + 1, CutOf(messages, limit));
  }

  /** The result has exactly `limit` messages plus one for each step of the retreat, and outgrows
      its input exactly when the retreat runs out of messages. */
  lemma CompactLength(messages: seq<Message>, limit: int, summarize: Option<SummaryFunc>)
    requires NeedsCompaction(messages, limit) && Compacted(messages, limit, summarize).Success?
    ensures var size := |Compacted(messages, limit, summarize).value|;
            && size == limit + (|messages| - limit + 1 - CutOf(messages, limit))
            && (size > |messages| <==> RunsOut(messages, limit))
  {
    CutRunsOut(messages, limit);
  }

  /** On a paired transcript the cut is the latest one, no later than the limit asks for, that
      leaves every retained tool result with its call. */
  lemma CompactCutIsBest(messages: seq<Message>, limit: int)
    requires NeedsCompaction(messages, limit) && Answered(messages) && Backed(messages)
    ensures var cut := CutOf(messages, limit);
            && Answered(messages[cut..]) && Backed(messages[cut..])
            && (forall c | cut < c <= |messages| - limit + 1 :: !Backed(messages[c..]))
            && (messages[0].calls == [] ==> 1 <= cut)
  {
    var start := |messages| - limit + 1;
    var cut := CutOf(messages, limit);
    BackedHead(messages);
    AnsweredSuffix(messages, cut);
    BackedSuffix(messages, cut);
    forall c | cut < c <= start
      ensures !Backed(messages[c..])
    {
      BackedSuffix(messages, c);
    }
    if cut == 0 {
      assert messages[1].role == Tool;
      assert BackedAt(messages, 1);
      assert RepliesTo(messages, 0, 1);
    }
  }

  /** On finished turns, then, compaction always shortens from the front and pairs up completely. */
  lemma CompactTurns(turns: seq<Turn>, limit: int, summarize: Option<SummaryFunc>)
    requires ValidTurns(turns) && NeedsCompaction(Flatten(turns), limit)
    requires Compacted(Flatten(turns), limit, summarize).Success?
    ensures var r := Compacted(Flatten(turns), limit, summarize).value;
            && 1 <= CutOf(Flatten(turns), limit)
            && limit <= |r| <= |Flatten(turns)|
            && Answered(r) && Backed(r)
  {
    var messages := Flatten(turns);
    var cut := CutOf(messages, limit);
    FlattenWellPaired(turns);
    FirstMessage(turns);
    CompactCutIsBest(messages, limit);
    var r := Compacted(messages, limit, summarize).value;
    HeadPairing(r[0], messages[cut..]);
  }

  lemma {:induction false} FirstMessage(turns: seq<Turn>)
    requires ValidTurns(turns) && turns != []
    ensures Flatten(turns) != [] && Flatten(turns)[0] == UserMessage(turns[0].input)
  {
    if |turns| > 1 {
      FirstMessage(turns[..|turns| - 1]);
    } else {
      assert Flatten(turns[..0]) == [];
    }
  }

  /** A transcript that opens on an assistant message with calls can grow: the retreat stops at 0,
      an empty prefix is summarized, and nothing is dropped. */
  lemma CompactCanGrow(c: ToolCall, d: ToolCall, summarize: SummaryFunc)
    requires summarize([]).Some?
    ensures var s := [AssistantMessage("", [c, d]), ToolMessage(c, "1"), ToolMessage(d, "2")];
            && Answered(s) && Backed(s)
            && Compacted(s, 2, Some(summarize)) == Success([SummaryMessage(summarize([]).value)] + s)
  {
    var s := [AssistantMessage("", [c, d]), ToolMessage(c, "1"), ToolMessage(d, "2")];
    assert BlockAt(s, 0);
    assert RepliesTo(s, 0, 1) && RepliesTo(s, 0, 2);
    CutRunsOut(s, 2);
    assert s[..0] == [] && s[0..] == s;
  }

  // ----- Token budget

  ghost function CompactedToBudget(messages: seq<Message>, budget: int, summarize: Option<SummaryFunc>): History {
    if budget <= 0 then Failure(BudgetNotPositive)
    else if Tokens(messages) <= budget then Success(messages)
    else if summarize.None? then Failure(SummarizerMissing)
    else if |messages| <= 1 then Failure(UnableToFit)
    else
      match summarize.value(messages[..|messages| - 1])
      case None => Failure(SummarizeFailed)
      case Some(text) =>
        var result := [SummaryMessage(text), messages[|messages| - 1]];
        if Tokens(result) <= budget then Success(result) else Failure(UnableToFit)
  }

  method CompactToTokenBudget(messages: seq<Message>, budget: int, summarize: Option<SummaryFunc>)
    returns (r: History)
    ensures r == CompactedToBudget(messages, budget, summarize)
    ensures r.Success? ==> Tokens(r.value) <= budget
  {
    if budget <= 0 {
      return Failure(BudgetNotPositive);
    }
    var estimate := EstimateTokens(messages);
    if estimate <= budget {
      return Success(messages);
    }
    if summarize.None? {
      return Failure(SummarizerMissing);
    }
    if |messages| > 1 {
      var summary := summarize.value(messages[..|messages| - 1]);
      if summary.None? {
        return Failure(SummarizeFailed);
      }
      var result := [SummaryMessage(summary.value), messages[|messages| - 1]];
      estimate := EstimateTokens(result);
      if estimate <= budget {
        return Success(result);
      }
    }
    return Failure(UnableToFit);
  }
}
