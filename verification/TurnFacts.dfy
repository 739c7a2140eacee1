/** What the messages of a stored turn and of a summary carry, one by one. */
module TurnFacts {
  import opened Messages

  /** How many messages the first k rounds take. */
  ghost function Length(rounds: seq<Round>, k: nat): nat
    requires k <= |rounds|
  {
    if k == 0 then 0 else Length(rounds, k - 1) + 1 + |rounds[k - 1].calls|
  }

  lemma {:induction false} RoundsLength(rounds: seq<Round>, k: nat)
    requires ValidRounds(rounds) && k <= |rounds|
    ensures |RoundsMessages(rounds[..k])| == Length(rounds, k)
    ensures k < |rounds| ==>
              RoundsMessages(rounds[..k + 1]) == RoundsMessages(rounds[..k]) + RoundMessages(rounds[k])
  {
    hide RoundMessages;
    if k > 0 {
      RoundsLength(rounds, k - 1);
      RoundLength(rounds[k - 1]);
    }
    if k < |rounds| {
      assert rounds[..k + 1][..k] == rounds[..k];
    }
  }

  lemma RoundLength(r: Round)
    requires |r.calls| == |r.outputs|
    ensures |RoundMessages(r)| == 1 + |r.calls|
    ensures RoundMessages(r)[0] == Message(Assistant, r.content, "", r.calls)
    ensures forall j | 0 <= j < |r.calls| ::
              RoundMessages(r)[1 + j] == Message(Tool, r.outputs[j], r.calls[j].id, [])
  {
  }

  lemma {:induction false} RoundsPrefix(rounds: seq<Round>, k: nat, n: nat)
    requires ValidRounds(rounds) && k <= n <= |rounds|
    ensures RoundsMessages(rounds[..k]) <= RoundsMessages(rounds[..n])
    decreases n
  {
    hide RoundMessages;
    if k < n {
      RoundsPrefix(rounds, k, n - 1);
      RoundsLength(rounds, n - 1);
    }
  }

  /** A turn is the input from the user, each round as a reply with its calls and one tool message per call that
      carries its ID and output, and the answer. */
  lemma TurnCarries(t: Turn)
    requires ValidRounds(t.rounds)
    ensures var s, n := TurnMessages(t), |t.rounds|;
            && |s| == 2 + Length(t.rounds, n)
            && s[0] == Message(User, t.input, "", [])
            && s[|s| - 1] == Message(Assistant, t.answer, "", [])
    ensures forall k | 0 <= k < |t.rounds| :: RoundAt(TurnMessages(t), 1 + Length(t.rounds, k), t.rounds[k])
  {
    hide RoundMessages, RoundsMessages, Length;
    var rounds, n := t.rounds, |t.rounds|;
    assert rounds[..n] == rounds;
    RoundsLength(rounds, n);
    forall k | 0 <= k < n
      ensures RoundAt(TurnMessages(t), 1 + Length(rounds, k), rounds[k])
    {
      RoundsLength(rounds, k);
      RoundsPrefix(rounds, k + 1, n);
      RoundLength(rounds[k]);
    }
  }

  ghost predicate RoundAt(s: seq<Message>, at: nat, r: Round) {
    && at + |r.calls| < |s| && |r.outputs| == |r.calls|
    && s[at] == Message(Assistant, r.content, "", r.calls)
    && forall j | 0 <= j < |r.calls| :: s[at + 1 + j] == Message(Tool, r.outputs[j], r.calls[j].id, [])
  }

  /** A summary is a system message under a fixed heading, and is told by just that. */
  lemma SummaryCarries(summary: string, m: Message)
    ensures SummaryMessage(summary) == Message(System, "Conversation summary:\n" + summary, "", [])
    ensures IsSummary(SummaryMessage(summary))
    ensures IsSummary(m) <==> m.role == System && exists text :: m.content == "Conversation summary:\n" + text
  {
    if IsSummary(m) {
      assert m.content == "Conversation summary:\n" + m.content[|"Conversation summary:\n"|..];
    }
  }
}
