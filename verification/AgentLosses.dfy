/** When turns are lost unseen: in a stale replacement, or one by a history trimmed behind an earlier summary. */
module AgentLosses {
  import opened Messages
  import opened Compaction
  import opened AgentHistory
  import opened MemoryStore
  import opened AgentProtocol
  import opened AgentInvariant
  import opened AgentAccounts

  // ----- Replacements that lose something

  /** Step j replaces the session by what its run made of an earlier listing, and somebody appended between. */
  ghost predicate Stale(states: seq<World>, steps: seq<Step>, j: nat, id: string)
    requires |states| == |steps| + 1 && j < |steps|
  {
    && Replaces(states[j], steps[j], id)
    && exists i, k | 0 <= i < k < j :: steps[i] == List(steps[j].r) && Appends(states[k], steps[k], id)
  }

  /** Step j replaces the session by a history that its run has trimmed behind a summary. */
  ghost predicate Discards(states: seq<World>, steps: seq<Step>, j: nat, id: string)
    requires |states| == |steps| + 1 && j < |steps|
  {
    && Replaces(states[j], steps[j], id)
    && exists k | 0 <= k < j :: Trims(states[k], steps[k], steps[j].r)
  }

  ghost predicate SummaryOf(session: seq<Message>, all: seq<Message>, cut: nat, summarize: SummaryFunc) {
    && cut <= |all|
    && summarize(all[..cut]).Some?
    && session == [SummaryMessage(summarize(all[..cut]).value)] + all[cut..]
  }

  /** A complete session is the messages of its log, or a summary of some of them followed by all others. */
  lemma CompleteSession(s: World, id: string)
    requires Reachable(s) && Complete(s, id)
    ensures ValidTurns(LogOf(s.log, id))
    ensures var session, all := SessionOf(s.store, id), Flatten(LogOf(s.log, id));
            session == all || exists cut, summarize :: SummaryOf(session, all, cut, summarize)
  {
    hide Reachable, Flatten, ValidTurns, IsSummary, SessionOf;
    StoredSessionsAnswered(s, id);
    var session, account := SessionOf(s.store, id), AccountOf(s.accounts, id);
    if Summarised(session) {
      assert session == [session[0]] + session[1..];
      assert SummaryOf(session, Flatten(account.turns), account.covered, account.summarizer.value);
    }
  }

  lemma {:induction false} CompleteUnless(states: seq<World>, steps: seq<Step>, n: nat, id: string)
    requires Behaviour(states, steps) && n < |states|
    requires forall j | 0 <= j < n :: !Stale(states, steps, j, id) && !Discards(states, steps, j, id)
    ensures forall m | 0 <= m <= n :: Complete(states[m], id)
  {
    hide Enabled, Apply, Invariant, Appends, ListingOf, Trims;
    if n > 0 {
      var j := n - 1;
      CompleteUnless(states, steps, j, id);
      InvariantAlways(states, steps, j);
      StepHistory(states[j], steps[j], id);
      assert !Stale(states, steps, j, id) && !Discards(states, steps, j, id);
      if Replaces(states[j], steps[j], id) {
        OtherSteps(states[j], steps[j], id);
        var i := ListedAt(states, steps, j, steps[j].r);
        ListingStays(states, steps, i, j, steps[j].r);
        assert Complete(states[i], id);
        OtherSteps(states[i], steps[i], id);
        LogGrows(states, steps, i, j, id);
      }
    }
  }

  /** A listing appends nothing, nor does a replacement, which only a run past its start makes. */
  lemma OtherSteps(s: World, step: Step, id: string)
    ensures step.List? || Replaces(s, step, id) ==> !Appends(s, step, id)
    ensures Enabled(s, step) && Replaces(s, step, id) ==>
              !s.runs[step.r].phase.Started? && !s.runs[step.r].phase.Ended?
  {
  }

  lemma StaleLoses(states: seq<World>, steps: seq<Step>, j: nat, id: string)
    requires Behaviour(states, steps) && j < |steps| && Stale(states, steps, j, id)
    requires forall m | 0 <= m <= j :: Complete(states[m], id)
    ensures !Complete(states[j + 1], id)
  {
    hide Enabled, Apply, Invariant, Appends, ListingOf, Trims, Lossless;
    var i, k :| 0 <= i < k < j && steps[i] == List(steps[j].r) && Appends(states[k], steps[k], id);
    assert Enabled(states[j], steps[j]) && Enabled(states[k], steps[k]);
    InvariantAlways(states, steps, j);
    InvariantAlways(states, steps, k);
    StepHistory(states[j], steps[j], id);
    StepHistory(states[k], steps[k], id);
    OtherSteps(states[j], steps[j], id);
    ListingStays(states, steps, i, j, steps[j].r);
    LogGrows(states, steps, i, k, id);
    LogGrows(states, steps, k + 1, j, id);
    assert Complete(states[i], id);
  }

  lemma DiscardLoses(states: seq<World>, steps: seq<Step>, j: nat, id: string)
    requires Behaviour(states, steps) && j < |steps| && Discards(states, steps, j, id)
    ensures !Complete(states[j + 1], id)
  {
    hide Enabled, Apply, Invariant, Appends, ListingOf, Trims, Lossless;
    var k :| 0 <= k < j && Trims(states[k], steps[k], steps[j].r);
    assert Enabled(states[j], steps[j]);
    InvariantAlways(states, steps, j);
    StepHistory(states[j], steps[j], id);
    OtherSteps(states[j], steps[j], id);
    TrimStays(states, steps, k, j, steps[j].r);
  }

  /** Up to any point of any behaviour, no message of a turn appended to a session is lost unseen at any moment if
      and only if no run has replaced the session after an append that came between the run's listing and the
      replacement, nor by a history that it had trimmed behind an earlier summary. */
  lemma NothingLostIff(states: seq<World>, steps: seq<Step>, n: nat, id: string)
    requires Behaviour(states, steps) && n < |states|
    ensures (forall m | 0 <= m <= n :: Complete(states[m], id)) <==>
              (forall j | 0 <= j < n :: !Stale(states, steps, j, id) && !Discards(states, steps, j, id))
  {
    hide Enabled, Apply, Stale, Discards, Complete;
    if forall j | 0 <= j < n :: !Stale(states, steps, j, id) && !Discards(states, steps, j, id) {
      CompleteUnless(states, steps, n, id);
    } else {
      var j: nat :| j < n && (Stale(states, steps, j, id) || Discards(states, steps, j, id));
      if forall m | 0 <= m <= n :: Complete(states[m], id) {
        if Stale(states, steps, j, id) {
          StaleLoses(states, steps, j, id);
        } else {
          DiscardLoses(states, steps, j, id);
        }
      }
    }
  }

  // ----- Runs that take turns

  /** So a caller that lets the runs of a session take turns loses nothing exactly if none of them stores a history
      it has trimmed. */
  lemma SerialisedLosesIff(states: seq<World>, steps: seq<Step>, n: nat, id: string)
    requires Behaviour(states, steps) && n < |states|
    requires forall m | 0 <= m < n :: Serialised(states[m], id)
    ensures (forall m | 0 <= m <= n :: Complete(states[m], id)) <==>
              (forall j | 0 <= j < n :: !Discards(states, steps, j, id))
  {
    hide Enabled, Apply, Stale, Discards, Complete, Serialised;
    forall j | 0 <= j < n
      ensures !Stale(states, steps, j, id)
    {
      if Stale(states, steps, j, id) {
        StaleOverlaps(states, steps, j, id);
      }
    }
    NothingLostIff(states, steps, n, id);
  }

  lemma StaleOverlaps(states: seq<World>, steps: seq<Step>, j: nat, id: string)
    requires Behaviour(states, steps) && j < |steps| && Stale(states, steps, j, id)
    ensures exists k :: 0 <= k < j && !Serialised(states[k], id)
  {
    hide Apply, ListingOf, LogOf, AccountOf, Invariant, Trims, Lossless;
    var i, k :| 0 <= i < k < j && steps[i] == List(steps[j].r) && Appends(states[k], steps[k], id);
    var q, r := steps[k].r, steps[j].r;
    assert Enabled(states[j], steps[j]) && Enabled(states[k], steps[k]);
    ListingStays(states, steps, i, k, r);
    ListingStays(states, steps, i, j, r);
    if states[k].runs[r].phase.Ended? {
      EndedStays(states, steps, k, j, r);
    }
    if q == r {
      InvariantAlways(states, steps, k);
      AppendEnds(states[k], steps[k]);
      EndedStays(states, steps, k + 1, j, r);
    }
    assert Active(states[k].runs[q]) && Active(states[k].runs[r]);
    assert !Serialised(states[k], id);
  }

  lemma AppendEnds(s: World, step: Step)
    requires Invariant(s) && Enabled(s, step) && step.Append?
    ensures step.r < |Apply(s, step).runs| && Apply(s, step).runs[step.r].phase.Ended?
  {
    hide TurnMessages, Invariant;
    RunHolds(s, step.r);
  }
}
