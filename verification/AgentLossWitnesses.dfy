/** Reachable worlds in which a finished turn is lost: one run overwrites what another appended, and runs that take
    turns trim a session behind its summary. */
module AgentLossWitnesses {
  import opened Messages
  import opened Results
  import opened Compaction
  import opened AgentHistory
  import opened MemoryStore
  import opened AgentRun
  import opened AgentProtocol

  // ----- Building behaviours

  const UNLIMITED := Config(0, 0, 1)
  const TWO_MESSAGES := Config(0, 2, 1)

  /** The world is reached without two runs of one of those sessions ever overlapping. */
  ghost predicate ReachedAlone(s: World, alone: set<string>) {
    exists states, steps ::
      && Behaviour(states, steps) && states[|steps|] == s
      && forall m | 0 <= m <= |steps| :: AllSerialised(states[m], alone)
  }

  ghost predicate AllSerialised(s: World, alone: set<string>) {
    forall id | id in alone :: Serialised(s, id)
  }

  ghost predicate Idle(s: World, id: string) {
    forall r | 0 <= r < |s.runs| && s.runs[r].id == id :: !Active(s.runs[r])
  }

  lemma InitialAlone(alone: set<string>)
    ensures ReachedAlone(INITIAL, alone) && Idle(INITIAL, "id")
  {
    var steps: seq<Step> := [];
    assert Behaviour([INITIAL], steps) && [INITIAL][|steps|] == INITIAL && AllSerialised(INITIAL, alone);
  }

  lemma StepAlone(s: World, step: Step, alone: set<string>)
    requires ReachedAlone(s, alone) && Enabled(s, step) && AllSerialised(Apply(s, step), alone)
    ensures ReachedAlone(Apply(s, step), alone)
  {
    hide Apply, Enabled, AllSerialised;
    var states, steps :| Behaviour(states, steps) && states[|steps|] == s
                         && forall m | 0 <= m <= |steps| :: AllSerialised(states[m], alone);
    var states', steps' := states + [Apply(s, step)], steps + [step];
    assert Behaviour(states', steps') && states'[|steps'|] == Apply(s, step);
  }

  lemma AloneReachable(s: World, alone: set<string>)
    requires ReachedAlone(s, alone)
    ensures Reachable(s) && AllSerialised(s, alone)
  {
    hide AllSerialised;
    var states, steps :| && Behaviour(states, steps) && states[|steps|] == s
                         && forall m | 0 <= m <= |steps| :: AllSerialised(states[m], alone);
  }

  /** A session whose earlier runs are all idle may have one more run. */
  lemma OneMoreSerialised(s: World, s': World, run: AgentProtocol.Run, alone: set<string>)
    requires AllSerialised(s, alone) && s'.runs == s.runs + [run] && (run.id in alone ==> Idle(s, run.id))
    ensures AllSerialised(s', alone)
  {
    forall id | id in alone
      ensures Serialised(s', id)
    {
      assert Serialised(s, id);
    }
  }

  /** World s is s0 with one more run, and possibly other stored sessions and history variables. */
  ghost predicate Joined(s0: World, s: World, run: AgentProtocol.Run, alone: set<string>) {
    && ReachedAlone(s, alone) && AllSerialised(s0, alone)
    && s.runs == s0.runs + [run]
    && (run.id in alone ==> Idle(s0, run.id))
  }

  lemma StepJoined(s0: World, s: World, run: AgentProtocol.Run, step: Step, phase: Phase, alone: set<string>)
    requires Joined(s0, s, run, alone) && Enabled(s, step)
    requires Apply(s, step).runs == s.runs[|s0.runs| := run.(phase := phase)]
    ensures Joined(s0, Apply(s, step), run.(phase := phase), alone)
  {
    hide Apply, Enabled, AllSerialised, Idle, ReachedAlone;
    var s' := Apply(s, step);
    assert s'.runs == s0.runs + [run.(phase := phase)];
    OneMoreSerialised(s0, s', run.(phase := phase), alone);
    StepAlone(s, step, alone);
  }

  /** A run without a token budget, up to its message limit. */
  lemma ListingRun(s: World, config: Config, id: string, input: string, alone: set<string>) returns (s': World)
    requires config.tokenBudget == 0 && ReachedAlone(s, alone) && (id in alone ==> Idle(s, id))
    ensures ReachedAlone(s', alone) && Joined(s, s', Run(config, id, input, Budgeted(SessionOf(s.store, id))), alone)
    ensures s' == s.(listings := s.listings[|s.runs| := Listing(SessionOf(s.store, id), AccountOf(s.accounts, id))],
                     runs := s.runs + [Run(config, id, input, Budgeted(SessionOf(s.store, id)))])
  {
    hide ReachedAlone, AllSerialised, SessionOf, AccountOf, Idle;
    var r, run, history := |s.runs|, Run(config, id, input, Started), SessionOf(s.store, id);
    AloneReachable(s, alone);
    s' := Apply(s, Start(config, id, input));
    OneMoreSerialised(s, s', run, alone);
    StepAlone(s, Start(config, id, input), alone);
    StepJoined(s, s', run, List(r), Listed(history), alone);
    s' := Apply(s', List(r));
    StepJoined(s, s', run.(phase := Listed(history)), ApplyBudget(r, None), Budgeted(history), alone);
    s' := Apply(s', ApplyBudget(r, None));
  }

  lemma JoinedEnds(s0: World, s: World, run: AgentProtocol.Run, alone: set<string>)
    requires Joined(s0, s, run, alone) && run.phase.Ended?
    ensures ReachedAlone(s, alone) && (Idle(s0, run.id) ==> Idle(s, run.id))
  {
    hide ReachedAlone, AllSerialised;
  }

  /** A run without limits whose model answers at once, from its start to its append. */
  lemma PlainRun(s: World, id: string, input: string, answer: string, alone: set<string>) returns (s': World)
    requires ReachedAlone(s, alone) && (id in alone ==> Idle(s, id))
    ensures ReachedAlone(s', alone) && (Idle(s, id) ==> Idle(s', id))
    ensures s' == s.(store := s.store[id := SessionOf(s.store, id) + TurnMessages(Turn(input, [], answer))],
                     log := s.log[id := LogOf(s.log, id) + [Turn(input, [], answer)]],
                     accounts := s.accounts[id := Extended(AccountOf(s.accounts, id), Turn(input, [], answer))],
                     listings := s.listings[|s.runs| := Listing(SessionOf(s.store, id), AccountOf(s.accounts, id))],
                     runs := s.runs + [Run(UNLIMITED, id, input, Ended(true))])
  {
    hide ReachedAlone, AllSerialised, TurnMessages, SessionOf, LogOf, AccountOf, Extended, Idle, Joined;
    var r, history, turn := |s.runs|, SessionOf(s.store, id), Turn(input, [], answer);
    var run := Run(UNLIMITED, id, input, Budgeted(history));
    var answered := Reply(ChatResult(answer, "", "", Usage(0, 0, 0), []), []);
    s' := ListingRun(s, UNLIMITED, id, input, alone);
    StepJoined(s, s', run, ApplyLimit(r, None), Calling(history, []), alone);
    s' := Apply(s', ApplyLimit(r, None));
    run := run.(phase := Calling(history, []));
    StepJoined(s, s', run, CallModel(r, answered, [], text => true), Appending(turn), alone);
    s' := Apply(s', CallModel(r, answered, [], text => true));
    run := run.(phase := Appending(turn));
    StepJoined(s, s', run, Append(r), Ended(true), alone);
    s' := Apply(s', Append(r));
    JoinedEnds(s, s', run.(phase := Ended(true)), alone);
  }

  /** A run whose message limit compacts the session, and whose model then fails. */
  lemma CompactingRun(s: World, id: string, summarize: Option<SummaryFunc>, compacted: seq<Message>,
                      alone: set<string>) returns (s': World)
    requires ReachedAlone(s, alone) && (id in alone ==> Idle(s, id))
    requires LimitStage(TWO_MESSAGES, SessionOf(s.store, id), summarize) == Rewrite(compacted)
    ensures ReachedAlone(s', alone) && (Idle(s, id) ==> Idle(s', id))
    ensures s'.store == s.store[id := compacted] && s'.log == s.log
    ensures AccountOf(s'.accounts, id)
              == Moved(AccountOf(s.accounts, id), SessionOf(s.store, id), Rewrite(compacted), summarize)
  {
    hide ReachedAlone, AllSerialised, LimitStage, SessionOf, Moved, Idle, Joined;
    var r, history := |s.runs|, SessionOf(s.store, id);
    var run := Run(TWO_MESSAGES, id, "", Budgeted(history));
    s' := ListingRun(s, TWO_MESSAGES, id, "", alone);
    StepJoined(s, s', run, ApplyLimit(r, summarize), ReplacingLimit(compacted), alone);
    s' := Apply(s', ApplyLimit(r, summarize));
    run := run.(phase := ReplacingLimit(compacted));
    StepJoined(s, s', run, ReplaceLimit(r), Calling(compacted, []), alone);
    s' := Apply(s', ReplaceLimit(r));
    run := run.(phase := Calling(compacted, []));
    StepJoined(s, s', run, CallModel(r, Broken, [], text => true), Ended(false), alone);
    s' := Apply(s', CallModel(r, Broken, [], text => true));
    JoinedEnds(s, s', run.(phase := Ended(false)), alone);
  }

  // ----- Two ways to lose a turn

  const ONE := Turn("one", [], "1")
  const TWO := Turn("two", [], "2")

  lemma OneTurnCompacts(gist: SummaryFunc, text: string)
    requires gist(TurnMessages(ONE)) == Some(text)
    ensures LimitStage(TWO_MESSAGES, TurnMessages(ONE), Some(gist)) == Rewrite([SummaryMessage(text)])
    ensures |TurnMessages(ONE)| == 2 && !Summarised(TurnMessages(ONE))
  {
    var first := TurnMessages(ONE);
    assert first == [UserMessage("one"), AssistantMessage("1", [])];
    assert first[0].role == User && CutOf(first, 1) == 2 && first[..2] == first && first[2..] == [];
  }

  lemma SecondTurnTrimmed(text: string)
    ensures var history := [SummaryMessage(text)] + TurnMessages(TWO);
            && |history| == 3 && Summarised(history)
            && LimitStage(TWO_MESSAGES, history, None) == Rewrite([SummaryMessage(text)])
  {
    var history := [SummaryMessage(text)] + TurnMessages(TWO);
    assert TurnMessages(TWO) == [UserMessage("two"), AssistantMessage("2", [])];
    assert history[3..] == [];
  }

  /** What a run about to apply its message limit does to its session, whatever has happened to it since. */
  lemma CompactsListing(s: World, r: nat, summarize: Option<SummaryFunc>, compacted: seq<Message>) returns (s': World)
    requires Reachable(s) && r < |s.runs| && s.runs[r].phase.Budgeted?
    requires LimitStage(s.runs[r].config, s.runs[r].phase.history, summarize) == Rewrite(compacted)
    ensures Reachable(s') && s'.log == s.log && s'.store == s.store[s.runs[r].id := compacted]
    ensures s'.accounts == s.accounts[s.runs[r].id :=
              Moved(ListingOf(s, r).account, s.runs[r].phase.history, Rewrite(compacted), summarize)]
  {
    hide Reachable, LimitStage, Moved;
    StepReachable(s, ApplyLimit(r, summarize));
    s' := Apply(s, ApplyLimit(r, summarize));
    StepReachable(s', ReplaceLimit(r));
    s' := Apply(s', ReplaceLimit(r));
  }

  /** Compaction writes back what its run listed. A turn another run finished in between is in the
      log but no longer in the session, not even through the summary. */
  lemma CompactionLosesConcurrentTurn(gist: SummaryFunc, text: string)
    requires gist(TurnMessages(ONE)) == Some(text)
    ensures exists s ::
              && Reachable(s)
              && LogOf(s.log, "id") == [ONE, TWO]
              && AccountOf(s.accounts, "id").turns == [ONE]
              && SessionOf(s.store, "id") == [SummaryMessage(text)]
  {
    hide Reachable, ReachedAlone, LimitStage, TurnMessages, SummaryMessage, Joined, AllSerialised, Idle, Summarised;
    InitialAlone({});
    var s := PlainRun(INITIAL, "id", "one", "1", {});
    assert SessionOf(s.store, "id") == [] + TurnMessages(ONE) == TurnMessages(ONE);
    s := ListingRun(s, TWO_MESSAGES, "id", "late", {});
    s := PlainRun(s, "id", "two", "2", {});
    assert LogOf(s.log, "id") == [ONE, TWO];
    OneTurnCompacts(gist, text);
    AloneReachable(s, {});
    s := CompactsListing(s, 1, Some(gist), [SummaryMessage(text)]);
  }

  /** Runs that never overlap lose turns as well: once a session starts with a summary, the next compaction drops
      what has come after it, and the summary stays the one of the first turn. */
  lemma CompactingTwiceLosesTurn(gist: SummaryFunc, text: string)
    requires gist(TurnMessages(ONE)) == Some(text)
    ensures exists s ::
              && ReachedAlone(s, {"id"})
              && LogOf(s.log, "id") == AccountOf(s.accounts, "id").turns == [ONE, TWO]
              && SessionOf(s.store, "id") == [SummaryMessage(text)]
              && AccountOf(s.accounts, "id").covered == |TurnMessages(ONE)|
              && !Complete(s, "id")
  {
    hide ReachedAlone, LimitStage, TurnMessages, Summarised, SummaryMessage, Idle;
    var alone := {"id"};
    InitialAlone(alone);
    OneTurnCompacts(gist, text);
    SecondTurnTrimmed(text);
    var s := PlainRun(INITIAL, "id", "one", "1", alone);
    assert SessionOf(s.store, "id") == [] + TurnMessages(ONE) == TurnMessages(ONE);
    s := CompactingRun(s, "id", Some(gist), [SummaryMessage(text)], alone);
    s := PlainRun(s, "id", "two", "2", alone);
    assert LogOf(s.log, "id") == [ONE, TWO];
    s := CompactingRun(s, "id", None, [SummaryMessage(text)], alone);
  }
}
