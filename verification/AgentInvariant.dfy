/** What every behaviour of the protocol keeps, and what follows in every reachable world. */
module AgentInvariant {
  import opened Messages
  import opened Results
  import opened Compaction
  import opened AgentHistory
  import opened MemoryStore
  import opened AgentRun
  import opened AgentProtocol

  // ----- What every behaviour keeps

  /** a is b with some elements left out. */
  ghost predicate Subsequence<T>(a: seq<T>, b: seq<T>) {
    a == [] ||
    (b != [] && (
       || (a[|a| - 1] == b[|b| - 1] && Subsequence(a[..|a| - 1], b[..|b| - 1]))
       || Subsequence(a, b[..|b| - 1])))
  }

  /** The messages are what their account says, and the turns they go back to were all appended. */
  ghost predicate MadeOf(s: seq<Message>, account: Account, log: seq<Turn>) {
    Stands(s, account) && Subsequence(account.turns, log)
  }

  ghost predicate PhaseInvariant(run: Run, account: Account, log: seq<Turn>) {
    match run.phase
    case Started => true
    case Ended(_) => true
    case Calling(history, rounds) =>
      MadeOf(history, account, log) && ValidRounds(rounds) && |rounds| <= run.config.maxToolRounds
    case Appending(turn) => ValidRounds(turn.rounds) && turn.input == run.input
    case Listed(history) => MadeOf(history, account, log)
    case ReplacingTokens(history) => MadeOf(history, account, log)
    case Budgeted(history) => MadeOf(history, account, log)
    case ReplacingLimit(history) => MadeOf(history, account, log)
  }

  ghost predicate SessionInvariant(s: World, id: string) {
    && ValidTurns(LogOf(s.log, id))
    && MadeOf(SessionOf(s.store, id), AccountOf(s.accounts, id), LogOf(s.log, id))
    && (id !in s.replaced ==> SessionOf(s.store, id) == Flatten(LogOf(s.log, id)))
  }

  ghost predicate RunInvariant(s: World, r: nat)
    requires r < |s.runs|
  {
    PhaseInvariant(s.runs[r], ListingOf(s, r).account, LogOf(s.log, s.runs[r].id))
  }

  ghost predicate Invariant(s: World) {
    && (forall id :: SessionInvariant(s, id))
    && (forall r | 0 <= r < |s.runs| :: RunInvariant(s, r))
  }

  lemma SubsequenceAppend<T>(a: seq<T>, b: seq<T>, t: T)
    requires Subsequence(a, b)
    ensures Subsequence(a, b + [t]) && Subsequence(a + [t], b + [t])
  {
    assert (b + [t])[..|b|] == b && (a + [t])[..|a|] == a;
  }

  lemma MadeOfAppend(s: seq<Message>, account: Account, log: seq<Turn>, t: Turn)
    requires MadeOf(s, account, log) && ValidRounds(t.rounds)
    ensures MadeOf(s, account, log + [t]) && MadeOf(s + TurnMessages(t), Extended(account, t), log + [t])
  {
    hide Stands, Subsequence, TurnMessages, ValidRounds;
    SubsequenceAppend(account.turns, log, t);
    StandsAppend(s, account, t);
  }

  lemma BudgetPhase(run: Run, history: seq<Message>, summarize: Option<SummaryFunc>, account: Account,
                    log: seq<Turn>)
    requires MadeOf(history, account, log)
    ensures PhaseInvariant(run.(phase := AfterBudget(run, history, summarize)),
              Moved(account, history, TokenStage(run.config, history, run.input, summarize), summarize), log)
  {
    hide Stands, Subsequence, TokenStage;
    if !TokenStage(run.config, history, run.input, summarize).Abort? {
      TokenStageMoves(run.config, history, account, run.input, summarize);
    }
  }

  lemma LimitPhase(run: Run, history: seq<Message>, summarize: Option<SummaryFunc>, account: Account, log: seq<Turn>)
    requires MadeOf(history, account, log)
    ensures PhaseInvariant(run.(phase := AfterLimit(run, history, summarize)),
              Moved(account, history, LimitStage(run.config, history, summarize), summarize), log)
  {
    hide Stands, Subsequence, LimitStage;
    if !LimitStage(run.config, history, summarize).Abort? {
      LimitStageMoves(run.config, history, account, summarize);
    }
  }

  lemma ReplyPhase(run: Run, history: seq<Message>, rounds: seq<Round>, reply: Reply, outputs: seq<string>,
                   validJson: string -> bool, account: Account, log: seq<Turn>)
    requires MadeOf(history, account, log) && ValidRounds(rounds) && |rounds| <= run.config.maxToolRounds
    requires reply.Reply? ==> |outputs| == |reply.result.calls|
    ensures PhaseInvariant(run.(phase := AfterReply(run, history, rounds, reply, outputs, validJson)), account, log)
  {
    hide MadeOf, CallsAccepted;
    if reply.Reply? && CallsAccepted(reply.result.calls, validJson) {
      AcceptedCallsDistinct(reply.result.calls, validJson);
    }
  }

  lemma InvariantInitial()
    ensures Invariant(INITIAL)
  {
    forall id
      ensures SessionInvariant(INITIAL, id)
    {
      assert Stands([], NO_TURNS) && Subsequence<Turn>([], []);
    }
  }

  /** Replacing one run's phase keeps the invariant if the new phase satisfies its own. */
  lemma InvariantSetPhase(s: World, r: nat, phase: Phase)
    requires Invariant(s) && r < |s.runs|
    requires PhaseInvariant(s.runs[r].(phase := phase), ListingOf(s, r).account, LogOf(s.log, s.runs[r].id))
    ensures Invariant(SetPhase(s, r, phase))
  {
    hide PhaseInvariant, MadeOf;
    var s' := SetPhase(s, r, phase);
    forall id
      ensures SessionInvariant(s', id)
    {
      assert SessionInvariant(s, id);
    }
    forall q | 0 <= q < |s'.runs|
      ensures RunInvariant(s', q)
    {
      assert RunInvariant(s, q);
    }
  }

  /** So does a stage that moves the account of its run. */
  lemma InvariantMoves(s: World, r: nat, phase: Phase, account: Account)
    requires Invariant(s) && r < |s.runs|
    requires PhaseInvariant(s.runs[r].(phase := phase), account, LogOf(s.log, s.runs[r].id))
    ensures Invariant(Moves(s, r, phase, account))
  {
    hide PhaseInvariant, MadeOf;
    var s' := Moves(s, r, phase, account);
    forall id
      ensures SessionInvariant(s', id)
    {
      assert SessionInvariant(s, id);
    }
    forall q | 0 <= q < |s'.runs|
      ensures RunInvariant(s', q)
    {
      assert RunInvariant(s, q);
    }
  }

  lemma InvariantList(s: World, r: nat)
    requires Invariant(s) && Enabled(s, List(r))
    ensures Invariant(Apply(s, List(r)))
  {
    hide MadeOf;
    var s', id := Apply(s, List(r)), s.runs[r].id;
    assert SessionInvariant(s, id);
    forall other
      ensures SessionInvariant(s', other)
    {
      assert SessionInvariant(s, other);
    }
    forall q | 0 <= q < |s'.runs|
      ensures RunInvariant(s', q)
    {
      assert RunInvariant(s, q);
    }
  }

  lemma InvariantReplaced(s: World, id: string, history: seq<Message>, account: Account)
    requires Invariant(s) && MadeOf(history, account, LogOf(s.log, id))
    ensures Invariant(Replaced(s, id, history, account))
  {
    hide PhaseInvariant, MadeOf;
    var s' := Replaced(s, id, history, account);
    forall other
      ensures SessionInvariant(s', other)
    {
      assert SessionInvariant(s, other);
    }
    forall q | 0 <= q < |s'.runs|
      ensures RunInvariant(s', q)
    {
      assert RunInvariant(s, q);
    }
  }

  lemma InvariantAppend(s: World, r: nat)
    requires Invariant(s) && Enabled(s, Append(r))
    ensures Invariant(Apply(s, Append(r)))
  {
    hide MadeOf, ValidRounds, TurnMessages;
    var s' := Apply(s, Append(r));
    var id, turn := s.runs[r].id, s.runs[r].phase.turn;
    assert RunInvariant(s, r);
    forall other
      ensures SessionInvariant(s', other)
    {
      assert SessionInvariant(s, other);
      if other == id {
        MadeOfAppend(SessionOf(s.store, id), AccountOf(s.accounts, id), LogOf(s.log, id), turn);
        FlattenAppend(LogOf(s.log, id), turn);
      }
    }
    forall q | 0 <= q < |s'.runs|
      ensures RunInvariant(s', q)
    {
      assert RunInvariant(s, q);
      if q != r && s.runs[q].id == id {
        PhaseAppend(s.runs[q], ListingOf(s, q).account, LogOf(s.log, id), turn);
      }
    }
  }

  lemma PhaseAppend(run: Run, account: Account, log: seq<Turn>, turn: Turn)
    requires PhaseInvariant(run, account, log) && ValidRounds(turn.rounds)
    ensures PhaseInvariant(run, account, log + [turn])
  {
    hide Stands, Subsequence, ValidRounds;
    if Subsequence(account.turns, log) {
      SubsequenceAppend(account.turns, log, turn);
    }
  }

  lemma InvariantStart(s: World, config: Config, id: string, input: string)
    requires Invariant(s)
    ensures Invariant(Apply(s, Start(config, id, input)))
  {
    hide MadeOf;
    var s' := Apply(s, Start(config, id, input));
    forall other
      ensures SessionInvariant(s', other)
    {
      assert SessionInvariant(s, other);
    }
    forall q | 0 <= q < |s'.runs|
      ensures RunInvariant(s', q)
    {
      assert q < |s.runs| ==> RunInvariant(s, q);
    }
  }

  lemma InvariantStep(s: World, step: Step)
    requires Invariant(s) && Enabled(s, step)
    ensures Invariant(Apply(s, step))
  {
    hide MadeOf, AfterBudget, AfterLimit, AfterReply, SessionOf, Invariant, TokenStage, LimitStage, Moved;
    if step.Start? {
      InvariantStart(s, step.config, step.id, step.input);
    } else {
      var r := step.r;
      var run := s.runs[r];
      var account, log := ListingOf(s, r).account, LogOf(s.log, run.id);
      RunHolds(s, r);
      match step
      case List(_) => InvariantList(s, r);
      case ApplyBudget(_, summarize) =>
        var history := run.phase.history;
        BudgetPhase(run, history, summarize, account, log);
        InvariantMoves(s, r, AfterBudget(run, history, summarize),
          Moved(account, history, TokenStage(run.config, history, run.input, summarize), summarize));
      case ReplaceTokens(_) =>
        InvariantSetPhase(s, r, Budgeted(run.phase.history));
        InvariantReplaced(SetPhase(s, r, Budgeted(run.phase.history)), run.id, run.phase.history, account);
      case ApplyLimit(_, summarize) =>
        var history := run.phase.history;
        LimitPhase(run, history, summarize, account, log);
        InvariantMoves(s, r, AfterLimit(run, history, summarize),
          Moved(account, history, LimitStage(run.config, history, summarize), summarize));
      case ReplaceLimit(_) =>
        InvariantSetPhase(s, r, Calling(run.phase.history, []));
        InvariantReplaced(SetPhase(s, r, Calling(run.phase.history, [])), run.id, run.phase.history, account);
      case CallModel(_, reply, outputs, validJson) =>
        ReplyPhase(run, run.phase.history, run.phase.rounds, reply, outputs, validJson, account, log);
        InvariantSetPhase(s, r, AfterReply(run, run.phase.history, run.phase.rounds, reply, outputs, validJson));
      case Append(_) => InvariantAppend(s, r);
    }
  }

  lemma RunHolds(s: World, r: nat)
    requires Invariant(s) && r < |s.runs|
    ensures PhaseInvariant(s.runs[r], ListingOf(s, r).account, LogOf(s.log, s.runs[r].id))
  {
    hide PhaseInvariant;
    assert RunInvariant(s, r);
  }

  lemma {:induction false} InvariantAlways(states: seq<World>, steps: seq<Step>, n: nat)
    requires Behaviour(states, steps) && n < |states|
    ensures Invariant(states[n])
  {
    hide Invariant, Enabled, Apply;
    if n == 0 {
      InvariantInitial();
    } else {
      InvariantAlways(states, steps, n - 1);
      InvariantStep(states[n - 1], steps[n - 1]);
    }
  }

  // ----- The guarantees, in every reachable state

  lemma InvariantReachable(s: World)
    requires Reachable(s)
    ensures Invariant(s)
  {
    hide Invariant, Enabled, Apply;
    var states, steps :| Behaviour(states, steps) && states[|steps|] == s;
    InvariantAlways(states, steps, |steps|);
  }

  /** Each stored session goes back to turns that were all appended, in that order. It is exactly their messages,
      or the summary a summarizer gave for a first part of them and the messages of a later part. So every tool
      call in it is answered, once per call and in call order, and it never ends inside a turn. */
  lemma StoredSessionsAnswered(s: World, id: string)
    requires Reachable(s)
    ensures var session := SessionOf(s.store, id);
            && Answered(session)
            && MadeOf(session, AccountOf(s.accounts, id), LogOf(s.log, id))
            && (session != [] ==>
                session[|session| - 1].calls == [] && session[|session| - 1].role in {Assistant, Role.System})
  {
    hide FromTurns, Stands, Subsequence, Answered, Reachable;
    InvariantReachable(s);
    assert SessionInvariant(s, id);
    var session := SessionOf(s.store, id);
    StandsFromTurns(session, AccountOf(s.accounts, id));
    SessionFacts(session, AccountOf(s.accounts, id).turns);
    if session != [] {
      SummaryIsSystem(session[0]);
    }
  }

  /** If no run has replaced a session, it is exactly the finished turns in append order. */
  lemma UncompactedIsLog(s: World, id: string)
    requires Reachable(s) && id !in s.replaced
    ensures ValidTurns(LogOf(s.log, id))
    ensures SessionOf(s.store, id) == Flatten(LogOf(s.log, id))
  {
    hide Reachable;
    InvariantReachable(s);
    assert SessionInvariant(s, id);
  }

  /** Every transcript about to be sent to a model has each tool call answered, and no run exceeds
      its tool rounds, whatever the other runs did to the session meanwhile. */
  lemma SentTranscriptsAnswered(s: World, r: nat)
    requires Reachable(s) && r < |s.runs| && s.runs[r].phase.Calling?
    ensures var run := s.runs[r];
            && ValidRounds(run.phase.rounds)
            && |run.phase.rounds| <= run.config.maxToolRounds
            && Answered(run.phase.history + OpenTurn(run.input, run.phase.rounds))
  {
    hide FromTurns, Stands, Subsequence, Answered, Reachable, OpenTurn, ValidRounds, Invariant;
    InvariantReachable(s);
    var run := s.runs[r];
    RunHolds(s, r);
    StandsFromTurns(run.phase.history, ListingOf(s, r).account);
    SentAnswered(run.phase.history, ListingOf(s, r).account.turns, run.input, run.phase.rounds);
  }
}
