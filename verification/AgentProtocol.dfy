/** Any number of concurrent runs over one in-memory store. List, Replace and Append each take the
    store's lock by themselves, so a run is a sequence of atomic steps that interleave freely with
    the steps of other runs. Models, tools and summarizers answer arbitrarily in every step. */
module AgentProtocol {
  import opened Messages
  import opened Results
  import opened Compaction
  import opened AgentHistory
  import opened MemoryStore
  import opened AgentRun

  /** Where a run stands. The constructor arguments are the run's local variables. */
  datatype Phase =
    | Started
    | Listed(history: seq<Message>)                          // about to apply the token budget
    | ReplacingTokens(history: seq<Message>)                 // about to store the token-compacted history
    | Budgeted(history: seq<Message>)                        // about to apply the message limit
    | ReplacingLimit(history: seq<Message>)                  // about to store the limit-compacted history
    | Calling(history: seq<Message>, rounds: seq<Round>)     // about to call the model
    | Appending(turn: Turn)                                  // about to append the finished turn
    | Ended(ok: bool)

  datatype Run = Run(config: Config, id: string, input: string, phase: Phase)

  /** The messages a run found when it listed its session, and the account of what it has made of them so far. */
  datatype Listing = Listing(history: seq<Message>, account: Account)

  /** The store and the runs. The rest are history variables: `log` is every turn appended to a session, in
      order; `accounts` which turns the stored session goes back to, which of their messages it still holds and
      which a summarizer was given for the summary it starts with; `listings` what each run listed; `replaced`
      the sessions some run has replaced. */
  datatype World = World(
    store: Sessions,
    runs: seq<Run>,
    log: map<string, seq<Turn>>,
    accounts: map<string, Account>,
    listings: map<nat, Listing>,
    replaced: set<string>)

  datatype Step =
    | Start(config: Config, id: string, input: string)
    | List(r: nat)
    | ApplyBudget(r: nat, summarize: Option<SummaryFunc>)
    | ReplaceTokens(r: nat)
    | ApplyLimit(r: nat, summarize: Option<SummaryFunc>)
    | ReplaceLimit(r: nat)
    | CallModel(r: nat, reply: Reply, outputs: seq<string>, validJson: string -> bool)
    | Append(r: nat)

  const INITIAL := World(map[], [], map[], map[], map[], {})

  const NO_TURNS := Account([], 0, 0, None)

  function LogOf(log: map<string, seq<Turn>>, id: string): seq<Turn> {
    if id in log then log[id] else []
  }

  function AccountOf(accounts: map<string, Account>, id: string): Account {
    if id in accounts then accounts[id] else NO_TURNS
  }

  function ListingOf(s: World, r: nat): Listing {
    if r in s.listings then s.listings[r] else Listing([], NO_TURNS)
  }

  function Extended(a: Account, turn: Turn): Account {
    a.(turns := a.turns + [turn])
  }

  /** Every message of every turn ever appended to the session is stored, or was given to the summarizer that
      wrote the summary it starts with. */
  ghost predicate Complete(s: World, id: string) {
    AccountOf(s.accounts, id).turns == LogOf(s.log, id) && Lossless(AccountOf(s.accounts, id))
  }

  /** The run has listed its session and has not ended. */
  predicate Active(run: Run) {
    !run.phase.Started? && !run.phase.Ended?
  }

  ghost predicate Serialised(s: World, id: string) {
    forall q, r | 0 <= q < r < |s.runs| && s.runs[q].id == id && s.runs[r].id == id ::
        !(Active(s.runs[q]) && Active(s.runs[r]))
  }

  // ----- The steps

  ghost predicate Enabled(s: World, step: Step) {
    match step
    case Start(_, _, _) => true
    case List(r) => r < |s.runs| && s.runs[r].phase.Started?
    case ApplyBudget(r, _) => r < |s.runs| && s.runs[r].phase.Listed?
    case ReplaceTokens(r) => r < |s.runs| && s.runs[r].phase.ReplacingTokens?
    case ApplyLimit(r, _) => r < |s.runs| && s.runs[r].phase.Budgeted?
    case ReplaceLimit(r) => r < |s.runs| && s.runs[r].phase.ReplacingLimit?
    case CallModel(r, reply, outputs, _) =>
      && r < |s.runs| && s.runs[r].phase.Calling?
      && (reply.Reply? ==> |outputs| == |reply.result.calls|)
    case Append(r) => r < |s.runs| && s.runs[r].phase.Appending?
  }

  ghost function AfterBudget(run: Run, history: seq<Message>, summarize: Option<SummaryFunc>): Phase {
    match TokenStage(run.config, history, run.input, summarize)
    case Keep => Budgeted(history)
    case Rewrite(compacted) => ReplacingTokens(compacted)
    case Abort(_) => Ended(false)
  }

  ghost function AfterLimit(run: Run, history: seq<Message>, summarize: Option<SummaryFunc>): Phase {
    match LimitStage(run.config, history, summarize)
    case Keep => Calling(history, [])
    case Rewrite(compacted) => ReplacingLimit(compacted)
    case Abort(_) => Ended(false)
  }

  ghost function AfterReply(run: Run, history: seq<Message>, rounds: seq<Round>, reply: Reply,
                            outputs: seq<string>, validJson: string -> bool): Phase {
    if reply.Broken? then Ended(false)
    else if reply.result.calls == [] then Appending(Turn(run.input, rounds, reply.result.content))
    else if |rounds| >= run.config.maxToolRounds then Ended(false)
    else if !CallsAccepted(reply.result.calls, validJson) then Ended(false)
    else Calling(history, rounds + [Round(reply.result.content, reply.result.calls, outputs)])
  }

  ghost function SetPhase(s: World, r: nat, phase: Phase): World
    requires r < |s.runs|
  {
    s.(runs := s.runs[r := s.runs[r].(phase := phase)])
  }

  /** A run has applied a stage to its history. */
  ghost function Moves(s: World, r: nat, phase: Phase, account: Account): World
    requires r < |s.runs|
  {
    SetPhase(s, r, phase).(listings := s.listings[r := Listing(ListingOf(s, r).history, account)])
  }

  /** Storing a compacted history brings back the account of what its run had listed. */
  ghost function Replaced(s: World, id: string, history: seq<Message>, account: Account): World {
    s.(store := s.store[id := history], accounts := s.accounts[id := account], replaced := s.replaced + {id})
  }

  ghost function Apply(s: World, step: Step): World
    requires Enabled(s, step)
  {
    match step
    case Start(config, id, input) => s.(runs := s.runs + [Run(config, id, input, Started)])
    case List(r) =>
      var id := s.runs[r].id;
      SetPhase(s, r, Listed(SessionOf(s.store, id))).(
        listings := s.listings[r := Listing(SessionOf(s.store, id), AccountOf(s.accounts, id))])
    case ApplyBudget(r, summarize) =>
      var run, history := s.runs[r], s.runs[r].phase.history;
      Moves(s, r, AfterBudget(run, history, summarize),
          Moved(ListingOf(s, r).account, history, TokenStage(run.config, history, run.input, summarize), summarize))
    case ReplaceTokens(r) =>
      Replaced(SetPhase(s, r, Budgeted(s.runs[r].phase.history)), s.runs[r].id, s.runs[r].phase.history,
          ListingOf(s, r).account)
    case ApplyLimit(r, summarize) =>
      var run, history := s.runs[r], s.runs[r].phase.history;
      Moves(s, r, AfterLimit(run, history, summarize),
          Moved(ListingOf(s, r).account, history, LimitStage(run.config, history, summarize), summarize))
    case ReplaceLimit(r) =>
      Replaced(SetPhase(s, r, Calling(s.runs[r].phase.history, [])), s.runs[r].id, s.runs[r].phase.history,
          ListingOf(s, r).account)
    case CallModel(r, reply, outputs, validJson) =>
      SetPhase(s, r, AfterReply(s.runs[r], s.runs[r].phase.history, s.runs[r].phase.rounds, reply, outputs, validJson))
    case Append(r) =>
      var id, turn := s.runs[r].id, s.runs[r].phase.turn;
      if ValidRounds(turn.rounds) then
        SetPhase(s, r, Ended(true)).(
          store := s.store[id := SessionOf(s.store, id) + TurnMessages(turn)],
          log := s.log[id := LogOf(s.log, id) + [turn]],
          accounts := s.accounts[id := Extended(AccountOf(s.accounts, id), turn)])
      else s
  }

  /** A finite behaviour: states linked by enabled steps, from an empty store with no runs. */
  ghost predicate Behaviour(states: seq<World>, steps: seq<Step>) {
    && |states| == |steps| + 1
    && states[0] == INITIAL
    && forall i | 0 <= i < |steps| :: Enabled(states[i], steps[i]) && states[i + 1] == Apply(states[i], steps[i])
  }

  ghost predicate Reachable(s: World) {
    exists states, steps :: Behaviour(states, steps) && states[|steps|] == s
  }

  // ----- Reaching worlds step by step

  lemma StepReachable(s: World, step: Step)
    requires Reachable(s) && Enabled(s, step)
    ensures Reachable(Apply(s, step))
  {
    hide Apply, Enabled;
    var states, steps :| Behaviour(states, steps) && states[|steps|] == s;
    var states', steps' := states + [Apply(s, step)], steps + [step];
    assert Behaviour(states', steps') && states'[|steps'|] == Apply(s, step);
  }
}
