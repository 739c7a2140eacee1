/** Model of internal/tasks/queue.go: submitters, a bounded channel, a fixed set of workers, and the record table. */
module TaskQueue {
  import opened Collections
  import opened Results

  datatype Status = Queued | Running | Completed | Failed

  datatype Record = Record(id: string, status: Status)

  /** What the goroutines share: the channel and the record table. */
  datatype Shared = Shared(jobs: seq<string>, records: map<string, Record>)

  datatype Effect = WriteRecord(id: string, status: Status) | Push(id: string) | Pop | NoEffect

  function Outcome(failed: bool): Status {
    if failed then Failed else Completed
  }

  /** The atomic changes of the shared state. */
  function After(s: Shared, effect: Effect): Shared
    requires effect.Pop? ==> s.jobs != []
  {
    match effect
    case WriteRecord(id, status) => s.(records := SetRecord(s.records, id, status))
    case Push(id) => s.(jobs := s.jobs + [id])
    case Pop => s.(jobs := s.jobs[1..])
    case NoEffect => s
  }

  function SetRecord(records: map<string, Record>, id: string, status: Status): map<string, Record> {
    records[id := Record(id, status)]
  }

  /** Each method is one atomic step of a goroutine: a table write under the mutex, or a channel operation at
      the moment it can proceed. */
  class Queue {
    const buffer: nat
    const workers: nat
    var jobs: seq<string>
    var records: map<string, Record>

    function State(): Shared
      reads this
    {
      Shared(jobs, records)
    }

    constructor (buffer: int, workers: int)
      ensures this.buffer == (if buffer < 1 then 1 else buffer)
      ensures this.workers == (if workers < 1 then 1 else workers)
      ensures State() == Shared([], map[])
    {
      this.buffer := if buffer < 1 then 1 else buffer;
      this.workers := if workers < 1 then 1 else workers;
      jobs := [];
      records := map[];
    }

    method Set(r: Record)
      modifies this`records
      ensures State() == After(old(State()), WriteRecord(r.id, r.status))
    {
      records := records[r.id := r];
    }

    method Get(id: string) returns (r: Option<Record>)
      ensures r == if id in records then Some(records[id]) else None
    {
      r := if id in records then Some(records[id]) else None;
    }

    /** The first half of Submit: an empty ID is refused, otherwise the task is recorded as queued. */
    method Announce(id: string) returns (ok: bool)
      modifies this`records
      ensures ok == (id != "")
      ensures State() == After(old(State()), if ok then WriteRecord(id, Queued) else NoEffect)
    {
      if id == "" {
        return false;
      }
      Set(Record(id, Queued));
      return true;
    }

    /** The second half of Submit, when the channel has room. */
    method Send(id: string)
      requires |jobs| < buffer
      modifies this`jobs
      ensures State() == After(old(State()), Push(id))
    {
      jobs := jobs + [id];
    }

    method Receive() returns (id: string)
      requires jobs != []
      modifies this`jobs
      ensures id == old(jobs)[0] && State() == After(old(State()), Pop)
    {
      id := jobs[0];
      jobs := jobs[1..];
    }

    /** The two table writes of a worker around the execution of a task. */
    method MarkRunning(id: string)
      modifies this`records
      ensures State() == After(old(State()), WriteRecord(id, Running))
    {
      Set(Record(id, Running));
    }

    method Report(id: string, failed: bool)
      modifies this`records
      ensures State() == After(old(State()), WriteRecord(id, Outcome(failed)))
    {
      var status := Completed;
      if failed {
        status := Failed;
      }
      Set(Record(id, status));
    }
  }

  // ----- All interleavings

  datatype WorkerPhase =
    | Idle
    | Holding(id: string)                  // received, not yet recorded as running
    | Executing(id: string)
    | Reporting(id: string, failed: bool)  // executed, not yet recorded as finished
    | Stopped

  /** Where a task is. Announced: its submitter has recorded it and is blocked on the send. */
  datatype Place = Announced | Cancelled | InChannel | OnWorker(w: nat) | Finished(failed: bool)

  /** `jobs`, `records`, `workers` and the submitters (`places`, as far as Announced) are the state;
      the rest of `places`, `sent`, `taken` and `executed` are history variables. */
  datatype World = World(
    buffer: nat,
    workers: seq<WorkerPhase>,
    jobs: seq<string>,
    records: map<string, Record>,
    places: map<string, Place>,
    sent: seq<string>,
    taken: seq<string>,
    executed: multiset<string>)

  datatype Step =
    | Announce(id: string)
    | Send(id: string)
    | Cancel(id: string)
    | Take(w: nat)
    | MarkRunning(w: nat)
    | Execute(w: nat, failed: bool)
    | Report(w: nat)
    | Stop(w: nat)

  ghost predicate Initial(s: World) {
    && (forall w | 0 <= w < |s.workers| :: s.workers[w].Idle?)
    && s.jobs == [] && s.records == map[] && s.places == map[]
    && s.sent == [] && s.taken == [] && s.executed == multiset{}
  }

  /** Task IDs are distinct: an ID is announced once. */
  ghost predicate Enabled(s: World, step: Step) {
    match step
    case Announce(id) => id != "" && id !in s.places
    case Send(id) => id in s.places && s.places[id] == Announced && |s.jobs| < s.buffer
    case Cancel(id) => id in s.places && s.places[id] == Announced
    case Take(w) => w < |s.workers| && s.workers[w].Idle? && s.jobs != []
    case MarkRunning(w) => w < |s.workers| && s.workers[w].Holding?
    case Execute(w, _) => w < |s.workers| && s.workers[w].Executing?
    case Report(w) => w < |s.workers| && s.workers[w].Reporting?
    case Stop(w) => w < |s.workers| && s.workers[w].Idle?
  }

  ghost function Apply(s: World, step: Step): World
    requires Enabled(s, step)
  {
    match step
    case Announce(id) =>
      s.(records := SetRecord(s.records, id, Queued), places := s.places[id := Announced])
    case Send(id) =>
      s.(jobs := s.jobs + [id], sent := s.sent + [id], places := s.places[id := InChannel])
    case Cancel(id) =>
      s.(places := s.places[id := Cancelled])
    case Take(w) =>
      s.(workers := s.workers[w := Holding(s.jobs[0])], jobs := s.jobs[1..],
         taken := s.taken + [s.jobs[0]], places := s.places[s.jobs[0] := OnWorker(w)])
    case MarkRunning(w) =>
      s.(workers := s.workers[w := Executing(s.workers[w].id)],
         records := SetRecord(s.records, s.workers[w].id, Running))
    case Execute(w, failed) =>
      s.(workers := s.workers[w := Reporting(s.workers[w].id, failed)],
         executed := s.executed + multiset{s.workers[w].id})
    case Report(w) =>
      s.(workers := s.workers[w := Idle],
         records := SetRecord(s.records, s.workers[w].id, Outcome(s.workers[w].failed)),
         places := s.places[s.workers[w].id := Finished(s.workers[w].failed)])
    case Stop(w) =>
      s.(workers := s.workers[w := Stopped])
  }

  function SharedOf(s: World): Shared {
    Shared(s.jobs, s.records)
  }

  /** Which atomic change of the queue each step makes. */
  ghost function EffectOf(s: World, step: Step): Effect
    requires Enabled(s, step)
  {
    match step
    case Announce(id) => WriteRecord(id, Queued)
    case Send(id) => Push(id)
    case Take(_) => Pop
    case MarkRunning(w) => WriteRecord(s.workers[w].id, Running)
    case Report(w) => WriteRecord(s.workers[w].id, Outcome(s.workers[w].failed))
    case Cancel(_) => NoEffect
    case Execute(_, _) => NoEffect
    case Stop(_) => NoEffect
  }

  /** The steps change the shared state as the methods of the queue do, under the same guards. */
  lemma StepsAreMethods(s: World, step: Step)
    requires Enabled(s, step)
    ensures EffectOf(s, step).Pop? ==>
              s.jobs != [] && step.Take? && Apply(s, step).workers[step.w] == Holding(s.jobs[0])
    ensures EffectOf(s, step).Push? ==> |s.jobs| < s.buffer
    ensures SharedOf(Apply(s, step)) == After(SharedOf(s), EffectOf(s, step))
  {
  }

  ghost predicate Behaviour(states: seq<World>, steps: seq<Step>) {
    && |states| == |steps| + 1
    && Initial(states[0])
    && forall i | 0 <= i < |steps| :: Enabled(states[i], steps[i]) && states[i + 1] == Apply(states[i], steps[i])
  }

  /** A task is recorded as failed if its execution returned an error, and as completed otherwise. */
  lemma ExecutionIsReported(s: World, w: nat, failed: bool)
    requires Enabled(s, Execute(w, failed))
    ensures var s' := Apply(s, Execute(w, failed));
            && Enabled(s', Report(w))
            && var id, s'' := s.workers[w].id, Apply(s', Report(w));
            && s''.places[id] == Finished(failed)
            && s''.records[id] == Record(id, if failed then Status.Failed else Status.Completed)
  {
  }

  // ----- The invariant

  predicate Busy(p: WorkerPhase) {
    p.Holding? || p.Executing? || p.Reporting?
  }

  /** First in, first out, and nothing lost: what was sent is what was taken followed by the channel. */
  ghost predicate ChannelInvariant(s: World) {
    && |s.jobs| <= s.buffer
    && s.sent == s.taken + s.jobs
    && AllDifferent(s.sent)
    && (forall id :: id in s.jobs <==> id in s.places && s.places[id].InChannel?)
    && (forall id :: id in s.taken <==> id in s.places && (s.places[id].OnWorker? || s.places[id].Finished?))
  }

  ghost predicate WorkerInvariant(s: World) {
    && (forall w | 0 <= w < |s.workers| && Busy(s.workers[w]) ::
          s.workers[w].id in s.places && s.places[s.workers[w].id] == OnWorker(w))
    && (forall id | id in s.places && s.places[id].OnWorker? ::
          && s.places[id].w < |s.workers| && Busy(s.workers[s.places[id].w])
          && s.workers[s.places[id].w].id == id)
  }

  ghost predicate Done(s: World, id: string) {
    id in s.places && match s.places[id]
                      case Finished(_) => true
                      case OnWorker(w) => w < |s.workers| && s.workers[w].Reporting?
                      case _ => false
  }

  ghost predicate ExecutionInvariant(s: World) {
    forall id :: s.executed[id] == if Done(s, id) then 1 else 0
  }

  /** The status a record shows, read off the place of the task. */
  ghost function StatusAt(s: World, place: Place): Status {
    match place
    case OnWorker(w) => if w < |s.workers| && !s.workers[w].Holding? then Running else Queued
    case Finished(failed) => Outcome(failed)
    case _ => Queued
  }

  ghost predicate RecordInvariant(s: World) {
    && s.records.Keys == s.places.Keys
    && forall id | id in s.places :: s.records[id] == Record(id, StatusAt(s, s.places[id]))
  }

  ghost predicate Invariant(s: World) {
    ChannelInvariant(s) && WorkerInvariant(s) && ExecutionInvariant(s) && RecordInvariant(s)
  }

  lemma InvariantInitial(s: World)
    requires Initial(s)
    ensures Invariant(s)
  {
    assert forall w | 0 <= w < |s.workers| :: !Busy(s.workers[w]);
  }

  lemma ChannelStep(s: World, step: Step)
    requires ChannelInvariant(s) && WorkerInvariant(s) && Enabled(s, step)
    ensures ChannelInvariant(Apply(s, step))
  {
    match step
    case Send(id) => AfterSend(s, id);
    case Take(w) => AfterTake(s, w);
    case _ =>
  }

  lemma AfterSend(s: World, id: string)
    requires ChannelInvariant(s) && Enabled(s, Send(id))
    ensures ChannelInvariant(Apply(s, Send(id)))
  {
    var s' := Apply(s, Send(id));
    assert s'.sent == s.taken + (s.jobs + [id]);
    forall i | 0 <= i < |s.sent|
      ensures s.sent[i] != id
    {
      assert s.sent[i] in s.taken || s.sent[i] in s.jobs;
    }
  }

  lemma AfterTake(s: World, w: nat)
    requires ChannelInvariant(s) && Enabled(s, Take(w))
    ensures ChannelInvariant(Apply(s, Take(w)))
  {
    hide AllDifferent;
    var s' := Apply(s, Take(w));
    var head := s.jobs[0];
    assert s.jobs == [head] + s'.jobs;
    assert s.taken + s.jobs == s'.taken + s'.jobs;
    HeadIsNew(s);
    forall id
      ensures id in s'.jobs <==> id in s'.places && s'.places[id].InChannel?
    {
      assert id in s.jobs <==> id == head || id in s'.jobs;
    }
  }

  /** The head of the channel is a task nobody has had, and it is there once. */
  lemma HeadIsNew(s: World)
    requires ChannelInvariant(s) && s.jobs != []
    ensures s.jobs[0] !in s.taken && s.jobs[0] !in s.jobs[1..]
  {
    forall i | 0 <= i < |s.taken|
      ensures s.taken[i] != s.jobs[0]
    {
      assert s.sent[i] == s.taken[i] && s.sent[|s.taken|] == s.jobs[0];
    }
    forall i | 1 <= i < |s.jobs|
      ensures s.jobs[i] != s.jobs[0]
    {
      assert s.sent[|s.taken| + i] == s.jobs[i] && s.sent[|s.taken|] == s.jobs[0];
    }
  }

  lemma HeadInChannel(s: World)
    requires ChannelInvariant(s) && s.jobs != []
    ensures s.jobs[0] in s.places && s.places[s.jobs[0]].InChannel?
  {
    assert s.jobs[0] in s.jobs;
  }

  lemma WorkerStep(s: World, step: Step)
    requires ChannelInvariant(s) && WorkerInvariant(s) && Enabled(s, step)
    ensures WorkerInvariant(Apply(s, step))
  {
    hide ChannelInvariant;
    if step.Take? {
      HeadInChannel(s);
    }
  }

  lemma ExecutionStep(s: World, step: Step)
    requires ChannelInvariant(s) && WorkerInvariant(s) && ExecutionInvariant(s) && Enabled(s, step)
    ensures ExecutionInvariant(Apply(s, step))
  {
    hide ChannelInvariant;
    if step.Take? {
      HeadInChannel(s);
    }
    var s' := Apply(s, step);
    forall id
      ensures s'.executed[id] == if Done(s', id) then 1 else 0
    {
      assert s.executed[id] == if Done(s, id) then 1 else 0;
    }
  }

  predicate BySubmitter(step: Step) {
    step.Announce? || step.Send? || step.Cancel?
  }

  lemma RecordStep(s: World, step: Step)
    requires ChannelInvariant(s) && WorkerInvariant(s) && RecordInvariant(s) && Enabled(s, step)
    ensures RecordInvariant(Apply(s, step))
  {
    hide ChannelInvariant, WorkerInvariant, RecordInvariant, Apply, Enabled;
    if BySubmitter(step) {
      SubmitterRecords(s, step);
    } else {
      WorkerRecords(s, step);
    }
  }

  lemma SubmitterRecords(s: World, step: Step)
    requires WorkerInvariant(s) && RecordInvariant(s) && Enabled(s, step) && BySubmitter(step)
    ensures RecordInvariant(Apply(s, step))
  {
  }

  lemma WorkerRecords(s: World, step: Step)
    requires ChannelInvariant(s) && WorkerInvariant(s) && RecordInvariant(s) && Enabled(s, step) && !BySubmitter(step)
    ensures RecordInvariant(Apply(s, step))
  {
    hide ChannelInvariant;
    if step.Take? {
      HeadInChannel(s);
    }
  }

  lemma InvariantStep(s: World, step: Step)
    requires Invariant(s) && Enabled(s, step)
    ensures Invariant(Apply(s, step))
  {
    hide ChannelInvariant, WorkerInvariant, ExecutionInvariant, RecordInvariant, Apply;
    ChannelStep(s, step);
    WorkerStep(s, step);
    ExecutionStep(s, step);
    RecordStep(s, step);
  }

  lemma SizesStep(s: World, step: Step)
    requires Enabled(s, step)
    ensures |Apply(s, step).workers| == |s.workers| && Apply(s, step).buffer == s.buffer
  {
  }

  lemma {:induction false} InvariantAlways(states: seq<World>, steps: seq<Step>, n: nat)
    requires Behaviour(states, steps) && n < |states|
    ensures Invariant(states[n])
    ensures |states[n].workers| == |states[0].workers| && states[n].buffer == states[0].buffer
  {
    hide Invariant, Enabled, Apply;
    if n == 0 {
      InvariantInitial(states[0]);
    } else {
      InvariantAlways(states, steps, n - 1);
      InvariantStep(states[n - 1], steps[n - 1]);
      SizesStep(states[n - 1], steps[n - 1]);
    }
  }

  // ----- The guarantees, in every state of every behaviour

  ghost predicate OnSomeWorker(s: World, id: string) {
    exists w | 0 <= w < |s.workers| :: Busy(s.workers[w]) && s.workers[w].id == id
  }

  predicate HasFinished(s: World, id: string) {
    id in s.records && (s.records[id].status == Completed || s.records[id].status == Failed)
  }

  /** Every accepted task is in exactly one place: the channel, a worker, or recorded as finished;
      the channel stays within its buffer and is drained in the order it was filled. */
  lemma AcceptedInOnePlace(states: seq<World>, steps: seq<Step>, n: nat, id: string)
    requires Behaviour(states, steps) && n < |states|
    ensures var s := states[n];
            && |s.jobs| <= states[0].buffer
            && s.sent == s.taken + s.jobs
            && (id in s.sent <==> id in s.jobs || OnSomeWorker(s, id) || HasFinished(s, id))
            && !(id in s.jobs && OnSomeWorker(s, id))
            && !(id in s.jobs && HasFinished(s, id))
            && !(OnSomeWorker(s, id) && HasFinished(s, id))
  {
    hide Behaviour, AllDifferent, ExecutionInvariant;
    InvariantAlways(states, steps, n);
    var s := states[n];
    assert id in s.sent <==> id in s.taken || id in s.jobs;
  }

  /** No task runs twice: not in the past, and not on two workers at once; and there are never more
      tasks on workers than workers. */
  lemma ExecutedAtMostOnce(states: seq<World>, steps: seq<Step>, n: nat, id: string)
    requires Behaviour(states, steps) && n < |states|
    ensures var s := states[n];
            && s.executed[id] <= 1
            && (HasFinished(s, id) ==> s.executed[id] == 1)
            && (id !in s.sent ==> s.executed[id] == 0)
            && (forall v, w | 0 <= v < |s.workers| && 0 <= w < |s.workers| ::
                  Busy(s.workers[v]) && Busy(s.workers[w]) && s.workers[v].id == s.workers[w].id ==> v == w)
            && |s.workers| == |states[0].workers|
  {
    hide Behaviour, AllDifferent;
    InvariantAlways(states, steps, n);
    var s := states[n];
    assert s.executed[id] == if Done(s, id) then 1 else 0;
    assert id in s.sent <==> id in s.taken || id in s.jobs;
  }

  predicate Forward(before: Status, after: Status) {
    || before == after
    || (before == Queued && after == Running)
    || (before == Running && (after == Completed || after == Failed))
  }

  /** A record only moves forward, one stage at a time; once finished it is never written again. */
  lemma RecordsMoveForward(states: seq<World>, steps: seq<Step>, n: nat, id: string)
    requires Behaviour(states, steps) && n + 1 < |states| && id in states[n].records
    ensures id in states[n + 1].records
    ensures Forward(states[n].records[id].status, states[n + 1].records[id].status)
  {
    hide Invariant, Enabled, Apply, Forward;
    InvariantAlways(states, steps, n);
    RecordForward(states[n], steps[n], id);
  }

  lemma RecordForward(s: World, step: Step, id: string)
    requires Invariant(s) && Enabled(s, step) && id in s.records
    ensures id in Apply(s, step).records
    ensures Forward(s.records[id].status, Apply(s, step).records[id].status)
    ensures s.records[id].id == id == Apply(s, step).records[id].id
  {
    hide ChannelInvariant, ExecutionInvariant;
  }

  lemma {:induction false} FinishedStaysFinished(states: seq<World>, steps: seq<Step>, m: nat, n: nat, id: string)
    requires Behaviour(states, steps) && m <= n < |states| && HasFinished(states[m], id)
    ensures id in states[n].records && states[n].records[id] == states[m].records[id]
    decreases n - m
  {
    hide Invariant, Enabled, Apply;
    if m < n {
      FinishedStaysFinished(states, steps, m, n - 1, id);
      InvariantAlways(states, steps, n - 1);
      assert states[n] == Apply(states[n - 1], steps[n - 1]);
      RecordForward(states[n - 1], steps[n - 1], id);
    }
  }

  // ----- Why Submit records before it sends

  /** The same steps, with Submit sending first and recording afterwards. */
  ghost function ApplySendFirst(s: World, step: Step): World
    requires Enabled(s, step)
  {
    if step.Announce? then s.(places := s.places[step.id := Announced]) else Apply(s, step)
  }

  /** With that order a finished record is overwritten: one worker can take, run and report the task
      between the send and the submitter's late write. */
  lemma SendFirstOverwritesFinished(id: string)
    requires id != ""
    ensures var s0 := World(1, [Idle], [], map[], map[], [], [], multiset{});
            && Initial(s0) && Enabled(s0, Announce(id))
            && var s1 := ApplySendFirst(s0, Announce(id));
            && Enabled(s1, Send(id)) && var s2 := ApplySendFirst(s1, Send(id));
            && Enabled(s2, Take(0)) && var s3 := ApplySendFirst(s2, Take(0));
            && Enabled(s3, MarkRunning(0)) && var s4 := ApplySendFirst(s3, MarkRunning(0));
            && Enabled(s4, Execute(0, false)) && var s5 := ApplySendFirst(s4, Execute(0, false));
            && Enabled(s5, Report(0)) && var s6 := ApplySendFirst(s5, Report(0));
            && s6.records[id].status == Completed
            && !Forward(s6.records[id].status, SetRecord(s6.records, id, Queued)[id].status)
  {
  }
}
