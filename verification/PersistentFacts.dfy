/** A hybrid index over a file: where its halves can part, what reaches the disk, and what a restart restores. */
module PersistentFacts {
  import opened ChunkKeys
  import opened Splitter
  import opened Scoring
  import opened KeyedMaps
  import opened IndexTypes
  import opened LexicalIndex
  import opened VectorIndex
  import opened HybridIndex
  import opened HybridFacts
  import opened PersistentHybrid
  import opened PersistentIndex

  datatype Event = Operation(op: Op) | Restart

  /** A restart reads the file and rebuilds the lexical half from it, if it can. */
  ghost function Restarted(s: Persistent): Persistent {
    if OpenProblem(s.file.disk, true, 0.0).None?
    then Persistent(ChunksIn(s.file.disk), FileState(s.file.disk, s.file.disk))
    else s
  }

  ghost function ApplyEvent(s: Persistent, event: Event): Persistent {
    match event
    case Restart => Restarted(s)
    case Operation(AddOp(ctx, document, embedding)) => FileHybridAddition(s, ctx, document, embedding).0
    case Operation(RemoveOp(ctx, d)) => FileHybridRemoval(s, ctx, d).0
  }

  ghost function History(events: seq<Event>): Persistent {
    if events == [] then Persistent(map[], FileState(map[], map[]))
    else ApplyEvent(History(events[..|events| - 1]), events[|events| - 1])
  }

  /** The halves as a hybrid state. */
  ghost function Halves(s: Persistent): Hybrid {
    Hybrid(s.lexical, s.file.memory)
  }

  // ----- Restarts

  /** What every entry ever written satisfies, in memory and on disk. */
  ghost predicate Sound(entries: map<string, Entry>) {
    Keyed(ChunksIn(entries)) && forall id | id in entries :: entries[id].vector != [] && Acceptable(entries[id].chunk)
  }

  ghost predicate SoundState(s: Persistent) {
    Keyed(s.lexical) && Sound(s.file.memory) && Sound(s.file.disk)
  }

  lemma SoundRemoval(entries: map<string, Entry>, d: string)
    requires Sound(entries)
    ensures Sound(entries - EntryKeysOf(entries, d))
  {
    hide Key, Acceptable;
    ChunksInRemoval(entries, d);
    RemovalCleared(ChunksIn(entries), d);
  }

  lemma {:induction false} SoundUpsert(entries: map<string, Entry>, document: Document, vectors: seq<Vector>, n: nat)
    requires Sound(entries) && Pieces(document).Success? && |vectors| == |Pieces(document).value|
    requires n <= FirstUnusable(vectors)
    ensures Sound(Upserted(entries, Pieces(document).value[..n], vectors[..n]))
  {
    hide Key, Acceptable, Split, FirstUnusable, Upserted, Pieces, Sound;
    var pieces := Pieces(document).value;
    if n == 0 {
      NothingPut(entries, pieces, vectors);
    } else {
      SoundUpsert(entries, document, vectors, n - 1);
      UpsertStep(entries, pieces, vectors, n - 1);
      PiecesAreOfDocument(document);
      PiecesAcceptable(document);
      assert pieces[n - 1] in pieces && Usable(vectors[n - 1]);
      SoundPut(Upserted(entries, pieces[..n - 1], vectors[..n - 1]), pieces[n - 1], vectors[n - 1]);
    }
  }

  lemma SoundPut(entries: map<string, Entry>, chunk: Chunk, vector: Vector)
    requires Sound(entries) && Usable(vector) && Acceptable(chunk) && chunk.id == Key(chunk.documentId, chunk.ordinal)
    ensures Sound(entries[chunk.id := Entry(chunk, vector)])
  {
    hide Key, Acceptable;
    assert ChunksIn(entries[chunk.id := Entry(chunk, vector)]) == ChunksIn(entries)[chunk.id := chunk];
  }

  lemma PiecesAcceptable(document: Document)
    requires Pieces(document).Success?
    ensures forall c | c in Pieces(document).value :: Acceptable(c)
  {
    hide Split, Acceptable;
    DefaultSplitFinishes(document);
    AllAcceptable(document);
  }

  lemma SoundEvent(s: Persistent, event: Event)
    requires SoundState(s)
    ensures SoundState(ApplyEvent(s, event))
  {
    hide Sound, Upserted, Stored, Pieces, Keyed, KeysOf, EntryKeysOf, FirstUnusable, ChunksIn, OpenProblem;
    match event
    case Restart =>
      SoundKeyed(s);
    case Operation(op) =>
      var d := DocumentOf(op);
      SoundRemoval(s.file.memory, d);
      RemovalCleared(s.lexical, d);
      if op.AddOp? && Pieces(op.document).Success? && op.embedding.Some? {
        var pieces, vectors := Pieces(op.document).value, op.embedding.value;
        var lexical, memory := s.lexical - KeysOf(s.lexical, d), s.file.memory - EntryKeysOf(s.file.memory, d);
        PiecesAreOfDocument(op.document);
        StoredKeyed(lexical, pieces, d);
        if |pieces| == |vectors| {
          SoundUpsert(memory, op.document, vectors, FirstUnusable(vectors));
          WholeUpsert(memory, pieces, vectors);
        }
      }
  }

  lemma SoundKeyed(s: Persistent)
    requires SoundState(s)
    ensures Consistent(Halves(s)) && Keyed(ChunksIn(s.file.disk))
  {
  }

  lemma WholeUpsert(entries: map<string, Entry>, pieces: seq<Chunk>, vectors: seq<Vector>)
    requires |pieces| == |vectors|
    ensures pieces[..|pieces|] == pieces && vectors[..|pieces|] == vectors
  {
  }

  lemma {:induction false} AlwaysSound(events: seq<Event>)
    ensures SoundState(History(events))
  {
    hide ApplyEvent, Sound, Keyed;
    if events == [] {
      NothingSound();
    } else {
      AlwaysSound(events[..|events| - 1]);
      SoundEvent(History(events[..|events| - 1]), events[|events| - 1]);
    }
  }

  lemma NothingSound()
    ensures SoundState(Persistent(map[], FileState(map[], map[])))
  {
  }

  /** After any operations, failures, cancellations and earlier restarts, a restart succeeds and the halves
      agree again, both on what the disk held. */
  lemma RestartRestoresAgreement(events: seq<Event>, alpha: real)
    requires 0.0 <= alpha <= 1.0
    ensures var s, s' := History(events), History(events + [Restart]);
            && OpenProblem(s.file.disk, true, alpha).None?
            && Agree(Halves(s')) && s'.file == FileState(s.file.disk, s.file.disk)
  {
    hide History, Key, Acceptable, Apply;
    AlwaysSound(events);
    HistoryStep(events, Restart);
    var disk := History(events).file.disk;
    assert forall id | id in disk :: ChunksIn(disk)[id].id == Key(disk[id].chunk.documentId, disk[id].chunk.ordinal);
    forall id | id in disk
      ensures disk[id].chunk.id != ""
    {
      KeyNotEmpty(disk[id].chunk.documentId, disk[id].chunk.ordinal);
    }
  }

  lemma HistoryStep(events: seq<Event>, event: Event)
    ensures History(events + [event]) == ApplyEvent(History(events), event)
  {
    hide ApplyEvent;
    assert (events + [event])[..|events|] == events;
  }

  // ----- Where the halves part

  /** The upsert is reached and begins to write. */
  ghost predicate Upserting(op: Op) {
    && op.AddOp? && Pieces(op.document).Success? && op.embedding.Some? && !op.ctx.Cancelled(3)
    && |op.embedding.value| == |Pieces(op.document).value|
  }

  /** What an operation leaves of document e in memory: up to its first bad vector, the chunks are stored. */
  ghost function MemoryAfter(was: map<string, Chunk>, op: Op, e: string): map<string, Chunk> {
    if e != DocumentOf(op) || op.ctx.Cancelled(1) then was
    else if Upserting(op) then Stored(map[], Pieces(op.document).value[..FirstUnusable(op.embedding.value)])
    else map[]
  }

  lemma FileStepByDocument(s: Persistent, op: Op, e: string)
    requires Consistent(Halves(s))
    ensures var s' := ApplyEvent(s, Operation(op));
            && OfDocument(s'.lexical, e) == LexicalAfter(OfDocument(s.lexical, e), op, e)
            && OfDocument(ChunksIn(s'.file.memory), e) == MemoryAfter(OfDocument(ChunksIn(s.file.memory), e), op, e)
  {
    hide Key, Split, Pieces, Stored, Upserted, OfDocument, KeysOf, EntryKeysOf, ChunksIn, Keyed, FirstUnusable,
         PiecesOf;
    var d := DocumentOf(op);
    RemovalByDocument(s.lexical, d, e);
    RemovalCleared(s.lexical, d);
    ChunksInRemoval(s.file.memory, d);
    RemovalByDocument(ChunksIn(s.file.memory), d, e);
    RemovalCleared(ChunksIn(s.file.memory), d);
    if Upserting(op) {
      var pieces, vectors := Pieces(op.document).value, op.embedding.value;
      var n := FirstUnusable(vectors);
      PiecesAreOfDocument(op.document);
      var lexical, memory := s.lexical - KeysOf(s.lexical, d), s.file.memory - EntryKeysOf(s.file.memory, d);
      StoredByDocument(lexical, pieces, d, e);
      PrefixByDocument(ChunksIn(memory), pieces, n, d, e);
      ChunksInUpserted(memory, pieces[..n], vectors[..n]);
      WholeUpsert(memory, pieces, vectors);
    }
  }

  lemma PrefixByDocument(chunks: map<string, Chunk>, pieces: seq<Chunk>, n: nat, d: string, e: string)
    requires Keyed(chunks) && PiecesOf(pieces, d) && KeysOf(chunks, d) == {} && n <= |pieces|
    ensures OfDocument(Stored(chunks, pieces[..n]), e) ==
              if e == d then Stored(map[], pieces[..n]) else OfDocument(chunks, e)
    ensures Stored(map[], pieces[..n]) == map[] <==> n == 0
  {
    hide Key, Stored, OfDocument, KeysOf;
    if n > 0 {
      PrefixPieces(pieces, n, d);
      StoredByDocument(chunks, pieces[..n], d, e);
      SomethingStored(pieces[..n], d);
    } else {
      NothingStored(chunks, pieces);
      NothingStored(map[], pieces);
      NoneOfDocument(chunks, d);
    }
  }

  lemma PrefixPieces(pieces: seq<Chunk>, n: nat, d: string)
    requires PiecesOf(pieces, d) && 0 < n <= |pieces|
    ensures PiecesOf(pieces[..n], d)
  {
    hide Key;
    assert forall i | 0 <= i < n :: Ids(pieces[..n])[i] == Ids(pieces)[i];
  }

  lemma NothingStored(chunks: map<string, Chunk>, pieces: seq<Chunk>)
    ensures Stored(chunks, pieces[..0]) == chunks
  {
  }

  lemma NoneOfDocument(chunks: map<string, Chunk>, d: string)
    requires KeysOf(chunks, d) == {}
    ensures OfDocument(chunks, d) == map[]
  {
    NoneOf(chunks, d);
  }

  /** An upsert refused after its first vector leaves chunks that only the vector half has. */
  ghost predicate Parting(s: Persistent, op: Op) {
    || (CutAt(op.ctx, 2) && OfDocument(s.lexical, DocumentOf(op)) != map[])
    || (Upserting(op) && var n := FirstUnusable(op.embedding.value);
        n > 0 && (n < |op.embedding.value| || CutAt(op.ctx, 4)))
  }

  lemma FileAgreementStep(s: Persistent, op: Op)
    requires Consistent(Halves(s)) && Agree(Halves(s))
    ensures Agree(Halves(ApplyEvent(s, Operation(op)))) <==> !Parting(s, op)
  {
    hide ApplyEvent, OfDocument, Stored, Pieces, Keyed, ChunksIn, FirstUnusable, PiecesOf;
    var s', d := ApplyEvent(s, Operation(op)), DocumentOf(op);
    AgreeIffOnEach(Halves(s'));
    forall e: string
      ensures e != d ==> AgreeOn(Halves(s'), e)
    {
      FileStepByDocument(s, op, e);
    }
    FileStepByDocument(s, op, d);
    assert Agree(Halves(s')) <==> AgreeOn(Halves(s'), d);
    if Upserting(op) {
      var pieces, n := Pieces(op.document).value, FirstUnusable(op.embedding.value);
      PiecesAreOfDocument(op.document);
      EmptyPrefix(pieces, n, d);
      WholeUpsert(map[], pieces, op.embedding.value);
    }
  }

  lemma EmptyPrefix(pieces: seq<Chunk>, n: nat, d: string)
    requires PiecesOf(pieces, d) && n <= |pieces|
    ensures Stored(map[], pieces[..n]) == map[] <==> n == 0
    ensures pieces != []
  {
    hide Key, Stored, OfDocument;
    assert KeysOf(map[], d) == {};
    PrefixByDocument(map[], pieces, n, d, d);
  }

  /** Such leftovers are not on disk yet, but the next successful removal of any other document writes them. */
  lemma LeftoversReachDisk(s: Persistent, op: Op, e: string)
    requires Consistent(Halves(s)) && s.file.memory == s.file.disk
    requires op.ctx.Live? && Upserting(op) && 0 < FirstUnusable(op.embedding.value) < |op.embedding.value|
    requires e != DocumentOf(op)
    ensures var s1 := ApplyEvent(s, Operation(op));
            var s2 := ApplyEvent(s1, Operation(RemoveOp(Live, e)));
            var left := Stored(map[], Pieces(op.document).value[..FirstUnusable(op.embedding.value)]);
            && left != map[]
            && OfDocument(s1.lexical, op.document.id) == OfDocument(ChunksIn(s1.file.disk), op.document.id) == map[]
            && OfDocument(s2.lexical, op.document.id) == map[]
            && OfDocument(ChunksIn(s2.file.disk), op.document.id) == left
  {
    hide OfDocument, Stored, Pieces, Keyed, ChunksIn, FirstUnusable, PiecesOf, Upserted, KeysOf, EntryKeysOf;
    var d := op.document.id;
    var s1 := ApplyEvent(s, Operation(op));
    FileStepByDocument(s, op, d);
    FileConsistent(s, op);
    FileStepByDocument(s1, RemoveOp(Live, e), d);
    PiecesAreOfDocument(op.document);
    EmptyPrefix(Pieces(op.document).value, FirstUnusable(op.embedding.value), d);
    FileStepByDocument(s, RemoveOp(Live, d), d);
  }

  lemma FileConsistent(s: Persistent, op: Op)
    requires Consistent(Halves(s))
    ensures Consistent(Halves(ApplyEvent(s, Operation(op))))
  {
    hide Upserted, Stored, Pieces, Keyed, KeysOf, EntryKeysOf, FirstUnusable, ChunksIn, PiecesOf;
    var d := DocumentOf(op);
    RemovalCleared(s.lexical, d);
    ChunksInRemoval(s.file.memory, d);
    RemovalCleared(ChunksIn(s.file.memory), d);
    if Upserting(op) {
      var pieces, vectors := Pieces(op.document).value, op.embedding.value;
      var n := FirstUnusable(vectors);
      PiecesAreOfDocument(op.document);
      var lexical, memory := s.lexical - KeysOf(s.lexical, d), s.file.memory - EntryKeysOf(s.file.memory, d);
      StoredKeyed(lexical, pieces, d);
      ChunksInUpserted(memory, pieces[..n], vectors[..n]);
      WholeUpsert(memory, pieces, vectors);
      if n > 0 {
        PrefixPieces(pieces, n, d);
        StoredKeyed(ChunksIn(memory), pieces[..n], d);
      } else {
        NothingStored(ChunksIn(memory), pieces);
      }
    }
  }

  // ----- Whole histories

  /** What the events leave indexed; a restart indexes nothing and forgets nothing. */
  ghost function FileDocuments(events: seq<Event>): map<string, seq<Chunk>> {
    if events == [] then map[]
    else
      var docs, event := FileDocuments(events[..|events| - 1]), events[|events| - 1];
      if event.Restart? then docs else DocumentsAfter(docs, event.op)
  }

  /** No operation of the history parts the halves. */
  ghost predicate Steady(events: seq<Event>) {
    forall i | 0 <= i < |events| && events[i].Operation? :: !Parting(History(events[..i]), events[i].op)
  }

  lemma SteadyFront(events: seq<Event>)
    requires Steady(events) && events != []
    ensures var n := |events| - 1;
            Steady(events[..n]) && (events[n].Operation? ==> !Parting(History(events[..n]), events[n].op))
  {
    hide History, Parting;
    var front := events[..|events| - 1];
    assert forall i | 0 <= i < |front| :: front[..i] == events[..i] && front[i] == events[i];
  }

  lemma MemoryStaysOnDisk(s: Persistent, op: Op)
    requires s.file.memory == s.file.disk && !Parting(s, op)
    ensures ApplyEvent(s, Operation(op)).file.memory == ApplyEvent(s, Operation(op)).file.disk
  {
    hide Upserted, Stored, Pieces, KeysOf, EntryKeysOf, FirstUnusable, OfDocument;
    if Upserting(op) {
      var d, pieces, vectors := DocumentOf(op), Pieces(op.document).value, op.embedding.value;
      NothingPut(s.file.memory - EntryKeysOf(s.file.memory, d), pieces, vectors);
    }
  }

  lemma DocumentsStep(s: Persistent, docs: map<string, seq<Chunk>>, op: Op, d: string)
    requires Consistent(Halves(s)) && !Parting(s, op)
    requires OfDocument(s.lexical, d) == Listed(docs, d)
    ensures OfDocument(ApplyEvent(s, Operation(op)).lexical, d) == Listed(DocumentsAfter(docs, op), d)
  {
    hide ApplyEvent, Stored, Pieces, OfDocument, ChunksIn, Keyed, FirstUnusable, PiecesOf;
    FileStepByDocument(s, op, d);
    if op.AddOp? && Accepted(op.document, op.embedding) {
      PiecesAreOfDocument(op.document);
      EmptyPrefix(Pieces(op.document).value, 0, op.document.id);
    }
  }

  /** What holds between the events of a steady history. */
  ghost predicate Settled(s: Persistent, docs: map<string, seq<Chunk>>) {
    && s.file.memory == s.file.disk
    && Agree(Halves(s))
    && forall d :: OfDocument(s.lexical, d) == Listed(docs, d)
  }

  lemma SettledStep(s: Persistent, docs: map<string, seq<Chunk>>, op: Op)
    requires Consistent(Halves(s)) && Settled(s, docs) && !Parting(s, op)
    ensures Settled(ApplyEvent(s, Operation(op)), DocumentsAfter(docs, op))
  {
    hide ApplyEvent, OfDocument, Agree, Parting, Listed, DocumentsAfter, Keyed;
    MemoryStaysOnDisk(s, op);
    FileAgreementStep(s, op);
    forall d: string
      ensures OfDocument(ApplyEvent(s, Operation(op)).lexical, d) == Listed(DocumentsAfter(docs, op), d)
    {
      DocumentsStep(s, docs, op, d);
    }
  }

  lemma SettledStart()
    ensures Settled(Persistent(map[], FileState(map[], map[])), map[])
  {
    forall d: string
      ensures OfDocument(map[], d) == Listed(map[], d)
    {
      NothingIndexed();
    }
  }

  lemma SettledRestart(s: Persistent, docs: map<string, seq<Chunk>>)
    requires Settled(s, docs)
    ensures Settled(Restarted(s), docs)
  {
    hide OpenProblem, OfDocument, Listed;
  }

  /** After any steady history, restarts included, memory, disk and the lexical half hold exactly the chunks of
      the documents indexed. */
  lemma {:induction false} FileIsItsDocuments(events: seq<Event>)
    requires Steady(events)
    ensures Settled(History(events), FileDocuments(events))
  {
    hide Settled, Steady, SoundState, DocumentsAfter, Parting, Consistent, FileHybridAddition, FileHybridRemoval,
         Restarted;
    if events == [] {
      SettledStart();
    } else {
      var n := |events| - 1;
      var s, docs := History(events[..n]), FileDocuments(events[..n]);
      SteadyFront(events);
      FileIsItsDocuments(events[..n]);
      AlwaysSound(events[..n]);
      SoundKeyed(s);
      match events[n]
      case Restart =>
        SettledRestart(s, docs);
        assert History(events) == Restarted(s);
      case Operation(op) => SettledStep(s, docs, op);
    }
  }

  /** Until one parts them, that is; a history whose halves agree after every event is steady, and conversely. */
  lemma FileAgreementOverRuns(events: seq<Event>)
    ensures (forall n | 0 <= n <= |events| :: Agree(Halves(History(events[..n])))) <==> Steady(events)
  {
    hide ApplyEvent, Agree, History, Parting, SoundState, Consistent;
    if Steady(events) {
      forall n | 0 <= n <= |events|
        ensures Agree(Halves(History(events[..n])))
      {
        assert forall i | 0 <= i < n :: events[..n][..i] == events[..i] && events[..n][i] == events[i];
        FileIsItsDocuments(events[..n]);
      }
    } else {
      var i: nat :| i < |events| && events[i].Operation? && Parting(History(events[..i]), events[i].op);
      AlwaysSound(events[..i]);
      SoundKeyed(History(events[..i]));
      HistoryStep(events[..i], events[i]);
      assert events[..i] + [events[i]] == events[..i + 1];
      if Agree(Halves(History(events[..i]))) {
        FileAgreementStep(History(events[..i]), events[i].op);
        assert !Agree(Halves(History(events[..i + 1])));
      }
    }
  }

  /** What a restart makes of leftovers that reached the disk: both halves then hold the chunks up to the first
      bad vector, some but not all, of a document whose Add failed. */
  lemma LeftoversAfterRestart(events: seq<Event>, op: Op, e: string)
    requires History(events).file.memory == History(events).file.disk
    requires op.ctx.Live? && Upserting(op) && 0 < FirstUnusable(op.embedding.value) < |op.embedding.value|
    requires e != DocumentOf(op)
    ensures var s, d := History(events + [Operation(op), Operation(RemoveOp(Live, e)), Restart]), op.document.id;
            var pieces, n := Pieces(op.document).value, FirstUnusable(op.embedding.value);
            && Agree(Halves(s)) && OfDocument(s.lexical, d) == Stored(map[], pieces[..n])
            && {} < Stored(map[], pieces[..n]).Keys < Stored(map[], pieces).Keys
  {
    hide History, OfDocument, Agree, ApplyEvent, Keyed, Stored, Pieces, FirstUnusable, OpenProblem, SoundState,
         PiecesOf;
    var one, two := events + [Operation(op)], events + [Operation(op), Operation(RemoveOp(Live, e))];
    assert one + [Operation(RemoveOp(Live, e))] == two;
    assert two + [Restart] == events + [Operation(op), Operation(RemoveOp(Live, e)), Restart];
    HistoryStep(events, Operation(op));
    HistoryStep(one, Operation(RemoveOp(Live, e)));
    AlwaysSound(events);
    SoundKeyed(History(events));
    LeftoversReachDisk(History(events), op, e);
    RestartRestoresAgreement(two, 0.0);
    RestartReads(two);
    PiecesAreOfDocument(op.document);
    StrictPrefix(Pieces(op.document).value, FirstUnusable(op.embedding.value), op.document.id);
  }

  lemma RestartReads(events: seq<Event>)
    ensures History(events + [Restart]).lexical == ChunksIn(History(events).file.disk)
  {
    hide History, OpenProblem, ChunksIn;
    RestartRestoresAgreement(events, 0.0);
    HistoryStep(events, Restart);
  }

  lemma StrictPrefix(pieces: seq<Chunk>, n: nat, d: string)
    requires PiecesOf(pieces, d) && 0 < n < |pieces|
    ensures {} < Stored(map[], pieces[..n]).Keys < Stored(map[], pieces).Keys
  {
    hide Key, PutAll;
    var prefix := pieces[..n];
    PutAllKeys(map[], Ids(prefix), prefix);
    PutAllKeys(map[], Ids(pieces), pieces);
    assert forall i | 0 <= i < n :: Ids(prefix)[i] == Ids(pieces)[i];
    assert Ids(prefix)[0] in Stored(map[], prefix);
    assert Ids(pieces)[n] in Stored(map[], pieces) && Ids(pieces)[n] !in Stored(map[], prefix);
  }
}
