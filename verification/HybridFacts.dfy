/** How far the two halves of a hybrid index agree: after any run of operations, and after a repair. */
module HybridFacts {
  import opened ChunkKeys
  import opened Splitter
  import opened SplitterFacts
  import opened Scoring
  import opened Collections
  import opened KeyedMaps
  import opened IndexTypes
  import opened LexicalIndex
  import opened VectorIndex
  import opened HybridIndex

  // ----- Runs

  datatype Op =
    | AddOp(ctx: Context, document: Document, embedding: Embedding)
    | RemoveOp(ctx: Context, documentId: string)

  ghost function Apply(s: Hybrid, op: Op): Hybrid {
    match op
    case AddOp(ctx, document, embedding) => Addition(s, ctx, document, embedding).0
    case RemoveOp(ctx, documentId) => Removal(s, ctx, documentId).0
  }

  ghost function Run(ops: seq<Op>): Hybrid {
    if ops == [] then Hybrid(map[], map[]) else Apply(Run(ops[..|ops| - 1]), ops[|ops| - 1])
  }

  // ----- What is compared

  ghost predicate Agree(s: Hybrid) {
    s.lexical == ChunksIn(s.vector)
  }

  /** Chunks are stored under the key made of their document ID and ordinal. */
  ghost predicate Keyed(chunks: map<string, Chunk>) {
    forall id | id in chunks :: id == chunks[id].id == Key(chunks[id].documentId, chunks[id].ordinal)
  }

  ghost predicate Consistent(s: Hybrid) {
    Keyed(s.lexical) && Keyed(ChunksIn(s.vector))
  }

  ghost function OfDocument(chunks: map<string, Chunk>, d: string): map<string, Chunk> {
    map id | id in chunks && chunks[id].documentId == d :: chunks[id]
  }

  ghost predicate AgreeOn(s: Hybrid, d: string) {
    OfDocument(s.lexical, d) == OfDocument(ChunksIn(s.vector), d)
  }

  lemma AgreeIffOnEach(s: Hybrid)
    ensures Agree(s) <==> forall d :: AgreeOn(s, d)
  {
    if forall d :: AgreeOn(s, d) {
      var a, b := s.lexical, ChunksIn(s.vector);
      forall id: string
        ensures id in a ==> id in b && b[id] == a[id]
        ensures id in b ==> id in a
      {
        if id in a {
          assert AgreeOn(s, a[id].documentId);
          SeenInDocument(a, b, id);
        }
        if id in b {
          assert AgreeOn(s, b[id].documentId);
          SeenInDocument(b, a, id);
        }
      }
      assert a == b;
    }
  }

  lemma SeenInDocument(a: map<string, Chunk>, b: map<string, Chunk>, id: string)
    requires id in a && OfDocument(a, a[id].documentId) == OfDocument(b, a[id].documentId)
    ensures id in b && b[id] == a[id]
  {
    assert id in OfDocument(a, a[id].documentId);
    assert id in OfDocument(b, a[id].documentId);
  }

  // ----- The vector half, seen through its chunks

  lemma ChunksInRemoval(entries: map<string, Entry>, d: string)
    ensures ChunksIn(entries - EntryKeysOf(entries, d)) == ChunksIn(entries) - KeysOf(ChunksIn(entries), d)
  {
  }

  lemma {:induction false} ChunksInUpserted(entries: map<string, Entry>, chunks: seq<Chunk>, vectors: seq<Vector>)
    requires |chunks| == |vectors|
    ensures ChunksIn(Upserted(entries, chunks, vectors)) == Stored(ChunksIn(entries), chunks)
  {
    ChunksInPutAll(entries, Ids(chunks), Entries(chunks, vectors), chunks);
  }

  lemma {:induction false} ChunksInPutAll(entries: map<string, Entry>, ids: seq<string>, values: seq<Entry>,
                                          chunks: seq<Chunk>)
    requires |ids| == |values| == |chunks| && forall i | 0 <= i < |ids| :: values[i].chunk == chunks[i]
    ensures ChunksIn(PutAll(entries, ids, values)) == PutAll(ChunksIn(entries), ids, chunks)
  {
    if ids != [] {
      var n := |ids| - 1;
      ChunksInPutAll(entries, ids[..n], values[..n], chunks[..n]);
    }
  }

  // ----- What removing and storing do to each document

  lemma RemovalByDocument(chunks: map<string, Chunk>, d: string, e: string)
    ensures OfDocument(chunks - KeysOf(chunks, d), e) == if e == d then map[] else OfDocument(chunks, e)
  {
  }

  /** The chunks one document splits into, all under distinct keys of that document. */
  ghost predicate PiecesOf(pieces: seq<Chunk>, d: string) {
    && pieces != []
    && AllDifferent(Ids(pieces))
    && forall c | c in pieces :: c.documentId == d && c.id == Key(d, c.ordinal)
  }

  lemma PiecesAreOfDocument(document: Document)
    requires Pieces(document).Success?
    ensures PiecesOf(Pieces(document).value, document.id)
  {
    hide Split, Key;
    DefaultSplitFinishes(document);
    SplitChunkFacts(document, DEFAULT_OPTIONS);
  }

  /** Storing the chunks of d where none was left cannot overwrite another document's: keys are injective. */
  lemma StoredByDocument(chunks: map<string, Chunk>, pieces: seq<Chunk>, d: string, e: string)
    requires Keyed(chunks) && PiecesOf(pieces, d) && KeysOf(chunks, d) == {}
    ensures OfDocument(Stored(chunks, pieces), e) == if e == d then Stored(map[], pieces) else OfDocument(chunks, e)
  {
    hide Key;
    var put := Stored(map[], pieces);
    NoneOf(chunks, d);
    PutAllMerges(chunks, Ids(pieces), pieces);
    forall id | id in put
      ensures put[id].documentId == d && id !in chunks
    {
      PutIsPiece(pieces, d, id);
      if id in chunks {
        KeyInjective(d, put[id].ordinal, chunks[id].documentId, chunks[id].ordinal);
      }
    }
    assert Stored(chunks, pieces) == chunks + put;
  }

  lemma NoneOf(chunks: map<string, Chunk>, d: string)
    requires KeysOf(chunks, d) == {}
    ensures forall id | id in chunks :: chunks[id].documentId != d
  {
    assert forall id | id in chunks && chunks[id].documentId == d :: id in KeysOf(chunks, d);
  }

  lemma PutIsPiece(pieces: seq<Chunk>, d: string, id: string)
    requires PiecesOf(pieces, d) && id in Stored(map[], pieces)
    ensures var c := Stored(map[], pieces)[id];
            c in pieces && c.documentId == d && id == c.id == Key(d, c.ordinal)
  {
    hide Key;
    PutAllKeys(map[], Ids(pieces), pieces);
    var i: nat :| i < |pieces| && Ids(pieces)[i] == id;
    PutAllValues(map[], Ids(pieces), pieces, i);
  }

  lemma StoredKeyed(chunks: map<string, Chunk>, pieces: seq<Chunk>, d: string)
    requires Keyed(chunks) && PiecesOf(pieces, d)
    ensures Keyed(Stored(chunks, pieces))
  {
    hide Key;
    var put := Stored(map[], pieces);
    PutAllMerges(chunks, Ids(pieces), pieces);
    forall id | id in put
      ensures id == put[id].id == Key(put[id].documentId, put[id].ordinal)
    {
      PutIsPiece(pieces, d, id);
    }
  }

  lemma RemovalCleared(chunks: map<string, Chunk>, d: string)
    requires Keyed(chunks)
    ensures Keyed(chunks - KeysOf(chunks, d)) && KeysOf(chunks - KeysOf(chunks, d), d) == {}
  {
    hide Key;
  }

  // ----- One operation

  /** The context of one operation was live at its first n checks and cancelled at the next. */
  predicate CutAt(ctx: Context, n: nat) {
    ctx == CancelledFrom(n)
  }

  ghost predicate Accepted(document: Document, embedding: Embedding) {
    && Pieces(document).Success? && embedding.Some?
    && Refusal(false, Pieces(document).value, embedding.value).None?
  }

  /** What an operation leaves of document e in the lexical half, given what was there. */
  ghost function LexicalAfter(was: map<string, Chunk>, op: Op, e: string): map<string, Chunk> {
    match op
    case RemoveOp(ctx, d) => if e != d || ctx.Cancelled(2) then was else map[]
    case AddOp(ctx, document, embedding) =>
      if e != document.id || ctx.Cancelled(2) then was
      else if Accepted(document, embedding) && !ctx.Cancelled(4) then Stored(map[], Pieces(document).value)
      else map[]
  }

  ghost function VectorAfter(was: map<string, Chunk>, op: Op, e: string): map<string, Chunk> {
    match op
    case RemoveOp(ctx, d) => if e != d || ctx.Cancelled(1) then was else map[]
    case AddOp(ctx, document, embedding) =>
      if e != document.id || ctx.Cancelled(1) then was
      else if Accepted(document, embedding) && !ctx.Cancelled(3) then Stored(map[], Pieces(document).value)
      else map[]
  }

  /** Whatever its context does, an operation keeps the keys consistent and touches its own document only. */
  lemma StepByDocument(s: Hybrid, op: Op, e: string)
    requires Consistent(s)
    ensures Consistent(Apply(s, op))
    ensures OfDocument(Apply(s, op).lexical, e) == LexicalAfter(OfDocument(s.lexical, e), op, e)
    ensures OfDocument(ChunksIn(Apply(s, op).vector), e) == VectorAfter(OfDocument(ChunksIn(s.vector), e), op, e)
  {
    hide Key, Split, Pieces, Stored, Upserted, OfDocument, KeysOf, EntryKeysOf, ChunksIn, Keyed, FirstUnusable,
         PiecesOf;
    var d := if op.AddOp? then op.document.id else op.documentId;
    RemovalByDocument(s.lexical, d, e);
    RemovalCleared(s.lexical, d);
    ChunksInRemoval(s.vector, d);
    RemovalByDocument(ChunksIn(s.vector), d, e);
    RemovalCleared(ChunksIn(s.vector), d);
    if op.AddOp? && Accepted(op.document, op.embedding) {
      var pieces := Pieces(op.document).value;
      PiecesAreOfDocument(op.document);
      var lexical, vector := s.lexical - KeysOf(s.lexical, d), s.vector - EntryKeysOf(s.vector, d);
      StoredByDocument(lexical, pieces, d, e);
      StoredKeyed(lexical, pieces, d);
      StoredByDocument(ChunksIn(vector), pieces, d, e);
      StoredKeyed(ChunksIn(vector), pieces, d);
      ChunksInUpserted(vector, pieces, op.embedding.value);
    }
  }

  lemma SomethingStored(pieces: seq<Chunk>, d: string)
    requires PiecesOf(pieces, d)
    ensures Stored(map[], pieces) != map[]
  {
    PutAllValues(map[], Ids(pieces), pieces, 0);
  }

  // ----- Agreement

  function DocumentOf(op: Op): string {
    if op.AddOp? then op.document.id else op.documentId
  }

  /** Cancelled between the two removals of a document that is indexed, or between the two insertions. */
  ghost predicate CutInside(s: Hybrid, op: Op) {
    || (CutAt(op.ctx, 2) && OfDocument(s.lexical, DocumentOf(op)) != map[])
    || (op.AddOp? && Accepted(op.document, op.embedding) && CutAt(op.ctx, 4))
  }

  /** Failed embeddings, refused upserts and bad documents never separate the halves. A cancellation does
      in exactly two places. */
  lemma AgreementStep(s: Hybrid, op: Op)
    requires Consistent(s) && Agree(s)
    ensures Agree(Apply(s, op)) <==> !CutInside(s, op)
  {
    hide Apply, OfDocument, Stored, Pieces, Keyed, Accepted, ChunksIn;
    var s', d := Apply(s, op), DocumentOf(op);
    AgreeIffOnEach(s');
    forall e: string
      ensures e != d ==> AgreeOn(s', e)
    {
      StepByDocument(s, op, e);
    }
    StepByDocument(s, op, d);
    assert Agree(s') <==> AgreeOn(s', d);
    if op.AddOp? && Accepted(op.document, op.embedding) {
      AcceptedSplits(op.document, op.embedding);
      PiecesAreOfDocument(op.document);
      SomethingStored(Pieces(op.document).value, d);
    }
  }

  lemma NothingIndexed()
    ensures Consistent(Hybrid(map[], map[])) && Agree(Hybrid(map[], map[]))
    ensures ChunksIn(map[]) == map[] && forall d :: OfDocument(map[], d) == map[]
  {
  }

  lemma AcceptedSplits(document: Document, embedding: Embedding)
    ensures Accepted(document, embedding) ==> Pieces(document).Success?
  {
    hide Pieces, Refusal;
  }

  lemma {:induction false} AlwaysConsistent(ops: seq<Op>)
    ensures Consistent(Run(ops))
  {
    hide Apply, Keyed;
    if ops != [] {
      AlwaysConsistent(ops[..|ops| - 1]);
      StepByDocument(Run(ops[..|ops| - 1]), ops[|ops| - 1], "");
    } else {
      NothingIndexed();
    }
  }

  /** What the operations leave indexed: each document's chunks, until it is removed, replaced or fails to be. */
  ghost function Documents(ops: seq<Op>): map<string, seq<Chunk>> {
    if ops == [] then map[] else DocumentsAfter(Documents(ops[..|ops| - 1]), ops[|ops| - 1])
  }

  ghost function DocumentsAfter(docs: map<string, seq<Chunk>>, op: Op): map<string, seq<Chunk>> {
    if op.ctx.Cancelled(1) then docs
    else if op.AddOp? && Accepted(op.document, op.embedding) && !op.ctx.Cancelled(3)
    then docs[op.document.id := Pieces(op.document).value]
    else docs - {DocumentOf(op)}
  }

  ghost function Listed(docs: map<string, seq<Chunk>>, d: string): map<string, Chunk> {
    if d in docs then Stored(map[], docs[d]) else map[]
  }

  /** No operation of the run was cancelled where that separates the halves. */
  ghost predicate NeverCut(ops: seq<Op>) {
    forall i | 0 <= i < |ops| :: !CutInside(Run(ops[..i]), ops[i])
  }

  lemma NeverCutFront(ops: seq<Op>)
    requires NeverCut(ops) && ops != []
    ensures NeverCut(ops[..|ops| - 1]) && !CutInside(Run(ops[..|ops| - 1]), ops[|ops| - 1])
  {
    hide Run, CutInside;
    var front := ops[..|ops| - 1];
    assert forall i | 0 <= i < |front| :: front[..i] == ops[..i] && front[i] == ops[i];
  }

  /** Both halves hold exactly the chunks of the documents indexed, after every such run. */
  lemma {:induction false} IndexIsItsDocuments(ops: seq<Op>, d: string)
    requires NeverCut(ops)
    ensures OfDocument(Run(ops).lexical, d) == Listed(Documents(ops), d)
    ensures OfDocument(ChunksIn(Run(ops).vector), d) == Listed(Documents(ops), d)
  {
    hide Apply, Stored, Pieces, Keyed, Accepted, OfDocument, ChunksIn, Consistent, NeverCut;
    if ops == [] {
      NothingIndexed();
    } else {
      var front, op := ops[..|ops| - 1], ops[|ops| - 1];
      NeverCutFront(ops);
      IndexIsItsDocuments(front, d);
      AlwaysConsistent(front);
      StepByDocument(Run(front), op, d);
    }
  }

  lemma {:induction false} AgreementWhileUncut(ops: seq<Op>)
    ensures NeverCut(ops) ==> Agree(Run(ops))
    ensures (forall n | 0 <= n <= |ops| :: Agree(Run(ops[..n]))) ==> NeverCut(ops)
  {
    hide Apply, CutInside, Consistent, Agree;
    if ops == [] {
      NothingIndexed();
    } else {
      var front, op := ops[..|ops| - 1], ops[|ops| - 1];
      AgreementWhileUncut(front);
      AlwaysConsistent(front);
      assert forall n | 0 <= n <= |front| :: front[..n] == ops[..n];
      assert ops[..|ops|] == ops && Run(ops) == Apply(Run(front), op);
      if Agree(Run(front)) {
        AgreementStep(Run(front), op);
      }
      if NeverCut(ops) {
        NeverCutFront(ops);
      }
    }
  }

  /** Over a whole run the halves agree after every operation if and only if no operation was cut there. */
  lemma AgreementOverRuns(ops: seq<Op>)
    ensures (forall n | 0 <= n <= |ops| :: Agree(Run(ops[..n]))) <==> NeverCut(ops)
  {
    hide Apply, CutInside, Agree, Run;
    AgreementWhileUncut(ops);
    if NeverCut(ops) {
      forall n | 0 <= n <= |ops|
        ensures Agree(Run(ops[..n]))
      {
        assert forall i | 0 <= i < n :: ops[..n][..i] == ops[..i] && ops[..n][i] == ops[i];
        AgreementWhileUncut(ops[..n]);
      }
    }
  }

  /** In particular when every context stays live through the operation, or was cancelled before it. */
  lemma LiveContextsNeverCut(ops: seq<Op>)
    requires forall i | 0 <= i < |ops| :: ops[i].ctx.Live? || ops[i].ctx == CancelledFrom(0)
    ensures NeverCut(ops) && Agree(Run(ops))
  {
    hide Run, Accepted, OfDocument, Agree;
    AgreementWhileUncut(ops);
  }

  // ----- Repair

  lemma AdditionOutcome(s: Hybrid, ctx: Context, document: Document, embedding: Embedding)
    ensures Addition(s, ctx, document, embedding).1.None? <==> Accepted(document, embedding) && !ctx.Cancelled(4)
  {
    hide Pieces, Stored, Upserted, KeysOf, EntryKeysOf, FirstUnusable;
  }

  /** From any consistent state, halves that disagree included, a successful Add leaves exactly the chunks of
      the document in both, other documents as they were, and full agreement just when the others agreed. */
  lemma AddRepairs(s: Hybrid, ctx: Context, document: Document, embedding: Embedding)
    requires Consistent(s) && Addition(s, ctx, document, embedding).1.None?
    ensures var s', d := Addition(s, ctx, document, embedding).0, document.id;
            && Pieces(document).Success?
            && OfDocument(s'.lexical, d) == OfDocument(ChunksIn(s'.vector), d) == Stored(map[], Pieces(document).value)
            && (forall e | e != d ::
                  && OfDocument(s'.lexical, e) == OfDocument(s.lexical, e)
                  && OfDocument(ChunksIn(s'.vector), e) == OfDocument(ChunksIn(s.vector), e))
            && (Agree(s') <==> forall e | e != d :: AgreeOn(s, e))
  {
    hide Addition, Stored, Pieces, Keyed, Accepted, OfDocument, ChunksIn, Consistent;
    var s', d, op := Addition(s, ctx, document, embedding).0, document.id, AddOp(ctx, document, embedding);
    AdditionOutcome(s, ctx, document, embedding);
    AcceptedSplits(document, embedding);
    AgreeIffOnEach(s');
    StepByDocument(s, op, d);
    forall e: string | e != d
      ensures OfDocument(s'.lexical, e) == OfDocument(s.lexical, e)
      ensures OfDocument(ChunksIn(s'.vector), e) == OfDocument(ChunksIn(s.vector), e)
      ensures AgreeOn(s', e) <==> AgreeOn(s, e)
    {
      StepByDocument(s, op, e);
    }
  }

  /** The stored vectors: chunk i of the document carries vector i, other documents keep theirs. */
  lemma AddKeepsVectors(s: Hybrid, ctx: Context, document: Document, embedding: Embedding, id: string)
    requires Consistent(s) && Addition(s, ctx, document, embedding).1.None?
    ensures var s', pieces := Addition(s, ctx, document, embedding).0, Pieces(document).value;
            && Pieces(document).Success? && embedding.Some? && |embedding.value| == |pieces|
            && (forall i | 0 <= i < |pieces| ::
                  pieces[i].id in s'.vector && s'.vector[pieces[i].id] == Entry(pieces[i], embedding.value[i]))
            && (id in s.vector && s.vector[id].chunk.documentId != document.id ==>
                id in s'.vector && s'.vector[id] == s.vector[id])
  {
    hide Pieces, Stored, KeysOf, Key, FirstUnusable;
    var s', pieces, vectors := Addition(s, ctx, document, embedding).0, Pieces(document).value, embedding.value;
    PiecesAreOfDocument(document);
    var cleared := s.vector - EntryKeysOf(s.vector, document.id);
    assert s'.vector == PutAll(cleared, Ids(pieces), Entries(pieces, vectors));
    forall i | 0 <= i < |pieces|
      ensures pieces[i].id in s'.vector && s'.vector[pieces[i].id] == Entry(pieces[i], vectors[i])
    {
      PutAllValues(cleared, Ids(pieces), Entries(pieces, vectors), i);
    }
    if id in s.vector && s.vector[id].chunk.documentId != document.id {
      if i: nat :| i < |pieces| && pieces[i].id == id {
        assert pieces[i] in pieces && ChunksIn(s.vector)[id].id == id;
        KeyInjective(document.id, pieces[i].ordinal, s.vector[id].chunk.documentId, s.vector[id].chunk.ordinal);
      }
      PutAllKeys(map[], Ids(pieces), Entries(pieces, vectors));
      PutAllMerges(cleared, Ids(pieces), Entries(pieces, vectors));
      assert id in cleared;
    }
  }

  /** What a cancellation between the two removals leaves: the text of a document that has no vectors. */
  lemma InterruptedRemoval(ops: seq<Op>, d: string)
    requires Agree(Run(ops)) && OfDocument(Run(ops).lexical, d) != map[]
    ensures var s := Run(ops + [RemoveOp(CancelledFrom(2), d)]);
            !Agree(s) && OfDocument(s.lexical, d) != map[] && OfDocument(ChunksIn(s.vector), d) == map[]
  {
    hide Apply, OfDocument, ChunksIn, Keyed;
    var op := RemoveOp(CancelledFrom(2), d);
    assert (ops + [op])[..|ops|] == ops;
    AlwaysConsistent(ops);
    AgreementStep(Run(ops), op);
    StepByDocument(Run(ops), op, d);
  }
}
