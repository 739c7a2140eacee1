/** The hybrid index that NewPersistentHybridIndex returns: HybridIndex (internal/knowledge/vector.go) with its
    vector half over a file (internal/knowledge/persistent.go). */
module PersistentHybrid {
  import opened Results
  import opened Splitter
  import opened Scoring
  import opened IndexTypes
  import opened LexicalIndex
  import opened VectorIndex
  import opened HybridIndex
  import opened PersistentIndex

  datatype Persistent = Persistent(lexical: map<string, Chunk>, file: FileState)

  ghost function FileHybridRemoval(s: Persistent, ctx: Context, d: string): (Persistent, Outcome) {
    var (file, failure) := FileRemoval(s.file, ctx.Cancelled(1), d);
    if failure.Some? then (s, failure)
    else if ctx.Cancelled(2) then (s.(file := file), Some(Canceled))
    else (Persistent(s.lexical - KeysOf(s.lexical, d), file), None)
  }

  ghost function FileHybridAddition(s: Persistent, ctx: Context, document: Document, embedding: Embedding)
    : (Persistent, Outcome)
  {
    var (cleared, failure) := FileHybridRemoval(s, ctx, document.id);
    if failure.Some? then (cleared, failure)
    else
      match Pieces(document)
      case Failure(problem) => (cleared, Some(BadDocument(problem)))
      case Success(pieces) =>
        if embedding.None? then (cleared, Some(EmbedFailed))
        else
          var (file, refusal) := FileUpsert(cleared.file, ctx.Cancelled(3), pieces, embedding.value);
          if refusal.Some? || ctx.Cancelled(4)
          then (cleared.(file := file), if refusal.Some? then refusal else Some(Canceled))
          else (Persistent(Stored(cleared.lexical, pieces), file), None)
  }

  /** Over a file an operation succeeds or fails as it does in memory, and leaves the same lexical half. */
  lemma OutcomeAsInMemory(s: Persistent, ctx: Context, document: Document, embedding: Embedding)
    ensures var (file, memory) := (FileHybridAddition(s, ctx, document, embedding),
                                   Addition(Hybrid(s.lexical, s.file.memory), ctx, document, embedding));
            file.1 == memory.1 && file.0.lexical == memory.0.lexical
    ensures var (file, memory) := (FileHybridRemoval(s, ctx, document.id),
                                   Removal(Hybrid(s.lexical, s.file.memory), ctx, document.id));
            file.1 == memory.1 && Hybrid(file.0.lexical, file.0.file.memory) == memory.0
  {
    hide Pieces, Upserted, Stored, KeysOf, EntryKeysOf, FirstUnusable;
  }

  class FileHybridIndex {
    const lexical: InMemoryIndex
    const vector: FileVectorIndex

    ghost predicate Valid()
      reads lexical, vector
    {
      lexical.Valid() && vector.Valid()
    }

    ghost function State(): Persistent
      reads lexical, vector
    {
      Persistent(lexical.chunks, vector.State())
    }

    constructor (lexical: InMemoryIndex, vector: FileVectorIndex)
      requires lexical.Valid() && vector.Valid()
      ensures Valid() && this.lexical == lexical && this.vector == vector
    {
      this.lexical := lexical;
      this.vector := vector;
    }

    method RemoveDocument(ctx: Context, documentId: string) returns (outcome: Outcome)
      requires Valid()
      modifies lexical, vector
      ensures Valid()
      ensures (State(), outcome) == FileHybridRemoval(old(State()), ctx, documentId)
    {
      hide IsRoot;
      if ctx.Cancelled(0) {
        return Some(Canceled);
      }
      outcome := vector.RemoveDocument(ctx.Cancelled(1), documentId);
      if outcome.Some? {
        return;
      }
      outcome := lexical.RemoveDocument(ctx.Cancelled(2), documentId);
    }

    method Add(ctx: Context, document: Document, embedding: Embedding) returns (outcome: Outcome)
      requires Valid()
      modifies lexical, vector
      ensures Valid()
      ensures (State(), outcome) == FileHybridAddition(old(State()), ctx, document, embedding)
    {
      hide IsRoot, Split, Upserted, Stored, KeysOf, EntryKeysOf, ById, EntriesById;
      outcome := RemoveDocument(ctx, document.id);
      if outcome.Some? {
        return;
      }
      DefaultSplitFinishes(document);
      var split := SplitDocument(document, DEFAULT_OPTIONS);
      if split.Invalid? {
        return Some(BadDocument(split.error));
      }
      if embedding.None? {
        return Some(EmbedFailed);
      }
      outcome := vector.Upsert(ctx.Cancelled(3), split.chunks, embedding.value);
      if outcome.Some? {
        return;
      }
      outcome := lexical.Add(ctx.Cancelled(4), document);
    }
  }
}
