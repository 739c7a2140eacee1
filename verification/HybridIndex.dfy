/** Model of HybridIndex (internal/knowledge/vector.go). What the embedding model answers is a parameter. */
module HybridIndex {
  import opened Results
  import opened Splitter
  import opened Tokenizer
  import opened Fusion
  import opened Scoring
  import opened Ranking
  import opened IndexTypes
  import opened LexicalIndex
  import opened VectorIndex

  /** None for an error, otherwise any list of vectors. */
  type Embedding = Option<seq<Vector>>

  /** What the two indexes hold. */
  datatype Hybrid = Hybrid(lexical: map<string, Chunk>, vector: map<string, Entry>)

  /** Removing a document looks at the context three times: first, before the vectors, before the chunks. */
  ghost function Removal(s: Hybrid, ctx: Context, documentId: string): (Hybrid, Outcome) {
    var vector := s.vector - EntryKeysOf(s.vector, documentId);
    if ctx.Cancelled(1) then (s, Some(Canceled))
    else if ctx.Cancelled(2) then (s.(vector := vector), Some(Canceled))
    else (Hybrid(s.lexical - KeysOf(s.lexical, documentId), vector), None)
  }

  /** Adding looks at it twice more: before the upsert and before the lexical add. */
  ghost function Addition(s: Hybrid, ctx: Context, document: Document, embedding: Embedding): (Hybrid, Outcome) {
    var (cleared, failure) := Removal(s, ctx, document.id);
    if failure.Some? then (cleared, failure)
    else
      match Pieces(document)
      case Failure(problem) => (cleared, Some(BadDocument(problem)))
      case Success(pieces) =>
        if embedding.None? then (cleared, Some(EmbedFailed))
        else
          var refusal := Refusal(ctx.Cancelled(3), pieces, embedding.value);
          if refusal.Some? then (cleared, refusal)
          else
            var upserted := cleared.(vector := Upserted(cleared.vector, pieces, embedding.value));
            if ctx.Cancelled(4) then (upserted, Some(Canceled))
            else (upserted.(lexical := Stored(cleared.lexical, pieces)), None)
  }

  /** When an Add succeeds, and when it fails for which reason; a context that is cancelled comes first. */
  lemma AdditionOutcome(s: Hybrid, ctx: Context, document: Document, embedding: Embedding)
    ensures var outcome := Addition(s, ctx, document, embedding).1;
            var whole := Pieces(document).Success? && embedding.Some?;
            var fits := whole && |embedding.value| == |Pieces(document).value|;
            var usable := fits && forall i | 0 <= i < |embedding.value| :: Usable(embedding.value[i]);
            && (outcome == None <==> usable && !ctx.Cancelled(4))
            && (Pieces(document).Failure? && !ctx.Cancelled(2) ==>
                  outcome == Some(BadDocument(Pieces(document).error)))
            && (outcome == Some(EmbedFailed) <==>
                  Pieces(document).Success? && embedding.None? && !ctx.Cancelled(2))
            && (outcome == Some(LengthMismatch) <==> whole && !fits && !ctx.Cancelled(3))
            && (outcome.Some? && outcome.value.BadVector? <==> fits && !usable && !ctx.Cancelled(3))
            && (outcome == Some(Canceled) <==>
                  ctx.Cancelled(2) || (whole && ctx.Cancelled(3)) || (usable && ctx.Cancelled(4)))
  {
    hide Pieces, Usable, KeysOf, EntryKeysOf, Upserted, Stored;
  }

  // ----- The index

  /** Why a search fails, if it does; the context is looked at by each of the two searches. */
  ghost function SearchProblem(u: Unicode, ctx: Context, query: string, embedding: Embedding): Outcome {
    if embedding.None? then Some(EmbedFailed)
    else if |embedding.value| != 1 then Some(QueryVectors(|embedding.value|))
    else if ctx.Cancelled(0) then Some(Canceled)
    else if Tokens(u, query) == [] then Some(EmptyQuery)
    else if ctx.Cancelled(1) then Some(Canceled)
    else if !Usable(embedding.value[0]) then Some(BadQueryVector)
    else None
  }

  /** A search succeeds if and only if the query is embedded as one vector that is not zero, has a token, and the
      context is live for both searches; otherwise the first of the checks that fails is reported. */
  lemma SearchSucceedsIff(u: Unicode, ctx: Context, query: string, embedding: Embedding)
    ensures var problem := SearchProblem(u, ctx, query, embedding);
            var single := embedding.Some? && |embedding.value| == 1;
            var nonzero := single && exists i | 0 <= i < |embedding.value[0]| :: embedding.value[0][i] != 0.0;
            && (problem == None <==> nonzero && Tokens(u, query) != [] && !ctx.Cancelled(1))
            && (problem == Some(EmbedFailed) <==> embedding.None?)
            && (problem.Some? && problem.value.QueryVectors? <==> embedding.Some? && !single)
            && (problem == Some(EmptyQuery) <==> single && !ctx.Cancelled(0) && Tokens(u, query) == [])
            && (problem == Some(BadQueryVector) <==>
                  single && !nonzero && Tokens(u, query) != [] && !ctx.Cancelled(1))
            && (problem == Some(Canceled) <==>
                  single && (ctx.Cancelled(0) || (ctx.Cancelled(1) && Tokens(u, query) != [])))
  {
    hide Tokens;
  }

  class HybridIndex {
    const lexical: InMemoryIndex
    const vector: InMemoryVectorIndex
    const alpha: real

    ghost predicate Valid()
      reads lexical, vector
    {
      lexical.Valid() && vector.Valid() && 0.0 <= alpha <= 1.0
    }

    ghost function State(): Hybrid
      reads lexical, vector
    {
      Hybrid(lexical.chunks, vector.entries)
    }

    constructor (unicode: Unicode, root: real -> real, alpha: real)
      requires IsRoot(root) && 0.0 <= alpha <= 1.0
      ensures Valid() && fresh(lexical) && fresh(vector)
      ensures State() == Hybrid(map[], map[]) && this.alpha == alpha
    {
      this.lexical := new InMemoryIndex(unicode);
      this.vector := new InMemoryVectorIndex(root);
      this.alpha := alpha;
    }

    method RemoveDocument(ctx: Context, documentId: string) returns (outcome: Outcome)
      requires Valid()
      modifies lexical, vector
      ensures Valid()
      ensures (State(), outcome) == Removal(old(State()), ctx, documentId)
    {
      hide IsRoot;
      if ctx.Cancelled(0) {
        return Some(Canceled);
      }
      outcome := vector.RemoveDocument(ctx.Cancelled(1), documentId);
      if outcome.Some? {
        return;
      }
      outcome := lexical.RemoveDocument(ctx.Cancelled(2), documentId);
    }

    method Add(ctx: Context, document: Document, embedding: Embedding) returns (outcome: Outcome)
      requires Valid()
      modifies lexical, vector
      ensures Valid()
      ensures (State(), outcome) == Addition(old(State()), ctx, document, embedding)
    {
      hide IsRoot, Split, Upserted, Stored, KeysOf, EntryKeysOf, ById, EntriesById;
      outcome := RemoveDocument(ctx, document.id);
      if outcome.Some? {
        return;
      }
      DefaultSplitFinishes(document);
      var split := SplitDocument(document, DEFAULT_OPTIONS);
      if split.Invalid? {
        return Some(BadDocument(split.error));
      }
      if embedding.None? {
        return Some(EmbedFailed);
      }
      outcome := vector.Upsert(ctx.Cancelled(3), split.chunks, embedding.value);
      if outcome.Some? {
        return;
      }
      outcome := lexical.Add(ctx.Cancelled(4), document);
    }

    /** Both searches, then the fusion. Every fused score is between 0 and 1. */
    method SearchWithFilter(ctx: Context, query: string, embedding: Embedding, limit: int, filter: Filter)
      returns (r: Result<seq<Hit>, IndexError>, ghost lexicalTop: seq<Hit>, ghost vectorTop: seq<Hit>)
      requires Valid()
      ensures r.Failure? <==> SearchProblem(lexical.unicode, ctx, query, embedding).Some?
      ensures r.Failure? ==> Some(r.error) == SearchProblem(lexical.unicode, ctx, query, embedding)
      ensures r.Success? ==>
                && IsTop(lexicalTop,
                    LexicalHits(lexical.unicode, lexical.chunks, Tokens(lexical.unicode, query), filter),
                         EffectiveLimit(limit))
                && IsTop(vectorTop, VectorHits(vector.root, vector.entries, embedding.value[0], filter),
                         EffectiveLimit(limit))
                && LexicalAnswer(lexical.unicode, lexical.chunks, query, limit, filter, lexicalTop)
                && VectorAnswer(vector.root, vector.entries, embedding.value[0], limit, filter, vectorTop)
                && HybridAnswer(r.value, lexicalTop, vectorTop, alpha, limit)
      ensures r.Success? ==> forall h | h in r.value ::
                && 0.0 <= h.score <= 1.0
                && (|| (h.chunk.id in lexical.chunks && h.chunk == lexical.chunks[h.chunk.id])
                    || (h.chunk.id in vector.entries && h.chunk == vector.entries[h.chunk.id].chunk))
      ensures r.Success? ==> forall h, key | h in r.value && key in filter ::
                && h.chunk.metadata.Some?
                && filter[key] == (if key in h.chunk.metadata.value then h.chunk.metadata.value[key] else "")
    {
      hide IsRoot, Usable, Tokens, IsTop, IsHybridResult, LexicalHits, VectorHits, DistinctIds, ById, EntriesById,
           Matches, Score, Shared, FusedScore, InOrder, Cos;
      lexicalTop, vectorTop := [], [];
      if embedding.None? {
        r := Failure(EmbedFailed);
        return;
      }
      if |embedding.value| != 1 {
        r := Failure(QueryVectors(|embedding.value|));
        return;
      }
      r := lexical.SearchWithFilter(ctx.Cancelled(0), query, limit, filter);
      if r.Failure? {
        return;
      }
      var first := r.value;
      r := vector.SearchVectorWithFilter(ctx.Cancelled(1), embedding.value[0], limit, filter);
      if r.Failure? {
        return;
      }
      var second := r.value;
      lexicalTop, vectorTop := first, second;
      var terms := Tokens(lexical.unicode, query);
      TopDistinct(first, LexicalHits(lexical.unicode, lexical.chunks, terms, filter), EffectiveLimit(limit));
      TopDistinct(second, VectorHits(vector.root, vector.entries, embedding.value[0], filter), EffectiveLimit(limit));
      TopMatches(second, vector.root, vector.entries, embedding.value[0], filter, EffectiveLimit(limit));
      MatchingAll(second, filter);
      var results := Fuse(alpha, first, second, limit, filter);
      FusionIsHybrid(results, first, second, alpha, limit);
      TopCosines(second, vector.root, vector.entries, embedding.value[0], filter, EffectiveLimit(limit));
      FusedBounded(results, alpha, first, second, limit);
      r := Success(results);
    }
  }

  lemma TopDistinct(top: seq<Hit>, found: map<string, Hit>, limit: nat)
    requires IsTop(top, found, limit)
    ensures DistinctIds(top)
  {
    hide Before;
    forall i, j | 0 <= i < j < |top|
      ensures top[i].chunk.id != top[j].chunk.id
    {
      BeforeIsStrict();
      assert top[i] in top && top[j] in top && Before(top[i], top[j]);
    }
  }

  lemma TopMatches(top: seq<Hit>, root: real -> real, entries: map<string, Entry>, query: Vector, filter: Filter,
                   limit: nat)
    requires IsTop(top, VectorHits(root, entries, query, filter), limit)
    ensures forall h | h in top :: Matches(h.chunk.metadata, filter)
  {
    hide Before, Matches, Cos;
  }

  lemma TopCosines(top: seq<Hit>, root: real -> real, entries: map<string, Entry>, query: Vector, filter: Filter,
                   limit: nat)
    requires IsRoot(root) && IsTop(top, VectorHits(root, entries, query, filter), limit)
    ensures forall h | h in top :: -1.0 <= h.score <= 1.0
  {
    hide Before, Matches, Cos, IsRoot;
    var found := VectorHits(root, entries, query, filter);
    forall h | h in top
      ensures -1.0 <= h.score <= 1.0
    {
      assert h.chunk.id in found && found[h.chunk.id] == h;
      CosineBounded(root, query, entries[h.chunk.id].vector);
    }
  }
}
