/** Model of InMemoryIndex (internal/knowledge/knowledge.go). */
module LexicalIndex {
  import opened Results
  import opened Text
  import opened ChunkKeys
  import opened Splitter
  import opened SplitterFacts
  import opened Tokenizer
  import opened Ranking
  import opened KeyedMaps
  import opened IndexTypes

  predicate Acceptable(chunk: Chunk) {
    chunk.id != "" && TrimSpace(chunk.text) != ""
  }

  /** The chunks of a document under the default options, or why it has none. */
  ghost function Pieces(document: Document): Result<seq<Chunk>, SplitError> {
    DefaultSplitFinishes(document);
    var split := Split(document, DEFAULT_OPTIONS);
    if split.Invalid? then Failure(split.error) else Success(split.chunks)
  }

  /** The chunks a search finds, with their scores. */
  ghost function LexicalHits(u: Unicode, chunks: map<string, Chunk>, terms: seq<string>, filter: Filter)
    : map<string, Hit>
  {
    map id | id in chunks && Matches(chunks[id].metadata, filter) && Score(terms, Tokens(u, chunks[id].text)) > 0.0
      :: Hit(chunks[id], Score(terms, Tokens(u, chunks[id].text)))
  }

  /** What a search may return: chunks as stored, whose metadata holds each value asked for (a missing key reads as
      the empty string) and which share a Han rune or a whole word with the query, in order; and all of them as far
      as the limit leaves room. */
  ghost predicate LexicalAnswer(u: Unicode, chunks: map<string, Chunk>, query: string, limit: int, filter: Filter,
                                hits: seq<Hit>)
  {
    && |hits| <= (if limit <= 0 then 10 else limit)
    && InOrder(hits)
    && (forall h | h in hits ::
          && h.chunk.id in chunks && h.chunk == chunks[h.chunk.id]
          && h.score == Score(Tokens(u, query), Tokens(u, h.chunk.text))
          && Shared(u, query, h.chunk.text))
    && (forall h, key | h in hits && key in filter ::
          && h.chunk.metadata.Some?
          && filter[key] == (if key in h.chunk.metadata.value then h.chunk.metadata.value[key] else ""))
    && (|hits| < (if limit <= 0 then 10 else limit) ==>
          forall id | id in chunks && Shared(u, query, chunks[id].text)
            && (var stored := chunks[id].metadata;
                forall key | key in filter ::
                    stored.Some? && filter[key] == (if key in stored.value then stored.value[key] else "")) ::
              exists h :: h in hits && h.chunk == chunks[id])
  }

  ghost predicate Shared(u: Unicode, query: string, text: string) {
    ShareHan(u, Lower(u, query), Lower(u, text)) || ShareWord(u, Lower(u, query), Lower(u, text))
  }

  lemma TopAnswers(u: Unicode, chunks: map<string, Chunk>, query: string, limit: int, filter: Filter, top: seq<Hit>)
    requires ById(chunks)
    requires IsTop(top, LexicalHits(u, chunks, Tokens(u, query), filter), EffectiveLimit(limit))
    ensures LexicalAnswer(u, chunks, query, limit, filter, top)
  {
    hide Tokens, Score, IsTop, InOrder, ShareHan, ShareWord;
    var found := LexicalHits(u, chunks, Tokens(u, query), filter);
    TopInOrder(top, found, EffectiveLimit(limit));
    TopWithin(top, found, EffectiveLimit(limit));
    forall id | id in chunks
      ensures Score(Tokens(u, query), Tokens(u, chunks[id].text)) > 0.0 <==> Shared(u, query, chunks[id].text)
    {
      PositiveScoreIffShared(u, query, chunks[id].text);
    }
    if |top| < EffectiveLimit(limit) {
      forall id | id in found
        ensures exists h :: h in top && h.chunk == chunks[id]
      {
        UncutTop(top, found, EffectiveLimit(limit), id);
        assert found[id] in top && found[id].chunk == chunks[id];
      }
    }
  }

  /** What Add leaves behind, given the chunks of the document. */
  ghost function Stored(chunks: map<string, Chunk>, pieces: seq<Chunk>): map<string, Chunk> {
    PutAll(chunks, Ids(pieces), pieces)
  }

  class InMemoryIndex {
    var chunks: map<string, Chunk>
    const unicode: Unicode

    ghost predicate Valid()
      reads this
    {
      ById(chunks)
    }

    constructor (unicode: Unicode)
      ensures Valid() && chunks == map[] && this.unicode == unicode
    {
      chunks := map[];
      this.unicode := unicode;
    }

    /** Adds the chunks of a document that splits; no chunk of such a document is ever refused. */
    method Add(cancelled: bool, document: Document) returns (outcome: Outcome)
      requires Valid()
      modifies this
      ensures Valid()
      ensures outcome ==
                if cancelled then Some(Canceled)
                else if Pieces(document).Failure? then Some(BadDocument(Pieces(document).error))
                else None
      ensures chunks == if outcome.Some? then old(chunks) else Stored(old(chunks), Pieces(document).value)
    {
      hide Split, Acceptable, Stored, ById;
      if cancelled {
        return Some(Canceled);
      }
      DefaultSplitFinishes(document);
      var split := SplitDocument(document, DEFAULT_OPTIONS);
      if split.Invalid? {
        return Some(BadDocument(split.error));
      }
      AllAcceptable(document);
      outcome := AddChunks(split.chunks);
    }

    /** The loop of Add, and of the rebuild of a persistent index: it stops at the first chunk refused. */
    method AddChunks(pieces: seq<Chunk>) returns (outcome: Outcome)
      requires Valid()
      modifies this
      ensures Valid()
      ensures outcome.None? <==> forall c | c in pieces :: Acceptable(c)
      ensures outcome.None? ==> chunks == Stored(old(chunks), pieces)
      ensures outcome.Some? ==> outcome.value == BadChunk
    {
      hide TrimSpace, Ids;
      for n := 0 to |pieces|
        invariant Valid()
        invariant forall i | 0 <= i < n :: Acceptable(pieces[i])
        invariant chunks == PutAll(old(chunks), Ids(pieces)[..n], pieces[..n])
      {
        var done := AddChunk(pieces[n]);
        if !done {
          return Some(BadChunk);
        }
        PutAllStep(old(chunks), Ids(pieces), pieces, n);
      }
      assert Ids(pieces)[..|pieces|] == Ids(pieces) && pieces[..|pieces|] == pieces;
      return None;
    }

    method AddChunk(chunk: Chunk) returns (done: bool)
      requires Valid()
      modifies this
      ensures Valid()
      ensures done <==> Acceptable(chunk)
      ensures chunks == if done then old(chunks)[chunk.id := chunk] else old(chunks)
    {
      hide TrimSpace;
      if chunk.id == "" || TrimSpace(chunk.text) == "" {
        return false;
      }
      chunks := chunks[chunk.id := chunk];
      return true;
    }

    method RemoveDocument(cancelled: bool, documentId: string) returns (outcome: Outcome)
      requires Valid()
      modifies this
      ensures Valid()
      ensures outcome == if cancelled then Some(Canceled) else None
      ensures chunks == if cancelled then old(chunks) else old(chunks) - KeysOf(old(chunks), documentId)
    {
      if cancelled {
        return Some(Canceled);
      }
      var ids := chunks.Keys;
      while ids != {}
        invariant ids <= chunks.Keys <= old(chunks).Keys
        invariant forall id | id in chunks :: chunks[id] == old(chunks)[id]
        invariant forall id | id in old(chunks) && id !in ids :: id in chunks <==>
                  old(chunks)[id].documentId != documentId
        decreases |ids|
      {
        var id :| id in ids;
        ids := ids - {id};
        if chunks[id].documentId == documentId {
          chunks := chunks - {id};
        }
      }
      assert chunks == old(chunks) - KeysOf(old(chunks), documentId);
      return None;
    }

    /** The map is walked in any order; the list returned does not depend on it. */
    method SearchWithFilter(cancelled: bool, query: string, limit: int, filter: Filter)
      returns (r: Result<seq<Hit>, IndexError>)
      requires Valid()
      ensures r.Failure? <==> cancelled || Tokens(unicode, query) == []
      ensures r.Failure? ==> r.error == if cancelled then Canceled else EmptyQuery
      ensures r.Success? ==>
                && IsTop(r.value, LexicalHits(unicode, chunks, Tokens(unicode, query), filter), EffectiveLimit(limit))
                && LexicalAnswer(unicode, chunks, query, limit, filter, r.value)
    {
      hide Tokens, Score, Matches, IsTop, Enumerates, LexicalHits, KeyedById, LexicalAnswer;
      if cancelled {
        return Failure(Canceled);
      }
      var terms := Tokenize(unicode, query);
      if terms == [] {
        return Failure(EmptyQuery);
      }
      ghost var found := LexicalHits(unicode, chunks, terms, filter);
      var hits: seq<Hit> := [];
      EnumerateNone(found);
      LexicalHitsById(unicode, chunks, terms, filter);
      assert found.Keys - chunks.Keys == {};
      var ids := chunks.Keys;
      while ids != {}
        invariant ids <= chunks.Keys
        invariant Enumerates(hits, found, found.Keys - ids)
        decreases |ids|
      {
        ghost var before := ids;
        var id :| id in ids;
        ids := ids - {id};
        var hit := ScoreEntry(id, terms, filter);
        EnumerateStep(hits, found, before, id);
        if hit.Some? {
          hits := hits + [hit.value];
        }
      }
      assert found.Keys - {} == found.Keys;
      var top := Rank(hits, EffectiveLimit(limit), found);
      TopAnswers(unicode, chunks, query, limit, filter, top);
      return Success(top);
    }

    /** The body of the search loop: the hit for one stored chunk, if it matches and shares a term. */
    method ScoreEntry(id: string, terms: seq<string>, filter: Filter) returns (hit: Option<Hit>)
      requires id in chunks
      ensures var found := LexicalHits(unicode, chunks, terms, filter);
              hit == if id in found then Some(found[id]) else None
    {
      hide Tokens, Score, Matches;
      var chunk := chunks[id];
      var matches := MatchesMetadata(chunk.metadata, filter);
      if !matches {
        return None;
      }
      var score := ScoreChunk(unicode, terms, chunk.text);
      if score > 0.0 {
        return Some(Hit(chunk, score));
      }
      return None;
    }
  }

  lemma LexicalHitsById(u: Unicode, chunks: map<string, Chunk>, terms: seq<string>, filter: Filter)
    requires ById(chunks)
    ensures var found := LexicalHits(u, chunks, terms, filter);
            KeyedById(found) && found.Keys <= chunks.Keys
  {
  }

  lemma DefaultSplitFinishes(document: Document)
    ensures !Split(document, DEFAULT_OPTIONS).Stuck?
  {
    hide TrimSpace, WalkFrom;
    SmallOverlapFinishes(TrimSpace(document.content), 0, MaxOf(DEFAULT_OPTIONS), 0);
  }

  /** Every chunk of a document that splits has an ID and a text that is not blank. */
  lemma AllAcceptable(document: Document)
    requires Split(document, DEFAULT_OPTIONS).Chunks?
    ensures forall c | c in Split(document, DEFAULT_OPTIONS).chunks :: Acceptable(c)
  {
    hide TrimSpace, Split, Key, IsBlank;
    SplitChunkFacts(document, DEFAULT_OPTIONS);
    forall c | c in Split(document, DEFAULT_OPTIONS).chunks
      ensures Acceptable(c)
    {
      var left, right := TrimSpaceSplits(c.text);
      KeyNotEmpty(c.documentId, c.ordinal);
    }
  }

  lemma KeyNotEmpty(documentId: string, ordinal: nat)
    ensures Key(documentId, ordinal) != ""
  {
  }
}
