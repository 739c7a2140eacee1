/** Model of InMemoryVectorIndex (internal/knowledge/vector.go). */
module VectorIndex {
  import opened Results
  import opened Splitter
  import opened Scoring
  import opened Ranking
  import opened KeyedMaps
  import opened IndexTypes

  datatype Entry = Entry(chunk: Chunk, vector: Vector)

  ghost function ChunksIn(entries: map<string, Entry>): map<string, Chunk> {
    map id | id in entries :: entries[id].chunk
  }

  ghost predicate EntriesById(entries: map<string, Entry>) {
    forall id | id in entries :: entries[id].chunk.id == id
  }

  ghost function EntryKeysOf(entries: map<string, Entry>, documentId: string): set<string> {
    set id | id in entries && entries[id].chunk.documentId == documentId
  }

  /** The vectors an index takes: not empty, and not all zeros. */
  ghost predicate Usable(v: Vector) {
    v != [] && exists i | 0 <= i < |v| :: v[i] != 0.0
  }

  /** The position of the first vector that is not usable, or how many there are. */
  ghost function FirstUnusable(vectors: seq<Vector>): (n: nat)
    ensures n <= |vectors| && forall i | 0 <= i < n :: Usable(vectors[i])
    ensures n < |vectors| ==> !Usable(vectors[n])
  {
    if vectors == [] || !Usable(vectors[0]) then 0 else 1 + FirstUnusable(vectors[1..])
  }

  function Entries(chunks: seq<Chunk>, vectors: seq<Vector>): (entries: seq<Entry>)
    requires |chunks| == |vectors|
    ensures |entries| == |chunks|
  {
    seq(|chunks|, i requires 0 <= i < |chunks| => Entry(chunks[i], vectors[i]))
  }

  ghost function Upserted(entries: map<string, Entry>, chunks: seq<Chunk>, vectors: seq<Vector>): map<string, Entry>
    requires |chunks| == |vectors|
  {
    PutAll(entries, Ids(chunks), Entries(chunks, vectors))
  }

  /** Why an upsert is refused, if it is. */
  ghost function Refusal(cancelled: bool, chunks: seq<Chunk>, vectors: seq<Vector>): Outcome {
    if cancelled then Some(Canceled)
    else if |chunks| != |vectors| then Some(LengthMismatch)
    else if FirstUnusable(vectors) < |vectors| then Some(BadVector(FirstUnusable(vectors)))
    else None
  }

  /** The chunks a search finds, with their cosines: those with a vector of the query's dimension. */
  ghost function VectorHits(root: real -> real, entries: map<string, Entry>, query: Vector, filter: Filter)
    : map<string, Hit>
  {
    map id | id in entries && Matches(entries[id].chunk.metadata, filter) && |entries[id].vector| == |query|
      :: Hit(entries[id].chunk, Cos(root, query, entries[id].vector))
  }

  /** What a search may return: chunks as stored, with a vector of the query's dimension and metadata that holds
      each value asked for, in order of their cosines; and all of them as far as the limit leaves room. */
  ghost predicate VectorAnswer(root: real -> real, entries: map<string, Entry>, query: Vector, limit: int,
                               filter: Filter, hits: seq<Hit>)
  {
    && |hits| <= (if limit <= 0 then 10 else limit)
    && InOrder(hits)
    && (forall h | h in hits ::
          && h.chunk.id in entries && h.chunk == entries[h.chunk.id].chunk
          && |entries[h.chunk.id].vector| == |query|
          && h.score == Cos(root, query, entries[h.chunk.id].vector))
    && (forall h, key | h in hits && key in filter ::
          && h.chunk.metadata.Some?
          && filter[key] == (if key in h.chunk.metadata.value then h.chunk.metadata.value[key] else ""))
    && (|hits| < (if limit <= 0 then 10 else limit) ==>
          forall id | id in entries && |entries[id].vector| == |query|
            && (var stored := entries[id].chunk.metadata;
                forall key | key in filter ::
                    stored.Some? && filter[key] == (if key in stored.value then stored.value[key] else "")) ::
              exists h :: h in hits && h.chunk == entries[id].chunk)
  }

  lemma TopAnswers(root: real -> real, entries: map<string, Entry>, query: Vector, limit: int, filter: Filter,
                   top: seq<Hit>)
    requires EntriesById(entries)
    requires IsTop(top, VectorHits(root, entries, query, filter), EffectiveLimit(limit))
    ensures VectorAnswer(root, entries, query, limit, filter, top)
  {
    hide IsTop, InOrder, Cos;
    var found := VectorHits(root, entries, query, filter);
    TopInOrder(top, found, EffectiveLimit(limit));
    TopWithin(top, found, EffectiveLimit(limit));
    if |top| < EffectiveLimit(limit) {
      forall id | id in found
        ensures exists h :: h in top && h.chunk == entries[id].chunk
      {
        UncutTop(top, found, EffectiveLimit(limit), id);
        assert found[id] in top && found[id].chunk == entries[id].chunk;
      }
    }
  }

  method IsUsable(root: real -> real, v: Vector) returns (ok: bool)
    requires IsRoot(root)
    ensures ok <==> Usable(v)
  {
    hide IsRoot, Norm;
    if |v| == 0 {
      return false;
    }
    var n := ComputeNorm(root, v);
    NormZero(root, v);
    return n != 0.0;
  }

  class InMemoryVectorIndex {
    var entries: map<string, Entry>
    const root: real -> real

    ghost predicate Valid()
      reads this
    {
      EntriesById(entries) && IsRoot(root)
    }

    constructor (root: real -> real)
      requires IsRoot(root)
      ensures Valid() && entries == map[] && this.root == root
    {
      entries := map[];
      this.root := root;
    }

    /** All or nothing: every vector is looked at before the first entry is written. */
    method Upsert(cancelled: bool, chunks: seq<Chunk>, vectors: seq<Vector>) returns (outcome: Outcome)
      requires Valid()
      modifies this
      ensures Valid()
      ensures outcome == Refusal(cancelled, chunks, vectors)
      ensures entries == if outcome.None? then Upserted(old(entries), chunks, vectors) else old(entries)
    {
      hide IsRoot, Usable, Ids;
      if cancelled {
        return Some(Canceled);
      }
      if |chunks| != |vectors| {
        return Some(LengthMismatch);
      }
      for n := 0 to |vectors|
        invariant entries == old(entries)
        invariant forall i | 0 <= i < n :: Usable(vectors[i])
      {
        var ok := IsUsable(root, vectors[n]);
        if !ok {
          return Some(BadVector(n));
        }
      }
      for n := 0 to |chunks|
        invariant EntriesById(entries)
        invariant entries == PutAll(old(entries), Ids(chunks)[..n], Entries(chunks, vectors)[..n])
      {
        PutAllStep(old(entries), Ids(chunks), Entries(chunks, vectors), n);
        entries := entries[chunks[n].id := Entry(chunks[n], vectors[n])];
      }
      assert Ids(chunks)[..|chunks|] == Ids(chunks);
      assert Entries(chunks, vectors)[..|chunks|] == Entries(chunks, vectors);
      return None;
    }

    method RemoveDocument(cancelled: bool, documentId: string) returns (outcome: Outcome)
      requires Valid()
      modifies this
      ensures Valid()
      ensures outcome == if cancelled then Some(Canceled) else None
      ensures entries == if cancelled then old(entries) else old(entries) - EntryKeysOf(old(entries), documentId)
    {
      hide IsRoot, EntryKeysOf;
      if cancelled {
        return Some(Canceled);
      }
      var ids := entries.Keys;
      while ids != {}
        invariant ids <= entries.Keys <= old(entries).Keys
        invariant forall id | id in entries :: entries[id] == old(entries)[id]
        invariant forall id | id in old(entries) && id !in ids :: id in entries <==>
                  old(entries)[id].chunk.documentId != documentId
        decreases |ids|
      {
        var id :| id in ids;
        ids := ids - {id};
        if entries[id].chunk.documentId == documentId {
          entries := entries - {id};
        }
      }
      WithoutDocument(old(entries), entries, documentId);
      return None;
    }

    /** The map is walked in any order; the list returned does not depend on it. */
    method SearchVectorWithFilter(cancelled: bool, query: Vector, limit: int, filter: Filter)
      returns (r: Result<seq<Hit>, IndexError>)
      requires Valid()
      ensures r.Failure? <==> cancelled || !Usable(query)
      ensures r.Failure? ==> r.error == if cancelled then Canceled else BadQueryVector
      ensures r.Success? ==>
                && IsTop(r.value, VectorHits(root, entries, query, filter), EffectiveLimit(limit))
                && VectorAnswer(root, entries, query, limit, filter, r.value)
    {
      hide IsRoot, Usable, Matches, IsTop, Enumerates, VectorHits, KeyedById, VectorAnswer;
      if cancelled {
        return Failure(Canceled);
      }
      var ok := IsUsable(root, query);
      if !ok {
        return Failure(BadQueryVector);
      }
      ghost var found := VectorHits(root, entries, query, filter);
      var hits: seq<Hit> := [];
      EnumerateNone(found);
      VectorHitsById(root, entries, query, filter);
      assert found.Keys - entries.Keys == {};
      var ids := entries.Keys;
      while ids != {}
        invariant ids <= entries.Keys
        invariant Enumerates(hits, found, found.Keys - ids)
        decreases |ids|
      {
        ghost var before := ids;
        var id :| id in ids;
        ids := ids - {id};
        var hit := ScoreEntry(id, query, filter);
        EnumerateStep(hits, found, before, id);
        if hit.Some? {
          hits := hits + [hit.value];
        }
      }
      assert found.Keys - {} == found.Keys;
      var top := Rank(hits, EffectiveLimit(limit), found);
      TopAnswers(root, entries, query, limit, filter, top);
      return Success(top);
    }

    /** The body of the search loop: the hit for one entry, if it matches and has the right dimension. */
    method ScoreEntry(id: string, query: Vector, filter: Filter) returns (hit: Option<Hit>)
      requires id in entries
      ensures var found := VectorHits(root, entries, query, filter);
              hit == if id in found then Some(found[id]) else None
    {
      hide Matches, Cos;
      var entry := entries[id];
      var matches := MatchesMetadata(entry.chunk.metadata, filter);
      if !matches || |entry.vector| != |query| {
        return None;
      }
      var cosine := ComputeCosine(root, query, entry.vector);
      return Some(Hit(entry.chunk, cosine));
    }
  }

  lemma WithoutDocument(was: map<string, Entry>, entries: map<string, Entry>, documentId: string)
    requires entries.Keys <= was.Keys && forall id | id in entries :: entries[id] == was[id]
    requires forall id | id in was :: id in entries <==> was[id].chunk.documentId != documentId
    ensures entries == was - EntryKeysOf(was, documentId)
  {
  }

  lemma VectorHitsById(root: real -> real, entries: map<string, Entry>, query: Vector, filter: Filter)
    requires EntriesById(entries)
    ensures var found := VectorHits(root, entries, query, filter);
            KeyedById(found) && found.Keys <= entries.Keys
  {
  }
}
