/** Model of internal/knowledge/persistent.go: a map in memory and its last copy on disk; no file is an empty map. */
module PersistentIndex {
  import opened Results
  import opened Text
  import opened Splitter
  import opened Tokenizer
  import opened Scoring
  import opened KeyedMaps
  import opened IndexTypes
  import opened LexicalIndex
  import opened VectorIndex

  datatype FileState = FileState(memory: map<string, Entry>, disk: map<string, Entry>)

  /** Entries are written to memory one by one up to the first bad vector; only success reaches the disk. */
  ghost function FileUpsert(s: FileState, cancelled: bool, chunks: seq<Chunk>, vectors: seq<Vector>)
    : (FileState, Outcome)
  {
    var refusal := Refusal(cancelled, chunks, vectors);
    if refusal.None? then
      var memory := Upserted(s.memory, chunks, vectors);
      (FileState(memory, memory), None)
    else if refusal.value.BadVector? then
      var n := refusal.value.position;
      (s.(memory := Upserted(s.memory, chunks[..n], vectors[..n])), refusal)
    else (s, refusal)
  }

  ghost function FileRemoval(s: FileState, cancelled: bool, documentId: string): (FileState, Outcome) {
    if cancelled then (s, Some(Canceled))
    else
      var memory := s.memory - EntryKeysOf(s.memory, documentId);
      (FileState(memory, memory), None)
  }

  datatype OpenError = BadEntry | EmbedderMissing | AlphaOutOfRange | ChunkRefused

  ghost predicate Readable(disk: map<string, Entry>) {
    forall id | id in disk :: disk[id].vector != [] && disk[id].chunk.id != ""
  }

  ghost function OpenProblem(disk: map<string, Entry>, hasEmbedder: bool, alpha: real): Option<OpenError> {
    if !Readable(disk) then Some(BadEntry)
    else if !hasEmbedder then Some(EmbedderMissing)
    else if alpha < 0.0 || alpha > 1.0 then Some(AlphaOutOfRange)
    else if exists id :: id in disk && !Acceptable(disk[id].chunk) then Some(ChunkRefused)
    else None
  }

  /** Opening fails on an entry without a vector or an ID, without an embedder, on an alpha outside [0, 1], or on a
      chunk that the lexical index refuses, in this order. */
  lemma OpenFails(disk: map<string, Entry>, hasEmbedder: bool, alpha: real)
    ensures var problem := OpenProblem(disk, hasEmbedder, alpha);
            var readable := forall id | id in disk :: disk[id].vector != [] && disk[id].chunk.id != "";
            && (problem == Some(BadEntry) <==> !readable)
            && (problem == Some(EmbedderMissing) <==> readable && !hasEmbedder)
            && (problem == Some(AlphaOutOfRange) <==> readable && hasEmbedder && !(0.0 <= alpha <= 1.0))
            && (problem == Some(ChunkRefused) <==>
                  && readable && hasEmbedder && 0.0 <= alpha <= 1.0
                  && exists id :: id in disk && IsBlank(disk[id].chunk.text))
  {
    hide TrimSpace, IsBlank;
    forall id | id in disk
      ensures TrimSpace(disk[id].chunk.text) == "" <==> IsBlank(disk[id].chunk.text)
    {
      var left, right := TrimSpaceSplits(disk[id].chunk.text);
    }
  }

  class FileVectorIndex {
    var entries: map<string, Entry>
    var disk: map<string, Entry>
    const root: real -> real

    ghost predicate Valid()
      reads this
    {
      IsRoot(root)
    }

    ghost function State(): FileState
      reads this
    {
      FileState(entries, disk)
    }

    constructor (root: real -> real, disk: map<string, Entry>)
      requires IsRoot(root)
      ensures Valid() && State() == FileState(disk, disk) && this.root == root
    {
      entries := disk;
      this.disk := disk;
      this.root := root;
    }

    method Upsert(cancelled: bool, chunks: seq<Chunk>, vectors: seq<Vector>) returns (outcome: Outcome)
      requires Valid()
      modifies this
      ensures Valid()
      ensures (State(), outcome) == FileUpsert(old(State()), cancelled, chunks, vectors)
    {
      hide IsRoot, Usable, PutAll, Entries;
      if cancelled {
        return Some(Canceled);
      }
      if |chunks| != |vectors| {
        return Some(LengthMismatch);
      }
      NothingPut(entries, chunks, vectors);
      for n := 0 to |chunks|
        invariant disk == old(disk)
        invariant forall i | 0 <= i < n :: Usable(vectors[i])
        invariant entries == Upserted(old(entries), chunks[..n], vectors[..n])
      {
        var ok := IsUsable(root, vectors[n]);
        if !ok {
          return Some(BadVector(n));
        }
        UpsertStep(old(entries), chunks, vectors, n);
        entries := entries[chunks[n].id := Entry(chunks[n], vectors[n])];
      }
      assert chunks[..|chunks|] == chunks && vectors[..|chunks|] == vectors;
      Persist();
      return None;
    }

    method RemoveDocument(cancelled: bool, documentId: string) returns (outcome: Outcome)
      requires Valid()
      modifies this
      ensures Valid()
      ensures (State(), outcome) == FileRemoval(old(State()), cancelled, documentId)
    {
      hide IsRoot, EntryKeysOf;
      if cancelled {
        return Some(Canceled);
      }
      var ids := entries.Keys;
      while ids != {}
        invariant ids <= entries.Keys <= old(entries).Keys && disk == old(disk)
        invariant forall id | id in entries :: entries[id] == old(entries)[id]
        invariant forall id | id in old(entries) && id !in ids :: id in entries <==>
                  old(entries)[id].chunk.documentId != documentId
        decreases |ids|
      {
        var id :| id in ids;
        ids := ids - {id};
        if entries[id].chunk.documentId == documentId {
          entries := entries - {id};
        }
      }
      WithoutDocument(old(entries), entries, documentId);
      Persist();
      return None;
    }

    method Persist()
      modifies this`disk
      ensures disk == entries
    {
      disk := entries;
    }
  }

  /** Reads an index back, and rebuilds the lexical half from its chunks in any order. */
  method NewPersistentHybridIndex(unicode: Unicode, root: real -> real, disk: map<string, Entry>, hasEmbedder: bool,
                                  alpha: real)
    returns (r: Result<(InMemoryIndex, FileVectorIndex), OpenError>)
    requires IsRoot(root)
    ensures r.Failure? <==> OpenProblem(disk, hasEmbedder, alpha).Some?
    ensures r.Failure? ==> Some(r.error) == OpenProblem(disk, hasEmbedder, alpha)
    ensures r.Success? ==>
              && fresh(r.value.0) && fresh(r.value.1) && r.value.0.Valid() && r.value.1.Valid()
              && r.value.1.State() == FileState(disk, disk)
              && RebuiltFrom(r.value.0.chunks, disk, disk.Keys)
              && (r.value.0.chunks == ChunksIn(disk) <==> EntriesById(disk))
  {
    hide IsRoot, Acceptable, RebuiltFrom, ById;
    var readable := AllReadable(disk);
    if !readable {
      return Failure(BadEntry);
    }
    if !hasEmbedder {
      return Failure(EmbedderMissing);
    }
    if alpha < 0.0 || alpha > 1.0 {
      return Failure(AlphaOutOfRange);
    }
    var vector := new FileVectorIndex(root, disk);
    var lexical := Rebuild(unicode, disk);
    if lexical.None? {
      return Failure(ChunkRefused);
    }
    RebuiltInStep(lexical.value.chunks, disk);
    return Success((lexical.value, vector));
  }

  ghost predicate Holds(entries: map<string, Entry>, seen: set<string>, chunk: Chunk) {
    exists key :: key in seen && key in entries && entries[key].chunk == chunk
  }

  /** The lexical half holds the chunks of the entries, each under its own ID. */
  ghost predicate RebuiltFrom(chunks: map<string, Chunk>, entries: map<string, Entry>, seen: set<string>) {
    && (forall id | id in chunks :: Holds(entries, seen, chunks[id]))
    && (forall key | key in seen && key in entries :: entries[key].chunk.id in chunks)
  }

  /** It holds them under the keys of the entries if and only if those are the chunk IDs, as in every file an
      index has written. */
  lemma RebuiltInStep(chunks: map<string, Chunk>, entries: map<string, Entry>)
    requires ById(chunks) && RebuiltFrom(chunks, entries, entries.Keys)
    ensures chunks == ChunksIn(entries) <==> EntriesById(entries)
  {
    if chunks == ChunksIn(entries) {
      forall id | id in entries
        ensures entries[id].chunk.id == id
      {
        assert id in chunks && chunks[id] == entries[id].chunk;
      }
    }
    if EntriesById(entries) {
      forall id: string
        ensures id in chunks <==> id in entries
        ensures id in chunks ==> chunks[id] == entries[id].chunk
      {
        if id in chunks {
          assert Holds(entries, entries.Keys, chunks[id]);
        }
      }
      assert chunks == ChunksIn(entries);
    }
  }

  method Rebuild(unicode: Unicode, entries: map<string, Entry>) returns (r: Option<InMemoryIndex>)
    ensures r.None? <==> exists id :: id in entries && !Acceptable(entries[id].chunk)
    ensures r.Some? ==> fresh(r.value) && r.value.Valid() && RebuiltFrom(r.value.chunks, entries, entries.Keys)
  {
    hide Acceptable, ById, RebuiltFrom;
    var lexical := new InMemoryIndex(unicode);
    var keys := entries.Keys;
    ghost var seen: set<string> := {};
    NothingRebuilt(entries);
    while keys != {}
      invariant keys + seen == entries.Keys
      invariant lexical.Valid() && fresh(lexical)
      invariant RebuiltFrom(lexical.chunks, entries, seen)
      invariant forall key | key in seen :: Acceptable(entries[key].chunk)
      decreases |keys|
    {
      var key :| key in keys;
      keys := keys - {key};
      RebuiltMore(lexical.chunks, entries, seen, key);
      var done := lexical.AddChunk(entries[key].chunk);
      if !done {
        return None;
      }
      seen := seen + {key};
    }
    return Some(lexical);
  }

  lemma NothingRebuilt(entries: map<string, Entry>)
    ensures RebuiltFrom(map[], entries, {})
  {
  }

  lemma RebuiltMore(chunks: map<string, Chunk>, entries: map<string, Entry>, seen: set<string>, key: string)
    requires RebuiltFrom(chunks, entries, seen) && key in entries
    ensures var chunk := entries[key].chunk;
            RebuiltFrom(chunks[chunk.id := chunk], entries, seen + {key})
  {
    hide Holds;
    var chunk := entries[key].chunk;
    var more := chunks[chunk.id := chunk];
    HoldsMore(entries, seen, key, chunk);
    forall id | id in more
      ensures Holds(entries, seen + {key}, more[id])
    {
      HoldsMore(entries, seen, key, more[id]);
    }
  }

  lemma HoldsMore(entries: map<string, Entry>, seen: set<string>, key: string, chunk: Chunk)
    requires key in entries
    ensures Holds(entries, seen, chunk) || entries[key].chunk == chunk ==> Holds(entries, seen + {key}, chunk)
  {
    if key' :| key' in seen && key' in entries && entries[key'].chunk == chunk {
      assert key' in seen + {key};
    } else if entries[key].chunk == chunk {
      assert key in seen + {key};
    }
  }

  method AllReadable(disk: map<string, Entry>) returns (ok: bool)
    ensures ok <==> Readable(disk)
  {
    var ids := disk.Keys;
    while ids != {}
      invariant ids <= disk.Keys
      invariant forall id | id in disk && id !in ids :: disk[id].vector != [] && disk[id].chunk.id != ""
      decreases |ids|
    {
      var id :| id in ids;
      ids := ids - {id};
      if |disk[id].vector| == 0 || disk[id].chunk.id == "" {
        return false;
      }
    }
    return true;
  }

  lemma NothingPut(entries: map<string, Entry>, chunks: seq<Chunk>, vectors: seq<Vector>)
    ensures Upserted(entries, chunks[..0], vectors[..0]) == entries
  {
  }

  lemma UpsertStep(entries: map<string, Entry>, chunks: seq<Chunk>, vectors: seq<Vector>, n: nat)
    requires |chunks| == |vectors| && n < |chunks|
    ensures Upserted(entries, chunks[..n + 1], vectors[..n + 1]) ==
              Upserted(entries, chunks[..n], vectors[..n])[chunks[n].id := Entry(chunks[n], vectors[n])]
  {
    var ids, values := Ids(chunks[..n + 1]), Entries(chunks[..n + 1], vectors[..n + 1]);
    assert ids[..n] == Ids(chunks[..n]);
    assert values[..n] == Entries(chunks[..n], vectors[..n]);
  }
}
