/** What the lexical, vector and hybrid indexes share: contexts, errors and metadata filters
    (internal/knowledge/knowledge.go). */
module IndexTypes {
  import opened Splitter
  import opened Results

  /** A context as the checks of one operation see it: still live, or cancelled from the n-th check on. */
  datatype Context = Live | CancelledFrom(check: nat) {
    predicate Cancelled(n: nat) {
      CancelledFrom? && check <= n
    }
  }

  datatype IndexError =
    | Canceled
    | BadDocument(problem: SplitError)
    | BadChunk
    | EmptyQuery
    | EmbedFailed
    | LengthMismatch
    | BadVector(position: nat)
    | BadQueryVector
    | QueryVectors(count: nat)

  type Outcome = Option<IndexError>

  type Filter = map<string, string>

  /** ChunkOptions{}: what both indexes split with. */
  const DEFAULT_OPTIONS := ChunkOptions(0, 0)

  const DEFAULT_LIMIT := 10

  function EffectiveLimit(limit: int): nat {
    if limit <= 0 then DEFAULT_LIMIT else limit
  }

  /** A missing key reads as the empty string. */
  function Lookup(m: map<string, string>, key: string): string {
    if key in m then m[key] else ""
  }

  /** A nil map matches no filter but the empty one. */
  ghost predicate Matches(metadata: Metadata, filter: Filter) {
    forall key | key in filter :: metadata.Some? && Lookup(metadata.value, key) == filter[key]
  }

  method MatchesMetadata(metadata: Metadata, filter: Filter) returns (ok: bool)
    ensures ok <==> Matches(metadata, filter)
  {
    var keys := filter.Keys;
    while keys != {}
      invariant keys <= filter.Keys
      invariant forall key | key in filter && key !in keys ::
          metadata.Some? && Lookup(metadata.value, key) == filter[key]
      decreases |keys|
    {
      var key :| key in keys;
      keys := keys - {key};
      if metadata.None? || Lookup(metadata.value, key) != filter[key] {
        return false;
      }
    }
    return true;
  }

  /** The keys under which the chunks of one document are stored. */
  ghost function KeysOf(chunks: map<string, Chunk>, documentId: string): set<string> {
    set id | id in chunks && chunks[id].documentId == documentId
  }

  /** Every chunk is stored under its own ID. */
  ghost predicate ById(chunks: map<string, Chunk>) {
    forall id | id in chunks :: chunks[id].id == id
  }

  function Ids(chunks: seq<Chunk>): (ids: seq<string>)
    ensures |ids| == |chunks| && forall i | 0 <= i < |chunks| :: ids[i] == chunks[i].id
  {
    seq(|chunks|, i requires 0 <= i < |chunks| => chunks[i].id)
  }
}
