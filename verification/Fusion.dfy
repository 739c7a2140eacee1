/** Model of the fusion of two result lists in HybridIndex.SearchWithFilter (internal/knowledge/vector.go). */
module Fusion {
  import opened Results
  import opened Splitter
  import opened Scoring
  import opened Ranking
  import opened IndexTypes

  // ----- The fused hits

  /** The hit for one chunk ID, the last of several. */
  ghost function HitFor(hits: seq<Hit>, id: string): Option<Hit> {
    if hits == [] then None
    else if hits[|hits| - 1].chunk.id == id then Some(hits[|hits| - 1])
    else HitFor(hits[..|hits| - 1], id)
  }

  ghost function Matching(hits: seq<Hit>, filter: Filter): seq<Hit> {
    if hits == [] then []
    else
      var last := hits[|hits| - 1];
      Matching(hits[..|hits| - 1], filter) + if Matches(last.chunk.metadata, filter) then [last] else []
  }

  ghost predicate DistinctIds(hits: seq<Hit>) {
    forall i, j | 0 <= i < j < |hits| :: hits[i].chunk.id != hits[j].chunk.id
  }

  function LexicalShare(alpha: real, hit: Option<Hit>): real {
    if hit.Some? then LexicalPart(alpha, hit.value.score) else 0.0
  }

  function VectorShare(alpha: real, hit: Option<Hit>): real {
    if hit.Some? then VectorPart(alpha, hit.value.score) else 0.0
  }

  ghost function FusedIds(lexical: seq<Hit>, vector: seq<Hit>): set<string> {
    (set h | h in lexical :: h.chunk.id) + (set h | h in vector :: h.chunk.id)
  }

  /** One lexical part at most and one vector part at most for each chunk ID. */
  ghost function FusedHit(alpha: real, lexical: seq<Hit>, vector: seq<Hit>, id: string): Hit
    requires HitFor(lexical, id).Some? || HitFor(vector, id).Some?
  {
    var l, v := HitFor(lexical, id), HitFor(vector, id);
    Hit(if v.Some? then v.value.chunk else l.value.chunk, LexicalShare(alpha, l) + VectorShare(alpha, v))
  }

  lemma {:induction false} HitForIff(hits: seq<Hit>, id: string)
    ensures HitFor(hits, id).Some? <==> exists h :: h in hits && h.chunk.id == id
    ensures HitFor(hits, id).Some? ==> HitFor(hits, id).value in hits && HitFor(hits, id).value.chunk.id == id
  {
    if hits != [] {
      HitForIff(hits[..|hits| - 1], id);
      assert hits == hits[..|hits| - 1] + [hits[|hits| - 1]];
    }
  }

  ghost function FusedHits(alpha: real, lexical: seq<Hit>, vector: seq<Hit>): (found: map<string, Hit>)
    ensures found.Keys == FusedIds(lexical, vector)
  {
    assert forall id | id in FusedIds(lexical, vector) :: HitFor(lexical, id).Some? || HitFor(vector, id).Some? by {
      forall id | id in FusedIds(lexical, vector)
        ensures HitFor(lexical, id).Some? || HitFor(vector, id).Some?
      {
        HitForIff(lexical, id);
        HitForIff(vector, id);
      }
    }
    map id | id in FusedIds(lexical, vector) :: FusedHit(alpha, lexical, vector, id)
  }

  /** The two maps of the fusion loops hold the scores and the chunks of `found`. */
  ghost predicate Tallied(scores: map<string, real>, chunks: map<string, Chunk>, found: map<string, Hit>) {
    && scores.Keys == found.Keys && chunks.Keys == found.Keys
    && forall id | id in found :: found[id] == Hit(chunks[id], scores[id])
  }

  lemma FusedIn(alpha: real, lexical: seq<Hit>, vector: seq<Hit>, id: string)
    ensures var found, l, v := FusedHits(alpha, lexical, vector), HitFor(lexical, id), HitFor(vector, id);
            && (id in found <==> l.Some? || v.Some?)
            && (id in found ==> found[id] == FusedHit(alpha, lexical, vector, id))
  {
    HitForIff(lexical, id);
    HitForIff(vector, id);
  }

  lemma HitForSnoc(hits: seq<Hit>, h: Hit, id: string)
    ensures HitFor(hits + [h], id) == if h.chunk.id == id then Some(h) else HitFor(hits, id)
  {
    assert (hits + [h])[..|hits|] == hits;
  }

  lemma FusedLexicalStep(alpha: real, lexical: seq<Hit>, h: Hit)
    requires HitFor(lexical, h.chunk.id).None?
    ensures FusedHits(alpha, lexical + [h], []) ==
              FusedHits(alpha, lexical, [])[h.chunk.id := Hit(h.chunk, 0.0 + LexicalPart(alpha, h.score))]
  {
    hide FusedHits, LexicalPart, HitFor;
    var before, after := FusedHits(alpha, lexical, []), FusedHits(alpha, lexical + [h], []);
    var expected := before[h.chunk.id := Hit(h.chunk, 0.0 + LexicalPart(alpha, h.score))];
    forall id: string
      ensures id in after <==> id in expected
      ensures id in after ==> after[id] == expected[id]
    {
      HitForSnoc(lexical, h, id);
      HitForIff([], id);
      FusedIn(alpha, lexical, [], id);
      FusedIn(alpha, lexical + [h], [], id);
    }
  }

  lemma FusedVectorStep(alpha: real, lexical: seq<Hit>, vector: seq<Hit>, h: Hit)
    requires HitFor(vector, h.chunk.id).None?
    ensures var before := FusedHits(alpha, lexical, vector);
            var earlier := if h.chunk.id in before then before[h.chunk.id].score else 0.0;
            FusedHits(alpha, lexical, vector + [h])
                == before[h.chunk.id := Hit(h.chunk, earlier + VectorPart(alpha, h.score))]
  {
    hide FusedHits, LexicalPart, VectorPart, HitFor;
    var before, after := FusedHits(alpha, lexical, vector), FusedHits(alpha, lexical, vector + [h]);
    var earlier := if h.chunk.id in before then before[h.chunk.id].score else 0.0;
    var expected := before[h.chunk.id := Hit(h.chunk, earlier + VectorPart(alpha, h.score))];
    FusedIn(alpha, lexical, vector, h.chunk.id);
    forall id: string
      ensures id in after <==> id in expected
      ensures id in after ==> after[id] == expected[id]
    {
      HitForSnoc(vector, h, id);
      FusedIn(alpha, lexical, vector, id);
      FusedIn(alpha, lexical, vector + [h], id);
    }
  }

  lemma FreshId(hits: seq<Hit>, n: nat)
    requires DistinctIds(hits) && n < |hits|
    ensures HitFor(hits[..n], hits[n].chunk.id).None?
    ensures hits[..n + 1] == hits[..n] + [hits[n]]
  {
    HitForIff(hits[..n], hits[n].chunk.id);
  }

  /** The fusion limit: only a positive one truncates. */
  function FusionLimit(limit: int, count: nat): nat {
    if limit > 0 then limit else count
  }

  lemma TallyLexical(scores: map<string, real>, chunks: map<string, Chunk>, alpha: real, lexical: seq<Hit>, h: Hit)
    requires Tallied(scores, chunks, FusedHits(alpha, lexical, [])) && HitFor(lexical, h.chunk.id).None?
    ensures var earlier := if h.chunk.id in scores then scores[h.chunk.id] else 0.0;
            Tallied(scores[h.chunk.id := earlier + LexicalPart(alpha, h.score)], chunks[h.chunk.id := h.chunk],
                    FusedHits(alpha, lexical + [h], []))
  {
    hide HitFor, LexicalPart, FusedHits;
    FusedLexicalStep(alpha, lexical, h);
    FusedIn(alpha, lexical, [], h.chunk.id);
    HitForIff([], h.chunk.id);
  }

  lemma TallyVector(scores: map<string, real>, chunks: map<string, Chunk>, alpha: real, lexical: seq<Hit>,
                    vector: seq<Hit>, h: Hit)
    requires Tallied(scores, chunks, FusedHits(alpha, lexical, vector)) && HitFor(vector, h.chunk.id).None?
    ensures var earlier := if h.chunk.id in scores then scores[h.chunk.id] else 0.0;
            Tallied(scores[h.chunk.id := earlier + VectorPart(alpha, h.score)], chunks[h.chunk.id := h.chunk],
                    FusedHits(alpha, lexical, vector + [h]))
  {
    hide HitFor, VectorPart, FusedHits;
    FusedVectorStep(alpha, lexical, vector, h);
  }

  lemma NothingFused(alpha: real, filter: Filter)
    ensures Tallied(map[], map[], FusedHits(alpha, [], [])) && Matching([], filter) == []
  {
  }

  lemma {:induction false} MatchingWithin(hits: seq<Hit>, filter: Filter, h: Hit)
    ensures h in Matching(hits, filter) <==> h in hits && Matches(h.chunk.metadata, filter)
  {
    hide Matches;
    if hits != [] {
      MatchingWithin(hits[..|hits| - 1], filter, h);
      assert hits == hits[..|hits| - 1] + [hits[|hits| - 1]];
    }
  }

  lemma {:induction false} MatchingAll(hits: seq<Hit>, filter: Filter)
    requires forall i | 0 <= i < |hits| :: Matches(hits[i].chunk.metadata, filter)
    ensures Matching(hits, filter) == hits
  {
    hide Matches;
    if hits != [] {
      var front, last := hits[..|hits| - 1], hits[|hits| - 1];
      MatchingAll(front, filter);
      assert Matching(hits, filter) == front + [last];
    }
  }

  lemma {:induction false} MatchingDistinct(hits: seq<Hit>, filter: Filter)
    requires DistinctIds(hits)
    ensures DistinctIds(Matching(hits, filter))
  {
    hide Matches;
    if hits != [] {
      var front, last := hits[..|hits| - 1], hits[|hits| - 1];
      MatchingDistinct(front, filter);
      forall i | 0 <= i < |Matching(front, filter)|
        ensures Matching(front, filter)[i].chunk.id != last.chunk.id
      {
        MatchingWithin(front, filter, Matching(front, filter)[i]);
      }
    }
  }

  lemma NotYetMatching(hits: seq<Hit>, filter: Filter, n: nat)
    requires DistinctIds(hits) && n < |hits|
    ensures HitFor(Matching(hits[..n], filter), hits[n].chunk.id).None?
    ensures Matching(hits[..n + 1], filter) ==
              Matching(hits[..n], filter) + if Matches(hits[n].chunk.metadata, filter) then [hits[n]] else []
  {
    hide Matches;
    var id := hits[n].chunk.id;
    assert hits[..n + 1][..n] == hits[..n];
    HitForIff(Matching(hits[..n], filter), id);
    if h :| h in Matching(hits[..n], filter) && h.chunk.id == id {
      MatchingWithin(hits[..n], filter, h);
    }
  }

  // ----- What the results are

  /** The results are a fusion of the two top lists. */
  ghost predicate IsHybridResult(results: seq<Hit>, lexical: seq<Hit>, vector: seq<Hit>, alpha: real, limit: int) {
    var found := FusedHits(alpha, lexical, vector);
    IsBest(results, found, FusionLimit(limit, |found|), HigherScore)
  }

  /** x is what the lexical hit for that ID adds: (1 - alpha) times its score s scaled to s / (s + 1). */
  ghost predicate LexicalAdds(x: real, alpha: real, lexical: seq<Hit>, id: string) {
    && (forall l | l in lexical && l.chunk.id == id ::
          if l.score > 0.0 then Times(x, l.score + 1.0) == Times(1.0 - alpha, l.score) else x == 0.0)
    && ((forall l | l in lexical :: l.chunk.id != id) ==> x == 0.0)
  }

  /** y is what the vector hit for that ID adds: alpha times the middle of its cosine and 1. */
  ghost predicate VectorAdds(y: real, alpha: real, vector: seq<Hit>, id: string) {
    && (forall v | v in vector && v.chunk.id == id :: y + y == Times(alpha, v.score + 1.0))
    && ((forall v | v in vector :: v.chunk.id != id) ==> y == 0.0)
  }

  ghost predicate FusedScore(score: real, alpha: real, lexical: seq<Hit>, vector: seq<Hit>, id: string) {
    exists x, y :: LexicalAdds(x, alpha, lexical, id) && VectorAdds(y, alpha, vector, id) && score == x + y
  }

  /** What a fusion may return: chunks of the two lists, each once and with its fused score, by falling scores;
      and all of them as far as a positive limit leaves room. */
  ghost predicate HybridAnswer(results: seq<Hit>, lexical: seq<Hit>, vector: seq<Hit>, alpha: real, limit: int) {
    && (limit > 0 ==> |results| <= limit)
    && (forall i, j | 0 <= i < j < |results| ::
          results[i].score >= results[j].score && results[i].chunk.id != results[j].chunk.id)
    && (forall h | h in results ::
          && FusedScore(h.score, alpha, lexical, vector, h.chunk.id)
          && exists o :: (o in lexical || o in vector) && o.chunk == h.chunk)
    && (limit <= 0 || |results| < limit ==>
          forall o | o in lexical || o in vector :: exists h :: h in results && h.chunk.id == o.chunk.id)
  }

  lemma {:induction false} HitForIs(hits: seq<Hit>, h: Hit)
    requires DistinctIds(hits) && h in hits
    ensures HitFor(hits, h.chunk.id) == Some(h)
  {
    var front, last := hits[..|hits| - 1], hits[|hits| - 1];
    assert hits == front + [last];
    if h != last {
      HitForIs(front, h);
    }
  }

  lemma SharesAdd(alpha: real, lexical: seq<Hit>, vector: seq<Hit>, id: string)
    requires DistinctIds(lexical) && DistinctIds(vector)
    ensures LexicalAdds(LexicalShare(alpha, HitFor(lexical, id)), alpha, lexical, id)
    ensures VectorAdds(VectorShare(alpha, HitFor(vector, id)), alpha, vector, id)
  {
    hide LexicalPart, VectorPart, HitFor, DistinctIds, Times;
    HitForIff(lexical, id);
    HitForIff(vector, id);
    forall l | l in lexical && l.chunk.id == id
      ensures HitFor(lexical, id) == Some(l)
    {
      HitForIs(lexical, l);
      LexicalPartIs(alpha, l.score);
    }
    forall v | v in vector && v.chunk.id == id
      ensures HitFor(vector, id) == Some(v)
    {
      HitForIs(vector, v);
    }
    if HitFor(lexical, id).Some? {
      LexicalPartIs(alpha, HitFor(lexical, id).value.score);
    }
    if HitFor(vector, id).Some? {
      VectorPartIs(alpha, HitFor(vector, id).value.score);
    }
  }

  lemma FoundFused(alpha: real, lexical: seq<Hit>, vector: seq<Hit>, h: Hit)
    requires DistinctIds(lexical) && DistinctIds(vector)
    requires h.chunk.id in FusedHits(alpha, lexical, vector) && FusedHits(alpha, lexical, vector)[h.chunk.id] == h
    ensures FusedScore(h.score, alpha, lexical, vector, h.chunk.id)
    ensures exists o :: (o in lexical || o in vector) && o.chunk == h.chunk
  {
    hide DistinctIds, HitFor, FusedHits, LexicalShare, VectorShare, LexicalAdds, VectorAdds;
    var id := h.chunk.id;
    FusedIn(alpha, lexical, vector, id);
    HitForIff(lexical, id);
    HitForIff(vector, id);
    SharesAdd(alpha, lexical, vector, id);
  }

  lemma FusionAnswers(results: seq<Hit>, lexical: seq<Hit>, vector: seq<Hit>, alpha: real, limit: int)
    requires DistinctIds(lexical) && DistinctIds(vector) && IsHybridResult(results, lexical, vector, alpha, limit)
    ensures HybridAnswer(results, lexical, vector, alpha, limit)
  {
    hide DistinctIds, HitFor, FusedHits, FusedScore, KeyedById;
    var found := FusedHits(alpha, lexical, vector);
    BestFalls(results, found, FusionLimit(limit, |found|));
    forall h | h in results
      ensures FusedScore(h.score, alpha, lexical, vector, h.chunk.id)
      ensures exists o :: (o in lexical || o in vector) && o.chunk == h.chunk
    {
      FoundFused(alpha, lexical, vector, h);
    }
    if limit <= 0 || |results| < limit {
      FusedById(alpha, lexical, vector);
      forall o | o in lexical || o in vector
        ensures exists h :: h in results && h.chunk.id == o.chunk.id
      {
        assert o.chunk.id in FusedIds(lexical, vector);
        AllFused(results, found, limit, o.chunk.id);
      }
    }
  }

  lemma AllFused(results: seq<Hit>, found: map<string, Hit>, limit: int, id: string)
    requires IsBest(results, found, FusionLimit(limit, |found|), HigherScore) && KeyedById(found) && id in found
    requires limit <= 0 || |results| < limit
    ensures found[id] in results && found[id].chunk.id == id
  {
    assert |results| == |found|;
    assert IsBest(results, found, |found| + 1, HigherScore);
    UncutBest(results, found, |found| + 1, HigherScore, id);
  }

  /** The two IDs have lexical hits of the same score, or neither has one. */
  ghost predicate SameScore(hits: seq<Hit>, a: string, b: string) {
    forall s: real :: HasScore(hits, a, s) <==> HasScore(hits, b, s)
  }

  ghost predicate HasScore(hits: seq<Hit>, id: string, s: real) {
    exists h :: h in hits && h.chunk.id == id && h.score == s
  }

  lemma SameLexical(x: real, x': real, alpha: real, lexical: seq<Hit>, a: string, b: string)
    requires LexicalAdds(x, alpha, lexical, a) && LexicalAdds(x', alpha, lexical, b) && SameScore(lexical, a, b)
    ensures x == x'
  {
    hide Times;
    BothListed(lexical, a, b);
    if l :| l in lexical && l.chunk.id == a {
      assert HasScore(lexical, a, l.score) && HasScore(lexical, b, l.score);
      var m :| m in lexical && m.chunk.id == b && m.score == l.score;
      if l.score > 0.0 {
        TimesSwap(x, l.score + 1.0);
        TimesSwap(x', l.score + 1.0);
        TimesGrows(l.score + 1.0, x, x');
      }
    }
  }

  lemma BothListed(hits: seq<Hit>, a: string, b: string)
    requires SameScore(hits, a, b)
    ensures (exists h :: h in hits && h.chunk.id == b) ==> exists h :: h in hits && h.chunk.id == a
  {
    if h :| h in hits && h.chunk.id == b {
      assert HasScore(hits, b, h.score) && HasScore(hits, a, h.score);
    }
  }

  lemma SameVector(y: real, y': real, alpha: real, vector: seq<Hit>, a: string, b: string)
    requires VectorAdds(y, alpha, vector, a) && VectorAdds(y', alpha, vector, b) && SameScore(vector, a, b)
    ensures y == y'
  {
    hide Times;
    BothListed(vector, a, b);
    if v :| v in vector && v.chunk.id == a {
      assert HasScore(vector, a, v.score) && HasScore(vector, b, v.score);
    }
  }

  /** Of two results that the terms of the query do not tell apart, the one nearer to it has the higher score. */
  lemma NearerScoresHigher(results: seq<Hit>, lexical: seq<Hit>, vector: seq<Hit>, alpha: real, limit: int,
                           a: Hit, b: Hit, va: Hit, vb: Hit)
    requires HybridAnswer(results, lexical, vector, alpha, limit) && a in results && b in results && alpha > 0.0
    requires va in vector && va.chunk.id == a.chunk.id && vb in vector && vb.chunk.id == b.chunk.id
    requires SameScore(lexical, a.chunk.id, b.chunk.id)
    ensures a.score > b.score <==> va.score > vb.score
  {
    hide SameScore, LexicalAdds, Times;
    var x, y :| LexicalAdds(x, alpha, lexical, a.chunk.id) && VectorAdds(y, alpha, vector, a.chunk.id)
        && a.score == x + y;
    var x', y' :| LexicalAdds(x', alpha, lexical, b.chunk.id) && VectorAdds(y', alpha, vector, b.chunk.id)
        && b.score == x' + y';
    SameLexical(x, x', alpha, lexical, a.chunk.id, b.chunk.id);
    TimesGrows(alpha, vb.score + 1.0, va.score + 1.0);
  }

  /** Of two results equally near, the one that shares more with the query has the higher score. */
  lemma MoreTermsScoreHigher(results: seq<Hit>, lexical: seq<Hit>, vector: seq<Hit>, alpha: real, limit: int,
                             a: Hit, b: Hit, la: Hit, lb: Hit)
    requires HybridAnswer(results, lexical, vector, alpha, limit) && a in results && b in results && alpha < 1.0
    requires la in lexical && la.chunk.id == a.chunk.id && lb in lexical && lb.chunk.id == b.chunk.id
    requires SameScore(vector, a.chunk.id, b.chunk.id) && la.score > lb.score > 0.0
    ensures a.score > b.score
  {
    hide SameScore, VectorAdds, Times;
    var x, y :| LexicalAdds(x, alpha, lexical, a.chunk.id) && VectorAdds(y, alpha, vector, a.chunk.id)
        && a.score == x + y;
    var x', y' :| LexicalAdds(x', alpha, lexical, b.chunk.id) && VectorAdds(y', alpha, vector, b.chunk.id)
        && b.score == x' + y';
    SameVector(y, y', alpha, vector, a.chunk.id, b.chunk.id);
    SaturationGrows(1.0 - alpha, lb.score, la.score, x', x);
  }

  lemma FusionIsHybrid(results: seq<Hit>, lexical: seq<Hit>, vector: seq<Hit>, alpha: real, limit: int)
    requires var found := FusedHits(alpha, lexical, vector);
             IsBest(results, found, FusionLimit(limit, |found|), HigherScore)
    ensures IsHybridResult(results, lexical, vector, alpha, limit)
  {
  }

  // ----- The fusion

  /** The two fusion loops, the walk over the scores in any order, and the sort by score alone. */
  method Fuse(alpha: real, lexical: seq<Hit>, vector: seq<Hit>, limit: int, filter: Filter) returns (results: seq<Hit>)
    requires DistinctIds(lexical) && DistinctIds(vector)
    ensures var found := FusedHits(alpha, lexical, Matching(vector, filter));
            IsBest(results, found, FusionLimit(limit, |found|), HigherScore)
    ensures HybridAnswer(results, lexical, Matching(vector, filter), alpha, limit)
  {
    hide DistinctIds, HitFor, FusedHits, Tallied, IsBest, LexicalPart, VectorPart, Normalize, Matching, Matches,
         HybridAnswer;
    var scores: map<string, real> := map[];
    var chunks: map<string, Chunk> := map[];
    NothingFused(alpha, filter);
    assert lexical[..0] == [] && vector[..0] == [];
    for n := 0 to |lexical|
      invariant Tallied(scores, chunks, FusedHits(alpha, lexical[..n], []))
    {
      var h := lexical[n];
      FreshId(lexical, n);
      TallyLexical(scores, chunks, alpha, lexical[..n], h);
      var earlier := if h.chunk.id in scores then scores[h.chunk.id] else 0.0;
      scores := scores[h.chunk.id := earlier + LexicalPart(alpha, h.score)];
      chunks := chunks[h.chunk.id := h.chunk];
    }
    assert lexical[..|lexical|] == lexical;
    for n := 0 to |vector|
      invariant Tallied(scores, chunks, FusedHits(alpha, lexical, Matching(vector[..n], filter)))
    {
      var h := vector[n];
      NotYetMatching(vector, filter, n);
      var kept := MatchesMetadata(h.chunk.metadata, filter);
      if !kept {
        assert Matching(vector[..n], filter) + [] == Matching(vector[..n], filter);
        continue;
      }
      TallyVector(scores, chunks, alpha, lexical, Matching(vector[..n], filter), h);
      var earlier := if h.chunk.id in scores then scores[h.chunk.id] else 0.0;
      scores := scores[h.chunk.id := earlier + VectorPart(alpha, h.score)];
      chunks := chunks[h.chunk.id := h.chunk];
    }
    assert vector[..|vector|] == vector;
    FusedById(alpha, lexical, Matching(vector, filter));
    results := RankScores(scores, chunks, limit, FusedHits(alpha, lexical, Matching(vector, filter)));
    MatchingDistinct(vector, filter);
    FusionIsHybrid(results, lexical, Matching(vector, filter), alpha, limit);
    FusionAnswers(results, lexical, Matching(vector, filter), alpha, limit);
  }

  lemma FusedById(alpha: real, lexical: seq<Hit>, vector: seq<Hit>)
    ensures KeyedById(FusedHits(alpha, lexical, vector))
  {
    hide FusedHits;
    var found := FusedHits(alpha, lexical, vector);
    forall id | id in found
      ensures found[id].chunk.id == id
    {
      FusedIn(alpha, lexical, vector, id);
      HitForIff(lexical, id);
      HitForIff(vector, id);
    }
  }

  method RankScores(scores: map<string, real>, chunks: map<string, Chunk>, limit: int, ghost found: map<string, Hit>)
    returns (results: seq<Hit>)
    requires KeyedById(found) && Tallied(scores, chunks, found)
    ensures IsBest(results, found, FusionLimit(limit, |found|), HigherScore)
  {
    hide Enumerates, KeyedById, IsBest;
    var hits: seq<Hit> := [];
    EnumerateNone(found);
    assert found.Keys - scores.Keys == {};
    var ids := scores.Keys;
    while ids != {}
      invariant ids <= scores.Keys
      invariant Enumerates(hits, found, found.Keys - ids)
      decreases |ids|
    {
      ghost var before := ids;
      var id :| id in ids;
      ids := ids - {id};
      EnumerateStep(hits, found, before, id);
      hits := hits + [Hit(chunks[id], scores[id])];
    }
    assert found.Keys - {} == found.Keys;
    assert |scores| == |scores.Keys| == |found.Keys| == |found|;
    results := RankBy(hits, if limit > 0 then limit else |scores|, HigherScore, found);
  }

  // ----- Bounds

  /** Whatever the two lists are, as long as the vector scores are cosines, fused scores lie in [0, 1]. */
  lemma FusedBounded(results: seq<Hit>, alpha: real, lexical: seq<Hit>, vector: seq<Hit>, limit: int)
    requires 0.0 <= alpha <= 1.0 && IsHybridResult(results, lexical, vector, alpha, limit)
    requires forall h | h in vector :: -1.0 <= h.score <= 1.0
    ensures forall h | h in results :: 0.0 <= h.score <= 1.0
    ensures alpha < 1.0 ==> forall h | h in results && HitFor(vector, h.chunk.id).None? :: h.score < 1.0 - alpha
  {
    hide FusedHits, HitFor, LexicalPart, VectorPart;
    var found := FusedHits(alpha, lexical, vector);
    forall h | h in results
      ensures 0.0 <= h.score <= 1.0
      ensures alpha < 1.0 && HitFor(vector, h.chunk.id).None? ==> h.score < 1.0 - alpha
    {
      assert h.chunk.id in found && found[h.chunk.id] == h;
      FusedIn(alpha, lexical, vector, h.chunk.id);
      HitForIff(vector, h.chunk.id);
      SharesBounded(alpha, HitFor(lexical, h.chunk.id), HitFor(vector, h.chunk.id));
    }
  }

  lemma SharesBounded(alpha: real, l: Option<Hit>, v: Option<Hit>)
    requires 0.0 <= alpha <= 1.0 && (v.Some? ==> -1.0 <= v.value.score <= 1.0)
    ensures 0.0 <= LexicalShare(alpha, l) + VectorShare(alpha, v) <= 1.0
    ensures alpha < 1.0 && v.None? ==> LexicalShare(alpha, l) + VectorShare(alpha, v) < 1.0 - alpha
  {
    hide LexicalPart, VectorPart;
    if l.Some? {
      LexicalPartBounded(alpha, l.value.score);
    }
    if v.Some? {
      VectorPartBounded(alpha, v.value.score);
    }
  }
}
