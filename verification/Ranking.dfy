/** The comparison of the two in-memory searches, and what their sorted and truncated lists are. */
module Ranking {
  import opened Splitter
  import opened Collections
  import opened Sorting

  datatype Hit = Hit(chunk: Chunk, score: real)

  /** Strings compare rune by rune, a proper prefix first. */
  predicate StringLess(a: string, b: string) {
    b != "" && (a == "" || a[0] < b[0] || (a[0] == b[0] && StringLess(a[1..], b[1..])))
  }

  lemma {:induction false} StringLessTransitive(a: string, b: string, c: string)
    requires StringLess(a, b) && StringLess(b, c)
    ensures StringLess(a, c)
  {
    if a != "" && a[0] == b[0] == c[0] {
      StringLessTransitive(a[1..], b[1..], c[1..]);
    }
  }

  lemma {:induction false} StringLessTotal(a: string, b: string)
    ensures a != b <==> StringLess(a, b) || StringLess(b, a)
    ensures !(StringLess(a, b) && StringLess(b, a))
  {
    if a != "" && b != "" {
      StringLessTotal(a[1..], b[1..]);
      assert a == [a[0]] + a[1..] && b == [b[0]] + b[1..];
    }
  }

  /** The two agree up to some rune, where the first one ends or has the smaller rune. */
  ghost predicate DiffersAt(a: string, b: string, k: nat) {
    k <= |a| && k < |b| && a[..k] == b[..k] && (k < |a| ==> a[k] < b[k])
  }

  lemma DiffersFirst(a: string, b: string, k: nat)
    requires DiffersAt(a, b, k)
    ensures b != ""
    ensures k > 0 ==> a != "" && a[0] == b[0]
    ensures a != "" && a[0] != b[0] ==> a[0] < b[0]
  {
    if k > 0 {
      assert a[0] == a[..k][0] && b[0] == b[..k][0];
    }
  }

  lemma {:induction false} StringLessIff(a: string, b: string)
    ensures StringLess(a, b) <==> exists k :: DiffersAt(a, b, k)
  {
    if a == "" || b == "" || a[0] != b[0] {
      assert b != "" && (a == "" || a[0] < b[0]) ==> DiffersAt(a, b, 0);
      forall k: nat | DiffersAt(a, b, k)
        ensures b != "" && (a == "" || a[0] < b[0])
      {
        DiffersFirst(a, b, k);
      }
    } else {
      StringLessIff(a[1..], b[1..]);
      if StringLess(a[1..], b[1..]) {
        var k: nat :| DiffersAt(a[1..], b[1..], k);
        assert a[..k + 1] == [a[0]] + a[1..][..k] && b[..k + 1] == [b[0]] + b[1..][..k];
        assert DiffersAt(a, b, k + 1);
      }
      if k: nat :| DiffersAt(a, b, k) {
        assert a[1..][..k - 1] == a[..k][1..] && b[1..][..k - 1] == b[..k][1..];
        assert DiffersAt(a[1..], b[1..], k - 1);
      }
    }
  }

  /** Higher score first; equal scores by chunk ID. */
  predicate Before(a: Hit, b: Hit) {
    if a.score == b.score then StringLess(a.chunk.id, b.chunk.id) else a.score > b.score
  }

  predicate HigherScore(a: Hit, b: Hit) {
    a.score > b.score
  }

  lemma BeforeIsStrict()
    ensures StrictOrder(Before)
  {
    hide StringLess;
    forall a: Hit
      ensures !Before(a, a)
    {
      StringLessTotal(a.chunk.id, a.chunk.id);
    }
    forall a: Hit, b: Hit, c: Hit | Before(a, b) && Before(b, c)
      ensures Before(a, c)
    {
      if a.score == b.score == c.score {
        StringLessTransitive(a.chunk.id, b.chunk.id, c.chunk.id);
      }
    }
  }

  // ----- The list a search returns

  /** Every hit of `found` whose key is in `ids`, once each, in any order. */
  ghost predicate Enumerates(hits: seq<Hit>, found: map<string, Hit>, ids: set<string>) {
    && ids <= found.Keys
    && |hits| == |ids|
    && (forall i | 0 <= i < |hits| :: hits[i].chunk.id in ids && found[hits[i].chunk.id] == hits[i])
    && (forall i, j | 0 <= i < j < |hits| :: hits[i].chunk.id != hits[j].chunk.id)
  }

  ghost predicate KeyedById(found: map<string, Hit>) {
    forall id | id in found :: found[id].chunk.id == id
  }

  lemma EnumerateNone(found: map<string, Hit>)
    ensures Enumerates([], found, {})
  {
  }

  lemma EnumerateMore(hits: seq<Hit>, found: map<string, Hit>, ids: set<string>, id: string)
    requires KeyedById(found) && Enumerates(hits, found, ids) && id in found && id !in ids
    ensures Enumerates(hits + [found[id]], found, ids + {id})
  {
  }

  /** One turn of a search loop: of the keys still to visit, `id` is done. */
  lemma EnumerateStep(hits: seq<Hit>, found: map<string, Hit>, pending: set<string>, id: string)
    requires KeyedById(found) && Enumerates(hits, found, found.Keys - pending) && id in pending
    ensures Enumerates(if id in found then hits + [found[id]] else hits, found, found.Keys - (pending - {id}))
  {
    hide Enumerates, KeyedById;
    var seen := found.Keys - pending;
    if id in found {
      EnumerateMore(hits, found, seen, id);
      assert found.Keys - (pending - {id}) == seen + {id};
    } else {
      assert found.Keys - (pending - {id}) == seen;
    }
  }

  lemma EnumeratesAll(hits: seq<Hit>, found: map<string, Hit>, id: string)
    requires Enumerates(hits, found, found.Keys) && id in found
    ensures found[id] in hits
  {
    var seen := set i | 0 <= i < |hits| :: hits[i].chunk.id;
    IdsCounted(hits, |hits|);
    SubsetIsAll(seen, found.Keys);
    assert id in seen;
  }

  lemma {:induction false} IdsCounted(hits: seq<Hit>, n: nat)
    requires n <= |hits|
    requires forall i, j | 0 <= i < j < |hits| :: hits[i].chunk.id != hits[j].chunk.id
    ensures |set i | 0 <= i < n :: hits[i].chunk.id| == n
  {
    if n > 0 {
      IdsCounted(hits, n - 1);
      var fewer := set i | 0 <= i < n - 1 :: hits[i].chunk.id;
      assert (set i | 0 <= i < n :: hits[i].chunk.id) == fewer + {hits[n - 1].chunk.id};
    }
  }

  /** A best `limit` of the found hits: in order, no hit twice, and nothing left out that beats one returned. */
  ghost predicate IsBest(top: seq<Hit>, found: map<string, Hit>, limit: nat, less: (Hit, Hit) -> bool) {
    && NoInversion(top, less)
    && (forall i, j | 0 <= i < j < |top| :: top[i].chunk.id != top[j].chunk.id)
    && (forall h | h in top :: h.chunk.id in found && found[h.chunk.id] == h)
    && |top| == (if |found| < limit then |found| else limit)
    && (forall id, h | id in found && found[id] !in top && h in top :: !less(found[id], h))
  }

  /** The first `limit` of the found hits in ranking order. */
  ghost predicate IsTop(top: seq<Hit>, found: map<string, Hit>, limit: nat) {
    && (forall i, j | 0 <= i < j < |top| :: Before(top[i], top[j]))
    && (forall h | h in top :: h.chunk.id in found && found[h.chunk.id] == h)
    && |top| == (if |found| < limit then |found| else limit)
    && (forall id, h | id in found && found[id] !in top && h in top :: Before(h, found[id]))
  }

  /** Sorting and truncating any enumeration of the hits gives a best list. */
  method RankBy(hits: seq<Hit>, limit: nat, less: (Hit, Hit) -> bool, ghost found: map<string, Hit>)
    returns (top: seq<Hit>)
    requires StrictOrder(less) && Enumerates(hits, found, found.Keys)
    ensures IsBest(top, found, limit, less)
  {
    hide StrictOrder, Enumerates, IsBest;
    top := SortSlice(hits, less);
    SortedIsBest(hits, top, limit, less, found);
    if |top| > limit {
      top := top[..limit];
    }
  }

  method Rank(hits: seq<Hit>, limit: nat, ghost found: map<string, Hit>) returns (top: seq<Hit>)
    requires KeyedById(found) && Enumerates(hits, found, found.Keys)
    ensures IsTop(top, found, limit)
  {
    hide Enumerates, IsBest, IsTop, Before;
    BeforeIsStrict();
    top := RankBy(hits, limit, Before, found);
    BestIsTop(top, found, limit);
  }

  lemma SortedIsBest(hits: seq<Hit>, sorted: seq<Hit>, limit: nat, less: (Hit, Hit) -> bool, found: map<string, Hit>)
    requires Enumerates(hits, found, found.Keys)
    requires NoInversion(sorted, less) && multiset(sorted) == multiset(hits)
    ensures |sorted| == |multiset(sorted)| == |multiset(hits)| == |hits|
    ensures IsBest(if |sorted| > limit then sorted[..limit] else sorted, found, limit, less)
  {
    assert |sorted| == |multiset(sorted)| == |multiset(hits)| == |hits|;
    DistinctAfterSort(hits, sorted);
    var top := if |sorted| > limit then sorted[..limit] else sorted;
    forall h | h in top
      ensures h in hits && h.chunk.id in found && found[h.chunk.id] == h
    {
      assert h in multiset(sorted);
    }
    forall id, h | id in found && found[id] !in top && h in top
      ensures !less(found[id], h)
    {
      EnumeratesAll(hits, found, id);
      assert found[id] in multiset(sorted);
      var j: nat :| j < |sorted| && sorted[j] == found[id];
      TakeContains(sorted, |top|, j);
    }
    assert |found| == |found.Keys|;
  }

  /** With the tie-break on IDs, a best list is strictly ordered, and before everything it leaves out. */
  lemma BestIsTop(top: seq<Hit>, found: map<string, Hit>, limit: nat)
    requires KeyedById(found) && IsBest(top, found, limit, Before)
    ensures IsTop(top, found, limit)
  {
    hide StringLess;
    forall i, j | 0 <= i < j < |top|
      ensures Before(top[i], top[j])
    {
      StringLessTotal(top[i].chunk.id, top[j].chunk.id);
    }
    forall id, h | id in found && found[id] !in top && h in top
      ensures Before(h, found[id])
    {
      StringLessTotal(h.chunk.id, id);
    }
  }

  /** Scores fall along the list, and equal ones come in ascending order of the IDs. */
  ghost predicate InOrder(hits: seq<Hit>) {
    forall i, j | 0 <= i < j < |hits| ::
        || hits[i].score > hits[j].score
        || (hits[i].score == hits[j].score && StringLess(hits[i].chunk.id, hits[j].chunk.id))
  }

  lemma TopInOrder(top: seq<Hit>, found: map<string, Hit>, limit: nat)
    requires IsTop(top, found, limit)
    ensures InOrder(top)
  {
    hide StringLess;
  }

  lemma TopWithin(top: seq<Hit>, found: map<string, Hit>, limit: nat)
    requires IsTop(top, found, limit)
    ensures |top| <= limit && forall h | h in top :: h.chunk.id in found && found[h.chunk.id] == h
  {
  }

  lemma BestFalls(top: seq<Hit>, found: map<string, Hit>, limit: nat)
    requires IsBest(top, found, limit, HigherScore)
    ensures forall i, j | 0 <= i < j < |top| :: top[i].score >= top[j].score
  {
    assert forall i, j | 0 <= i < j < |top| :: !HigherScore(top[j], top[i]);
  }

  /** A list that the limit did not cut holds everything found. */
  lemma UncutBest(top: seq<Hit>, found: map<string, Hit>, limit: nat, less: (Hit, Hit) -> bool, id: string)
    requires IsBest(top, found, limit, less) && KeyedById(found) && |top| < limit && id in found
    ensures found[id] in top
  {
    assert |found| == |found.Keys|;
    assert Enumerates(top, found, found.Keys);
    EnumeratesAll(top, found, id);
  }

  lemma UncutTop(top: seq<Hit>, found: map<string, Hit>, limit: nat, id: string)
    requires IsTop(top, found, limit) && KeyedById(found) && |top| < limit && id in found
    ensures found[id] in top
  {
    hide Before;
    assert |found| == |found.Keys|;
    forall i, j | 0 <= i < j < |top|
      ensures top[i].chunk.id != top[j].chunk.id
    {
      BeforeAsymmetric(top[i], top[j]);
      assert top[i] in top && top[j] in top;
    }
    assert Enumerates(top, found, found.Keys);
    EnumeratesAll(top, found, id);
  }

  lemma TakeContains<T>(s: seq<T>, n: nat, j: nat)
    requires n <= |s| && j < |s|
    ensures j < n ==> s[j] in s[..n]
  {
    if j < n {
      assert s[..n][j] == s[j];
    }
  }

  lemma DistinctAfterSort(hits: seq<Hit>, sorted: seq<Hit>)
    requires multiset(sorted) == multiset(hits)
    requires forall i, j | 0 <= i < j < |hits| :: hits[i].chunk.id != hits[j].chunk.id
    ensures forall i, j | 0 <= i < j < |sorted| :: sorted[i].chunk.id != sorted[j].chunk.id
  {
    SortedAllDifferent(hits, sorted);
    forall i, j | 0 <= i < j < |sorted|
      ensures sorted[i].chunk.id != sorted[j].chunk.id
    {
      assert sorted[i] in sorted && sorted[j] in sorted;
    }
  }

  /** The top list is unique: whatever order the map is walked in, a search returns the same hits. */
  lemma TopIsUnique(a: seq<Hit>, b: seq<Hit>, found: map<string, Hit>, limit: nat)
    requires IsTop(a, found, limit) && IsTop(b, found, limit)
    ensures a == b
  {
    TopPrefix(a, b, found, limit, |a|);
    assert a[..|a|] == a && b[..|a|] == b;
  }

  lemma {:induction false} TopPrefix(a: seq<Hit>, b: seq<Hit>, found: map<string, Hit>, limit: nat, n: nat)
    requires IsTop(a, found, limit) && IsTop(b, found, limit) && n <= |a| == |b|
    ensures a[..n] == b[..n]
  {
    hide Before;
    if n > 0 {
      TopPrefix(a, b, found, limit, n - 1);
      if a[n - 1] != b[n - 1] {
        BeforeAsymmetric(a[n - 1], b[n - 1]);
        NotLater(a, b, found, limit, n - 1);
        NotLater(b, a, found, limit, n - 1);
      }
    }
  }

  lemma NotLater(a: seq<Hit>, b: seq<Hit>, found: map<string, Hit>, limit: nat, n: nat)
    requires IsTop(a, found, limit) && IsTop(b, found, limit) && n < |a| == |b|
    requires a[..n] == b[..n] && a[n] != b[n]
    ensures Before(b[n], a[n])
  {
    hide Before;
    BeforeIsStrict();
    assert forall k | 0 <= k < n :: a[k] == a[..n][k] && b[k] == b[..n][k] && Before(a[k], a[n]);
    assert a[n] in a && b[n] in b;
    if a[n] in b {
      var k: nat :| k < |b| && b[k] == a[n];
    }
  }

  lemma BeforeAsymmetric(x: Hit, y: Hit)
    ensures !(Before(x, y) && Before(y, x))
  {
    hide Before;
    BeforeIsStrict();
    assert Before(x, y) && Before(y, x) ==> Before(x, x);
  }
}
