/** Model of the reassembly at the end of Embed (internal/provider/embedding.go). */
module Embedding {
  import opened Results
  import opened Collections

  type Vector = seq<real>

  /** One embedding of a response, with the position of the text it belongs to. */
  datatype Item = Item(index: int, embedding: Vector)

  datatype EmbedError = WrongCount | InvalidItem(position: nat) | Missing(index: nat)

  ghost predicate ValidItem(item: Item, n: nat) {
    0 <= item.index < n && item.embedding != []
  }

  ghost predicate AllValid(data: seq<Item>, n: nat) {
    forall k | 0 <= k < |data| :: ValidItem(data[k], n)
  }

  ghost predicate DistinctIndexes(data: seq<Item>) {
    forall j, k | 0 <= j < k < |data| :: data[j].index != data[k].index
  }

  ghost predicate HasIndex(data: seq<Item>, i: int) {
    exists k :: 0 <= k < |data| && data[k].index == i
  }

  /** The indexes of the response are a permutation of 0 .. n-1. */
  ghost predicate IsPermutation(data: seq<Item>, n: nat) {
    && |data| == n && DistinctIndexes(data)
    && (forall k | 0 <= k < |data| :: 0 <= data[k].index < n)
    && (forall i | 0 <= i < n :: HasIndex(data, i))
  }

  ghost predicate Acceptable(data: seq<Item>, n: nat) {
    IsPermutation(data, n) && forall k | 0 <= k < |data| :: data[k].embedding != []
  }

  /** Every item is where its index says. */
  ghost predicate Placed(vectors: seq<Vector>, data: seq<Item>) {
    forall k | 0 <= k < |data| :: 0 <= data[k].index < |vectors| && vectors[data[k].index] == data[k].embedding
  }

  /** Succeeds exactly on permutations with no empty vector; nothing is then overwritten or left out. */
  method Reassemble(data: seq<Item>, n: nat) returns (r: Result<seq<Vector>, EmbedError>)
    ensures r.Success? <==> Acceptable(data, n)
    ensures r.Success? ==> |r.value| == n && Placed(r.value, data)
    ensures r.Failure? ==>
              match r.error
              case WrongCount => |data| != n
              case InvalidItem(p) => |data| == n && p < n && !ValidItem(data[p], n) && AllValid(data[..p], n)
              case Missing(i) =>
                && |data| == n && AllValid(data, n) && i < n
                && !HasIndex(data, i) && forall j | 0 <= j < i :: HasIndex(data, j)
  {
    hide Acceptable, AllValid, Filled, HasIndex, Placed;
    if |data| != n {
      Refused(data, n);
      return Failure(WrongCount);
    }
    var vectors := new Vector[n](_ => []);
    NothingFilled(vectors[..], data);
    for k := 0 to |data|
      invariant Filled(vectors[..], data[..k])
    {
      var item := data[k];
      if item.index < 0 || item.index >= vectors.Length || |item.embedding| == 0 {
        FilledFacts(vectors[..], data[..k]);
        Refused(data, n);
        return Failure(InvalidItem(k));
      }
      FilledMore(vectors[..], data, k);
      vectors[item.index] := item.embedding;
    }
    assert data[..|data|] == data;
    FilledFacts(vectors[..], data);
    for i := 0 to vectors.Length
      invariant forall j | 0 <= j < i :: HasIndex(data, j)
    {
      if |vectors[i]| == 0 {
        Refused(data, n);
        return Failure(Missing(i));
      }
    }
    CoveredIsPermutation(data, n);
    FilledFacts(vectors[..], data);
    return Success(vectors[..]);
  }

  /** The state of the scatter loop: the positions filled are those of the items seen. */
  ghost predicate Filled(vectors: seq<Vector>, seen: seq<Item>) {
    && AllValid(seen, |vectors|)
    && (forall i | 0 <= i < |vectors| :: vectors[i] != [] <==> HasIndex(seen, i))
    && (DistinctIndexes(seen) ==> Placed(vectors, seen))
  }

  lemma NothingFilled(vectors: seq<Vector>, data: seq<Item>)
    requires forall i | 0 <= i < |vectors| :: vectors[i] == []
    ensures Filled(vectors, data[..0])
  {
  }

  lemma FilledFacts(vectors: seq<Vector>, seen: seq<Item>)
    requires Filled(vectors, seen)
    ensures AllValid(seen, |vectors|)
    ensures forall i | 0 <= i < |vectors| :: vectors[i] != [] <==> HasIndex(seen, i)
    ensures Acceptable(seen, |vectors|) ==> Placed(vectors, seen)
  {
    hide HasIndex, Placed;
  }

  lemma FilledMore(vectors: seq<Vector>, data: seq<Item>, k: nat)
    requires k < |data| && Filled(vectors, data[..k]) && ValidItem(data[k], |vectors|)
    ensures Filled(vectors[data[k].index := data[k].embedding], data[..k + 1])
  {
    hide HasIndex;
    IndexSnoc(data, k);
    var more := vectors[data[k].index := data[k].embedding];
    assert forall j | 0 <= j < k :: data[..k + 1][j] == data[..k][j];
    assert AllValid(data[..k + 1], |more|);
    forall i | 0 <= i < |more|
      ensures more[i] != [] <==> HasIndex(data[..k + 1], i)
    {
      assert HasIndex(data[..k + 1], i) <==> HasIndex(data[..k], i) || data[k].index == i;
    }
    if DistinctIndexes(data[..k + 1]) {
      forall j | 0 <= j < k
        ensures data[j].index != data[k].index
      {
        assert data[..k + 1][j] == data[j] == data[..k][j];
      }
      assert Placed(more, data[..k + 1]);
    }
  }

  lemma IndexSnoc(data: seq<Item>, k: nat)
    requires k < |data|
    ensures data[..k + 1] == data[..k] + [data[k]]
    ensures forall i :: HasIndex(data[..k + 1], i) <==> HasIndex(data[..k], i) || data[k].index == i
    ensures DistinctIndexes(data[..k + 1]) ==> DistinctIndexes(data[..k]) && !HasIndex(data[..k], data[k].index)
  {
    forall i: int
      ensures HasIndex(data[..k + 1], i) <==> HasIndex(data[..k], i) || data[k].index == i
    {
      if HasIndex(data[..k], i) {
        var j :| 0 <= j < k && data[..k][j].index == i;
        assert data[..k + 1][j].index == i;
      }
      if data[k].index == i {
        assert data[..k + 1][k].index == i;
      }
    }
    assert forall j | 0 <= j < k :: data[..k + 1][j] == data[..k][j];
  }

  /** What a response that fails one of the checks cannot be. */
  lemma Refused(data: seq<Item>, n: nat)
    ensures |data| != n ==> !Acceptable(data, n)
    ensures forall k | 0 <= k < |data| && !ValidItem(data[k], n) :: !AllValid(data, n)
    ensures Acceptable(data, n) ==> AllValid(data, n) && forall i | 0 <= i < n :: HasIndex(data, i)
  {
  }

  // ----- Pigeonholes

  ghost function IndexSet(data: seq<Item>, n: nat): set<int>
    requires n <= |data|
  {
    set k | 0 <= k < n :: data[k].index
  }

  function Below(n: nat): (s: set<int>)
    ensures |s| == n && forall i :: i in s <==> 0 <= i < n
  {
    if n == 0 then {} else Below(n - 1) + {n - 1}
  }

  lemma {:induction false} IndexSetSize(data: seq<Item>, n: nat)
    requires n <= |data|
    ensures |IndexSet(data, n)| <= n
    ensures DistinctIndexes(data) ==> |IndexSet(data, n)| == n
  {
    if n > 0 {
      IndexSetSize(data, n - 1);
      assert IndexSet(data, n) == IndexSet(data, n - 1) + {data[n - 1].index};
    }
  }

  lemma {:induction false} RepeatedIndex(data: seq<Item>, a: nat, b: nat, n: nat)
    requires a < b < n <= |data| && data[a].index == data[b].index
    ensures |IndexSet(data, n)| < n
  {
    if b == n - 1 {
      IndexSetSize(data, n - 1);
      assert IndexSet(data, n) == IndexSet(data, n - 1);
    } else {
      RepeatedIndex(data, a, b, n - 1);
      assert IndexSet(data, n) == IndexSet(data, n - 1) + {data[n - 1].index};
    }
  }

  /** n items that cover n positions leave none twice. */
  lemma CoveredIsPermutation(data: seq<Item>, n: nat)
    requires |data| == n && AllValid(data, n)
    requires forall i | 0 <= i < n :: HasIndex(data, i)
    ensures Acceptable(data, n)
  {
    forall i | i in Below(n)
      ensures i in IndexSet(data, n)
    {
      assert HasIndex(data, i);
    }
    assert IndexSet(data, n) == Below(n);
    forall j, k | 0 <= j < k < |data|
      ensures data[j].index != data[k].index
    {
      if data[j].index == data[k].index {
        RepeatedIndex(data, j, k, n);
      }
    }
  }

  /** Conversely, n distinct positions among n leave none out: a repeated index is the only way to miss one. */
  lemma DistinctIsPermutation(data: seq<Item>, n: nat)
    requires |data| == n && AllValid(data, n)
    ensures Acceptable(data, n) <==> DistinctIndexes(data)
  {
    hide HasIndex;
    if DistinctIndexes(data) {
      IndexSetSize(data, n);
      SubsetIsAll(IndexSet(data, n), Below(n));
      forall i | 0 <= i < n
        ensures HasIndex(data, i)
      {
        assert i in IndexSet(data, n);
        InIndexSet(data, i);
      }
    }
  }

  lemma InIndexSet(data: seq<Item>, i: int)
    ensures i in IndexSet(data, |data|) <==> HasIndex(data, i)
  {
  }

  /** The order of the response does not matter. */
  lemma OrderIndependent(a: seq<Item>, b: seq<Item>, n: nat, v: seq<Vector>, w: seq<Vector>)
    requires multiset(a) == multiset(b) && Acceptable(a, n) && |v| == |w| == n && Placed(v, a) && Placed(w, b)
    ensures v == w
  {
    forall i | 0 <= i < n
      ensures v[i] == w[i]
    {
      assert HasIndex(a, i);
      var j :| 0 <= j < |a| && a[j].index == i;
      assert a[j] in multiset(a) && a[j] in multiset(b);
      var k :| 0 <= k < |b| && b[k] == a[j];
    }
  }
}
