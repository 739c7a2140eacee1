/** Go's sort.Slice and sort.Ints, of which only the contract
    matters: a permutation without inversions, so that sorting
    repeats and loses nothing. */
module Sorting {
  import opened Collections

  ghost predicate StrictOrder<T(!new)>(less: (T, T) -> bool) {
    && (forall a :: !less(a, a))
    && (forall a, b, c | less(a, b) && less(b, c) :: less(a, c))
  }

  ghost predicate NoInversion<T>(s: seq<T>, less: (T, T) -> bool) {
    forall i, j | 0 <= i < j < |s| :: !less(s[j], s[i])
  }

  method SortSlice<T(==, !new)>(items: seq<T>, less: (T, T) -> bool) returns (sorted: seq<T>)
    requires StrictOrder(less)
    ensures NoInversion(sorted, less) && multiset(sorted) == multiset(items)
  {
    hide StrictOrder;
    sorted := [];
    for n := 0 to |items|
      invariant NoInversion(sorted, less) && multiset(sorted) == multiset(items[..n])
    {
      var p := 0;
      while p < |sorted| && !less(items[n], sorted[p])
        invariant 0 <= p <= |sorted|
        invariant forall i | 0 <= i < p :: !less(items[n], sorted[i])
      {
        p := p + 1;
      }
      Inserted(sorted, items[n], p, less);
      assert items[..n + 1] == items[..n] + [items[n]];
      sorted := sorted[..p] + [items[n]] + sorted[p..];
    }
    assert items[..|items|] == items;
  }

  lemma Inserted<T(!new)>(s: seq<T>, x: T, p: nat, less: (T, T) -> bool)
    requires StrictOrder(less) && NoInversion(s, less) && p <= |s|
    requires forall i | 0 <= i < p :: !less(x, s[i])
    requires p < |s| ==> less(x, s[p])
    ensures NoInversion(s[..p] + [x] + s[p..], less)
    ensures multiset(s[..p] + [x] + s[p..]) == multiset(s) + multiset{x}
  {
    hide StrictOrder;
    var r := s[..p] + [x] + s[p..];
    assert s == s[..p] + s[p..];
    forall i, j | 0 <= i < j < |r|
      ensures !less(r[j], r[i])
    {
      if i == p {
        NotBelow(s, x, p, j - 1, less);
      }
    }
  }

  lemma NotBelow<T(!new)>(s: seq<T>, x: T, p: nat, k: nat, less: (T, T) -> bool)
    requires StrictOrder(less) && NoInversion(s, less) && p <= k < |s| && less(x, s[p])
    ensures !less(s[k], x)
  {
    var y, z := s[k], s[p];
    assert less(y, x) && less(x, z) ==> less(y, z);
  }

  // ----- Sorting repeats nothing

  lemma {:induction false} OnceEach<T>(s: seq<T>, x: T)
    requires AllDifferent(s)
    ensures multiset(s)[x] <= 1
  {
    if s != [] {
      var front := s[..|s| - 1];
      OnceEach(front, x);
      assert s == front + [s[|s| - 1]];
      if x == s[|s| - 1] {
        assert x !in front;
      }
    }
  }

  lemma TwiceThere<T>(s: seq<T>, i: nat, j: nat)
    requires i < j < |s| && s[i] == s[j]
    ensures multiset(s)[s[i]] >= 2
  {
    assert s == s[..j] + [s[j]] + s[j + 1..];
    assert s[..j][i] == s[i];
  }

  lemma SortedAllDifferent<T>(items: seq<T>, sorted: seq<T>)
    requires multiset(sorted) == multiset(items) && AllDifferent(items)
    ensures AllDifferent(sorted)
    ensures forall x :: x in sorted <==> x in items
  {
    forall i, j | 0 <= i < j < |sorted|
      ensures sorted[i] != sorted[j]
    {
      if sorted[i] == sorted[j] {
        TwiceThere(sorted, i, j);
        OnceEach(items, sorted[i]);
      }
    }
    forall x: T
      ensures x in sorted <==> x in items
    {
      assert x in multiset(sorted) <==> x in multiset(items);
    }
  }
}
