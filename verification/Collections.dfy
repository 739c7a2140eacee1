/** Small notions about finite collections that several models
    share: sequences without repetition, sums, and the places an
    element is at. */
module Collections {

  ghost predicate AllDifferent<T>(s: seq<T>) {
    forall i, j | 0 <= i < j < |s| :: s[i] != s[j]
  }

  ghost function Sum(s: seq<int>): int {
    if s == [] then 0 else Sum(s[..|s| - 1]) + s[|s| - 1]
  }

  lemma {:induction false} SumConcat(s: seq<int>, t: seq<int>)
    ensures Sum(s + t) == Sum(s) + Sum(t)
    decreases |t|
  {
    if t == [] {
      assert s + t == s;
    } else {
      SumConcat(s, t[..|t| - 1]);
      assert (s + t)[..|s + t| - 1] == s + t[..|t| - 1];
    }
  }

  lemma SumSmall(x: int)
    ensures Sum([]) == 0 && Sum([x]) == x
  {
    assert [x][..0] == [];
  }

  ghost function PlacesOf<T>(s: seq<T>, x: T): set<int> {
    set i | 0 <= i < |s| && s[i] == x
  }

  /** An element occurs as often as there are places it is at. */
  lemma {:induction false} Occurrences<T>(s: seq<T>, x: T)
    ensures multiset(s)[x] == |PlacesOf(s, x)|
  {
    if s == [] {
      assert PlacesOf(s, x) == {};
    } else {
      var n := |s| - 1;
      Occurrences(s[..n], x);
      assert s == s[..n] + [s[n]];
      assert PlacesOf(s, x) == if s[n] == x then PlacesOf(s[..n], x) + {n} else PlacesOf(s[..n], x);
    }
  }

  lemma SubsetIsAll<T>(a: set<T>, b: set<T>)
    requires a <= b && |a| == |b|
    ensures a == b
  {
    assert b == a + (b - a);
  }

  lemma SomeNumber(s: set<int>)
    requires s != {}
    ensures exists i :: i in s
  {
    var none := set i | i in s && false;
    assert none == {};
    assert (forall i :: i !in s) ==> s == none;
  }
}
