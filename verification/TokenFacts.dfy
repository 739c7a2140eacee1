/** What the tokens of a Han run are, counted, and what a term adds to the score of a text. */
module TokenFacts {
  import opened Collections
  import opened Tokenizer

  ghost predicate FoundAt(run: string, t: string, i: int) {
    0 <= i && i + |t| <= |run| && run[i..i + |t|] == t
  }

  /** The places of a run at which t is found. */
  ghost function Places(run: string, t: string): set<int> {
    set i | 0 <= i < |run| && FoundAt(run, t, i)
  }

  lemma SinglesCounted(run: string, t: string)
    ensures Count(Singles(run), t) == if |t| == 1 then |Places(run, t)| else 0
  {
    Occurrences(Singles(run), t);
    forall i | 0 <= i < |run|
      ensures Singles(run)[i] == t <==> |t| == 1 && FoundAt(run, t, i)
    {
      assert Singles(run)[i] == run[i..i + 1];
    }
    assert PlacesOf(Singles(run), t) == if |t| == 1 then Places(run, t) else {};
  }

  lemma BigramsCounted(run: string, t: string)
    requires run != ""
    ensures Count(Bigrams(run), t) == if |t| == 2 then |Places(run, t)| else 0
  {
    Occurrences(Bigrams(run), t);
    forall i | 0 <= i < |run|
      ensures i < |run| - 1 && Bigrams(run)[i] == t <==> |t| == 2 && FoundAt(run, t, i)
    {
      assert i < |run| - 1 ==> Bigrams(run)[i] == run[i..i + 2];
    }
    assert PlacesOf(Bigrams(run), t) == if |t| == 2 then Places(run, t) else {};
  }

  /** The tokens of a Han run are the run, each of its runes and each adjacent pair, as often as they are there. */
  lemma HanTokensCounted(run: string, t: string)
    requires run != ""
    ensures Count(RunTokens(run, Han), t) ==
              (if t == run then 1 else 0) + if |t| == 1 || |t| == 2 then |Places(run, t)| else 0
  {
    hide Singles, Bigrams, Places;
    SinglesCounted(run, t);
    BigramsCounted(run, t);
    assert multiset([run] + Singles(run) + Bigrams(run)) == multiset([run]) + multiset(Singles(run))
                                                              + multiset(Bigrams(run));
  }

  /** A word is one token, and nothing else makes any. */
  lemma OtherTokensCounted(run: string, t: string)
    requires run != ""
    ensures Count(RunTokens(run, Word), t) == if t == run then 1 else 0
    ensures Count(RunTokens(run, Other), t) == 0
  {
  }

  /** A term found n times among the tokens adds x = 2.2 n / (n + 1.2). */
  lemma TermAdds(term: string, tokens: seq<string>)
    ensures var n, x := |PlacesOf(tokens, term)|, Score([term], tokens);
            x * (n as real + 1.2) == 2.2 * n as real
  {
    Occurrences(tokens, term);
    var n := Count(tokens, term);
    assert [term][..0] == [];
    assert Score([term], tokens) == 0.0 + TermScore(n);
    Saturated(n as real);
  }

  lemma Saturated(x: real)
    requires x >= 0.0
    ensures x * 2.2 / (x + 1.2) * (x + 1.2) == 2.2 * x
  {
  }

  /** Scores add up over the terms of a query, repeated ones included. */
  lemma {:induction false} ScoresAdd(a: seq<string>, b: seq<string>, tokens: seq<string>)
    ensures Score(a + b, tokens) == Score(a, tokens) + Score(b, tokens)
    decreases |b|
  {
    hide TermScore;
    if b == [] {
      assert a + b == a;
    } else {
      ScoresAdd(a, b[..|b| - 1], tokens);
      assert (a + b)[..|a + b| - 1] == a + b[..|b| - 1];
    }
  }

  /** More occurrences score higher, but never 2.2. */
  lemma MoreScoresHigher(term: string, few: seq<string>, many: seq<string>)
    requires Count(few, term) < Count(many, term)
    ensures Score([term], few) < Score([term], many) < 2.2
  {
    hide Count;
    assert [term][..0] == [];
    var m, n := Count(few, term), Count(many, term);
    assert Score([term], few) == 0.0 + TermScore(m) && Score([term], many) == 0.0 + TermScore(n);
    SaturationGrows(m, n);
  }

  lemma SaturationGrows(m: nat, n: nat)
    requires m < n
    ensures TermScore(m) < TermScore(n) < 2.2
  {
    var x, y := m as real, n as real;
    assert TermScore(m) == (x * 2.2) / (x + 1.2) == 2.2 - 2.64 / (x + 1.2);
    assert TermScore(n) == (y * 2.2) / (y + 1.2) == 2.2 - 2.64 / (y + 1.2);
  }
}
