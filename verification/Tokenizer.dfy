/** Model of tokenize and scoreChunk (internal/knowledge/knowledge.go). */
module Tokenizer {

  /** The Unicode tables the tokenizer consults: the Han script, letters and digits, lower case. */
  datatype Unicode = Unicode(han: char -> bool, alnum: char -> bool, lower: char -> char)

  datatype Kind = Han | Word | Other

  function KindOf(u: Unicode, c: char): Kind {
    if u.han(c) then Han else if u.alnum(c) then Word else Other
  }

  function Lower(u: Unicode, s: string): (t: string)
    ensures |t| == |s| && forall i | 0 <= i < |s| :: t[i] == u.lower(s[i])
  {
    seq(|s|, i requires 0 <= i < |s| => u.lower(s[i]))
  }

  // ----- What the tokens of a text are

  /** s[a..b] is a maximal stretch of runes of kind k. */
  ghost predicate IsRun(u: Unicode, s: string, a: nat, b: nat, k: Kind) {
    && a < b <= |s|
    && (forall i | a <= i < b :: KindOf(u, s[i]) == k)
    && (a == 0 || KindOf(u, s[a - 1]) != k)
    && (b == |s| || KindOf(u, s[b]) != k)
  }

  function Singles(run: string): (r: seq<string>)
    ensures |r| == |run|
  {
    seq(|run|, i requires 0 <= i < |run| => [run[i]])
  }

  function Bigrams(run: string): (r: seq<string>)
    requires run != ""
    ensures |r| == |run| - 1
  {
    seq(|run| - 1, i requires 0 <= i < |run| - 1 => run[i..i + 2])
  }

  /** A word is one token. A Han run is a token, and so is each of its runes and each adjacent pair. */
  function RunTokens(run: string, k: Kind): (r: seq<string>)
    requires run != ""
    ensures k == Han ==> |r| == 2 * |run|
  {
    match k
    case Word => [run]
    case Han => [run] + Singles(run) + Bigrams(run)
    case Other => []
  }

  function RunEnd(u: Unicode, s: string, i: nat, k: Kind): (b: nat)
    requires i <= |s|
    ensures i <= b <= |s| && (forall j | i <= j < b :: KindOf(u, s[j]) == k)
    ensures b == |s| || KindOf(u, s[b]) != k
    decreases |s| - i
  {
    if i < |s| && KindOf(u, s[i]) == k then RunEnd(u, s, i + 1, k) else i
  }

  /** The tokens of the runs from i on, in order. */
  function TokensFrom(u: Unicode, s: string, i: nat): seq<string>
    requires i <= |s|
    decreases |s| - i
  {
    if i == |s| then []
    else
      var k := KindOf(u, s[i]);
      if k == Other then TokensFrom(u, s, i + 1)
      else
        var b := RunEnd(u, s, i + 1, k);
        RunTokens(s[i..b], k) + TokensFrom(u, s, b)
  }

  function Tokens(u: Unicode, text: string): seq<string> {
    TokensFrom(u, Lower(u, text), 0)
  }

  // ----- The two-buffer machine

  method Tokenize(u: Unicode, text: string) returns (tokens: seq<string>)
    ensures tokens == Tokens(u, text)
  {
    hide RunEnd, KindOf, RunTokens, TokensFrom;
    tokens := [];
    var word, han := "", "";
    var lowered := Lower(u, text);
    ghost var start := 0;
    for i := 0 to |lowered|
      invariant 0 <= start <= i
      invariant word == "" || han == ""
      invariant lowered[start..i] == if han != "" then han else word
      invariant forall j | start <= j < i :: KindOf(u, lowered[j]) == if han != "" then Han else Word
      invariant TokensFrom(u, lowered, 0) == tokens + TokensFrom(u, lowered, start)
    {
      var r := lowered[i];
      if u.han(r) {
        KindCases(u, r);
        if word != "" {
          TokensAtRun(u, lowered, tokens, start, i, Word);
          tokens, word := Flush(tokens, word);
          start := i;
        }
        han := han + [r];
        SliceSnoc(lowered, start, i);
      } else if u.alnum(r) {
        KindCases(u, r);
        if han != "" {
          TokensAtRun(u, lowered, tokens, start, i, Han);
          tokens, han := FlushHan(tokens, han);
          start := i;
        }
        word := word + [r];
        SliceSnoc(lowered, start, i);
      } else {
        KindCases(u, r);
        if start < i {
          TokensAtRun(u, lowered, tokens, start, i, if han != "" then Han else Word);
        }
        TokensSkip(u, lowered, i);
        tokens, han := FlushHan(tokens, han);
        tokens, word := Flush(tokens, word);
        start := i + 1;
      }
    }
    if start < |lowered| {
      TokensAtRun(u, lowered, tokens, start, |lowered|, if han != "" then Han else Word);
    }
    TokensSkip(u, lowered, |lowered|);
    tokens, han := FlushHan(tokens, han);
    tokens, word := Flush(tokens, word);
    assert tokens + [] == tokens;
  }

  lemma SliceSnoc(s: string, a: nat, i: nat)
    requires a <= i < |s|
    ensures s[a..i + 1] == s[a..i] + [s[i]]
  {
  }

  lemma KindCases(u: Unicode, r: char)
    ensures u.han(r) <==> KindOf(u, r) == Han
    ensures !u.han(r) && u.alnum(r) <==> KindOf(u, r) == Word
  {
  }

  /** A buffer that fills s[a..b] is a whole run once the next rune is of another kind. */
  lemma TokensAtRun(u: Unicode, s: string, tokens: seq<string>, a: nat, b: nat, k: Kind)
    requires a < b <= |s| && k != Other
    requires forall j | a <= j < b :: KindOf(u, s[j]) == k
    requires b == |s| || KindOf(u, s[b]) != k
    ensures tokens + TokensFrom(u, s, a) == tokens + RunTokens(s[a..b], k) + TokensFrom(u, s, b)
  {
    hide KindOf, RunTokens;
    assert RunEnd(u, s, a + 1, k) == b;
  }

  lemma TokensSkip(u: Unicode, s: string, i: nat)
    requires i <= |s|
    ensures i == |s| ==> TokensFrom(u, s, i) == []
    ensures i < |s| && KindOf(u, s[i]) == Other ==> TokensFrom(u, s, i) == TokensFrom(u, s, i + 1)
  {
  }

  method Flush(tokens: seq<string>, word: string) returns (tokens': seq<string>, word': string)
    ensures word' == ""
    ensures tokens' == if word == "" then tokens else tokens + RunTokens(word, Word)
  {
    tokens', word' := tokens, word;
    if |word| > 0 {
      tokens' := tokens + [word];
      word' := "";
    }
  }

  method FlushHan(tokens: seq<string>, han: string) returns (tokens': seq<string>, han': string)
    ensures han' == ""
    ensures tokens' == if han == "" then tokens else tokens + RunTokens(han, Han)
  {
    tokens', han' := tokens, "";
    if |han| == 0 {
      return;
    }
    tokens' := tokens' + [han];
    for i := 0 to |han|
      invariant tokens' == tokens + [han] + Singles(han)[..i]
    {
      tokens' := tokens' + [[han[i]]];
      assert Singles(han)[..i + 1] == Singles(han)[..i] + [Singles(han)[i]];
    }
    for i := 0 to |han| - 1
      invariant tokens' == tokens + [han] + Singles(han) + Bigrams(han)[..i]
    {
      tokens' := tokens' + [han[i..i + 2]];
      assert Bigrams(han)[..i + 1] == Bigrams(han)[..i] + [Bigrams(han)[i]];
    }
    assert Bigrams(han)[..|han| - 1] == Bigrams(han);
  }

  // ----- The tokens, declaratively

  /** t comes from a maximal run of s that starts at i or later. */
  ghost predicate FromRun(u: Unicode, s: string, i: nat, t: string) {
    exists a: nat, b: nat, k | i <= a < b <= |s| && k != Other :: IsRun(u, s, a, b, k) && t in RunTokens(s[a..b], k)
  }

  /** i is not inside a run. */
  ghost predicate AtRunStart(u: Unicode, s: string, i: nat) {
    i <= |s| && (0 < i < |s| && KindOf(u, s[i]) != Other ==> KindOf(u, s[i - 1]) != KindOf(u, s[i]))
  }

  lemma {:induction false} TokensFromAreRuns(u: Unicode, s: string, i: nat, t: string)
    requires AtRunStart(u, s, i)
    ensures t in TokensFrom(u, s, i) <==> FromRun(u, s, i, t)
    decreases |s| - i
  {
    hide KindOf, RunTokens;
    if i < |s| {
      var k := KindOf(u, s[i]);
      if k == Other {
        TokensFromAreRuns(u, s, i + 1, t);
        assert forall a: nat, b: nat, k' | a == i && k' != Other :: !IsRun(u, s, a, b, k');
      } else {
        var b := RunEnd(u, s, i + 1, k);
        TokensFromAreRuns(u, s, b, t);
        assert IsRun(u, s, i, b, k);
        if FromRun(u, s, i, t) {
          var a': nat, b': nat, k' :| i <= a' < b' <= |s| && k' != Other && IsRun(u, s, a', b', k')
              && t in RunTokens(s[a'..b'], k');
          if a' < b {
            RunsDisjoint(u, s, i, b, k, a', b', k');
          }
        }
      }
    }
  }

  /** Two runs that meet are the same run. */
  lemma RunsDisjoint(u: Unicode, s: string, a: nat, b: nat, k: Kind, a': nat, b': nat, k': Kind)
    requires IsRun(u, s, a, b, k) && IsRun(u, s, a', b', k') && a <= a' < b
    ensures a == a' && b == b' && k == k'
  {
    hide KindOf;
    InsideRun(u, s, a, b, k, a');
    InsideRun(u, s, a', b', k', a');
    if a < a' {
      InsideRun(u, s, a, b, k, a' - 1);
    } else if b < b' {
      InsideRun(u, s, a', b', k', b);
    } else if b' < b {
      InsideRun(u, s, a, b, k, b');
    }
  }

  lemma InsideRun(u: Unicode, s: string, a: nat, b: nat, k: Kind, i: int)
    requires IsRun(u, s, a, b, k) && a <= i < b
    ensures KindOf(u, s[i]) == k
  {
  }

  /** The tokens of a text are exactly those of the maximal runs of its lower-cased form. */
  lemma TokensAreRuns(u: Unicode, text: string, t: string)
    ensures t in Tokens(u, text) <==> FromRun(u, Lower(u, text), 0, t)
  {
    TokensFromAreRuns(u, Lower(u, text), 0, t);
  }

  // ----- Scores

  function Count(tokens: seq<string>, t: string): nat {
    multiset(tokens)[t]
  }

  /** The saturated frequency of one term. */
  function TermScore(n: nat): real {
    if n > 0 then (n as real * 2.2) / (n as real + 1.2) else 0.0
  }

  ghost function Score(terms: seq<string>, tokens: seq<string>): real {
    if terms == [] then 0.0
    else Score(terms[..|terms| - 1], tokens) + TermScore(Count(tokens, terms[|terms| - 1]))
  }

  method ScoreChunk(u: Unicode, terms: seq<string>, text: string) returns (score: real)
    ensures score == Score(terms, Tokens(u, text))
  {
    hide Tokens, TermScore;
    var tokens := Tokenize(u, text);
    var counts: map<string, nat> := map[];
    for i := 0 to |tokens|
      invariant forall t :: (if t in counts then counts[t] else 0) == Count(tokens[..i], t)
    {
      assert tokens[..i + 1] == tokens[..i] + [tokens[i]];
      counts := counts[tokens[i] := (if tokens[i] in counts then counts[tokens[i]] else 0) + 1];
    }
    assert tokens[..|tokens|] == tokens;
    score := 0.0;
    for i := 0 to |terms|
      invariant score == Score(terms[..i], tokens)
    {
      var n := if terms[i] in counts then counts[terms[i]] else 0;
      if n > 0 {
        var tf := n as real;
        score := score + (tf * 2.2) / (tf + 1.2);
      }
      TermScoreCases(n);
      assert terms[..i + 1][..i] == terms[..i];
    }
    assert terms[..|terms|] == terms;
  }

  lemma TermScoreCases(n: nat)
    ensures n > 0 ==> TermScore(n) == (n as real * 2.2) / (n as real + 1.2)
    ensures n == 0 ==> TermScore(n) == 0.0
    ensures TermScore(n) >= 0.0 && (TermScore(n) > 0.0 <==> n > 0)
  {
  }

  lemma {:induction false} ScorePositive(terms: seq<string>, tokens: seq<string>)
    ensures Score(terms, tokens) >= 0.0
    ensures Score(terms, tokens) > 0.0 <==> exists t :: t in terms && t in tokens
  {
    hide TermScore;
    if terms != [] {
      var front, last := terms[..|terms| - 1], terms[|terms| - 1];
      ScorePositive(front, tokens);
      TermScoreCases(Count(tokens, last));
      assert last in multiset(tokens) <==> last in tokens;
      assert terms == front + [last];
      assert forall t :: t in terms <==> t in front || t == last;
      assert last in terms;
    }
  }

  // ----- When a chunk matches at all

  ghost predicate ShareHan(u: Unicode, q: string, s: string) {
    exists i, j | 0 <= i < |q| && 0 <= j < |s| :: q[i] == s[j] && KindOf(u, q[i]) == Han
  }

  ghost predicate IsWord(u: Unicode, s: string, w: string) {
    exists a: nat, b: nat :: IsRun(u, s, a, b, Word) && w == s[a..b]
  }

  ghost predicate ShareWord(u: Unicode, q: string, s: string) {
    exists w :: IsWord(u, q, w) && IsWord(u, s, w)
  }

  /** A token of a Han run is a non-empty part of it. */
  lemma HanTokenStartsWithHan(u: Unicode, s: string, a: nat, b: nat, t: string) returns (i: nat)
    requires IsRun(u, s, a, b, Han) && t in RunTokens(s[a..b], Han)
    ensures t != "" && a <= i < b && t[0] == s[i] && KindOf(u, t[0]) == Han
  {
    hide KindOf;
    var run := s[a..b];
    if t == run {
      i := a;
    } else if t in Singles(run) {
      var j :| 0 <= j < |run| && t == Singles(run)[j];
      i := a + j;
    } else {
      var j :| 0 <= j < |run| - 1 && t == Bigrams(run)[j];
      i := a + j;
    }
  }

  /** Every Han rune lies in a Han run, and is a token by itself. */
  lemma HanRuneIsToken(u: Unicode, s: string, i: nat)
    requires i < |s| && KindOf(u, s[i]) == Han
    ensures FromRun(u, s, 0, [s[i]])
  {
    hide KindOf;
    var a := RunStart(u, s, i);
    var b := RunEnd(u, s, i, Han);
    assert IsRun(u, s, a, b, Han);
    assert Singles(s[a..b])[i - a] == [s[i]];
    assert [s[i]] in RunTokens(s[a..b], Han);
  }

  lemma {:induction false} RunStart(u: Unicode, s: string, i: nat) returns (a: nat)
    requires i < |s| && KindOf(u, s[i]) == Han
    ensures a <= i && (forall j | a <= j <= i :: KindOf(u, s[j]) == Han)
    ensures a == 0 || KindOf(u, s[a - 1]) != Han
  {
    hide KindOf;
    a := i;
    if i > 0 && KindOf(u, s[i - 1]) == Han {
      a := RunStart(u, s, i - 1);
    }
  }

  lemma WordRuneKind(u: Unicode, s: string, w: string)
    requires IsWord(u, s, w)
    ensures w != "" && KindOf(u, w[0]) == Word
    ensures FromRun(u, s, 0, w)
  {
    hide KindOf;
    var a: nat, b: nat :| IsRun(u, s, a, b, Word) && w == s[a..b];
    assert w in RunTokens(s[a..b], Word);
  }

  /** A common token of two texts is a word of both, or starts with a Han rune of both. */
  lemma CommonTokenShares(u: Unicode, q: string, s: string, t: string)
    requires FromRun(u, q, 0, t) && FromRun(u, s, 0, t)
    ensures ShareHan(u, q, s) || ShareWord(u, q, s)
  {
    hide KindOf, RunTokens;
    var a: nat, b: nat, k :| 0 <= a < b <= |q| && k != Other && IsRun(u, q, a, b, k) && t in RunTokens(q[a..b], k);
    var c: nat, d: nat, l :| 0 <= c < d <= |s| && l != Other && IsRun(u, s, c, d, l) && t in RunTokens(s[c..d], l);
    var x := TokenKind(u, q, a, b, k, t);
    var y := TokenKind(u, s, c, d, l, t);
  }

  lemma TokenKind(u: Unicode, s: string, a: nat, b: nat, k: Kind, t: string) returns (i: nat)
    requires IsRun(u, s, a, b, k) && k != Other && t in RunTokens(s[a..b], k)
    ensures t != "" && KindOf(u, t[0]) == k && a <= i < b && t[0] == s[i]
    ensures k == Word ==> IsWord(u, s, t)
  {
    hide KindOf;
    if k == Han {
      i := HanTokenStartsWithHan(u, s, a, b, t);
    } else {
      i := a;
    }
  }

  /** A chunk scores above zero for a query exactly when the two share a Han rune or a whole
      alphanumeric run, after lower-casing. */
  lemma PositiveScoreIffShared(u: Unicode, query: string, text: string)
    ensures Score(Tokens(u, query), Tokens(u, text)) > 0.0 <==>
              ShareHan(u, Lower(u, query), Lower(u, text)) || ShareWord(u, Lower(u, query), Lower(u, text))
  {
    hide Tokens, Score, FromRun, IsWord, KindOf, IsRun;
    var q, s := Lower(u, query), Lower(u, text);
    ScorePositive(Tokens(u, query), Tokens(u, text));
    if t :| t in Tokens(u, query) && t in Tokens(u, text) {
      TokensAreRuns(u, query, t);
      TokensAreRuns(u, text, t);
      CommonTokenShares(u, q, s, t);
    }
    if ShareHan(u, q, s) {
      var i, j :| 0 <= i < |q| && 0 <= j < |s| && q[i] == s[j] && KindOf(u, q[i]) == Han;
      HanRuneIsToken(u, q, i);
      HanRuneIsToken(u, s, j);
      TokensAreRuns(u, query, [q[i]]);
      TokensAreRuns(u, text, [q[i]]);
    }
    if ShareWord(u, q, s) {
      var w :| IsWord(u, q, w) && IsWord(u, s, w);
      WordRuneKind(u, q, w);
      WordRuneKind(u, s, w);
      TokensAreRuns(u, query, w);
      TokensAreRuns(u, text, w);
    }
  }
}
