/** Chunk IDs, "<document ID>:<ordinal>", and why two different chunks never share one. */
module ChunkKeys {

  function Digit(d: nat): char
    requires d < 10
  {
    "0123456789"[d]
  }

  /** The decimal rendering of an ordinal. */
  function Decimal(n: nat): string {
    if n < 10 then [Digit(n)] else Decimal(n / 10) + [Digit(n % 10)]
  }

  function Key(documentId: string, ordinal: nat): string {
    documentId + ":" + Decimal(ordinal)
  }

  lemma DigitInjective(a: nat, b: nat)
    requires a < 10 && b < 10 && Digit(a) == Digit(b)
    ensures a == b
  {
  }

  lemma {:induction false} DecimalHasNoColon(n: nat)
    ensures Decimal(n) != [] && ':' !in Decimal(n)
  {
    if n >= 10 {
      DecimalHasNoColon(n / 10);
    }
  }

  lemma {:induction false} DecimalInjective(a: nat, b: nat)
    requires Decimal(a) == Decimal(b)
    ensures a == b
  {
    hide Digit;
    var s, t := Decimal(a), Decimal(b);
    DecimalHasNoColon(a / 10);
    DecimalHasNoColon(b / 10);
    assert s[|s| - 1] == Digit(a % 10) && t[|t| - 1] == Digit(b % 10);
    DigitInjective(a % 10, b % 10);
    if a >= 10 && b >= 10 {
      assert s[..|s| - 1] == Decimal(a / 10) && t[..|t| - 1] == Decimal(b / 10);
      DecimalInjective(a / 10, b / 10);
    }
  }

  lemma NoColonAfter(id: string, digits: string, i: int)
    requires ':' !in digits && |id| < i < |id + ":" + digits|
    ensures (id + ":" + digits)[i] != ':'
  {
    assert (id + ":" + digits)[i] == digits[i - |id| - 1];
  }

  /** Document IDs may contain colons: the last one of the key is still the separator. */
  lemma KeyInjective(a: string, m: nat, b: string, n: nat)
    requires Key(a, m) == Key(b, n)
    ensures a == b && m == n
  {
    hide Decimal;
    var s := Key(a, m);
    DecimalHasNoColon(m);
    DecimalHasNoColon(n);
    assert s[|a|] == ':' && s[|b|] == ':';
    if |a| < |b| {
      NoColonAfter(a, Decimal(m), |b|);
    } else if |b| < |a| {
      NoColonAfter(b, Decimal(n), |a|);
    }
    assert a == s[..|a|] && b == s[..|b|];
    assert Decimal(m) == s[|a| + 1..] && Decimal(n) == s[|b| + 1..];
    DecimalInjective(m, n);
  }
}
