/** Model of norm, cosine and normalizeScore (internal/knowledge/vector.go), over the reals. */
module Scoring {

  type Vector = seq<real>

  function Times(x: real, y: real): real {
    x * y
  }

  /** The square root is a parameter: any function that is one on the non-negative reals. */
  ghost predicate IsRoot(root: real -> real) {
    forall x | x >= 0.0 :: root(x) >= 0.0 && Times(root(x), root(x)) == x
  }

  ghost function Dot(a: Vector, b: Vector): real
    requires |a| == |b|
  {
    if a == [] then 0.0
    else Dot(a[..|a| - 1], b[..|b| - 1]) + Times(a[|a| - 1], b[|b| - 1])
  }

  ghost function Norm(root: real -> real, v: Vector): real {
    root(Dot(v, v))
  }

  ghost function Cos(root: real -> real, a: Vector, b: Vector): real
    requires |a| == |b|
  {
    var m, n := Norm(root, a), Norm(root, b);
    if m == 0.0 || n == 0.0 || m * n == 0.0 then 0.0 else Dot(a, b) / (m * n)
  }

  method ComputeNorm(root: real -> real, v: Vector) returns (n: real)
    ensures n == Norm(root, v)
  {
    var sum := 0.0;
    for i := 0 to |v|
      invariant sum == Dot(v[..i], v[..i])
    {
      sum := sum + v[i] * v[i];
      assert v[..i + 1][..i] == v[..i];
    }
    assert v[..|v|] == v;
    n := root(sum);
  }

  method ComputeCosine(root: real -> real, left: Vector, right: Vector) returns (c: real)
    requires |left| == |right|
    ensures c == Cos(root, left, right)
  {
    var leftNorm := ComputeNorm(root, left);
    var rightNorm := ComputeNorm(root, right);
    if leftNorm == 0.0 || rightNorm == 0.0 {
      return 0.0;
    }
    var dot := 0.0;
    for i := 0 to |left|
      invariant dot == Dot(left[..i], right[..i])
    {
      dot := dot + left[i] * right[i];
      assert left[..i + 1][..i] == left[..i] && right[..i + 1][..i] == right[..i];
    }
    assert left[..|left|] == left && right[..|right|] == right;
    c := dot / (leftNorm * rightNorm);
  }

  function Normalize(score: real): real {
    if score <= 0.0 then 0.0 else score / (score + 1.0)
  }

  // ----- Cauchy-Schwarz

  lemma SquareNonNegative(x: real)
    ensures x * x >= 0.0
  {
  }

  lemma {:induction false} DotSelfNonNegative(v: Vector)
    ensures Dot(v, v) >= 0.0
  {
    if v != [] {
      DotSelfNonNegative(v[..|v| - 1]);
      SquareNonNegative(v[|v| - 1]);
    }
  }

  lemma SquareMonotone(x: real, y: real)
    requires y >= 0.0 && x * x <= y * y
    ensures x <= y
  {
    assert x * x - y * y == (x - y) * (x + y);
    if x > y {
      ProductPositive(x - y, x + y);
    }
  }

  lemma ProductPositive(a: real, b: real)
    requires a > 0.0 && b > 0.0
    ensures a * b > 0.0
  {
  }

  /** One step of the induction: if d*d <= p*q then (d + x*y)^2 <= (p + x*x) * (q + y*y). */
  lemma CauchyStep(d: real, p: real, q: real, x: real, y: real)
    requires p >= 0.0 && q >= 0.0 && d * d <= p * q
    ensures (d + x * y) * (d + x * y) <= (p + x * x) * (q + y * y)
  {
    var s, t := p * (y * y) + q * (x * x), 2.0 * d * (x * y);
    SquareNonNegative(x);
    SquareNonNegative(y);
    assert s >= 0.0;
    assert t * t <= s * s by {
      CrossTerm(d, p, q, x * x, y * y, x * y);
    }
    SquareMonotone(t, s);
    assert (d + x * y) * (d + x * y) == d * d + t + (x * y) * (x * y);
    assert (x * y) * (x * y) == (x * x) * (y * y);
    assert (p + x * x) * (q + y * y) == p * q + s + (x * x) * (y * y);
  }

  /** (2 d m)^2 <= (p v + q u)^2 when m*m = u*v and d*d <= p*q. */
  lemma CrossTerm(d: real, p: real, q: real, u: real, v: real, m: real)
    requires p >= 0.0 && q >= 0.0 && u >= 0.0 && v >= 0.0 && d * d <= p * q
    ensures m * m == u * v ==> (2.0 * d * m) * (2.0 * d * m) <= (p * v + q * u) * (p * v + q * u)
  {
    if m * m == u * v {
      var e, f := p * v, q * u;
      assert (2.0 * d * m) * (2.0 * d * m) == 4.0 * (d * d) * (m * m);
      assert (d * d) * (u * v) <= (p * q) * (u * v);
      assert (p * q) * (u * v) == e * f;
      assert (e + f) * (e + f) - 4.0 * (e * f) == (e - f) * (e - f);
      SquareNonNegative(e - f);
    }
  }

  lemma {:induction false} CauchySchwarz(a: Vector, b: Vector)
    requires |a| == |b|
    ensures Dot(a, b) * Dot(a, b) <= Dot(a, a) * Dot(b, b)
  {
    if a != [] {
      var a', b' := a[..|a| - 1], b[..|b| - 1];
      CauchySchwarz(a', b');
      DotSelfNonNegative(a');
      DotSelfNonNegative(b');
      CauchyStep(Dot(a', b'), Dot(a', a'), Dot(b', b'), a[|a| - 1], b[|b| - 1]);
    }
  }

  /** A cosine lies between -1 and 1, for vectors of any length and content. */
  lemma CosineBounded(root: real -> real, a: Vector, b: Vector)
    requires IsRoot(root) && |a| == |b|
    ensures -1.0 <= Cos(root, a, b) <= 1.0
  {
    hide Dot;
    DotSelfNonNegative(a);
    DotSelfNonNegative(b);
    CauchySchwarz(a, b);
    var m, n, d := Norm(root, a), Norm(root, b), Dot(a, b);
    assert m >= 0.0 && m * m == Dot(a, a) && n >= 0.0 && n * n == Dot(b, b);
    QuotientBounded(d, m, n);
  }

  lemma QuotientBounded(d: real, m: real, n: real)
    requires m >= 0.0 && n >= 0.0 && d * d <= (m * m) * (n * n)
    ensures m * n != 0.0 ==> -1.0 <= d / (m * n) <= 1.0
  {
    var k := m * n;
    assert k >= 0.0 && k * k == (m * m) * (n * n);
    SquareMonotone(d, k);
    assert (-d) * (-d) == d * d;
    SquareMonotone(-d, k);
  }

  /** A vector of norm zero is a zero vector: the index refuses exactly those. */
  lemma {:induction false} NormZero(root: real -> real, v: Vector)
    requires IsRoot(root)
    ensures Norm(root, v) == 0.0 <==> forall i | 0 <= i < |v| :: v[i] == 0.0
  {
    hide Dot, Times;
    DotSelfNonNegative(v);
    DotSelfZero(v);
    var n := Norm(root, v);
    assert Times(n, n) == Dot(v, v);
    SquarePositive(n);
  }

  lemma {:induction false} DotSelfZero(v: Vector)
    ensures Dot(v, v) == 0.0 <==> forall i | 0 <= i < |v| :: v[i] == 0.0
  {
    hide Times;
    if v != [] {
      var front, x := v[..|v| - 1], v[|v| - 1];
      DotSelfZero(front);
      DotSelfNonNegative(front);
      SquarePositive(x);
      assert v == front + [x];
      assert (forall i | 0 <= i < |v| :: v[i] == 0.0) <==> (forall i | 0 <= i < |front| :: front[i] == 0.0) && x == 0.0;
    }
  }

  lemma SquarePositive(x: real)
    ensures x != 0.0 ==> Times(x, x) > 0.0
    ensures x == 0.0 ==> Times(x, x) == 0.0
  {
    hide Times;
    if x > 0.0 {
      PositiveTimes(x, x);
    } else if x < 0.0 {
      PositiveTimes(-x, -x);
      NegatedSquare(x);
    } else {
      ZeroSquared(x);
    }
  }

  lemma PositiveTimes(a: real, b: real)
    requires a > 0.0 && b > 0.0
    ensures Times(a, b) > 0.0
  {
  }

  lemma NegatedSquare(x: real)
    ensures Times(-x, -x) == Times(x, x)
  {
  }

  lemma ZeroSquared(x: real)
    requires x == 0.0
    ensures Times(x, x) == 0.0
  {
  }

  lemma NormalizeBounded(score: real)
    ensures 0.0 <= Normalize(score) < 1.0
    ensures score > 0.0 ==> Normalize(score) > 0.0
  {
  }

  // ----- What a cosine is

  lemma DotSnoc(a: Vector, b: Vector, x: real, y: real)
    requires |a| == |b|
    ensures Dot([], []) == 0.0 && Dot(a + [x], b + [y]) == Dot(a, b) + x * y
  {
    assert (a + [x])[..|a|] == a && (b + [y])[..|b|] == b;
  }

  /** The dot product over both norms, each the root of a vector's product with itself; 0 for a zero vector. */
  lemma CosineIs(root: real -> real, a: Vector, b: Vector)
    requires IsRoot(root) && |a| == |b|
    ensures var m, n := Norm(root, a), Norm(root, b);
            && m >= 0.0 && m * m == Dot(a, a)
            && (m > 0.0 && n > 0.0 ==> Times(Cos(root, a, b), m * n) == Dot(a, b))
            && (m == 0.0 || n == 0.0 ==> Cos(root, a, b) == 0.0)
  {
    hide Dot;
    DotSelfNonNegative(a);
    DotSelfNonNegative(b);
    var m, n := Norm(root, a), Norm(root, b);
    assert m >= 0.0 && Times(m, m) == Dot(a, a) && n >= 0.0;
    if m > 0.0 && n > 0.0 {
      ProductPositive(m, n);
      QuotientTimes(Dot(a, b), m * n);
    }
  }

  lemma QuotientTimes(d: real, k: real)
    requires k != 0.0
    ensures Times(d / k, k) == d
  {
  }

  /** A vector is as near to itself as can be. */
  lemma CosineSelf(root: real -> real, v: Vector)
    requires IsRoot(root) && exists i | 0 <= i < |v| :: v[i] != 0.0
    ensures Cos(root, v, v) == 1.0
  {
    hide Dot, Times;
    CosineIs(root, v, v);
    NormZero(root, v);
    DotSelfZero(v);
    DotSelfNonNegative(v);
    var c, k := Cos(root, v, v), Dot(v, v);
    assert Times(c, k) == k;
    TimesOne(k);
    TimesSwap(c, k);
    TimesGrows(k, c, 1.0);
  }

  lemma TimesOne(x: real)
    ensures Times(x, 1.0) == x
  {
  }

  lemma TimesSwap(x: real, y: real)
    ensures Times(x, y) == Times(y, x)
  {
  }

  // ----- The two parts of a fused score

  function LexicalPart(alpha: real, score: real): real {
    (1.0 - alpha) * Normalize(score)
  }

  function VectorPart(alpha: real, cosine: real): real {
    alpha * ((cosine + 1.0) / 2.0)
  }

  lemma LexicalPartBounded(alpha: real, score: real)
    requires 0.0 <= alpha <= 1.0
    ensures 0.0 <= LexicalPart(alpha, score) <= 1.0 - alpha
    ensures alpha < 1.0 ==> LexicalPart(alpha, score) < 1.0 - alpha
  {
    hide Normalize;
    NormalizeBounded(score);
    var n := Normalize(score);
    assert n < 1.0;
    if alpha < 1.0 {
      ComplementScaled(alpha, n);
    } else {
      assert LexicalPart(1.0, score) == 0.0;
    }
  }

  lemma ComplementScaled(alpha: real, n: real)
    requires alpha < 1.0 && 0.0 <= n < 1.0
    ensures 0.0 <= (1.0 - alpha) * n < 1.0 - alpha
  {
    var gap := (1.0 - alpha) * (1.0 - n);
    ProductPositive(1.0 - alpha, 1.0 - n);
    assert gap > 0.0;
    assert gap == (1.0 - alpha) - (1.0 - alpha) * n;
  }

  lemma VectorPartBounded(alpha: real, cosine: real)
    requires 0.0 <= alpha <= 1.0 && -1.0 <= cosine <= 1.0
    ensures 0.0 <= VectorPart(alpha, cosine) <= alpha
  {
    var c := (cosine + 1.0) / 2.0;
    Scaled(alpha, c);
    assert VectorPart(alpha, cosine) == alpha * c;
  }

  lemma Scaled(w: real, x: real)
    requires w >= 0.0 && 0.0 <= x <= 1.0
    ensures 0.0 <= w * x <= w
  {
    assert w - w * x == w * (1.0 - x);
  }

  // ----- What the parts are, and that they grow with the scores

  /** n = s / (s + 1) for a positive score, and 0 otherwise. */
  lemma NormalizeIs(score: real)
    ensures score > 0.0 ==> Times(Normalize(score), score + 1.0) == score
    ensures score <= 0.0 ==> Normalize(score) == 0.0
  {
  }

  lemma LexicalPartIs(alpha: real, score: real)
    ensures score > 0.0 ==> Times(LexicalPart(alpha, score), score + 1.0) == Times(1.0 - alpha, score)
    ensures score <= 0.0 ==> LexicalPart(alpha, score) == 0.0
  {
    hide Normalize;
    NormalizeIs(score);
    var n := Normalize(score);
    if score > 0.0 {
      assert Times(Times(1.0 - alpha, n), score + 1.0) == Times(1.0 - alpha, Times(n, score + 1.0));
    }
  }

  /** The part is affine in the cosine: nothing at -1, and alpha at 1. */
  lemma VectorPartIs(alpha: real, cosine: real)
    ensures VectorPart(alpha, cosine) + VectorPart(alpha, cosine) == Times(alpha, cosine + 1.0)
    ensures VectorPart(alpha, -1.0) == 0.0 && VectorPart(alpha, 1.0) == alpha
  {
  }

  lemma TimesGrows(w: real, x: real, y: real)
    requires w > 0.0
    ensures Times(w, x) < Times(w, y) <==> x < y
    ensures Times(w, x) == Times(w, y) <==> x == y
  {
    if x < y {
      ProductPositive(w, y - x);
    } else if y < x {
      ProductPositive(w, x - y);
    }
  }

  /** The lexical part grows with the score: from x (s + 1) == w s and y (t + 1) == w t follows x < y. */
  lemma SaturationGrows(w: real, s: real, t: real, x: real, y: real)
    requires w > 0.0 && 0.0 < s < t && Times(x, s + 1.0) == Times(w, s) && Times(y, t + 1.0) == Times(w, t)
    ensures x < y
  {
    var p, q := s + 1.0, t + 1.0;
    assert (y - x) * (p * q) == Times(w, t) * p - Times(w, s) * q == w * (t - s);
    ProductPositive(w, t - s);
    ProductPositive(p, q);
    if y <= x {
      NotPositive(x - y, p * q);
    }
  }

  lemma NotPositive(a: real, b: real)
    requires a >= 0.0 && b > 0.0
    ensures -a * b <= 0.0
  {
  }
}
