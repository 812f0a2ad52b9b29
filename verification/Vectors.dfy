/** Real three-vectors and the norm inequalities the bias bound rests on. */
module Vectors {
  import opened Floats

  datatype RVec = RVec(x: real, y: real, z: real)

  const ORIGIN := RVec(0.0, 0.0, 0.0)

  function Plus(a: RVec, b: RVec): RVec { RVec(a.x + b.x, a.y + b.y, a.z + b.z) }

  function Times(a: RVec, k: real): RVec { RVec(a.x * k, a.y * k, a.z * k) }

  function Dot(a: RVec, b: RVec): real { a.x * b.x + a.y * b.y + a.z * b.z }

  function NormSq(a: RVec): real { Dot(a, a) }

  function Sum(ws: seq<RVec>): RVec {
    if ws == [] then ORIGIN else Plus(Sum(ws[..|ws| - 1]), ws[|ws| - 1])
  }

  lemma SquareNonneg(x: real)
    ensures x * x >= 0.0
  {
  }

  lemma NormNonneg(a: RVec)
    ensures NormSq(a) >= 0.0
  {
    SquareNonneg(a.x);
    SquareNonneg(a.y);
    SquareNonneg(a.z);
  }

  /** The inequality of Cauchy and Schwarz, from Lagrange's identity. */
  lemma CauchySchwarz(a: RVec, b: RVec)
    ensures Dot(a, b) * Dot(a, b) <= NormSq(a) * NormSq(b)
  {
    var (u, v, w) := (a.x * b.y - a.y * b.x, a.y * b.z - a.z * b.y, a.z * b.x - a.x * b.z);
    assert NormSq(a) * NormSq(b) - Dot(a, b) * Dot(a, b) == u * u + v * v + w * w;
    SquareNonneg(u);
    SquareNonneg(v);
    SquareNonneg(w);
  }

  lemma DifferenceOfSquares(x: real, y: real)
    ensures (x - y) * (x + y) == x * x - y * y
  {
  }

  lemma SquareOrder(x: real, y: real)
    requires 0.0 <= y && x * x <= y * y
    ensures x <= y
  {
    DifferenceOfSquares(x, y);
    if x > y {
      MulPos(x - y, x + y);
    }
  }

  /** |d| <= sqrt(a*b), a <= q^2 and b <= r^2 bound a + 2d + b by (q + r)^2. */
  lemma ScalarTriangle(a: real, b: real, d: real, q: real, r: real)
    requires 0.0 <= q && 0.0 <= r && 0.0 <= a <= q * q && 0.0 <= b <= r * r && d * d <= a * b
    ensures a + 2.0 * d + b <= (q + r) * (q + r)
  {
    MulMonotone(a, b, r * r);
    MulMonotone(r * r, a, q * q);
    SquareOfProduct(q, r);
    MulNonneg(q, r);
    SquareOrder(d, q * r);
    BinomialSquare(q, r);
  }

  lemma SquareOfProduct(q: real, r: real)
    ensures (r * r) * (q * q) == (q * r) * (q * r)
  {
    assert (q * r) * (q * r) == q * (r * (q * r));
  }

  lemma BinomialSquare(q: real, r: real)
    ensures (q + r) * (q + r) == q * q + 2.0 * (q * r) + r * r
  {
  }

  lemma PlusExpands(a: RVec, b: RVec)
    ensures NormSq(Plus(a, b)) == NormSq(a) + 2.0 * Dot(a, b) + NormSq(b)
  {
  }

  lemma Triangle(a: RVec, b: RVec, q: real, r: real)
    requires 0.0 <= q && 0.0 <= r && NormSq(a) <= q * q && NormSq(b) <= r * r
    ensures NormSq(Plus(a, b)) <= (q + r) * (q + r)
  {
    hide Dot, NormSq, Plus;
    NormNonneg(a);
    NormNonneg(b);
    CauchySchwarz(a, b);
    PlusExpands(a, b);
    ScalarTriangle(NormSq(a), NormSq(b), Dot(a, b), q, r);
  }

  /** A sum of n vectors of norm at most r has norm at most n * r. */
  lemma {:induction false} SumNorm(ws: seq<RVec>, r: real)
    requires 0.0 <= r && forall k | 0 <= k < |ws| :: NormSq(ws[k]) <= r * r
    ensures NormSq(Sum(ws)) <= (|ws| as real * r) * (|ws| as real * r)
  {
    hide NormSq, Plus;
    if ws == [] {
      OriginNorm();
    } else {
      var q := (|ws| - 1) as real * r;
      SumNorm(ws[..|ws| - 1], r);
      MulNonneg((|ws| - 1) as real, r);
      Triangle(Sum(ws[..|ws| - 1]), ws[|ws| - 1], q, r);
      OneMore((|ws| - 1) as real, r);
    }
  }

  lemma OneMore(n: real, r: real)
    ensures n * r + r == (n + 1.0) * r
  {
  }

  lemma OriginNorm()
    ensures NormSq(ORIGIN) == 0.0
  {
  }

  lemma ScaledNorm(a: RVec, k: real)
    ensures NormSq(Times(a, k)) == NormSq(a) * (k * k)
  {
    SquareOfProduct(a.x, k);
    SquareOfProduct(a.y, k);
    SquareOfProduct(a.z, k);
  }
}
