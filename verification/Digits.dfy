/** Little-endian digit strings: the arithmetic behind bit packing. A digit of width `w` holds `w`
    bits, so a string of bytes has width 8 and a string of channels width 11. */
module Digits {

  function Pow2(n: nat): (p: nat)
    ensures p >= 1
  {
    if n == 0 then 1 else 2 * Pow2(n - 1)
  }

  lemma {:induction false} Pow2Add(a: nat, b: nat)
    ensures Pow2(a + b) == Pow2(a) * Pow2(b)
  {
    if b > 0 {
      Pow2Add(a, b - 1);
      assert Pow2(a + b) == 2 * (Pow2(a) * Pow2(b - 1));
    }
  }

  lemma MulSign(d: int, e: int)
    requires d > 0
    ensures e >= 1 ==> d * e >= d
    ensures e <= -1 ==> d * e <= -d
  {
  }

  lemma DivUnique(x: int, d: int, q: int, r: int)
    requires x == d * q + r && 0 <= r < d
    ensures x / d == q && x % d == r
  {
    var e := x / d - q;
    assert x == d * (x / d) + x % d;
    assert d * e == r - x % d by {
      assert d * e == d * (x / d) - d * q;
    }
    MulSign(d, e);
  }

  lemma DivDiv(x: nat, a: nat, b: nat)
    requires a > 0 && b > 0
    ensures a * b > 0 && x / (a * b) == x / a / b
  {
    var (q, r) := (x / a, x % a);
    var (s, t) := (q / b, q % b);
    NestedQuotient(x, a, b, s, t, r);
  }

  lemma NestedQuotient(x: nat, a: nat, b: nat, s: nat, t: nat, r: nat)
    requires x == a * (b * s + t) + r && r < a && t < b
    ensures a * b > 0 && x / (a * b) == s
  {
    TwoRemainders(a, b, s, t, r);
    MulSign(a, b);
    DivUnique(x, a * b, s, a * t + r);
  }

  lemma TwoRemainders(a: nat, b: nat, s: nat, t: nat, r: nat)
    requires r < a && t < b
    ensures a * (b * s + t) + r == (a * b) * s + (a * t + r)
    ensures 0 <= a * t + r < a * b
  {
    assert a * (b * s) == (a * b) * s;
    BelowProduct(r, t, a, b);
  }

  /** The weight of digit k. */
  function Weight(w: nat, k: nat): (p: nat)
    ensures p >= 1
  {
    Pow2(w * k)
  }

  lemma WeightNext(w: nat, k: nat)
    ensures Weight(w, 0) == 1 && Weight(w, k + 1) == Pow2(w) * Weight(w, k)
  {
    assert w * (k + 1) == w + w * k && w * 0 == 0;
    Pow2Add(w, w * k);
  }

  predicate AreDigits(ds: seq<nat>, w: nat) {
    forall k | 0 <= k < |ds| :: ds[k] < Pow2(w)
  }

  function Value(ds: seq<nat>, w: nat): nat {
    if ds == [] then 0 else ds[0] + Pow2(w) * Value(ds[1..], w)
  }

  lemma BelowProduct(d: nat, v: nat, p: nat, q: nat)
    requires d < p && v < q
    ensures d + p * v < p * q
  {
    assert p * v <= p * (q - 1);
    assert p * (q - 1) == p * q - p;
  }

  lemma Regroup(p: nat, v: nat, q: nat, d: nat)
    ensures p * (v + q * d) == p * v + p * q * d
  {
    assert p * (q * d) == p * q * d;
  }

  lemma {:induction false} ValueBound(ds: seq<nat>, w: nat)
    requires AreDigits(ds, w)
    ensures Value(ds, w) < Weight(w, |ds|)
  {
    hide Pow2, Weight;
    if ds == [] {
      WeightNext(w, 0);
    } else {
      ValueBound(ds[1..], w);
      WeightNext(w, |ds[1..]|);
      BelowProduct(ds[0], Value(ds[1..], w), Pow2(w), Weight(w, |ds[1..]|));
    }
  }

  /** Dropping the k lowest digits is dividing by their weight. */
  lemma {:induction false} DropDigits(ds: seq<nat>, w: nat, k: nat)
    requires AreDigits(ds, w) && k <= |ds|
    ensures Value(ds, w) / Weight(w, k) == Value(ds[k..], w)
  {
    hide Pow2, Weight;
    WeightNext(w, if k == 0 then 0 else k - 1);
    if k == 0 {
      assert ds[0..] == ds;
    } else {
      DropDigits(ds[1..], w, k - 1);
      assert ds[1..][k - 1..] == ds[k..];
      DivUnique(Value(ds, w), Pow2(w), Value(ds[1..], w), ds[0]);
      DivDiv(Value(ds, w), Pow2(w), Weight(w, k - 1));
    }
  }

  lemma QuotientNonneg(v: nat, p: nat)
    requires p > 0
    ensures v / p >= 0
  {
  }

  /** A number without its lowest digit. */
  function Upper(v: nat, w: nat): nat {
    QuotientNonneg(v, Pow2(w));
    v / Pow2(w)
  }

  /** Digit k of a number. */
  function Digit(v: nat, w: nat, k: nat): nat {
    v / Weight(w, k) % Pow2(w)
  }

  lemma DigitAt(ds: seq<nat>, w: nat, k: nat)
    requires AreDigits(ds, w) && k < |ds|
    ensures Digit(Value(ds, w), w, k) == ds[k]
  {
    hide Pow2, Weight;
    DropDigits(ds, w, k);
    var tail := ds[k..];
    DivUnique(Value(tail, w), Pow2(w), Value(tail[1..], w), ds[k]);
  }

  lemma {:induction false} ValueSnoc(ds: seq<nat>, d: nat, w: nat)
    ensures Value(ds + [d], w) == Value(ds, w) + Weight(w, |ds|) * d
  {
    hide Pow2, Weight;
    if ds == [] {
      WeightNext(w, 0);
      assert ds + [d] == [d] && [d][1..] == [];
      assert Value([d], w) == d + Pow2(w) * Value([], w);
    } else {
      var rest := ds[1..];
      assert (ds + [d])[1..] == rest + [d];
      ValueSnoc(rest, d, w);
      WeightNext(w, |rest|);
      Regroup(Pow2(w), Value(rest, w), Weight(w, |rest|), d);
    }
  }

  lemma QuotientBelow(v: nat, p: nat, q: nat)
    requires p > 0 && v < p * q
    ensures v / p < q
  {
    var u := v / p;
    assert p * (q - u) == p * q - p * u;
    MulSign(p, q - u);
  }

  lemma DigitNext(v: nat, w: nat, k: nat)
    ensures Digit(v, w, k + 1) == Digit(Upper(v, w), w, k) && Digit(v, w, 0) == v % Pow2(w)
  {
    hide Pow2, Weight;
    WeightNext(w, k);
    DivDiv(v, Pow2(w), Weight(w, k));
  }

  /** Digits read off a number spell the number. */
  lemma {:induction false} DigitsSpell(v: nat, ds: seq<nat>, w: nat)
    requires v < Weight(w, |ds|)
    requires forall k | 0 <= k < |ds| :: ds[k] == Digit(v, w, k)
    ensures Value(ds, w) == v
  {
    hide Pow2, Weight, Digit;
    if ds == [] {
      WeightNext(w, 0);
    } else {
      var rest := ds[1..];
      WeightNext(w, |rest|);
      QuotientBelow(v, Pow2(w), Weight(w, |rest|));
      forall k | 0 <= k < |rest|
        ensures rest[k] == Digit(Upper(v, w), w, k)
      {
        DigitNext(v, w, k);
      }
      DigitsSpell(Upper(v, w), rest, w);
      DigitNext(v, w, 0);
    }
  }

  /** An eleven-bit field depends only on the bits below its top. */
  lemma FieldLocal(x: nat, t: nat, p: nat, c: nat)
    requires p > 0
    ensures (x + p * (2048 * c * t)) / p % 2048 == x / p % 2048
  {
    DivUnique(x + p * (2048 * c * t), p, x / p + 2048 * c * t, x % p);
    var q := x / p;
    var n := c * t;
    assert 2048 * c * t == 2048 * n;
    DivUnique(q + 2048 * n, 2048, q / 2048 + n, q % 2048);
  }
}
