/** Wrapping of angles into [-PI, PI]. */
module Angles {
  import opened Floats

  function Wrap(a: real): (r: real)
    ensures -PI <= r <= PI
    decreases if a > PI then a else if a < -PI then -a else 0.0
  {
    if a > PI then Wrap(a - TWO_PI)
    else if a < -PI then Wrap(a + TWO_PI)
    else a
  }

  /** The two subtraction loops. Each pass removes one full turn, so they terminate. */
  method WrapPi(angle: real) returns (a: real)
    ensures a == Wrap(angle)
  {
    a := angle;
    while a > PI
      invariant Wrap(a) == Wrap(angle)
      decreases a
    {
      a := a - TWO_PI;
    }
    while a < -PI
      invariant Wrap(a) == Wrap(angle) && a <= PI
      decreases -a
    {
      a := a + TWO_PI;
    }
  }

  lemma WrapIdentity(a: real)
    requires -PI <= a <= PI
    ensures Wrap(a) == a
  {
  }

  /** The result differs from the argument by a whole number of turns. */
  lemma {:induction false} WrapCongruent(a: real) returns (k: int)
    ensures Wrap(a) == a + k as real * TWO_PI
    decreases if a > PI then a else if a < -PI then -a else 0.0
  {
    if a > PI {
      k := WrapCongruent(a - TWO_PI);
      k := k - 1;
    } else if a < -PI {
      k := WrapCongruent(a + TWO_PI);
      k := k + 1;
    } else {
      k := 0;
    }
  }

  /** Being in range and congruent to the argument determines the result, up to the two names
      -PI and PI of the half turn. */
  lemma WrapUnique(a: real, r: real, k: int)
    requires -PI <= r <= PI && r == a + k as real * TWO_PI
    ensures r == Wrap(a) || Abs(r) == Abs(Wrap(a)) == PI
  {
    var j := WrapCongruent(a);
    var d := (k - j) as real;
    assert r - Wrap(a) == d * TWO_PI;
    if k - j >= 1 {
      assert d >= 1.0;
    } else if k - j <= -1 {
      assert d <= -1.0;
    }
  }
}
