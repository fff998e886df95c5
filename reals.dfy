/**
 * Products of real variables, kept behind named functions, and the few
 * facts about them that the other modules use. Every nonlinear step of
 * the proofs is one of the small lemmas below.
 */
module Reals {

  function Sq(x: real): real { x * x }

  function Mul(x: real, y: real): real { x * y }

  function Cube(x: real): real { Mul(Sq(x), x) }

  function Abs(x: real): real { if x < 0.0 then -x else x }

  function Min(x: real, y: real): real { if x < y then x else y }

  lemma MulPos(a: real, b: real)
    requires a > 0.0 && b > 0.0
    ensures Mul(a, b) > 0.0
  {
  }

  lemma MulNonNeg(a: real, b: real)
    requires a >= 0.0 && b >= 0.0
    ensures Mul(a, b) >= 0.0
  {
  }

  /** Squares are non-negative and vanish only at zero. */
  lemma SqFacts(a: real)
    ensures Sq(a) >= 0.0
    ensures Sq(a) == 0.0 <==> a == 0.0
  {
    if a < 0.0 {
      MulPos(-a, -a);
      assert Mul(-a, -a) == Sq(a);
    } else if a > 0.0 {
      MulPos(a, a);
    }
  }

  /** Squaring is strictly increasing on the non-negative reals. */
  lemma SqStrictlyIncreasing(a: real, b: real)
    requires 0.0 <= a < b
    ensures Sq(a) < Sq(b)
  {
    MulNonNeg(a, b - a);
    assert Mul(a, b - a) == Mul(a, b) - Sq(a);
    MulPos(b, b - a);
    assert Mul(b, b - a) == Sq(b) - Mul(a, b);
  }

  /** Cubes keep the sign of their argument. */
  lemma CubeSign(a: real)
    ensures a > 0.0 ==> Cube(a) > 0.0
    ensures a == 0.0 ==> Cube(a) == 0.0
    ensures a < 0.0 ==> Cube(a) < 0.0
  {
    SqFacts(a);
    if a > 0.0 {
      MulPos(Sq(a), a);
    } else if a < 0.0 {
      MulPos(Sq(a), -a);
      assert Mul(Sq(a), -a) == -Cube(a);
    }
  }

  /** Cubing is strictly increasing on the non-negative reals. */
  lemma CubeStrictlyIncreasing(a: real, b: real)
    requires 0.0 <= a < b
    ensures Cube(a) < Cube(b)
  {
    SqFacts(a);
    SqStrictlyIncreasing(a, b);
    MulNonNeg(Sq(a), b - a);
    assert Mul(Sq(a), b - a) == Mul(Sq(a), b) - Cube(a);
    MulPos(Sq(b) - Sq(a), b);
    assert Mul(Sq(b) - Sq(a), b) == Cube(b) - Mul(Sq(a), b);
  }

  /** Dividing by a non-zero number and multiplying back cancels. */
  lemma DivCancel(p: real, q: real)
    requires q != 0.0
    ensures Mul(p / q, q) == p
  {
  }

  /** A quotient is positive exactly when numerator and positive denominator agree. */
  lemma DivSign(p: real, q: real)
    requires q > 0.0
    ensures p / q > 0.0 <==> p > 0.0
    ensures p / q == 0.0 <==> p == 0.0
  {
    DivCancel(p, q);
    if p / q > 0.0 {
      MulPos(p / q, q);
    } else if p / q < 0.0 {
      MulPos(-(p / q), q);
      assert Mul(-(p / q), q) == -Mul(p / q, q);
    }
  }

  lemma MulZero(a: real, b: real)
    requires b != 0.0 && Mul(a, b) == 0.0
    ensures a == 0.0
  {
  }

  /** The share of q that p does not take. */
  lemma DivComplement(p: real, q: real)
    requires q != 0.0
    ensures (q - p) / q == 1.0 - p / q
  {
    var x := p / q;
    var y := (q - p) / q;
    DivCancel(p, q);
    DivCancel(q - p, q);
    assert Mul(x + y - 1.0, q) == Mul(x, q) + Mul(y, q) - q;
    MulZero(x + y - 1.0, q);
  }

  lemma DivAtMostOne(p: real, q: real)
    requires 0.0 <= p <= q && q > 0.0
    ensures 0.0 <= p / q <= 1.0
  {
  }

  /** Multiplying by a positive number can be undone in an inequality. */
  lemma MulCancelLe(a: real, b: real, n: real)
    requires n > 0.0 && Mul(a, n) <= Mul(b, n)
    ensures a <= b
  {
    assert Mul(a - b, n) == Mul(a, n) - Mul(b, n);
    if a > b {
      MulPos(a - b, n);
    }
  }

  /** Scaling a non-negative number by a factor in [0, 1] keeps it in [0, itself]. */
  lemma ScaleWithinUnit(h: real, e: real)
    requires 0.0 <= h && 0.0 <= e <= 1.0
    ensures 0.0 <= Mul(h, e) <= h
  {
    MulNonNeg(h, e);
    MulNonNeg(h, 1.0 - e);
    assert Mul(h, 1.0 - e) == h - Mul(h, e);
  }
}
