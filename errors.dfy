/** The expected squared magnitude of a zero-mean Gaussian localisation error. */
module Errors {
  import opened Reals
  import opened Vectors

  /**
   * `expected_absolute_value`: the squared Euclidean norm of the per-axis
   * standard deviations, which is the expected squared length of a
   * zero-mean Gaussian error with those deviations. The source takes the
   * norm and squares it; over the reals that is the sum of squares.
   */
  function ExpectedAbsoluteValue(stdDevs: seq<real>): (r: real)
    ensures r >= 0.0
    ensures r == 0.0 <==> forall i :: 0 <= i < |stdDevs| ==> stdDevs[i] == 0.0
  {
    SumSquares(stdDevs)
  }

  /** Appending an axis adds that axis' variance, whatever the dimension. */
  lemma {:induction false} ExpectedAbsoluteValueAppend(v: seq<real>, s: real)
    ensures ExpectedAbsoluteValue(v + [s]) == ExpectedAbsoluteValue(v) + Sq(s)
  {
    if |v| > 0 {
      assert (v + [s])[1..] == v[1..] + [s];
      ExpectedAbsoluteValueAppend(v[1..], s);
    }
  }

  /** An isotropic error with deviation s on each of n axes has n * s^2. */
  lemma {:induction false} ExpectedAbsoluteValueIsotropic(n: nat, s: real)
    ensures ExpectedAbsoluteValue(Fill(n, s)) == n as real * Sq(s)
  {
    if n > 0 {
      assert Fill(n, s) == Fill(n - 1, s) + [s];
      ExpectedAbsoluteValueIsotropic(n - 1, s);
      ExpectedAbsoluteValueAppend(Fill(n - 1, s), s);
    }
  }

  /**
   * The values the callers rely on: a unit deviation on three axes gives 3,
   * a deviation s on three axes gives 3 s^2 (the fixed-side value of the
   * game), and zero deviations give 0 in one, two and three dimensions.
   */
  lemma ExpectedAbsoluteValueExamples(s: real)
    ensures ExpectedAbsoluteValue([1.0, 1.0, 1.0]) == 3.0
    ensures ExpectedAbsoluteValue([s, s, s]) == 3.0 * Sq(s)
    ensures ExpectedAbsoluteValue([0.0]) == 0.0
    ensures ExpectedAbsoluteValue([0.0, 0.0]) == 0.0
    ensures ExpectedAbsoluteValue([0.0, 0.0, 0.0]) == 0.0
  {
    ExpectedAbsoluteValueIsotropic(3, s);
    assert Fill(3, s) == [s, s, s];
    ExpectedAbsoluteValueIsotropic(3, 1.0);
    assert Fill(3, 1.0) == [1.0, 1.0, 1.0];
  }
}
