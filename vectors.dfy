/** Points, real vectors and the square root oracle shared by the algorithms. */
module Vectors {
  import opened Reals

  /** A 3D position: the 1x3 or 3x1 numpy arrays of the source. */
  datatype Point3 = Point3(x: real, y: real, z: real)

  /** A 3x3 matrix given by its rows. */
  datatype Mat3 = Mat3(row0: Point3, row1: Point3, row2: Point3)

  const Origin := Point3(0.0, 0.0, 0.0)
  const Identity := Mat3(Point3(1.0, 0.0, 0.0), Point3(0.0, 1.0, 0.0), Point3(0.0, 0.0, 1.0))

  function Add3(a: Point3, b: Point3): Point3 {
    Point3(a.x + b.x, a.y + b.y, a.z + b.z)
  }

  function Sub3(a: Point3, b: Point3): Point3 {
    Point3(a.x - b.x, a.y - b.y, a.z - b.z)
  }

  function Dot3(a: Point3, b: Point3): real {
    a.x * b.x + a.y * b.y + a.z * b.z
  }

  /** The matrix product m * p, with p as a column. */
  function MatVec(m: Mat3, p: Point3): Point3 {
    Point3(Dot3(m.row0, p), Dot3(m.row1, p), Dot3(m.row2, p))
  }

  /** The identity matrix leaves every point where it is. */
  lemma IdentityFixes(p: Point3)
    ensures MatVec(Identity, p) == p
  {
  }

  /** Squared Euclidean norm of a point. */
  function SqNorm3(p: Point3): (r: real)
    ensures r >= 0.0
    ensures r == 0.0 <==> p == Origin
  {
    SqFacts(p.x);
    SqFacts(p.y);
    SqFacts(p.z);
    Sq(p.x) + Sq(p.y) + Sq(p.z)
  }

  /** Squared Euclidean distance between two points. */
  function SqDist3(a: Point3, b: Point3): (r: real)
    ensures r >= 0.0
    ensures r == 0.0 <==> a == b
  {
    SubZero(a, b);
    SqNorm3(Sub3(a, b))
  }

  lemma SubZero(a: Point3, b: Point3)
    ensures Sub3(a, b) == Origin <==> a == b
  {
    var d := Sub3(a, b);
    if d == Origin {
      assert a.x == b.x && a.y == b.y && a.z == b.z;
    }
  }

  /**
   * A square root: the non-negative number whose square is the argument.
   * Square roots cannot be constructed here, so every Euclidean norm of
   * the source goes through a `sqrt` parameter, and the lemmas that need
   * its value assume that it is a square root.
   */
  ghost predicate IsSqrt(sqrt: real -> real) {
    forall x: real :: 0.0 <= x ==> RootAt(sqrt, x)
  }

  /**
   * `sqrt` gives x's square root. Proofs name this fact at the points they
   * need, so the square root is never unfolded anywhere else.
   */
  ghost predicate RootAt(sqrt: real -> real, x: real) {
    0.0 <= sqrt(x) && Sq(sqrt(x)) == x
  }

  /** The root of x is non-negative, squares back to x, and is zero exactly for x = 0. */
  lemma SqrtFacts(sqrt: real -> real, x: real)
    requires IsSqrt(sqrt)
    requires 0.0 <= x
    ensures 0.0 <= sqrt(x) && Sq(sqrt(x)) == x
    ensures sqrt(x) == 0.0 <==> x == 0.0
  {
    assert RootAt(sqrt, x);
    SqFacts(sqrt(x));
  }

  /** A square root returns the non-negative root of a perfect square. */
  lemma SqrtOfSquare(sqrt: real -> real, a: real)
    requires IsSqrt(sqrt)
    requires 0.0 <= a
    ensures sqrt(Sq(a)) == a
  {
    SqFacts(a);
    var s := sqrt(Sq(a));
    assert RootAt(sqrt, Sq(a));
    if s < a {
      SqStrictlyIncreasing(s, a);
    } else if s > a {
      SqStrictlyIncreasing(a, s);
    }
  }

  /** Sum of the squares of the components of a vector of any length. */
  function SumSquares(v: seq<real>): (r: real)
    ensures r >= 0.0
    ensures r == 0.0 <==> forall i :: 0 <= i < |v| ==> v[i] == 0.0
  {
    if |v| == 0 then 0.0
    else
      var rest := SumSquares(v[1..]);
      SqFacts(v[0]);
      assert forall i :: 1 <= i < |v| ==> v[i] == v[1..][i - 1];
      Sq(v[0]) + rest
  }

  /** The vector of length n whose every component is x (numpy's `full`). */
  function Fill(n: nat, x: real): (v: seq<real>)
    ensures |v| == n
    ensures forall i :: 0 <= i < n ==> v[i] == x
  {
    seq(n, _ => x)
  }

  /** Component-wise sum of two vectors of the same length. */
  function AddSeq(a: seq<real>, b: seq<real>): (r: seq<real>)
    requires |a| == |b|
    ensures |r| == |a|
    ensures forall i :: 0 <= i < |a| ==> r[i] == a[i] + b[i]
  {
    seq(|a|, i requires 0 <= i < |a| => a[i] + b[i])
  }
}
