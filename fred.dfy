/** Fiducial validity and the random placement of a target inside an outline. */
module Fred {
  import opened Reals
  import opened Outcomes
  import opened Vectors

  /**
   * `is_valid_fiducial`: a location is valid when no coordinate is
   * negative (so an empty location is valid, as numpy's `all` is).
   */
  function IsValidFiducial(location: seq<real>): (valid: bool)
    ensures valid <==> forall i :: 0 <= i < |location| ==> location[i] >= 0.0
  {
    if |location| == 0 then true
    else location[0] >= 0.0 && IsValidFiducial(location[1..])
  }

  /** One point of the anatomy outline, in image coordinates. */
  datatype Point2 = Point2(x: real, y: real)

  function Xs(outline: seq<Point2>): (r: seq<real>)
    ensures |r| == |outline| && forall i :: 0 <= i < |outline| ==> r[i] == outline[i].x
  {
    seq(|outline|, i requires 0 <= i < |outline| => outline[i].x)
  }

  function Ys(outline: seq<Point2>): (r: seq<real>)
    ensures |r| == |outline| && forall i :: 0 <= i < |outline| ==> r[i] == outline[i].y
  {
    seq(|outline|, i requires 0 <= i < |outline| => outline[i].y)
  }

  function Sum(v: seq<real>): real {
    if |v| == 0 then 0.0 else v[0] + Sum(v[1..])
  }

  /** The largest entry: numpy's `max` over one axis. */
  function MaxOf(v: seq<real>): (m: real)
    requires |v| > 0
    ensures forall i :: 0 <= i < |v| ==> v[i] <= m
    ensures exists i :: 0 <= i < |v| && v[i] == m
  {
    if |v| == 1 then v[0]
    else
      var rest := MaxOf(v[1..]);
      assert forall i :: 1 <= i < |v| ==> v[i] == v[1..][i - 1];
      if v[0] >= rest then v[0] else rest
  }

  /** The smallest entry: numpy's `min` over one axis. */
  function MinOf(v: seq<real>): (m: real)
    requires |v| > 0
    ensures forall i :: 0 <= i < |v| ==> m <= v[i]
    ensures exists i :: 0 <= i < |v| && v[i] == m
  {
    if |v| == 1 then v[0]
    else
      var rest := MinOf(v[1..]);
      assert forall i :: 1 <= i < |v| ==> v[i] == v[1..][i - 1];
      if v[0] <= rest then v[0] else rest
  }

  /** The arithmetic mean of one axis: numpy's `mean` over it. */
  function Mean(v: seq<real>): real
    requires |v| > 0
  {
    Sum(v) / (|v| as real)
  }

  /** A sum lies between the count times a lower and the count times an upper bound. */
  lemma {:induction false} SumBounds(v: seq<real>, lo: real, hi: real)
    requires forall i :: 0 <= i < |v| ==> lo <= v[i] <= hi
    ensures Mul(lo, |v| as real) <= Sum(v) <= Mul(hi, |v| as real)
  {
    if |v| > 0 {
      var n := |v| as real;
      assert forall i :: 0 <= i < |v[1..]| ==> v[1..][i] == v[i + 1];
      SumBounds(v[1..], lo, hi);
      assert Mul(lo, n) == Mul(lo, n - 1.0) + lo;
      assert Mul(hi, n) == Mul(hi, n - 1.0) + hi;
    }
  }

  lemma MeanTimesCount(v: seq<real>)
    requires |v| > 0
    ensures Mul(Mean(v), |v| as real) == Sum(v)
  {
    DivCancel(Sum(v), |v| as real);
  }

  /** The mean of an axis lies between its minimum and its maximum. */
  lemma MeanWithinRange(v: seq<real>)
    requires |v| > 0
    ensures MinOf(v) <= Mean(v) <= MaxOf(v)
  {
    var n := |v| as real;
    SumBounds(v, MinOf(v), MaxOf(v));
    MeanTimesCount(v);
    MulCancelLe(MinOf(v), Mean(v), n);
    MulCancelLe(Mean(v), MaxOf(v), n);
  }

  /** Half the extent of one axis of the bounding box; never negative. */
  function HalfExtent(v: seq<real>): (h: real)
    requires |v| > 0
    ensures h >= 0.0
  {
    assert MinOf(v) <= v[0] <= MaxOf(v);
    (MaxOf(v) - MinOf(v)) / 2.0
  }

  /**
   * The largest radius a target may take: the smaller half-extent of the
   * outline's bounding box, scaled by the edge buffer.
   */
  function MaxRadius(outline: seq<Point2>, edgeBuffer: real): real
    requires |outline| > 0
  {
    Mul(Min(HalfExtent(Xs(outline)), HalfExtent(Ys(outline))), edgeBuffer)
  }

  /** With a buffer in [0, 1] the bound is non-negative and fits in both half-extents. */
  lemma MaxRadiusBounds(outline: seq<Point2>, edgeBuffer: real)
    requires |outline| > 0
    requires 0.0 <= edgeBuffer <= 1.0
    ensures 0.0 <= MaxRadius(outline, edgeBuffer)
    ensures MaxRadius(outline, edgeBuffer) <= HalfExtent(Xs(outline))
    ensures MaxRadius(outline, edgeBuffer) <= HalfExtent(Ys(outline))
  {
    ScaleWithinUnit(Min(HalfExtent(Xs(outline)), HalfExtent(Ys(outline))), edgeBuffer);
  }

  /**
   * `make_target_point`: a point at a uniformly drawn radius and angle
   * from the outline's centre, in the z = 0 plane. `firstDraw` and
   * `secondDraw` are the two uniform [0, 1) draws the source makes for the
   * radius (it keeps only the second), and (cosAngle, sinAngle) is the
   * direction of the drawn angle. An empty outline is numpy's ValueError
   * for a maximum over nothing.
   */
  function MakeTargetPoint(outline: seq<Point2>, edgeBuffer: real, firstDraw: real, secondDraw: real,
                           cosAngle: real, sinAngle: real): (r: Result<Point3>)
    ensures r.Err? <==> |outline| == 0
    ensures r.Err? ==> r.error == ValueError
    ensures r.Ok? ==> r.value.z == 0.0
  {
    if |outline| == 0 then Err(ValueError)
    else
      var centreX := Mean(Xs(outline));
      var centreY := Mean(Ys(outline));
      var maxRadius := MaxRadius(outline, edgeBuffer);
      var discarded := Mul(maxRadius, firstDraw);
      var radius := Mul(maxRadius, secondDraw);
      Ok(Point3(Mul(radius, cosAngle) + centreX, Mul(radius, sinAngle) + centreY, 0.0))
  }

  /** Only the second radius draw matters. */
  lemma FirstDrawDiscarded(outline: seq<Point2>, edgeBuffer: real, firstDraw: real, otherDraw: real,
                           secondDraw: real, cosAngle: real, sinAngle: real)
    ensures MakeTargetPoint(outline, edgeBuffer, firstDraw, secondDraw, cosAngle, sinAngle)
            == MakeTargetPoint(outline, edgeBuffer, otherDraw, secondDraw, cosAngle, sinAngle)
  {
  }

  /** A point at angle (cos, sin) and distance radius from the origin is radius away from it. */
  lemma PolarDistance(radius: real, cosAngle: real, sinAngle: real)
    requires Sq(cosAngle) + Sq(sinAngle) == 1.0
    ensures Sq(Mul(radius, cosAngle)) + Sq(Mul(radius, sinAngle)) == Sq(radius)
  {
    assert Sq(Mul(radius, cosAngle)) + Sq(Mul(radius, sinAngle)) == Mul(Sq(radius), Sq(cosAngle) + Sq(sinAngle));
  }

  /**
   * The target lies at distance maxRadius * secondDraw from the outline's
   * mean point, which is between 0 and the maximum radius, and the mean
   * point lies in the outline's bounding box.
   */
  lemma TargetPlacement(outline: seq<Point2>, edgeBuffer: real, firstDraw: real, secondDraw: real,
                        cosAngle: real, sinAngle: real)
    requires |outline| > 0
    requires 0.0 <= edgeBuffer <= 1.0
    requires 0.0 <= secondDraw < 1.0
    requires Sq(cosAngle) + Sq(sinAngle) == 1.0
    ensures var p := MakeTargetPoint(outline, edgeBuffer, firstDraw, secondDraw, cosAngle, sinAngle).value;
      var radius := Mul(MaxRadius(outline, edgeBuffer), secondDraw);
      Sq(p.x - Mean(Xs(outline))) + Sq(p.y - Mean(Ys(outline))) == Sq(radius) &&
      0.0 <= radius <= MaxRadius(outline, edgeBuffer)
    ensures MinOf(Xs(outline)) <= Mean(Xs(outline)) <= MaxOf(Xs(outline))
    ensures MinOf(Ys(outline)) <= Mean(Ys(outline)) <= MaxOf(Ys(outline))
  {
    var maxRadius := MaxRadius(outline, edgeBuffer);
    var radius := Mul(maxRadius, secondDraw);
    MaxRadiusBounds(outline, edgeBuffer);
    ScaleWithinUnit(maxRadius, secondDraw);
    PolarDistance(radius, cosAngle, sinAngle);
    var p := MakeTargetPoint(outline, edgeBuffer, firstDraw, secondDraw, cosAngle, sinAngle).value;
    assert p.x - Mean(Xs(outline)) == Mul(radius, cosAngle);
    assert p.y - Mean(Ys(outline)) == Mul(radius, sinAngle);
    MeanWithinRange(Xs(outline));
    MeanWithinRange(Ys(outline));
  }
}
