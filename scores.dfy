/** Sphere volumes, the overlap of two spheres and the ablation game's score. */
module Scores {
  import opened Reals
  import opened Outcomes
  import opened Vectors

  /** Python's `math.pi`, written out to the digits its double shows. */
  const PI: real := 3.141592653589793

  /** `sphere_volume`: 4/3 pi r^3. */
  function SphereVolume(radius: real): (v: real)
    ensures radius > 0.0 ==> v > 0.0
    ensures radius < 0.0 ==> v < 0.0
    ensures v == 0.0 <==> radius == 0.0
  {
    CubeSign(radius);
    4.0 * PI * Cube(radius) / 3.0
  }

  /** Larger spheres have larger volumes. */
  lemma SphereVolumeStrictlyIncreasing(a: real, b: real)
    requires 0.0 <= a < b
    ensures SphereVolume(a) < SphereVolume(b)
  {
    CubeStrictlyIncreasing(a, b);
  }

  /**
   * The volume of the lens where two spheres whose centres are d apart
   * intersect, for the case where neither contains the other.
   */
  function LensVolume(distance: real, radius0: real, radius1: real): real
    requires distance > 0.0
  {
    var sumRadii := radius0 + radius1;
    var absDiffRadii := Abs(radius0 - radius1);
    var firstTerm := PI / (12.0 * distance);
    var secondTerm := Sq(sumRadii - distance);
    var thirdTerm := Sq(distance) + 2.0 * Mul(distance, sumRadii) - 3.0 * Sq(absDiffRadii);
    Mul(Mul(firstTerm, secondTerm), thirdTerm)
  }

  /**
   * `two_sphere_overlap_volume`, given the distance between the centres
   * (the source computes it as the norm of centre1 - centre0).
   */
  function OverlapVolume(distance: real, radius0: real, radius1: real): real {
    var sumRadii := radius0 + radius1;
    var absDiffRadii := Abs(radius0 - radius1);
    if distance >= sumRadii then 0.0
    else if distance <= absDiffRadii then
      if radius0 < radius1 then SphereVolume(radius0) else SphereVolume(radius1)
    else LensVolume(distance, radius0, radius1)
  }

  /** Spheres whose centres are at least the sum of the radii apart do not overlap. */
  lemma OverlapDisjoint(distance: real, radius0: real, radius1: real)
    requires distance >= radius0 + radius1
    ensures OverlapVolume(distance, radius0, radius1) == 0.0
  {
  }

  /**
   * When one sphere lies inside the other (including coincident centres),
   * the overlap is the volume of the smaller sphere.
   */
  lemma OverlapContained(distance: real, radius0: real, radius1: real)
    requires 0.0 <= distance <= Abs(radius0 - radius1)
    requires radius0 >= 0.0 && radius1 >= 0.0
    ensures OverlapVolume(distance, radius0, radius1) == SphereVolume(Min(radius0, radius1))
  {
    if distance >= radius0 + radius1 {
      assert radius0 == 0.0 || radius1 == 0.0;
    }
  }

  /** Swapping the two spheres does not change the overlap. */
  lemma OverlapSymmetric(distance: real, radius0: real, radius1: real)
    ensures OverlapVolume(distance, radius0, radius1) == OverlapVolume(distance, radius1, radius0)
  {
    assert Abs(radius0 - radius1) == Abs(radius1 - radius0);
  }

  /** The lens formula meets the disjoint case where the spheres just touch. */
  lemma LensMeetsDisjoint(radius0: real, radius1: real)
    requires radius0 + radius1 > 0.0
    ensures LensVolume(radius0 + radius1, radius0, radius1) == 0.0
  {
  }

  /** The lens formula meets the containment case where one sphere touches the inside of the other. */
  lemma LensMeetsContained(radius0: real, radius1: real)
    requires 0.0 <= radius0 < radius1
    ensures LensVolume(radius1 - radius0, radius0, radius1) == SphereVolume(radius0)
  {
    var d := radius1 - radius0;
    var f := PI / (12.0 * d);
    DivCancel(PI, 12.0 * d);
    assert Mul(f, 12.0 * d) == PI;
    assert Sq(radius0 + radius1 - d) == 4.0 * Sq(radius0);
    assert Sq(d) + 2.0 * Mul(d, radius0 + radius1) - 3.0 * Sq(d) == 4.0 * Mul(d, radius0);
    assert Mul(Mul(f, 4.0 * Sq(radius0)), 4.0 * Mul(d, radius0)) == 16.0 * Mul(f, d) * Cube(radius0);
  }

  /** Inside the lens case the formula is positive. */
  lemma LensPositive(distance: real, radius0: real, radius1: real)
    requires Abs(radius0 - radius1) < distance < radius0 + radius1
    ensures LensVolume(distance, radius0, radius1) > 0.0
  {
    var s := radius0 + radius1;
    var delta := Abs(radius0 - radius1);
    var f := PI / (12.0 * distance);
    var t := Sq(distance) + 2.0 * Mul(distance, s) - 3.0 * Sq(delta);
    SqFacts(delta);
    SqStrictlyIncreasing(delta, distance);
    MulPos(distance, s - distance);
    assert Mul(distance, s - distance) == Mul(distance, s) - Sq(distance);
    assert t > 0.0;
    SqFacts(s - distance);
    MulPos(f, Sq(s - distance));
    MulPos(Mul(f, Sq(s - distance)), t);
  }

  /**
   * The heart of the lens bound, with r the smaller radius, R the larger,
   * u = r + R - d and w = 2r: u^2 T < 2 d w^3.
   */
  lemma LensKeyInequality(distance: real, r: real, bigR: real)
    requires 0.0 <= r <= bigR
    requires bigR - r < distance < bigR + r
    ensures Mul(Sq(r + bigR - distance), Sq(distance) + 2.0 * Mul(distance, r + bigR) - 3.0 * Sq(bigR - r))
            < 2.0 * Mul(distance, Cube(2.0 * r))
  {
    var s := r + bigR;
    var u := s - distance;
    var w := 2.0 * r;
    var t := Sq(distance) + 2.0 * Mul(distance, s) - 3.0 * Sq(bigR - r);
    var g := Sq(u) + 2.0 * Mul(u, w) - 2.0 * Mul(s, w) - 4.0 * Mul(s, u);
    // g < 0, from s >= w and 0 < u < w
    MulNonNeg(w, s - w);
    assert Mul(w, s - w) == Mul(s, w) - Sq(w);
    MulNonNeg(u, s - w);
    assert Mul(u, s - w) == Mul(s, u) - Mul(u, w);
    MulPos(u, w - u);
    assert Mul(u, w - u) == Mul(u, w) - Sq(u);
    MulPos(w, w);
    assert g < 0.0;
    SqFacts(w - u);
    MulPos(Sq(w - u), -g);
    assert Mul(Sq(w - u), -g) == -Mul(Sq(w - u), g);
    LensIdentity(distance, r, bigR);
  }

  /** The polynomial identity behind LensKeyInequality, with u = r + R - d and w = 2r. */
  lemma LensIdentity(distance: real, r: real, bigR: real)
    ensures var u := r + bigR - distance;
            var w := 2.0 * r;
            Mul(Sq(u), Sq(distance) + 2.0 * Mul(distance, r + bigR) - 3.0 * Sq(bigR - r))
              - 2.0 * Mul(distance, Cube(w))
            == Mul(Sq(w - u), Sq(u) + 2.0 * Mul(u, w) - 2.0 * Mul(r + bigR, w) - 4.0 * Mul(r + bigR, u))
  {
  }

  /** In the lens case the overlap is less than the smaller sphere. */
  lemma LensBelowSmaller(distance: real, r: real, bigR: real)
    requires 0.0 <= r <= bigR
    requires bigR - r < distance < bigR + r
    ensures LensVolume(distance, r, bigR) < SphereVolume(r)
    ensures LensVolume(distance, bigR, r) < SphereVolume(r)
  {
    var s := r + bigR;
    var u := s - distance;
    var t := Sq(distance) + 2.0 * Mul(distance, s) - 3.0 * Sq(bigR - r);
    var f := PI / (12.0 * distance);
    assert Abs(r - bigR) == bigR - r && Abs(bigR - r) == bigR - r;
    assert LensVolume(distance, r, bigR) == Mul(f, Mul(Sq(u), t));
    assert LensVolume(distance, bigR, r) == Mul(f, Mul(Sq(u), t));
    LensKeyInequality(distance, r, bigR);
    var gap := 2.0 * Mul(distance, Cube(2.0 * r)) - Mul(Sq(u), t);
    MulPos(f, gap);
    DivCancel(PI, 12.0 * distance);
    assert Mul(f, 2.0 * Mul(distance, Cube(2.0 * r))) == 16.0 * Mul(Mul(f, 12.0 * distance), Cube(r)) / 12.0;
    assert Mul(f, 2.0 * Mul(distance, Cube(2.0 * r))) == SphereVolume(r);
  }

  /**
   * For non-negative radii the overlap lies between zero and the volume of
   * the smaller sphere; when both radii are positive it is zero exactly
   * when the spheres are disjoint and the whole smaller sphere exactly when
   * it is contained in the other.
   */
  lemma OverlapBounds(distance: real, radius0: real, radius1: real)
    requires distance >= 0.0 && radius0 >= 0.0 && radius1 >= 0.0
    ensures 0.0 <= OverlapVolume(distance, radius0, radius1) <= SphereVolume(Min(radius0, radius1))
    ensures Min(radius0, radius1) > 0.0 ==>
      (OverlapVolume(distance, radius0, radius1) == 0.0 <==> distance >= radius0 + radius1)
    ensures Min(radius0, radius1) > 0.0 ==>
      (OverlapVolume(distance, radius0, radius1) == SphereVolume(Min(radius0, radius1)) <==>
       distance <= Abs(radius0 - radius1))
  {
    var v := OverlapVolume(distance, radius0, radius1);
    var vMin := SphereVolume(Min(radius0, radius1));
    if distance >= radius0 + radius1 {
      assert v == 0.0;
    } else if distance <= Abs(radius0 - radius1) {
      OverlapContained(distance, radius0, radius1);
    } else {
      LensPositive(distance, radius0, radius1);
      if radius0 <= radius1 {
        LensBelowSmaller(distance, radius0, radius1);
      } else {
        LensBelowSmaller(distance, radius1, radius0);
      }
      assert 0.0 < v < vMin;
    }
  }

  /**
   * Python's built-in `round` on a float with no digits argument: the
   * nearest integer, ties going to the even neighbour.
   */
  function RoundHalfEven(x: real): (n: int)
    ensures x - 0.5 <= n as real <= x + 0.5
    ensures (n as real - x == 0.5 || x - n as real == 0.5) ==> n % 2 == 0
  {
    var f := x.Floor;
    var frac := x - f as real;
    if frac < 0.5 then f
    else if frac > 0.5 then f + 1
    else if f % 2 == 0 then f
    else f + 1
  }

  /** The two properties above pin the rounded value down. */
  lemma RoundHalfEvenUnique(x: real, m: int)
    requires x - 0.5 <= m as real <= x + 0.5
    requires (m as real - x == 0.5 || x - m as real == 0.5) ==> m % 2 == 0
    ensures RoundHalfEven(x) == m
  {
  }

  /** Rounding never leaves an interval with integer ends. */
  lemma RoundHalfEvenWithin(x: real, lo: int, hi: int)
    requires lo as real <= x <= hi as real
    ensures lo <= RoundHalfEven(x) <= hi
  {
  }

  /**
   * `calculate_score`, given the distance between the true and the estimated
   * target centres: 1000 when the treatment sphere (radius target radius
   * plus margin, around the estimate) covers the whole target, less 1000
   * times the share of the treatment that hits healthy tissue, rounded.
   * A zero target or treatment volume is a division by zero.
   */
  function ScoreAtDistance(distance: real, targetRadius: real, margin: real): (r: Result<int>)
    ensures r.Err? <==> targetRadius == 0.0 || targetRadius + margin == 0.0
    ensures r.Err? ==> r.error == ZeroDivisionError
  {
    var targetVolume := SphereVolume(targetRadius);
    var treatmentVolume := SphereVolume(targetRadius + margin);
    var overlapVolume := OverlapVolume(distance, targetRadius, targetRadius + margin);
    if targetVolume == 0.0 then Err(ZeroDivisionError)
    else
      var targetNotTreated := (targetVolume - overlapVolume) / targetVolume;
      var treatmentScore := if targetNotTreated > 0.0 then 0.0 else 1000.0;
      if treatmentVolume == 0.0 then Err(ZeroDivisionError)
      else
        var healthyTissueTreated := (treatmentVolume - overlapVolume) / treatmentVolume;
        var marginPenalty := -1000.0 * healthyTissueTreated;
        Ok(RoundHalfEven(treatmentScore + marginPenalty))
  }

  /**
   * `calculate_score` on the two centres; the Euclidean norm of their
   * difference goes through the square root the caller supplies.
   */
  function CalculateScore(targetCentre: Point3, estimatedCentre: Point3, targetRadius: real, margin: real,
                          sqrt: real -> real): (r: Result<int>)
    ensures r.Err? <==> targetRadius == 0.0 || targetRadius + margin == 0.0
  {
    ScoreAtDistance(sqrt(SqDist3(estimatedCentre, targetCentre)), targetRadius, margin)
  }

  /**
   * When the treatment sphere contains the target (the estimate is within
   * the margin of the true centre) the whole target is treated and the
   * score is 1000 times the target's share of the treatment volume.
   */
  lemma ScoreContained(distance: real, targetRadius: real, margin: real)
    requires targetRadius > 0.0 && margin >= 0.0
    requires 0.0 <= distance <= margin
    ensures ScoreAtDistance(distance, targetRadius, margin)
            == Ok(RoundHalfEven(1000.0 * (SphereVolume(targetRadius) / SphereVolume(targetRadius + margin))))
    ensures 0 <= ScoreAtDistance(distance, targetRadius, margin).value <= 1000
  {
    var vt := SphereVolume(targetRadius);
    var vtr := SphereVolume(targetRadius + margin);
    assert Abs(targetRadius - (targetRadius + margin)) == margin;
    OverlapContained(distance, targetRadius, targetRadius + margin);
    assert OverlapVolume(distance, targetRadius, targetRadius + margin) == vt;
    if margin > 0.0 {
      SphereVolumeStrictlyIncreasing(targetRadius, targetRadius + margin);
    }
    assert 0.0 < vt <= vtr;
    assert (vt - vt) / vt == 0.0;
    DivComplement(vt, vtr);
    DivAtMostOne(vt, vtr);
    RoundHalfEvenWithin(1000.0 * (vt / vtr), 0, 1000);
  }

  /**
   * When the estimate is further from the true centre than the margin, part
   * of the target is missed: there is no treatment bonus and the score lies
   * between -1000 and 0.
   */
  lemma ScoreNotContained(distance: real, targetRadius: real, margin: real)
    requires targetRadius > 0.0 && margin >= 0.0
    requires distance > margin
    ensures ScoreAtDistance(distance, targetRadius, margin).Ok?
    ensures -1000 <= ScoreAtDistance(distance, targetRadius, margin).value <= 0
  {
    var vt := SphereVolume(targetRadius);
    var vtr := SphereVolume(targetRadius + margin);
    var ov := OverlapVolume(distance, targetRadius, targetRadius + margin);
    assert Min(targetRadius, targetRadius + margin) == targetRadius;
    assert Abs(targetRadius - (targetRadius + margin)) == margin;
    OverlapBounds(distance, targetRadius, targetRadius + margin);
    assert 0.0 <= ov < vt;
    if margin > 0.0 {
      SphereVolumeStrictlyIncreasing(targetRadius, targetRadius + margin);
    }
    DivSign(vt - ov, vt);
    assert (vt - ov) / vt > 0.0;
    assert 0.0 < vtr - ov <= vtr;
    DivAtMostOne(vtr - ov, vtr);
    RoundHalfEvenWithin(-1000.0 * ((vtr - ov) / vtr), -1000, 0);
  }

  /**
   * The score of any ablation with a real target and a non-negative margin
   * lies between -1000 and 1000, and it is non-negative exactly when the
   * margin covers the distance, or when rounding brings it to zero.
   */
  lemma ScoreRange(distance: real, targetRadius: real, margin: real)
    requires targetRadius > 0.0 && margin >= 0.0 && distance >= 0.0
    ensures ScoreAtDistance(distance, targetRadius, margin).Ok?
    ensures -1000 <= ScoreAtDistance(distance, targetRadius, margin).value <= 1000
    ensures distance <= margin ==> ScoreAtDistance(distance, targetRadius, margin).value >= 0
    ensures distance > margin ==> ScoreAtDistance(distance, targetRadius, margin).value <= 0
  {
    if distance <= margin {
      ScoreContained(distance, targetRadius, margin);
    } else {
      ScoreNotContained(distance, targetRadius, margin);
    }
  }

  /** An estimate on the true centre with no margin treats exactly the target. */
  lemma ScorePerfect(targetRadius: real)
    requires targetRadius > 0.0
    ensures ScoreAtDistance(0.0, targetRadius, 0.0) == Ok(1000)
  {
    ScoreContained(0.0, targetRadius, 0.0);
    RoundHalfEvenUnique(1000.0, 1000);
  }

  /** An estimate so far off that the treatment misses the target scores -1000. */
  lemma ScoreMiss(distance: real, targetRadius: real, margin: real)
    requires targetRadius > 0.0 && margin >= 0.0
    requires distance >= 2.0 * targetRadius + margin
    ensures ScoreAtDistance(distance, targetRadius, margin) == Ok(-1000)
  {
    var vtr := SphereVolume(targetRadius + margin);
    SphereVolumeStrictlyIncreasing(0.0, targetRadius + margin);
    assert OverlapVolume(distance, targetRadius, targetRadius + margin) == 0.0;
    assert -1000.0 * ((vtr - 0.0) / vtr) == -1000.0;
    RoundHalfEvenUnique(-1000.0, -1000);
  }

  /**
   * The worked example of a hit with damage: target radius 10, margin 10,
   * the estimate 10 away; the treatment sphere holds eight times the
   * target volume, so the score is 1000 - 875.
   */
  lemma ScoreHitWithDamage()
    ensures ScoreAtDistance(10.0, 10.0, 10.0) == Ok(125)
  {
    ScoreContained(10.0, 10.0, 10.0);
    assert Cube(20.0) == 8.0 * Cube(10.0);
    assert SphereVolume(10.0) / SphereVolume(20.0) == 0.125;
    RoundHalfEvenUnique(125.0, 125);
  }

  /**
   * The perfect ablation, stated on centres: estimate and target coincide.
   * Only the root of 0 matters here.
   */
  lemma CalculateScorePerfect(sqrt: real -> real, centre: Point3)
    requires sqrt(0.0) == 0.0
    ensures CalculateScore(centre, centre, 10.0, 0.0, sqrt) == Ok(1000)
  {
    assert SqDist3(centre, centre) == 0.0;
    ScorePerfect(10.0);
  }

  /** The missed ablation, stated on centres 200 apart along x. */
  lemma CalculateScoreMiss(sqrt: real -> real)
    requires IsSqrt(sqrt)
    ensures CalculateScore(Point3(100.0, 20.0, 0.0), Point3(-100.0, 20.0, 0.0), 10.0, 0.0, sqrt) == Ok(-1000)
  {
    var d2 := SqDist3(Point3(-100.0, 20.0, 0.0), Point3(100.0, 20.0, 0.0));
    assert d2 == Sq(-200.0) + Sq(0.0) + Sq(0.0);
    assert d2 == Sq(200.0);
    SqrtOfSquare(sqrt, 200.0);
    ScoreMiss(200.0, 10.0, 0.0);
  }

  /** Coincident centres: the overlap is the smaller sphere, whichever comes first. */
  lemma OverlapExamples()
    ensures OverlapVolume(0.0, 8.0, 10.0) == SphereVolume(8.0)
    ensures OverlapVolume(0.0, 10.0, 8.0) == SphereVolume(8.0)
    ensures OverlapVolume(20.0 * 1.7320508, 10.0, 10.0) == 0.0
  {
  }

  /** On centres: with a real target and a non-negative margin, a score in [-1000, 1000]. */
  lemma CalculateScoreRange(targetCentre: Point3, estimatedCentre: Point3, targetRadius: real, margin: real,
                            sqrt: real -> real)
    requires IsSqrt(sqrt)
    requires targetRadius > 0.0 && margin >= 0.0
    ensures CalculateScore(targetCentre, estimatedCentre, targetRadius, margin, sqrt).Ok?
    ensures -1000 <= CalculateScore(targetCentre, estimatedCentre, targetRadius, margin, sqrt).value <= 1000
  {
    SqrtFacts(sqrt, SqDist3(estimatedCentre, targetCentre));
    ScoreRange(sqrt(SqDist3(estimatedCentre, targetCentre)), targetRadius, margin);
  }
}
