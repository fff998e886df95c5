/**
 * The point-based registration wrapper: fit a rigid transform to paired
 * fiducials, move the target with it, and report the expected and the
 * actual errors.
 */
module PointBasedReg {
  import opened Reals
  import opened Outcomes
  import opened Vectors

  /** What the orthogonal Procrustes fit returns: R, t and the FRE. */
  datatype Fit = Fit(rotation: Mat3, translation: Point3, fre: real)

  /**
   * The library routines the wrapper calls but this model cannot see:
   * the Procrustes fit, the expected-TRE and expected-FRE estimators,
   * and the square root behind the Euclidean norm.
   */
  datatype Collaborators = Collaborators(
    procrustes: (seq<Point3>, seq<Point3>) -> Fit,
    treFromFle: (seq<Point3>, real, Point3) -> real,
    freFromFle: (seq<Point3>, real) -> real,
    sqrt: real -> real)

  /** The eight values `register` returns, in order. */
  datatype RegistrationResult = RegistrationResult(
    success: bool,
    fre: real,
    fixedFleEsv: real,
    expectedTreSquared: real,
    expectedFreSquared: real,
    transformedTarget: Point3,
    actualTre: real,
    noFids: nat)

  /**
   * What `register` computes: with three or more fiducials, the fit, the
   * two expected errors, the target moved by R and t, and the distance it
   * moved; otherwise a failure with zeros and the zero point.
   */
  function Registration(target: Point3, fixedFleEsv: real, fixedPoints: seq<Point3>, movingPoints: seq<Point3>,
                        c: Collaborators): RegistrationResult
  {
    var noFids := |fixedPoints|;
    if noFids > 2 then
      var fit := c.procrustes(fixedPoints, movingPoints);
      var expectedTreSquared := c.treFromFle(movingPoints, fixedFleEsv, target);
      var expectedFreSquared := c.freFromFle(movingPoints, fixedFleEsv);
      var transformedTarget := Add3(MatVec(fit.rotation, target), fit.translation);
      var actualTre := c.sqrt(SqDist3(transformedTarget, target));
      RegistrationResult(true, fit.fre, fixedFleEsv, expectedTreSquared, expectedFreSquared,
                         transformedTarget, actualTre, noFids)
    else
      RegistrationResult(false, 0.0, fixedFleEsv, 0.0, 0.0, Origin, 0.0, noFids)
  }

  /**
   * Success exactly when there are more than two fixed fiducials; the
   * count is that of the fixed points alone, and the fixed FLE value is
   * passed back unchanged.
   */
  lemma RegistrationOutcome(target: Point3, fixedFleEsv: real, fixedPoints: seq<Point3>, movingPoints: seq<Point3>,
                            c: Collaborators)
    ensures Registration(target, fixedFleEsv, fixedPoints, movingPoints, c).success <==> |fixedPoints| > 2
    ensures Registration(target, fixedFleEsv, fixedPoints, movingPoints, c).noFids == |fixedPoints|
    ensures Registration(target, fixedFleEsv, fixedPoints, movingPoints, c).fixedFleEsv == fixedFleEsv
  {
  }

  /** Too few fiducials: every measure is zero and the target is reported at the origin. */
  lemma RegistrationTooFewFiducials(target: Point3, fixedFleEsv: real, fixedPoints: seq<Point3>,
                                    movingPoints: seq<Point3>, c: Collaborators)
    requires |fixedPoints| <= 2
    ensures var r := Registration(target, fixedFleEsv, fixedPoints, movingPoints, c);
      !r.success && r.fre == 0.0 && r.expectedTreSquared == 0.0 && r.expectedFreSquared == 0.0 &&
      r.transformedTarget == Origin && r.actualTre == 0.0
  {
  }

  /** Enough fiducials: the target is moved by the fitted rotation and translation. */
  lemma RegistrationMovesTarget(target: Point3, fixedFleEsv: real, fixedPoints: seq<Point3>,
                                movingPoints: seq<Point3>, c: Collaborators)
    requires |fixedPoints| > 2
    ensures var r := Registration(target, fixedFleEsv, fixedPoints, movingPoints, c);
      var fit := c.procrustes(fixedPoints, movingPoints);
      r.success && r.fre == fit.fre &&
      r.transformedTarget == Add3(MatVec(fit.rotation, target), fit.translation)
  {
  }

  /**
   * The actual TRE is the distance the target moved: the root of the
   * squared distance, never negative, and zero exactly when the transform
   * leaves the target in place.
   */
  lemma ActualTreIsDistance(target: Point3, fixedFleEsv: real, fixedPoints: seq<Point3>,
                            movingPoints: seq<Point3>, c: Collaborators)
    requires |fixedPoints| > 2
    requires IsSqrt(c.sqrt)
    ensures var r := Registration(target, fixedFleEsv, fixedPoints, movingPoints, c);
      r.actualTre == c.sqrt(SqDist3(r.transformedTarget, target)) && r.actualTre >= 0.0 &&
      (r.actualTre == 0.0 <==> r.transformedTarget == target)
  {
    var r := Registration(target, fixedFleEsv, fixedPoints, movingPoints, c);
    SqrtFacts(c.sqrt, SqDist3(r.transformedTarget, target));
  }

  /** When the fit is a pure translation t, the actual TRE is the length of t. */
  lemma TranslationOnlyTre(target: Point3, fixedFleEsv: real, fixedPoints: seq<Point3>,
                           movingPoints: seq<Point3>, c: Collaborators)
    requires |fixedPoints| > 2
    requires c.procrustes(fixedPoints, movingPoints).rotation == Identity
    ensures var r := Registration(target, fixedFleEsv, fixedPoints, movingPoints, c);
      r.transformedTarget == Add3(target, c.procrustes(fixedPoints, movingPoints).translation) &&
      r.actualTre == c.sqrt(SqNorm3(c.procrustes(fixedPoints, movingPoints).translation))
  {
    var t := c.procrustes(fixedPoints, movingPoints).translation;
    IdentityFixes(target);
    assert Sub3(Add3(target, t), target) == t;
  }

  /**
   * The worked example: the pre-operative (moving) fiducials are shifted
   * 200 along x to give the intra-operative (fixed) ones, with no error.
   * The fit (I, (200, 0, 0), 0), which TranslationExampleFits shows maps every
   * moving fiducial exactly onto its fixed partner, moves the origin target
   * to (200, 0, 0) and gives an actual TRE of 200.
   */
  lemma TranslationExample(fixedFleEsv: real, fixedPoints: seq<Point3>, movingPoints: seq<Point3>, c: Collaborators)
    requires IsSqrt(c.sqrt)
    requires fixedPoints == [Point3(100.0, -100.0, 0.0), Point3(300.0, 50.0, 0.0), Point3(150.0, 100.0, 0.0)]
    requires movingPoints == [Point3(-100.0, -100.0, 0.0), Point3(100.0, 50.0, 0.0), Point3(-50.0, 100.0, 0.0)]
    requires c.procrustes(fixedPoints, movingPoints) == Fit(Identity, Point3(200.0, 0.0, 0.0), 0.0)
    ensures Registration(Origin, fixedFleEsv, fixedPoints, movingPoints, c).success
    ensures Registration(Origin, fixedFleEsv, fixedPoints, movingPoints, c).actualTre == 200.0
    ensures Registration(Origin, fixedFleEsv, fixedPoints, movingPoints, c).transformedTarget == Point3(200.0, 0.0, 0.0)
    ensures Registration(Origin, fixedFleEsv, fixedPoints, movingPoints, c).noFids == 3
  {
    TranslationExampleMoves(fixedFleEsv, fixedPoints, movingPoints, c);
    assert SqNorm3(Point3(200.0, 0.0, 0.0)) == Sq(200.0);
    SqrtOfSquare(c.sqrt, 200.0);
  }

  /** The example's fiducials: each intra-operative one is its pre-operative partner plus (200, 0, 0). */
  lemma TranslationExampleFits(fixedPoints: seq<Point3>, movingPoints: seq<Point3>)
    requires fixedPoints == [Point3(100.0, -100.0, 0.0), Point3(300.0, 50.0, 0.0), Point3(150.0, 100.0, 0.0)]
    requires movingPoints == [Point3(-100.0, -100.0, 0.0), Point3(100.0, 50.0, 0.0), Point3(-50.0, 100.0, 0.0)]
    ensures forall i :: 0 <= i < 3 ==>
      Add3(MatVec(Identity, movingPoints[i]), Point3(200.0, 0.0, 0.0)) == fixedPoints[i]
  {
    forall i | 0 <= i < 3
      ensures Add3(MatVec(Identity, movingPoints[i]), Point3(200.0, 0.0, 0.0)) == fixedPoints[i]
    {
      IdentityFixes(movingPoints[i]);
    }
  }

  lemma TranslationExampleMoves(fixedFleEsv: real, fixedPoints: seq<Point3>, movingPoints: seq<Point3>, c: Collaborators)
    requires |fixedPoints| == 3
    requires c.procrustes(fixedPoints, movingPoints) == Fit(Identity, Point3(200.0, 0.0, 0.0), 0.0)
    ensures Registration(Origin, fixedFleEsv, fixedPoints, movingPoints, c).success
    ensures Registration(Origin, fixedFleEsv, fixedPoints, movingPoints, c).actualTre
            == c.sqrt(SqNorm3(Point3(200.0, 0.0, 0.0)))
    ensures Registration(Origin, fixedFleEsv, fixedPoints, movingPoints, c).transformedTarget == Point3(200.0, 0.0, 0.0)
    ensures Registration(Origin, fixedFleEsv, fixedPoints, movingPoints, c).noFids == 3
  {
    TranslationOnlyTre(Origin, fixedFleEsv, fixedPoints, movingPoints, c);
  }

  class PointBasedRegistration {
    var target: Point3
    var fixedFleEsv: real
    var movingFleEsv: real
    /** The cached result of the last registration; None until `register` runs. */
    var transformedTarget: Option<Point3>

    /** The field assignments of `__init__`, once its check has passed. */
    constructor (target: Point3, fixedFleEsv: real, movingFleEsv: real)
      ensures this.target == target && this.fixedFleEsv == fixedFleEsv && this.movingFleEsv == movingFleEsv
      ensures transformedTarget == None
    {
      this.target := target;
      this.fixedFleEsv := fixedFleEsv;
      this.movingFleEsv := movingFleEsv;
      transformedTarget := None;
    }

    /** `__init__`: only a zero moving-side FLE is supported. */
    static method Create(target: Point3, fixedFleEsv: real, movingFleEsv: real)
      returns (r: Result<PointBasedRegistration>)
      ensures r.Err? <==> movingFleEsv != 0.0
      ensures r.Err? ==> r.error == NotImplementedError
      ensures r.Ok? ==> fresh(r.value) && r.value.target == target && r.value.fixedFleEsv == fixedFleEsv &&
                        r.value.movingFleEsv == movingFleEsv && r.value.transformedTarget == None
    {
      if movingFleEsv != 0.0 {
        return Err(NotImplementedError);
      }
      var reg := new PointBasedRegistration(target, fixedFleEsv, movingFleEsv);
      return Ok(reg);
    }

    /** Replaces the target and both FLE values, with no check, and forgets the last result. */
    method Reinit(target: Point3, fixedFleEsv: real, movingFleEsv: real)
      modifies this
      ensures this.target == target && this.fixedFleEsv == fixedFleEsv && this.movingFleEsv == movingFleEsv
      ensures transformedTarget == None
    {
      this.target := target;
      this.fixedFleEsv := fixedFleEsv;
      this.movingFleEsv := movingFleEsv;
      transformedTarget := None;
    }

    /**
     * `register`: returns the registration of the stored target and
     * caches its transformed target, whether or not the fit succeeded.
     */
    method Register(fixedPoints: seq<Point3>, movingPoints: seq<Point3>, c: Collaborators)
      returns (r: RegistrationResult)
      modifies this
      ensures r == Registration(target, fixedFleEsv, fixedPoints, movingPoints, c)
      ensures transformedTarget == Some(r.transformedTarget)
      ensures target == old(target) && fixedFleEsv == old(fixedFleEsv) && movingFleEsv == old(movingFleEsv)
    {
      var success := false;
      var fre := 0.0;
      var expectedTreSquared := 0.0;
      var expectedFreSquared := 0.0;
      var actualTre := 0.0;
      transformedTarget := Some(Origin);
      var noFids := |fixedPoints|;
      if noFids > 2 {
        var fit := c.procrustes(fixedPoints, movingPoints);
        fre := fit.fre;
        expectedTreSquared := c.treFromFle(movingPoints, fixedFleEsv, target);
        expectedFreSquared := c.freFromFle(movingPoints, fixedFleEsv);
        transformedTarget := Some(Add3(MatVec(fit.rotation, target), fit.translation));
        actualTre := c.sqrt(SqDist3(transformedTarget.value, target));
        success := true;
      }
      r := RegistrationResult(success, fre, fixedFleEsv, expectedTreSquared, expectedFreSquared,
                              transformedTarget.value, actualTre, noFids);
    }

    /** `get_transformed_target`: whether a registration has run since the last (re)initialisation, and its target. */
    function GetTransformedTarget(): (r: (bool, Option<Point3>))
      reads this
      ensures r.0 <==> transformedTarget.Some?
      ensures r.0 ==> r.1 == transformedTarget
      ensures !r.0 ==> r.1 == None
    {
      if transformedTarget.Some? then (true, transformedTarget) else (false, None)
    }
  }
}
