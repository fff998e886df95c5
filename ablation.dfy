/** The simulated ablation: a target, a treatment margin the player adjusts, and the score. */
module Ablation {
  import opened Outcomes
  import opened Vectors
  import opened Scores

  /** The step by which the player grows or shrinks the margin. */
  const MarginIncrement: real := 0.1

  /** The margin after one increase. */
  function Increased(margin: real): (r: real)
    ensures r > margin
  {
    margin + MarginIncrement
  }

  /** The margin after one decrease: one step smaller, but never below zero. */
  function Decreased(margin: real): (r: real)
    ensures r >= 0.0
    ensures margin >= 0.0 ==> r <= margin
    ensures r > 0.0 ==> r == margin - MarginIncrement
    ensures margin > MarginIncrement ==> r == margin - MarginIncrement
  {
    var m := margin - MarginIncrement;
    if m <= 0.0 then 0.0 else m
  }

  /** A decrease undoes an increase of a non-negative margin. */
  lemma DecreaseUndoesIncrease(margin: real)
    requires margin >= 0.0
    ensures Decreased(Increased(margin)) == margin
  {
  }

  /** Decreasing a margin smaller than one step, or zero, lands on zero and stays there. */
  lemma DecreaseFloorsAtZero(margin: real)
    requires margin <= MarginIncrement
    ensures Decreased(margin) == 0.0
    ensures Decreased(Decreased(margin)) == 0.0
  {
  }

  class Ablator {
    var margin: real
    var target: Option<Point3>
    var targetRadius: Option<real>
    var ready: bool

    /** Once ready, the target and its radius are known. */
    ghost predicate Valid()
      reads this
    {
      ready ==> target.Some? && targetRadius.Some?
    }

    constructor (margin: real)
      ensures Valid()
      ensures this.margin == margin
      ensures target == None && targetRadius == None && !ready
    {
      this.margin := margin;
      target := None;
      targetRadius := None;
      ready := false;
    }

    method Setup(target: Point3, targetRadius: real)
      modifies this
      ensures Valid()
      ensures this.target == Some(target) && this.targetRadius == Some(targetRadius)
      ensures ready && margin == old(margin)
    {
      this.target := Some(target);
      this.targetRadius := Some(targetRadius);
      ready := true;
    }

    /** Grows the margin by one step and returns it; before setup, changes nothing and returns 0. */
    method IncreaseMargin() returns (newMargin: real)
      modifies this
      ensures old(ready) ==> margin == Increased(old(margin)) && newMargin == margin
      ensures !old(ready) ==> margin == old(margin) && newMargin == 0.0
      ensures ready == old(ready) && target == old(target) && targetRadius == old(targetRadius)
    {
      if ready {
        margin := margin + MarginIncrement;
        return margin;
      }
      return 0.0;
    }

    /** Shrinks the margin by one step, floored at 0, and returns it; before setup, returns 0. */
    method DecreaseMargin() returns (newMargin: real)
      modifies this
      ensures old(ready) ==> margin == Decreased(old(margin)) && newMargin == margin
      ensures !old(ready) ==> margin == old(margin) && newMargin == 0.0
      ensures newMargin >= 0.0
      ensures ready == old(ready) && target == old(target) && targetRadius == old(targetRadius)
    {
      if ready {
        margin := margin - MarginIncrement;
        if margin <= 0.0 {
          margin := 0.0;
        }
        return margin;
      }
      return 0.0;
    }

    /**
     * Scores an ablation centred on the estimated target; no score before
     * setup. With a real target and a non-negative margin the score is
     * always defined and lies between -1000 and 1000.
     */
    method Ablate(estimatedTarget: Point3, sqrt: real -> real) returns (score: Option<Result<int>>)
      requires Valid()
      ensures !ready ==> score == None
      ensures ready ==> score == Some(CalculateScore(target.value, estimatedTarget, targetRadius.value, margin, sqrt))
      ensures ready && IsSqrt(sqrt) && targetRadius.value > 0.0 && margin >= 0.0 ==>
        score.Some? && score.value.Ok? && -1000 <= score.value.value <= 1000
    {
      if !ready {
        return None;
      }
      var result := CalculateScore(target.value, estimatedTarget, targetRadius.value, margin, sqrt);
      if IsSqrt(sqrt) && targetRadius.value > 0.0 && margin >= 0.0 {
        CalculateScoreRange(target.value, estimatedTarget, targetRadius.value, margin, sqrt);
      }
      return Some(result);
    }
  }
}
