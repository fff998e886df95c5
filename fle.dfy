/**
 * Fiducial localisation error (FLE): error magnitudes, the samplers that
 * draw an error vector, and the perturbation of a marker position.
 */
module Fle {
  import opened Reals
  import opened Outcomes
  import opened Vectors

  /** A stream of standard-normal draws; each call of a sampler gets its own. */
  type Noise = nat -> real

  /** An FLE magnitude as the caller passes it: one number, or a numpy array. */
  datatype Magnitude = Scalar(value: real) | Array(values: seq<real>)

  /**
   * `_set_fle`: a scalar or a one-element array is broadcast to `dims`
   * entries, an array of length `dims` is kept as it is, and any other
   * array is a ValueError.
   */
  function SetFle(fle: Magnitude, dims: nat): (r: Result<seq<real>>)
    ensures r.Err? <==> fle.Array? && |fle.values| != 1 && |fle.values| != dims
    ensures r.Err? ==> r.error == ValueError
    ensures r.Ok? ==> |r.value| == dims
    ensures fle.Scalar? ==> r == Ok(Fill(dims, fle.value))
    ensures fle.Array? && |fle.values| == 1 ==> r == Ok(Fill(dims, fle.values[0]))
    ensures fle.Array? && |fle.values| == dims ==> r == Ok(fle.values)
  {
    match fle
    case Array(values) =>
      if |values| == 1 then
        assert dims == 1 ==> Fill(dims, values[0]) == values;
        Ok(Fill(dims, values[0]))
      else if |values| != dims then Err(ValueError)
      else Ok(values)
    case Scalar(value) => Ok(Fill(dims, value))
  }

  /** Setting an FLE that is already set changes nothing. */
  lemma SetFleIdempotent(fle: Magnitude, dims: nat)
    requires SetFle(fle, dims).Ok?
    ensures SetFle(Array(SetFle(fle, dims).value), dims) == SetFle(fle, dims)
  {
    if dims == 1 {
      var v := SetFle(fle, dims).value;
      assert Fill(1, v[0]) == v;
    }
  }

  /**
   * A sampler, called with no arguments, returns an error vector:
   * the default independent sampler draws zero-mean Gaussians with the
   * given per-axis scales, the default systematic sampler returns the
   * same stored vector every time, and a caller's own function may
   * return anything or raise.
   */
  datatype Sampler =
    | Gaussian(scale: seq<real>)
    | Constant(offset: seq<real>)
    | Custom(call: Noise -> Result<seq<real>>)

  /** One call of a sampler; numpy refuses a negative Gaussian scale. */
  function Sample(sampler: Sampler, noise: Noise): (r: Result<seq<real>>)
    ensures sampler.Gaussian? ==>
      (r.Err? <==> exists i :: 0 <= i < |sampler.scale| && sampler.scale[i] < 0.0)
    ensures sampler.Gaussian? && r.Ok? ==>
      |r.value| == |sampler.scale| &&
      forall i :: 0 <= i < |sampler.scale| ==> r.value[i] == Mul(sampler.scale[i], noise(i))
    ensures sampler.Constant? ==> r == Ok(sampler.offset)
  {
    match sampler
    case Gaussian(scale) =>
      if exists i :: 0 <= i < |scale| && scale[i] < 0.0 then Err(ValueError)
      else Ok(seq(|scale|, i requires 0 <= i < |scale| => Mul(scale[i], noise(i))))
    case Constant(offset) => Ok(offset)
    case Custom(call) => call(noise)
  }

  /** numpy's `+` on one-dimensional arrays: equal lengths, or one side of length 1. */
  function BroadcastAdd(a: seq<real>, b: seq<real>): (r: Result<seq<real>>)
    ensures r.Err? <==> |a| != |b| && |a| != 1 && |b| != 1
    ensures r.Ok? && |a| == |b| ==> r.value == AddSeq(a, b)
    ensures r.Ok? && |b| == 1 ==> r.value == AddSeq(a, Fill(|a|, b[0]))
    ensures r.Ok? && |a| == 1 ==> r.value == AddSeq(Fill(|b|, a[0]), b)
  {
    if |a| == |b| then Ok(AddSeq(a, b))
    else if |b| == 1 then Ok(AddSeq(a, Fill(|a|, b[0])))
    else if |a| == 1 then Ok(AddSeq(Fill(|b|, a[0]), b))
    else Err(ValueError)
  }

  /** An FLE model: the two samplers the constructor settled on. */
  datatype FLE = FLE(indFleFunction: Sampler, sysFleFunction: Sampler)

  /** The independent sampler the constructor chooses, before it is tried. */
  function IndependentSampler(independentFle: Option<Magnitude>, indFleFunction: Option<Noise -> Result<seq<real>>>,
                              dimension: nat): (r: Result<Sampler>)
    ensures indFleFunction.Some? && independentFle.Some? ==> r == Err(ValueError)
    ensures indFleFunction.Some? && independentFle.None? ==> r == Ok(Custom(indFleFunction.value))
    ensures indFleFunction.None? && independentFle.None? ==> r == Ok(Gaussian(Fill(dimension, 0.0)))
    ensures indFleFunction.None? && independentFle.Some? ==>
      (r.Ok? <==> SetFle(independentFle.value, dimension).Ok?) &&
      (r.Ok? ==> r.value == Gaussian(SetFle(independentFle.value, dimension).value)) &&
      (r.Err? ==> r.error == ValueError)
  {
    if indFleFunction.None? then
      var magnitude := if independentFle.None? then Scalar(0.0) else independentFle.value;
      var indFle :- SetFle(magnitude, dimension);
      Ok(Gaussian(indFle))
    else if independentFle.Some? then Err(ValueError)
    else Ok(Custom(indFleFunction.value))
  }

  /** The systematic sampler the constructor chooses, before it is tried. */
  function SystematicSampler(systematicFle: Option<Magnitude>, sysFleFunction: Option<Noise -> Result<seq<real>>>,
                             dimension: nat): (r: Result<Sampler>)
    ensures sysFleFunction.Some? && systematicFle.Some? ==> r == Err(ValueError)
    ensures sysFleFunction.Some? && systematicFle.None? ==> r == Ok(Custom(sysFleFunction.value))
    ensures sysFleFunction.None? && systematicFle.None? ==> r == Ok(Constant(Fill(dimension, 0.0)))
    ensures sysFleFunction.None? && systematicFle.Some? ==>
      (r.Ok? <==> SetFle(systematicFle.value, dimension).Ok?) &&
      (r.Ok? ==> r.value == Constant(SetFle(systematicFle.value, dimension).value)) &&
      (r.Err? ==> r.error == ValueError)
  {
    if sysFleFunction.None? then
      var magnitude := if systematicFle.None? then Scalar(0.0) else systematicFle.value;
      var sysFle :- SetFle(magnitude, dimension);
      Ok(Constant(sysFle))
    else if systematicFle.Some? then Err(ValueError)
    else Ok(Custom(sysFleFunction.value))
  }

  /**
   * `FLE.__init__`: choose the independent sampler and call it once, then
   * choose the systematic sampler and call it once; the first failure is
   * the constructor's error (a TypeError from a sampler stays a TypeError,
   * any other error passes through). `indProbe` and `sysProbe` are the
   * draws those two trial calls consume.
   */
  function NewFle(independentFle: Option<Magnitude>, indFleFunction: Option<Noise -> Result<seq<real>>>,
                  systematicFle: Option<Magnitude>, sysFleFunction: Option<Noise -> Result<seq<real>>>,
                  dimension: nat, indProbe: Noise, sysProbe: Noise): (r: Result<FLE>)
    ensures var ind := IndependentSampler(independentFle, indFleFunction, dimension);
            var sys := SystematicSampler(systematicFle, sysFleFunction, dimension);
            r.Ok? <==> ind.Ok? && Sample(ind.value, indProbe).Ok? && sys.Ok? && Sample(sys.value, sysProbe).Ok?
    ensures r.Ok? ==> IndependentSampler(independentFle, indFleFunction, dimension) == Ok(r.value.indFleFunction)
    ensures r.Ok? ==> SystematicSampler(systematicFle, sysFleFunction, dimension) == Ok(r.value.sysFleFunction)
    ensures var ind := IndependentSampler(independentFle, indFleFunction, dimension);
            ind.Err? ==> r == Err(ind.error)
    ensures var ind := IndependentSampler(independentFle, indFleFunction, dimension);
            ind.Ok? && Sample(ind.value, indProbe).Err? ==> r == Err(Sample(ind.value, indProbe).error)
    ensures var ind := IndependentSampler(independentFle, indFleFunction, dimension);
            var sys := SystematicSampler(systematicFle, sysFleFunction, dimension);
            ind.Ok? && Sample(ind.value, indProbe).Ok? && sys.Err? ==> r == Err(sys.error)
    ensures var ind := IndependentSampler(independentFle, indFleFunction, dimension);
            var sys := SystematicSampler(systematicFle, sysFleFunction, dimension);
            ind.Ok? && Sample(ind.value, indProbe).Ok? && sys.Ok? && Sample(sys.value, sysProbe).Err? ==>
              r == Err(Sample(sys.value, sysProbe).error)
  {
    var ind :- IndependentSampler(independentFle, indFleFunction, dimension);
    var _ :- Sample(ind, indProbe);
    var sys :- SystematicSampler(systematicFle, sysFleFunction, dimension);
    var _ :- Sample(sys, sysProbe);
    Ok(FLE(ind, sys))
  }

  /**
   * With both default samplers, the constructor succeeds exactly when each
   * magnitude has one entry or `dimension` entries and no independent
   * magnitude is negative; otherwise it raises ValueError.
   */
  lemma DefaultSamplersBuild(independentFle: Magnitude, systematicFle: Magnitude, dimension: nat,
                             indProbe: Noise, sysProbe: Noise)
    ensures var r := NewFle(Some(independentFle), None, Some(systematicFle), None, dimension, indProbe, sysProbe);
      (r.Ok? <==> SetFle(independentFle, dimension).Ok? && SetFle(systematicFle, dimension).Ok? &&
                  forall i :: 0 <= i < dimension ==> SetFle(independentFle, dimension).value[i] >= 0.0) &&
      (r.Err? ==> r.error == ValueError)
  {
    var ind := SetFle(independentFle, dimension);
    if ind.Ok? {
      assert Sample(Gaussian(ind.value), indProbe).Ok? <==>
             forall i :: 0 <= i < dimension ==> ind.value[i] >= 0.0;
    }
  }

  /**
   * `perturb_fiducial`: marker + sys() + ind(), evaluated left to right, so
   * the systematic sample is drawn and added before the independent one.
   */
  function Perturb(fle: FLE, marker: seq<real>, sysNoise: Noise, indNoise: Noise): (r: Result<seq<real>>)
    ensures Sample(fle.sysFleFunction, sysNoise).Err? ==> r == Sample(fle.sysFleFunction, sysNoise).PropagateFailure()
  {
    var sys :- Sample(fle.sysFleFunction, sysNoise);
    var moved :- BroadcastAdd(marker, sys);
    var ind :- Sample(fle.indFleFunction, indNoise);
    BroadcastAdd(moved, ind)
  }

  /**
   * When both samples have the marker's length, each coordinate moves by
   * exactly the systematic plus the independent error.
   */
  lemma PerturbAddsErrors(fle: FLE, marker: seq<real>, sysNoise: Noise, indNoise: Noise)
    requires Sample(fle.sysFleFunction, sysNoise).Ok? && |Sample(fle.sysFleFunction, sysNoise).value| == |marker|
    requires Sample(fle.indFleFunction, indNoise).Ok? && |Sample(fle.indFleFunction, indNoise).value| == |marker|
    ensures Perturb(fle, marker, sysNoise, indNoise).Ok?
    ensures |Perturb(fle, marker, sysNoise, indNoise).value| == |marker|
    ensures forall i :: 0 <= i < |marker| ==>
      Perturb(fle, marker, sysNoise, indNoise).value[i]
        == marker[i] + Sample(fle.sysFleFunction, sysNoise).value[i] + Sample(fle.indFleFunction, indNoise).value[i]
  {
  }

  /** With every argument defaulted, the FLE is zero: markers do not move. */
  lemma DefaultFleIsIdentity(dimension: nat, marker: seq<real>, indProbe: Noise, sysProbe: Noise,
                             sysNoise: Noise, indNoise: Noise)
    requires |marker| == dimension
    ensures NewFle(None, None, None, None, dimension, indProbe, sysProbe).Ok?
    ensures Perturb(NewFle(None, None, None, None, dimension, indProbe, sysProbe).value, marker, sysNoise, indNoise)
            == Ok(marker)
  {
    var fle := NewFle(None, None, None, None, dimension, indProbe, sysProbe).value;
    assert fle.indFleFunction == Gaussian(Fill(dimension, 0.0));
    var ind := Sample(fle.indFleFunction, indNoise).value;
    forall i | 0 <= i < dimension
      ensures ind[i] == 0.0
    {
      assert ind[i] == Mul(0.0, indNoise(i));
    }
    PerturbAddsErrors(fle, marker, sysNoise, indNoise);
    var moved := Perturb(fle, marker, sysNoise, indNoise).value;
    assert forall i :: 0 <= i < dimension ==> moved[i] == marker[i];
    assert moved == marker;
  }

  /**
   * A systematic-only FLE (no independent error) shifts every marker by
   * the same stored offset, whatever the draws.
   */
  lemma SystematicOnlyShiftsByOffset(offset: seq<real>, marker: seq<real>, indProbe: Noise, sysProbe: Noise,
                                     sysNoise: Noise, indNoise: Noise)
    requires |marker| == |offset|
    ensures NewFle(None, None, Some(Array(offset)), None, |offset|, indProbe, sysProbe).Ok?
    ensures Perturb(NewFle(None, None, Some(Array(offset)), None, |offset|, indProbe, sysProbe).value,
                    marker, sysNoise, indNoise)
            == Ok(AddSeq(marker, offset))
  {
    var fle := NewFle(None, None, Some(Array(offset)), None, |offset|, indProbe, sysProbe).value;
    assert fle.sysFleFunction == Constant(offset) by {
      if |offset| == 1 {
        assert Fill(1, offset[0]) == offset;
      }
    }
    var ind := Sample(fle.indFleFunction, indNoise).value;
    forall i | 0 <= i < |offset|
      ensures ind[i] == 0.0
    {
      assert ind[i] == Mul(0.0, indNoise(i));
    }
    PerturbAddsErrors(fle, marker, sysNoise, indNoise);
    var moved := Perturb(fle, marker, sysNoise, indNoise).value;
    assert forall i :: 0 <= i < |offset| ==> moved[i] == marker[i] + offset[i];
    assert moved == AddSeq(marker, offset);
  }

  /** Giving both a magnitude and a sampler function, on either side, is a ValueError. */
  lemma ConflictingArgumentsRejected(f: Noise -> Result<seq<real>>, g: Noise -> Result<seq<real>>,
                                     indProbe: Noise, sysProbe: Noise)
    requires forall n :: f(n) == Ok([2.0, 2.0])
    ensures NewFle(Some(Scalar(1.0)), None, Some(Scalar(1.0)), Some(f), 2, indProbe, sysProbe) == Err(ValueError)
    ensures NewFle(Some(Scalar(1.0)), Some(g), Some(Scalar(1.0)), Some(f), 2, indProbe, sysProbe) == Err(ValueError)
  {
    assert Sample(Gaussian(Fill(2, 1.0)), indProbe).Ok?;
  }

  /** A systematic array of the wrong length is a ValueError. */
  lemma WrongLengthRejected(indProbe: Noise, sysProbe: Noise)
    ensures NewFle(Some(Scalar(1.0)), None, Some(Array([2.0, 2.0, 2.0])), None, 2, indProbe, sysProbe)
            == Err(ValueError)
  {
    assert Sample(Gaussian(Fill(2, 1.0)), indProbe).Ok?;
  }

  /** A sampler that raises TypeError when called makes the constructor raise TypeError. */
  lemma FailingSamplerRejected(bad: Noise -> Result<seq<real>>, indProbe: Noise, sysProbe: Noise)
    requires forall n :: bad(n) == Err(TypeError)
    ensures NewFle(Some(Scalar(1.0)), None, None, Some(bad), 2, indProbe, sysProbe) == Err(TypeError)
    ensures NewFle(None, Some(bad), None, Some(bad), 2, indProbe, sysProbe) == Err(TypeError)
  {
    assert Sample(Gaussian(Fill(2, 1.0)), indProbe).Ok?;
  }

  /** A negative independent magnitude fails the constructor's trial draw. */
  lemma NegativeMagnitudeRejected(dimension: nat, indProbe: Noise, sysProbe: Noise)
    requires dimension > 0
    ensures NewFle(Some(Scalar(-1.0)), None, None, None, dimension, indProbe, sysProbe) == Err(ValueError)
  {
    assert Fill(dimension, -1.0)[0] < 0.0;
  }

  /** A caller's own independent sampler returning [2, 2] moves [1, 0] to [3, 2]. */
  lemma CustomSamplerExample(f: Noise -> Result<seq<real>>, indProbe: Noise, sysProbe: Noise,
                             sysNoise: Noise, indNoise: Noise)
    requires forall n :: f(n) == Ok([2.0, 2.0])
    ensures NewFle(None, Some(f), None, None, 2, indProbe, sysProbe).Ok?
    ensures Perturb(NewFle(None, Some(f), None, None, 2, indProbe, sysProbe).value, [1.0, 0.0], sysNoise, indNoise)
            == Ok([3.0, 2.0])
  {
    var fle := NewFle(None, Some(f), None, None, 2, indProbe, sysProbe).value;
    assert fle.sysFleFunction == Constant(Fill(2, 0.0));
    PerturbAddsErrors(fle, [1.0, 0.0], sysNoise, indNoise);
    var moved := Perturb(fle, [1.0, 0.0], sysNoise, indNoise).value;
    assert moved[0] == 3.0 && moved[1] == 2.0;
    assert moved == [3.0, 2.0];
  }

  /**
   * A one-element systematic array is broadcast: with systematic [2] and
   * independent scales [2, 1] in two dimensions, [1, 0] moves to
   * [3 + 2 n0, 2 + n1] for standard-normal draws n0, n1.
   */
  lemma BroadcastSystematicExample(indProbe: Noise, sysProbe: Noise, sysNoise: Noise, indNoise: Noise)
    ensures NewFle(Some(Array([2.0, 1.0])), None, Some(Array([2.0])), None, 2, indProbe, sysProbe).Ok?
    ensures Perturb(NewFle(Some(Array([2.0, 1.0])), None, Some(Array([2.0])), None, 2, indProbe, sysProbe).value,
                    [1.0, 0.0], sysNoise, indNoise)
            == Ok([3.0 + 2.0 * indNoise(0), 2.0 + indNoise(1)])
  {
    var fle := NewFle(Some(Array([2.0, 1.0])), None, Some(Array([2.0])), None, 2, indProbe, sysProbe).value;
    assert fle.sysFleFunction == Constant(Fill(2, 2.0));
    assert fle.indFleFunction == Gaussian([2.0, 1.0]);
    PerturbAddsErrors(fle, [1.0, 0.0], sysNoise, indNoise);
    var moved := Perturb(fle, [1.0, 0.0], sysNoise, indNoise).value;
    assert moved[0] == 3.0 + 2.0 * indNoise(0) && moved[1] == 2.0 + indNoise(1);
    assert moved == [3.0 + 2.0 * indNoise(0), 2.0 + indNoise(1)];
  }
}
