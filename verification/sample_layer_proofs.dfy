/**
  Properties of the Sample layer model: the split round trip, the two forward
  modes, the gradient layout of backward and the collector discipline of
  `step_init` and repeated `forward` calls.
 */
module SampleLayerProofs {
  import opened Results
  import opened Tensors
  import opened Shapes
  import opened SampleLayer

  /** Splitting a concatenation at the first part's length gives back both parts. */
  lemma SplitJoinRoundTrip(variance: Tensor, mean: Tensor)
    ensures Split(variance + mean, |variance|) == (variance, mean)
  {
  }

  /** In evaluation mode the noise argument is never read. */
  lemma EvalForwardIgnoresNoise(l: Sample, x: Tensor, noise1: Tensor, noise2: Tensor)
    requires !l.isTraining && Rectangular(x)
    ensures Forward(l, x, noise1) == Forward(l, x, noise2)
  {
  }

  /** In evaluation mode a second call on the same input returns the same output and state. */
  lemma EvalForwardRepeatable(l: Sample, x: Tensor, noise1: Tensor, noise2: Tensor)
    requires !l.isTraining && Rectangular(x)
    ensures Forward(Forward(l, x, noise1).layer, x, noise2) == Forward(l, x, noise1)
  {
  }

  /**
    In training mode, on an input of the declared `2 * C` entries, output
    entry `(i, k)` is `mean + variance * noise` at the same position, with
    the mean read `C` entries further along the input than the variance.
   */
  lemma TrainingForwardSamples(l: Sample, x: Tensor, noise: Tensor)
    requires l.isTraining && Rectangular(x) && |x| == 2 * l.shapeOut.channels
    requires SameShape(noise, VarianceHalf(x, l.shapeOut.channels))
    ensures Forward(l, x, noise).y.Success?
    ensures |Forward(l, x, noise).y.value| == l.shapeOut.channels
    ensures forall i :: 0 <= i < l.shapeOut.channels ==>
              && |Forward(l, x, noise).y.value[i]| == |x[i]|
              && forall k :: 0 <= k < |x[i]| ==>
                   Forward(l, x, noise).y.value[i][k] == x[l.shapeOut.channels + i][k] + x[i][k] * noise[i][k]
  {
    var c := l.shapeOut.channels;
    var variance := x[..c];
    var mean := x[c..];
    assert Split(x, c) == (variance, mean);
    assert WidthsAgree(mean, variance) by {
      forall i, j | 0 <= i < |mean| && 0 <= j < |variance|
        ensures |mean[i]| == |variance[j]|
      {
        assert mean[i] == x[c + i];
      }
    }
    var y := Reparameterize(mean, variance, noise).value;
    assert Forward(l, x, noise).y == Success(y);
    forall i | 0 <= i < c
      ensures |y[i]| == |x[i]|
      ensures forall k :: 0 <= k < |x[i]| ==> y[i][k] == x[c + i][k] + x[i][k] * noise[i][k]
    {
      assert mean[i] == x[c + i] && variance[i] == x[i];
    }
  }

  /** With all-zero noise, training mode returns the mean half. */
  lemma ZeroNoiseGivesMean(l: Sample, x: Tensor, noise: Tensor)
    requires l.isTraining && Rectangular(x) && |x| == 2 * l.shapeOut.channels
    requires SameShape(noise, VarianceHalf(x, l.shapeOut.channels)) && IsZero(noise)
    ensures Forward(l, x, noise).y == Success(x[l.shapeOut.channels..])
  {
    var c := l.shapeOut.channels;
    TrainingForwardSamples(l, x, noise);
    var y := Forward(l, x, noise).y.value;
    assert |y| == |x[c..]|;
    forall i | 0 <= i < c
      ensures y[i] == x[c..][i]
    {
      assert |y[i]| == |x[i]| == |x[c + i]|;
      forall k | 0 <= k < |x[i]|
        ensures y[i][k] == x[c + i][k]
      {
        assert noise[i][k] == 0.0;
      }
      assert y[i] == x[c + i];
    }
    assert y == x[c..];
  }

  /** An input of the declared `2 * C` entries yields an output of the mean half's shape, in both modes. */
  lemma ForwardOutputShape(l: Sample, x: Tensor, noise: Tensor)
    requires Rectangular(x) && |x| == 2 * l.shapeOut.channels
    requires l.isTraining ==> SameShape(noise, VarianceHalf(x, l.shapeOut.channels))
    ensures Forward(l, x, noise).y.Success?
    ensures SameShape(Forward(l, x, noise).y.value, x[l.shapeOut.channels..])
  {
    if l.isTraining {
      TrainingForwardSamples(l, x, noise);
      var c := l.shapeOut.channels;
      var y := Forward(l, x, noise).y.value;
      forall i | 0 <= i < c
        ensures |y[i]| == |x[c..][i]|
      {
        assert |x[i]| == |x[c + i]|;
      }
    }
  }

  /**
    Helper for `CombinedGradientEntries`: the same layout stated per vector,
    `grad_y + kl_variance` in the first slot and `grad_y + mean` in the second.
   */
  lemma CombinedGradients(gradY: Tensor, variance: Tensor, mean: Tensor)
    requires BackwardDefined(gradY, Cache(variance, mean))
    requires |variance| == |gradY| && |mean| == |gradY|
    ensures CombineGradients(gradY, variance, mean).Some?
    ensures |CombineGradients(gradY, variance, mean).value| == 2 * |gradY|
    ensures forall i :: 0 <= i < |gradY| ==>
              && CombineGradients(gradY, variance, mean).value[i] == AddVec(gradY[i], KlVarianceGrad(variance)[i])
              && CombineGradients(gradY, variance, mean).value[|gradY| + i] == AddVec(gradY[i], mean[i])
  {
    var n := |gradY|;
    var gradMean := BroadcastAdd(gradY, mean).value;
    var gradVariance := BroadcastAdd(gradY, KlVarianceGrad(variance)).value;
    var gx := CombineGradients(gradY, variance, mean).value;
    assert gx == FitTo(gradVariance, n).value + FitTo(gradMean, n).value;
    forall i | 0 <= i < n
      ensures gx[i] == AddVec(gradY[i], KlVarianceGrad(variance)[i])
      ensures gx[n + i] == AddVec(gradY[i], mean[i])
    {
      assert gx[i] == FitTo(gradVariance, n).value[i] == Pick(gradVariance, i);
      assert gx[n + i] == FitTo(gradMean, n).value[i] == Pick(gradMean, i);
    }
  }

  /** The same, element by element: `grad_y + 0.5 - 0.5 / (variance + 1e-9)`, then `grad_y + mean`. */
  lemma CombinedGradientEntries(gradY: Tensor, variance: Tensor, mean: Tensor)
    requires BackwardDefined(gradY, Cache(variance, mean))
    requires |variance| == |gradY| && |mean| == |gradY|
    ensures CombineGradients(gradY, variance, mean).Some?
    ensures |CombineGradients(gradY, variance, mean).value| == 2 * |gradY|
    ensures forall i :: 0 <= i < |gradY| ==>
              && |CombineGradients(gradY, variance, mean).value[i]| == |gradY[i]|
              && |CombineGradients(gradY, variance, mean).value[|gradY| + i]| == |gradY[i]|
    ensures forall i, k :: 0 <= i < |gradY| && 0 <= k < |gradY[i]| ==>
              && CombineGradients(gradY, variance, mean).value[i][k]
                   == gradY[i][k] + (0.5 - 0.5 / (variance[i][k] + Eps))
              && CombineGradients(gradY, variance, mean).value[|gradY| + i][k] == gradY[i][k] + mean[i][k]
  {
    CombinedGradients(gradY, variance, mean);
  }

  /** `backward` with a gradient as long as each cached half: the formulas over the cached halves. */
  lemma BackwardGradientEntries(l: Sample, gradY: Tensor)
    requires l.cache.Some? && BackwardDefined(gradY, l.cache.value)
    requires |l.cache.value.variance| == |gradY| && |l.cache.value.mean| == |gradY|
    ensures Backward(l, gradY).Success?
    ensures |Backward(l, gradY).value| == 2 * |gradY|
    ensures forall i, k :: 0 <= i < |gradY| && 0 <= k < |gradY[i]| ==>
              && Backward(l, gradY).value[i][k]
                   == gradY[i][k] + (0.5 - 0.5 / (l.cache.value.variance[i][k] + Eps))
              && Backward(l, gradY).value[|gradY| + i][k] == gradY[i][k] + l.cache.value.mean[i][k]
  {
    var c := l.cache.value;
    CombinedGradientEntries(gradY, c.variance, c.mean);
    var gx := CombineGradients(gradY, c.variance, c.mean).value;
    assert Backward(l, gradY) == Success(gx);
  }

  /** `forward` caches the input cut after its first `C` entries. */
  lemma ForwardCachesHalves(l: Sample, x: Tensor, noise: Tensor)
    requires Rectangular(x)
    requires l.isTraining ==> SameShape(noise, VarianceHalf(x, l.shapeOut.channels))
    ensures Forward(l, x, noise).layer.cache
            == Some(Cache(x[..Min(l.shapeOut.channels, |x|)], x[Min(l.shapeOut.channels, |x|)..]))
  {
  }

  /**
    `backward` on a layer whose cache holds the two halves of an input `x` of
    `2 * C` entries, `C` being the length of the incoming gradient: `grad_x`
    has `x`'s shape, `grad_y + 0.5 - 0.5 / (x + 1e-9)` over the variance half
    and `grad_y + x` over the mean half.
   */
  lemma BackwardOnCachedInput(f: Sample, x: Tensor, gradY: Tensor)
    requires Rectangular(x) && |x| == 2 * |gradY| && WidthsAgree(gradY, x)
    requires f.cache == Some(Cache(x[..|gradY|], x[|gradY|..]))
    requires NoZeroShift(x[..|gradY|])
    ensures Backward(f, gradY).Success?
    ensures SameShape(Backward(f, gradY).value, x)
    ensures forall i, k :: 0 <= i < |gradY| && 0 <= k < |gradY[i]| ==>
              && Backward(f, gradY).value[i][k] == gradY[i][k] + (0.5 - 0.5 / (x[i][k] + Eps))
              && Backward(f, gradY).value[|gradY| + i][k] == gradY[i][k] + x[|gradY| + i][k]
  {
    var c := |gradY|;
    HalvesBackwardDefined(x, gradY);
    CombinedGradientEntries(gradY, x[..c], x[c..]);
    var gx := CombineGradients(gradY, x[..c], x[c..]).value;
    HalvesEntriesAreInputEntries(gx, x, gradY, x[..c], x[c..]);
    assert Backward(f, gradY) == Success(gx);
  }

  /** The halves of a rectangular input meet what `backward` needs of its cache. */
  lemma HalvesBackwardDefined(x: Tensor, gradY: Tensor)
    requires Rectangular(x) && |x| == 2 * |gradY| && WidthsAgree(gradY, x)
    requires NoZeroShift(x[..|gradY|])
    ensures BackwardDefined(gradY, Cache(x[..|gradY|], x[|gradY|..]))
  {
  }

  /** Restates entry formulas over the halves `x[..C]` and `x[C..]` as formulas over `x`. */
  lemma HalvesEntriesAreInputEntries(gx: Tensor, x: Tensor, gradY: Tensor, variance: Tensor, mean: Tensor)
    requires |x| == 2 * |gradY| && Rectangular(x) && WidthsAgree(gradY, x)
    requires variance == x[..|gradY|] && mean == x[|gradY|..]
    requires |gx| == 2 * |gradY| && NoZeroShift(variance)
    requires forall i :: 0 <= i < |gradY| ==> |gx[i]| == |gradY[i]| && |gx[|gradY| + i]| == |gradY[i]|
    requires forall i, k :: 0 <= i < |gradY| && 0 <= k < |gradY[i]| ==>
               && gx[i][k] == gradY[i][k] + (0.5 - 0.5 / (variance[i][k] + Eps))
               && gx[|gradY| + i][k] == gradY[i][k] + mean[i][k]
    ensures SameShape(gx, x)
    ensures forall i, k :: 0 <= i < |gradY| && 0 <= k < |gradY[i]| ==>
              && gx[i][k] == gradY[i][k] + (0.5 - 0.5 / (x[i][k] + Eps))
              && gx[|gradY| + i][k] == gradY[i][k] + x[|gradY| + i][k]
  {
    var c := |gradY|;
    forall i | 0 <= i < |gx|
      ensures |gx[i]| == |x[i]|
    {
      if i < c {
        assert |gx[i]| == |gradY[i]|;
      } else {
        assert |gx[c + (i - c)]| == |gradY[i - c]|;
      }
    }
    forall i, k | 0 <= i < c && 0 <= k < |gradY[i]|
      ensures gx[i][k] == gradY[i][k] + (0.5 - 0.5 / (x[i][k] + Eps))
      ensures gx[c + i][k] == gradY[i][k] + x[c + i][k]
    {
      assert variance[i] == x[i];
      assert mean[i] == x[c + i];
    }
  }

  /**
    `backward` after `forward` on an input of the declared shape: `grad_x`
    has the input's shape; its first `C` entries are
    `grad_y + 0.5 - 0.5 / (x_variance + 1e-9)` and its last `C` are
    `grad_y + x_mean`, with both halves read from that input.
   */
  lemma BackwardAfterForward(l: Sample, x: Tensor, noise: Tensor, gradY: Tensor)
    requires Rectangular(x) && |x| == 2 * l.shapeOut.channels
    requires l.isTraining ==> SameShape(noise, VarianceHalf(x, l.shapeOut.channels))
    requires |gradY| == l.shapeOut.channels && WidthsAgree(gradY, x)
    requires NoZeroShift(x[..l.shapeOut.channels])
    ensures Backward(Forward(l, x, noise).layer, gradY).Success?
    ensures SameShape(Backward(Forward(l, x, noise).layer, gradY).value, x)
    ensures forall i, k :: 0 <= i < |gradY| && 0 <= k < |gradY[i]| ==>
              && Backward(Forward(l, x, noise).layer, gradY).value[i][k]
                   == gradY[i][k] + (0.5 - 0.5 / (x[i][k] + Eps))
              && Backward(Forward(l, x, noise).layer, gradY).value[|gradY| + i][k]
                   == gradY[i][k] + x[|gradY| + i][k]
  {
    ForwardCachesHalves(l, x, noise);
    BackwardOnCachedInput(Forward(l, x, noise).layer, x, gradY);
  }

  /** With a zero mean half, the mean slot of `grad_x` is the incoming gradient unchanged. */
  lemma ZeroMeanPassesGradient(l: Sample, x: Tensor, noise: Tensor, gradY: Tensor)
    requires Rectangular(x) && |x| == 2 * l.shapeOut.channels
    requires l.isTraining ==> SameShape(noise, VarianceHalf(x, l.shapeOut.channels))
    requires |gradY| == l.shapeOut.channels && WidthsAgree(gradY, x)
    requires NoZeroShift(x[..l.shapeOut.channels]) && IsZero(x[l.shapeOut.channels..])
    ensures Backward(Forward(l, x, noise).layer, gradY).Success?
    ensures Backward(Forward(l, x, noise).layer, gradY).value[l.shapeOut.channels..] == gradY
  {
    BackwardAfterForward(l, x, noise, gradY);
    ZeroMeanSlot(Backward(Forward(l, x, noise).layer, gradY).value, x, gradY);
  }

  /** A mean slot computed as `grad_y + mean` over a zero mean is `grad_y`. */
  lemma ZeroMeanSlot(gx: Tensor, x: Tensor, gradY: Tensor)
    requires |x| == 2 * |gradY| && WidthsAgree(gradY, x) && SameShape(gx, x)
    requires IsZero(x[|gradY|..])
    requires forall i, k :: 0 <= i < |gradY| && 0 <= k < |gradY[i]| ==>
               gx[|gradY| + i][k] == gradY[i][k] + x[|gradY| + i][k]
    ensures gx[|gradY|..] == gradY
  {
    var c := |gradY|;
    forall i | 0 <= i < c
      ensures gx[c..][i] == gradY[i]
    {
      assert |gx[c + i]| == |x[c + i]| == |gradY[i]|;
      forall k | 0 <= k < |gradY[i]|
        ensures gx[c + i][k] == gradY[i][k]
      {
        assert x[c..][i][k] == 0.0;
      }
    }
  }

  /** Calling `step_init` twice with the same flag is the same as calling it once. */
  lemma StepInitIdempotent(l: Sample, isTraining: bool)
    ensures StepInit(StepInit(l, isTraining), isTraining) == StepInit(l, isTraining)
  {
  }

  /** The state after a sequence of `forward` calls and their outputs, or the first error raised. */
  datatype Run = Run(layer: Sample, ys: Result<seq<Tensor>, LayerError>)

  /** What every call of a run needs: rectangular inputs and, in training mode, noise of the variance half's shape. */
  predicate RunInputs(l: Sample, xs: seq<Tensor>, noises: seq<Tensor>) {
    && |noises| == |xs|
    && (forall k :: 0 <= k < |xs| ==> Rectangular(xs[k]))
    && (l.isTraining ==>
          forall k :: 0 <= k < |xs| ==> SameShape(noises[k], VarianceHalf(xs[k], l.shapeOut.channels)))
  }

  /** `forward` called on each input in turn, stopping at the first call that raises. */
  function ForwardRun(l: Sample, xs: seq<Tensor>, noises: seq<Tensor>): (r: Run)
    requires RunInputs(l, xs, noises)
    ensures r.layer.isTraining == l.isTraining && r.layer.shapeOut == l.shapeOut
    ensures r.ys.Success? ==> |r.ys.value| == |xs|
    ensures l.trainZ.None? ==> r.layer.trainZ.None?
    decreases |xs|
  {
    if |xs| == 0 then Run(l, Success([]))
    else
      var f := Forward(l, xs[0], noises[0]);
      match f.y
      case Failure(e) => Run(f.layer, Failure(e))
      case Success(y) =>
        assert RunInputs(f.layer, xs[1..], noises[1..]);
        var rest := ForwardRun(f.layer, xs[1..], noises[1..]);
        match rest.ys
        case Failure(e) => Run(rest.layer, Failure(e))
        case Success(ys) => Run(rest.layer, Success([y] + ys))
  }

  /** In training mode an attached collector ends a successful run holding what it held plus every output, in order. */
  lemma {:induction false} CollectorRecordsRun(l: Sample, xs: seq<Tensor>, noises: seq<Tensor>)
    requires RunInputs(l, xs, noises)
    requires l.isTraining && l.trainZ.Some?
    requires ForwardRun(l, xs, noises).ys.Success?
    ensures ForwardRun(l, xs, noises).layer.trainZ == Some(l.trainZ.value + ForwardRun(l, xs, noises).ys.value)
    decreases |xs|
  {
    if |xs| == 0 {
      assert l.trainZ.value + [] == l.trainZ.value;
    } else {
      var f := Forward(l, xs[0], noises[0]);
      var y := f.y.value;
      assert f.layer.trainZ == Some(l.trainZ.value + [y]);
      assert RunInputs(f.layer, xs[1..], noises[1..]);
      CollectorRecordsRun(f.layer, xs[1..], noises[1..]);
      var ys := ForwardRun(f.layer, xs[1..], noises[1..]).ys.value;
      assert (l.trainZ.value + [y]) + ys == l.trainZ.value + ([y] + ys);
    }
  }

  /** In evaluation mode no number of `forward` calls touches the collector. */
  lemma {:induction false} EvalRunLeavesCollector(l: Sample, xs: seq<Tensor>, noises: seq<Tensor>)
    requires RunInputs(l, xs, noises) && !l.isTraining
    ensures ForwardRun(l, xs, noises).layer.trainZ == l.trainZ
    decreases |xs|
  {
    if |xs| != 0 {
      var f := Forward(l, xs[0], noises[0]);
      assert RunInputs(f.layer, xs[1..], noises[1..]);
      EvalRunLeavesCollector(f.layer, xs[1..], noises[1..]);
    }
  }

  /**
    A training step: `step_init(True)` on a layer with a collector, then a
    successful run. The collector holds exactly that run's outputs, nothing
    from earlier steps.
   */
  lemma TrainingStepCollectsOnlyItsOutputs(l: Sample, xs: seq<Tensor>, noises: seq<Tensor>)
    requires l.trainZ.Some?
    requires RunInputs(StepInit(l, true), xs, noises)
    requires ForwardRun(StepInit(l, true), xs, noises).ys.Success?
    ensures ForwardRun(StepInit(l, true), xs, noises).layer.trainZ
            == Some(ForwardRun(StepInit(l, true), xs, noises).ys.value)
  {
    CollectorRecordsRun(StepInit(l, true), xs, noises);
    assert [] + ForwardRun(StepInit(l, true), xs, noises).ys.value
           == ForwardRun(StepInit(l, true), xs, noises).ys.value;
  }

  /** An evaluation step, `step_init(False)` then any run, leaves the collector as it was. */
  lemma EvaluationStepLeavesCollector(l: Sample, xs: seq<Tensor>, noises: seq<Tensor>)
    requires RunInputs(StepInit(l, false), xs, noises)
    ensures ForwardRun(StepInit(l, false), xs, noises).layer.trainZ == l.trainZ
  {
    EvalRunLeavesCollector(StepInit(l, false), xs, noises);
  }
}
