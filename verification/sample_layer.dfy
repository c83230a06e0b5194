/**
  The variational-autoencoder Sample layer. Its input holds, along the axis
  that `forward` slices, `2 * C` entries: a variance half (the first `C`) and
  a mean half (the rest). Training mode samples `mean + variance * noise`;
  evaluation mode returns the mean. `backward` adds the gradients of the KL
  penalty to the incoming gradient and lays them out as the forward split.

  Tensors are viewed along the sliced axis (see Tensors); the noise that the
  layer draws from a standard normal is an argument of `Forward`.
 */
module SampleLayer {
  import opened Results
  import opened Tensors
  import opened Shapes

  /** The constant added to the variance before dividing by it. */
  const Eps: real := 0.000000001

  /** What `forward` stores for `backward`: the two halves of its input. */
  datatype Cache = Cache(variance: Tensor, mean: Tensor)

  /**
    The layer's state: its declared shapes, the training flag, the optional
    collector `train_z` of sampled outputs, the cached halves and the last output.
   */
  datatype Sample = Sample(
    shapeIn: Shape,
    shapeOut: Shape,
    isTraining: bool,
    trainZ: Option<seq<Tensor>>,
    cache: Option<Cache>,
    y: Option<Tensor>)

  /** What the layer raises: a `backward` before any `forward`, or a numpy broadcast failure. */
  datatype LayerError = NotForwarded | BroadcastError

  /**
    The state after a `forward` call and what it returned or raised. The halves
    are cached before the sampling step, so a raising call still updates the cache.
   */
  datatype Forwarded = Forwarded(layer: Sample, y: Result<Tensor, LayerError>)

  /**
    A fresh layer for `shape_out`. The initial training flag is set by the
    layer base class, which is not part of this model, so it is an argument.
   */
  function New(shapeOut: Shape, isTraining: bool): (l: Sample)
    ensures l.shapeOut == shapeOut && ShapeLaw(l.shapeIn, shapeOut)
    ensures l.isTraining == isTraining
    ensures l.trainZ.None? && l.cache.None? && l.y.None?
  {
    Sample(InputShape(shapeOut), shapeOut, isTraining, None, None, None)
  }

  /**
    numpy's `x[:c]` and `x[c:]` along the sliced axis: the first `c` entries
    (all of them when there are fewer) and the rest. Nothing is lost.
   */
  function Split(x: Tensor, c: nat): (halves: (Tensor, Tensor))
    ensures halves.0 + halves.1 == x
    ensures |halves.0| == Min(c, |x|)
  {
    var k := Min(c, |x|);
    (x[..k], x[k..])
  }

  /** Appends a sampled output to an attached collector; an absent one stays absent. */
  function Collect(trainZ: Option<seq<Tensor>>, y: Tensor): (r: Option<seq<Tensor>>)
    ensures trainZ.None? ==> r.None?
    ensures trainZ.Some? ==> r.Some? && |r.value| == |trainZ.value| + 1
    ensures trainZ.Some? ==> r.value[..|trainZ.value|] == trainZ.value && r.value[|trainZ.value|] == y
  {
    match trainZ
    case None => None
    case Some(zs) => Some(zs + [y])
  }

  /** The halves `forward` splits `x` into, for a layer with `c` output channels. */
  function VarianceHalf(x: Tensor, c: nat): Tensor {
    Split(x, c).0
  }

  /**
    The layer's `forward(x)` with `noise` standing for the standard-normal draw
    of the variance half's shape (it is only read in training mode).
   */
  function Forward(l: Sample, x: Tensor, noise: Tensor): (r: Forwarded)
    requires Rectangular(x)
    requires l.isTraining ==> SameShape(noise, VarianceHalf(x, l.shapeOut.channels))
    // the mode and the declared shapes are left as they were
    ensures r.layer.isTraining == l.isTraining
    ensures r.layer.shapeIn == l.shapeIn && r.layer.shapeOut == l.shapeOut
    // the cache holds the input, cut after its first C entries
    ensures r.layer.cache.Some?
    ensures r.layer.cache.value.variance + r.layer.cache.value.mean == x
    ensures |r.layer.cache.value.variance| == Min(l.shapeOut.channels, |x|)
    // evaluation mode returns the mean half and leaves the collector alone
    ensures !l.isTraining ==> r.y == Success(x[Min(l.shapeOut.channels, |x|)..])
    ensures !l.isTraining ==> r.layer.trainZ == l.trainZ
    // training mode raises exactly when numpy cannot broadcast the two halves
    ensures r.y.Failure? <==>
              l.isTraining && !Broadcastable(|x| - Min(l.shapeOut.channels, |x|), Min(l.shapeOut.channels, |x|))
    ensures r.y.Failure? ==> r.y.error == BroadcastError && r.layer.trainZ == l.trainZ && r.layer.y == l.y
    ensures r.y.Success? ==> r.layer.y == Some(r.y.value)
    // a sampled output is appended to an attached collector and to no other
    ensures l.isTraining && r.y.Success? && l.trainZ.Some? ==>
              r.layer.trainZ == Some(l.trainZ.value + [r.y.value])
    ensures l.trainZ.None? ==> r.layer.trainZ.None?
  {
    var halves := Split(x, l.shapeOut.channels);
    var variance := halves.0;
    var mean := halves.1;
    var cached := l.(cache := Some(Cache(variance, mean)));
    if l.isTraining then
      assert WidthsAgree(mean, variance) by {
        forall i, j | 0 <= i < |mean| && 0 <= j < |variance|
          ensures |mean[i]| == |variance[j]|
        {
          assert mean[i] == x[|variance| + i];
          assert variance[j] == x[j];
        }
      }
      match Reparameterize(mean, variance, noise)
      case None => Forwarded(cached, Failure(BroadcastError))
      case Some(y) => Forwarded(cached.(y := Some(y), trainZ := Collect(l.trainZ, y)), Success(y))
    else
      Forwarded(cached.(y := Some(mean)), Success(mean))
  }

  /**
    The reparameterised sample `mean + variance * noise`, broadcasting along
    the sliced axis as numpy does; None where numpy raises.
   */
  function Reparameterize(mean: Tensor, variance: Tensor, noise: Tensor): (r: Option<Tensor>)
    requires SameShape(noise, variance) && WidthsAgree(mean, variance)
    ensures r.Some? <==> Broadcastable(|mean|, |variance|)
    ensures |mean| == |variance| ==>
              && r.Some?
              && |r.value| == |mean|
              && forall i :: 0 <= i < |mean| ==>
                   && |r.value[i]| == |mean[i]|
                   && forall k :: 0 <= k < |mean[i]| ==>
                        r.value[i][k] == mean[i][k] + variance[i][k] * noise[i][k]
  {
    var scaled := Mul(variance, noise);
    var r := BroadcastAdd(mean, scaled);
    if |mean| == |variance| then
      assert forall i :: 0 <= i < |mean| ==> r.value[i] == AddVec(mean[i], scaled[i]);
      r
    else
      r
  }

  /** The KL gradient of the variance half, `0.5 - 0.5 / (variance + 1e-9)`, elementwise. */
  function KlVarianceGrad(variance: Tensor): (g: Tensor)
    requires NoZeroShift(variance)
    ensures SameShape(g, variance)
    ensures forall i, k :: 0 <= i < |g| && 0 <= k < |g[i]| ==>
              g[i][k] == 0.5 - 0.5 / (variance[i][k] + Eps)
  {
    seq(|variance|, i requires 0 <= i < |variance| =>
      seq(|variance[i]|, k requires 0 <= k < |variance[i]| => 0.5 - 0.5 / (variance[i][k] + Eps)))
  }

  /** No variance entry is `-1e-9`, so the KL variance gradient is finite. */
  predicate NoZeroShift(variance: Tensor) {
    forall i, k :: 0 <= i < |variance| && 0 <= k < |variance[i]| ==> variance[i][k] + Eps != 0.0
  }

  /** What `backward` needs of the incoming gradient and the cached halves. */
  predicate BackwardDefined(gradY: Tensor, c: Cache) {
    && WidthsAgree(gradY, c.variance)
    && WidthsAgree(gradY, c.mean)
    && NoZeroShift(c.variance)
  }

  /**
    numpy accepts the sums `grad_y + kl_grad` and their assignment into the
    two slots of `grad_x` (of `v` and `m` entries) for an incoming gradient of `g` entries.
   */
  predicate BackwardShapesOk(g: nat, v: nat, m: nat) {
    && Broadcastable(g, m)
    && Broadcastable(g, v)
    && (BroadcastLen(g, v) == v || BroadcastLen(g, v) == 1)
    && (BroadcastLen(g, m) == m || BroadcastLen(g, m) == 1)
  }

  /**
    The two sums of `backward` laid out as `grad_x`: the variance slot (as long
    as the cached variance half) receives `grad_y + 0.5 - 0.5 / (variance + 1e-9)`,
    the mean slot `grad_y + mean`; None where numpy raises.
   */
  function CombineGradients(gradY: Tensor, variance: Tensor, mean: Tensor): (r: Option<Tensor>)
    requires BackwardDefined(gradY, Cache(variance, mean))
    ensures r.Some? <==> BackwardShapesOk(|gradY|, |variance|, |mean|)
    ensures r.Some? ==> |r.value| == |variance| + |mean|
  {
    var klVariance := KlVarianceGrad(variance);
    var gradMean := BroadcastAdd(gradY, mean);
    var gradVariance := BroadcastAdd(gradY, klVariance);
    if gradMean.None? || gradVariance.None? then None
    else
      var top := FitTo(gradVariance.value, |variance|);
      var bottom := FitTo(gradMean.value, |mean|);
      if top.None? || bottom.None? then None
      else Some(top.value + bottom.value)
  }

  /**
    The layer's `backward(grad_y)`: raises without a cached forward input;
    otherwise `grad_x` has the shape of that input and holds the combined
    gradients in the forward split's order.
   */
  function Backward(l: Sample, gradY: Tensor): (r: Result<Tensor, LayerError>)
    requires l.cache.Some? ==> BackwardDefined(gradY, l.cache.value)
    ensures l.cache.None? ==> r == Failure(NotForwarded)
    ensures l.cache.Some? ==>
              (r.Success? <==> BackwardShapesOk(|gradY|, |l.cache.value.variance|, |l.cache.value.mean|))
    ensures l.cache.Some? && r.Failure? ==> r.error == BroadcastError
    ensures r.Success? ==> |r.value| == |l.cache.value.variance| + |l.cache.value.mean|
  {
    match l.cache
    case None => Failure(NotForwarded)
    case Some(c) =>
      match CombineGradients(gradY, c.variance, c.mean)
      case None => Failure(BroadcastError)
      case Some(gradX) => Success(gradX)
  }

  /**
    The layer's `step_init(is_training)`: sets the mode, and empties the
    collector on every `step_init(True)` call while one is attached,
    even when the layer is already in training mode.
   */
  function StepInit(l: Sample, isTraining: bool): (r: Sample)
    ensures r.isTraining == isTraining
    ensures isTraining && l.trainZ.Some? ==> r.trainZ == Some([])
    ensures !isTraining || l.trainZ.None? ==> r.trainZ == l.trainZ
    ensures r.shapeIn == l.shapeIn && r.shapeOut == l.shapeOut && r.cache == l.cache && r.y == l.y
  {
    var r := l.(isTraining := isTraining);
    if isTraining && l.trainZ.Some? then r.(trainZ := Some([])) else r
  }
}
