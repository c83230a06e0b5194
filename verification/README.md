# Sample layer of numpy-neural-network, modelled in Dafny

This project models the variational-autoencoder `Sample` layer of the
numpy-neural-network engine (`numpy_neural_network/sample_layer.py`).

- **Shape law.** The layer is built from `shape_out = (H, W, C)`. Its input shape is `(H, W, 2C)`.
- **Forward.** `forward(x)` cuts `x` along its sliced axis into a variance half (the first `C`
  entries) and a mean half (the rest) and caches both.
  - In training mode it returns `mean + variance * noise` and appends that sample to the
    optional collector `train_z`.
  - In evaluation mode it returns the mean half.
- **Backward.** `backward(grad_y)` adds the KL-penalty gradients to the incoming gradient:
  `mean` for the mean half and `0.5 - 0.5 / (variance + 1e-9)` for the variance half.
  It writes the two sums into `grad_x` in the forward split's order.
- **Mode switch.** `step_init(is_training)` sets the mode. On every `step_init(True)` call while a
  collector is attached, it empties the collector, even when the layer is already in training mode.

Modules:

- `Results`: `Option` and `Result`.
- `Tensors`: an array viewed along one axis, as a `seq<seq<real>>`. The outer sequence
  indexes the sliced axis. Each inner vector holds all other axes, flattened. The module also
  has numpy's broadcasting rule for that axis: two lengths are compatible when they are equal
  or one of them is 1.
- `Shapes`: declared layer shapes, the shape law, and the array shapes produced by the slicing
  in `forward`/`backward`. The finding below lives here.
- `SampleLayer`: the layer state record and the pure functions `New`, `Split`, `Forward`,
  `Backward` and `StepInit`.
- `SampleLayerProofs`: lemmas that relate these operations to each other.

Numbers are Dafny `real`s. The noise that the source draws with `np.random.normal` is an
explicit `noise` argument of `Forward`, with the variance half's shape. A `forward` call that
raises still leaves the new cache behind, because the slicing lines run before the sampling
line. `Forward` therefore returns the new state together with a `Result`. The
attribute `self.y` is kept in the state as the last output.

The model follows the code where a stricter contract could be imagined:

- A second `forward` without an intervening `backward` overwrites the cache.
- Two `backward` calls after one `forward` both read the same cache.
- Only a `backward` before any `forward` is an error, because the cached halves are still `None`.
- `step_init(False)` never touches the collector. `step_init(True)` empties it whenever one is
  attached; it never attaches one.

## Model

| member | source | states |
|---|---|---|
| Shapes.InputShape | numpy_neural_network/sample_layer.py:11 | the derived input shape keeps height and width of `shape_out` and has twice its channels |
| Shapes.InputShapeUnique | numpy_neural_network/sample_layer.py:11 | a shape satisfies the shape law for `shape_out` if and only if it is the derived input shape |
| SampleLayer.New | numpy_neural_network/sample_layer.py:9-18 | a new layer keeps `shape_out`, has an input shape satisfying the shape law, and has no cache, no output and no collector |
| SampleLayer.Split | numpy_neural_network/sample_layer.py:22-23 | the split is lossless: variance half followed by mean half is the input, and the variance half holds the first `min(C, len)` entries |
| SampleLayerProofs.SplitJoinRoundTrip | numpy_neural_network/sample_layer.py:22-23 | splitting a concatenation at the first part's length gives back both parts, so the split is the inverse of concatenation |
| SampleLayer.Collect | numpy_neural_network/sample_layer.py:30-31 | an attached collector grows by exactly one entry, which is the new sample; an absent collector stays absent |
| Tensors.BroadcastAdd | numpy_neural_network/sample_layer.py:28 | `a + b` succeeds exactly when the lengths along the sliced axis are broadcastable; each result entry is the sum of the matching entries, where an entry of length 1 is repeated |
| SampleLayer.Forward | numpy_neural_network/sample_layer.py:20-36 | caches the input's two halves; evaluation mode returns the mean half and leaves the collector alone; training mode raises exactly when the halves cannot be broadcast; the collector grows by the returned sample only in training mode with a collector attached; mode and shapes are kept |
| SampleLayer.Reparameterize | numpy_neural_network/sample_layer.py:28 | `mean + variance * noise` exists exactly when the two halves broadcast; for halves of equal length it is `mean + variance * noise` entry by entry |
| SampleLayerProofs.TrainingForwardSamples | numpy_neural_network/sample_layer.py:22-28 | in training mode, on an input of `2C` entries, the output has `C` entries and each element is `x_mean + x_variance * noise` at the same position |
| SampleLayerProofs.ForwardCachesHalves | numpy_neural_network/sample_layer.py:22-23 | after `forward` the cache holds `x[..C]` as variance and `x[C..]` as mean |
| SampleLayerProofs.EvalForwardIgnoresNoise | numpy_neural_network/sample_layer.py:32-34 | in evaluation mode the result does not depend on the noise |
| SampleLayerProofs.EvalForwardRepeatable | numpy_neural_network/sample_layer.py:32-34 | in evaluation mode a second call on the same input gives the same output and the same state |
| SampleLayerProofs.ZeroNoiseGivesMean | numpy_neural_network/sample_layer.py:25-28 | in training mode with all-zero noise the output is the mean half |
| SampleLayerProofs.ForwardOutputShape | numpy_neural_network/sample_layer.py:22-34 | an input of `2C` entries gives, in both modes, an output with the mean half's shape |
| SampleLayer.KlVarianceGrad | numpy_neural_network/sample_layer.py:43-44 | the KL variance gradient has the variance half's shape, and each entry is `0.5 - 0.5 / (v + 1e-9)` |
| Tensors.FitTo | numpy_neural_network/sample_layer.py:50-51 | a slice assignment into a slot of `n` entries succeeds exactly when the value has `n` entries or one entry, and fills the slot entry by entry |
| SampleLayer.CombineGradients | numpy_neural_network/sample_layer.py:44-51 | the combined gradient exists exactly when numpy accepts the two sums and the two slot assignments, and then it has as many entries as the cached input |
| SampleLayer.Backward | numpy_neural_network/sample_layer.py:38-53 | raises `NotForwarded` with no cache; otherwise succeeds exactly when numpy accepts the sums and the slot assignments, and then `grad_x` has as many entries as the cached input |
| SampleLayerProofs.CombinedGradientEntries | numpy_neural_network/sample_layer.py:41-51 | with a gradient as long as each half, element by element: `grad_y + 0.5 - 0.5/(variance + 1e-9)` in the first `C` entries, `grad_y + mean` in the last `C` |
| SampleLayerProofs.BackwardGradientEntries | numpy_neural_network/sample_layer.py:38-53 | `backward` on a layer with a cache succeeds with those formulas over the cached variance and mean |
| SampleLayerProofs.HalvesBackwardDefined | numpy_neural_network/sample_layer.py:22-23 | the halves of a rectangular input meet what `backward` needs of its cache |
| SampleLayerProofs.HalvesEntriesAreInputEntries | numpy_neural_network/sample_layer.py:50-51 | formulas over the cached halves restate as formulas over the input at the same positions, and `grad_x` has the input's shape |
| SampleLayerProofs.BackwardOnCachedInput | numpy_neural_network/sample_layer.py:38-53 | on a cache holding the halves of `x`, `grad_x` has `x`'s shape, with `grad_y + 0.5 - 0.5/(x + 1e-9)` in the first `C` entries and `grad_y + x` in the last `C` |
| SampleLayerProofs.BackwardAfterForward | numpy_neural_network/sample_layer.py:20-53 | `backward` reads the halves cached by the most recent `forward`: `grad_x` has the input's shape, the variance-half formula in its first `C` entries and the mean-half formula in its last `C` |
| SampleLayerProofs.ZeroMeanSlot | numpy_neural_network/sample_layer.py:47-51 | a mean slot computed as `grad_y + mean` over a zero mean equals `grad_y` |
| SampleLayerProofs.ZeroMeanPassesGradient | numpy_neural_network/sample_layer.py:41-51 | after a forward whose mean half is zero, the mean part of `grad_x` is `grad_y` unchanged |
| SampleLayer.StepInit | numpy_neural_network/sample_layer.py:55-62 | sets the mode; empties the collector on every `step_init(True)` call while one is attached (already in training mode or not), and otherwise keeps it; nothing else changes |
| SampleLayerProofs.StepInitIdempotent | numpy_neural_network/sample_layer.py:59-62 | calling `step_init` twice with the same flag equals calling it once |
| SampleLayerProofs.CollectorRecordsRun | numpy_neural_network/sample_layer.py:25-31 | over successful training-mode `forward` calls, an attached collector ends up as its old contents followed by every output, in order |
| SampleLayerProofs.EvalRunLeavesCollector | numpy_neural_network/sample_layer.py:32-34 | in evaluation mode, any number of `forward` calls leaves the collector as it was |
| SampleLayerProofs.TrainingStepCollectsOnlyItsOutputs | numpy_neural_network/sample_layer.py:25-62 | after `step_init(True)` and a successful run, the collector holds exactly that run's outputs and nothing from earlier steps |
| SampleLayerProofs.EvaluationStepLeavesCollector | numpy_neural_network/sample_layer.py:55-62 | after `step_init(False)` and any run, the collector is as it was before `step_init` |
| Shapes.SplitShapesAsWritten | numpy_neural_network/sample_layer.py:22-23 | the shapes of `x[:,:,:C]` and `x[:,:,C:]` (the same slices index `grad_x` at lines 50-51): numpy raises for fewer than three axes; otherwise only axis 2 changes, cut into `min(C, len)` and the rest, and every other axis keeps its length |
| Shapes.SplitShapes | numpy_neural_network/sample_layer.py:22-23 | the corrected channel split `x[..., :C]` and `x[..., C:]` (also the intended slots of `grad_x` at lines 50-51): numpy raises for a zero-dimensional array; otherwise only the last axis changes, cut into `min(C, len)` and the rest, and every other axis keeps its length |
| Shapes.AsWrittenSplitsSingleExample | numpy_neural_network/sample_layer.py:22-23 | for one unbatched example of shape `(H, W, 2C)`, the slice on the third axis gives two `(H, W, C)` halves, the same as the channel split |
| Shapes.AsWrittenMisreadsBatch | numpy_neural_network/sample_layer.py:22-23 | with a leading batch axis, the third-axis slice gives a variance half of shape `(B, H, W, C)` only if `W = 0` and `C = 0` |
| Shapes.AsWrittenBatchCounterexample | numpy_neural_network/sample_layer.py:22-23 | for `shape_out = (4, 4, 2)` and an input of shape `(1, 4, 4, 4)`, both as-written halves have shape `(1, 4, 2, 4)` instead of `(1, 4, 4, 2)` |
| Shapes.SplitShapesKeepsLeadingAxes | numpy_neural_network/sample_layer.py:22-23 | the channel-axis split of an array of shape `lead + shape_in` gives two halves of shape `lead + shape_out`, for any leading axes |

## Left out

- Random noise: `np.random.normal` is replaced by the `noise` argument. Its distribution is not modelled.
- Floating point: the model uses exact reals. It does not model rounding or overflow.
- Division by zero: in the source, an entry with `variance + 1e-9 == 0` gives an infinite
  gradient. This model makes that case a precondition of `Backward` instead.
- The layer base class is not part of this model, so two of its jobs become assumptions:
  - the initial `is_training` value is an argument of `New`;
  - the `grad_x` buffer is assumed to be fresh and to have the shape of the last forward input.
- Broadcasting on the other axes: inside one slice, the axes are flattened into a vector.
  `Forward` and `Backward` therefore require that all arrays agree on those axes. Broadcasting
  along the sliced axis is modelled.
- Calls into the layer: `forward` receives a numpy array, so `Forward` requires a rectangular
  input (every slice the same size).
- `StepInit`: line 62 points `self.train_z` at a new list rather than clearing the attached one, so
  a caller that kept the list it attached stops receiving samples after the first
  `step_init(True)`. A collector held as a value cannot show this aliasing.
- `Forward`: the cached halves (lines 22-23) and the evaluation-mode output (line 34) are numpy
  views of `x`, so a later in-place write to `x` changes them. The model keeps copies.
- `Forward`: an input with fewer than three axes raises `IndexError` at line 22. The axis-free
  `Tensor` view cannot express the array's rank. The shape-level `Shapes.SplitShapesAsWritten`
  does model this error.
- `StepInit`: the default argument `is_training=False` (line 55) is not modelled; callers always
  pass the flag.
- `New`: it starts with no last output (`y` is None). This assumes the base class, which is not
  part of this model, does not allocate `self.y`.
- Other layers, the model, the Adam optimizer, the dataset classes and the example script
  (plotting and PNG output) are not part of this model.

## Findings

| source | as written | input that shows it | evidently intended | confidence | as-written member | corrected member |
|---|---|---|---|---|---|---|
| numpy_neural_network/sample_layer.py:22-23 | `x[:,:,:C]` and `x[:,:,C:]` slice the third array axis. The example model in examples/four_img_classes/example.py feeds batches with a leading batch axis, so for an input of shape `(B, H, W, 2C)` the third axis is the width. Lines 50-51 write `grad_x` the same way. | `shape_out = (4, 4, 2)` with an input batch of shape `(1, 4, 4, 4)`. Both halves come out as `(1, 4, 2, 4)`, so the training-mode sum broadcasts without error and returns a wrongly shaped sample. | slice the channel (last) axis, `x[..., :C]` and `x[..., C:]`, which gives halves of shape `(B, H, W, C)` | medium, not executed; the batch layout comes from the base class and the model, which are not part of this model | Shapes.AsWrittenBatchCounterexample | Shapes.SplitShapesKeepsLeadingAxes |

`SampleLayer`'s tensors are viewed along the axis that the split acts on. For one example,
that axis is the channel axis under both readings. `Shapes.AsWrittenSplitsSingleExample`
proves the two slicings agree there. The value-level properties therefore hold for the
corrected channel split.
