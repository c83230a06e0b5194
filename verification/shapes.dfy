/**
  Shapes of the Sample layer: the declared layer shapes (the tuples
  `shape_in` and `shape_out`) and the shapes of numpy arrays after the
  basic slicing that `forward` and `backward` perform.
 */
module Shapes {
  import opened Results

  function Min(a: nat, b: nat): nat {
    if a <= b then a else b
  }

  /** A declared layer shape `(shape[0], shape[1], shape[2])`: height, width, channels. */
  datatype Shape = Shape(height: nat, width: nat, channels: nat) {
    function Dims(): seq<nat> {
      [height, width, channels]
    }
  }

  /** The Sample layer's shape law: same height and width, twice the channels. */
  predicate ShapeLaw(shapeIn: Shape, shapeOut: Shape) {
    && shapeIn.height == shapeOut.height
    && shapeIn.width == shapeOut.width
    && shapeIn.channels == 2 * shapeOut.channels
  }

  /** The input shape the constructor derives from `shape_out`. */
  function InputShape(shapeOut: Shape): (shapeIn: Shape)
    ensures ShapeLaw(shapeIn, shapeOut)
  {
    Shape(shapeOut.height, shapeOut.width, 2 * shapeOut.channels)
  }

  /** The derived input shape is the only one that satisfies the shape law. */
  lemma InputShapeUnique(shapeIn: Shape, shapeOut: Shape)
    ensures ShapeLaw(shapeIn, shapeOut) <==> shapeIn == InputShape(shapeOut)
  {
  }

  /** The shape of a numpy array: one length per axis. */
  type ArrayShape = seq<nat>

  /** Number of entries numpy's `a[lo:hi]` keeps on an axis of length `n` (lo, hi >= 0). */
  function SliceLen(n: nat, lo: nat, hi: nat): (k: nat)
    ensures k <= n
    ensures lo <= hi <= n ==> k == hi - lo
    ensures n <= lo ==> k == 0
  {
    var h := Min(hi, n);
    var l := Min(lo, n);
    if l <= h then h - l else 0
  }

  /** Shape after slicing `lo:hi` on one axis and `:` on every other axis. */
  function SliceAxis(s: ArrayShape, axis: nat, lo: nat, hi: nat): (r: ArrayShape)
    requires axis < |s|
    ensures |r| == |s|
    ensures r[axis] == SliceLen(s[axis], lo, hi)
    ensures forall k :: 0 <= k < |s| && k != axis ==> r[k] == s[k]
  {
    s[axis := SliceLen(s[axis], lo, hi)]
  }

  /**
    The halves `x[:,:,:c]` and `x[:,:,c:]` exactly as `forward` and `backward`
    write them: the slice acts on the THIRD axis of the array, whatever its
    rank. An array with fewer than three axes makes numpy raise (None).
   */
  function SplitShapesAsWritten(s: ArrayShape, c: nat): (r: Option<(ArrayShape, ArrayShape)>)
    ensures r.None? <==> |s| < 3
    ensures r.Some? ==> |r.value.0| == |s| && |r.value.1| == |s|
    ensures r.Some? ==> r.value.0[2] + r.value.1[2] == s[2] && r.value.0[2] == Min(c, s[2])
    ensures r.Some? ==> forall k :: 0 <= k < |s| && k != 2 ==> r.value.0[k] == s[k] && r.value.1[k] == s[k]
  {
    if |s| < 3 then None
    else Some((SliceAxis(s, 2, 0, c), SliceAxis(s, 2, c, s[2])))
  }

  /**
    The halves `x[..., :c]` and `x[..., c:]`: the slice acts on the channel
    (last) axis. A zero-dimensional array makes numpy raise (None).
   */
  function SplitShapes(s: ArrayShape, c: nat): (r: Option<(ArrayShape, ArrayShape)>)
    ensures r.None? <==> |s| == 0
    ensures r.Some? ==> |r.value.0| == |s| && |r.value.1| == |s|
    ensures r.Some? ==> r.value.0[|s| - 1] + r.value.1[|s| - 1] == s[|s| - 1]
    ensures r.Some? ==> r.value.0[|s| - 1] == Min(c, s[|s| - 1])
    ensures r.Some? ==> forall k :: 0 <= k < |s| - 1 ==> r.value.0[k] == s[k] && r.value.1[k] == s[k]
  {
    if |s| == 0 then None
    else Some((SliceAxis(s, |s| - 1, 0, c), SliceAxis(s, |s| - 1, c, s[|s| - 1])))
  }

  /** For a single example of shape `shape_in` the as-written slice is the channel split. */
  lemma AsWrittenSplitsSingleExample(shapeOut: Shape)
    ensures SplitShapesAsWritten(InputShape(shapeOut).Dims(), shapeOut.channels)
            == Some((shapeOut.Dims(), shapeOut.Dims()))
    ensures SplitShapesAsWritten(InputShape(shapeOut).Dims(), shapeOut.channels)
            == SplitShapes(InputShape(shapeOut).Dims(), shapeOut.channels)
  {
    var c := shapeOut.channels;
    var s := InputShape(shapeOut).Dims();
    assert SliceAxis(s, 2, 0, c) == [shapeOut.height, shapeOut.width, c];
    assert SliceAxis(s, 2, c, s[2]) == [shapeOut.height, shapeOut.width, c];
  }

  /**
    With a leading batch axis the as-written slice cuts the width axis: its
    first half has the shape `(batch, *shape_out)` only in the degenerate case
    of zero width and zero channels.
   */
  lemma AsWrittenMisreadsBatch(batch: nat, shapeOut: Shape)
    ensures SplitShapesAsWritten([batch] + InputShape(shapeOut).Dims(), shapeOut.channels).value.0
              == [batch] + shapeOut.Dims()
            <==> shapeOut.width == 0 && shapeOut.channels == 0
  {
    var s := [batch] + InputShape(shapeOut).Dims();
    var v := SplitShapesAsWritten(s, shapeOut.channels).value.0;
    if v == [batch] + shapeOut.Dims() {
      assert v[3] == s[3] == 2 * shapeOut.channels;
      assert v[2] == SliceLen(shapeOut.width, 0, shapeOut.channels);
    }
  }

  /**
    A concrete case: `shape_out = (4, 4, 2)` and one example of shape
    `(4, 4, 4)` batched as `(1, 4, 4, 4)`. Both as-written halves have shape
    `(1, 4, 2, 4)`, so the training-mode sum broadcasts without error, while
    the layer promises halves of shape `(1, 4, 4, 2)`.
   */
  lemma AsWrittenBatchCounterexample()
    ensures SplitShapesAsWritten([1] + InputShape(Shape(4, 4, 2)).Dims(), 2) == Some(([1, 4, 2, 4], [1, 4, 2, 4]))
    ensures SplitShapes([1] + InputShape(Shape(4, 4, 2)).Dims(), 2) == Some(([1, 4, 4, 2], [1, 4, 4, 2]))
    ensures [1] + Shape(4, 4, 2).Dims() == [1, 4, 4, 2]
  {
    var s := [1] + InputShape(Shape(4, 4, 2)).Dims();
    assert s == [1, 4, 4, 4];
    assert SliceAxis(s, 2, 0, 2) == [1, 4, 2, 4];
    assert SliceAxis(s, 2, 2, 4) == [1, 4, 2, 4];
    assert SliceAxis(s, 3, 0, 2) == [1, 4, 4, 2];
    assert SliceAxis(s, 3, 2, 4) == [1, 4, 4, 2];
  }

  /**
    The corrected split: for any leading axes (none, or a batch axis, or more),
    splitting an array of shape `lead + shape_in` on the channel axis gives two
    halves of shape `lead + shape_out`.
   */
  lemma SplitShapesKeepsLeadingAxes(lead: seq<nat>, shapeOut: Shape)
    ensures SplitShapes(lead + InputShape(shapeOut).Dims(), shapeOut.channels)
            == Some((lead + shapeOut.Dims(), lead + shapeOut.Dims()))
  {
    var s := lead + InputShape(shapeOut).Dims();
    var halves := SplitShapes(s, shapeOut.channels).value;
    assert halves.0 == lead + shapeOut.Dims() by {
      assert |halves.0| == |lead + shapeOut.Dims()|;
      forall k | 0 <= k < |s|
        ensures halves.0[k] == (lead + shapeOut.Dims())[k]
      {
      }
    }
    assert halves.1 == lead + shapeOut.Dims() by {
      assert |halves.1| == |lead + shapeOut.Dims()|;
      forall k | 0 <= k < |s|
        ensures halves.1[k] == (lead + shapeOut.Dims())[k]
      {
      }
    }
  }
}
