/**
  Arrays viewed along one axis. A `Tensor` holds one `Vec` per index of that
  axis; each `Vec` is everything the array holds at that index, with every
  other axis flattened. Elementwise arithmetic commutes with the flattening,
  so the elementwise formulas of the layer can be stated on this view.
 */
module Tensors {
  import opened Results

  type Vec = seq<real>
  type Tensor = seq<Vec>

  /** Every entry along the axis has the same size, as in any numpy array. */
  predicate Rectangular(t: Tensor) {
    forall i, j :: 0 <= i < |t| && 0 <= j < |t| ==> |t[i]| == |t[j]|
  }

  /** The two arrays agree on every axis other than the viewed one. */
  predicate WidthsAgree(a: Tensor, b: Tensor) {
    forall i, j :: 0 <= i < |a| && 0 <= j < |b| ==> |a[i]| == |b[j]|
  }

  predicate SameShape(a: Tensor, b: Tensor) {
    |a| == |b| && forall i :: 0 <= i < |a| ==> |a[i]| == |b[i]|
  }

  predicate IsZero(t: Tensor) {
    forall i, k :: 0 <= i < |t| && 0 <= k < |t[i]| ==> t[i][k] == 0.0
  }

  function AddVec(a: Vec, b: Vec): (r: Vec)
    requires |a| == |b|
    ensures |r| == |a|
    ensures forall k :: 0 <= k < |r| ==> r[k] == a[k] + b[k]
  {
    seq(|a|, k requires 0 <= k < |a| => a[k] + b[k])
  }

  function MulVec(a: Vec, b: Vec): (r: Vec)
    requires |a| == |b|
    ensures |r| == |a|
    ensures forall k :: 0 <= k < |r| ==> r[k] == a[k] * b[k]
  {
    seq(|a|, k requires 0 <= k < |a| => a[k] * b[k])
  }

  /** Elementwise product of two arrays of the same shape. */
  function Mul(a: Tensor, b: Tensor): (r: Tensor)
    requires SameShape(a, b)
    ensures SameShape(r, a)
    ensures forall i, k :: 0 <= i < |r| && 0 <= k < |r[i]| ==> r[i][k] == a[i][k] * b[i][k]
  {
    seq(|a|, i requires 0 <= i < |a| => MulVec(a[i], b[i]))
  }

  /** numpy's rule for one axis: equal lengths, or one of them is 1. */
  predicate Broadcastable(a: nat, b: nat) {
    a == b || a == 1 || b == 1
  }

  /** The length of the broadcast axis (meaningful when `Broadcastable(a, b)`). */
  function BroadcastLen(a: nat, b: nat): nat {
    if a == 1 then b else a
  }

  /** Entry `i` of an axis broadcast from length 1 or read directly. */
  function Pick(t: Tensor, i: nat): Vec
    requires |t| == 1 || i < |t|
  {
    if |t| == 1 then t[0] else t[i]
  }

  /** numpy's `a + b`, broadcasting along the viewed axis; None where numpy raises. */
  function BroadcastAdd(a: Tensor, b: Tensor): (r: Option<Tensor>)
    requires WidthsAgree(a, b)
    ensures r.Some? <==> Broadcastable(|a|, |b|)
    ensures r.Some? ==> |r.value| == BroadcastLen(|a|, |b|)
    ensures r.Some? ==> forall i :: 0 <= i < |r.value| ==>
              (|a| == 1 || i < |a|) && (|b| == 1 || i < |b|) &&
              r.value[i] == AddVec(Pick(a, i), Pick(b, i))
  {
    if !Broadcastable(|a|, |b|) then None
    else
      var n := BroadcastLen(|a|, |b|);
      Some(seq(n, i requires 0 <= i < n => AddVec(Pick(a, i), Pick(b, i))))
  }

  /**
    numpy's slice assignment `dst[lo:hi] = t` into a slot of `n` entries:
    the value is taken as is or broadcast from length 1; None where numpy raises.
   */
  function FitTo(t: Tensor, n: nat): (r: Option<Tensor>)
    ensures r.Some? <==> (|t| == n || |t| == 1)
    ensures r.Some? ==> |r.value| == n
    ensures r.Some? ==> forall i :: 0 <= i < n ==> r.value[i] == Pick(t, i)
  {
    if |t| == n || |t| == 1 then Some(seq(n, i requires 0 <= i < n => Pick(t, i)))
    else None
  }
}
