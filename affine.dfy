/** The affine (fully connected) layer, affine_forward and affine_backward.
    An input of shape (N, d_1, ..., d_k) is read as N rows of D = d_1 * ... * d_k
    features, multiplied by w (D x M) and shifted by b (M). */
module Affine {
  import opened Tensors
  import opened Matrices

  /** D = d_1 * ... * d_k, the number of features of one example. */
  function FeatureSize(x: NdArray): nat
    requires |x.shape| >= 1
  {
    Product(x.shape[1..])
  }

  /** x.reshape(N, -1): the examples as the rows of an N x D matrix. */
  function ExampleRows(x: NdArray): (m: Matrix)
    requires x.Valid() && |x.shape| >= 1
    ensures IsMatrix(m, x.shape[0], FeatureSize(x))
  {
    Rows(x.data, x.shape[0], FeatureSize(x))
  }

  /** affine_forward (lines 5-33): np.dot(x.reshape(N, -1), w) + b.  A 0-d input
      has no x.shape[0]; an empty batch cannot be reshaped with -1. */
  function AffineForward(x: NdArray, w: Matrix, b: Vector): (r: Result<Matrix>)
    requires x.Valid()
    requires |x.shape| >= 1 ==> IsMatrix(w, FeatureSize(x), |b|)
    ensures r.Err? <==> |x.shape| == 0 || x.shape[0] == 0
    ensures r.Err? ==> r.error == if |x.shape| == 0 then IndexError else CannotReshape
    ensures r.Ok? ==> IsMatrix(r.value, x.shape[0], |b|)
  {
    if |x.shape| == 0 then Err(IndexError)
    else if x.shape[0] == 0 then Err(CannotReshape)
    else
      var n, d := x.shape[0], FeatureSize(x);
      Ok(AddRow(MatMul(ExampleRows(x), w, n, d, |b|), b, n))
  }

  /** The gradients of affine_backward. */
  datatype AffineGrads = AffineGrads(dx: NdArray, dw: Matrix, db: Vector)

  /** affine_backward (lines 36-63): dx = np.dot(dout, w.T) reshaped to the shape
      of x, dw = np.dot(x.reshape(N, -1).T, dout), db = np.sum(dout, axis=0).
      The reshape of dx is exact: its rows are np.dot(dout, w.T). */
  function AffineBackward(dout: Matrix, x: NdArray, w: Matrix, b: Vector): (r: Result<AffineGrads>)
    requires x.Valid()
    requires |x.shape| >= 1 ==> IsMatrix(w, FeatureSize(x), |b|) && IsMatrix(dout, x.shape[0], |b|)
    ensures r.Err? <==> |x.shape| == 0 || x.shape[0] == 0
    ensures r.Err? ==> r.error == if |x.shape| == 0 then IndexError else CannotReshape
    ensures r.Ok? ==>
      var n, d, m := x.shape[0], FeatureSize(x), |b|;
      r.value.dx.shape == x.shape && r.value.dx.Valid() &&
      Rows(r.value.dx.data, n, d) == MatMul(dout, Transpose(w, d, m), n, m, d) &&
      IsMatrix(r.value.dw, d, m) && |r.value.db| == m
  {
    if |x.shape| == 0 then Err(IndexError)
    else
      var n, d, m := x.shape[0], FeatureSize(x), |b|;
      var dxRows := MatMul(dout, Transpose(w, d, m), n, m, d);
      RowsFlatten(dxRows, n, d);
      var dx := NdArray(x.shape, Flatten(dxRows, n, d));
      if n == 0 then Err(CannotReshape)
      else Ok(AffineGrads(dx, MatMul(Transpose(ExampleRows(x), n, d), dout, d, n, m), ColSum(dout, n, m)))
  }

  /** The gradients of affine_backward are those of the forward map: for every
      dout, sum(dout * out) is linear in x with gradient dx (plus the bias term),
      and linear in w with gradient dw (plus the bias term). */
  lemma AffineGradientsAreAdjoint(dout: Matrix, x: NdArray, w: Matrix, b: Vector)
    requires x.Valid() && |x.shape| >= 1 && x.shape[0] > 0
    requires IsMatrix(w, FeatureSize(x), |b|) && IsMatrix(dout, x.shape[0], |b|)
    ensures var n, d, m := x.shape[0], FeatureSize(x), |b|;
      var out := AffineForward(x, w, b).value;
      var g := AffineBackward(dout, x, w, b).value;
      Inner(dout, out, n, m) == Inner(Rows(g.dx.data, n, d), ExampleRows(x), n, d) + Dot(g.db, b) &&
      Inner(dout, out, n, m) == Inner(g.dw, w, d, m) + Dot(g.db, b)
  {
    var n, d, m := x.shape[0], FeatureSize(x), |b|;
    var X := ExampleRows(x);
    BiasAdjoint(dout, MatMul(X, w, n, d, m), b, n);
    InputGradAdjoint(dout, X, w, n, d, m);
    WeightGradAdjoint(dout, X, w, n, d, m);
  }
}
