/** Row-major reshapes between flat arrays and matrices, and the matrix products,
    transposes and column sums of np.dot, .T and np.sum(axis=0). */
module Matrices {
  import opened Tensors
  import opened Windows

  /** data.reshape(rows, cols) of a row-major flat array. */
  function Rows(data: seq<real>, rows: nat, cols: nat): (m: Matrix)
    requires |data| == rows * cols
    ensures IsMatrix(m, rows, cols)
    ensures forall i, j :: 0 <= i < rows && 0 <= j < cols ==> m[i][j] == At1(data, i * cols + j)
  {
    seq(rows, (i: int) => seq(cols, (j: int) => At1(data, i * cols + j)))
  }

  /** The row-major flat data of a rows x cols matrix. */
  function Flatten(m: Matrix, rows: nat, cols: nat): (data: seq<real>)
    requires IsMatrix(m, rows, cols)
    ensures |data| == rows * cols
  {
    seq(rows * cols, (k: int) requires 0 <= k < rows * cols =>
      ProductPositive(rows, cols);
      RowOfFlatIndex(k, rows, cols);
      m[k / cols][k % cols])
  }

  /** The row k / cols of a flat index k < rows * cols is a row of the matrix. */
  lemma RowOfFlatIndex(k: nat, rows: nat, cols: nat)
    requires cols > 0 && k < rows * cols
    ensures k / cols < rows
  {
    if k / cols >= rows {
      MulMono(rows, k / cols, cols);
    }
  }

  /** Reshaping a flat array into rows and back gives it back. */
  lemma FlattenRows(data: seq<real>, rows: nat, cols: nat)
    requires |data| == rows * cols
    ensures Flatten(Rows(data, rows, cols), rows, cols) == data
  {
    var m := Rows(data, rows, cols);
    forall k | 0 <= k < rows * cols ensures Flatten(m, rows, cols)[k] == data[k] {
      ProductPositive(rows, cols);
      RowOfFlatIndex(k, rows, cols);
      assert k == (k / cols) * cols + k % cols;
    }
  }

  /** Flattening a matrix and reshaping it into rows gives it back. */
  lemma RowsFlatten(m: Matrix, rows: nat, cols: nat)
    requires IsMatrix(m, rows, cols)
    ensures Rows(Flatten(m, rows, cols), rows, cols) == m
  {
    var m' := Rows(Flatten(m, rows, cols), rows, cols);
    forall i, j | 0 <= i < rows && 0 <= j < cols ensures m'[i][j] == m[i][j] {
      FlatIndexBound(i, j, rows, cols);
      FlatIndexInverse(i, j, cols);
    }
    MatrixExt(m', m, rows, cols);
  }

  /** The terms a[i][t] * b[t][j] of one entry of a matrix product. */
  function MulTerms(a: Matrix, b: Matrix, i: nat, j: nat): nat -> real {
    (t: nat) => At2(a, i, t) * At2(b, t, j)
  }

  /** np.dot(a, b) of an n x k and a k x m matrix: entry (i, j) is row i of a
      against column j of b. */
  function MatMul(a: Matrix, b: Matrix, n: nat, k: nat, m: nat): (r: Matrix)
    ensures IsMatrix(r, n, m)
  {
    seq(n, (i: int) requires 0 <= i < n => seq(m, (j: int) requires 0 <= j < m => Sum(k, MulTerms(a, b, i, j))))
  }

  /** a.T of a rows x cols matrix. */
  function Transpose(a: Matrix, rows: nat, cols: nat): (r: Matrix)
    ensures IsMatrix(r, cols, rows)
    ensures forall j, i :: 0 <= j < cols && 0 <= i < rows ==> r[j][i] == At2(a, i, j)
  {
    seq(cols, (j: int) => seq(rows, (i: int) => At2(a, i, j)))
  }

  /** The terms a[i][j] of column j. */
  function ColumnTerms(a: Matrix, j: nat): nat -> real {
    (i: nat) => At2(a, i, j)
  }

  /** np.sum(a, axis=0) of a rows x cols matrix. */
  function ColSum(a: Matrix, rows: nat, cols: nat): (r: Vector)
    ensures |r| == cols
  {
    seq(cols, (j: int) requires 0 <= j < cols => Sum(rows, ColumnTerms(a, j)))
  }

  /** The terms a[i][j] * b[i][j] of the elementwise inner product. */
  function InnerTerms(a: Matrix, b: Matrix): (nat, nat) -> real {
    (i: nat, j: nat) => At2(a, i, j) * At2(b, i, j)
  }

  /** np.sum(a * b) of two rows x cols matrices. */
  function Inner(a: Matrix, b: Matrix, rows: nat, cols: nat): real {
    GridSum(InnerTerms(a, b), rows, cols)
  }

  /** a + b, with b added to every row (NumPy broadcasting of a row vector). */
  function AddRow(a: Matrix, b: Vector, rows: nat): (r: Matrix)
    requires IsMatrix(a, rows, |b|)
    ensures IsMatrix(r, rows, |b|)
    ensures forall i, j :: 0 <= i < rows && 0 <= j < |b| ==> r[i][j] == a[i][j] + b[j]
  {
    seq(rows, (i: int) requires 0 <= i < rows => seq(|b|, (j: int) requires 0 <= j < |b| => a[i][j] + b[j]))
  }

  /** a * v, with column j scaled by v[j]. */
  function ScaleCols(a: Matrix, v: Vector, rows: nat): (r: Matrix)
    requires IsMatrix(a, rows, |v|)
    ensures IsMatrix(r, rows, |v|)
    ensures forall i, j :: 0 <= i < rows && 0 <= j < |v| ==> r[i][j] == a[i][j] * v[j]
  {
    seq(rows, (i: int) requires 0 <= i < rows => seq(|v|, (j: int) requires 0 <= j < |v| => a[i][j] * v[j]))
  }

  /** The elementwise product a * b of two rows x cols matrices. */
  function Hadamard(a: Matrix, b: Matrix, rows: nat, cols: nat): (r: Matrix)
    ensures IsMatrix(r, rows, cols)
    ensures forall i, j :: 0 <= i < rows && 0 <= j < cols ==> r[i][j] == At2(a, i, j) * At2(b, i, j)
  {
    seq(rows, (i: int) => seq(cols, (j: int) => At2(a, i, j) * At2(b, i, j)))
  }

  /** The terms a[i][j] * v[j]. */
  function WeightedTerms(a: Matrix, v: Vector): (nat, nat) -> real {
    (i: nat, j: nat) => At2(a, i, j) * At1(v, j)
  }

  /** sum(a * v) over a rows x |v| grid == np.sum(a, axis=0) . v. */
  lemma {:induction false} ColumnWeights(a: Matrix, v: Vector, rows: nat)
    ensures GridSum(WeightedTerms(a, v), rows, |v|) == Dot(ColSum(a, rows, |v|), v)
  {
    var m := |v|;
    var B := WeightedTerms(a, v);
    SumSwap(B, rows, m);
    var s := ColSum(a, rows, m);
    forall j | 0 <= j < m ensures ColSums(B, rows)(j) == DotTerms(s, v)(j) {
      forall i | 0 <= i < rows ensures Col(B, j)(i) == At1(v, j) * ColumnTerms(a, j)(i) {
      }
      SumScale(rows, ColumnTerms(a, j), Col(B, j), At1(v, j));
    }
    SumExt(m, ColSums(B, rows), DotTerms(s, v));
  }

  /** The bias part of the chain rule: sum(dout * (a + b)) == sum(dout * a) + db . b,
      where db = np.sum(dout, axis=0). */
  lemma {:induction false} BiasAdjoint(dout: Matrix, a: Matrix, b: Vector, rows: nat)
    requires IsMatrix(a, rows, |b|) && IsMatrix(dout, rows, |b|)
    ensures Inner(dout, AddRow(a, b, rows), rows, |b|) ==
            Inner(dout, a, rows, |b|) + Dot(ColSum(dout, rows, |b|), b)
  {
    var m := |b|;
    var ab := AddRow(a, b, rows);
    var B := WeightedTerms(dout, b);
    forall i | 0 <= i < rows
      ensures RowSums(InnerTerms(dout, ab), m)(i) == RowSums(InnerTerms(dout, a), m)(i) + RowSums(B, m)(i)
    {
      forall j | 0 <= j < m
        ensures Row(InnerTerms(dout, ab), i)(j) == Row(InnerTerms(dout, a), i)(j) + Row(B, i)(j)
      {
        assert At2(ab, i, j) == At2(a, i, j) + At1(b, j);
      }
      SumAdd(m, Row(InnerTerms(dout, a), i), Row(B, i), Row(InnerTerms(dout, ab), i));
    }
    SumAdd(rows, RowSums(InnerTerms(dout, a), m), RowSums(B, m), RowSums(InnerTerms(dout, ab), m));
    ColumnWeights(dout, b, rows);
  }

  /** The scale part of the chain rule: sum(dout * (a * v)) == np.sum(dout * a, axis=0) . v. */
  lemma {:induction false} ScaleAdjoint(dout: Matrix, a: Matrix, v: Vector, rows: nat)
    requires IsMatrix(a, rows, |v|)
    ensures Inner(dout, ScaleCols(a, v, rows), rows, |v|) == Dot(ColSum(Hadamard(dout, a, rows, |v|), rows, |v|), v)
  {
    var m := |v|;
    var av := ScaleCols(a, v, rows);
    var da := Hadamard(dout, a, rows, m);
    forall i | 0 <= i < rows ensures RowSums(InnerTerms(dout, av), m)(i) == RowSums(WeightedTerms(da, v), m)(i) {
      forall j | 0 <= j < m ensures Row(InnerTerms(dout, av), i)(j) == Row(WeightedTerms(da, v), i)(j) {
        assert At2(av, i, j) == At2(a, i, j) * At1(v, j);
        assert At2(da, i, j) == At2(dout, i, j) * At2(a, i, j);
      }
      SumExt(m, Row(InnerTerms(dout, av), i), Row(WeightedTerms(da, v), i));
    }
    SumExt(rows, RowSums(InnerTerms(dout, av), m), RowSums(WeightedTerms(da, v), m));
    ColumnWeights(da, v, rows);
  }

  // ---------------------------------------------------------------------------
  // Adjoints of the matrix product: the gradients of np.dot.

  /** The products d[i][j] * x[i][t] * w[t][j] of sample i, by (j, t). */
  function Triple(d: Matrix, x: Matrix, w: Matrix, i: nat): (nat, nat) -> real {
    (j: nat, t: nat) => At2(d, i, j) * At2(x, i, t) * At2(w, t, j)
  }

  /** Row i of sum(d * (x @ w)) is the sum of the triple products of sample i. */
  lemma ForwardRow(d: Matrix, x: Matrix, w: Matrix, n: nat, k: nat, m: nat, i: nat)
    requires i < n
    ensures RowSums(InnerTerms(d, MatMul(x, w, n, k, m)), m)(i) == GridSum(Triple(d, x, w, i), m, k)
  {
    var xw := MatMul(x, w, n, k, m);
    var T := Triple(d, x, w, i);
    forall j | 0 <= j < m ensures Row(InnerTerms(d, xw), i)(j) == RowSums(T, k)(j) {
      forall t | 0 <= t < k ensures Row(T, j)(t) == At2(d, i, j) * MulTerms(x, w, i, j)(t) {
      }
      SumScale(k, MulTerms(x, w, i, j), Row(T, j), At2(d, i, j));
    }
    SumExt(m, Row(InnerTerms(d, xw), i), RowSums(T, k));
  }

  /** Row i of sum((d @ w.T) * x) is the sum of the same products, by (t, j). */
  lemma InputGradRow(d: Matrix, x: Matrix, w: Matrix, n: nat, k: nat, m: nat, i: nat)
    requires IsMatrix(w, k, m) && i < n
    ensures RowSums(InnerTerms(MatMul(d, Transpose(w, k, m), n, m, k), x), k)(i) ==
            Sum(k, ColSums(Triple(d, x, w, i), m))
  {
    var wt := Transpose(w, k, m);
    var dwt := MatMul(d, wt, n, m, k);
    var T := Triple(d, x, w, i);
    forall t | 0 <= t < k ensures Row(InnerTerms(dwt, x), i)(t) == ColSums(T, m)(t) {
      forall j | 0 <= j < m ensures Col(T, t)(j) == At2(x, i, t) * MulTerms(d, wt, i, t)(j) {
        assert At2(wt, j, t) == At2(w, t, j);
      }
      SumScale(m, MulTerms(d, wt, i, t), Col(T, t), At2(x, i, t));
    }
    SumExt(k, Row(InnerTerms(dwt, x), i), ColSums(T, m));
  }

  /** sum(d * (x @ w)) == sum((d @ w.T) * x): d @ w.T is the gradient of
      sum(d * (x @ w)) with respect to x. */
  lemma {:induction false} InputGradAdjoint(d: Matrix, x: Matrix, w: Matrix, n: nat, k: nat, m: nat)
    requires IsMatrix(w, k, m)
    ensures Inner(d, MatMul(x, w, n, k, m), n, m) == Inner(MatMul(d, Transpose(w, k, m), n, m, k), x, n, k)
  {
    var f := RowSums(InnerTerms(d, MatMul(x, w, n, k, m)), m);
    var g := RowSums(InnerTerms(MatMul(d, Transpose(w, k, m), n, m, k), x), k);
    forall i | 0 <= i < n ensures f(i) == g(i) {
      ForwardRow(d, x, w, n, k, m, i);
      InputGradRow(d, x, w, n, k, m, i);
      SumSwap(Triple(d, x, w, i), m, k);
    }
    SumExt(n, f, g);
  }

  /** The products of the triple sum as a function of (i, t), summed over j. */
  function TripleOverJ(d: Matrix, x: Matrix, w: Matrix, m: nat): (nat, nat) -> real {
    (i: nat, t: nat) => Sum(m, Col(Triple(d, x, w, i), t))
  }

  /** For a fixed t, the products as a function of (i, j). */
  function TripleAt(d: Matrix, x: Matrix, w: Matrix, t: nat): (nat, nat) -> real {
    (i: nat, j: nat) => At2(d, i, j) * At2(x, i, t) * At2(w, t, j)
  }

  /** Entry (t, j) of sum((x.T @ d) * w) is the sum over samples of the products. */
  lemma WeightGradRow(d: Matrix, x: Matrix, w: Matrix, n: nat, k: nat, m: nat, t: nat)
    requires IsMatrix(x, n, k) && t < k
    ensures RowSums(InnerTerms(MatMul(Transpose(x, n, k), d, k, n, m), w), m)(t) ==
            Sum(m, ColSums(TripleAt(d, x, w, t), n))
  {
    var xt := Transpose(x, n, k);
    var xtd := MatMul(xt, d, k, n, m);
    var U := TripleAt(d, x, w, t);
    forall j | 0 <= j < m ensures Row(InnerTerms(xtd, w), t)(j) == ColSums(U, n)(j) {
      forall i | 0 <= i < n ensures Col(U, j)(i) == At2(w, t, j) * MulTerms(xt, d, t, j)(i) {
        assert At2(xt, t, i) == At2(x, i, t);
      }
      SumScale(n, MulTerms(xt, d, t, j), Col(U, j), At2(w, t, j));
    }
    SumExt(m, Row(InnerTerms(xtd, w), t), ColSums(U, n));
  }

  /** sum(d * (x @ w)) == sum((x.T @ d) * w): x.T @ d is the gradient of
      sum(d * (x @ w)) with respect to w. */
  lemma {:induction false} WeightGradAdjoint(d: Matrix, x: Matrix, w: Matrix, n: nat, k: nat, m: nat)
    requires IsMatrix(x, n, k) && IsMatrix(w, k, m)
    ensures Inner(d, MatMul(x, w, n, k, m), n, m) == Inner(MatMul(Transpose(x, n, k), d, k, n, m), w, k, m)
  {
    // Both sides are the sum of d[i][j] * x[i][t] * w[t][j] over (i, j, t).
    InputGradAdjoint(d, x, w, n, k, m);
    var F := TripleOverJ(d, x, w, m);
    var g := RowSums(InnerTerms(MatMul(d, Transpose(w, k, m), n, m, k), x), k);
    forall i | 0 <= i < n ensures g(i) == RowSums(F, k)(i) {
      InputGradRow(d, x, w, n, k, m, i);
      assert forall t :: 0 <= t < k ==> ColSums(Triple(d, x, w, i), m)(t) == Row(F, i)(t);
      SumExt(k, ColSums(Triple(d, x, w, i), m), Row(F, i));
    }
    SumExt(n, g, RowSums(F, k));
    SumSwap(F, n, k);
    var h := RowSums(InnerTerms(MatMul(Transpose(x, n, k), d, k, n, m), w), m);
    forall t | 0 <= t < k ensures ColSums(F, n)(t) == h(t) {
      WeightGradRow(d, x, w, n, k, m, t);
      var U := TripleAt(d, x, w, t);
      forall i | 0 <= i < n ensures Col(F, t)(i) == RowSums(U, m)(i) {
        assert forall j :: 0 <= j < m ==> Col(Triple(d, x, w, i), t)(j) == Row(U, i)(j);
        SumExt(m, Col(Triple(d, x, w, i), t), Row(U, i));
      }
      SumExt(n, Col(F, t), RowSums(U, m));
      SumSwap(U, n, m);
    }
    SumExt(k, ColSums(F, n), h);
  }
}
