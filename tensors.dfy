/** Dense real tensors as nested sequences, total element accessors and finite sums.

    A NumPy array of rank 1, 2 or 4 is modelled as a nested sequence together with
    its shape; because a nested sequence forgets its inner extents when an outer
    extent is 0, 4-D shapes are carried explicitly as `Dims`.  The accessors
    `At1`/`At2`/`At4` read 0.0 outside the array, which lets sums be written with
    total functions `nat -> real`. */
module Tensors {

  type Vector = seq<real>
  type Matrix = seq<seq<real>>
  type Tensor4 = seq<seq<seq<seq<real>>>>

  /** The shape (N, C, H, W) of a 4-D tensor. */
  datatype Dims = Dims(n: nat, c: nat, h: nat, w: nat)

  /** Errors that NumPy or Python raise in the modelled code. */
  datatype Error =
    | ZeroDivision          // Python ZeroDivisionError
    | NegativeDimension     // np.zeros with a negative extent
    | EmptyReduction        // np.amax over an empty window
    | CannotReshape         // reshape(..., -1) of an empty array
    | IndexError            // x.shape[0] of a 0-d array
    | InvalidMode(mode: string)

  datatype Result<T> = Ok(value: T) | Err(error: Error)

  /** An optional entry of a Python parameter dictionary. */
  datatype Option<T> = None | Some(value: T) {
    /** dict.get(key, default) */
    function GetOr(default: T): T {
      if Some? then value else default
    }
  }

  /** The number of elements of an array of the given shape. */
  function Product(shape: seq<nat>): nat {
    if |shape| == 0 then 1 else shape[0] * Product(shape[1..])
  }

  /** A NumPy array of any rank: its shape and its elements in row-major order. */
  datatype NdArray = NdArray(shape: seq<nat>, data: seq<real>) {
    predicate Valid() { |data| == Product(shape) }
  }

  predicate IsVector(v: Vector, len: nat) { |v| == len }

  predicate IsMatrix(m: Matrix, rows: nat, cols: nat) {
    |m| == rows && forall i :: 0 <= i < rows ==> |m[i]| == cols
  }

  predicate HasDims(x: Tensor4, d: Dims) {
    |x| == d.n &&
    forall n :: 0 <= n < d.n ==>
      |x[n]| == d.c &&
      forall c :: 0 <= c < d.c ==>
        |x[n][c]| == d.h &&
        forall h :: 0 <= h < d.h ==> |x[n][c][h]| == d.w
  }

  function At1(v: Vector, i: int): real {
    if 0 <= i < |v| then v[i] else 0.0
  }

  function At2(m: Matrix, i: int, j: int): real {
    if 0 <= i < |m| && 0 <= j < |m[i]| then m[i][j] else 0.0
  }

  function At4(x: Tensor4, n: int, c: int, h: int, w: int): real {
    if 0 <= n < |x| && 0 <= c < |x[n]| && 0 <= h < |x[n][c]| && 0 <= w < |x[n][c][h]|
    then x[n][c][h][w] else 0.0
  }

  /** Two 4-D tensors of the same shape with the same elements are equal. */
  lemma Tensor4Ext(a: Tensor4, b: Tensor4, d: Dims)
    requires HasDims(a, d) && HasDims(b, d)
    requires forall n, c, h, w :: 0 <= n < d.n && 0 <= c < d.c && 0 <= h < d.h && 0 <= w < d.w ==>
               a[n][c][h][w] == b[n][c][h][w]
    ensures a == b
  {
    forall n | 0 <= n < d.n ensures a[n] == b[n] {
      forall c | 0 <= c < d.c ensures a[n][c] == b[n][c] {
        forall h | 0 <= h < d.h ensures a[n][c][h] == b[n][c][h] {
          assert forall w :: 0 <= w < d.w ==> a[n][c][h][w] == b[n][c][h][w];
        }
      }
    }
  }

  /** Two matrices of the same shape with the same elements are equal. */
  lemma MatrixExt(a: Matrix, b: Matrix, rows: nat, cols: nat)
    requires IsMatrix(a, rows, cols) && IsMatrix(b, rows, cols)
    requires forall i, j :: 0 <= i < rows && 0 <= j < cols ==> a[i][j] == b[i][j]
    ensures a == b
  {
    forall i | 0 <= i < rows ensures a[i] == b[i] {
      assert forall j :: 0 <= j < cols ==> a[i][j] == b[i][j];
    }
  }

  // ---------------------------------------------------------------------------
  // Finite sums

  /** f(0) + f(1) + ... + f(k - 1), added left to right. */
  function Sum(k: nat, f: nat -> real): real
    decreases k
  {
    if k == 0 then 0.0 else Sum(k - 1, f) + f(k - 1)
  }

  /** The term function b |-> f(a, b) of row a. */
  function Row(f: (nat, nat) -> real, a: nat): nat -> real {
    (b: nat) => f(a, b)
  }

  /** The term function a |-> f(a, b) of column b. */
  function Col(f: (nat, nat) -> real, b: nat): nat -> real {
    (a: nat) => f(a, b)
  }

  /** a |-> f(a, 0) + ... + f(a, cols - 1). */
  function RowSums(f: (nat, nat) -> real, cols: nat): nat -> real {
    (a: nat) => Sum(cols, Row(f, a))
  }

  /** b |-> f(0, b) + ... + f(rows - 1, b). */
  function ColSums(f: (nat, nat) -> real, rows: nat): nat -> real {
    (b: nat) => Sum(rows, Col(f, b))
  }

  /** s |-> f(offset + s). */
  function Shift(f: nat -> real, offset: nat): nat -> real {
    (s: nat) => f(offset + s)
  }

  /** The sum of f over the cells of a rows x cols grid visited in row-major
      order before cell (r, q): all of rows 0 .. r - 1, then columns 0 .. q - 1
      of row r.  This is what a double while-loop has accumulated so far. */
  function GridPartial(f: (nat, nat) -> real, cols: nat, r: nat, q: nat): real {
    Sum(r, RowSums(f, cols)) + Sum(q, Row(f, r))
  }

  /** The entries of v as a term function. */
  function Entries(v: Vector): nat -> real {
    (i: nat) => At1(v, i)
  }

  /** np.sum(v). */
  function VecSum(v: Vector): real {
    Sum(|v|, Entries(v))
  }

  /** The terms u[i] * v[i] of a dot product. */
  function DotTerms(u: Vector, v: Vector): nat -> real {
    (i: nat) => At1(u, i) * At1(v, i)
  }

  /** The dot product of u with v, over the indices of u. */
  function Dot(u: Vector, v: Vector): real {
    Sum(|u|, DotTerms(u, v))
  }

  /** The sum of f over the whole rows x cols grid. */
  function GridSum(f: (nat, nat) -> real, rows: nat, cols: nat): real {
    Sum(rows, RowSums(f, cols))
  }

  // Per-channel totals of a tensor4

  /** w |-> x[n][c][h][w]. */
  function PixelTerms(x: Tensor4, n: nat, c: nat, h: nat): nat -> real {
    (w: nat) => At4(x, n, c, h, w)
  }

  /** h |-> the total of row h of channel c of example n. */
  function PlaneRowTotals(x: Tensor4, xd: Dims, n: nat, c: nat): nat -> real {
    (h: nat) => Sum(xd.w, PixelTerms(x, n, c, h))
  }

  /** n |-> the total of channel c of example n. */
  function PlaneTotals(x: Tensor4, xd: Dims, c: nat): nat -> real {
    (n: nat) => Sum(xd.h, PlaneRowTotals(x, xd, n, c))
  }

  /** The sum of x[n][c][h][w] over all examples n and pixels (h, w). */
  function ChannelTotal(x: Tensor4, xd: Dims, c: nat): real {
    Sum(xd.n, PlaneTotals(x, xd, c))
  }

  lemma {:induction false} SumExt(k: nat, f: nat -> real, g: nat -> real)
    requires forall i :: 0 <= i < k ==> f(i) == g(i)
    ensures Sum(k, f) == Sum(k, g)
  {
    if k > 0 { SumExt(k - 1, f, g); }
  }

  lemma {:induction false} SumOfZeros(k: nat, f: nat -> real)
    requires forall i :: 0 <= i < k ==> f(i) == 0.0
    ensures Sum(k, f) == 0.0
  {
    if k > 0 { SumOfZeros(k - 1, f); }
  }

  /** A sum in which only the term at j can be non-zero equals that term. */
  lemma {:induction false} SumSingle(k: nat, f: nat -> real, j: nat)
    requires j < k
    requires forall i :: 0 <= i < k && i != j ==> f(i) == 0.0
    ensures Sum(k, f) == f(j)
  {
    if k - 1 == j {
      SumOfZeros(k - 1, f);
    } else {
      SumSingle(k - 1, f, j);
    }
  }

  lemma {:induction false} SumNonNeg(k: nat, f: nat -> real)
    requires forall i :: 0 <= i < k ==> f(i) >= 0.0
    ensures Sum(k, f) >= 0.0
  {
    if k > 0 { SumNonNeg(k - 1, f); }
  }

  /** A sum of non-negative terms is zero exactly when every term is. */
  lemma {:induction false} SumZeroIff(k: nat, f: nat -> real)
    requires forall i :: 0 <= i < k ==> f(i) >= 0.0
    ensures Sum(k, f) == 0.0 <==> forall i :: 0 <= i < k ==> f(i) == 0.0
  {
    if k > 0 {
      SumZeroIff(k - 1, f);
      SumNonNeg(k - 1, f);
    }
  }

  lemma {:induction false} SumAdd(k: nat, f: nat -> real, g: nat -> real, h: nat -> real)
    requires forall i :: 0 <= i < k ==> h(i) == f(i) + g(i)
    ensures Sum(k, h) == Sum(k, f) + Sum(k, g)
  {
    if k > 0 { SumAdd(k - 1, f, g, h); }
  }

  lemma {:induction false} SumScale(k: nat, f: nat -> real, g: nat -> real, a: real)
    requires forall i :: 0 <= i < k ==> g(i) == a * f(i)
    ensures Sum(k, g) == a * Sum(k, f)
  {
    if k > 0 { SumScale(k - 1, f, g, a); }
  }

  /** Splitting the range [0, a + b) into [0, a) and [a, a + b). */
  lemma {:induction false} SumSplit(a: nat, b: nat, f: nat -> real)
    ensures Sum(a + b, f) == Sum(a, f) + Sum(b, Shift(f, a))
  {
    if b > 0 {
      SumSplit(a, b - 1, f);
      assert Shift(f, a)(b - 1) == f(a + b - 1);
    }
  }

  /** A sum over [0, k * len) taken as k consecutive blocks of length len. */
  lemma {:induction false} SumBlocks(k: nat, len: nat, f: nat -> real, g: nat -> real)
    requires forall n :: 0 <= n < k ==> g(n) == Sum(len, Shift(f, n * len))
    ensures Sum(k * len, f) == Sum(k, g)
  {
    if k > 0 {
      SumBlocks(k - 1, len, f, g);
      assert k * len == (k - 1) * len + len;
      SumSplit((k - 1) * len, len, f);
    }
  }

  /** The order of a double sum does not matter. */
  lemma {:induction false} SumSwap(f: (nat, nat) -> real, rows: nat, cols: nat)
    ensures Sum(rows, RowSums(f, cols)) == Sum(cols, ColSums(f, rows))
  {
    if rows > 0 {
      SumSwap(f, rows - 1, cols);
      forall b | 0 <= b < cols
        ensures ColSums(f, rows)(b) == ColSums(f, rows - 1)(b) + Row(f, rows - 1)(b)
      {
        assert Col(f, b)(rows - 1) == f(rows - 1, b);
      }
      SumAdd(cols, ColSums(f, rows - 1), Row(f, rows - 1), ColSums(f, rows));
      assert RowSums(f, cols)(rows - 1) == Sum(cols, Row(f, rows - 1));
    } else {
      SumOfZeros(cols, ColSums(f, 0));
    }
  }

  /** One more cell of a row-major grid walk. */
  lemma GridStep(f: (nat, nat) -> real, cols: nat, r: nat, q: nat)
    ensures GridPartial(f, cols, r, q + 1) == GridPartial(f, cols, r, q) + f(r, q)
  {
    assert Row(f, r)(q) == f(r, q);
  }

  /** A finished row of a grid walk is the start of the next one. */
  lemma GridNextRow(f: (nat, nat) -> real, cols: nat, r: nat)
    ensures GridPartial(f, cols, r, cols) == GridPartial(f, cols, r + 1, 0)
    ensures GridPartial(f, cols, r, 0) == Sum(r, RowSums(f, cols))
  {
    assert RowSums(f, cols)(r) == Sum(cols, Row(f, r));
  }

  /** A grid sum in which only the cell (r0, q0) can be non-zero equals that cell. */
  lemma GridSingle(f: (nat, nat) -> real, rows: nat, cols: nat, r0: nat, q0: nat)
    requires r0 < rows && q0 < cols
    requires forall r, q :: 0 <= r < rows && 0 <= q < cols && (r, q) != (r0, q0) ==> f(r, q) == 0.0
    ensures GridSum(f, rows, cols) == f(r0, q0)
  {
    forall r | 0 <= r < rows && r != r0 ensures RowSums(f, cols)(r) == 0.0 {
      SumOfZeros(cols, Row(f, r));
    }
    SumSingle(cols, Row(f, r0), q0);
    SumSingle(rows, RowSums(f, cols), r0);
  }

  /** A grid sum of zeros is zero. */
  lemma GridOfZeros(f: (nat, nat) -> real, rows: nat, cols: nat)
    requires forall r, q :: 0 <= r < rows && 0 <= q < cols ==> f(r, q) == 0.0
    ensures GridSum(f, rows, cols) == 0.0
  {
    forall r | 0 <= r < rows ensures RowSums(f, cols)(r) == 0.0 {
      SumOfZeros(cols, Row(f, r));
    }
    SumOfZeros(rows, RowSums(f, cols));
  }
}
