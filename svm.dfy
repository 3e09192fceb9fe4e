/** The multiclass SVM (hinge) loss, svm_loss (lines 1022-1044), for scores x
    (N x C) and labels y with 0 <= y[i] < C. */
module Svm {
  import opened Tensors

  /** margins[i, j] = max(0, x[i, j] - x[i, y[i]] + 1), and 0 for the correct class. */
  function Margin(x: Matrix, y: seq<nat>, i: nat, j: nat): real
    requires i < |y|
  {
    if j == y[i] then 0.0
    else if At2(x, i, j) - At2(x, i, y[i]) + 1.0 > 0.0 then At2(x, i, j) - At2(x, i, y[i]) + 1.0
    else 0.0
  }

  /** The margins as a grid of terms. */
  function Margins(x: Matrix, y: seq<nat>): (nat, nat) -> real {
    (i: nat, j: nat) => if i < |y| then Margin(x, y, i, j) else 0.0
  }

  /** 1 for a class with a positive margin, 0 otherwise. */
  function Violates(x: Matrix, y: seq<nat>, i: nat): nat -> real
    requires i < |y|
  {
    (j: nat) => if Margin(x, y, i, j) > 0.0 then 1.0 else 0.0
  }

  /** num_pos[i]: the number of classes of example i with a positive margin. */
  function NumPos(x: Matrix, y: seq<nat>, i: nat, c: nat): real
    requires i < |y|
  {
    Sum(c, Violates(x, y, i))
  }

  datatype SvmResult = SvmResult(loss: real, dx: Matrix)

  predicate ValidInput(x: Matrix, y: seq<nat>, n: nat, c: nat) {
    n >= 1 && IsMatrix(x, n, c) && |y| == n && forall i :: 0 <= i < n ==> y[i] < c
  }

  /** svm_loss: loss = sum(margins) / N, and dx = (1 where the margin is
      positive, minus num_pos at the correct class) / N.  The loss is never negative. */
  function SvmLoss(x: Matrix, y: seq<nat>, n: nat, c: nat): (r: SvmResult)
    requires ValidInput(x, y, n, c)
    ensures IsMatrix(r.dx, n, c)
    ensures r.loss >= 0.0
  {
    forall i | 0 <= i < n ensures RowSums(Margins(x, y), c)(i) >= 0.0 {
      SumNonNeg(c, Row(Margins(x, y), i));
    }
    SumNonNeg(n, RowSums(Margins(x, y), c));
    var loss := GridSum(Margins(x, y), n, c) / (n as real);
    SvmResult(loss, SvmGrad(x, y, n, c))
  }

  /** The gradient matrix dx of svm_loss. */
  function SvmGrad(x: Matrix, y: seq<nat>, n: nat, c: nat): (dx: Matrix)
    requires ValidInput(x, y, n, c)
    ensures IsMatrix(dx, n, c)
    ensures forall i, j :: 0 <= i < n && 0 <= j < c ==> dx[i][j] == GradEntry(x, y, n, c, i, j)
  {
    seq(n, (i: int) requires 0 <= i < n => seq(c, (j: int) requires 0 <= j < c => GradEntry(x, y, n, c, i, j)))
  }

  /** dx[i, j] after lines 1040-1043. */
  function GradEntry(x: Matrix, y: seq<nat>, n: nat, c: nat, i: nat, j: nat): real
    requires i < |y| && n >= 1
  {
    (Violates(x, y, i)(j) - (if j == y[i] then NumPos(x, y, i, c) else 0.0)) / (n as real)
  }

  /** A wrong class gets 1/N exactly when it violates the margin, and 0 otherwise. */
  lemma WrongClassGradient(x: Matrix, y: seq<nat>, n: nat, c: nat, i: nat, j: nat)
    requires ValidInput(x, y, n, c) && i < n && j < c && j != y[i]
    ensures SvmLoss(x, y, n, c).dx[i][j] ==
      if x[i][j] - x[i][y[i]] + 1.0 > 0.0 then 1.0 / (n as real) else 0.0
  {
  }

  /** The correct class gets minus the number of violating classes, over N. */
  lemma CorrectClassGradient(x: Matrix, y: seq<nat>, n: nat, c: nat, i: nat)
    requires ValidInput(x, y, n, c) && i < n
    ensures SvmLoss(x, y, n, c).dx[i][y[i]] == -NumPos(x, y, i, c) / (n as real)
  {
  }

  /** The correction of line 1042, -num_pos / N at the correct class. */
  function Correction(x: Matrix, y: seq<nat>, n: nat, c: nat, i: nat): nat -> real
    requires i < |y| && n >= 1
  {
    (j: nat) => if j == y[i] then -NumPos(x, y, i, c) / (n as real) else 0.0
  }

  /** The violation indicators scaled by 1 / N. */
  function ScaledViolations(x: Matrix, y: seq<nat>, n: nat, i: nat): nat -> real
    requires i < |y| && n >= 1
  {
    (j: nat) => Violates(x, y, i)(j) / (n as real)
  }

  lemma GradRowTerms(x: Matrix, y: seq<nat>, n: nat, c: nat, i: nat)
    requires ValidInput(x, y, n, c) && i < n
    ensures forall j :: 0 <= j < c ==>
      Entries(SvmGrad(x, y, n, c)[i])(j) == ScaledViolations(x, y, n, i)(j) + Correction(x, y, n, c, i)(j)
  {
    var dx := SvmGrad(x, y, n, c);
    forall j | 0 <= j < c
      ensures Entries(dx[i])(j) == ScaledViolations(x, y, n, i)(j) + Correction(x, y, n, c, i)(j)
    {
      assert dx[i][j] == GradEntry(x, y, n, c, i, j);
    }
  }

  /** Every row of dx sums to 0. */
  lemma GradientRowSumsToZero(x: Matrix, y: seq<nat>, n: nat, c: nat, i: nat)
    requires ValidInput(x, y, n, c) && i < n
    ensures VecSum(SvmLoss(x, y, n, c).dx[i]) == 0.0
  {
    var dx := SvmGrad(x, y, n, c);
    assert SvmLoss(x, y, n, c).dx == dx;
    GradRowTerms(x, y, n, c, i);
    SumAdd(c, ScaledViolations(x, y, n, i), Correction(x, y, n, c, i), Entries(dx[i]));
    ScaledViolationsSum(x, y, n, c, i);
    CorrectionSum(x, y, n, c, i);
    DivIsMul(NumPos(x, y, i, c), n as real);
  }

  lemma ScaledViolationsSum(x: Matrix, y: seq<nat>, n: nat, c: nat, i: nat)
    requires ValidInput(x, y, n, c) && i < n
    ensures Sum(c, ScaledViolations(x, y, n, i)) == (1.0 / (n as real)) * NumPos(x, y, i, c)
  {
    forall j | 0 <= j < c ensures ScaledViolations(x, y, n, i)(j) == (1.0 / (n as real)) * Violates(x, y, i)(j) {
      DivIsMul(Violates(x, y, i)(j), n as real);
    }
    SumScale(c, Violates(x, y, i), ScaledViolations(x, y, n, i), 1.0 / (n as real));
  }

  lemma CorrectionSum(x: Matrix, y: seq<nat>, n: nat, c: nat, i: nat)
    requires ValidInput(x, y, n, c) && i < n
    ensures Sum(c, Correction(x, y, n, c, i)) == -NumPos(x, y, i, c) / (n as real)
  {
    SumSingle(c, Correction(x, y, n, c, i), y[i]);
  }

  lemma DivIsMul(a: real, d: real)
    requires d != 0.0
    ensures a / d == (1.0 / d) * a && -a / d == -((1.0 / d) * a)
  {
  }

  /** The wrong class j of example i scores at least 1 below the correct class. */
  predicate ClearsMargin(x: Matrix, y: seq<nat>, i: nat, j: nat)
    requires i < |y|
  {
    At2(x, i, j) + 1.0 <= At2(x, i, y[i])
  }

  /** The loss is 0 exactly when every wrong class scores at least 1 below the
      correct class. */
  lemma ZeroLossIff(x: Matrix, y: seq<nat>, n: nat, c: nat)
    requires ValidInput(x, y, n, c)
    ensures SvmLoss(x, y, n, c).loss == 0.0 <==>
      forall i, j :: 0 <= i < n && 0 <= j < c && j != y[i] ==> ClearsMargin(x, y, i, j)
  {
    var M := Margins(x, y);
    forall i | 0 <= i < n
      ensures RowSums(M, c)(i) >= 0.0
      ensures RowSums(M, c)(i) == 0.0 <==> forall j :: 0 <= j < c ==> Row(M, i)(j) == 0.0
    {
      SumNonNeg(c, Row(M, i));
      SumZeroIff(c, Row(M, i));
    }
    SumZeroIff(n, RowSums(M, c));
    assert SvmLoss(x, y, n, c).loss == GridSum(M, n, c) / (n as real);
    forall i, j | 0 <= i < n && 0 <= j < c
      ensures Row(M, i)(j) == 0.0 <==> (j == y[i] || ClearsMargin(x, y, i, j))
    {
    }
  }
}
