/** The bookkeeping of batch normalization and layer normalization: mode dispatch,
    the per-feature (batch norm) or per-example (layer norm) statistics, the running
    averages written back into bn_param, the scale-and-shift by gamma and beta, and
    the dgamma/dbeta sums of the backward passes.

    The normalizing formula (x - mean) / sqrt(var + eps) is a parameter `normalize`
    of the model, applied elementwise to (x, mean, var, eps). */
module Normalization {
  import opened Tensors
  import opened Matrices

  /** (x, mean, var, eps) |-> the normalized value of x. */
  type Normalizer = (real, real, real, real) -> real

  /** The defaults of bn_param.get('eps', 1e-5) and bn_param.get('momentum', 0.9). */
  const DefaultEps: real := 0.00001
  const DefaultMomentum: real := 0.9

  /** bn_param: a dictionary that batchnorm_forward reads and writes back into. */
  class BatchNormParam {
    var mode: string
    var eps: Option<real>
    var momentum: Option<real>
    var runningMean: Option<Vector>
    var runningVar: Option<Vector>

    constructor (mode: string, eps: Option<real>, momentum: Option<real>,
                 runningMean: Option<Vector>, runningVar: Option<Vector>)
      ensures this.mode == mode && this.eps == eps && this.momentum == momentum
      ensures this.runningMean == runningMean && this.runningVar == runningVar
    {
      this.mode := mode;
      this.eps := eps;
      this.momentum := momentum;
      this.runningMean := runningMean;
      this.runningVar := runningVar;
    }
  }

  /** np.zeros(d). */
  function Zeros(d: nat): (z: Vector)
    ensures |z| == d && forall j :: 0 <= j < d ==> z[j] == 0.0
  {
    seq(d, (_: int) => 0.0)
  }

  /** np.mean(x, axis=0) of an n x d matrix. */
  function ColMean(x: Matrix, n: nat, d: nat): (mean: Vector)
    requires n >= 1
    ensures |mean| == d
  {
    seq(d, (j: int) requires 0 <= j < d => Sum(n, ColumnTerms(x, j)) / (n as real))
  }

  /** The squared deviations (x[i][j] - mu)^2 of column j. */
  function SquaredDeviations(x: Matrix, j: nat, mu: real): nat -> real {
    (i: nat) => (At2(x, i, j) - mu) * (At2(x, i, j) - mu)
  }

  /** np.mean((x - mean)**2, axis=0), the uncorrected variance: never negative. */
  function ColVar(x: Matrix, n: nat, d: nat): (v: Vector)
    requires n >= 1
    ensures |v| == d
    ensures forall j :: 0 <= j < d ==> v[j] >= 0.0
  {
    var mean := ColMean(x, n, d);
    forall j | 0 <= j < d ensures Sum(n, SquaredDeviations(x, j, mean[j])) >= 0.0 {
      SumNonNeg(n, SquaredDeviations(x, j, mean[j]));
    }
    seq(d, (j: int) requires 0 <= j < d => Sum(n, SquaredDeviations(x, j, mean[j])) / (n as real))
  }

  /** momentum * running + (1 - momentum) * batch. */
  function Ema(running: Vector, batch: Vector, momentum: real): (r: Vector)
    requires |running| == |batch|
    ensures |r| == |running|
  {
    seq(|running|, (j: int) requires 0 <= j < |running| => momentum * running[j] + (1.0 - momentum) * batch[j])
  }

  /** For 0 <= momentum <= 1 the update is a convex combination: each new value
      lies between the old running value and the batch value. */
  lemma EmaBetween(running: Vector, batch: Vector, momentum: real, j: nat)
    requires |running| == |batch| && j < |running| && 0.0 <= momentum <= 1.0
    ensures var r := Ema(running, batch, momentum)[j];
      (running[j] <= batch[j] ==> running[j] <= r <= batch[j]) &&
      (batch[j] <= running[j] ==> batch[j] <= r <= running[j])
  {
    var r := Ema(running, batch, momentum)[j];
    var gap := batch[j] - running[j];
    assert r - running[j] == (1.0 - momentum) * gap;
    assert batch[j] - r == momentum * gap;
    if gap >= 0.0 {
      MulNonNeg(1.0 - momentum, gap);
      MulNonNeg(momentum, gap);
    } else {
      MulNonNeg(1.0 - momentum, -gap);
      MulNonNeg(momentum, -gap);
    }
  }

  lemma MulNonNeg(a: real, b: real)
    requires a >= 0.0 && b >= 0.0
    ensures a * b >= 0.0
  {
  }

  /** A non-negative running variance stays non-negative after a training step. */
  lemma RunningVarStaysNonNegative(running: Vector, x: Matrix, n: nat, momentum: real)
    requires n >= 1 && 0.0 <= momentum <= 1.0
    requires forall j :: 0 <= j < |running| ==> running[j] >= 0.0
    ensures var r := Ema(running, ColVar(x, n, |running|), momentum);
      forall j :: 0 <= j < |running| ==> r[j] >= 0.0
  {
    var v := ColVar(x, n, |running|);
    forall j | 0 <= j < |running| ensures Ema(running, v, momentum)[j] >= 0.0 {
      EmaBetween(running, v, momentum, j);
    }
  }

  /** norm[i][j] = normalize(x[i][j], mean[j], var[j], eps): every feature j with
      its own statistics. */
  function NormalizeCols(x: Matrix, n: nat, d: nat, mean: Vector, variance: Vector, eps: real,
                         normalize: Normalizer): (norm: Matrix)
    ensures IsMatrix(norm, n, d)
    ensures forall i, j :: 0 <= i < n && 0 <= j < d ==>
      norm[i][j] == normalize(At2(x, i, j), At1(mean, j), At1(variance, j), eps)
  {
    seq(n, (i: int) => seq(d, (j: int) => normalize(At2(x, i, j), At1(mean, j), At1(variance, j), eps)))
  }

  /** One element of norm_data * gamma + beta. */
  function ScaleShiftAt(norm: real, gamma: real, beta: real): real {
    norm * gamma + beta
  }

  /** out = norm_data * gamma + beta. */
  function ScaleShift(norm: Matrix, gamma: Vector, beta: Vector, n: nat): (out: Matrix)
    requires IsMatrix(norm, n, |gamma|) && |beta| == |gamma|
    ensures IsMatrix(out, n, |gamma|)
  {
    AddRow(ScaleCols(norm, gamma, n), beta, n)
  }

  /** The cache (x, gamma, beta, eps, norm_data) of batch norm and layer norm. */
  datatype NormCache = NormCache(x: Matrix, gamma: Vector, beta: Vector, eps: real, norm: Matrix)

  /** The output and cache of a normalization with the given per-feature statistics. */
  function Normalized(x: Matrix, n: nat, d: nat, gamma: Vector, beta: Vector, mean: Vector, variance: Vector,
                      eps: real, normalize: Normalizer): (r: (Matrix, NormCache))
    requires IsMatrix(x, n, d) && |gamma| == d && |beta| == d
    ensures IsMatrix(r.0, n, d) && IsMatrix(r.1.norm, n, d)
    ensures r.1 == NormCache(x, gamma, beta, eps, NormalizeCols(x, n, d, mean, variance, eps, normalize))
    ensures forall i, j :: 0 <= i < n && 0 <= j < d ==>
      r.0[i][j] == ScaleShiftAt(r.1.norm[i][j], gamma[j], beta[j]) &&
      r.1.norm[i][j] == normalize(x[i][j], At1(mean, j), At1(variance, j), eps)
  {
    var norm := NormalizeCols(x, n, d, mean, variance, eps, normalize);
    (ScaleShift(norm, gamma, beta, n), NormCache(x, gamma, beta, eps, norm))
  }

  /** The running statistics, when stored, have one entry per feature. */
  predicate RunningStatsFit(runningMean: Option<Vector>, runningVar: Option<Vector>, d: nat) {
    (runningMean.Some? ==> |runningMean.value| == d) && (runningVar.Some? ==> |runningVar.value| == d)
  }

  /** batchnorm_forward (lines 109-206).  In 'train' mode the data are normalized
      with the batch mean and variance and the running averages move towards
      them; in 'test' mode the running averages (zeros when absent) are used and
      stored back unchanged; any other mode raises before anything is stored. */
  method BatchnormForward(x: Matrix, n: nat, d: nat, gamma: Vector, beta: Vector,
                          bn: BatchNormParam, normalize: Normalizer)
    returns (res: Result<(Matrix, NormCache)>)
    requires IsMatrix(x, n, d) && |gamma| == d && |beta| == d
    requires bn.mode == "train" ==> n >= 1
    requires bn.mode == "train" || bn.mode == "test" ==> RunningStatsFit(bn.runningMean, bn.runningVar, d)
    modifies bn
    ensures bn.mode == old(bn.mode) && bn.eps == old(bn.eps) && bn.momentum == old(bn.momentum)
    ensures var eps, m := old(bn.eps).GetOr(DefaultEps), old(bn.momentum).GetOr(DefaultMomentum);
      var rm, rv := old(bn.runningMean).GetOr(Zeros(d)), old(bn.runningVar).GetOr(Zeros(d));
      if old(bn.mode) == "train" then
        var mean, variance := ColMean(x, n, d), ColVar(x, n, d);
        bn.runningMean == Some(Ema(rm, mean, m)) && bn.runningVar == Some(Ema(rv, variance, m)) &&
        res == Ok(Normalized(x, n, d, gamma, beta, mean, variance, eps, normalize))
      else if old(bn.mode) == "test" then
        bn.runningMean == Some(rm) && bn.runningVar == Some(rv) &&
        res == Ok(Normalized(x, n, d, gamma, beta, rm, rv, eps, normalize))
      else
        bn.runningMean == old(bn.runningMean) && bn.runningVar == old(bn.runningVar) &&
        res == Err(InvalidMode(old(bn.mode)))
  {
    var eps := bn.eps.GetOr(DefaultEps);
    var momentum := bn.momentum.GetOr(DefaultMomentum);
    var runningMean := bn.runningMean.GetOr(Zeros(d));
    var runningVar := bn.runningVar.GetOr(Zeros(d));
    var outAndCache: (Matrix, NormCache);
    if bn.mode == "train" {
      var sampleMean := ColMean(x, n, d);
      var sampleVar := ColVar(x, n, d);
      outAndCache := Normalized(x, n, d, gamma, beta, sampleMean, sampleVar, eps, normalize);
      runningMean := Ema(runningMean, sampleMean, momentum);
      runningVar := Ema(runningVar, sampleVar, momentum);
    } else if bn.mode == "test" {
      outAndCache := Normalized(x, n, d, gamma, beta, runningMean, runningVar, eps, normalize);
    } else {
      return Err(InvalidMode(bn.mode));
    }
    bn.runningMean := Some(runningMean);
    bn.runningVar := Some(runningVar);
    return Ok(outAndCache);
  }

  /** np.mean(x, axis=1) of an n x d matrix; a row of no features has no values
      to normalize, and its mean is never used. */
  function RowMean(x: Matrix, n: nat, d: nat): (mean: Vector)
    ensures |mean| == n
  {
    seq(n, (i: int) requires 0 <= i < n => if d == 0 then 0.0 else Sum(d, Row(Elements(x), i)) / (d as real))
  }

  /** The elements of x as a grid of terms. */
  function Elements(x: Matrix): (nat, nat) -> real {
    (i: nat, j: nat) => At2(x, i, j)
  }

  /** The squared deviations of row i from mu. */
  function RowSquaredDeviations(x: Matrix, i: nat, mu: real): nat -> real {
    (j: nat) => (At2(x, i, j) - mu) * (At2(x, i, j) - mu)
  }

  /** np.mean((x - mean)**2, axis=1): never negative. */
  function RowVar(x: Matrix, n: nat, d: nat): (v: Vector)
    ensures |v| == n
    ensures forall i :: 0 <= i < n ==> v[i] >= 0.0
  {
    var mean := RowMean(x, n, d);
    forall i | 0 <= i < n ensures Sum(d, RowSquaredDeviations(x, i, mean[i])) >= 0.0 {
      SumNonNeg(d, RowSquaredDeviations(x, i, mean[i]));
    }
    seq(n, (i: int) requires 0 <= i < n =>
      if d == 0 then 0.0 else Sum(d, RowSquaredDeviations(x, i, mean[i])) / (d as real))
  }

  /** norm[i][j] = normalize(x[i][j], mean[i], var[i], eps): every example with
      its own statistics. */
  function NormalizeRows(x: Matrix, n: nat, d: nat, mean: Vector, variance: Vector, eps: real,
                         normalize: Normalizer): (norm: Matrix)
    ensures IsMatrix(norm, n, d)
    ensures forall i, j :: 0 <= i < n && 0 <= j < d ==>
      norm[i][j] == normalize(At2(x, i, j), At1(mean, i), At1(variance, i), eps)
  {
    seq(n, (i: int) => seq(d, (j: int) => normalize(At2(x, i, j), At1(mean, i), At1(variance, i), eps)))
  }

  /** layernorm_forward (lines 308-356): the same scale-and-shift as batch norm,
      with statistics taken over the features of each example. */
  function LayernormForward(x: Matrix, n: nat, d: nat, gamma: Vector, beta: Vector, eps: Option<real>,
                            normalize: Normalizer): (r: (Matrix, NormCache))
    requires IsMatrix(x, n, d) && |gamma| == d && |beta| == d
    ensures IsMatrix(r.0, n, d) && r.1.x == x && r.1.gamma == gamma && r.1.beta == beta
    ensures r.1.eps == eps.GetOr(DefaultEps) && IsMatrix(r.1.norm, n, d)
    ensures forall i, j :: 0 <= i < n && 0 <= j < d ==>
      r.0[i][j] == ScaleShiftAt(r.1.norm[i][j], gamma[j], beta[j]) &&
      r.1.norm[i][j] == normalize(x[i][j], RowMean(x, n, d)[i], RowVar(x, n, d)[i], eps.GetOr(DefaultEps))
  {
    var e := eps.GetOr(DefaultEps);
    var norm := NormalizeRows(x, n, d, RowMean(x, n, d), RowVar(x, n, d), e, normalize);
    (ScaleShift(norm, gamma, beta, n), NormCache(x, gamma, beta, e, norm))
  }

  // ---------------------------------------------------------------------------
  // dgamma and dbeta

  /** The dx of a backward pass, (dout, cache) |-> dx, whose formula divides by
      the square root of the variance. */
  type NormBackward = (Matrix, NormCache) -> Matrix

  datatype ParamGrads = ParamGrads(dgamma: Vector, dbeta: Vector)

  /** dgamma = np.sum(dout * norm_data, axis=0) and dbeta = np.sum(dout, axis=0),
      shared by batchnorm_backward (lines 237-238), batchnorm_backward_alt (lines
      287-288) and layernorm_backward_alt (lines 383-384). */
  function ParamGradients(dout: Matrix, norm: Matrix, n: nat, d: nat): (g: ParamGrads)
    ensures |g.dgamma| == d && |g.dbeta| == d
  {
    ParamGrads(ColSum(Hadamard(dout, norm, n, d), n, d), ColSum(dout, n, d))
  }

  /** dgamma and dbeta are the gradients of sum(dout * out) for out = norm * gamma + beta:
      that sum equals dgamma . gamma + dbeta . beta, for every gamma and beta. */
  lemma ParamGradientsAdjoint(dout: Matrix, norm: Matrix, gamma: Vector, beta: Vector, n: nat)
    requires IsMatrix(dout, n, |gamma|) && IsMatrix(norm, n, |gamma|) && |beta| == |gamma|
    ensures var g := ParamGradients(dout, norm, n, |gamma|);
      Inner(dout, ScaleShift(norm, gamma, beta, n), n, |gamma|) == Dot(g.dgamma, gamma) + Dot(g.dbeta, beta)
  {
    BiasAdjoint(dout, ScaleCols(norm, gamma, n), beta, n);
    ScaleAdjoint(dout, norm, gamma, n);
  }
}
