/** Spatial batch normalization: an (N, C, H, W) tensor is packed into an
    (N*H*W) x C matrix, so that every channel becomes one feature of vanilla batch
    normalization, and the result is unpacked back to (N, C, H, W). */
module SpatialBatchNorm {
  import opened Tensors
  import opened Windows
  import opened Matrices
  import opened Normalization

  /** The number of rows N*H*W of the packed matrix. */
  function PackedRows(xd: Dims): nat {
    xd.n * (xd.h * xd.w)
  }

  /** The entry of channel c at packed row r: the pixel (r / (H*W), (r / W) % H, r % W). */
  function PackedAt(x: Tensor4, xd: Dims, r: nat, c: nat): real {
    if xd.h == 0 || xd.w == 0 then 0.0
    else At4(x, r / (xd.h * xd.w), c, (r / xd.w) % xd.h, r % xd.w)
  }

  /** x.reshape(N, C, -1), concatenated along the pixels and transposed (lines
      843-845): an (N*H*W) x C matrix. */
  function Pack(x: Tensor4, xd: Dims): (m: Matrix)
    ensures IsMatrix(m, PackedRows(xd), xd.c)
    ensures forall r, c :: 0 <= r < PackedRows(xd) && 0 <= c < xd.c ==> m[r][c] == PackedAt(x, xd, r, c)
  {
    seq(PackedRows(xd), (r: int) requires 0 <= r => seq(xd.c, (c: int) requires 0 <= c => PackedAt(x, xd, r, c)))
  }

  /** np.split into N blocks of H*W rows, each transposed and reshaped to (C, H, W),
      then stacked (lines 851-855): pixel (n, h, w) of channel c is read from row
      n*H*W + h*W + w, column c. */
  function Unpack(m: Matrix, xd: Dims): (t: Tensor4)
    ensures HasDims(t, xd)
    ensures forall n, c, h, w :: 0 <= n < xd.n && 0 <= c < xd.c && 0 <= h < xd.h && 0 <= w < xd.w ==>
      t[n][c][h][w] == At2(m, n * (xd.h * xd.w) + h * xd.w + w, c)
  {
    seq(xd.n, (n: int) requires 0 <= n => seq(xd.c, (c: int) requires 0 <= c => seq(xd.h, (h: int) requires 0 <= h =>
      seq(xd.w, (w: int) requires 0 <= w => At2(m, n * (xd.h * xd.w) + h * xd.w + w, c)))))
  }

  /** The packing puts x[n][c][h][w] at row n*H*W + h*W + w, column c. */
  lemma PackPlacement(x: Tensor4, xd: Dims, n: nat, c: nat, h: nat, w: nat)
    requires n < xd.n && c < xd.c && h < xd.h && w < xd.w
    ensures n * (xd.h * xd.w) + h * xd.w + w < PackedRows(xd)
    ensures Pack(x, xd)[n * (xd.h * xd.w) + h * xd.w + w][c] == At4(x, n, c, h, w)
  {
    Flat3(n, h, w, xd.n, xd.h, xd.w);
  }

  /** Unpacking undoes packing. */
  lemma UnpackPack(x: Tensor4, xd: Dims)
    requires HasDims(x, xd)
    ensures Unpack(Pack(x, xd), xd) == x
  {
    var t := Unpack(Pack(x, xd), xd);
    forall n, c, h, w | 0 <= n < xd.n && 0 <= c < xd.c && 0 <= h < xd.h && 0 <= w < xd.w
      ensures t[n][c][h][w] == x[n][c][h][w]
    {
      PackPlacement(x, xd, n, c, h, w);
    }
    Tensor4Ext(t, x, xd);
  }

  /** Packing undoes unpacking: every packed row is the flat index of one pixel. */
  lemma PackUnpack(m: Matrix, xd: Dims)
    requires IsMatrix(m, PackedRows(xd), xd.c)
    ensures Pack(Unpack(m, xd), xd) == m
  {
    var p := Pack(Unpack(m, xd), xd);
    forall r, c | 0 <= r < PackedRows(xd) && 0 <= c < xd.c ensures p[r][c] == m[r][c] {
      PackUnpackCell(m, xd, r, c);
    }
    MatrixExt(p, m, PackedRows(xd), xd.c);
  }

  lemma PackUnpackCell(m: Matrix, xd: Dims, r: nat, c: nat)
    requires IsMatrix(m, PackedRows(xd), xd.c) && r < PackedRows(xd) && c < xd.c
    ensures Pack(Unpack(m, xd), xd)[r][c] == m[r][c]
  {
    Unflat3(r, xd.n, xd.h, xd.w);
    var n, h, w := r / (xd.h * xd.w), (r / xd.w) % xd.h, r % xd.w;
    var t := Unpack(m, xd);
    assert PackedAt(t, xd, r, c) == t[n][c][h][w];
    assert t[n][c][h][w] == At2(m, n * (xd.h * xd.w) + h * xd.w + w, c);
  }

  // ---------------------------------------------------------------------------
  // Per-channel totals are the column sums of the packed matrix

  lemma PlaneTotal(x: Tensor4, xd: Dims, c: nat, n: nat)
    requires c < xd.c && n < xd.n
    ensures Sum(xd.h * xd.w, Shift(ColumnTerms(Pack(x, xd), c), n * (xd.h * xd.w))) == PlaneTotals(x, xd, c)(n)
  {
    var f := Shift(ColumnTerms(Pack(x, xd), c), n * (xd.h * xd.w));
    forall h | 0 <= h < xd.h ensures PlaneRowTotals(x, xd, n, c)(h) == Sum(xd.w, Shift(f, h * xd.w)) {
      forall w | 0 <= w < xd.w ensures PixelTerms(x, n, c, h)(w) == Shift(f, h * xd.w)(w) {
        PackPlacement(x, xd, n, c, h, w);
      }
      SumExt(xd.w, PixelTerms(x, n, c, h), Shift(f, h * xd.w));
    }
    SumBlocks(xd.h, xd.w, f, PlaneRowTotals(x, xd, n, c));
  }

  /** Column c of the packed matrix sums to the total of channel c. */
  lemma PackedColumnSum(x: Tensor4, xd: Dims, c: nat)
    requires c < xd.c
    ensures Sum(PackedRows(xd), ColumnTerms(Pack(x, xd), c)) == ChannelTotal(x, xd, c)
  {
    forall n | 0 <= n < xd.n
      ensures PlaneTotals(x, xd, c)(n) == Sum(xd.h * xd.w, Shift(ColumnTerms(Pack(x, xd), c), n * (xd.h * xd.w)))
    {
      PlaneTotal(x, xd, c, n);
    }
    SumBlocks(xd.n, xd.h * xd.w, ColumnTerms(Pack(x, xd), c), PlaneTotals(x, xd, c));
  }

  /** In training the batch mean of feature c is the mean of channel c over all
      examples and pixels. */
  lemma TrainingMeanIsChannelMean(x: Tensor4, xd: Dims, c: nat)
    requires c < xd.c && PackedRows(xd) >= 1
    ensures ColMean(Pack(x, xd), PackedRows(xd), xd.c)[c] == ChannelTotal(x, xd, c) / (PackedRows(xd) as real)
  {
    PackedColumnSum(x, xd, c);
  }

  // ---------------------------------------------------------------------------
  // Forward and backward

  /** spatial_batchnorm_forward (lines 809-864).  x.reshape(N, C, -1) fails when
      N*C == 0 (the unknown extent cannot be inferred); otherwise this is
      batch normalization of the packed matrix, unpacked again. */
  method SpatialBatchnormForward(x: Tensor4, xd: Dims, gamma: Vector, beta: Vector,
                                 bn: BatchNormParam, normalize: Normalizer)
    returns (res: Result<(Tensor4, NormCache)>)
    requires HasDims(x, xd) && |gamma| == xd.c && |beta| == xd.c
    requires bn.mode == "train" && xd.n > 0 && xd.c > 0 ==> xd.h > 0 && xd.w > 0
    requires bn.mode == "train" || bn.mode == "test" ==> RunningStatsFit(bn.runningMean, bn.runningVar, xd.c)
    modifies bn
    ensures bn.mode == old(bn.mode) && bn.eps == old(bn.eps) && bn.momentum == old(bn.momentum)
    ensures xd.n == 0 || xd.c == 0 ==>
      res == Err(CannotReshape) && bn.runningMean == old(bn.runningMean) && bn.runningVar == old(bn.runningVar)
    ensures xd.n > 0 && xd.c > 0 ==>
      var p, rows, d := Pack(x, xd), PackedRows(xd), xd.c;
      var eps, m := old(bn.eps).GetOr(DefaultEps), old(bn.momentum).GetOr(DefaultMomentum);
      var rm, rv := old(bn.runningMean).GetOr(Zeros(d)), old(bn.runningVar).GetOr(Zeros(d));
      if old(bn.mode) == "train" then
        var mean, variance := ColMean(p, rows, d), ColVar(p, rows, d);
        var o := Normalized(p, rows, d, gamma, beta, mean, variance, eps, normalize);
        bn.runningMean == Some(Ema(rm, mean, m)) && bn.runningVar == Some(Ema(rv, variance, m)) &&
        res == Ok((Unpack(o.0, xd), o.1))
      else if old(bn.mode) == "test" then
        var o := Normalized(p, rows, d, gamma, beta, rm, rv, eps, normalize);
        bn.runningMean == Some(rm) && bn.runningVar == Some(rv) &&
        res == Ok((Unpack(o.0, xd), o.1))
      else
        bn.runningMean == old(bn.runningMean) && bn.runningVar == old(bn.runningVar) &&
        res == Err(InvalidMode(old(bn.mode)))
  {
    if xd.n == 0 || xd.c == 0 {
      return Err(CannotReshape);
    }
    var packed := Pack(x, xd);
    var r := BatchnormForward(packed, PackedRows(xd), xd.c, gamma, beta, bn, normalize);
    match r {
      case Err(e) => return Err(e);
      case Ok(oc) => return Ok((Unpack(oc.0, xd), oc.1));
    }
  }

  datatype SpatialGrads = SpatialGrads(dx: Tensor4, dgamma: Vector, dbeta: Vector)

  /** spatial_batchnorm_backward (lines 867-912): dout is packed like x, the
      vanilla backward pass runs on it, and dx is unpacked.  dbeta[c] is the total
      of dout over channel c, dgamma the column sums of the packed dout * norm_data. */
  function SpatialBatchnormBackward(dout: Tensor4, xd: Dims, cache: NormCache, dxOf: NormBackward)
    : (r: Result<SpatialGrads>)
    requires HasDims(dout, xd) && IsMatrix(cache.norm, PackedRows(xd), xd.c)
    ensures r.Err? <==> xd.n == 0 || xd.c == 0
    ensures r.Err? ==> r.error == CannotReshape
    ensures r.Ok? ==>
      var p := Pack(dout, xd);
      HasDims(r.value.dx, xd) && r.value.dx == Unpack(dxOf(p, cache), xd) &&
      r.value.dgamma == ParamGradients(p, cache.norm, PackedRows(xd), xd.c).dgamma &&
      |r.value.dbeta| == xd.c &&
      forall c :: 0 <= c < xd.c ==> r.value.dbeta[c] == ChannelTotal(dout, xd, c)
  {
    if xd.n == 0 || xd.c == 0 then Err(CannotReshape)
    else
      var p := Pack(dout, xd);
      var g := ParamGradients(p, cache.norm, PackedRows(xd), xd.c);
      forall c | 0 <= c < xd.c ensures g.dbeta[c] == ChannelTotal(dout, xd, c) {
        PackedColumnSum(dout, xd, c);
      }
      Ok(SpatialGrads(Unpack(dxOf(p, cache), xd), g.dgamma, g.dbeta))
  }
}
