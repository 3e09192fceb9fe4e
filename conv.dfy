/** The naive convolution layer, conv_forward_naive and conv_backward_naive.

    The input x (N, C, H, W) is zero-padded by `pad` on both sides of the two
    spatial axes; a window of the filter's size HH x WW slides over the padded
    input, driven by the source's counters: `i` (the window's centre row, starting
    at floor(HH/2) and stepping by `stride`), `j` likewise for columns, and the
    output position (oi, oj).  Forward writes one output column of all samples and
    filters per window; backward accumulates into dw and into a padded dx buffer,
    which is cropped at the end. */
module Conv {
  import opened Tensors
  import opened Windows

  /** conv_param: the optional keys 'stride' (default 1) and 'pad' (default 0). */
  datatype ConvParam = ConvParam(stride: Option<nat>, pad: Option<nat>)

  /** Everything the loops need: input dims, filter count and size, stride, pad,
      and the output extents that the forward pass allocates. */
  datatype ConvGeom = ConvGeom(
    x: Dims, f: nat, hh: nat, ww: nat, stride: nat, pad: nat, outH: nat, outW: nat)
  {
    /** Height and width of the padded input. */
    function PaddedH(): nat { x.h + 2 * pad }
    function PaddedW(): nat { x.w + 2 * pad }

    predicate Valid() {
      stride > 0 &&
      outH == WindowCount(PaddedH(), hh, stride) &&
      outW == WindowCount(PaddedW(), ww, stride)
    }
  }

  /** Reading the parameters and allocating the output, lines 513-531: a zero
      stride divides by zero, and a negative output extent makes np.zeros fail.
      Otherwise each output extent is the number of windows that fit. */
  function ConvSetup(xd: Dims, wd: Dims, param: ConvParam): (r: Result<ConvGeom>)
    ensures r.Ok? <==>
      param.stride.GetOr(1) > 0 &&
      xd.h + 2 * param.pad.GetOr(0) + 2 * param.stride.GetOr(1) > wd.h &&
      xd.w + 2 * param.pad.GetOr(0) + 2 * param.stride.GetOr(1) > wd.w
    ensures r.Err? ==> r.error == (if param.stride.GetOr(1) == 0 then ZeroDivision else NegativeDimension)
    ensures r.Ok? ==>
      r.value.Valid() && r.value.x == xd && r.value.f == wd.n &&
      r.value.hh == wd.h && r.value.ww == wd.w &&
      r.value.stride == param.stride.GetOr(1) && r.value.pad == param.pad.GetOr(0)
  {
    var stride := param.stride.GetOr(1);
    var pad := param.pad.GetOr(0);
    if stride == 0 then Err(ZeroDivision)
    else
      var outH := OutSize(xd.h + 2 * pad, wd.h, stride);
      var outW := OutSize(xd.w + 2 * pad, wd.w, stride);
      if outH < 0 || outW < 0 then Err(NegativeDimension)
      else Ok(ConvGeom(xd, wd.n, wd.h, wd.w, stride, pad, outH, outW))
  }

  /** The zero-padded input x1 = np.pad(x, pad): zero on the border, x inside. */
  function Padded(x: Tensor4, g: ConvGeom, n: int, c: int, h: int, w: int): real {
    if g.pad <= h < g.x.h + g.pad && g.pad <= w < g.x.w + g.pad
    then At4(x, n, c, h - g.pad, w - g.pad)
    else 0.0
  }

  /** b[f] plus the product-sum of filter f with the padded window of sample n
      whose top-left corner is (top, left). */
  function ConvWindow(x: Tensor4, w: Tensor4, b: Vector, g: ConvGeom,
                      n: nat, f: nat, top: nat, left: nat): real
  {
    At1(b, f) + Sum(g.x.c, ChannelTerms(x, w, g, n, f, top, left))
  }

  /** The window product-sum split by channel c, by filter row a, and by column e. */
  function ChannelTerms(x: Tensor4, w: Tensor4, g: ConvGeom, n: nat, f: nat, top: nat, left: nat): nat -> real {
    (c: nat) => Sum(g.hh, RowTerms(x, w, g, n, f, top, left, c))
  }

  function RowTerms(x: Tensor4, w: Tensor4, g: ConvGeom, n: nat, f: nat, top: nat, left: nat, c: nat): nat -> real {
    (a: nat) => Sum(g.ww, ColTerms(x, w, g, n, f, top, left, c, a))
  }

  function ColTerms(x: Tensor4, w: Tensor4, g: ConvGeom, n: nat, f: nat, top: nat, left: nat, c: nat, a: nat): nat -> real {
    (e: nat) => Padded(x, g, n, c, top + a, left + e) * At4(w, f, c, a, e)
  }

  /** The value of output cell (n, f, oi, oj): the window's corner is (oi*stride, oj*stride). */
  function ConvAt(x: Tensor4, w: Tensor4, b: Vector, g: ConvGeom,
                  n: nat, f: nat, oi: nat, oj: nat): real
  {
    ConvWindow(x, w, b, g, n, f, oi * g.stride, oj * g.stride)
  }

  /** One pass of the inner while-loop of lines 536-545: the windows of output row
      oi, whose top edge is row top of the padded input, from left to right. */
  method ConvRow(out: array4<real>, x: Tensor4, w: Tensor4, b: Vector, g: ConvGeom, oi: nat, top: nat)
    requires g.Valid() && oi < g.outH && top == oi * g.stride
    requires out.Length0 == g.x.n && out.Length1 == g.f && out.Length2 == g.outH && out.Length3 == g.outW
    modifies out
    ensures forall n, f, r, q :: 0 <= n < g.x.n && 0 <= f < g.f && 0 <= r < g.outH && 0 <= q < g.outW ==>
      out[n, f, r, q] == if r == oi then ConvAt(x, w, b, g, n, f, r, q) else old(out[n, f, r, q])
  {
    var j, oj := g.ww / 2, 0;
    while j + (g.ww + 1) / 2 <= g.PaddedW()
      invariant 0 <= oj <= g.outW
      invariant j == oj * g.stride + g.ww / 2
      invariant forall n, f, r, q :: 0 <= n < g.x.n && 0 <= f < g.f && 0 <= r < g.outH && 0 <= q < g.outW ==>
        out[n, f, r, q] == if r == oi && q < oj then ConvAt(x, w, b, g, n, f, r, q) else old(out[n, f, r, q])
      decreases g.outW - oj
    {
      WindowFits(g.PaddedW(), g.ww, g.stride, oj);
      var left := j - g.ww / 2;
      forall n, f | 0 <= n < g.x.n && 0 <= f < g.f {
        out[n, f, oi, oj] := ConvWindow(x, w, b, g, n, f, top, left);
      }
      MulSucc(oj, g.stride);
      j, oj := j + g.stride, oj + 1;
    }
    WindowFits(g.PaddedW(), g.ww, g.stride, oj);
  }

  /** conv_forward_naive (lines 484-557).  The while-loops visit exactly the
      outH x outW window positions that fit in the padded input, so every cell of
      the allocated output is written, with the bias plus the window product-sum. */
  method ConvForward(x: Tensor4, xd: Dims, w: Tensor4, wd: Dims, b: Vector, param: ConvParam)
    returns (res: Result<array4<real>>)
    requires HasDims(x, xd) && HasDims(w, wd) && wd.c == xd.c && |b| == wd.n
    ensures res.Err? <==> ConvSetup(xd, wd, param).Err?
    ensures res.Err? ==> res.error == ConvSetup(xd, wd, param).error
    ensures res.Ok? ==>
      var g := ConvSetup(xd, wd, param).value;
      var out := res.value;
      fresh(out) &&
      out.Length0 == xd.n && out.Length1 == wd.n && out.Length2 == g.outH && out.Length3 == g.outW &&
      forall n, f, oi, oj :: 0 <= n < xd.n && 0 <= f < wd.n && 0 <= oi < g.outH && 0 <= oj < g.outW ==>
        out[n, f, oi, oj] == ConvAt(x, w, b, g, n, f, oi, oj)
  {
    var setup := ConvSetup(xd, wd, param);
    if setup.Err? {
      return Err(setup.error);
    }
    var g := setup.value;
    var N, F := xd.n, wd.n;
    var out := new real[N, F, g.outH, g.outW]((_, _, _, _) => 0.0);
    var i, oi := wd.h / 2, 0;
    while i + (wd.h + 1) / 2 <= g.PaddedH()
      invariant 0 <= oi <= g.outH
      invariant i == oi * g.stride + wd.h / 2
      invariant forall n, f, r, q :: 0 <= n < N && 0 <= f < F && 0 <= r < g.outH && 0 <= q < g.outW ==>
        out[n, f, r, q] == if r < oi then ConvAt(x, w, b, g, n, f, r, q) else 0.0
      decreases g.outH - oi
    {
      WindowFits(g.PaddedH(), wd.h, g.stride, oi);
      ConvRow(out, x, w, b, g, oi, i - wd.h / 2);
      MulSucc(oi, g.stride);
      i, oi := i + g.stride, oi + 1;
    }
    WindowFits(g.PaddedH(), wd.h, g.stride, oi);
    return Ok(out);
  }

  // ---------------------------------------------------------------------------
  // Backward pass

  /** What window (oi, oj) with top-left corner (top, left) adds to dw[f, c, a, e]:
      the sum over samples of dout[n, f, oi, oj] * x1[n, c, top + a, left + e]. */
  function DwWindow(dout: Tensor4, x: Tensor4, g: ConvGeom, f: nat, c: nat, a: nat, e: nat,
                    oi: nat, oj: nat, top: nat, left: nat): real
  {
    Sum(g.x.n, (n: nat) => At4(dout, n, f, oi, oj) * Padded(x, g, n, c, top + a, left + e))
  }

  /** The contributions to dw[f, c, a, e] of all windows, by output position. */
  function DwTerms(dout: Tensor4, x: Tensor4, g: ConvGeom, f: nat, c: nat, a: nat, e: nat): (nat, nat) -> real {
    (oi: nat, oj: nat) => DwWindow(dout, x, g, f, c, a, e, oi, oj, oi * g.stride, oj * g.stride)
  }

  /** dw[f, c, a, e] = sum over n, oi, oj of dout[n, f, oi, oj] * x1[n, c, oi*stride + a, oj*stride + e]. */
  function DwAt(dout: Tensor4, x: Tensor4, g: ConvGeom, f: nat, c: nat, a: nat, e: nat): real {
    GridSum(DwTerms(dout, x, g, f, c, a, e), g.outH, g.outW)
  }

  /** What window (oi, oj) with top-left corner (top, left) adds to the padded
      gradient buffer at (n, c, h, q): the filters weighted by dout[n, :, oi, oj]
      when (h, q) lies in the window, nothing otherwise. */
  function DxWindow(dout: Tensor4, w: Tensor4, g: ConvGeom, n: nat, c: nat, h: nat, q: nat,
                    oi: nat, oj: nat, top: nat, left: nat): real
  {
    if top <= h < top + g.hh && left <= q < left + g.ww
    then Sum(g.f, (f: nat) => At4(dout, n, f, oi, oj) * At4(w, f, c, h - top, q - left))
    else 0.0
  }

  /** The contributions to dx1[n, c, h, q] of all windows, by output position. */
  function DxTerms(dout: Tensor4, w: Tensor4, g: ConvGeom, n: nat, c: nat, h: nat, q: nat): (nat, nat) -> real {
    (oi: nat, oj: nat) => DxWindow(dout, w, g, n, c, h, q, oi, oj, oi * g.stride, oj * g.stride)
  }

  /** The padded input gradient dx1[n, c, h, q]: overlapping windows add up. */
  function DxPaddedAt(dout: Tensor4, w: Tensor4, g: ConvGeom, n: nat, c: nat, h: nat, q: nat): real {
    GridSum(DxTerms(dout, w, g, n, c, h, q), g.outH, g.outW)
  }

  /** db = np.sum(dout, axis=(0, 2, 3)), line 634. */
  function ConvBiasGrad(dout: Tensor4, g: ConvGeom): (db: Vector)
    ensures |db| == g.f
  {
    seq(g.f, (f: int) =>
      Sum(g.x.n, (n: nat) => GridSum((r: nat, q: nat) => At4(dout, n, f, r, q), g.outH, g.outW)))
  }

  /** The dw part of conv_backward_naive (lines 602-626): for every filter, every
      window position adds, over the batch, dout times the padded input window. */
  method ConvWeightGrad(dout: Tensor4, x: Tensor4, g: ConvGeom) returns (dw: array4<real>)
    requires g.Valid()
    ensures fresh(dw)
    ensures dw.Length0 == g.f && dw.Length1 == g.x.c && dw.Length2 == g.hh && dw.Length3 == g.ww
    ensures forall f, c, a, e :: 0 <= f < g.f && 0 <= c < g.x.c && 0 <= a < g.hh && 0 <= e < g.ww ==>
      dw[f, c, a, e] == DwAt(dout, x, g, f, c, a, e)
  {
    var F, C := g.f, g.x.c;
    dw := new real[F, C, g.hh, g.ww]((_, _, _, _) => 0.0);
    for f := 0 to F
      invariant forall f', c, a, e :: 0 <= f' < F && 0 <= c < C && 0 <= a < g.hh && 0 <= e < g.ww ==>
        dw[f', c, a, e] == if f' < f then DwAt(dout, x, g, f', c, a, e) else 0.0
    {
      var i, oi := g.hh / 2, 0;
      while i + (g.hh + 1) / 2 <= g.PaddedH()
        invariant 0 <= oi <= g.outH
        invariant i == oi * g.stride + g.hh / 2
        invariant forall f', c, a, e :: 0 <= f' < F && 0 <= c < C && 0 <= a < g.hh && 0 <= e < g.ww ==>
          dw[f', c, a, e] ==
            if f' < f then DwAt(dout, x, g, f', c, a, e)
            else if f' == f then GridPartial(DwTerms(dout, x, g, f', c, a, e), g.outW, oi, 0)
            else 0.0
        decreases g.outH - oi
      {
        WindowFits(g.PaddedH(), g.hh, g.stride, oi);
        WeightGradRow(dw, dout, x, g, f, oi, i - g.hh / 2);
        MulSucc(oi, g.stride);
        i, oi := i + g.stride, oi + 1;
      }
      WindowFits(g.PaddedH(), g.hh, g.stride, oi);
      forall c, a, e | 0 <= c < C && 0 <= a < g.hh && 0 <= e < g.ww {
        GridNextRow(DwTerms(dout, x, g, f, c, a, e), g.outW, oi);
      }
    }
  }

  /** One pass of the inner while-loop of lines 612-621 for filter f: the windows
      of output row oi, from left to right, each adding its DwWindow to dw[f]. */
  method WeightGradRow(dw: array4<real>, dout: Tensor4, x: Tensor4, g: ConvGeom, f: nat, oi: nat, top: nat)
    requires g.Valid() && f < g.f && oi < g.outH && top == oi * g.stride
    requires dw.Length0 == g.f && dw.Length1 == g.x.c && dw.Length2 == g.hh && dw.Length3 == g.ww
    modifies dw
    ensures forall f', c, a, e :: 0 <= f' < g.f && 0 <= c < g.x.c && 0 <= a < g.hh && 0 <= e < g.ww ==>
      dw[f', c, a, e] ==
        if f' == f then old(dw[f', c, a, e]) + Sum(g.outW, Row(DwTerms(dout, x, g, f', c, a, e), oi))
        else old(dw[f', c, a, e])
  {
    var j, oj := g.ww / 2, 0;
    while j + (g.ww + 1) / 2 <= g.PaddedW()
      invariant 0 <= oj <= g.outW
      invariant j == oj * g.stride + g.ww / 2
      invariant forall f', c, a, e :: 0 <= f' < g.f && 0 <= c < g.x.c && 0 <= a < g.hh && 0 <= e < g.ww ==>
        dw[f', c, a, e] ==
          if f' == f then old(dw[f', c, a, e]) + Sum(oj, Row(DwTerms(dout, x, g, f', c, a, e), oi))
          else old(dw[f', c, a, e])
      decreases g.outW - oj
    {
      WindowFits(g.PaddedW(), g.ww, g.stride, oj);
      var left := j - g.ww / 2;
      forall c, a, e | 0 <= c < g.x.c && 0 <= a < g.hh && 0 <= e < g.ww
        ensures Sum(oj + 1, Row(DwTerms(dout, x, g, f, c, a, e), oi)) ==
                Sum(oj, Row(DwTerms(dout, x, g, f, c, a, e), oi)) + DwWindow(dout, x, g, f, c, a, e, oi, oj, top, left)
      {
        assert Row(DwTerms(dout, x, g, f, c, a, e), oi)(oj) == DwWindow(dout, x, g, f, c, a, e, oi, oj, top, left);
      }
      forall c, a, e | 0 <= c < g.x.c && 0 <= a < g.hh && 0 <= e < g.ww {
        dw[f, c, a, e] := dw[f, c, a, e] + DwWindow(dout, x, g, f, c, a, e, oi, oj, top, left);
      }
      MulSucc(oj, g.stride);
      j, oj := j + g.stride, oj + 1;
    }
    WindowFits(g.PaddedW(), g.ww, g.stride, oj);
  }

  /** The dx part of conv_backward_naive (lines 639-678): every window adds the
      filters, weighted by that window's output gradient, into the padded buffer
      dx1, so overlapping windows accumulate; dx is then the crop
      [pad, H + pad) x [pad, W + pad) of dx1, of the same shape as x. */
  method ConvInputGrad(dout: Tensor4, w: Tensor4, g: ConvGeom) returns (dx: array4<real>)
    requires g.Valid()
    ensures fresh(dx)
    ensures dx.Length0 == g.x.n && dx.Length1 == g.x.c && dx.Length2 == g.x.h && dx.Length3 == g.x.w
    ensures forall n, c, h, q :: 0 <= n < g.x.n && 0 <= c < g.x.c && 0 <= h < g.x.h && 0 <= q < g.x.w ==>
      dx[n, c, h, q] == DxPaddedAt(dout, w, g, n, c, h + g.pad, q + g.pad)
  {
    var dx1 := PaddedInputGrad(dout, w, g);
    dx := new real[g.x.n, g.x.c, g.x.h, g.x.w]((_, _, _, _) => 0.0);
    forall n, c, h, q | 0 <= n < g.x.n && 0 <= c < g.x.c && 0 <= h < g.x.h && 0 <= q < g.x.w {
      dx[n, c, h, q] := dx1[n, c, h + g.pad, q + g.pad];
    }
  }

  /** The loops of lines 641-674, which fill the padded buffer dx1. */
  method PaddedInputGrad(dout: Tensor4, w: Tensor4, g: ConvGeom) returns (dx1: array4<real>)
    requires g.Valid()
    ensures fresh(dx1)
    ensures dx1.Length0 == g.x.n && dx1.Length1 == g.x.c
    ensures dx1.Length2 == g.PaddedH() && dx1.Length3 == g.PaddedW()
    ensures forall n, c, h, q :: 0 <= n < g.x.n && 0 <= c < g.x.c && 0 <= h < g.PaddedH() && 0 <= q < g.PaddedW() ==>
      dx1[n, c, h, q] == DxPaddedAt(dout, w, g, n, c, h, q)
  {
    var N, C := g.x.n, g.x.c;
    var H1, W1 := g.PaddedH(), g.PaddedW();
    dx1 := new real[N, C, H1, W1]((_, _, _, _) => 0.0);
    var i, oi := g.hh / 2, 0;
    while i + (g.hh + 1) / 2 <= H1
      invariant 0 <= oi <= g.outH
      invariant i == oi * g.stride + g.hh / 2
      invariant forall n, c, h, q :: 0 <= n < N && 0 <= c < C && 0 <= h < H1 && 0 <= q < W1 ==>
        dx1[n, c, h, q] == GridPartial(DxTerms(dout, w, g, n, c, h, q), g.outW, oi, 0)
      decreases g.outH - oi
    {
      WindowFits(H1, g.hh, g.stride, oi);
      InputGradRow(dx1, dout, w, g, oi, i - g.hh / 2);
      forall n, c, h, q | 0 <= n < N && 0 <= c < C && 0 <= h < H1 && 0 <= q < W1 {
        GridNextRow(DxTerms(dout, w, g, n, c, h, q), g.outW, oi);
      }
      MulSucc(oi, g.stride);
      i, oi := i + g.stride, oi + 1;
    }
    WindowFits(H1, g.hh, g.stride, oi);
  }

  /** One pass of the inner while-loop of lines 656-669: the windows of output row
      oi, from left to right, each adding its gradient into dx1. */
  method InputGradRow(dx1: array4<real>, dout: Tensor4, w: Tensor4, g: ConvGeom, oi: nat, top: nat)
    requires g.Valid() && oi < g.outH && top == oi * g.stride
    requires dx1.Length0 == g.x.n && dx1.Length1 == g.x.c
    requires dx1.Length2 == g.PaddedH() && dx1.Length3 == g.PaddedW()
    modifies dx1
    ensures forall n, c, h, q :: 0 <= n < g.x.n && 0 <= c < g.x.c && 0 <= h < g.PaddedH() && 0 <= q < g.PaddedW() ==>
      dx1[n, c, h, q] == old(dx1[n, c, h, q]) + Sum(g.outW, Row(DxTerms(dout, w, g, n, c, h, q), oi))
  {
    WindowFits(g.PaddedH(), g.hh, g.stride, oi);
    var j, oj := g.ww / 2, 0;
    while j + (g.ww + 1) / 2 <= g.PaddedW()
      invariant 0 <= oj <= g.outW
      invariant j == oj * g.stride + g.ww / 2
      invariant forall n, c, h, q :: 0 <= n < g.x.n && 0 <= c < g.x.c && 0 <= h < g.PaddedH() && 0 <= q < g.PaddedW() ==>
        dx1[n, c, h, q] == old(dx1[n, c, h, q]) + Sum(oj, Row(DxTerms(dout, w, g, n, c, h, q), oi))
      decreases g.outW - oj
    {
      WindowFits(g.PaddedW(), g.ww, g.stride, oj);
      var left := j - g.ww / 2;
      forall n, c, h, q | 0 <= n < g.x.n && 0 <= c < g.x.c && 0 <= h < g.PaddedH() && 0 <= q < g.PaddedW()
        ensures Sum(oj + 1, Row(DxTerms(dout, w, g, n, c, h, q), oi)) ==
                Sum(oj, Row(DxTerms(dout, w, g, n, c, h, q), oi)) + DxWindow(dout, w, g, n, c, h, q, oi, oj, top, left)
      {
        assert Row(DxTerms(dout, w, g, n, c, h, q), oi)(oj) == DxWindow(dout, w, g, n, c, h, q, oi, oj, top, left);
      }
      AddWindowGrad(dx1, dout, w, g, oi, oj, top, left);
      MulSucc(oj, g.stride);
      j, oj := j + g.stride, oj + 1;
    }
    WindowFits(g.PaddedW(), g.ww, g.stride, oj);
  }

  /** One window's step of the dx loop, lines 658-666:
      dx1[:, :, top:top+HH, left:left+WW] += sum over f of dout[:, f, oi, oj] * w[f]. */
  method AddWindowGrad(dx1: array4<real>, dout: Tensor4, w: Tensor4, g: ConvGeom,
                       oi: nat, oj: nat, top: nat, left: nat)
    requires dx1.Length0 == g.x.n && dx1.Length1 == g.x.c
    requires dx1.Length2 == g.PaddedH() && dx1.Length3 == g.PaddedW()
    requires top + g.hh <= g.PaddedH() && left + g.ww <= g.PaddedW()
    modifies dx1
    ensures forall n, c, h, q :: 0 <= n < g.x.n && 0 <= c < g.x.c && 0 <= h < g.PaddedH() && 0 <= q < g.PaddedW() ==>
      dx1[n, c, h, q] == old(dx1[n, c, h, q]) + DxWindow(dout, w, g, n, c, h, q, oi, oj, top, left)
  {
    forall n, c, h, q | 0 <= n < g.x.n && 0 <= c < g.x.c && top <= h < top + g.hh && left <= q < left + g.ww {
      dx1[n, c, h, q] := dx1[n, c, h, q] + DxWindow(dout, w, g, n, c, h, q, oi, oj, top, left);
    }
  }

  /** conv_backward_naive (lines 560-685), given the cache of a successful forward
      pass: x, w, b and conv_param, and dout of the forward output's shape. */
  method ConvBackward(dout: Tensor4, x: Tensor4, xd: Dims, w: Tensor4, wd: Dims, b: Vector, param: ConvParam)
    returns (dx: array4<real>, dw: array4<real>, db: Vector)
    requires HasDims(x, xd) && HasDims(w, wd) && wd.c == xd.c && |b| == wd.n
    requires ConvSetup(xd, wd, param).Ok?
    requires HasDims(dout, Dims(xd.n, wd.n, ConvSetup(xd, wd, param).value.outH, ConvSetup(xd, wd, param).value.outW))
    ensures var g := ConvSetup(xd, wd, param).value;
      fresh(dx) && fresh(dw) &&
      dx.Length0 == xd.n && dx.Length1 == xd.c && dx.Length2 == xd.h && dx.Length3 == xd.w &&
      dw.Length0 == wd.n && dw.Length1 == wd.c && dw.Length2 == wd.h && dw.Length3 == wd.w &&
      (forall f, c, a, e :: 0 <= f < wd.n && 0 <= c < wd.c && 0 <= a < wd.h && 0 <= e < wd.w ==>
         dw[f, c, a, e] == DwAt(dout, x, g, f, c, a, e)) &&
      db == ConvBiasGrad(dout, g) &&
      (forall n, c, h, q :: 0 <= n < xd.n && 0 <= c < xd.c && 0 <= h < xd.h && 0 <= q < xd.w ==>
         dx[n, c, h, q] == DxPaddedAt(dout, w, g, n, c, h + g.pad, q + g.pad))
  {
    var g := ConvSetup(xd, wd, param).value;
    dw := ConvWeightGrad(dout, x, g);
    db := ConvBiasGrad(dout, g);
    dx := ConvInputGrad(dout, w, g);
  }

  // ---------------------------------------------------------------------------
  // The single-filter identity case: one 3 x 3 filter that is 1 at its centre and
  // 0 elsewhere, stride 1, pad 1, zero bias.

  predicate IsCentreFilter(w: Tensor4) {
    HasDims(w, Dims(1, 1, 3, 3)) &&
    forall a, e :: 0 <= a < 3 && 0 <= e < 3 ==> w[0][0][a][e] == if a == 1 && e == 1 then 1.0 else 0.0
  }

  /** With the centre filter, stride 1 and pad 1, the forward pass keeps the
      input's height and width and reproduces the input. */
  lemma CentreFilterForward(x: Tensor4, xd: Dims, w: Tensor4, n: nat, h: nat, q: nat)
    requires HasDims(x, xd) && xd.c == 1 && IsCentreFilter(w)
    requires n < xd.n && h < xd.h && q < xd.w
    ensures var r := ConvSetup(xd, Dims(1, 1, 3, 3), ConvParam(Some(1), Some(1)));
      r.Ok? && r.value.outH == xd.h && r.value.outW == xd.w &&
      ConvAt(x, w, [0.0], r.value, n, 0, h, q) == x[n][0][h][q]
  {
    var g := ConvSetup(xd, Dims(1, 1, 3, 3), ConvParam(Some(1), Some(1))).value;
    forall a | 0 <= a < 3
      ensures RowTerms(x, w, g, n, 0, h, q, 0)(a) == if a == 1 then x[n][0][h][q] else 0.0
    {
      forall e | 0 <= e < 3 && e != 1 ensures ColTerms(x, w, g, n, 0, h, q, 0, a)(e) == 0.0 {
      }
      SumSingle(3, ColTerms(x, w, g, n, 0, h, q, 0, a), 1);
      assert ColTerms(x, w, g, n, 0, h, q, 0, a)(1) == Padded(x, g, n, 0, h + a, q + 1) * w[0][0][a][1];
      assert Padded(x, g, n, 0, h + 1, q + 1) == x[n][0][h][q];
    }
    SumSingle(3, RowTerms(x, w, g, n, 0, h, q, 0), 1);
  }

  /** With the centre filter, stride 1 and pad 1, the backward pass hands every
      output gradient back to the input position it came from: dx == dout. */
  lemma CentreFilterBackward(dout: Tensor4, xd: Dims, w: Tensor4, n: nat, h: nat, q: nat)
    requires xd.c == 1 && IsCentreFilter(w)
    requires HasDims(dout, Dims(xd.n, 1, xd.h, xd.w))
    requires n < xd.n && h < xd.h && q < xd.w
    ensures var r := ConvSetup(xd, Dims(1, 1, 3, 3), ConvParam(Some(1), Some(1)));
      r.Ok? && DxPaddedAt(dout, w, r.value, n, 0, h + 1, q + 1) == dout[n][0][h][q]
  {
    var g := ConvSetup(xd, Dims(1, 1, 3, 3), ConvParam(Some(1), Some(1))).value;
    var T := DxTerms(dout, w, g, n, 0, h + 1, q + 1);
    forall r, c | 0 <= r < g.outH && 0 <= c < g.outW && (r, c) != (h, q) ensures T(r, c) == 0.0 {
    }
    GridSingle(T, g.outH, g.outW, h, q);
  }
}
