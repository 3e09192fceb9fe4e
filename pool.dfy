/** The naive max-pooling layer, max_pool_forward_naive and max_pool_backward_naive.

    Windows of pool_height x pool_width start at the corner (i, j), both counters
    starting at 0 and stepping by `stride` while the window still fits in the
    unpadded input.  Forward stores each window's maximum; backward sends a
    window's upstream gradient to every position of the window that equals the
    window's maximum (all of them when there is a tie), and windows that overlap
    add up their contributions. */
module Pool {
  import opened Tensors
  import opened Windows

  /** pool_param: the optional keys 'pool_height' (default 3), 'pool_width'
      (default 3) and 'stride' (default 2). */
  datatype PoolParam = PoolParam(poolHeight: Option<nat>, poolWidth: Option<nat>, stride: Option<nat>)

  /** Input dims, window size, stride and the allocated output extents. */
  datatype PoolGeom = PoolGeom(x: Dims, ph: nat, pw: nat, stride: nat, outH: nat, outW: nat)
  {
    predicate Valid() {
      stride > 0 &&
      outH == WindowCount(x.h, ph, stride) &&
      outW == WindowCount(x.w, pw, stride) &&
      (outH > 0 && outW > 0 ==> ph > 0 && pw > 0)
    }
  }

  /** Reading the parameters, allocating the output and taking the first window
      maximum (lines 709-729): a zero stride divides by zero, a negative output
      extent makes np.zeros fail, and an empty window that the loops reach makes
      np.amax fail. */
  function PoolSetup(xd: Dims, param: PoolParam): (r: Result<PoolGeom>)
    ensures var ph, pw, s := param.poolHeight.GetOr(3), param.poolWidth.GetOr(3), param.stride.GetOr(2);
      (r.Ok? <==>
         s > 0 && xd.h + 2 * s > ph && xd.w + 2 * s > pw &&
         !((ph == 0 || pw == 0) && ph <= xd.h && pw <= xd.w)) &&
      (r.Err? ==>
         r.error == if s == 0 then ZeroDivision
                    else if xd.h + 2 * s <= ph || xd.w + 2 * s <= pw then NegativeDimension
                    else EmptyReduction) &&
      (r.Ok? ==>
         r.value.Valid() && r.value.x == xd && r.value.ph == ph && r.value.pw == pw && r.value.stride == s)
  {
    var ph := param.poolHeight.GetOr(3);
    var pw := param.poolWidth.GetOr(3);
    var s := param.stride.GetOr(2);
    if s == 0 then Err(ZeroDivision)
    else
      var outH := OutSize(xd.h, ph, s);
      var outW := OutSize(xd.w, pw, s);
      if outH < 0 || outW < 0 then Err(NegativeDimension)
      else if (ph == 0 || pw == 0) && ph <= xd.h && pw <= xd.w then Err(EmptyReduction)
      else Ok(PoolGeom(xd, ph, pw, s, outH, outW))
  }

  /** The largest of f(0), ..., f(k - 1). */
  function MaxOf(k: nat, f: nat -> real): (m: real)
    requires k > 0
    ensures forall i :: 0 <= i < k ==> f(i) <= m
    ensures exists i :: 0 <= i < k && f(i) == m
  {
    if k == 1 then f(0)
    else
      var m' := MaxOf(k - 1, f);
      if f(k - 1) > m' then f(k - 1) else m'
  }

  /** Row h of a window, from column `left` on. */
  function WindowRow(x: Tensor4, n: nat, c: nat, h: nat, left: nat): nat -> real {
    (e: nat) => At4(x, n, c, h, left + e)
  }

  /** The maxima of the window's rows. */
  function RowMaxima(x: Tensor4, g: PoolGeom, n: nat, c: nat, top: nat, left: nat): nat -> real
    requires g.pw > 0
  {
    (a: nat) => MaxOf(g.pw, WindowRow(x, n, c, top + a, left))
  }

  /** np.amax(x[n, c, top:top+ph, left:left+pw]): no cell of the window exceeds
      it, and some cell of the window attains it. */
  function WindowMax(x: Tensor4, g: PoolGeom, n: nat, c: nat, top: nat, left: nat): (m: real)
    requires g.ph > 0 && g.pw > 0
    ensures forall h, q :: top <= h < top + g.ph && left <= q < left + g.pw ==> At4(x, n, c, h, q) <= m
    ensures exists h, q :: top <= h < top + g.ph && left <= q < left + g.pw && At4(x, n, c, h, q) == m
  {
    var m := MaxOf(g.ph, RowMaxima(x, g, n, c, top, left));
    assert forall h, q :: top <= h < top + g.ph && left <= q < left + g.pw ==> At4(x, n, c, h, q) <= m by {
      forall h, q | top <= h < top + g.ph && left <= q < left + g.pw ensures At4(x, n, c, h, q) <= m {
        var row := WindowRow(x, n, c, h, left);
        assert row(q - left) == At4(x, n, c, h, q);
        assert row(q - left) <= MaxOf(g.pw, row);
        assert RowMaxima(x, g, n, c, top, left)(h - top) == MaxOf(g.pw, row);
      }
    }
    var a :| 0 <= a < g.ph && RowMaxima(x, g, n, c, top, left)(a) == m;
    assert RowMaxima(x, g, n, c, top, left)(a) == MaxOf(g.pw, WindowRow(x, n, c, top + a, left));
    var e :| 0 <= e < g.pw && WindowRow(x, n, c, top + a, left)(e) == m;
    assert At4(x, n, c, top + a, left + e) == m;
    m
  }

  /** The output cell (n, c, oi, oj): the maximum of the window at (oi*stride, oj*stride). */
  function PoolAt(x: Tensor4, g: PoolGeom, n: nat, c: nat, oi: nat, oj: nat): real
    requires g.ph > 0 && g.pw > 0
  {
    WindowMax(x, g, n, c, oi * g.stride, oj * g.stride)
  }

  /** One pass of the inner while-loop of lines 724-732: the windows of output row
      oi, whose top edge is row top, from left to right. */
  method PoolRow(out: array4<real>, x: Tensor4, g: PoolGeom, oi: nat, top: nat)
    requires g.Valid() && oi < g.outH && top == oi * g.stride
    requires out.Length0 == g.x.n && out.Length1 == g.x.c && out.Length2 == g.outH && out.Length3 == g.outW
    modifies out
    ensures forall n, c, r, q :: 0 <= n < g.x.n && 0 <= c < g.x.c && 0 <= r < g.outH && 0 <= q < g.outW ==>
      out[n, c, r, q] == if r == oi then PoolAt(x, g, n, c, r, q) else old(out[n, c, r, q])
  {
    var j, oj := 0, 0;
    while j + g.pw <= g.x.w
      invariant 0 <= oj <= g.outW
      invariant j == oj * g.stride
      invariant forall n, c, r, q :: 0 <= n < g.x.n && 0 <= c < g.x.c && 0 <= r < g.outH && 0 <= q < g.outW ==>
        out[n, c, r, q] == if r == oi && q < oj then PoolAt(x, g, n, c, r, q) else old(out[n, c, r, q])
      decreases g.outW - oj
    {
      WindowFits(g.x.w, g.pw, g.stride, oj);
      forall n, c | 0 <= n < g.x.n && 0 <= c < g.x.c {
        out[n, c, oi, oj] := WindowMax(x, g, n, c, top, j);
      }
      MulSucc(oj, g.stride);
      j, oj := j + g.stride, oj + 1;
    }
    WindowFits(g.x.w, g.pw, g.stride, oj);
  }

  /** max_pool_forward_naive (lines 688-744): the loops visit exactly the outH x outW
      windows that fit, and every output cell is its window's maximum. */
  method MaxPoolForward(x: Tensor4, xd: Dims, param: PoolParam) returns (res: Result<array4<real>>)
    requires HasDims(x, xd)
    ensures res.Err? <==> PoolSetup(xd, param).Err?
    ensures res.Err? ==> res.error == PoolSetup(xd, param).error
    ensures res.Ok? ==>
      var g := PoolSetup(xd, param).value;
      var out := res.value;
      fresh(out) &&
      out.Length0 == xd.n && out.Length1 == xd.c && out.Length2 == g.outH && out.Length3 == g.outW &&
      forall n, c, oi, oj :: 0 <= n < xd.n && 0 <= c < xd.c && 0 <= oi < g.outH && 0 <= oj < g.outW ==>
        out[n, c, oi, oj] == PoolAt(x, g, n, c, oi, oj)
  {
    var setup := PoolSetup(xd, param);
    if setup.Err? {
      return Err(setup.error);
    }
    var g := setup.value;
    var N, C := xd.n, xd.c;
    var out := new real[N, C, g.outH, g.outW]((_, _, _, _) => 0.0);
    var i, oi := 0, 0;
    while i + g.ph <= xd.h
      invariant 0 <= oi <= g.outH
      invariant i == oi * g.stride
      invariant forall n, c, r, q :: 0 <= n < N && 0 <= c < C && 0 <= r < g.outH && 0 <= q < g.outW ==>
        out[n, c, r, q] == if r < oi then PoolAt(x, g, n, c, r, q) else 0.0
      decreases g.outH - oi
    {
      WindowFits(xd.h, g.ph, g.stride, oi);
      PoolRow(out, x, g, oi, i);
      MulSucc(oi, g.stride);
      i, oi := i + g.stride, oi + 1;
    }
    WindowFits(xd.h, g.ph, g.stride, oi);
    return Ok(out);
  }

  // ---------------------------------------------------------------------------
  // Backward pass

  /** What the window (oi, oj) with corner (top, left) adds to dx[n, c, h, q]:
      dout[n, c, oi, oj] when (h, q) is in the window and holds its maximum. */
  function PoolGradWindow(dout: Tensor4, x: Tensor4, g: PoolGeom, n: nat, c: nat, h: nat, q: nat,
                          oi: nat, oj: nat, top: nat, left: nat): real
  {
    if top <= h < top + g.ph && left <= q < left + g.pw && At4(x, n, c, h, q) == WindowMax(x, g, n, c, top, left)
    then At4(dout, n, c, oi, oj)
    else 0.0
  }

  /** The contributions to dx[n, c, h, q] of all windows, by output position. */
  function PoolGradTerms(dout: Tensor4, x: Tensor4, g: PoolGeom, n: nat, c: nat, h: nat, q: nat): (nat, nat) -> real {
    (oi: nat, oj: nat) => PoolGradWindow(dout, x, g, n, c, h, q, oi, oj, oi * g.stride, oj * g.stride)
  }

  /** dx[n, c, h, q]: the gradients of all windows in which x[n, c, h, q] is a maximum. */
  function PoolGradAt(dout: Tensor4, x: Tensor4, g: PoolGeom, n: nat, c: nat, h: nat, q: nat): real {
    GridSum(PoolGradTerms(dout, x, g, n, c, h, q), g.outH, g.outW)
  }

  /** One window's step of the backward loop, lines 782-792:
      dx[:, :, i:i+ph, j:j+pw] += (window == its max) * dout[:, :, oi, oj]. */
  method AddPoolWindow(dx: array4<real>, dout: Tensor4, x: Tensor4, g: PoolGeom,
                       oi: nat, oj: nat, top: nat, left: nat)
    requires dx.Length0 == g.x.n && dx.Length1 == g.x.c && dx.Length2 == g.x.h && dx.Length3 == g.x.w
    requires top + g.ph <= g.x.h && left + g.pw <= g.x.w
    modifies dx
    ensures forall n, c, h, q :: 0 <= n < g.x.n && 0 <= c < g.x.c && 0 <= h < g.x.h && 0 <= q < g.x.w ==>
      dx[n, c, h, q] == old(dx[n, c, h, q]) + PoolGradWindow(dout, x, g, n, c, h, q, oi, oj, top, left)
  {
    forall n, c, h, q | 0 <= n < g.x.n && 0 <= c < g.x.c && top <= h < top + g.ph && left <= q < left + g.pw {
      dx[n, c, h, q] := dx[n, c, h, q] + PoolGradWindow(dout, x, g, n, c, h, q, oi, oj, top, left);
    }
  }

  /** max_pool_backward_naive (lines 747-806), given the cache of a successful
      forward pass and dout of the forward output's shape: dx has the shape of x,
      and each of its cells gathers the gradients of the windows it is a maximum of. */
  method MaxPoolBackward(dout: Tensor4, x: Tensor4, xd: Dims, param: PoolParam) returns (dx: array4<real>)
    requires HasDims(x, xd) && PoolSetup(xd, param).Ok?
    requires HasDims(dout, Dims(xd.n, xd.c, PoolSetup(xd, param).value.outH, PoolSetup(xd, param).value.outW))
    ensures fresh(dx)
    ensures dx.Length0 == xd.n && dx.Length1 == xd.c && dx.Length2 == xd.h && dx.Length3 == xd.w
    ensures forall n, c, h, q :: 0 <= n < xd.n && 0 <= c < xd.c && 0 <= h < xd.h && 0 <= q < xd.w ==>
      dx[n, c, h, q] == PoolGradAt(dout, x, PoolSetup(xd, param).value, n, c, h, q)
  {
    dx := PoolInputGrad(dout, x, PoolSetup(xd, param).value);
  }

  /** One pass of the inner while-loop of lines 777-795: the windows of output row
      oi, from left to right, each adding its gradient into dx. */
  method PoolGradRow(dx: array4<real>, dout: Tensor4, x: Tensor4, g: PoolGeom, oi: nat, top: nat)
    requires g.Valid() && oi < g.outH && top == oi * g.stride
    requires dx.Length0 == g.x.n && dx.Length1 == g.x.c && dx.Length2 == g.x.h && dx.Length3 == g.x.w
    modifies dx
    ensures forall n, c, h, q :: 0 <= n < g.x.n && 0 <= c < g.x.c && 0 <= h < g.x.h && 0 <= q < g.x.w ==>
      dx[n, c, h, q] == old(dx[n, c, h, q]) + Sum(g.outW, Row(PoolGradTerms(dout, x, g, n, c, h, q), oi))
  {
    WindowFits(g.x.h, g.ph, g.stride, oi);
    var j, oj := 0, 0;
    while j + g.pw <= g.x.w
      invariant 0 <= oj <= g.outW
      invariant j == oj * g.stride
      invariant forall n, c, h, q :: 0 <= n < g.x.n && 0 <= c < g.x.c && 0 <= h < g.x.h && 0 <= q < g.x.w ==>
        dx[n, c, h, q] == old(dx[n, c, h, q]) + Sum(oj, Row(PoolGradTerms(dout, x, g, n, c, h, q), oi))
      decreases g.outW - oj
    {
      WindowFits(g.x.w, g.pw, g.stride, oj);
      forall n, c, h, q | 0 <= n < g.x.n && 0 <= c < g.x.c && 0 <= h < g.x.h && 0 <= q < g.x.w
        ensures Sum(oj + 1, Row(PoolGradTerms(dout, x, g, n, c, h, q), oi)) ==
                Sum(oj, Row(PoolGradTerms(dout, x, g, n, c, h, q), oi)) +
                PoolGradWindow(dout, x, g, n, c, h, q, oi, oj, top, j)
      {
        assert Row(PoolGradTerms(dout, x, g, n, c, h, q), oi)(oj) == PoolGradWindow(dout, x, g, n, c, h, q, oi, oj, top, j);
      }
      AddPoolWindow(dx, dout, x, g, oi, oj, top, j);
      MulSucc(oj, g.stride);
      j, oj := j + g.stride, oj + 1;
    }
    WindowFits(g.x.w, g.pw, g.stride, oj);
  }

  /** The loops of lines 773-795. */
  method PoolInputGrad(dout: Tensor4, x: Tensor4, g: PoolGeom) returns (dx: array4<real>)
    requires g.Valid()
    ensures fresh(dx)
    ensures dx.Length0 == g.x.n && dx.Length1 == g.x.c && dx.Length2 == g.x.h && dx.Length3 == g.x.w
    ensures forall n, c, h, q :: 0 <= n < g.x.n && 0 <= c < g.x.c && 0 <= h < g.x.h && 0 <= q < g.x.w ==>
      dx[n, c, h, q] == PoolGradAt(dout, x, g, n, c, h, q)
  {
    var N, C, H, W := g.x.n, g.x.c, g.x.h, g.x.w;
    dx := new real[N, C, H, W]((_, _, _, _) => 0.0);
    var i, oi := 0, 0;
    while i + g.ph <= H
      invariant 0 <= oi <= g.outH
      invariant i == oi * g.stride
      invariant forall n, c, h, q :: 0 <= n < N && 0 <= c < C && 0 <= h < H && 0 <= q < W ==>
        dx[n, c, h, q] == GridPartial(PoolGradTerms(dout, x, g, n, c, h, q), g.outW, oi, 0)
      decreases g.outH - oi
    {
      PoolGradRow(dx, dout, x, g, oi, i);
      forall n, c, h, q | 0 <= n < N && 0 <= c < C && 0 <= h < H && 0 <= q < W {
        GridNextRow(PoolGradTerms(dout, x, g, n, c, h, q), g.outW, oi);
      }
      WindowFits(H, g.ph, g.stride, oi);
      MulSucc(oi, g.stride);
      i, oi := i + g.stride, oi + 1;
    }
    WindowFits(H, g.ph, g.stride, oi);
  }

  // ---------------------------------------------------------------------------
  // Where the gradient goes

  /** An input cell that is the maximum of no window containing it gets no gradient. */
  lemma NonMaximumGetsNothing(dout: Tensor4, x: Tensor4, g: PoolGeom, n: nat, c: nat, h: nat, q: nat)
    requires g.ph > 0 && g.pw > 0
    requires forall oi, oj ::
               0 <= oi < g.outH && 0 <= oj < g.outW &&
               oi * g.stride <= h < oi * g.stride + g.ph && oj * g.stride <= q < oj * g.stride + g.pw
               ==> At4(x, n, c, h, q) != PoolAt(x, g, n, c, oi, oj)
    ensures PoolGradAt(dout, x, g, n, c, h, q) == 0.0
  {
    forall oi, oj | 0 <= oi < g.outH && 0 <= oj < g.outW
      ensures PoolGradTerms(dout, x, g, n, c, h, q)(oi, oj) == 0.0
    {
      assert PoolAt(x, g, n, c, oi, oj) == WindowMax(x, g, n, c, oi * g.stride, oj * g.stride);
    }
    GridOfZeros(PoolGradTerms(dout, x, g, n, c, h, q), g.outH, g.outW);
  }

  /** Rows (or columns) of windows that do not overlap: the window at offset k is
      the only one that contains a position inside it. */
  lemma DisjointWindows(k: nat, r: nat, s: nat, size: nat, h: nat)
    requires s >= size && k * s <= h < k * s + size && r != k
    ensures !(r * s <= h < r * s + size)
  {
    if r < k {
      MulMono(r + 1, k, s);
      MulSucc(r, s);
    } else {
      MulMono(k + 1, r, s);
      MulSucc(k, s);
    }
  }

  /** When the stride is at least the window size (windows do not overlap), a cell
      that holds the maximum of its window receives exactly that window's gradient. */
  lemma MaximumGetsItsWindowGradient(dout: Tensor4, x: Tensor4, g: PoolGeom,
                                     n: nat, c: nat, oi: nat, oj: nat, h: nat, q: nat)
    requires g.ph > 0 && g.pw > 0 && g.stride >= g.ph && g.stride >= g.pw
    requires oi < g.outH && oj < g.outW
    requires oi * g.stride <= h < oi * g.stride + g.ph && oj * g.stride <= q < oj * g.stride + g.pw
    requires At4(x, n, c, h, q) == PoolAt(x, g, n, c, oi, oj)
    ensures PoolGradAt(dout, x, g, n, c, h, q) == At4(dout, n, c, oi, oj)
  {
    var T := PoolGradTerms(dout, x, g, n, c, h, q);
    forall r, t | 0 <= r < g.outH && 0 <= t < g.outW && (r, t) != (oi, oj) ensures T(r, t) == 0.0 {
      if r != oi {
        DisjointWindows(oi, r, g.stride, g.ph, h);
      } else {
        DisjointWindows(oj, t, g.stride, g.pw, q);
      }
    }
    GridSingle(T, g.outH, g.outW, oi, oj);
  }
}
