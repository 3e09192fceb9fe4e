/** Spatial group normalization: the C channels are split into G contiguous groups
    of k = int(C / G) channels; each group of each example is flattened into one
    row of k*H*W values and layer-normalized, with gamma and beta repeated H*W
    times so that every pixel of channel c is scaled by gamma[c]. */
module GroupNorm {
  import opened Tensors
  import opened Windows
  import opened Matrices
  import opened Normalization

  /** int(C / G): the number of channels in each group. */
  function GroupSize(channels: nat, groups: nat): nat
    requires groups > 0
  {
    channels / groups
  }

  /** Channel c is one of the k channels i*k .. i*k + k - 1 of group i. */
  predicate InGroup(c: nat, i: nat, k: nat) {
    i * k <= c < i * k + k
  }

  /** The G groups lie inside the C channels. */
  lemma GroupInRange(channels: nat, groups: nat, i: nat)
    requires groups > 0 && i < groups
    ensures i * GroupSize(channels, groups) + GroupSize(channels, groups) <= groups * GroupSize(channels, groups)
    ensures groups * GroupSize(channels, groups) <= channels
  {
    var k := GroupSize(channels, groups);
    MulMono(i + 1, groups, k);
    MulSucc(i, k);
    assert channels == k * groups + channels % groups;
  }

  /** A channel below G*k lies in group c / k, at position c % k. */
  lemma GroupOf(c: nat, k: nat, groups: nat)
    requires c < groups * k
    ensures k > 0 && c / k < groups && InGroup(c, c / k, k) && c % k == c - (c / k) * k
  {
    DivModUnique(c, k, c / k, c % k);
    if c / k >= groups {
      MulMono(groups, c / k, k);
    }
  }

  /** Group i holds channel c exactly when i == c / k. */
  lemma InGroupIff(c: nat, i: nat, k: nat)
    requires k > 0
    ensures InGroup(c, i, k) <==> i == c / k
  {
    DivModUnique(c, k, c / k, c % k);
    if InGroup(c, i, k) {
      DivModUnique(c, k, i, c - i * k);
    }
  }

  /** With G dividing C every channel lies in exactly one group; without it the
      channels from G*k on lie in none. */
  lemma ChannelPartition(channels: nat, groups: nat, c: nat)
    requires groups > 0 && c < channels
    ensures var k := GroupSize(channels, groups);
      (channels % groups == 0 ==>
         c < groups * k && c / k < groups && forall i :: 0 <= i < groups ==> (InGroup(c, i, k) <==> i == c / k)) &&
      (c >= groups * k ==> forall i :: 0 <= i < groups ==> !InGroup(c, i, k))
  {
    var k := GroupSize(channels, groups);
    assert channels == k * groups + channels % groups;
    if c < groups * k {
      GroupOf(c, k, groups);
      forall i | 0 <= i < groups ensures InGroup(c, i, k) <==> i == c / k {
        InGroupIff(c, i, k);
      }
    }
    if c >= groups * k {
      forall i | 0 <= i < groups ensures !InGroup(c, i, k) {
        GroupInRange(channels, groups, i);
      }
    }
  }

  // ---------------------------------------------------------------------------
  // The rows of one group and the repeated parameters

  /** Slot t of example n in group i: channel i*k + t / (H*W), pixel ((t / W) % H, t % W). */
  function SlotAt(x: Tensor4, xd: Dims, n: nat, i: nat, k: nat, t: nat): real {
    if xd.h == 0 || xd.w == 0 then 0.0
    else At4(x, n, i * k + t / (xd.h * xd.w), (t / xd.w) % xd.h, t % xd.w)
  }

  /** x[:, i*k:(i+1)*k, :, :].reshape(N, -1) (lines 943-944). */
  function GroupRows(x: Tensor4, xd: Dims, i: nat, k: nat): (m: Matrix)
    ensures IsMatrix(m, xd.n, k * (xd.h * xd.w))
  {
    seq(xd.n, (n: int) requires 0 <= n => seq(k * (xd.h * xd.w), (t: int) requires 0 <= t => SlotAt(x, xd, n, i, k, t)))
  }

  /** Channel i*k + c of pixel (h, w) sits at slot c*H*W + h*W + w of its group row. */
  lemma GroupSlot(x: Tensor4, xd: Dims, i: nat, k: nat, n: nat, c: nat, h: nat, w: nat)
    requires n < xd.n && c < k && h < xd.h && w < xd.w
    ensures c * (xd.h * xd.w) + h * xd.w + w < k * (xd.h * xd.w)
    ensures GroupRows(x, xd, i, k)[n][c * (xd.h * xd.w) + h * xd.w + w] == At4(x, n, i * k + c, h, w)
  {
    Flat3(c, h, w, k, xd.h, xd.w);
  }

  /** np.repeat(v, times): every entry of v, `times` times in a row. */
  function Repeat(v: Vector, times: nat): (r: Vector)
    ensures |r| == |v| * times
  {
    seq(|v| * times, (t: int) requires 0 <= t => if times == 0 then 0.0 else At1(v, t / times))
  }

  /** gamma[i*k:(i+1)*k].repeat(H*W) holds gamma[i*k + t / (H*W)] at slot t (lines 953-954). */
  lemma RepeatedParameter(gamma: Vector, i: nat, k: nat, hw: nat, t: nat)
    requires i * k + k <= |gamma| && t < k * hw
    ensures |Repeat(gamma[i * k..i * k + k], hw)| == k * hw
    ensures t / hw < k && Repeat(gamma[i * k..i * k + k], hw)[t] == gamma[i * k + t / hw]
  {
    ProductPositive(k, hw);
    DivModUnique(t, hw, t / hw, t % hw);
    if t / hw >= k {
      MulMono(k, t / hw, hw);
    }
  }

  // ---------------------------------------------------------------------------
  // Forward

  /** The layer norm of group i (lines 952-954). */
  function GroupForwardStep(x: Tensor4, xd: Dims, gamma: Vector, beta: Vector, groups: nat, eps: Option<real>,
                            normalize: Normalizer, i: nat): (r: (Matrix, NormCache))
    requires |gamma| == xd.c && |beta| == xd.c && groups > 0 && i < groups
    ensures IsMatrix(r.0, xd.n, GroupSize(xd.c, groups) * (xd.h * xd.w))
  {
    var k, hw := GroupSize(xd.c, groups), xd.h * xd.w;
    GroupInRange(xd.c, groups, i);
    var gr, br := Repeat(gamma[i * k..i * k + k], hw), Repeat(beta[i * k..i * k + k], hw);
    LayernormForward(GroupRows(x, xd, i, k), xd.n, k * hw, gr, br, eps, normalize)
  }

  /** The value out[n, c, h, w] of spatial group normalization: the slot of channel
      c in the layer norm of its group, and 0 for the channels from G*k on, which
      no group covers. */
  function GroupNormAt(x: Tensor4, xd: Dims, gamma: Vector, beta: Vector, groups: nat, eps: Option<real>,
                       normalize: Normalizer, n: nat, c: nat, h: nat, w: nat): real
    requires |gamma| == xd.c && |beta| == xd.c && groups > 0
  {
    var k := GroupSize(xd.c, groups);
    if c < groups * k then
      GroupOf(c, k, groups);
      At2(GroupForwardStep(x, xd, gamma, beta, groups, eps, normalize, c / k).0, n, (c % k) * (xd.h * xd.w) + h * xd.w + w)
    else 0.0
  }

  /** Inside its group, channel c = i*k + j of the output is read from position j
      of that group's layer norm. */
  lemma GroupNormAtStep(x: Tensor4, xd: Dims, gamma: Vector, beta: Vector, groups: nat, eps: Option<real>,
                        normalize: Normalizer, i: nat, j: nat, n: nat, c: nat, h: nat, w: nat)
    requires |gamma| == xd.c && |beta| == xd.c && groups > 0 && i < groups
    requires j < GroupSize(xd.c, groups) && c == i * GroupSize(xd.c, groups) + j
    ensures GroupNormAt(x, xd, gamma, beta, groups, eps, normalize, n, c, h, w) ==
      At2(GroupForwardStep(x, xd, gamma, beta, groups, eps, normalize, i).0, n, j * (xd.h * xd.w) + h * xd.w + w)
  {
    var k := GroupSize(xd.c, groups);
    GroupInRange(xd.c, groups, i);
    DivModUnique(c, k, i, j);
  }

  /** Group normalization scales and shifts every pixel of channel c by gamma[c]
      and beta[c], after normalizing it with the mean and variance of the group
      of its own example: channel c = i*k + j is position j of group i. */
  lemma GroupNormOutput(x: Tensor4, xd: Dims, gamma: Vector, beta: Vector, groups: nat, eps: Option<real>,
                        normalize: Normalizer, i: nat, j: nat, n: nat, h: nat, w: nat)
    requires HasDims(x, xd) && |gamma| == xd.c && |beta| == xd.c && groups > 0
    requires i < groups && j < GroupSize(xd.c, groups) && n < xd.n && h < xd.h && w < xd.w
    ensures var k := GroupSize(xd.c, groups);
      var c, rows, d := i * k + j, GroupRows(x, xd, i, k), k * (xd.h * xd.w);
      c < xd.c &&
      GroupNormAt(x, xd, gamma, beta, groups, eps, normalize, n, c, h, w) ==
        ScaleShiftAt(normalize(x[n][c][h][w], RowMean(rows, xd.n, d)[n], RowVar(rows, xd.n, d)[n], eps.GetOr(DefaultEps)),
                     gamma[c], beta[c])
  {
    var k := GroupSize(xd.c, groups);
    GroupInRange(xd.c, groups, i);
    GroupNormAtStep(x, xd, gamma, beta, groups, eps, normalize, i, j, n, i * k + j, h, w);
    StepCell(x, xd, gamma, beta, groups, eps, normalize, i, j, n, h, w);
  }

  /** The cell of channel i*k + j, pixel (h, w), in the layer norm of group i. */
  lemma StepCell(x: Tensor4, xd: Dims, gamma: Vector, beta: Vector, groups: nat, eps: Option<real>,
                 normalize: Normalizer, i: nat, j: nat, n: nat, h: nat, w: nat)
    requires |gamma| == xd.c && |beta| == xd.c && groups > 0
    requires i < groups && j < GroupSize(xd.c, groups) && n < xd.n && h < xd.h && w < xd.w
    ensures var k := GroupSize(xd.c, groups);
      var c, rows, d := i * k + j, GroupRows(x, xd, i, k), k * (xd.h * xd.w);
      c < xd.c &&
      At2(GroupForwardStep(x, xd, gamma, beta, groups, eps, normalize, i).0, n, j * (xd.h * xd.w) + h * xd.w + w) ==
        ScaleShiftAt(normalize(At4(x, n, c, h, w), RowMean(rows, xd.n, d)[n], RowVar(rows, xd.n, d)[n],
                               eps.GetOr(DefaultEps)), gamma[c], beta[c])
  {
    var k, hw := GroupSize(xd.c, groups), xd.h * xd.w;
    var c := i * k + j;
    GroupInRange(xd.c, groups, i);
    var t := j * hw + h * xd.w + w;
    var rows := GroupRows(x, xd, i, k);
    var gr, br := Repeat(gamma[i * k..i * k + k], hw), Repeat(beta[i * k..i * k + k], hw);
    GroupCell(x, xd, gamma, beta, i, k, n, j, h, w, hw, t);
    LayerCell(rows, xd.n, k * hw, gr, br, eps, normalize, n, t, At4(x, n, c, h, w), gamma[c], beta[c]);
  }

  /** One cell of a layer norm, given the input, gamma and beta at that cell. */
  lemma LayerCell(x: Matrix, n: nat, d: nat, gamma: Vector, beta: Vector, eps: Option<real>, normalize: Normalizer,
                  i: nat, t: nat, value: real, g: real, b: real)
    requires IsMatrix(x, n, d) && |gamma| == d && |beta| == d && i < n && t < d
    requires x[i][t] == value && gamma[t] == g && beta[t] == b
    ensures At2(LayernormForward(x, n, d, gamma, beta, eps, normalize).0, i, t) ==
      ScaleShiftAt(normalize(value, RowMean(x, n, d)[i], RowVar(x, n, d)[i], eps.GetOr(DefaultEps)), g, b)
  {
  }

  /** One cell of a group: its slot t in the group row, and the repeated gamma
      and beta at that slot. */
  lemma GroupCell(x: Tensor4, xd: Dims, gamma: Vector, beta: Vector, i: nat, k: nat, n: nat, c: nat, h: nat, w: nat,
                  hw: nat, t: nat)
    requires n < xd.n && c < k && h < xd.h && w < xd.w && i * k + k <= |gamma| && |beta| == |gamma|
    requires hw == xd.h * xd.w && t == c * hw + h * xd.w + w
    ensures t < k * hw && GroupRows(x, xd, i, k)[n][t] == At4(x, n, i * k + c, h, w)
    ensures |Repeat(gamma[i * k..i * k + k], hw)| == k * hw && Repeat(gamma[i * k..i * k + k], hw)[t] == gamma[i * k + c]
    ensures |Repeat(beta[i * k..i * k + k], hw)| == k * hw && Repeat(beta[i * k..i * k + k], hw)[t] == beta[i * k + c]
  {
    GroupSlot(x, xd, i, k, n, c, h, w);
    Flat3(c, h, w, k, xd.h, xd.w);
    RepeatedParameter(gamma, i, k, hw, t);
    RepeatedParameter(beta, i, k, hw, t);
  }

  /** out[:, i*k:(i+1)*k, :, :] = temp.reshape(N, -1, H, W) (lines 955 and 1010). */
  method WriteGroup(a: array4<real>, i: nat, k: nat, temp: Matrix)
    requires i * k + k <= a.Length1
    modifies a
    ensures forall n, c, h, w :: 0 <= n < a.Length0 && 0 <= c < a.Length1 && 0 <= h < a.Length2 && 0 <= w < a.Length3 ==>
      a[n, c, h, w] == if InGroup(c, i, k) then At2(temp, n, (c - i * k) * (a.Length2 * a.Length3) + h * a.Length3 + w)
                       else old(a[n, c, h, w])
  {
    forall n, c, h, w | 0 <= n < a.Length0 && i * k <= c < i * k + k && 0 <= h < a.Length2 && 0 <= w < a.Length3 {
      a[n, c, h, w] := At2(temp, n, (c - i * k) * (a.Length2 * a.Length3) + h * a.Length3 + w);
    }
  }

  /** Writes the layer norm of group i into its channels of out. */
  method FillGroup(out: array4<real>, x: Tensor4, xd: Dims, gamma: Vector, beta: Vector, groups: nat,
                   eps: Option<real>, normalize: Normalizer, i: nat, lo: nat)
    requires |gamma| == xd.c && |beta| == xd.c && groups > 0 && i < groups && lo == i * GroupSize(xd.c, groups)
    requires out.Length0 == xd.n && out.Length1 == xd.c && out.Length2 == xd.h && out.Length3 == xd.w
    modifies out
    ensures forall n, c, h, w :: 0 <= n < xd.n && 0 <= c < xd.c && 0 <= h < xd.h && 0 <= w < xd.w ==>
      out[n, c, h, w] == if lo <= c < lo + GroupSize(xd.c, groups)
                         then GroupNormAt(x, xd, gamma, beta, groups, eps, normalize, n, c, h, w)
                         else old(out[n, c, h, w])
  {
    var k := GroupSize(xd.c, groups);
    GroupInRange(xd.c, groups, i);
    WriteGroup(out, i, k, GroupForwardStep(x, xd, gamma, beta, groups, eps, normalize, i).0);
    forall n, c, h, w | 0 <= n < xd.n && 0 <= c < xd.c && 0 <= h < xd.h && 0 <= w < xd.w && lo <= c < lo + k
      ensures out[n, c, h, w] == GroupNormAt(x, xd, gamma, beta, groups, eps, normalize, n, c, h, w)
    {
      GroupNormAtStep(x, xd, gamma, beta, groups, eps, normalize, i, c - lo, n, c, h, w);
    }
  }

  /** The cache: the layer-norm cache of every group, and G, x, gamma, beta. */
  datatype GroupCache = GroupCache(groups: seq<NormCache>, G: nat, x: Tensor4, gamma: Vector, beta: Vector)

  datatype GroupForwardResult = GroupForwardResult(out: array4<real>, cache: GroupCache)

  /** spatial_groupnorm_forward (lines 915-968).  G == 0 divides by zero; N == 0
      makes the reshape(N, -1) of the first group fail, and H*W == 0 its
      reshape(N, -1, H, W). */
  method SpatialGroupnormForward(x: Tensor4, xd: Dims, gamma: Vector, beta: Vector, groups: nat, eps: Option<real>,
                                 normalize: Normalizer)
    returns (res: Result<GroupForwardResult>)
    requires HasDims(x, xd) && |gamma| == xd.c && |beta| == xd.c
    ensures groups == 0 ==> res == Err(ZeroDivision)
    ensures groups > 0 && (xd.n == 0 || xd.h == 0 || xd.w == 0) ==> res == Err(CannotReshape)
    ensures groups > 0 && xd.n > 0 && xd.h > 0 && xd.w > 0 ==> res.Ok?
    ensures res.Ok? ==>
      var out, cache := res.value.out, res.value.cache;
      fresh(out) && out.Length0 == xd.n && out.Length1 == xd.c && out.Length2 == xd.h && out.Length3 == xd.w &&
      (forall n, c, h, w :: 0 <= n < xd.n && 0 <= c < xd.c && 0 <= h < xd.h && 0 <= w < xd.w ==>
        out[n, c, h, w] == GroupNormAt(x, xd, gamma, beta, groups, eps, normalize, n, c, h, w)) &&
      cache.G == groups && cache.x == x && cache.gamma == gamma && cache.beta == beta && |cache.groups| == groups &&
      forall i :: 0 <= i < groups ==> cache.groups[i] == GroupForwardStep(x, xd, gamma, beta, groups, eps, normalize, i).1
  {
    if groups == 0 {
      return Err(ZeroDivision);
    }
    if xd.n == 0 || xd.h == 0 || xd.w == 0 {
      return Err(CannotReshape);
    }
    var k := GroupSize(xd.c, groups);
    var out := new real[xd.n, xd.c, xd.h, xd.w]((_, _, _, _) => 0.0);
    var caches: seq<NormCache> := [];
    var i, done := 0, 0;
    while i < groups
      invariant 0 <= i <= groups && done == i * k
      invariant |caches| == i
      invariant forall j :: 0 <= j < i ==> caches[j] == GroupForwardStep(x, xd, gamma, beta, groups, eps, normalize, j).1
      invariant forall n, c, h, w :: 0 <= n < xd.n && 0 <= c < xd.c && 0 <= h < xd.h && 0 <= w < xd.w ==>
        out[n, c, h, w] == if c < done then GroupNormAt(x, xd, gamma, beta, groups, eps, normalize, n, c, h, w) else 0.0
    {
      var step := GroupForwardStep(x, xd, gamma, beta, groups, eps, normalize, i);
      FillGroup(out, x, xd, gamma, beta, groups, eps, normalize, i, done);
      MulSucc(i, k);
      caches := caches + [step.1];
      i, done := i + 1, done + k;
    }
    assert groups * k == k * groups;
    return Ok(GroupForwardResult(out, GroupCache(caches, groups, x, gamma, beta)));
  }

  // ---------------------------------------------------------------------------
  // Backward

  /** dgamma_temp.reshape(k, -1) summed along axis 1 (lines 1007-1012): entry c
      is the sum of the hw slots c*hw .. c*hw + hw - 1. */
  function Fold(v: Vector, k: nat, hw: nat): (r: Vector)
    ensures |r| == k
  {
    seq(k, (c: int) requires 0 <= c => Sum(hw, Shift(Entries(v), c * hw)))
  }

  /** The layer-norm gradients of group i (lines 1000-1004). */
  function GroupParamGrads(dout: Tensor4, xd: Dims, cache: GroupCache, i: nat): (g: ParamGrads)
    requires cache.G > 0 && i < |cache.groups|
  {
    var k := GroupSize(xd.c, cache.G);
    ParamGradients(GroupRows(dout, xd, i, k), cache.groups[i].norm, xd.n, k * (xd.h * xd.w))
  }

  /** The dx of group i, from the layer-norm backward pass. */
  function GroupDx(dout: Tensor4, xd: Dims, cache: GroupCache, dxOf: NormBackward, i: nat): Matrix
    requires cache.G > 0 && i < |cache.groups|
  {
    dxOf(GroupRows(dout, xd, i, GroupSize(xd.c, cache.G)), cache.groups[i])
  }

  /** dx[n, c, h, w]: the slot of channel c in the dx of its group, 0 outside the groups. */
  function GroupDxAt(dout: Tensor4, xd: Dims, cache: GroupCache, dxOf: NormBackward,
                     n: nat, c: nat, h: nat, w: nat): real
    requires cache.G > 0 && |cache.groups| == cache.G
  {
    var k := GroupSize(xd.c, cache.G);
    if c < cache.G * k then
      GroupOf(c, k, cache.G);
      At2(GroupDx(dout, xd, cache, dxOf, c / k), n, (c % k) * (xd.h * xd.w) + h * xd.w + w)
    else 0.0
  }

  /** dgamma[c]: the folded dgamma of its group at position c % k, 0 outside the groups. */
  function GroupDgammaAt(dout: Tensor4, xd: Dims, cache: GroupCache, c: nat): real
    requires cache.G > 0 && |cache.groups| == cache.G
  {
    var k := GroupSize(xd.c, cache.G);
    if c < cache.G * k then
      GroupOf(c, k, cache.G);
      Fold(GroupParamGrads(dout, xd, cache, c / k).dgamma, k, xd.h * xd.w)[c % k]
    else 0.0
  }

  /** dbeta[c]: the folded dbeta of its group at position c % k, 0 outside the groups. */
  function GroupDbetaAt(dout: Tensor4, xd: Dims, cache: GroupCache, c: nat): real
    requires cache.G > 0 && |cache.groups| == cache.G
  {
    var k := GroupSize(xd.c, cache.G);
    if c < cache.G * k then
      GroupOf(c, k, cache.G);
      Fold(GroupParamGrads(dout, xd, cache, c / k).dbeta, k, xd.h * xd.w)[c % k]
    else 0.0
  }

  /** Inside its group, dx of channel c = i*k + j is read from slot j of that group's dx. */
  lemma GroupDxAtStep(dout: Tensor4, xd: Dims, cache: GroupCache, dxOf: NormBackward,
                      i: nat, j: nat, n: nat, c: nat, h: nat, w: nat)
    requires cache.G > 0 && |cache.groups| == cache.G && i < cache.G
    requires j < GroupSize(xd.c, cache.G) && c == i * GroupSize(xd.c, cache.G) + j
    ensures GroupDxAt(dout, xd, cache, dxOf, n, c, h, w) ==
      At2(GroupDx(dout, xd, cache, dxOf, i), n, j * (xd.h * xd.w) + h * xd.w + w)
  {
    var k := GroupSize(xd.c, cache.G);
    GroupInRange(xd.c, cache.G, i);
    DivModUnique(c, k, i, j);
  }

  /** Inside its group, dgamma and dbeta of channel c = i*k + j are entry j of the
      group's folded gradients. */
  lemma GroupParamsAtStep(dout: Tensor4, xd: Dims, cache: GroupCache, i: nat, j: nat, c: nat)
    requires cache.G > 0 && |cache.groups| == cache.G && i < cache.G
    requires j < GroupSize(xd.c, cache.G) && c == i * GroupSize(xd.c, cache.G) + j
    ensures var k := GroupSize(xd.c, cache.G);
      var g := GroupParamGrads(dout, xd, cache, i);
      GroupDgammaAt(dout, xd, cache, c) == Fold(g.dgamma, k, xd.h * xd.w)[j] &&
      GroupDbetaAt(dout, xd, cache, c) == Fold(g.dbeta, k, xd.h * xd.w)[j]
  {
    var k := GroupSize(xd.c, cache.G);
    GroupInRange(xd.c, cache.G, i);
    DivModUnique(c, k, i, j);
  }

  /** The terms s |-> rows[n][base + s]. */
  function SlotTerms(rows: Matrix, base: nat): (nat, nat) -> real {
    (n: nat, s: nat) => At2(rows, n, base + s)
  }

  /** The H*W slots of one channel of a group row add up to that channel's plane total. */
  lemma SlotsOfChannel(dout: Tensor4, xd: Dims, i: nat, k: nat, c: nat, n: nat)
    requires c < k && n < xd.n
    ensures RowSums(SlotTerms(GroupRows(dout, xd, i, k), c * (xd.h * xd.w)), xd.h * xd.w)(n)
      == PlaneTotals(dout, xd, i * k + c)(n)
  {
    var f := Row(SlotTerms(GroupRows(dout, xd, i, k), c * (xd.h * xd.w)), n);
    forall h | 0 <= h < xd.h ensures PlaneRowTotals(dout, xd, n, i * k + c)(h) == Sum(xd.w, Shift(f, h * xd.w)) {
      forall w | 0 <= w < xd.w ensures PixelTerms(dout, n, i * k + c, h)(w) == Shift(f, h * xd.w)(w) {
        GroupSlot(dout, xd, i, k, n, c, h, w);
        var t := c * (xd.h * xd.w) + h * xd.w + w;
        assert Shift(f, h * xd.w)(w) == At2(GroupRows(dout, xd, i, k), n, t);
      }
      SumExt(xd.w, PixelTerms(dout, n, i * k + c, h), Shift(f, h * xd.w));
    }
    SumBlocks(xd.h, xd.w, f, PlaneRowTotals(dout, xd, n, i * k + c));
  }

  /** The folded dbeta of a group at position c is the total of dout over its
      channel i*k + c. */
  lemma FoldedDbeta(dout: Tensor4, xd: Dims, i: nat, k: nat, c: nat)
    requires c < k
    ensures Fold(ColSum(GroupRows(dout, xd, i, k), xd.n, k * (xd.h * xd.w)), k, xd.h * xd.w)[c]
      == ChannelTotal(dout, xd, i * k + c)
  {
    var hw := xd.h * xd.w;
    var rows := GroupRows(dout, xd, i, k);
    var col := ColSum(rows, xd.n, k * hw);
    var f := SlotTerms(rows, c * hw);
    forall s | 0 <= s < hw ensures Shift(Entries(col), c * hw)(s) == ColSums(f, xd.n)(s) {
      FlatIndexBound(c, s, k, hw);
      SumExt(xd.n, ColumnTerms(rows, c * hw + s), Col(f, s));
    }
    SumExt(hw, Shift(Entries(col), c * hw), ColSums(f, xd.n));
    SumSwap(f, xd.n, hw);
    forall n | 0 <= n < xd.n ensures RowSums(f, hw)(n) == PlaneTotals(dout, xd, i * k + c)(n) {
      SlotsOfChannel(dout, xd, i, k, c, n);
    }
    SumExt(xd.n, RowSums(f, hw), PlaneTotals(dout, xd, i * k + c));
  }

  /** dbeta[c] is the total of dout over channel c, for every channel some group covers. */
  lemma GroupDbetaIsChannelTotal(dout: Tensor4, xd: Dims, cache: GroupCache, c: nat)
    requires cache.G > 0 && |cache.groups| == cache.G
    requires c < cache.G * GroupSize(xd.c, cache.G)
    ensures GroupDbetaAt(dout, xd, cache, c) == ChannelTotal(dout, xd, c)
  {
    var k := GroupSize(xd.c, cache.G);
    GroupOf(c, k, cache.G);
    FoldedDbeta(dout, xd, c / k, k, c % k);
    assert (c / k) * k + c % k == c;
  }

  /** Writes the dx of group i into its channels of dx. */
  method FillGroupDx(dx: array4<real>, dout: Tensor4, xd: Dims, cache: GroupCache, dxOf: NormBackward, i: nat, lo: nat)
    requires cache.G > 0 && |cache.groups| == cache.G && i < cache.G && lo == i * GroupSize(xd.c, cache.G)
    requires dx.Length0 == xd.n && dx.Length1 == xd.c && dx.Length2 == xd.h && dx.Length3 == xd.w
    modifies dx
    ensures forall n, c, h, w :: 0 <= n < xd.n && 0 <= c < xd.c && 0 <= h < xd.h && 0 <= w < xd.w ==>
      dx[n, c, h, w] == if lo <= c < lo + GroupSize(xd.c, cache.G)
                        then GroupDxAt(dout, xd, cache, dxOf, n, c, h, w)
                        else old(dx[n, c, h, w])
  {
    var k := GroupSize(xd.c, cache.G);
    GroupInRange(xd.c, cache.G, i);
    WriteGroup(dx, i, k, GroupDx(dout, xd, cache, dxOf, i));
    forall n, c, h, w | 0 <= n < xd.n && 0 <= c < xd.c && 0 <= h < xd.h && 0 <= w < xd.w && lo <= c < lo + k
      ensures dx[n, c, h, w] == GroupDxAt(dout, xd, cache, dxOf, n, c, h, w)
    {
      GroupDxAtStep(dout, xd, cache, dxOf, i, c - lo, n, c, h, w);
    }
  }

  /** Writes the folded dgamma and dbeta of group i into its channels. */
  method FillGroupParams(dgamma: array<real>, dbeta: array<real>, dout: Tensor4, xd: Dims, cache: GroupCache,
                         i: nat, lo: nat)
    requires cache.G > 0 && |cache.groups| == cache.G && i < cache.G && lo == i * GroupSize(xd.c, cache.G)
    requires dgamma.Length == xd.c && dbeta.Length == xd.c && dgamma != dbeta
    modifies dgamma, dbeta
    ensures forall c :: 0 <= c < xd.c ==>
      dgamma[c] == if lo <= c < lo + GroupSize(xd.c, cache.G) then GroupDgammaAt(dout, xd, cache, c) else old(dgamma[c])
    ensures forall c :: 0 <= c < xd.c ==>
      dbeta[c] == if lo <= c < lo + GroupSize(xd.c, cache.G) then GroupDbetaAt(dout, xd, cache, c) else old(dbeta[c])
  {
    var k := GroupSize(xd.c, cache.G);
    GroupInRange(xd.c, cache.G, i);
    var g := GroupParamGrads(dout, xd, cache, i);
    var foldedGamma := Fold(g.dgamma, k, xd.h * xd.w);
    var foldedBeta := Fold(g.dbeta, k, xd.h * xd.w);
    forall c | lo <= c < lo + k {
      dgamma[c] := foldedGamma[c - lo];
    }
    forall c | lo <= c < lo + k {
      dbeta[c] := foldedBeta[c - lo];
    }
    forall c | lo <= c < lo + k
      ensures dgamma[c] == GroupDgammaAt(dout, xd, cache, c) && dbeta[c] == GroupDbetaAt(dout, xd, cache, c)
    {
      GroupParamsAtStep(dout, xd, cache, i, c - lo, c);
    }
  }

  datatype GroupBackwardResult = GroupBackwardResult(dx: array4<real>, dgamma: array<real>, dbeta: array<real>)

  /** spatial_groupnorm_backward (lines 971-1019).  G == 0 divides by zero; N == 0,
      H*W == 0 and k == 0 make a reshape with an unknown extent fail. */
  method SpatialGroupnormBackward(dout: Tensor4, xd: Dims, cache: GroupCache, dxOf: NormBackward)
    returns (res: Result<GroupBackwardResult>)
    requires HasDims(dout, xd) && |cache.gamma| == xd.c && |cache.beta| == xd.c && |cache.groups| == cache.G
    ensures cache.G == 0 ==> res == Err(ZeroDivision)
    ensures cache.G > 0 && (xd.n == 0 || xd.h == 0 || xd.w == 0 || GroupSize(xd.c, cache.G) == 0) ==>
      res == Err(CannotReshape)
    ensures cache.G > 0 && xd.n > 0 && xd.h > 0 && xd.w > 0 && GroupSize(xd.c, cache.G) > 0 ==> res.Ok?
    ensures res.Ok? ==>
      var dx, dgamma, dbeta := res.value.dx, res.value.dgamma, res.value.dbeta;
      fresh(dx) && fresh(dgamma) && fresh(dbeta) &&
      dx.Length0 == xd.n && dx.Length1 == xd.c && dx.Length2 == xd.h && dx.Length3 == xd.w &&
      dgamma.Length == xd.c && dbeta.Length == xd.c &&
      (forall n, c, h, w :: 0 <= n < xd.n && 0 <= c < xd.c && 0 <= h < xd.h && 0 <= w < xd.w ==>
        dx[n, c, h, w] == GroupDxAt(dout, xd, cache, dxOf, n, c, h, w)) &&
      (forall c :: 0 <= c < xd.c ==> dgamma[c] == GroupDgammaAt(dout, xd, cache, c)) &&
      (forall c :: 0 <= c < xd.c ==> dbeta[c] == GroupDbetaAt(dout, xd, cache, c))
  {
    if cache.G == 0 {
      return Err(ZeroDivision);
    }
    var k := GroupSize(xd.c, cache.G);
    if xd.n == 0 || xd.h == 0 || xd.w == 0 || k == 0 {
      return Err(CannotReshape);
    }
    var dx := new real[xd.n, xd.c, xd.h, xd.w]((_, _, _, _) => 0.0);
    var dgamma := new real[xd.c](_ => 0.0);
    var dbeta := new real[xd.c](_ => 0.0);
    var i, done := 0, 0;
    while i < cache.G
      invariant 0 <= i <= cache.G && done == i * k
      invariant forall n, c, h, w :: 0 <= n < xd.n && 0 <= c < xd.c && 0 <= h < xd.h && 0 <= w < xd.w ==>
        dx[n, c, h, w] == if c < done then GroupDxAt(dout, xd, cache, dxOf, n, c, h, w) else 0.0
      invariant forall c :: 0 <= c < xd.c ==> dgamma[c] == if c < done then GroupDgammaAt(dout, xd, cache, c) else 0.0
      invariant forall c :: 0 <= c < xd.c ==> dbeta[c] == if c < done then GroupDbetaAt(dout, xd, cache, c) else 0.0
    {
      FillGroupDx(dx, dout, xd, cache, dxOf, i, done);
      FillGroupParams(dgamma, dbeta, dout, xd, cache, i, done);
      MulSucc(i, k);
      i, done := i + 1, done + k;
    }
    assert cache.G * k == k * cache.G;
    return Ok(GroupBackwardResult(dx, dgamma, dbeta));
  }
}
