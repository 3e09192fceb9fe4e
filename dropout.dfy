/** Inverted dropout, dropout_forward and dropout_backward.  The uniform draws
    np.random.rand(*x.shape) are a parameter `u` of the model. */
module Dropout {
  import opened Tensors

  /** dropout_param: the keep probability 'p' and the 'mode'. */
  datatype DropoutParam = DropoutParam(p: real, mode: string)

  /** The forward output and the mask kept in the cache (None in test mode). */
  datatype DropoutOut = DropoutOut(out: NdArray, mask: Option<seq<real>>)

  /** mask = (u < p) / p (line 439): 1/p where the draw is below p, 0 elsewhere. */
  function Mask(u: seq<real>, p: real): (mask: seq<real>)
    requires p != 0.0
    ensures |mask| == |u|
    ensures forall i :: 0 <= i < |u| ==> mask[i] == 0.0 || mask[i] == 1.0 / p
    ensures forall i :: 0 <= i < |u| ==> (mask[i] != 0.0 <==> u[i] < p)
  {
    seq(|u|, (i: int) requires 0 <= i < |u| => (if u[i] < p then 1.0 else 0.0) / p)
  }

  /** Elementwise product of two arrays of the same length. */
  function Times(a: seq<real>, b: seq<real>): (r: seq<real>)
    requires |a| == |b|
    ensures |r| == |a|
  {
    seq(|a|, (i: int) requires 0 <= i < |a| => a[i] * b[i])
  }

  /** dropout_forward (lines 404-457).  In 'train' mode every element is either
      dropped (0) or kept and scaled by 1/p; in 'test' mode the input passes
      unchanged and no mask is kept; any other mode leaves `out` None, and
      out.astype then fails. */
  function DropoutForward(x: NdArray, param: DropoutParam, u: seq<real>): (r: Result<DropoutOut>)
    requires |u| == |x.data|
    requires param.mode == "train" ==> param.p != 0.0
    ensures r.Err? <==> param.mode != "train" && param.mode != "test"
    ensures r.Err? ==> r.error == InvalidMode(param.mode)
    ensures param.mode == "test" ==> r == Ok(DropoutOut(x, None))
    ensures param.mode == "train" ==>
      r.Ok? && r.value.mask == Some(Mask(u, param.p)) &&
      r.value.out.shape == x.shape && |r.value.out.data| == |x.data| &&
      forall i :: 0 <= i < |x.data| ==>
        r.value.out.data[i] == (if u[i] < param.p then x.data[i] / param.p else 0.0)
  {
    if param.mode == "train" then
      var mask := Mask(u, param.p);
      Ok(DropoutOut(NdArray(x.shape, Times(x.data, mask)), Some(mask)))
    else if param.mode == "test" then
      Ok(DropoutOut(x, None))
    else
      Err(InvalidMode(param.mode))
  }

  /** dropout_backward (lines 460-481): dout times the cached mask in 'train'
      mode, dout itself in 'test' mode, and None for any other mode. */
  function DropoutBackward(dout: NdArray, param: DropoutParam, mask: Option<seq<real>>): (dx: Option<NdArray>)
    requires param.mode == "train" ==> mask.Some? && |mask.value| == |dout.data|
    ensures dx.None? <==> param.mode != "train" && param.mode != "test"
    ensures param.mode == "test" ==> dx == Some(dout)
    ensures param.mode == "train" ==>
      dx.Some? && dx.value.shape == dout.shape && |dx.value.data| == |dout.data| &&
      forall i :: 0 <= i < |dout.data| ==> dx.value.data[i] == dout.data[i] * mask.value[i]
  {
    if param.mode == "train" then Some(NdArray(dout.shape, Times(dout.data, mask.value)))
    else if param.mode == "test" then Some(dout)
    else None
  }

  /** With p == 1 and draws in [0, 1), training keeps every element unchanged. */
  lemma KeepAll(x: NdArray, u: seq<real>)
    requires |u| == |x.data|
    requires forall i :: 0 <= i < |u| ==> 0.0 <= u[i] < 1.0
    ensures DropoutForward(x, DropoutParam(1.0, "train"), u).value.out == x
  {
    assert DropoutForward(x, DropoutParam(1.0, "train"), u).value.out.data == x.data;
  }

  /** The backward pass, fed the forward mask, satisfies sum(dx * x) == sum(dout * out):
      dropout is linear in x. */
  lemma DropoutAdjoint(x: NdArray, dout: NdArray, p: real, u: seq<real>)
    requires |u| == |x.data| && |dout.data| == |x.data| && p != 0.0
    ensures var fwd := DropoutForward(x, DropoutParam(p, "train"), u).value;
      Dot(DropoutBackward(dout, DropoutParam(p, "train"), fwd.mask).value.data, x.data) ==
      Dot(dout.data, fwd.out.data)
  {
    var fwd := DropoutForward(x, DropoutParam(p, "train"), u).value;
    var dx := DropoutBackward(dout, DropoutParam(p, "train"), fwd.mask).value.data;
    forall i | 0 <= i < |x.data| ensures DotTerms(dx, x.data)(i) == DotTerms(dout.data, fwd.out.data)(i) {
    }
    SumExt(|x.data|, DotTerms(dx, x.data), DotTerms(dout.data, fwd.out.data));
  }
}
