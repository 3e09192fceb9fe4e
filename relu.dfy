/** The ReLU layer, relu_forward and relu_backward, on arrays of any shape. */
module Relu {
  import opened Tensors

  /** relu_forward (lines 66-83): np.maximum(0, x).  Each output element is the
      least value that is at least 0 and at least the input, and it is one of the two. */
  function ReluForward(x: NdArray): (out: NdArray)
    ensures out.shape == x.shape && |out.data| == |x.data|
    ensures forall i :: 0 <= i < |x.data| ==>
      out.data[i] >= 0.0 && out.data[i] >= x.data[i] && (out.data[i] == 0.0 || out.data[i] == x.data[i])
  {
    NdArray(x.shape, seq(|x.data|, (i: int) requires 0 <= i < |x.data| => if x.data[i] > 0.0 then x.data[i] else 0.0))
  }

  /** The indicator array set up by lines 100-101: 1 where x > 0, 0 elsewhere. */
  function PositiveMask(x: NdArray): (mask: seq<real>)
    ensures |mask| == |x.data|
  {
    seq(|x.data|, (i: int) requires 0 <= i < |x.data| => if x.data[i] > 0.0 then 1.0 else 0.0)
  }

  /** relu_backward (lines 86-106): dout times the indicator of x > 0.  The
      gradient passes exactly where the input was positive; where the input was
      0 or negative it is 0. */
  function ReluBackward(dout: NdArray, x: NdArray): (dx: NdArray)
    requires dout.shape == x.shape && |dout.data| == |x.data|
    ensures dx.shape == x.shape && |dx.data| == |x.data|
    ensures forall i :: 0 <= i < |x.data| ==> dx.data[i] == if x.data[i] > 0.0 then dout.data[i] else 0.0
  {
    var mask := PositiveMask(x);
    NdArray(x.shape, seq(|x.data|, (i: int) requires 0 <= i < |x.data| => dout.data[i] * mask[i]))
  }

  /** Applying ReLU twice is applying it once. */
  lemma ReluIdempotent(x: NdArray)
    ensures ReluForward(ReluForward(x)) == ReluForward(x)
  {
    var once := ReluForward(x);
    assert ReluForward(once).data == once.data;
  }

  /** The backward mask can be read off the forward output: out > 0 exactly where x > 0. */
  lemma ReluMaskFromOutput(dout: NdArray, x: NdArray)
    requires dout.shape == x.shape && |dout.data| == |x.data|
    ensures ReluBackward(dout, ReluForward(x)) == ReluBackward(dout, x)
  {
    assert ReluBackward(dout, ReluForward(x)).data == ReluBackward(dout, x).data;
  }

  /** ReLU is positively homogeneous, so sum(dx * x) == sum(dout * out). */
  lemma ReluAdjoint(dout: NdArray, x: NdArray)
    requires dout.shape == x.shape && |dout.data| == |x.data|
    ensures Dot(ReluBackward(dout, x).data, x.data) == Dot(dout.data, ReluForward(x).data)
  {
    var dx, out := ReluBackward(dout, x).data, ReluForward(x).data;
    forall i | 0 <= i < |x.data| ensures DotTerms(dx, x.data)(i) == DotTerms(dout.data, out)(i) {
    }
    SumExt(|x.data|, DotTerms(dx, x.data), DotTerms(dout.data, out));
  }
}
