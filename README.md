# Naive CNN layers in Dafny

This project models the layer library `lab_3/scripts/layers.py`, a NumPy implementation of the forward and
backward passes of a small convolutional network. It covers:

- the naive convolution and max-pooling layers with their nested window loops;
- ReLU, the affine layer and inverted dropout;
- the multiclass SVM loss;
- the bookkeeping of batch and layer normalization: mode dispatch, statistics, running averages, `dgamma` and `dbeta`;
- the reshape adapters of spatial batch normalization and spatial group normalization.

Element values are `real` and indices are `nat`. Input tensors are nested sequences with an explicit `Dims(n, c, h, w)`
record, so their shape survives when an axis is empty. Buffers that the source allocates with `np.zeros` and fills
in place become Dafny arrays, and the methods that fill them keep the source's loops and counters: conv `out`, `dw`
and the padded `dx1`; pool `out` and `dx`; group-norm `out`, `dx`, `dgamma` and `dbeta`. One `while` loop pass over
a row of windows is its own method. `bn_param` is a class, because `batchnorm_forward` writes the running averages
back into it.

Each loop is proved against a closed-form specification:

- a convolution output cell is the bias plus the window/filter product-sum over the zero-padded input;
- `dw` and `dx` are sums over output positions;
- a pool output is its window's maximum;
- a pool gradient cell collects the gradients of the windows it is a maximum of.

The loops visit exactly the windows that fit. The output extent `int(1 + (P - K) / s)` that the layers allocate is
proved equal to that window count whenever it is non-negative.

Python errors become `Result` values:

- `ZeroDivision`: stride 0, G == 0;
- `NegativeDimension`: `np.zeros` given a negative extent;
- `EmptyReduction`: `np.amax` over an empty window;
- `CannotReshape`: a `reshape` with `-1` when the known extents multiply to 0;
- `IndexError`: `x.shape[0]` of a 0-d array;
- `InvalidMode`: `ValueError` on a bad batch-norm mode, or a dropout mode that leaves `out` as None.

The square-root formulas are parameters of the model: `normalize` is `(x - mean) / sqrt(var + eps)`, and `dxOf` is
the `dx` of a normalization backward pass. The model states what the layers do around them.

Modules, one file each:

- `Tensors`: shapes, total accessors, finite sums and their lemmas.
- `Windows`: window counting and flat-index arithmetic.
- `Matrices`: reshapes, products and the adjoint identities.
- Layers: `Conv`, `Pool`, `Relu`, `Affine`, `Dropout`, `Svm`, `Normalization`, `SpatialBatchNorm`, `GroupNorm`.

## Model

| member | source | states |
|---|---|---|
| Windows.OutSize | lab_3/scripts/layers.py:528-529 | `int(1 + (P - K)/s)` is negative exactly when `P + 2s <= K`; otherwise it equals the number of offsets whose window fits in P |
| Windows.WindowFits | lab_3/scripts/layers.py:534-536 | the window at offset k fits (`k*s + K <= P`) exactly when k is below the window count, which is the loop condition the layers test |
| Conv.ConvSetup | lab_3/scripts/layers.py:513-531 | stride 0 gives ZeroDivision; a negative extent gives NegativeDimension; otherwise the geometry holds the defaults stride 1 and pad 0 and extents equal to the window counts, both directions |
| Conv.ConvRow | lab_3/scripts/layers.py:536-545 | one pass of the inner loop writes every cell of output row oi with ConvAt and leaves every other row unchanged |
| Conv.ConvForward | lab_3/scripts/layers.py:484-557 | errors exactly as ConvSetup; otherwise a fresh out of shape (N, F, out_H, out_W) whose every cell is `b[f]` plus the product-sum of filter f with the padded window at `(oi*stride, oj*stride)` |
| Conv.ConvBiasGrad | lab_3/scripts/layers.py:634 | db has one entry per filter: dout summed over samples and output positions |
| Conv.WeightGradRow | lab_3/scripts/layers.py:612-621 | one pass adds the window contributions of row oi to `dw[f]` and changes no other filter |
| Conv.ConvWeightGrad | lab_3/scripts/layers.py:602-626 | `dw[f,c,a,e]` is the sum over n, oi, oj of `dout[n,f,oi,oj] * xpad[n,c,oi*stride+a,oj*stride+e]` |
| Conv.AddWindowGrad | lab_3/scripts/layers.py:658-666 | one window adds `sum_f dout[n,f,oi,oj] * w[f,c,h-top,q-left]` inside the window and nothing outside it |
| Conv.InputGradRow | lab_3/scripts/layers.py:656-669 | one pass adds the contributions of every window of row oi to the padded buffer |
| Conv.PaddedInputGrad | lab_3/scripts/layers.py:641-674 | every cell of the padded buffer dx1 is the sum over all windows containing it of their weighted filters |
| Conv.ConvInputGrad | lab_3/scripts/layers.py:676-678 | dx has the shape of x and is the crop `[pad, H+pad) x [pad, W+pad)` of dx1 |
| Conv.ConvBackward | lab_3/scripts/layers.py:560-685 | for a successful forward pass, dw, db and dx are the three sums above, with the shapes of w, the filter count and x |
| Conv.CentreFilterForward | lab_3/scripts/layers.py:520-550 | a 3x3 filter that is 1 at its centre, with stride 1 and pad 1, keeps H and W and reproduces the input |
| Conv.CentreFilterBackward | lab_3/scripts/layers.py:654-674 | with that filter the padded gradient at `(h+1, q+1)` is `dout[n,0,h,q]`, so dx == dout |
| Pool.PoolSetup | lab_3/scripts/layers.py:709-729 | defaults 3, 3, 2; ZeroDivision, NegativeDimension and EmptyReduction exactly in their cases; otherwise extents equal to the window counts |
| Pool.WindowMax | lab_3/scripts/layers.py:730 | the window maximum is at least every cell of the window and equals one of them |
| Pool.MaxOf | lab_3/scripts/layers.py:730 | the maximum of k > 0 values bounds all of them and is attained |
| Pool.PoolRow | lab_3/scripts/layers.py:724-732 | one pass writes the window maxima of output row oi and leaves the other rows unchanged |
| Pool.MaxPoolForward | lab_3/scripts/layers.py:688-744 | errors exactly as PoolSetup; otherwise every output cell is the maximum of the window at `(oi*stride, oj*stride)` |
| Pool.AddPoolWindow | lab_3/scripts/layers.py:782-792 | one window adds `dout[n,c,oi,oj]` to every window cell equal to the window maximum, ties included, and nothing elsewhere |
| Pool.PoolGradRow | lab_3/scripts/layers.py:777-795 | one pass adds the contributions of the windows of row oi |
| Pool.PoolInputGrad | lab_3/scripts/layers.py:773-800 | `dx[n,c,h,q]` is the sum, over the windows containing (h, q) whose maximum is `x[n,c,h,q]`, of their dout; overlapping windows add up |
| Pool.MaxPoolBackward | lab_3/scripts/layers.py:747-806 | for a successful forward pass, dx has the shape of x and is that sum |
| Pool.NonMaximumGetsNothing | lab_3/scripts/layers.py:783 | a cell that is the maximum of no window containing it receives 0 |
| Pool.MaximumGetsItsWindowGradient | lab_3/scripts/layers.py:783-792 | with stride at least the window size, the maximum cell of a window receives exactly that window's dout |
| Relu.ReluForward | lab_3/scripts/layers.py:79 | same shape; each element is at least 0 and at least x, and equals one of the two |
| Relu.ReluBackward | lab_3/scripts/layers.py:100-102 | same shape; dout where x > 0, and 0 where x <= 0, including x == 0 |
| Relu.ReluIdempotent | lab_3/scripts/layers.py:79 | applying ReLU twice equals applying it once |
| Relu.ReluMaskFromOutput | lab_3/scripts/layers.py:100-102 | the backward mask taken from the forward output equals the mask taken from x |
| Relu.ReluAdjoint | lab_3/scripts/layers.py:66-106 | `sum(dx * x) == sum(dout * out)` |
| Matrices.Rows | lab_3/scripts/layers.py:28 | `reshape(rows, cols)` puts flat entry `i*cols + j` at (i, j) |
| Matrices.FlattenRows | lab_3/scripts/layers.py:57 | reshaping a flat array into rows and flattening it back gives it back |
| Matrices.RowsFlatten | lab_3/scripts/layers.py:57 | flattening a matrix and reshaping it into rows gives it back |
| Matrices.BiasAdjoint | lab_3/scripts/layers.py:59 | `sum(dout * (a + b)) == sum(dout * a) + db . b` with `db = sum(dout, axis=0)` |
| Matrices.ScaleAdjoint | lab_3/scripts/layers.py:287 | `sum(dout * (a * v)) == sum(dout * a, axis=0) . v` |
| Matrices.InputGradAdjoint | lab_3/scripts/layers.py:57 | `sum(d * (x @ w)) == sum((d @ w.T) * x)` |
| Matrices.WeightGradAdjoint | lab_3/scripts/layers.py:58 | `sum(d * (x @ w)) == sum((x.T @ d) * w)` |
| Affine.AffineForward | lab_3/scripts/layers.py:5-33 | fails exactly for a 0-d input (IndexError) or an empty batch (CannotReshape); otherwise an N x M matrix |
| Affine.AffineBackward | lab_3/scripts/layers.py:36-63 | the same errors; dx has the shape of x and its rows are `dout @ w.T`; dw is D x M; db has M entries |
| Affine.AffineGradientsAreAdjoint | lab_3/scripts/layers.py:5-63 | `sum(dout * out)` equals `sum(dx * x) + db . b`, and equals `sum(dw * w) + db . b` |
| Dropout.Mask | lab_3/scripts/layers.py:439 | each mask entry is 0 or 1/p, and non-zero exactly where the draw is below p |
| Dropout.DropoutForward | lab_3/scripts/layers.py:404-457 | train: each element is `x/p` where the draw is below p and 0 elsewhere, and the cached mask is exactly `Mask(u, p)`, i.e. `(u < p) / p`; test: x unchanged and no mask; any other mode: an error, both directions |
| Dropout.DropoutBackward | lab_3/scripts/layers.py:460-481 | train: dout times the mask; test: dout; any other mode: None, both directions |
| Dropout.KeepAll | lab_3/scripts/layers.py:439-440 | with p == 1 and draws in [0, 1) training keeps x unchanged |
| Dropout.DropoutAdjoint | lab_3/scripts/layers.py:439-475 | fed the forward mask, `sum(dx * x) == sum(dout * out)` |
| Svm.SvmLoss | lab_3/scripts/layers.py:1022-1044 | the loss (sum of margins over N) is never negative; dx is N x C |
| Svm.SvmGrad | lab_3/scripts/layers.py:1040-1043 | dx is N x C, one gradient entry per cell |
| Svm.WrongClassGradient | lab_3/scripts/layers.py:1040-1043 | a wrong class gets 1/N exactly when `x[i][j] - x[i][y[i]] + 1 > 0`, and 0 otherwise |
| Svm.CorrectClassGradient | lab_3/scripts/layers.py:1041-1043 | the correct class gets minus the number of violating classes, over N |
| Svm.GradientRowSumsToZero | lab_3/scripts/layers.py:1040-1043 | every row of dx sums to 0 |
| Svm.ZeroLossIff | lab_3/scripts/layers.py:1035-1038 | the loss is 0 exactly when every wrong class scores at least 1 below the correct class |
| Normalization.ColMean | lab_3/scripts/layers.py:172 | one mean per feature |
| Normalization.ColVar | lab_3/scripts/layers.py:173 | the per-feature batch variance is never negative |
| Normalization.EmaBetween | lab_3/scripts/layers.py:179-180 | for momentum in [0, 1] each updated running value lies between the old running value and the batch value |
| Normalization.RunningVarStaysNonNegative | lab_3/scripts/layers.py:180 | a non-negative running variance stays non-negative after a training step |
| Normalization.Normalized | lab_3/scripts/layers.py:175-177 | every output cell is `norm * gamma[j] + beta[j]` with norm the normalized cell under feature j's statistics; the cache is (x, gamma, beta, eps, norm) |
| Normalization.BatchnormForward | lab_3/scripts/layers.py:109-206 | train: normalize with the batch statistics and store `momentum*running + (1-momentum)*batch`; test: use and store back the running averages (zeros when absent); other modes: InvalidMode with nothing stored; mode, eps and momentum untouched |
| Normalization.RowVar | lab_3/scripts/layers.py:345 | the per-example variance is never negative |
| Normalization.LayernormForward | lab_3/scripts/layers.py:308-356 | every output cell is `norm * gamma[j] + beta[j]` with norm the normalized cell under the statistics of its own example; the cache holds x, gamma, beta and eps |
| Normalization.ParamGradients | lab_3/scripts/layers.py:237-238 | dgamma and dbeta have one entry per feature |
| Normalization.ParamGradientsAdjoint | lab_3/scripts/layers.py:383-384 | `sum(dout * (norm*gamma + beta)) == dgamma . gamma + dbeta . beta` for every gamma and beta |
| SpatialBatchNorm.Pack | lab_3/scripts/layers.py:843-845 | an (N*H*W) x C matrix whose row r, column c is pixel `(r / HW, (r / W) % H, r % W)` of channel c |
| SpatialBatchNorm.Unpack | lab_3/scripts/layers.py:851-855 | an (N, C, H, W) tensor whose pixel (n, c, h, w) is row `n*H*W + h*W + w`, column c |
| SpatialBatchNorm.PackPlacement | lab_3/scripts/layers.py:843-845 | packing puts `x[n][c][h][w]` at row `n*H*W + h*W + w`, column c |
| SpatialBatchNorm.UnpackPack | lab_3/scripts/layers.py:843-855 | unpacking the packed tensor gives it back |
| SpatialBatchNorm.PackUnpack | lab_3/scripts/layers.py:891-903 | packing an unpacked matrix gives it back |
| SpatialBatchNorm.PackedColumnSum | lab_3/scripts/layers.py:891-896 | column c of the packed matrix sums to the total of channel c over examples and pixels |
| SpatialBatchNorm.TrainingMeanIsChannelMean | lab_3/scripts/layers.py:172 | on the packed input the batch mean of feature c is the mean of channel c |
| SpatialBatchNorm.SpatialBatchnormForward | lab_3/scripts/layers.py:809-864 | N*C == 0 gives CannotReshape with nothing stored; otherwise batch normalization of the packed input, unpacked, with the same running-state update as batch norm |
| SpatialBatchNorm.SpatialBatchnormBackward | lab_3/scripts/layers.py:867-912 | CannotReshape exactly when N*C == 0; otherwise dx is the unpacked dx of the packed dout, dgamma the packed column sums of `dout * norm`, and `dbeta[c]` the total of dout over channel c |
| GroupNorm.ChannelPartition | lab_3/scripts/layers.py:943-947 | with G dividing C every channel lies in exactly one group `[i*k, i*k + k)`; without it the channels from G*k on lie in none |
| GroupNorm.GroupRows | lab_3/scripts/layers.py:947-948 | one row per example of k*H*W values |
| GroupNorm.GroupSlot | lab_3/scripts/layers.py:947-948 | channel `i*k + c` of pixel (h, w) sits at slot `c*H*W + h*W + w` of its group row |
| GroupNorm.RepeatedParameter | lab_3/scripts/layers.py:953-954 | the repeated gamma of group i holds `gamma[i*k + t / (H*W)]` at slot t |
| GroupNorm.GroupNormOutput | lab_3/scripts/layers.py:946-955 | every pixel of channel c is scaled by `gamma[c]` and shifted by `beta[c]`, after normalizing it with the statistics of its own example's group |
| GroupNorm.WriteGroup | lab_3/scripts/layers.py:955 | writes the channels of group i and no others |
| GroupNorm.FillGroup | lab_3/scripts/layers.py:947-955 | one loop step puts the group-normalized values into the channels of group i |
| GroupNorm.SpatialGroupnormForward | lab_3/scripts/layers.py:915-965 | G == 0 gives ZeroDivision; N == 0 or H*W == 0 gives CannotReshape; otherwise every output cell is its group's layer norm at its slot, 0 for uncovered channels, and the cache holds every group's cache and G, x, gamma, beta |
| GroupNorm.Fold | lab_3/scripts/layers.py:1007-1008 | the reshape to (k, -1) followed by a row sum has k entries |
| GroupNorm.FoldedDbeta | lab_3/scripts/layers.py:1011-1013 | the folded dbeta of a group at position c is the total of dout over channel `i*k + c` |
| GroupNorm.GroupDbetaIsChannelTotal | lab_3/scripts/layers.py:1011-1013 | `dbeta[c]` is the total of dout over channel c, for every covered channel |
| GroupNorm.FillGroupDx | lab_3/scripts/layers.py:1005 | one loop step writes the dx of group i into its channels only |
| GroupNorm.FillGroupParams | lab_3/scripts/layers.py:1007-1013 | one loop step writes the folded dgamma and dbeta of group i into its channels only |
| GroupNorm.SpatialGroupnormBackward | lab_3/scripts/layers.py:968-1019 | G == 0 gives ZeroDivision; N, H*W or k == 0 gives CannotReshape; otherwise dx, dgamma and dbeta are the per-group results at their slots, 0 for uncovered channels |

## Left out

- `softmax_loss` (lines 1047-1068) is not modelled: it needs `exp` and `log` on floating point.
- The normalizing formula `(x - mean) / sqrt(var + eps)` (lines 175, 191, 347) is the parameter `normalize`.
- The `dx` formulas of `batchnorm_backward`, `batchnorm_backward_alt` and `layernorm_backward_alt` (lines 240-250, 290-296, 386-393) are the parameter `dxOf`. Dafny has no square root, and these are floating-point numerics.
- Dropout draws `np.random.rand` and `np.random.seed` (lines 427-439) are not modelled. The draws are the parameter `u`.
- `out.astype(x.dtype)` (line 455) is not modelled: there is one element type.
- Floating-point rounding, NaN and infinity are not modelled. Where NumPy would produce NaN, the model requires the case away or uses a value:
  - batch-norm training on an empty batch is required away (`n >= 1`);
  - dropout with `p == 0` is required away (a negative `p` is covered, and gives an all-zero mask for draws in [0, 1));
  - spatial batch norm in training with `N*C > 0` but `H*W == 0` is required away;
  - `RowMean` and `RowVar` of a row with no features are 0, where NumPy gives NaN with a warning.
- Shape mismatches that NumPy broadcasting would reject, or broadcast differently, are requirements on the inputs: gamma, beta, b and w against x, and dout against the forward output.
- Negative stride, pad, window sizes or G are not modelled, since they are `nat`.
- Conv.ConvBackward: requires a successful forward setup. With stride 0 `conv_backward_naive` divides by zero while computing `out_H` (lines 599-600) and raises ZeroDivisionError before any loop; the requires rules that case out.
- Pool.MaxPoolBackward: requires a successful forward setup. With stride 0, `max_pool_backward_naive` takes `out_H` from `dout.shape` and steps with `i += stride` (lines 770-801). When a window fits, that loop never advances, and the model does not cover the hang.
- Normalization.BatchnormForward: a missing `'mode'` key (a KeyError) is not modelled; the mode is always present.
- Normalization.ParamGradients, GroupNorm.Fold: their own contracts state only the lengths. What the sums mean is stated by Normalization.ParamGradientsAdjoint, SpatialBatchNorm.SpatialBatchnormBackward and GroupNorm.FoldedDbeta.
- GroupNorm.SpatialGroupnormBackward: states `dgamma` relative to each group's folded layer-norm `dgamma`. A channel-level closed form is proved only for `dbeta`.
- Svm.SvmLoss: requires N >= 1. With N == 0 `svm_loss` raises nothing: `np.sum` of the empty margins is 0, `0 / 0` gives NaN with a RuntimeWarning, and dx is empty. The model has no NaN, so that case is excluded.
- Dropout.DropoutForward: requires `p != 0` in train mode. With `p == 0`, `(u < 0) / 0` is NaN everywhere, which the model cannot represent.
- Dictionaries used as caches (the group-norm cache keyed by group index and by "G", "x", "gamma", "beta") are datatypes with one field per key.
