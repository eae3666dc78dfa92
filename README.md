# RDDNN-Pytorch core, modelled in Dafny

This project models three parts of the RDDNN-Pytorch deep-learning experiments.

- **The RBM unit** (`src/RBM/rbm.py`). A Restricted Boltzmann Machine holds a
  visible x hidden weight matrix `W`, a hidden bias `hBias` and a visible bias
  `vBias`. It samples hidden units from visible ones, in Bernoulli or Gaussian
  mode, and visible units from hidden ones. It runs a Gibbs chain and applies
  the contrastive-divergence (CD) update to its three tensors in place.
- **The deep autoencoders** (`src/RBM/DAE.py`).
  - `DAE` is unrolled from a stack of trained RBMs. Each RBM's `W` is cloned
    once as an encoder and once as a decoder, and the decoders are kept in
    reverse order.
  - `encode` returns the last encoder's activation before its sigmoid.
    `decode` applies a sigmoid after every decoder.
  - `Naive_DAE` derives its `nn.Linear` shapes from a list of layer sizes.
- **The array helpers of the PCA experiments** (`src/PCA/utils.py`).
  - `makeGrid` tiles a stack of equally sized images into one image, using a
    reshape, a swap of axes 1 and 2, and a second reshape.
  - `standardizing` centres and scales data column by column, replacing a zero
    standard deviation by 1.0.

Values are exact reals:

- a tensor is `seq<seq<real>>` (module `Tensor`);
- a numpy array is a shape together with its flat row-major data
  (`ArrayUtils.NdArray`).

Python's exceptions become `Results.Result` values that carry a `PyError`.

The stateful parts keep the source's form:

- An RBM is a class whose three tensors are arrays, updated in place by
  `ContrastiveDivergence`.
- A `DAE` is a class whose four parameter lists hold freshly allocated arrays.
- `gibbsSampling`, `encode`, `decode` and the `Naive_DAE` constructor are loops.
- The zero guard of `standardizing` is an in-place masked write to an array.

Each method is proved against a value function (`CDUpdate`, `GibbsChain`,
`Encoded`, `Decoded`, `NaiveEncoded`, `Guarded`, ...). The properties are
proved about those functions.

Some parts cannot be computed exactly, so they are parameters, known only by
their ranges:

- the sigmoid is `Squash`: values in (0, 1), and 0.5 at 0;
- the square root is `Root`: non-negative, and 0 at 0;
- every random draw is `Draws`, one arbitrary real per entry. A Bernoulli
  sample is 1 exactly where the uniform draw falls below the probability. A
  normal sample is its mean plus the standard draw.

## Model

| member | source | states |
|---|---|---|
| Tensor.Sigmoid | src/RBM/rbm.py:21 | `torch.sigmoid` keeps the shape and puts every entry strictly between 0 and 1 |
| Tensor.Bernoulli | src/RBM/rbm.py:22 | `torch.bernoulli(p)` keeps the shape, every entry is 0 or 1, and an entry is 1 exactly when its uniform draw is below `p` |
| Tensor.Normal | src/RBM/rbm.py:19 | `torch.normal(mean, 1)` keeps the shape and each entry differs from its mean by exactly its standard draw |
| Tensor.Transpose | src/RBM/rbm.py:25 | `W.t()` is hidden x visible with entry (j, i) equal to entry (i, j) of `W` |
| Tensor.Reversed | src/RBM/DAE.py:24-25 | `reversed` keeps the length and puts entry `n - 1 - i` at position `i` |
| Tensor.MatMul | src/RBM/rbm.py:17 | `v.mm(W)` of an n x k batch and a k x m matrix is n x m, and entry (i, j) is row i of the batch dotted with column j of the matrix; the inner sizes must agree |
| Tensor.AddRow | src/RBM/rbm.py:17 | `activation + hBias` broadcasts the bias onto every row: entry (i, j) exceeds the activation's entry by exactly `hBias[j]` |
| Tensor.Sub | src/RBM/rbm.py:40-41 | `Hpk - Hp0` keeps the shape, and adding `Hp0` back gives `Hpk` entry by entry |
| Tensor.ColMean | src/RBM/rbm.py:40-41 | `torch.mean(m, axis=0)` has one entry per column, and entry j times the number of rows is the sum of column j |
| Rbm.Correlation | src/RBM/rbm.py:39 | `torch.mm(V.t(), H)` is visible x hidden and entry (i, j) is the batch dot product of visible column i with hidden column j |
| Rbm.WeightGradient | src/RBM/rbm.py:39 | the weight step is visible x hidden, and entry (i, j) is the negative-phase correlation minus the positive-phase one, divided by the batch size `len(Vs0)` |
| Rbm.HiddenBiasGradient | src/RBM/rbm.py:40 | the hidden-bias step has one entry per hidden unit: the batch mean of `Hpk - Hp0` in that column |
| Rbm.VisibleBiasGradient | src/RBM/rbm.py:41 | the visible-bias step has one entry per visible unit: the batch mean of `Vsk - Vs0` in that column |
| Rbm.CDUpdate | src/RBM/rbm.py:39-41 | a CD step keeps the shape of all three parameters |
| Rbm.GradientsVanish | src/RBM/rbm.py:39-41 | when the negative phase equals the positive phase (`Vsk == Vs0`, `Hpk == Hp0`), all three gradient estimates are zero |
| Rbm.GradientsNegate | src/RBM/rbm.py:39-41 | exchanging the two phases negates all three gradient estimates, entry by entry |
| Rbm.CDUpdateFixedPoint | src/RBM/rbm.py:39-41 | with equal phases, or with `lr == 0`, a CD step leaves `W`, `hBias` and `vBias` exactly as they were |
| Rbm.CDUpdateSwapInverse | src/RBM/rbm.py:39-41 | a step with the phases exchanged undoes a step, for every batch and learning rate |
| Rbm.RBM.Parameters | src/RBM/rbm.py:12-14 | the current `W` is visibleDim x hiddenDim, `hBias` has hiddenDim entries and `vBias` visibleDim entries |
| Rbm.RBM.constructor | src/RBM/rbm.py:4-14 | the dimensions and the Gaussian flag are stored; `W` is 0.1 times the normal draws; both biases are all zeros; the three tensors are fresh |
| Rbm.RBM.HiddenActivation | src/RBM/rbm.py:17 | `v.mm(W) + hBias` is batch x hiddenDim |
| Rbm.RBM.VisibleActivation | src/RBM/rbm.py:25 | `h.mm(W.t()) + vBias` is batch x visibleDim |
| Rbm.RBM.SampleHidden | src/RBM/rbm.py:16-22 | both results are batch x hiddenDim. In Gaussian mode the probabilities are exactly the raw activation and the sample is activation plus draw. Otherwise the probabilities are the sigmoid of the activation, in (0, 1), and the sample is binary and 1 exactly where the draw is below the probability |
| Rbm.RBM.SampleVisible | src/RBM/rbm.py:24-27 | whatever the Gaussian flag, the results are batch x visibleDim, the probabilities are the sigmoid of the visible activation, in (0, 1), and the sample is binary and 1 exactly where the draw is below the probability |
| Rbm.RBM.GibbsPass | src/RBM/rbm.py:32-33 | one pass samples the hidden layer from the visible sample `Vs`, then the visible layer from the hidden SAMPLE `Hs`, not from `Hp`, with the stated shapes and ranges |
| Rbm.RBM.ChainInput | src/RBM/rbm.py:30-33 | pass `k` starts from `v` when `k == 0` and otherwise from the previous pass's visible sample, which is binary |
| Rbm.RBM.GibbsChain | src/RBM/rbm.py:29-35 | after `k >= 1` passes the state has the batch's row count, the layer widths, binary visible samples and visible probabilities in (0, 1) |
| Rbm.RBM.GibbsSampling | src/RBM/rbm.py:29-35 | UnboundLocalError exactly when `iterations < 1`, for any `v`, because `Hp` is never bound; otherwise exactly the last pass's `(Hp, Hs, Vp, Vs)` of the chain |
| Rbm.RBM.ContrastiveDivergence | src/RBM/rbm.py:37-44 | `W`, `hBias` and `vBias` become exactly `CDUpdate` of their old values; only these three tensors are written, the dimensions and the flag are constants, and no decay or momentum is applied |
| Rbm.SubtractMatrix | src/RBM/rbm.py:39 | `W -= d` in place: every entry drops by the matching entry of `d` |
| Rbm.SubtractVector | src/RBM/rbm.py:40-41 | `bias -= d` in place: every entry drops by the matching entry of `d` |
| Autoencoder.EncodeStep | src/RBM/DAE.py:36 | `torch.mm(Vp, W) + hBias` maps `visible` columns to `hidden` columns |
| Autoencoder.DecodeStep | src/RBM/DAE.py:47-48 | `sigmoid(torch.mm(Hp, W.t()) + vBias)` maps `hidden` columns to `visible` columns with entries in (0, 1) |
| Autoencoder.EncodedHidden | src/RBM/DAE.py:33-37 | after `k` encoders `Vp` is the input when `k == 0`, and otherwise as wide as encoder `k - 1`'s output with entries in (0, 1) |
| Autoencoder.Encoded | src/RBM/DAE.py:30-40 | `encode` returns the input when there is no encoder, and otherwise a batch as wide as the last encoder's output |
| Autoencoder.EncodedSkipsLastSigmoid | src/RBM/DAE.py:36-40 | the code is the last activation before its sigmoid: applying the sigmoid gives exactly the output of the full encoder stack |
| Autoencoder.Decoded | src/RBM/DAE.py:42-49 | after `k` decoders `Hp` is the code when `k == 0`, and otherwise as wide as decoder `k - 1`'s output with every entry in (0, 1), the last decoder included |
| Autoencoder.EncoderOf | src/RBM/DAE.py:16-17 | an RBM's encoder uses its `W` and `hBias` and maps visible to hidden units |
| Autoencoder.DecoderOf | src/RBM/DAE.py:18-19 | an RBM's decoder uses its `W` and `vBias` and maps hidden back to visible units |
| Autoencoder.Encoders | src/RBM/DAE.py:15-23 | encoder k comes from model k, in chain order |
| Autoencoder.Decoders | src/RBM/DAE.py:15-25 | decoder k comes from model `n - 1 - k`, in exact reverse order |
| Autoencoder.UnrolledChains | src/RBM/MNIST_RBM.py:96-116 | on a stack in which each hidden size is the next visible size, the encoders chain from the first visible size to the last hidden size, and the decoders chain back from there to the first visible size |
| Autoencoder.Reconstruction | src/RBM/DAE.py:27-28 | `forward(v) = decode(encode(v))` is `v` itself with no models, and otherwise as wide as `v` with every entry in (0, 1) |
| Autoencoder.Stack | src/RBM/DAE.py:15-19 | the parameters the constructor reads from the models, one per model in order; a stacked list of models gives a stacked list of parameters |
| Autoencoder.UnrolledLayers | src/RBM/DAE.py:11-25 | an autoencoder holding copies of the models' tensors, as the constructor leaves it, has exactly `Encoders` of the models' parameters as its encoders and exactly `Decoders` of them as its decoders |
| Autoencoder.ForwardIsReconstruction | src/RBM/DAE.py:27-28 | `forward` on an autoencoder unrolled from a stack computes exactly `Reconstruction` of the stack's parameters |
| Autoencoder.UnrolledMatchesRbm | src/RBM/DAE.py:33-48 | an encoder step is exactly the bottom RBM's hidden activation, and a decoder step is exactly the sigmoid of the top RBM's visible activation |
| Autoencoder.DAE.EncoderLayers | src/RBM/DAE.py:22-23 | the current encoder tensors as values, one per encoder; they chain when the encoder arrays do |
| Autoencoder.DAE.DecoderLayers | src/RBM/DAE.py:24-25 | the current decoder tensors as values, one per decoder; they chain when the decoder arrays do |
| Autoencoder.DAE.constructor | src/RBM/DAE.py:7-25 | `DAE(models)` has one encoder, encoder bias, decoder and decoder bias per model. Encoder k copies model k's `W` and `hBias`; decoder k copies model `n - 1 - k`'s `W` and `vBias`. Every tensor is fresh and no two are the same object, so the encoder and decoder copies of one `W` are distinct. The lists chain when the models do |
| Autoencoder.DAE.Encode | src/RBM/DAE.py:30-40 | the loop returns exactly `Encoded` of the current encoder tensors: the last pre-sigmoid activation |
| Autoencoder.DAE.Decode | src/RBM/DAE.py:42-49 | the loop returns exactly `Decoded` of the current decoder tensors: a sigmoid after every layer |
| Autoencoder.DAE.Forward | src/RBM/DAE.py:27-28 | `forward` is `decode(encode(v))`; it returns `v` with no models, and otherwise a batch as wide as `v` with entries in (0, 1) |
| Autoencoder.Unroll | src/RBM/DAE.py:11-25 | the four lists the constructor stores: fresh copies in model order for the encoders and in reverse order for the decoders, pairwise distinct, chained when the models are stacked |
| Autoencoder.CloneModels | src/RBM/DAE.py:15-19 | gathers each model's `W`, `hBias` and `vBias` and clones them with `CloneLayers`: two fresh copies of each `W`, and one each of `hBias` and `vBias`, in model order, no object shared |
| Autoencoder.CloneLayers | src/RBM/DAE.py:15-19 | a fresh copy of every weight and every bias in the list, in order, no two the same object |
| Autoencoder.CloneLayer | src/RBM/DAE.py:16-19 | one weight and one bias cloned into fresh arrays with the same contents |
| Autoencoder.ReversedCopies | src/RBM/DAE.py:24-25 | after reversal, decoder k holds the copy of model `n - 1 - k`'s `W` and `vBias` |
| Autoencoder.CopiesChain | src/RBM/DAE.py:15-25 | copies of a stacked chain keep its shapes: encoders chain upwards, decoders chain downwards, and the two meet at both ends |
| Autoencoder.CloneMatrix | src/RBM/DAE.py:16 | `W.clone()` is a fresh array with the same shape and entries |
| Autoencoder.CloneVector | src/RBM/DAE.py:17 | `hBias.clone()` is a fresh array with the same entries |
| Autoencoder.NaiveInit | src/RBM/DAE.py:52-64 | IndexError exactly for an empty list (no `layers[0]`). RuntimeError exactly when there are two or more sizes and one is negative. Otherwise, with `m + 1` sizes, encoder i maps `layers[i]` to `layers[i + 1]` and decoder i maps `layers[m - i]` to `layers[m - 1 - i]` |
| Autoencoder.ApplyLinear | src/RBM/DAE.py:78 | an `nn.Linear` maps `inFeatures` columns to `outFeatures` columns |
| Autoencoder.NaiveDecoded | src/RBM/DAE.py:76-79 | after `k` decoders the batch is as wide as decoder `k - 1`'s output, with every entry in (0, 1) |
| Autoencoder.NaiveEncoded | src/RBM/DAE.py:69-74 | after `k` encoders the batch is as wide as encoder `k - 1`'s output; it is in (0, 1) except after the last encoder, which has no sigmoid |
| Autoencoder.NaiveEncodeAsWritten | src/RBM/DAE.py:69-74 | as written, `encode` succeeds exactly when there is no encoder, returning its input, and otherwise raises NameError |
| Autoencoder.NaiveEncodeAsWrittenFails | src/RBM/DAE.py:71 | every `Naive_DAE` built from two or more sizes raises NameError in `encode`, while the corrected encoder gives a code of the innermost size |
| Autoencoder.NaiveLayoutChains | src/RBM/DAE.py:58-64 | the layout's encoders chain output to input, its decoders chain back, the first decoder takes the last encoder's output, and the last decoder returns to the input size |
| Autoencoder.NaiveForwardShape | src/RBM/DAE.py:66-67 | with the corrected encoder, `forward` returns a batch of the input's shape with every entry in (0, 1) |
| Autoencoder.NaiveEncode | src/RBM/DAE.py:69-74 | the corrected loop, with `enc` read as `encoder`, returns exactly `NaiveEncoded` |
| Autoencoder.NaiveDecode | src/RBM/DAE.py:76-79 | the loop returns exactly `NaiveDecoded`: as wide as the last decoder's output, entries in (0, 1) |
| Autoencoder.NaiveForward | src/RBM/DAE.py:66-67 | with the corrected encoder, `forward` returns `x` for a single size, and otherwise the input's shape with entries in (0, 1) |
| ArrayUtils.FloorDiv | src/PCA/utils.py:13 | Python's `nindex // nrows` rounds toward minus infinity: for a positive divisor the remainder lies in `[0, nrows)`, for a negative one in `(nrows, 0]` |
| ArrayUtils.FloorDivExact | src/PCA/utils.py:13-14 | `nindex == nrows * (nindex // nrows)` holds exactly when `nrows` divides `nindex`, for either sign of `nrows` |
| ArrayUtils.Reshape | src/PCA/utils.py:15 | numpy's `reshape`. It succeeds exactly when at most one size is negative and the others fit the data: with no negative size they multiply to the data size; with one, they multiply to a non-zero divisor of it. Then the data keep their order, the given sizes are kept and the negative one is the quotient. Otherwise ValueError |
| ArrayUtils.ResolvedProduct | src/PCA/utils.py:15 | the shape numpy infers has as many positions as the known sizes times the inferred one |
| ArrayUtils.DigitsOfOffset | src/PCA/utils.py:15 | reading a position's row-major offset back gives the position |
| ArrayUtils.OffsetOfDigits | src/PCA/utils.py:15 | every offset below the size is the offset of a position in range |
| ArrayUtils.SwapSource | src/PCA/utils.py:15 | the entry that lands at an offset of the swapped array comes from an offset in range, and the size is unchanged |
| ArrayUtils.SwapSourceAt | src/PCA/utils.py:15 | position `(a, c, b, d, e)` of the swapped array comes from position `(a, b, c, d, e)` |
| ArrayUtils.SwapSourceInverse | src/PCA/utils.py:15 | the source maps of a shape and of its swapped shape are inverse to each other |
| ArrayUtils.SwapAxes12 | src/PCA/utils.py:15 | `swapaxes(1, 2)` exchanges the middle two sizes and keeps the data size |
| ArrayUtils.SwapAxes12At | src/PCA/utils.py:15 | entry `(a, c, b, d, e)` of the swapped array is entry `(a, b, c, d, e)` of the original |
| ArrayUtils.SwapAxes12Involution | src/PCA/utils.py:15 | swapping axes 1 and 2 twice gives the array back |
| ArrayUtils.MakeGrid | src/PCA/utils.py:11-15 | a successful `makeGrid` returns a well-formed array with as many entries as its input |
| ArrayUtils.Grid | src/PCA/utils.py:15 | the grid of `nrows * ncols` images has shape `(height * nrows, width * ncols, 1)` and the input's size |
| ArrayUtils.MakeGridOutcome | src/PCA/utils.py:11-15 | ValueError unless the input has three axes. ZeroDivisionError exactly for `nrows == 0`. AssertionError exactly when `nrows` does not divide `nindex`. Success exactly for a positive divisor and a non-empty stack, and the result is then the grid with `ncols = nindex // nrows`. No other error |
| ArrayUtils.GridTiles | src/PCA/utils.py:15 | the first reshape succeeds exactly for a non-empty stack, giving shape `(nrows, ncols, height, width, 1)` over the same data |
| ArrayUtils.GridImage | src/PCA/utils.py:15 | the last reshape turns the swapped tiles into one `(height * nrows, width * ncols, 1)` image over the same data |
| ArrayUtils.TileOffsets | src/PCA/utils.py:15 | grid row `i * height + y`, grid column `j * width + x` and image `i * ncols + j` are in range, and they are where the tile position sits after and before the swap |
| ArrayUtils.MakeGridPixel | src/PCA/utils.py:15 | `out[i * height + y][j * width + x][0] == array[i * ncols + j][y][x]` for all `i < nrows`, `j < ncols`, `y < height`, `x < width` |
| ArrayUtils.MakeGridBijection | src/PCA/utils.py:15 | the grid has the input's size, every grid entry comes from one input entry, and the source map has a two-sided inverse, so every input entry appears exactly once |
| ArrayUtils.Mean | src/PCA/utils.py:5 | `np.mean(data, axis=0)` has one entry per column |
| ArrayUtils.Std | src/PCA/utils.py:6 | `np.std(data, axis=0)` has one non-negative entry per column |
| ArrayUtils.SquaredDeviations | src/PCA/utils.py:6 | entry i is the squared distance of column j's entry i from the given mean |
| ArrayUtils.Guarded | src/PCA/utils.py:7-8 | `std[std == 0.0] = 1.0` keeps the length, leaves non-zero entries as they are and leaves no zero entry |
| ArrayUtils.Scaled | src/PCA/utils.py:9 | `(data - mean) / std` has the shape of `data` |
| ArrayUtils.Unscaled | src/PCA/utils.py:9 | `result * std + mean` has the shape of `result` |
| ArrayUtils.ScaledRoundTrip | src/PCA/utils.py:9 | over exact reals, `((data - mean) / std) * std + mean == data` whenever no std entry is zero |
| ArrayUtils.StandardizedMeanZero | src/PCA/utils.py:9 | every column of the standardized data sums to zero, so its mean is zero |
| ArrayUtils.ConstantMean | src/PCA/utils.py:5 | a column whose entries are all `c` has mean `c` |
| ArrayUtils.ConstantStd | src/PCA/utils.py:6-8 | a column whose entries are all `c` has standard deviation 0 |
| ArrayUtils.ConstantColumn | src/PCA/utils.py:7-9 | a constant column's deviation is guarded to 1.0 and the column standardizes to all zeros |
| ArrayUtils.GuardZeros | src/PCA/utils.py:8 | the in-place masked write leaves the array equal to `Guarded` of its old contents |
| ArrayUtils.GuardedStd | src/PCA/utils.py:6-8 | the std vector after the masked write is exactly `Guarded(Std(data))` |
| ArrayUtils.Standardizing | src/PCA/utils.py:4-9 | `standardizing(data)` returns the column means, the guarded standard deviations (none of them zero) and `(data - mean) / std`, and that result times `std` plus `mean` is `data` again |

## Left out

- Randomness: `torch.randn`, `torch.bernoulli` and `torch.normal` are not
  modelled as distributions. Their draws are parameters, and any real value is
  allowed.
- Sigmoid and square root are parameters known only by their ranges, so the
  model proves no fact that depends on their exact values.
- Floating point: every value is an exact real, so rounding, NaN and infinity
  are not modelled. The round trip of `standardizing` holds only over exact
  reals.
- Device placement (`.to(device)`), `nn.Parameter`, `nn.ParameterList` and
  `nn.ModuleList` wrapping, and autograd are not modelled. None of them changes
  the values computed.
- Rbm.RBM.ContrastiveDivergence: requires a batch of at least one row. With an
  empty batch torch divides by zero and yields NaN rather than raising.
- Standardizing: models only two-dimensional data, the default `axis=0`, and at
  least one row. numpy returns NaN, with a warning, for the mean of an empty
  axis.
- NaiveInit: models only the shapes of the `nn.Linear` layers. Their
  initial weights are random and are parameters of `NaiveEncode` and
  `NaiveDecode`.
- MakeGrid: an array is its shape and its flat row-major data. numpy's views
  and copies are not distinguished, and neither is the element type.
- The default `nrows=3` of `makeGrid` and the default `iterations=1` of
  `gibbsSampling` are not modelled: the argument is always given.
- `displayRowComparaison` in `src/PCA/utils.py` is matplotlib plotting.
- `src/RBM/MNIST_RBM.py` is not part of this model. It is a training script
  covering data loading, the training loops, Adam fine-tuning of the DAE and
  display. Only its layer-chaining rule (lines 96-116) is carried over, as
  `StackedModels` and `Stacked`. Its calls do not match `rbm.py`:
  - line 52 unpacks two values from `gibbsSampling`, which returns four;
  - line 58 passes `learningRate`, `weightDecay` and `momentumDamping` to
    `contrastiveDivergence`, whose learning-rate parameter is named `lr`, so all
    three keywords are rejected;
  - line 100 passes `useMomentum` to the `RBM` constructor, which does not
    accept it;
  - line 111 calls `rbm.reconstruct`, which `RBM` does not define.
- `src/PCA/MNIST_PCAReduction.py` (eigendecomposition, image metrics and
  plotting) is not part of this model.
- Momentum, weight decay and checkpoint save/load are not modelled. The code
  has none of them, and the weight-decay line at `src/RBM/rbm.py:43` is
  commented out.
- The callers at `src/RBM/MNIST_RBM.py:52,58` expect `gibbsSampling` to return
  two values and `contrastiveDivergence` to take momentum and weight-decay
  arguments. The code returns `(Hp, Hs, Vp, Vs)` and has neither argument, and
  the model follows the code.
- Rbm.RBM.SampleHidden, Rbm.RBM.SampleVisible, Rbm.RBM.ContrastiveDivergence,
  Autoencoder.DAE.Encode, Autoencoder.DAE.Decode and Autoencoder.DAE.Forward
  require batches whose widths match the weight matrices, and require the DAE's
  layers to chain. In the source a mismatch raises RuntimeError inside
  `torch.mm`, and a DAE built from models that do not chain is constructed and
  fails only in `encode` or `decode`. These RuntimeErrors are excluded by the
  preconditions, not modelled.
- Rbm.RBM.ContrastiveDivergence also requires all four batches to have the
  same number of rows. torch would broadcast a one-row batch against a larger
  one in the bias updates of `src/RBM/rbm.py:40-41`; that broadcasting is not
  modelled.
- Rbm.RBM.constructor takes its sizes as natural numbers. `torch.randn` raises
  RuntimeError on a negative size (`src/RBM/rbm.py:12`), and that error is
  not modelled.
- Training the `DAE` after construction is not modelled. The lists are fixed at
  construction and the tensors in them are not updated, so
  `Autoencoder.DAE.Encode` and `Autoencoder.DAE.Decode` read them as they
  are.

## Findings

| source | as written | input that shows it | evidently intended | confidence | as-written member | corrected member |
|---|---|---|---|---|---|---|
| src/RBM/DAE.py:71 | the loop of `Naive_DAE.encode` calls `enc(x)`, a name defined nowhere, so the first iteration raises NameError, and so does `forward` | `Naive_DAE([4, 2])` with any batch of 4 columns | `x = encoder(x)`, the loop variable, which gives a code of the innermost size | not executed | Autoencoder.NaiveEncodeAsWrittenFails | Autoencoder.NaiveForwardShape |
