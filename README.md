# MultiLayerNet in Dafny

A model of `MultiLayerNet` from `common/multi_layer_net.py`: a fully connected network whose hidden
layers use one activation (ReLU or sigmoid) and which ends in a softmax-with-loss unit. The model covers:

- the structure and bookkeeping of the network;
- the parameter store `W1..W{H+1}`, `b1..b{H+1}`, with its shapes and its initial-scale rule;
- the ordered pipeline of affine and activation stages;
- the forward pass (`predict`), the regularised `loss`, `accuracy`, and the order of the backward pass
  (`gradient`), together with how its gradient map is assembled.

The layer primitives (`Affine`, `Relu`, `Sigmoid`, `SoftmaxWithLoss`) live in a file this model does not
include. They appear as a datatype `Layers` of abstract functions that the network passes to
`Create`. The model assumes that each stage caches the input of its last forward call and that its backward
call works from that cached input; the network's own code relies on this without showing it. Every call the
network makes into a primitive is recorded in a call trace. The properties below are proved about that
trace, about those caches and about the values threaded through them.

Files and modules:

| file | module | contents |
|---|---|---|
| `results.dfy` | `Results` | `Option`, `Result` and the error kinds the model reports: the exceptions it models, and `NotANumber`/`Infinity` for the float values `nan`/`inf` that numpy returns instead of raising |
| `tensors.dfy` | `Tensors` | `NdArray` (shape plus row-major entries), `Tensor` (entries fit the shape), `Zeros`, `Matrix`, `SumSquares`, `AddScaled` |
| `names.dfy` | `ParamNames` | the keys `"W{i}"` and `"b{i}"`, which are distinct and number exactly `2n` |
| `init_weight.dfy` | `WeightInit` | `__init_weight`: the scale rule and the loop that fills `params` |
| `pipeline.dfy` | `Stages` | the stage list built by `__init__`, and `list.reverse()` on an array |
| `accuracy.dfy` | `Classification` | `accuracy`'s argmax, label conversion and match ratio, all pure |
| `network.dfy` | `MultiLayerNet` | class `Network` (`predict`, `loss`, `accuracy`, `gradient`), the specification functions `Run` and `Dout`, and `Create` (the constructor) |

How the model is put together:

- **Network fields.** `Network` keeps `params`, the stage caches, the loss unit's cache, the affine
  stages' `dW`/`db` and the call trace as mutable fields. The sizes, `weight_decay_lambda` (the field `weightDecayLambda` of `Network` and of `Config`), the
  pipeline and the primitives are constants. The penalty and gradient helpers `WeightDecay`, `AddScaled`
  and `CollectGrads` take that coefficient as a parameter named `decay`.
- **Invariants.** `Valid()` is an invariant in the plain Dafny sense:
  - `params` has exactly the keys `W1..W{H+1}`, `b1..b{H+1}`;
  - the pipeline has `2H+1` stages, `Affine{i}` sits at position `2i-2`, and every affine stage finds
    its weight and bias;
  - no stage occurs twice.

  `Shaped()` adds the shapes of the weights and biases.
- **Specification functions.** `Run(prims, params, stages, x)` is the left fold that `predict` computes.
  `Dout(..., q)` is the gradient handed back to stage `q - 1` by the chain of backward calls.
  `AffineGradAt(..., q)` is what the affine stage at position `q` computes in its backward call.
- **Where the specifications connect.** Each method's `ensures` ties its result and its new state to
  these functions:
  - the trace equals forward calls in insertion order, then the loss unit, then backward calls in
    reverse order;
  - the caches hold the `Run` prefixes;
  - `affineGrads[i]` is `AffineGradAt` at `Affine{i}`'s position.

## Model

| member | source | states |
|---|---|---|
| `ParamNames.KeysDistinct` | common/multi_layer_net.py:59-60 | `W{i}` and `b{j}` never collide, and `W{i} == W{j}` (or `b{i} == b{j}`) only when `i == j`: each layer gets its own two entries |
| `ParamNames.ParamKeysCount` | common/multi_layer_net.py:52-60 | the keys of layers `1..n` are `2n` distinct strings |
| `WeightInit.ChooseRuleIgnoresCase` | common/multi_layer_net.py:54-56 | the scale rule depends on the name only through its lower-case form |
| `WeightInit.ScaleValue` | common/multi_layer_net.py:53-57 | failure happens exactly for an unknown name, or for He/Xavier with fan-in 0; the error kind is given; He gives `scale² = 2/fan_in` and Xavier `scale² = 1/fan_in` (for a true square root); a number is used unchanged |
| `WeightInit.InitWeight` | common/multi_layer_net.py:49-60 | on success the store is exactly `W1..Wn`, `b1..bn`, each `W{i}` being `scale_i · randn` of shape `(sizes[i-1], sizes[i])` and each `b{i}` zeros of length `sizes[i]`; on failure the error is that of the first layer whose scale fails, and every earlier layer's scale succeeded |
| `WeightInit.InitialLayout` | common/multi_layer_net.py:50-60 | a filled store has `2(\|sizes\|-1)` entries, `W{i}` has shape `(sizes[i-1], sizes[i])`, and `b{i}` is an all-zero vector of length `sizes[i]` |
| `ParamNames.KeyExamples` | common/multi_layer_net.py:59-60 | the keys of layers 1, 2 and 10 are `W1`, `b2`, `W10` and `b10`: the index is written in decimal after the letter |
| `ParamNames.ParamKeysMembers` | common/multi_layer_net.py:52-60 | `W{i}` and `b{i}` are keys of layers `1..n` exactly when `1 <= i <= n`, and every key is one of them |
| `WeightInit.ChooseRule` | common/multi_layer_net.py:53-57 | a numeric `weight_init_std` is used as the scale itself, and only a number gives a literal scale |
| `WeightInit.ChooseRuleNames` | common/multi_layer_net.py:54-57 | He is chosen exactly for `relu` or `he`, Xavier exactly for `sigmoid` or `xavier`, each in any mix of upper and lower case; a name is never a literal scale |
| `WeightInit.ChooseRuleExamples` | common/multi_layer_net.py:53-57 | `'ReLU'` selects He and `'XAVIER'` Xavier; `'relu6'` and the string `'0.01'` are kept as non-numeric scales; the number `0.01` is the scale |
| `Stages.LookupActivation` | common/multi_layer_net.py:22-27 | the lookup succeeds exactly for the names `sigmoid` and `relu`, and yields `Sigmoid` exactly for `sigmoid` |
| `Stages.StageNamesDiffer` | common/multi_layer_net.py:25-30 | two stages of the same kind with different indices, or of different kinds, have different dictionary keys |
| `Stages.StageNameExamples` | common/multi_layer_net.py:25-30 | the keys are `Affine1`, `Activation_function1`, `Affine12`: the decimal index after the kind's prefix |
| `Stages.BuildLayers` | common/multi_layer_net.py:22-31 | construction fails exactly when `H > 0` and the activation name is neither `sigmoid` nor `relu`, with `UnknownActivation(name)`; otherwise the stage list is `Pipeline(H, kind)` |
| `Stages.PipelineLayout` | common/multi_layer_net.py:23-31 | `2H+1` stages; `Affine{i}` at position `2i-2`, immediately followed by `Activation_function{i}` for `i = 1..H`; a final `Affine{H+1}` with nothing after it; affine stages exactly at even positions; every index in `1..H+1` |
| `Stages.PipelineDistinct` | common/multi_layer_net.py:24-31 | no two stages are equal and no two stage names are equal, so no insertion into the ordered dict overwrites an earlier one |
| `Stages.ReverseList` | common/multi_layer_net.py:110 | the array afterwards holds its old contents in reverse order |
| `Stages.ReversedCopy` | common/multi_layer_net.py:109-110 | a fresh array holding the stages last-first |
| `Stages.ReversedVisitsOnce` | common/multi_layer_net.py:109-112 | in a reversed list of distinct stages, each stage appears exactly once, at the mirrored position |
| `Classification.ArgMax` | common/multi_layer_net.py:83 | an index of a largest entry of the row, the first one if several tie |
| `Classification.RowArgMax` | common/multi_layer_net.py:83-84 | row argmax of a rank-2 array: one index per row, failing exactly when the rows are empty |
| `Classification.TargetLabels` | common/multi_layer_net.py:84 | a rank-1 target is used as it is; a rank-2 target goes through its row argmax; other ranks fail |
| `Classification.Matches` | common/multi_layer_net.py:86 | the match count is at most the batch length, and equals it exactly when every label matches |
| `Classification.MatchRatio` | common/multi_layer_net.py:86 | defined exactly when `x` has rank at least 1 and `x.shape[0] > 0`; the result is nonnegative, at most `#labels / x.shape[0]`, and at most 1 when the labels do not outnumber the batch; a rank-0 `x` gives `IndexOutOfRange`, and an empty batch gives `NotANumber` exactly when nothing matched and `Infinity` exactly when something did |
| `Classification.AccuracyOf` | common/multi_layer_net.py:81-87 | succeeds exactly when the prediction is rank 2 with nonempty rows, the target converts to as many labels as there are rows, and the batch is nonempty; the result is nonnegative, at most 1 when there is one row per example; a prediction of another rank gives `AxisError`, and empty rows give `EmptyArgMax` |
| `Classification.AllCorrect` | common/multi_layer_net.py:84-86 | when every row's argmax is its label and there is one row per example, the accuracy is exactly 1 |
| `Classification.OneHotSameAccuracy` | common/multi_layer_net.py:84-86 | a one-hot target and the label vector it encodes give the same accuracy, errors included |
| `Tensors.AddScaled` | common/multi_layer_net.py:116 | `dW + lambda * W` is defined exactly when the shapes agree (else `ShapeMismatch`); it keeps the shape, and entry `k` is `dW[k] + lambda * W[k]` |
| `Tensors.AddScaledZero` | common/multi_layer_net.py:116 | with `lambda = 0` the weight gradient is `dW` itself |
| `MultiLayerNet.AllSizes` | common/multi_layer_net.py:50 | the augmented size list has length `H+2`; it starts with `input_size`, ends with `output_size`, and has the hidden sizes in between |
| `Tensors.SumSquares` | common/multi_layer_net.py:76 | `np.sum(W ** 2)` is never negative; it is 0 when every entry is 0 and positive when some entry is nonzero |
| `MultiLayerNet.WeightDecay` | common/multi_layer_net.py:73-76 | the accumulated penalty is 0 for `lambda = 0` and never negative for `lambda >= 0` |
| `MultiLayerNet.SquaredNormsPositive` | common/multi_layer_net.py:74-76 | a nonzero entry in any of `W1..Wn` makes the summed squared norms positive |
| `MultiLayerNet.WeightDecayIsScaledNorm` | common/multi_layer_net.py:73-76 | the penalty equals `0.5 · lambda · Σ_i ‖W_i‖²`; it is 0 for `lambda = 0` and nonnegative for `lambda ≥ 0` |
| `MultiLayerNet.WeightDecayIgnoresBiases` | common/multi_layer_net.py:74-76 | two stores that agree on the weights have the same penalty, so biases never contribute |
| `MultiLayerNet.DecayRaisesLoss` | common/multi_layer_net.py:70-78 | the loss with `lambda` is the loss with 0 plus `0.5 · lambda · Σ‖W_i‖²`, a strict increase when `lambda > 0` and the summed norms are positive, and in particular when some entry of some `W{i}` is nonzero |
| `MultiLayerNet.DefaultConfig` | common/multi_layer_net.py:12 | leaving out the optional arguments gives ReLU hidden layers, the He scale and no weight decay |
| `MultiLayerNet.PipelineWired` | common/multi_layer_net.py:24-31 | over a store with `W1..W{H+1}`, `b1..b{H+1}`, every affine stage of the pipeline finds its own weight and bias, and `Affine{i}` sits at position `2i-2` |
| `MultiLayerNet.BackwardStep` | common/multi_layer_net.py:111-112 | one backward call, fed the input the stage cached and the gradient from the stage after it, yields the next link of `Dout` and records that affine stage's `AffineGradAt` |
| `MultiLayerNet.CollectGrads` | common/multi_layer_net.py:114-117 | the map has keys exactly `W1..Wn`, `b1..bn`; `grads[W{i}] = dW_i + lambda · W_i` and `grads[b{i}] = db_i`; it fails (`ShapeMismatch`) exactly when some `dW_i` has a shape other than `W_i`'s; with `lambda = 0`, `grads[W{i}] = dW_i` |
| `MultiLayerNet.Network.constructor` | common/multi_layer_net.py:11-33 | stores the configuration, the pipeline and the parameters, with empty caches and an empty trace, and establishes `Valid()` and `Shaped()` |
| `MultiLayerNet.Network.StageForward` | common/multi_layer_net.py:65 | a stage's forward call applies its primitive (an affine one through its own `W{i}`, `b{i}`) and caches its input |
| `MultiLayerNet.Network.StageBackward` | common/multi_layer_net.py:112 | a stage's backward call works from its cached input; an affine stage stores its `dW`, `db` |
| `MultiLayerNet.Network.LossUnitForward` | common/multi_layer_net.py:78 | the loss unit caches the prediction and the target |
| `MultiLayerNet.Network.LossUnitBackward` | common/multi_layer_net.py:106-107 | the loss unit's backward works from what its forward call cached |
| `MultiLayerNet.Network.Predict` | common/multi_layer_net.py:63-67 | the result is `Run` of all stages in insertion order; every stage caches its `Run`-prefix input; the trace gains one forward call per stage, in order; `params` is outside the frame |
| `MultiLayerNet.Network.Penalty` | common/multi_layer_net.py:73-76 | the loop's sum is `WeightDecay` over `W1..W{H+1}`: 0 for `lambda = 0`, nonnegative for `lambda ≥ 0` |
| `MultiLayerNet.Network.Loss` | common/multi_layer_net.py:70-78 | the base loss of the prediction plus the penalty (just the base loss when `lambda = 0`); the loss unit has cached `(prediction, t)`; the trace gains the forward calls, then the loss unit's |
| `MultiLayerNet.Network.Accuracy` | common/multi_layer_net.py:81-87 | `AccuracyOf(prediction, t, x)` after one forward pass |
| `MultiLayerNet.Network.BackwardPass` | common/multi_layer_net.py:109-112 | every stage's backward runs once, in reverse insertion order, each `dout` the previous result; the result is `Dout(0)`, and `affineGrads[i]` is `AffineGradAt` at `Affine{i}`'s position |
| `MultiLayerNet.Network.Gradient` | common/multi_layer_net.py:101-119 | afterwards every stage caches its `Run` prefix of `x` and the loss unit caches the prediction and `t`, as after `loss(x, t)`; the trace is forward calls in order, then the loss unit's forward, then its backward seeded with 1, then every stage's backward in reverse order; `affineGrads[i]` is affine stage `i`'s `AffineGradAt` from the seed; success is exactly when all `dW_i` fit; the result has `params`' keys, `grads[W{i}] = dW_i + lambda · W_i` and `grads[b{i}] = db_i` |
| `MultiLayerNet.Create` | common/multi_layer_net.py:11-33 | construction succeeds exactly when every layer's scale succeeds and (for `H > 0`) the activation is known; scale errors come first, in layer order; a built network satisfies `Valid()` and `Shaped()`, holds `InitialParams` and `layers` = `Pipeline(H, kind)`, and starts with empty caches and trace |

## Left out

- `numerical_gradient` (common/multi_layer_net.py:90-98): it is a finite-difference estimate that delegates to `common.gradient`, which this model does not include.
- `__repr__` (common/multi_layer_net.py:36-46), the debug `print` (line 51) and the `sys.path` setup (line 5): none of them has behaviour to verify.
- Layer internals: the arithmetic of `Affine`, `Relu`, `Sigmoid` and `SoftmaxWithLoss` (common/layers.py is not part of this model) is abstract. Each primitive is a function value in `Layers`. Only how the network calls them, and what they cache, is modelled.
- Random sampling: `np.random.randn` is the parameter `randn(layer, entry)`, and `np.sqrt` is the parameter `sqrt`. The scale facts assume `IsSqrt(sqrt)`.
- Floating point: weights, losses and ratios are exact `real`s, with no rounding, overflow or `nan` propagation. Dividing by an empty batch gives `nan` (no match) or `inf` (some match) in numpy, and the floating-point values themselves are not modelled. The model reports `NotANumber` and `Infinity` instead. `argmax` over rows containing `nan` is not modelled.
- `str(weight_init_std).lower()` is modelled as ASCII lower-casing of a name. A numeric `weight_init_std` is a `Number`, whose `str` never spells a rule name.
- Broadcasting: comparing label vectors of different lengths and adding `dW` to a `W` of another shape are reported as `ShapeMismatch`. numpy would sometimes broadcast instead.
- Targets of rank 0, and targets or predictions of rank 3 and above, are reported as `AxisError`. For rank 3 and above, numpy would instead reduce along axis 1 and then broadcast the comparison.
- Negative sizes: every layer width is a `nat`, so the `ValueError` ("negative dimensions are not allowed") that `np.random.randn`/`np.zeros` raise at common/multi_layer_net.py:59-60 for a negative width is not modelled.
- Failures inside the layers: the primitives in `Layers` are total functions, so `Predict`, `Loss`, `Accuracy` and the backward pass never fail in the model. Exceptions raised inside `common.layers`, such as `Affine.forward`'s matrix product on a batch whose feature size is not `input_size`, do not appear.
- The optimiser's in-place updates of `params` between calls happen outside this class. No method of `Network` changes `params`.
- `MultiLayerNet.Network.Valid`: `layers == Pipeline(H, kind)` is not restated in the invariant. `Create` establishes it, and `layers` is a constant, so it cannot change afterwards.
- `Classification.AccuracyOf`: reports `AxisError` for predictions of rank 3 and above, where numpy reduces along axis 1 and carries on. It states `result <= 1` only when the prediction has no more rows than `x.shape[0]`, because the abstract affine primitive is not known to keep the batch size.
