/**
 * `MultiLayerNet`: the parameter store, the ordered pipeline of layers, and the forward, loss, accuracy
 * and backward passes that orchestrate them. The layers' arithmetic is given by `Layers`.
 */
module MultiLayerNet {
  import opened Results
  import opened Tensors
  import opened ParamNames
  import opened WeightInit
  import opened Stages
  import Classification

  /** The constructor's arguments, with the defaults `activation='relu'`, `weight_init_std='relu'`, `weight_decay_lambda=0`. */
  datatype Config = Config(inputSize: nat, hiddenSizes: seq<nat>, outputSize: nat,
                           activation: string := "relu", weightInitStd: InitStd := Name("relu"),
                           weightDecayLambda: real := 0.0)
  {
    function Sizes(): seq<nat> { AllSizes(inputSize, hiddenSizes, outputSize) }
  }

  /** Leaving out the optional arguments selects ReLU hidden layers, He scales and no weight decay. */
  lemma DefaultConfig(inputSize: nat, hiddenSizes: seq<nat>, outputSize: nat)
    ensures var c := Config(inputSize, hiddenSizes, outputSize);
            && LookupActivation(c.activation) == Some(Relu)
            && ChooseRule(c.weightInitStd) == He
            && c.weightDecayLambda == 0.0
  {
  }

  /** `[input_size] + hidden_size_list + [output_size]`. */
  function AllSizes(input: nat, hidden: seq<nat>, output: nat): (s: seq<nat>)
    ensures |s| == |hidden| + 2 && s[0] == input && s[|s| - 1] == output
    ensures forall i :: 0 <= i < |hidden| ==> s[i + 1] == hidden[i]
  {
    [input] + hidden + [output]
  }

  /** What an affine layer's `backward` leaves behind: the gradient it returns and its `dW` and `db`. */
  datatype AffineGrads = AffineGrads(dx: Tensor, dW: Tensor, db: Tensor)

  /**
   * The layer primitives of `common.layers`, as functions of what each layer holds:
   * `Affine` computes from `W`, `b` and the input it cached; `Relu`/`Sigmoid` from the input they cached;
   * `SoftmaxWithLoss` from the prediction and target it cached.
   */
  datatype Layers = Layers(
    affineForward: (Tensor, Tensor, Tensor) -> Tensor,          // (W, b, x) -> out
    affineBackward: (Tensor, Tensor, Tensor) -> AffineGrads,    // (W, cached x, dout) -> dx, dW, db
    activationForward: (Activation, Tensor) -> Tensor,          // (kind, x) -> out
    activationBackward: (Activation, Tensor, Tensor) -> Tensor, // (kind, cached x, dout) -> dx
    lossForward: (Tensor, Tensor) -> real,                      // (y, t) -> loss
    lossBackward: (real, Tensor, Tensor) -> Tensor)             // (dout, cached y, cached t) -> dy

  /** One call into a layer primitive, in the order the network makes them. */
  datatype Call = Forward(stage: Stage) | Backward(stage: Stage) | LossForward | LossBackward(seed: real)

  /** Every affine stage of `ls` finds its weight and bias in `params`. */
  ghost predicate Wired(params: map<string, Tensor>, ls: seq<Stage>)
  {
    forall p :: 0 <= p < |ls| && ls[p].Affine? ==> WKey(ls[p].index) in params && BKey(ls[p].index) in params
  }

  /** `layer.forward(x)` for one stage; an affine stage reads its parameters from the shared store. */
  function Apply(prims: Layers, params: map<string, Tensor>, s: Stage, x: Tensor): Tensor
    requires s.Affine? ==> WKey(s.index) in params && BKey(s.index) in params
  {
    match s
    case Affine(i) => prims.affineForward(params[WKey(i)], params[BKey(i)], x)
    case Activate(k, _) => prims.activationForward(k, x)
  }

  /** The stages of `ls` applied left to right to `x`, each output the next stage's input. */
  function Run(prims: Layers, params: map<string, Tensor>, ls: seq<Stage>, x: Tensor): Tensor
    requires Wired(params, ls)
    decreases |ls|
  {
    if |ls| == 0 then x
    else Apply(prims, params, ls[|ls| - 1], Run(prims, params, ls[..|ls| - 1], x))
  }

  /** Running one stage further applies that stage to what the stages before it produced. */
  lemma RunSnoc(prims: Layers, params: map<string, Tensor>, ls: seq<Stage>, x: Tensor, k: nat)
    requires Wired(params, ls) && k < |ls|
    ensures Wired(params, ls[..k]) && Wired(params, ls[..k + 1])
    ensures Run(prims, params, ls[..k + 1], x) == Apply(prims, params, ls[k], Run(prims, params, ls[..k], x))
  {
    assert ls[..k + 1][..k] == ls[..k];
  }

  /** Each of the first `hi` stages of `ls` finds in `cache` the input it received on `x`. */
  ghost predicate CachedUpTo(cache: map<Stage, Tensor>, prims: Layers, params: map<string, Tensor>, ls: seq<Stage>,
                             x: Tensor, hi: nat)
    requires Wired(params, ls) && hi <= |ls|
  {
    forall q :: 0 <= q < hi ==> ls[q] in cache && cache[ls[q]] == Run(prims, params, ls[..q], x)
  }

  /** The forward call of stage `k` extends `CachedUpTo` from `k` to `k + 1`. */
  lemma CachedStep(cache: map<Stage, Tensor>, prims: Layers, params: map<string, Tensor>, ls: seq<Stage>, x: Tensor, k: nat)
    requires Wired(params, ls) && Distinct(ls) && k < |ls|
    requires CachedUpTo(cache, prims, params, ls, x, k)
    ensures CachedUpTo(cache[ls[k] := Run(prims, params, ls[..k], x)], prims, params, ls, x, k + 1)
  {
    var updated := cache[ls[k] := Run(prims, params, ls[..k], x)];
    forall q | 0 <= q < k ensures ls[q] in updated && updated[ls[q]] == Run(prims, params, ls[..q], x) {
      assert ls[q] != ls[k];
    }
  }

  /** `layer.backward(dout)` for one stage, given the input it cached in the forward pass. */
  function StageBack(prims: Layers, params: map<string, Tensor>, s: Stage, cached: Tensor, dout: Tensor): Tensor
    requires s.Affine? ==> WKey(s.index) in params
  {
    match s
    case Affine(i) => prims.affineBackward(params[WKey(i)], cached, dout).dx
    case Activate(k, _) => prims.activationBackward(k, cached, dout)
  }

  /**
   * The gradient handed to the backward of stage `q - 1`: `seed` for the last stage, and for earlier ones
   * what the stage after them returned (the chain rule applied stage by stage).
   */
  function Dout(prims: Layers, params: map<string, Tensor>, ls: seq<Stage>, x: Tensor, seed: Tensor, q: nat): Tensor
    requires Wired(params, ls) && q <= |ls|
    decreases |ls| - q
  {
    if q == |ls| then seed
    else StageBack(prims, params, ls[q], Run(prims, params, ls[..q], x), Dout(prims, params, ls, x, seed, q + 1))
  }

  /** What the affine stage at position `q` computes in its backward call. */
  function AffineGradAt(prims: Layers, params: map<string, Tensor>, ls: seq<Stage>, x: Tensor, seed: Tensor, q: nat): AffineGrads
    requires Wired(params, ls) && q < |ls| && ls[q].Affine?
  {
    prims.affineBackward(params[WKey(ls[q].index)], Run(prims, params, ls[..q], x), Dout(prims, params, ls, x, seed, q + 1))
  }

  /** Every affine stage at position `lo` or later has stored what it computes in its backward call. */
  ghost predicate GradsFrom(ag: map<nat, AffineGrads>, prims: Layers, params: map<string, Tensor>, ls: seq<Stage>,
                            x: Tensor, seed: Tensor, lo: nat)
    requires Wired(params, ls)
  {
    forall q :: lo <= q < |ls| && ls[q].Affine? ==>
      ls[q].index in ag && ag[ls[q].index] == AffineGradAt(prims, params, ls, x, seed, q)
  }

  /**
   * The backward call of stage `q`, on the input it cached and the gradient `dout` from the stage after it,
   * returns the next link of the chain and extends `GradsFrom` from `q + 1` down to `q`.
   */
  lemma BackwardStep(prims: Layers, params: map<string, Tensor>, ls: seq<Stage>, x: Tensor, seed: Tensor, q: nat,
                     dout: Tensor, dx: Tensor, ag: map<nat, AffineGrads>, updated: map<nat, AffineGrads>)
    requires Wired(params, ls) && Distinct(ls) && q < |ls|
    requires dout == Dout(prims, params, ls, x, seed, q + 1)
    requires GradsFrom(ag, prims, params, ls, x, seed, q + 1)
    requires dx == StageBack(prims, params, ls[q], Run(prims, params, ls[..q], x), dout)
    requires updated == if ls[q].Affine? then ag[ls[q].index := prims.affineBackward(params[WKey(ls[q].index)], Run(prims, params, ls[..q], x), dout)]
                        else ag
    ensures dx == Dout(prims, params, ls, x, seed, q)
    ensures GradsFrom(updated, prims, params, ls, x, seed, q)
  {
    forall p | q < p < |ls| && ls[p].Affine?
      ensures ls[p].index in updated && updated[ls[p].index] == AffineGradAt(prims, params, ls, x, seed, p)
    {
      assert ls[q] != ls[p];
    }
  }

  /** Where `Affine{i}` sits in the pipeline (0-based). */
  function AffinePosition(i: nat): nat
    requires i >= 1
  {
    2 * i - 2
  }

  /** Once every stage has run backward, affine stage `i` holds what the stage at `AffinePosition(i)` computed. */
  lemma GradsByLayer(ag: map<nat, AffineGrads>, prims: Layers, params: map<string, Tensor>, ls: seq<Stage>,
                     x: Tensor, seed: Tensor, n: nat)
    requires Wired(params, ls) && GradsFrom(ag, prims, params, ls, x, seed, 0)
    requires forall i :: 1 <= i <= n ==> AffinePosition(i) < |ls| && ls[AffinePosition(i)] == Affine(i)
    ensures forall i :: 1 <= i <= n ==> i in ag && ag[i] == AffineGradAt(prims, params, ls, x, seed, AffinePosition(i))
  {
    forall i | 1 <= i <= n ensures i in ag && ag[i] == AffineGradAt(prims, params, ls, x, seed, AffinePosition(i)) {
      assert ls[AffinePosition(i)] == Affine(i);
    }
  }

  function ForwardCalls(ls: seq<Stage>): (c: seq<Call>)
    ensures |c| == |ls|
  {
    seq(|ls|, p requires 0 <= p < |ls| => Forward(ls[p]))
  }

  function BackwardCalls(ls: seq<Stage>): (c: seq<Call>)
    ensures |c| == |ls|
  {
    seq(|ls|, p requires 0 <= p < |ls| => Backward(ls[p]))
  }

  /** Calling the stages one more stage further appends that stage's forward call. */
  lemma ForwardCallsSnoc(before: seq<Call>, ls: seq<Stage>, k: nat)
    requires k < |ls|
    ensures before + ForwardCalls(ls[..k + 1]) == before + ForwardCalls(ls[..k]) + [Forward(ls[k])]
  {
    assert ls[..k + 1][..k] == ls[..k];
    assert ForwardCalls(ls[..k + 1]) == ForwardCalls(ls[..k]) + [Forward(ls[k])];
  }

  /** The backward counterpart of `ForwardCallsSnoc`. */
  lemma BackwardCallsSnoc(before: seq<Call>, ls: seq<Stage>, k: nat)
    requires k < |ls|
    ensures before + BackwardCalls(ls[..k + 1]) == before + BackwardCalls(ls[..k]) + [Backward(ls[k])]
  {
    assert ls[..k + 1][..k] == ls[..k];
    assert BackwardCalls(ls[..k + 1]) == BackwardCalls(ls[..k]) + [Backward(ls[k])];
  }

  /** `sum(0.5 * weight_decay_lambda * np.sum(W ** 2))` over the weights `W1..Wn`, with `decay` for the coefficient; no bias takes part. */
  function WeightDecay(params: map<string, Tensor>, n: nat, decay: real): (r: real)
    requires forall i :: 1 <= i <= n ==> WKey(i) in params
    ensures decay == 0.0 ==> r == 0.0
    ensures decay >= 0.0 ==> r >= 0.0
  {
    if n == 0 then 0.0
    else
      ScaleSign(0.5 * decay, SumSquares(params[WKey(n)].data));
      WeightDecay(params, n - 1, decay) + 0.5 * decay * SumSquares(params[WKey(n)].data)
  }

  /** The squared Frobenius norms of `W1..Wn`, summed. */
  function SquaredNorms(params: map<string, Tensor>, n: nat): (r: real)
    requires forall i :: 1 <= i <= n ==> WKey(i) in params
    ensures r >= 0.0
  {
    if n == 0 then 0.0 else SquaredNorms(params, n - 1) + SumSquares(params[WKey(n)].data)
  }

  /** The penalty is exactly `0.5 * decay * sum_i ||W_i||^2`: zero for `decay = 0`, never negative for `decay >= 0`. */
  lemma {:induction false} WeightDecayIsScaledNorm(params: map<string, Tensor>, n: nat, decay: real)
    requires forall i :: 1 <= i <= n ==> WKey(i) in params
    ensures WeightDecay(params, n, decay) == 0.5 * decay * SquaredNorms(params, n)
    ensures decay == 0.0 ==> WeightDecay(params, n, decay) == 0.0
    ensures decay >= 0.0 ==> WeightDecay(params, n, decay) >= 0.0
  {
    if n > 0 {
      WeightDecayIsScaledNorm(params, n - 1, decay);
      WeightDecayStep(params, n, decay);
    }
  }

  /** One more layer adds its squared norm to both sides of `WeightDecayIsScaledNorm`. */
  lemma WeightDecayStep(params: map<string, Tensor>, n: nat, decay: real)
    requires forall i :: 1 <= i <= n ==> WKey(i) in params
    requires n > 0 && WeightDecay(params, n - 1, decay) == 0.5 * decay * SquaredNorms(params, n - 1)
    ensures WeightDecay(params, n, decay) == 0.5 * decay * SquaredNorms(params, n)
  {
    ScaleDistributes(0.5 * decay, SquaredNorms(params, n - 1), SumSquares(params[WKey(n)].data));
  }

  lemma ScaleDistributes(c: real, a: real, b: real)
    ensures c * (a + b) == c * a + c * b
  { }

  lemma ScaleSign(c: real, a: real)
    ensures c >= 0.0 && a >= 0.0 ==> c * a >= 0.0
  { }

  /** Only the weight matrices enter the penalty: two stores that agree on `W1..Wn` have the same penalty. */
  lemma {:induction false} WeightDecayIgnoresBiases(p1: map<string, Tensor>, p2: map<string, Tensor>, n: nat, decay: real)
    requires forall i :: 1 <= i <= n ==> WKey(i) in p1 && WKey(i) in p2 && p1[WKey(i)] == p2[WKey(i)]
    ensures WeightDecay(p1, n, decay) == WeightDecay(p2, n, decay)
  {
    if n > 0 {
      WeightDecayIgnoresBiases(p1, p2, n - 1, decay);
    }
  }

  /**
   * Raising the decay coefficient from 0 adds exactly `0.5 * decay * sum_i ||W_i||^2` to the loss, which is
   * a strict raise as soon as some weight entry is nonzero and the coefficient is positive.
   */
  lemma {:induction false} DecayRaisesLoss(params: map<string, Tensor>, n: nat, decay: real, base: real)
    requires forall i :: 1 <= i <= n ==> WKey(i) in params
    ensures base + WeightDecay(params, n, decay) == base + WeightDecay(params, n, 0.0) + 0.5 * decay * SquaredNorms(params, n)
    ensures decay > 0.0 && SquaredNorms(params, n) > 0.0 ==> base + WeightDecay(params, n, decay) > base + WeightDecay(params, n, 0.0)
    ensures decay > 0.0 && (exists i, k :: 1 <= i <= n && 0 <= k < |params[WKey(i)].data| && params[WKey(i)].data[k] != 0.0) ==>
              base + WeightDecay(params, n, decay) > base + WeightDecay(params, n, 0.0)
  {
    WeightDecayIsScaledNorm(params, n, decay);
    WeightDecayIsScaledNorm(params, n, 0.0);
    if exists i, k :: 1 <= i <= n && 0 <= k < |params[WKey(i)].data| && params[WKey(i)].data[k] != 0.0 {
      var i, k :| 1 <= i <= n && 0 <= k < |params[WKey(i)].data| && params[WKey(i)].data[k] != 0.0;
      SquaredNormsPositive(params, n, i, k);
    }
  }

  /** A nonzero entry in any of `W1..Wn` makes the summed squared norms positive. */
  lemma {:induction false} SquaredNormsPositive(params: map<string, Tensor>, n: nat, i: nat, k: nat)
    requires forall j :: 1 <= j <= n ==> WKey(j) in params
    requires 1 <= i <= n && k < |params[WKey(i)].data| && params[WKey(i)].data[k] != 0.0
    ensures SquaredNorms(params, n) > 0.0
  {
    if i < n {
      SquaredNormsPositive(params, n - 1, i, k);
    }
  }

  /** Affine stage `i`'s `dW` fits `W{i}`, and `grads` holds `W{i}`'s gradient `dW + decay * W{i}` and `b{i}`'s gradient `db`. */
  ghost predicate GradStored(grads: map<string, Tensor>, params: map<string, Tensor>, ag: map<nat, AffineGrads>, decay: real, i: nat)
  {
    && i in ag && WKey(i) in params
    && ag[i].dW.shape == params[WKey(i)].shape
    && WKey(i) in grads && grads[WKey(i)] == AddScaled(ag[i].dW, decay, params[WKey(i)]).value
    && BKey(i) in grads && grads[BKey(i)] == ag[i].db
  }

  /** Storing layer `n`'s two gradients extends a store holding layers `1..n-1` to one holding layers `1..n`. */
  lemma GradStoreStep(grads: map<string, Tensor>, params: map<string, Tensor>, ag: map<nat, AffineGrads>, decay: real, n: nat)
    requires n >= 1 && n in ag && WKey(n) in params && ag[n].dW.shape == params[WKey(n)].shape
    requires grads.Keys == ParamKeys(n - 1)
    requires forall i :: 1 <= i < n ==> GradStored(grads, params, ag, decay, i)
    ensures var updated := grads[WKey(n) := AddScaled(ag[n].dW, decay, params[WKey(n)]).value][BKey(n) := ag[n].db];
            && updated.Keys == ParamKeys(n)
            && forall i :: 1 <= i <= n ==> GradStored(updated, params, ag, decay, i)
  {
    var dW, db := AddScaled(ag[n].dW, decay, params[WKey(n)]).value, ag[n].db;
    var updated := grads[WKey(n) := dW][BKey(n) := db];
    forall i | 1 <= i < n ensures GradStored(updated, params, ag, decay, i) {
      assert GradStored(grads, params, ag, decay, i);
      StoreKeepsOtherLayer(grads, n, dW, db, i);
    }
    KeysDistinct(n, n);
    StoreLayerKeys(grads, n, dW, db);
  }

  /**
   * The collection step of `gradient`: `W{i}`'s gradient is affine stage `i`'s `dW + decay * W{i}`,
   * `b{i}`'s is its `db`, for `i = 1..n`; a `dW` whose shape differs from `W{i}`'s is an error.
   */
  method CollectGrads(params: map<string, Tensor>, ag: map<nat, AffineGrads>, decay: real, n: nat)
    returns (r: Result<map<string, Tensor>>)
    requires forall i :: 1 <= i <= n ==> WKey(i) in params && i in ag
    ensures r.Ok? <==> forall i :: 1 <= i <= n ==> ag[i].dW.shape == params[WKey(i)].shape
    ensures r.Err? ==> r.error == ShapeMismatch
    ensures r.Ok? ==> r.value.Keys == ParamKeys(n)
    ensures r.Ok? ==> forall i :: 1 <= i <= n ==>
              && WKey(i) in r.value && r.value[WKey(i)] == AddScaled(ag[i].dW, decay, params[WKey(i)]).value
              && BKey(i) in r.value && r.value[BKey(i)] == ag[i].db
    ensures r.Ok? && decay == 0.0 ==> forall i :: 1 <= i <= n ==> WKey(i) in r.value && r.value[WKey(i)] == ag[i].dW
  {
    var grads: map<string, Tensor> := map[];
    var idx := 1;
    while idx <= n
      invariant 1 <= idx <= n + 1
      invariant grads.Keys == ParamKeys(idx - 1)
      invariant forall i :: 1 <= i < idx ==> GradStored(grads, params, ag, decay, i)
    {
      var g := ag[idx];
      var dW := AddScaled(g.dW, decay, params[WKey(idx)]);
      if dW.Err? {
        return Err(dW.error);
      }
      GradStoreStep(grads, params, ag, decay, idx);
      grads := grads[WKey(idx) := dW.value][BKey(idx) := g.db];
      idx := idx + 1;
    }
    forall i | 1 <= i <= n
      ensures && ag[i].dW.shape == params[WKey(i)].shape
              && WKey(i) in grads && grads[WKey(i)] == AddScaled(ag[i].dW, decay, params[WKey(i)]).value
              && BKey(i) in grads && grads[BKey(i)] == ag[i].db
      ensures decay == 0.0 ==> grads[WKey(i)] == ag[i].dW
    {
      assert GradStored(grads, params, ag, decay, i);
      if decay == 0.0 {
        AddScaledZero(ag[i].dW, params[WKey(i)]);
      }
    }
    r := Ok(grads);
  }

  /** The pipeline for `h` hidden layers, over a store holding `W1..W{h+1}` and `b1..b{h+1}`, is what `Valid` asks. */
  lemma PipelineWired(h: nat, kind: Option<Activation>, params: map<string, Tensor>)
    requires h > 0 ==> kind.Some?
    requires forall i :: 1 <= i <= h + 1 ==> WKey(i) in params && BKey(i) in params
    ensures |Pipeline(h, kind)| == 2 * h + 1
    ensures forall i :: 1 <= i <= h + 1 ==> Pipeline(h, kind)[AffinePosition(i)] == Affine(i)
    ensures Wired(params, Pipeline(h, kind))
    ensures Distinct(Pipeline(h, kind))
  {
    PipelineLayout(h, kind);
    PipelineDistinct(h, kind);
    var ls := Pipeline(h, kind);
    forall i | 1 <= i <= h + 1 ensures ls[AffinePosition(i)] == Affine(i) {
      if i <= h {
        assert ls[2 * i - 2] == Affine(i);
      }
    }
    forall p | 0 <= p < |ls| && ls[p].Affine? ensures WKey(ls[p].index) in params && BKey(ls[p].index) in params {
      assert 1 <= ls[p].index <= h + 1;
    }
  }

  class Network {
    const inputSize: nat
    const hiddenSizes: seq<nat>
    const outputSize: nat
    const weightDecayLambda: real
    /** `activation_layer[activation]`; it must exist when there are hidden layers. */
    const activationKind: Option<Activation>
    /** `self.layers`, in insertion (forward) order; its structure never changes. */
    const layers: seq<Stage>
    /** The layer primitives every stage and the loss unit delegate to. */
    const prims: Layers
    /** `self.params`, shared with the affine stages: stage `Affine(i)` reads `W{i}` and `b{i}` from here. */
    var params: map<string, Tensor>
    /** The input each stage cached in its last forward call. */
    var inputCache: map<Stage, Tensor>
    /** The prediction and target the loss unit cached in its last forward call. */
    var lossCache: Option<(Tensor, Tensor)>
    /** `dW` and `db` of affine stage `i` after its last backward call. */
    var affineGrads: map<nat, AffineGrads>
    /** Every call into a layer primitive so far. */
    var trace: seq<Call>

    /**
     * The invariant `__init__` establishes and no operation breaks. (That `layers` is exactly
     * `Pipeline(H, activationKind)` is fixed at construction, see `Create`; `layers` is immutable.)
     */
    ghost predicate Valid()
      reads this`params
    {
      var h := |hiddenSizes|;
      && params.Keys == ParamKeys(h + 1)
      && (forall i :: 1 <= i <= h + 1 ==> WKey(i) in params && BKey(i) in params)
      && |layers| == 2 * h + 1
      && (forall i :: 1 <= i <= h + 1 ==> layers[AffinePosition(i)] == Affine(i))
      && Wired(params, layers)
      && Distinct(layers)
    }

    /** Every weight `W{i}` is `sizes[i-1] x sizes[i]` and every bias `b{i}` has `sizes[i]` entries. */
    ghost predicate Shaped()
      reads this`params
    {
      var sizes := AllSizes(inputSize, hiddenSizes, outputSize);
      forall i :: 1 <= i <= |hiddenSizes| + 1 ==>
        && WKey(i) in params && params[WKey(i)].shape == [sizes[i - 1], sizes[i]]
        && BKey(i) in params && params[BKey(i)].shape == [sizes[i]]
    }

    /** What `predict(x)` returns. */
    ghost function Prediction(x: Tensor): Tensor
      reads this`params
      requires Valid()
    {
      Run(prims, params, layers, x)
    }

    /** What the loss unit's backward returns for `dout = 1` after a forward pass on `x` and `t`. */
    ghost function Seed(x: Tensor, t: Tensor): Tensor
      reads this`params
      requires Valid()
    {
      prims.lossBackward(1.0, Prediction(x), t)
    }

    /** After a forward pass on `x`, each stage holds the input it received. */
    ghost predicate Cached(x: Tensor)
      reads this`params, this`inputCache
      requires Valid()
    {
      forall q :: 0 <= q < |layers| ==> layers[q] in inputCache && inputCache[layers[q]] == Run(prims, params, layers[..q], x)
    }

    /** Wires a network from its configuration, its parameter store and its pipeline. */
    constructor (c: Config, kind: Option<Activation>, ls: seq<Stage>, ps: map<string, Tensor>, prims: Layers)
      requires |c.hiddenSizes| > 0 ==> kind.Some?
      requires ls == Pipeline(|c.hiddenSizes|, kind)
      requires ps.Keys == ParamKeys(|c.hiddenSizes| + 1)
      requires forall i :: 1 <= i <= |c.hiddenSizes| + 1 ==>
                 && WKey(i) in ps && ps[WKey(i)].shape == [c.Sizes()[i - 1], c.Sizes()[i]]
                 && BKey(i) in ps && ps[BKey(i)].shape == [c.Sizes()[i]]
      ensures Valid() && Shaped()
      ensures inputSize == c.inputSize && hiddenSizes == c.hiddenSizes && outputSize == c.outputSize
      ensures weightDecayLambda == c.weightDecayLambda && activationKind == kind && layers == ls && this.prims == prims
      ensures params == ps && inputCache == map[] && lossCache == None && affineGrads == map[] && trace == []
    {
      inputSize, hiddenSizes, outputSize := c.inputSize, c.hiddenSizes, c.outputSize;
      weightDecayLambda, activationKind, layers, this.prims := c.weightDecayLambda, kind, ls, prims;
      params, inputCache, lossCache, affineGrads, trace := ps, map[], None, map[], [];
      new;
      PipelineWired(|c.hiddenSizes|, kind, ps);
    }

    /** `layer.forward(x)` of one stage: it caches its input. */
    method StageForward(s: Stage, x: Tensor) returns (out: Tensor)
      requires s.Affine? ==> WKey(s.index) in params && BKey(s.index) in params
      modifies this`inputCache, this`trace
      ensures out == Apply(prims, params, s, x)
      ensures inputCache == old(inputCache)[s := x]
      ensures trace == old(trace) + [Forward(s)]
    {
      inputCache := inputCache[s := x];
      trace := trace + [Forward(s)];
      out := Apply(prims, params, s, x);
    }

    /** `layer.backward(dout)` of one stage: an affine stage keeps its `dW` and `db`. */
    method StageBackward(s: Stage, dout: Tensor) returns (dx: Tensor)
      requires s in inputCache
      requires s.Affine? ==> WKey(s.index) in params
      modifies this`affineGrads, this`trace
      ensures dx == StageBack(prims, params, s, inputCache[s], dout)
      ensures affineGrads == if s.Affine? then old(affineGrads)[s.index := prims.affineBackward(params[WKey(s.index)], inputCache[s], dout)]
                             else old(affineGrads)
      ensures trace == old(trace) + [Backward(s)]
    {
      trace := trace + [Backward(s)];
      if s.Affine? {
        var g := prims.affineBackward(params[WKey(s.index)], inputCache[s], dout);
        affineGrads := affineGrads[s.index := g];
        dx := g.dx;
      } else {
        dx := prims.activationBackward(s.kind, inputCache[s], dout);
      }
    }

    /** `self.last_layer.forward(y, t)`: it caches the prediction and the target. */
    method LossUnitForward(y: Tensor, t: Tensor) returns (l: real)
      modifies this`lossCache, this`trace
      ensures l == prims.lossForward(y, t)
      ensures lossCache == Some((y, t))
      ensures trace == old(trace) + [LossForward]
    {
      lossCache := Some((y, t));
      trace := trace + [LossForward];
      l := prims.lossForward(y, t);
    }

    /** `self.last_layer.backward(dout)`, from what its forward call cached. */
    method LossUnitBackward(seed: real) returns (dy: Tensor)
      requires lossCache.Some?
      modifies this`trace
      ensures dy == prims.lossBackward(seed, lossCache.value.0, lossCache.value.1)
      ensures trace == old(trace) + [LossBackward(seed)]
    {
      trace := trace + [LossBackward(seed)];
      dy := prims.lossBackward(seed, lossCache.value.0, lossCache.value.1);
    }

    /**
     * `predict`: the stages in insertion order, each output the next one's input; the result is the last
     * affine stage's output. The parameters are not touched; each stage caches its input.
     */
    method Predict(x: Tensor) returns (y: Tensor)
      requires Valid()
      modifies this`inputCache, this`trace
      ensures y == Prediction(x)
      ensures Cached(x)
      ensures trace == old(trace) + ForwardCalls(layers)
    {
      ghost var t0 := trace;
      y := x;
      var k := 0;
      while k < |layers|
        invariant 0 <= k <= |layers|
        invariant y == Run(prims, params, layers[..k], x)
        invariant trace == t0 + ForwardCalls(layers[..k])
        invariant CachedUpTo(inputCache, prims, params, layers, x, k)
      {
        RunSnoc(prims, params, layers, x, k);
        ForwardCallsSnoc(t0, layers, k);
        CachedStep(inputCache, prims, params, layers, x, k);
        y := StageForward(layers[k], y);
        k := k + 1;
      }
      assert layers[..k] == layers;
      assert CachedUpTo(inputCache, prims, params, layers, x, |layers|);
    }

    /** The weight-decay loop of `loss`: `0.5 * weight_decay_lambda * np.sum(W ** 2)` accumulated over `W1..W{H+1}`. */
    method Penalty() returns (weightDecay: real)
      requires forall i :: 1 <= i <= |hiddenSizes| + 1 ==> WKey(i) in params
      ensures weightDecay == WeightDecay(params, |hiddenSizes| + 1, weightDecayLambda)
      ensures weightDecayLambda == 0.0 ==> weightDecay == 0.0
      ensures weightDecayLambda >= 0.0 ==> weightDecay >= 0.0
    {
      weightDecay := 0.0;
      var idx := 1;
      while idx <= |hiddenSizes| + 1
        invariant 1 <= idx <= |hiddenSizes| + 2
        invariant weightDecay == WeightDecay(params, idx - 1, weightDecayLambda)
      {
        var w := params[WKey(idx)];
        weightDecay := weightDecay + 0.5 * weightDecayLambda * SumSquares(w.data);
        idx := idx + 1;
      }
      WeightDecayIsScaledNorm(params, |hiddenSizes| + 1, weightDecayLambda);
    }

    /** `loss`: the loss unit on the prediction, plus the weight-decay penalty. */
    method Loss(x: Tensor, t: Tensor) returns (l: real)
      requires Valid()
      modifies this`inputCache, this`lossCache, this`trace
      ensures l == prims.lossForward(Prediction(x), t) + WeightDecay(params, |hiddenSizes| + 1, weightDecayLambda)
      ensures weightDecayLambda == 0.0 ==> l == prims.lossForward(Prediction(x), t)
      ensures Cached(x) && lossCache == Some((Prediction(x), t))
      ensures trace == old(trace) + ForwardCalls(layers) + [LossForward]
    {
      var y := Predict(x);
      var weightDecay := Penalty();
      var base := LossUnitForward(y, t);
      l := base + weightDecay;
    }

    /** `accuracy`: the prediction's row argmax against the target labels, over the batch size. */
    method Accuracy(x: Tensor, t: Tensor) returns (r: Result<real>)
      requires Valid()
      modifies this`inputCache, this`trace
      ensures r == Classification.AccuracyOf(Prediction(x), t, x)
      ensures Cached(x) && trace == old(trace) + ForwardCalls(layers)
    {
      var y := Predict(x);
      r := Classification.AccuracyOf(y, t, x);
    }

    /**
     * The backward loop of `gradient`: `layers.reverse()` and every stage's backward in that order, the
     * output of one the `dout` of the next, starting from `dout0`.
     */
    method BackwardPass(ghost x: Tensor, dout0: Tensor) returns (dx: Tensor)
      requires Wired(params, layers) && Distinct(layers)
      requires forall i :: 1 <= i <= |hiddenSizes| + 1 ==> AffinePosition(i) < |layers| && layers[AffinePosition(i)] == Affine(i)
      requires forall q :: 0 <= q < |layers| ==> layers[q] in inputCache && inputCache[layers[q]] == Run(prims, params, layers[..q], x)
      modifies this`affineGrads, this`trace
      ensures dx == Dout(prims, params, layers, x, dout0, 0)
      ensures trace == old(trace) + BackwardCalls(Reversed(layers))
      ensures forall i :: 1 <= i <= |hiddenSizes| + 1 ==>
                i in affineGrads && affineGrads[i] == AffineGradAt(prims, params, layers, x, dout0, AffinePosition(i))
    {
      var n := |layers|;
      var rev := ReversedCopy(layers);
      var order := rev[..];
      ghost var t0 := trace;
      dx := dout0;
      var k := 0;
      while k < n
        invariant 0 <= k <= n
        invariant dx == Dout(prims, params, layers, x, dout0, n - k)
        invariant trace == t0 + BackwardCalls(order[..k])
        invariant GradsFrom(affineGrads, prims, params, layers, x, dout0, n - k)
      {
        var s := order[k];
        ghost var q := n - 1 - k;
        assert s == layers[q];
        BackwardCallsSnoc(t0, order, k);
        ghost var before, dout := affineGrads, dx;
        dx := StageBackward(s, dx);
        BackwardStep(prims, params, layers, x, dout0, q, dout, dx, before, affineGrads);
        k := k + 1;
      }
      assert order[..n] == order;
      GradsByLayer(affineGrads, prims, params, layers, x, dout0, |hiddenSizes| + 1);
    }

    /**
     * `gradient`: a forward pass through `loss`, the loss unit's backward seeded with 1, every stage's
     * backward in reverse insertion order, then `W{i}`'s gradient as the stage's `dW + decay * W{i}` and
     * `b{i}`'s as the stage's `db`.
     */
    method Gradient(x: Tensor, t: Tensor) returns (r: Result<map<string, Tensor>>)
      requires Valid()
      modifies this`inputCache, this`lossCache, this`affineGrads, this`trace
      ensures Cached(x) && lossCache == Some((Prediction(x), t))
      ensures trace == old(trace) + ForwardCalls(layers) + [LossForward] + [LossBackward(1.0)] + BackwardCalls(Reversed(layers))
      ensures forall i :: 1 <= i <= |hiddenSizes| + 1 ==>
                i in affineGrads && affineGrads[i] == AffineGradAt(prims, params, layers, x, Seed(x, t), AffinePosition(i))
      ensures r.Ok? <==> forall i :: 1 <= i <= |hiddenSizes| + 1 ==> affineGrads[i].dW.shape == params[WKey(i)].shape
      ensures r.Err? ==> r.error == ShapeMismatch
      ensures r.Ok? ==> r.value.Keys == params.Keys
      ensures r.Ok? ==> forall i :: 1 <= i <= |hiddenSizes| + 1 ==>
                && r.value[WKey(i)] == AddScaled(affineGrads[i].dW, weightDecayLambda, params[WKey(i)]).value
                && r.value[BKey(i)] == affineGrads[i].db
    {
      var _ := Loss(x, t);
      ghost var cached, lossCached := inputCache, lossCache;
      var dout := LossUnitBackward(1.0);
      assert dout == Seed(x, t);
      var _ := BackwardPass(x, dout);
      assert inputCache == cached && lossCache == lossCached;
      r := CollectGrads(params, affineGrads, weightDecayLambda, |hiddenSizes| + 1);
    }
  }

  /**
   * `MultiLayerNet(...)`: `__init_weight` on the augmented size list (its first failing layer raises),
   * then the pipeline (an unknown activation raises when there are hidden layers), then the wiring.
   */
  method Create(c: Config, prims: Layers, sqrt: real -> real, randn: (nat, nat) -> real) returns (r: Result<Network>)
    ensures r.Ok? <==> (forall i :: 1 <= i < |c.Sizes()| ==> ScaleAt(c.Sizes(), c.weightInitStd, sqrt, i).Ok?)
                       && (|c.hiddenSizes| == 0 || LookupActivation(c.activation).Some?)
    ensures r.Err? && (forall i :: 1 <= i < |c.Sizes()| ==> ScaleAt(c.Sizes(), c.weightInitStd, sqrt, i).Ok?) ==>
              r.error == UnknownActivation(c.activation)
    ensures r.Err? && !(forall i :: 1 <= i < |c.Sizes()| ==> ScaleAt(c.Sizes(), c.weightInitStd, sqrt, i).Ok?) ==>
              exists i :: 1 <= i < |c.Sizes()| && ScaleAt(c.Sizes(), c.weightInitStd, sqrt, i) == Err(r.error)
                          && forall j :: 1 <= j < i ==> ScaleAt(c.Sizes(), c.weightInitStd, sqrt, j).Ok?
    ensures r.Ok? ==> var net := r.value;
              && fresh(net) && net.Valid() && net.Shaped()
              && net.inputSize == c.inputSize && net.hiddenSizes == c.hiddenSizes && net.outputSize == c.outputSize
              && net.weightDecayLambda == c.weightDecayLambda && net.prims == prims
              && InitialParams(net.params, c.Sizes(), c.weightInitStd, sqrt, randn)
              && net.layers == Pipeline(|c.hiddenSizes|, LookupActivation(c.activation))
              && net.trace == [] && net.inputCache == map[] && net.affineGrads == map[] && net.lossCache == None
  {
    var sizes := c.Sizes();
    var ps := InitWeight(sizes, c.weightInitStd, sqrt, randn);
    if ps.Err? {
      ghost var i :| 1 <= i < |sizes| && ScaleAt(sizes, c.weightInitStd, sqrt, i) == Err(ps.error);
      assert !ScaleAt(sizes, c.weightInitStd, sqrt, i).Ok?;
      return Err(ps.error);
    }
    assert forall i :: 1 <= i < |sizes| ==> ScaleAt(sizes, c.weightInitStd, sqrt, i).Ok? by {
      forall i | 1 <= i < |sizes| ensures ScaleAt(sizes, c.weightInitStd, sqrt, i).Ok? {
        assert LayerStored(ps.value, sizes, c.weightInitStd, sqrt, randn, i);
      }
    }
    var ls := BuildLayers(|c.hiddenSizes|, c.activation);
    if ls.Err? {
      return Err(ls.error);
    }
    InitialLayout(ps.value, sizes, c.weightInitStd, sqrt, randn);
    var net := new Network(c, LookupActivation(c.activation), ls.value, ps.value, prims);
    r := Ok(net);
  }
}
