/** The ordered layer pipeline `Affine1, Activation_function1, ..., AffineH, Activation_functionH, Affine{H+1}`. */
module Stages {
  import opened Results
  import opened ParamNames

  /** The activation kinds of `activation_layer`. */
  datatype Activation = Sigmoid | Relu

  /**
   * One entry of `self.layers`: an affine layer tied to the parameters `W{index}`, `b{index}`,
   * or the activation layer that follows affine layer `index`.
   */
  datatype Stage = Affine(index: nat) | Activate(kind: Activation, index: nat)

  /** `activation_layer[name]` for the dictionary `{'sigmoid': Sigmoid, 'relu': Relu}`. */
  function LookupActivation(name: string): (k: Option<Activation>)
    ensures k.Some? <==> name == "sigmoid" || name == "relu"
    ensures k == Some(Sigmoid) <==> name == "sigmoid"
  {
    if name == "sigmoid" then Some(Sigmoid) else if name == "relu" then Some(Relu) else None
  }

  /** The key of a stage in the ordered dictionary `self.layers`. */
  function StageName(s: Stage): string
  {
    match s
    case Affine(i) => "Affine" + DecimalString(i)
    case Activate(_, i) => "Activation_function" + DecimalString(i)
  }

  /** The names `Affine1`, `Activation_function1` and `Affine12` follow the decimal index. */
  lemma StageNameExamples()
    ensures StageName(Affine(1)) == "Affine1"
    ensures StageName(Activate(Relu, 1)) == "Activation_function1"
    ensures StageName(Affine(12)) == "Affine12"
  {
  }

  /** Stage `p` (0-based) of a pipeline: affine stages at even positions, activations at odd ones. */
  function StageAt(p: nat, kind: Option<Activation>): Stage
    requires p % 2 == 1 ==> kind.Some?
  {
    if p % 2 == 0 then Affine(p / 2 + 1) else Activate(kind.value, p / 2 + 1)
  }

  /** The pipeline for `h` hidden layers, the reference for what `__init__` builds. */
  function Pipeline(h: nat, kind: Option<Activation>): seq<Stage>
    requires h > 0 ==> kind.Some?
  {
    seq(2 * h + 1, p requires 0 <= p < 2 * h + 1 => StageAt(p, kind))
  }

  ghost predicate Distinct<T>(s: seq<T>)
  {
    forall p, q :: 0 <= p < q < |s| ==> s[p] != s[q]
  }

  /**
   * The layout promised for `h` hidden layers: `2h + 1` stages, `Affine{i}` immediately followed by an
   * activation for `i = 1..h`, and a final `Affine{h+1}` with no activation after it.
   */
  lemma PipelineLayout(h: nat, kind: Option<Activation>)
    requires h > 0 ==> kind.Some?
    ensures |Pipeline(h, kind)| == 2 * h + 1
    ensures forall i :: 1 <= i <= h ==> Pipeline(h, kind)[2 * i - 2] == Affine(i)
                                        && Pipeline(h, kind)[2 * i - 1] == Activate(kind.value, i)
    ensures Pipeline(h, kind)[2 * h] == Affine(h + 1)
    ensures forall p :: 0 <= p < 2 * h + 1 ==> (Pipeline(h, kind)[p].Affine? <==> p % 2 == 0)
    ensures forall p :: 0 <= p < 2 * h + 1 ==> 1 <= Pipeline(h, kind)[p].index <= h + 1
  {
    var ls := Pipeline(h, kind);
    forall i | 1 <= i <= h ensures ls[2 * i - 2] == Affine(i) && ls[2 * i - 1] == Activate(kind.value, i) {
      assert (2 * i - 2) % 2 == 0 && (2 * i - 2) / 2 == i - 1;
      assert (2 * i - 1) % 2 == 1 && (2 * i - 1) / 2 == i - 1;
    }
    assert (2 * h) % 2 == 0 && (2 * h) / 2 == h;
  }

  /** No two stages are the same layer: the stage names, and so the dictionary keys, are pairwise different. */
  lemma {:induction false} PipelineDistinct(h: nat, kind: Option<Activation>)
    requires h > 0 ==> kind.Some?
    ensures Distinct(Pipeline(h, kind))
    ensures forall p, q :: 0 <= p < q < 2 * h + 1 ==> StageName(Pipeline(h, kind)[p]) != StageName(Pipeline(h, kind)[q])
  {
    var ls := Pipeline(h, kind);
    forall p, q | 0 <= p < q < |ls| ensures StageName(ls[p]) != StageName(ls[q]) {
      StageNamesDiffer(ls[p], ls[q]);
    }
  }

  /** Stages of different kinds or different indices have different names in `self.layers`. */
  lemma StageNamesDiffer(s: Stage, t: Stage)
    requires s.Affine? == t.Affine? ==> s.index != t.index
    ensures StageName(s) != StageName(t)
  {
    if s.Affine? != t.Affine? {
      assert StageName(s)[1] != StageName(t)[1];
    } else if StageName(s) == StageName(t) {
      var n := if s.Affine? then 6 else 19;
      assert StageName(s)[n..] == DecimalString(s.index);
      assert StageName(t)[n..] == DecimalString(t.index);
      DecimalStringInjective(s.index, t.index);
    }
  }

  /**
   * The pipeline loop of `__init__`: for each hidden layer an affine stage and then an activation looked up
   * by name (a miss raises), then the output affine stage. With no hidden layer the name is never looked up.
   */
  method BuildLayers(h: nat, name: string) returns (r: Result<seq<Stage>>)
    ensures r.Ok? <==> h == 0 || LookupActivation(name).Some?
    ensures r.Err? ==> r.error == UnknownActivation(name)
    ensures r.Ok? ==> r.value == Pipeline(h, LookupActivation(name))
  {
    var kind := LookupActivation(name);
    var layers: seq<Stage> := [];
    var idx := 1;
    while idx <= h
      invariant 1 <= idx <= h + 1
      invariant idx > 1 ==> kind.Some?
      invariant |layers| == 2 * (idx - 1)
      invariant forall p :: 0 <= p < |layers| ==> layers[p] == StageAt(p, kind)
    {
      layers := layers + [Affine(idx)];
      var found := LookupActivation(name);
      if found.None? {
        return Err(UnknownActivation(name));
      }
      layers := layers + [Activate(found.value, idx)];
      idx := idx + 1;
    }
    layers := layers + [Affine(h + 1)];
    r := Ok(layers);
  }

  /** `list.reverse()`'s result: the same elements, last first. */
  function Reversed<T>(s: seq<T>): (r: seq<T>)
    ensures |r| == |s|
  {
    seq(|s|, k requires 0 <= k < |s| => s[|s| - 1 - k])
  }

  /** Reversing a list of distinct layers visits each of them exactly once, at the mirrored position. */
  lemma ReversedVisitsOnce<T>(s: seq<T>, p: nat)
    requires Distinct(s) && p < |s|
    ensures forall k :: 0 <= k < |s| ==> (Reversed(s)[k] == s[p] <==> k == |s| - 1 - p)
  {
  }

  /** `list.reverse()`: swaps elements pairwise from both ends towards the middle. */
  method ReverseList<T>(a: array<T>)
    modifies a
    ensures a[..] == Reversed(old(a[..]))
  {
    var lo, hi := 0, a.Length;
    while lo + 1 < hi
      invariant 0 <= lo <= hi <= a.Length && lo + hi == a.Length
      invariant forall k :: 0 <= k < lo ==> a[k] == old(a[a.Length - 1 - k]) && a[a.Length - 1 - k] == old(a[k])
      invariant forall k :: lo <= k < hi ==> a[k] == old(a[k])
    {
      a[lo], a[hi - 1] := a[hi - 1], a[lo];
      lo, hi := lo + 1, hi - 1;
    }
  }

  /** `layers = list(self.layers.values()); layers.reverse()`: a fresh list, reversed in place. */
  method ReversedCopy<T>(s: seq<T>) returns (a: array<T>)
    ensures fresh(a) && a[..] == Reversed(s)
  {
    a := new T[|s|](p requires 0 <= p < |s| => s[p]);
    assert a[..] == s;
    ReverseList(a);
  }
}
