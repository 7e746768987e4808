/** `__init_weight`: the parameter store and the rule that picks the initial weight scale. */
module WeightInit {
  import opened Results
  import opened Tensors
  import opened ParamNames

  /** `weight_init_std`: a string naming a rule, or a number used as the scale itself. */
  datatype InitStd = Name(s: string) | Number(v: real)

  /** What `str(weight_init_std).lower()` selects. */
  datatype ScaleRule = He | Xavier | Literal(v: real) | NotNumeric

  /** ASCII lower-casing of one character. */
  function LowerChar(c: char): char
  {
    if 'A' <= c <= 'Z' then (c as int - 'A' as int + 'a' as int) as char else c
  }

  /** `s.lower()` restricted to ASCII letters. */
  function Lower(s: string): (r: string)
    ensures |r| == |s|
    ensures forall k :: 0 <= k < |s| ==> r[k] == LowerChar(s[k])
  {
    seq(|s|, k requires 0 <= k < |s| => LowerChar(s[k]))
  }

  /**
   * The rule of `__init_weight`: "relu"/"he" select He, "sigmoid"/"xavier" select Xavier, in any case;
   * a number is used unchanged; any other string is kept as the "scale" and cannot multiply an array.
   * (The `str` of a number never reads as one of the four names.)
   */
  function ChooseRule(std: InitStd): (r: ScaleRule)
    ensures r.Literal? <==> std.Number?
    ensures std.Number? ==> r == Literal(std.v)
  {
    match std
    case Number(v) => Literal(v)
    case Name(s) =>
      var l := Lower(s);
      if l == "relu" || l == "he" then He
      else if l == "sigmoid" || l == "xavier" then Xavier
      else NotNumeric
  }

  /** `s` is the lower-case word `w` with any of its letters in upper case. */
  ghost predicate SpellsIgnoringCase(s: string, w: string)
  {
    |s| == |w| && forall k :: 0 <= k < |s| ==> LowerChar(s[k]) == w[k]
  }

  /** `s.lower() == w` exactly when `s` spells `w` in some mix of cases. */
  lemma LowerIs(s: string, w: string)
    ensures Lower(s) == w <==> SpellsIgnoringCase(s, w)
  {
    if SpellsIgnoringCase(s, w) {
      assert forall k :: 0 <= k < |s| ==> Lower(s)[k] == w[k];
    }
  }

  /**
   * He is chosen exactly for the names `relu` and `he`, Xavier exactly for `sigmoid` and `xavier`, each in any
   * mix of cases; every other name is not a number.
   */
  lemma ChooseRuleNames(s: string)
    ensures ChooseRule(Name(s)) == He <==> SpellsIgnoringCase(s, "relu") || SpellsIgnoringCase(s, "he")
    ensures ChooseRule(Name(s)) == Xavier <==> SpellsIgnoringCase(s, "sigmoid") || SpellsIgnoringCase(s, "xavier")
    ensures ChooseRule(Name(s)).Literal? == false
  {
    LowerIs(s, "relu");
    LowerIs(s, "he");
    LowerIs(s, "sigmoid");
    LowerIs(s, "xavier");
  }

  /** `'ReLU'` and `'XAVIER'` select their rules; `'relu6'` and `'0.01'` (a string) are not numbers. */
  lemma ChooseRuleExamples()
    ensures ChooseRule(Name("ReLU")) == He
    ensures ChooseRule(Name("XAVIER")) == Xavier
    ensures ChooseRule(Name("relu6")) == NotNumeric
    ensures ChooseRule(Name("0.01")) == NotNumeric
    ensures ChooseRule(Number(0.01)) == Literal(0.01)
  {
    ChooseRuleNames("ReLU");
    ChooseRuleNames("XAVIER");
    ChooseRuleNames("relu6");
    ChooseRuleNames("0.01");
    assert LowerChar("0.01"[0]) == '0';
  }

  /** The rule reads the name only through its lower-case form. */
  lemma ChooseRuleIgnoresCase(s: string, t: string)
    requires Lower(s) == Lower(t)
    ensures ChooseRule(Name(s)) == ChooseRule(Name(t))
  {
  }

  /** `sqrt` behaves as `np.sqrt` on non-negative reals. */
  ghost predicate IsSqrt(sqrt: real -> real)
  {
    forall x: real :: 0.0 <= x ==> 0.0 <= sqrt(x) && sqrt(x) * sqrt(x) == x
  }

  /**
   * The scale of layer `layer` with fan-in `fanIn`: He is `sqrt(2 / fanIn)`, Xavier `sqrt(1 / fanIn)`,
   * both failing on a fan-in of 0; a number is itself; an unknown name fails.
   */
  function ScaleValue(rule: ScaleRule, fanIn: nat, sqrt: real -> real, layer: nat): (r: Result<real>)
    ensures r.Err? <==> rule == NotNumeric || ((rule == He || rule == Xavier) && fanIn == 0)
    ensures r.Err? ==> r.error == if rule == NotNumeric then ScaleNotNumeric else ZeroFanIn(layer)
    ensures r.Ok? && rule == He && IsSqrt(sqrt) ==> r.value >= 0.0 && r.value * r.value == 2.0 / fanIn as real
    ensures r.Ok? && rule == Xavier && IsSqrt(sqrt) ==> r.value >= 0.0 && r.value * r.value == 1.0 / fanIn as real
    ensures rule.Literal? ==> r == Ok(rule.v)
  {
    match rule
    case He => if fanIn == 0 then Err(ZeroFanIn(layer)) else Ok(sqrt(2.0 / fanIn as real))
    case Xavier => if fanIn == 0 then Err(ZeroFanIn(layer)) else Ok(sqrt(1.0 / fanIn as real))
    case Literal(v) => Ok(v)
    case NotNumeric => Err(ScaleNotNumeric)
  }

  /** The scale the loop computes in its iteration `layer` (1-based) over the size list. */
  function ScaleAt(sizes: seq<nat>, std: InitStd, sqrt: real -> real, layer: nat): Result<real>
    requires 1 <= layer < |sizes|
  {
    ScaleValue(ChooseRule(std), sizes[layer - 1], sqrt, layer)
  }

  /** `scale * np.random.randn(fan_in, fan_out)`, the standard-normal draws given by `randn(layer, entry)`. */
  function InitialWeight(sizes: seq<nat>, layer: nat, scale: real, randn: (nat, nat) -> real): (w: Tensor)
    requires 1 <= layer < |sizes|
    ensures w.shape == [sizes[layer - 1], sizes[layer]]
  {
    Matrix(sizes[layer - 1], sizes[layer], (j: nat) => scale * randn(layer, j))
  }

  /** Layer `i`'s weight and bias are stored in `params` as `__init_weight` makes them. */
  ghost predicate LayerStored(params: map<string, Tensor>, sizes: seq<nat>, std: InitStd,
                              sqrt: real -> real, randn: (nat, nat) -> real, i: nat)
    requires 1 <= i < |sizes|
  {
    && ScaleAt(sizes, std, sqrt, i).Ok?
    && WKey(i) in params && BKey(i) in params
    && params[WKey(i)] == InitialWeight(sizes, i, ScaleAt(sizes, std, sqrt, i).value, randn)
    && params[BKey(i)] == Zeros(sizes[i])
  }

  /**
   * `params` is what `__init_weight` stores: keys `W1..Wn`, `b1..bn` for `n = |sizes| - 1`, each weight
   * of shape `(sizes[i-1], sizes[i])` scaled by its layer's scale, each bias all zeros of length `sizes[i]`.
   */
  ghost predicate InitialParams(params: map<string, Tensor>, sizes: seq<nat>, std: InitStd,
                                sqrt: real -> real, randn: (nat, nat) -> real)
    requires |sizes| >= 1
  {
    && params.Keys == ParamKeys(|sizes| - 1)
    && forall i :: 1 <= i < |sizes| ==> LayerStored(params, sizes, std, sqrt, randn, i)
  }

  /**
   * `__init_weight`: one weight and one bias per consecutive pair of sizes; the first layer whose
   * scale cannot be computed raises, and nothing is returned.
   */
  method InitWeight(sizes: seq<nat>, std: InitStd, sqrt: real -> real, randn: (nat, nat) -> real)
    returns (r: Result<map<string, Tensor>>)
    requires |sizes| >= 1
    ensures r.Ok? ==> InitialParams(r.value, sizes, std, sqrt, randn)
    ensures r.Err? ==> exists i :: 1 <= i < |sizes| && ScaleAt(sizes, std, sqrt, i) == Err(r.error)
                                   && forall j :: 1 <= j < i ==> ScaleAt(sizes, std, sqrt, j).Ok?
  {
    var params: map<string, Tensor> := map[];
    var idx := 1;
    while idx < |sizes|
      invariant 1 <= idx <= |sizes|
      invariant params.Keys == ParamKeys(idx - 1)
      invariant forall i :: 1 <= i < idx ==> LayerStored(params, sizes, std, sqrt, randn, i)
    {
      var scale := ScaleValue(ChooseRule(std), sizes[idx - 1], sqrt, idx);
      if scale.Err? {
        assert ScaleAt(sizes, std, sqrt, idx) == Err(scale.error);
        assert forall j :: 1 <= j < idx ==> ScaleAt(sizes, std, sqrt, j).Ok? by {
          forall j | 1 <= j < idx ensures ScaleAt(sizes, std, sqrt, j).Ok? {
            assert LayerStored(params, sizes, std, sqrt, randn, j);
          }
        }
        return Err(scale.error);
      }
      var w, b := InitialWeight(sizes, idx, scale.value, randn), Zeros(sizes[idx]);
      var updated := params[WKey(idx) := w][BKey(idx) := b];
      forall i | 1 <= i < idx ensures LayerStored(updated, sizes, std, sqrt, randn, i) {
        assert LayerStored(params, sizes, std, sqrt, randn, i);
        StoreKeepsOtherLayer(params, idx, w, b, i);
      }
      KeysDistinct(idx, idx);
      params := updated;
      idx := idx + 1;
    }
    r := Ok(params);
  }

  /** A successful initialisation stores `2 * (|sizes| - 1)` parameters with the shapes the size list gives. */
  lemma InitialLayout(params: map<string, Tensor>, sizes: seq<nat>, std: InitStd, sqrt: real -> real, randn: (nat, nat) -> real)
    requires |sizes| >= 1
    requires InitialParams(params, sizes, std, sqrt, randn)
    ensures |params| == 2 * (|sizes| - 1)
    ensures forall i :: 1 <= i < |sizes| ==>
              && WKey(i) in params && params[WKey(i)].shape == [sizes[i - 1], sizes[i]]
              && BKey(i) in params && params[BKey(i)].shape == [sizes[i]] && |params[BKey(i)].data| == sizes[i]
              && forall k :: 0 <= k < sizes[i] ==> params[BKey(i)].data[k] == 0.0
  {
    ParamKeysCount(|sizes| - 1);
    assert |params| == |params.Keys|;
    forall i | 1 <= i < |sizes|
      ensures && WKey(i) in params && params[WKey(i)].shape == [sizes[i - 1], sizes[i]]
              && BKey(i) in params && params[BKey(i)].shape == [sizes[i]] && |params[BKey(i)].data| == sizes[i]
              && forall k :: 0 <= k < sizes[i] ==> params[BKey(i)].data[k] == 0.0
    {
      assert LayerStored(params, sizes, std, sqrt, randn, i);
    }
  }
}
