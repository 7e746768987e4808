/** The parameter names `W1, b1, W2, b2, ...`, built with Python's decimal `str` of the layer index. */
module ParamNames {

  function Digit(d: nat): char
    requires d < 10
  {
    ('0' as int + d) as char
  }

  /** `str(n)` for a non-negative integer. */
  function DecimalString(n: nat): (s: string)
    ensures |s| >= 1
    ensures n >= 10 ==> |s| >= 2
  {
    if n < 10 then [Digit(n)] else DecimalString(n / 10) + [Digit(n % 10)]
  }

  /** Different numbers have different decimal strings. */
  lemma {:induction false} DecimalStringInjective(a: nat, b: nat)
    requires DecimalString(a) == DecimalString(b)
    ensures a == b
  {
    if a < 10 && b < 10 {
      assert DecimalString(a)[0] == DecimalString(b)[0];
    } else if a >= 10 && b >= 10 {
      var sa, sb := DecimalString(a), DecimalString(b);
      assert sa[..|sa| - 1] == DecimalString(a / 10);
      assert sb[..|sb| - 1] == DecimalString(b / 10);
      DecimalStringInjective(a / 10, b / 10);
      assert sa[|sa| - 1] == sb[|sb| - 1];
    }
  }

  /** The key `f'W{i}'` of the weight matrix of affine layer `i`. */
  function WKey(i: nat): string { "W" + DecimalString(i) }

  /** The key `f'b{i}'` of the bias vector of affine layer `i`. */
  function BKey(i: nat): string { "b" + DecimalString(i) }

  /** The keys of layers 1, 2 and 10 are `W1`, `b2` and `W10`. */
  lemma KeyExamples()
    ensures WKey(1) == "W1" && BKey(2) == "b2" && WKey(10) == "W10" && BKey(10) == "b10"
  {
  }

  /** Weight and bias keys never collide, and each names exactly one layer. */
  lemma {:induction false} KeysDistinct(i: nat, j: nat)
    ensures WKey(i) == WKey(j) <==> i == j
    ensures BKey(i) == BKey(j) <==> i == j
    ensures WKey(i) != BKey(j)
  {
    assert WKey(i)[0] != BKey(j)[0];
    if WKey(i) == WKey(j) {
      assert WKey(i)[1..] == DecimalString(i) && WKey(j)[1..] == DecimalString(j);
      DecimalStringInjective(i, j);
    }
    if BKey(i) == BKey(j) {
      assert BKey(i)[1..] == DecimalString(i) && BKey(j)[1..] == DecimalString(j);
      DecimalStringInjective(i, j);
    }
  }

  /** The keys of the parameters of layers `1..n`. */
  function ParamKeys(n: nat): set<string>
  {
    if n == 0 then {} else ParamKeys(n - 1) + {WKey(n), BKey(n)}
  }

  /** Storing layer `n`'s weight and bias in a map keyed by the first `n - 1` layers keys it by the first `n`. */
  lemma StoreLayerKeys<V>(m: map<string, V>, n: nat, w: V, b: V)
    requires n >= 1 && m.Keys == ParamKeys(n - 1)
    ensures m[WKey(n) := w][BKey(n) := b].Keys == ParamKeys(n)
  {
  }

  /** Storing layer `n`'s weight and bias leaves the entries of any other layer `i` as they were. */
  lemma StoreKeepsOtherLayer<V>(m: map<string, V>, n: nat, w: V, b: V, i: nat)
    requires i != n && WKey(i) in m && BKey(i) in m
    ensures var u := m[WKey(n) := w][BKey(n) := b];
            WKey(i) in u && BKey(i) in u && u[WKey(i)] == m[WKey(i)] && u[BKey(i)] == m[BKey(i)]
  {
    KeysDistinct(i, n);
    KeysDistinct(n, i);
  }

  /** `W{i}` is a parameter key of `n` layers exactly when `1 <= i <= n`, and so is `b{i}`. */
  lemma {:induction false} KeyMember(n: nat, i: nat)
    ensures WKey(i) in ParamKeys(n) <==> 1 <= i <= n
    ensures BKey(i) in ParamKeys(n) <==> 1 <= i <= n
  {
    if n > 0 {
      KeyMember(n - 1, i);
      KeysDistinct(i, n);
      KeysDistinct(n, i);
    }
  }

  /** Every parameter key of `n` layers is `W{i}` or `b{i}` for some layer `1 <= i <= n`. */
  lemma {:induction false} KeyNames(n: nat, k: string)
    requires k in ParamKeys(n)
    ensures exists i: nat :: 1 <= i <= n && (k == WKey(i) || k == BKey(i))
  {
    if k !in {WKey(n), BKey(n)} {
      KeyNames(n - 1, k);
    }
  }

  /** The parameter keys of `n` layers are exactly `W1..Wn` and `b1..bn`. */
  lemma ParamKeysMembers(n: nat)
    ensures forall i: nat :: WKey(i) in ParamKeys(n) <==> 1 <= i <= n
    ensures forall i: nat :: BKey(i) in ParamKeys(n) <==> 1 <= i <= n
    ensures forall k :: k in ParamKeys(n) ==> exists i: nat :: 1 <= i <= n && (k == WKey(i) || k == BKey(i))
  {
    forall i: nat ensures (WKey(i) in ParamKeys(n) <==> 1 <= i <= n) && (BKey(i) in ParamKeys(n) <==> 1 <= i <= n) {
      KeyMember(n, i);
    }
    forall k | k in ParamKeys(n) ensures exists i: nat :: 1 <= i <= n && (k == WKey(i) || k == BKey(i)) {
      KeyNames(n, k);
    }
  }

  /** `n` affine layers own exactly `2 * n` parameters. */
  lemma {:induction false} ParamKeysCount(n: nat)
    ensures |ParamKeys(n)| == 2 * n
  {
    if n > 0 {
      ParamKeysCount(n - 1);
      KeyMember(n - 1, n);
      KeysDistinct(n, n);
      assert WKey(n) !in ParamKeys(n - 1);
      assert BKey(n) !in ParamKeys(n - 1);
    }
  }
}
