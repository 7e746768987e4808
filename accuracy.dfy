/** `accuracy`'s arithmetic on the predictions: per-row argmax, label matching and the match ratio. */
module Classification {
  import opened Results
  import opened Tensors

  /** `np.argmax` of a non-empty row: an index of a largest entry, the first one if several tie. */
  function ArgMax(row: seq<real>): (k: nat)
    requires |row| > 0
    ensures k < |row|
    ensures forall j :: 0 <= j < |row| ==> row[j] <= row[k]
    ensures forall j :: 0 <= j < k ==> row[j] < row[k]
  {
    if |row| == 1 then 0
    else
      var k := ArgMax(row[..|row| - 1]);
      if row[|row| - 1] > row[k] then |row| - 1 else k
  }

  lemma MulSucc(a: nat, k: nat)
    ensures (a + 1) * k == a * k + k
  {
  }

  /** Row `i` of an `n`-row matrix of width `w` ends within its `n * w` entries. */
  lemma {:induction false} RowSpan(i: nat, n: nat, w: nat)
    requires i < n
    ensures i * w + w <= n * w
    decreases n
  {
    MulSucc(n - 1, w);
    if i + 1 < n {
      RowSpan(i, n - 1, w);
    }
  }

  /** `a / d` for `a <= n` matches and `d > 0` examples lies in `[0, n / d]`. */
  lemma RatioBounds(a: nat, n: nat, d: nat)
    requires a <= n && d > 0
    ensures 0.0 <= a as real / d as real
    ensures (a as real / d as real) * d as real <= n as real
    ensures n <= d ==> a as real / d as real <= 1.0
  {
    var q := a as real / d as real;
    assert q * d as real == a as real;
  }

  /** Row `i` of a rank-2 array, as a slice of its row-major entries. */
  function Row(t: Tensor, i: nat): (row: seq<real>)
    requires |t.shape| == 2 && i < t.shape[0]
    ensures |row| == t.shape[1]
  {
    assert t.shape == [t.shape[0], t.shape[1]];
    ProductPair(t.shape[0], t.shape[1]);
    RowSpan(i, t.shape[0], t.shape[1]);
    t.data[i * t.shape[1] .. i * t.shape[1] + t.shape[1]]
  }

  /** `np.argmax(t, axis=1)` for a rank-2 array: fails when the rows are empty. */
  function RowArgMax(t: Tensor): (r: Result<seq<nat>>)
    requires |t.shape| == 2
    ensures r.Ok? <==> t.shape[1] > 0
    ensures r.Err? ==> r.error == EmptyArgMax
    ensures r.Ok? ==> |r.value| == t.shape[0]
                      && forall i :: 0 <= i < t.shape[0] ==> r.value[i] == ArgMax(Row(t, i))
  {
    if t.shape[1] == 0 then Err(EmptyArgMax)
    else Ok(seq(t.shape[0], i requires 0 <= i < t.shape[0] => ArgMax(Row(t, i))))
  }

  /** The target as class labels: a rank-1 target as it is, a rank-2 (one-hot) target by its row argmax. */
  function TargetLabels(t: Tensor): (r: Result<seq<real>>)
    ensures |t.shape| == 1 ==> r == Ok(t.data)
    ensures |t.shape| == 2 ==> match RowArgMax(t)
                                case Ok(l) => r.Ok? && |r.value| == |l| && forall i :: 0 <= i < |l| ==> r.value[i] == l[i] as real
                                case Err(e) => r == Err(e)
    ensures |t.shape| != 1 && |t.shape| != 2 ==> r == Err(AxisError)
  {
    if |t.shape| == 1 then Ok(t.data)
    else if |t.shape| == 2 then
      match RowArgMax(t)
      case Err(e) => Err(e)
      case Ok(l) => Ok(seq(|l|, i requires 0 <= i < |l| => l[i] as real))
    else Err(AxisError)
  }

  /** `np.sum(y == t)`: how many predicted labels equal their target label. */
  function Matches(p: seq<nat>, l: seq<real>): (m: nat)
    requires |p| == |l|
    ensures m <= |p|
    ensures m == |p| <==> forall i :: 0 <= i < |p| ==> p[i] as real == l[i]
  {
    if |p| == 0 then 0
    else Matches(p[..|p| - 1], l[..|l| - 1]) + (if p[|p| - 1] as real == l[|l| - 1] then 1 else 0)
  }

  /**
   * `np.sum(y == t) / float(x.shape[0])`: a rank-0 `x` has no `shape[0]`; over an empty batch numpy gives
   * `nan` when nothing matched and `inf` otherwise.
   */
  function MatchRatio(p: seq<nat>, l: seq<real>, x: Tensor): (r: Result<real>)
    requires |p| == |l|
    ensures r.Ok? <==> |x.shape| > 0 && x.shape[0] > 0
    ensures r.Ok? ==> 0.0 <= r.value && r.value * (x.shape[0] as real) <= |p| as real
    ensures r.Ok? && |p| <= x.shape[0] ==> r.value <= 1.0
    ensures |x.shape| == 0 ==> r == Err(IndexOutOfRange)
    ensures |x.shape| > 0 && x.shape[0] == 0 ==> (r == Err(NotANumber) <==> Matches(p, l) == 0)
    ensures |x.shape| > 0 && x.shape[0] == 0 ==> (r == Err(Infinity) <==> Matches(p, l) > 0)
  {
    if |x.shape| == 0 then Err(IndexOutOfRange)
    else if x.shape[0] == 0 then (if Matches(p, l) == 0 then Err(NotANumber) else Err(Infinity))
    else
      RatioBounds(Matches(p, l), |p|, x.shape[0]);
      Ok(Matches(p, l) as real / x.shape[0] as real)
  }

  /**
   * `accuracy` once `y = predict(x)` is known: matches between the row argmax of `y` and the target labels,
   * divided by the batch size `x.shape[0]`.
   */
  function AccuracyOf(y: Tensor, t: Tensor, x: Tensor): (r: Result<real>)
    ensures r.Ok? <==> && |y.shape| == 2 && y.shape[1] > 0
                       && TargetLabels(t).Ok? && |TargetLabels(t).value| == y.shape[0]
                       && |x.shape| > 0 && x.shape[0] > 0
    ensures r.Ok? ==> 0.0 <= r.value
    ensures r.Ok? && y.shape[0] <= x.shape[0] ==> r.value <= 1.0
    ensures |y.shape| != 2 ==> r == Err(AxisError)
    ensures |y.shape| == 2 && y.shape[1] == 0 ==> r == Err(EmptyArgMax)
  {
    if |y.shape| != 2 then Err(AxisError)
    else
      var p := RowArgMax(y);
      if p.Err? then Err(p.error)
      else
        var l := TargetLabels(t);
        if l.Err? then Err(l.error)
        else if |p.value| != |l.value| then Err(ShapeMismatch)
        else MatchRatio(p.value, l.value, x)
  }

  /** When every row's argmax is its target label and the batch has one row per prediction, accuracy is 1. */
  lemma AllCorrect(y: Tensor, t: Tensor, x: Tensor)
    requires |y.shape| == 2 && y.shape[1] > 0 && |x.shape| > 0 && x.shape[0] == y.shape[0] > 0
    requires TargetLabels(t).Ok? && |TargetLabels(t).value| == y.shape[0]
    requires forall i :: 0 <= i < y.shape[0] ==> ArgMax(Row(y, i)) as real == TargetLabels(t).value[i]
    ensures AccuracyOf(y, t, x) == Ok(1.0)
  {
    var p, l := RowArgMax(y).value, TargetLabels(t).value;
    assert forall i :: 0 <= i < |p| ==> p[i] as real == l[i];
    FullRatio(p, l, x);
  }

  /** All labels matching over a batch of exactly `|p|` examples is a ratio of 1. */
  lemma FullRatio(p: seq<nat>, l: seq<real>, x: Tensor)
    requires |p| == |l| && |x.shape| > 0 && x.shape[0] == |p| > 0
    requires forall i :: 0 <= i < |p| ==> p[i] as real == l[i]
    ensures MatchRatio(p, l, x) == Ok(1.0)
  {
    assert Matches(p, l) == |p|;
    var n := |p| as real;
    assert n / n == 1.0;
  }

  /** The one-hot encoding of class `cls` among `k` classes. */
  function OneHotRow(cls: nat, k: nat): seq<real>
  {
    seq(k, c requires 0 <= c < k => if c == cls then 1.0 else 0.0)
  }

  /** Rows laid end to end. */
  function Flatten(rows: seq<seq<real>>): seq<real>
  {
    if |rows| == 0 then [] else rows[0] + Flatten(rows[1..])
  }

  lemma SliceAfterPrefix(a: seq<real>, b: seq<real>, lo: nat, hi: nat)
    requires |a| <= lo <= hi <= |a| + |b|
    ensures (a + b)[lo .. hi] == b[lo - |a| .. hi - |a|]
  {
    assert forall j :: 0 <= j < hi - lo ==> (a + b)[lo .. hi][j] == b[lo - |a| .. hi - |a|][j];
  }

  lemma {:induction false} FlattenLength(rows: seq<seq<real>>, k: nat)
    requires forall j :: 0 <= j < |rows| ==> |rows[j]| == k
    ensures |Flatten(rows)| == |rows| * k
  {
    if |rows| > 0 {
      FlattenLength(rows[1..], k);
      MulSucc(|rows| - 1, k);
    }
  }

  /** Row `i` of a flattened matrix is the slice `[i * k, i * k + k)`. */
  lemma {:induction false} FlattenRow(rows: seq<seq<real>>, k: nat, i: nat)
    requires forall j :: 0 <= j < |rows| ==> |rows[j]| == k
    requires i < |rows|
    ensures i * k + k <= |Flatten(rows)| && Flatten(rows)[i * k .. i * k + k] == rows[i]
  {
    FlattenLength(rows, k);
    RowSpan(i, |rows|, k);
    var rest := rows[1..];
    assert Flatten(rows) == rows[0] + Flatten(rest);
    if i > 0 {
      FlattenRow(rest, k, i - 1);
      MulSucc(i - 1, k);
      SliceAfterPrefix(rows[0], Flatten(rest), i * k, i * k + k);
    }
  }

  /** A batch of labels one-hot encoded over `k` classes: shape `(|labels|, k)`. */
  function OneHot(labels: seq<nat>, k: nat): (t: Tensor)
    ensures t.shape == [|labels|, k]
  {
    var rows := seq(|labels|, i requires 0 <= i < |labels| => OneHotRow(labels[i], k));
    FlattenLength(rows, k);
    ProductPair(|labels|, k);
    NdArray([|labels|, k], Flatten(rows))
  }

  /** The same labels as a rank-1 array. */
  function LabelVector(labels: seq<nat>): (t: Tensor)
    ensures t.shape == [|labels|]
  {
    ProductSingle(|labels|);
    NdArray([|labels|], seq(|labels|, i requires 0 <= i < |labels| => labels[i] as real))
  }

  /** The argmax of a one-hot row is its class. */
  lemma ArgMaxOneHot(cls: nat, k: nat)
    requires cls < k
    ensures ArgMax(OneHotRow(cls, k)) == cls
  {
    var row := OneHotRow(cls, k);
    assert row[cls] == 1.0;
  }

  /** A one-hot target and the label vector it encodes give the same accuracy. */
  lemma OneHotSameAccuracy(y: Tensor, labels: seq<nat>, k: nat, x: Tensor)
    requires k > 0
    requires forall i :: 0 <= i < |labels| ==> labels[i] < k
    ensures AccuracyOf(y, OneHot(labels, k), x) == AccuracyOf(y, LabelVector(labels), x)
  {
    var oh := OneHot(labels, k);
    var rows := seq(|labels|, i requires 0 <= i < |labels| => OneHotRow(labels[i], k));
    forall i | 0 <= i < |labels| ensures ArgMax(Row(oh, i)) == labels[i] {
      FlattenRow(rows, k, i);
      assert Row(oh, i) == rows[i];
      ArgMaxOneHot(labels[i], k);
    }
    var lv := LabelVector(labels);
    var p := RowArgMax(oh).value;
    assert |p| == |labels|;
    assert TargetLabels(oh).value == lv.data;
    assert TargetLabels(lv) == Ok(lv.data);
  }
}
