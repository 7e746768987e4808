/** numpy arrays, as far as the network needs them: a shape and the entries in row-major order. */
module Tensors {
  import opened Results

  /** Number of entries of an array with the given shape (1 for a scalar). */
  function Product(shape: seq<nat>): nat
  {
    if |shape| == 0 then 1 else shape[0] * Product(shape[1..])
  }

  lemma ProductPair(rows: nat, cols: nat)
    ensures Product([rows, cols]) == rows * cols
  {
    assert [rows, cols][1..] == [cols];
    ProductSingle(cols);
  }

  lemma ProductSingle(n: nat)
    ensures Product([n]) == n
  {
    assert [n][1..] == [];
    assert Product([n]) == n * Product([]);
  }

  datatype NdArray = NdArray(shape: seq<nat>, data: seq<real>)

  /** A well-formed array: exactly as many entries as its shape says. */
  type Tensor = a: NdArray | |a.data| == Product(a.shape) witness NdArray([], [0.0])

  /** A matrix of `rows` x `cols` entries, entry `j` (row-major) being `f(j)`. */
  function Matrix(rows: nat, cols: nat, f: nat -> real): (m: Tensor)
    ensures m.shape == [rows, cols] && |m.data| == rows * cols
    ensures forall j :: 0 <= j < rows * cols ==> m.data[j] == f(j)
  {
    ProductPair(rows, cols);
    NdArray([rows, cols], seq(rows * cols, j requires 0 <= j => f(j)))
  }

  /** `np.zeros(n)`. */
  function Zeros(n: nat): (z: Tensor)
    ensures z.shape == [n] && |z.data| == n
    ensures forall k :: 0 <= k < n ==> z.data[k] == 0.0
  {
    ProductSingle(n);
    NdArray([n], seq(n, _ => 0.0))
  }

  /** `a ** 2` of one entry. */
  function Square(a: real): real { a * a }

  lemma SquarePositive(a: real)
    requires a != 0.0
    ensures a * a > 0.0
  {
    if a < 0.0 {
      assert a * a == (-a) * (-a);
    }
  }

  /** A square is never negative, and it is positive for a nonzero entry. */
  lemma SquareSign(a: real)
    ensures Square(a) >= 0.0
    ensures a != 0.0 ==> Square(a) > 0.0
  {
    if a != 0.0 {
      calc {
        Square(a);
      ==
        a * a;
      > { SquarePositive(a); }
        0.0;
      }
    }
  }

  /** `np.sum(a ** 2)` over the entries of an array: zero exactly when every entry is zero. */
  function SumSquares(s: seq<real>): (r: real)
    ensures r >= 0.0
    ensures (forall k :: 0 <= k < |s| ==> s[k] == 0.0) ==> r == 0.0
    ensures (exists k :: 0 <= k < |s| && s[k] != 0.0) ==> r > 0.0
  {
    if |s| == 0 then 0.0
    else
      assert (exists k :: 0 <= k < |s| && s[k] != 0.0) ==> s[0] != 0.0 || exists j :: 0 <= j < |s[1..]| && s[1..][j] != 0.0 by {
        if exists k :: 0 <= k < |s| && s[k] != 0.0 {
          var k :| 0 <= k < |s| && s[k] != 0.0;
          if k > 0 {
            assert s[1..][k - 1] == s[k];
          }
        }
      }
      SquareSign(s[0]);
      Square(s[0]) + SumSquares(s[1..])
  }

  /**
   * `d + decay * w` (the gradient correction `dW + weight_decay_lambda * W`) for two arrays of one shape;
   * any other pair of shapes is refused.
   */
  function AddScaled(d: Tensor, decay: real, w: Tensor): (r: Result<Tensor>)
    ensures r.Ok? <==> d.shape == w.shape
    ensures r.Ok? ==> r.value.shape == w.shape && |r.value.data| == |w.data|
    ensures r.Ok? ==> forall k :: 0 <= k < |w.data| ==> r.value.data[k] == d.data[k] + decay * w.data[k]
    ensures r.Err? ==> r.error == ShapeMismatch
  {
    if d.shape != w.shape then Err(ShapeMismatch)
    else Ok(NdArray(w.shape, seq(|w.data|, k requires 0 <= k < |w.data| => d.data[k] + decay * w.data[k])))
  }

  /** Without weight decay the correction leaves the gradient as it is. */
  lemma AddScaledZero(d: Tensor, w: Tensor)
    requires d.shape == w.shape
    ensures AddScaled(d, 0.0, w) == Ok(d)
  {
    var r := AddScaled(d, 0.0, w).value;
    assert r.data == d.data;
  }
}
