/** Dense real tensors as nested sequences, the operations the RBM and the
    autoencoder apply to them, and the primitives that are transcendental or
    random, which are known here only by the ranges of their values. */
module Tensor {

  type Vector = seq<real>
  type Matrix = seq<seq<real>>

  /** `m` has `rows` rows of `cols` entries each. */
  predicate IsMatrix(m: Matrix, rows: nat, cols: nat) {
    |m| == rows && forall i :: 0 <= i < |m| ==> |m[i]| == cols
  }

  /** Every entry of `m` is 0 or 1, as a Bernoulli sample is. */
  predicate IsBinary(m: Matrix) {
    forall i, j :: 0 <= i < |m| && 0 <= j < |m[i]| ==> m[i][j] == 0.0 || m[i][j] == 1.0
  }

  /** Every entry of `m` lies strictly between 0 and 1, as a sigmoid value does. */
  predicate IsOpenUnit(m: Matrix) {
    forall i, j :: 0 <= i < |m| && 0 <= j < |m[i]| ==> 0.0 < m[i][j] < 1.0
  }

  /** The logistic sigmoid, known only by its range and its value at 0. */
  type Squash = f: real -> real | (forall x :: 0.0 < f(x) < 1.0) && f(0.0) == 0.5
    witness (x: real) => 0.5

  /** A square root, known only by sqrt(0) = 0 and non-negativity. */
  type Root = f: real -> real | f(0.0) == 0.0 && forall x :: 0.0 <= f(x)
    witness (x: real) => 0.0

  /** One tensor's worth of random draws, indexed by (row, column): a uniform
      draw in [0, 1) for a Bernoulli sample, a standard normal draw for a
      Gaussian one. Nothing is assumed about the values. */
  type Draws = (nat, nat) -> real

  function Sum(s: seq<real>): real {
    if s == [] then 0.0 else s[0] + Sum(s[1..])
  }

  function Dot(a: seq<real>, b: seq<real>): real
    requires |a| == |b|
  {
    if a == [] then 0.0 else a[0] * b[0] + Dot(a[1..], b[1..])
  }

  function Column(m: Matrix, j: nat): (c: Vector)
    requires forall i :: 0 <= i < |m| ==> j < |m[i]|
    ensures |c| == |m| && forall i :: 0 <= i < |m| ==> c[i] == m[i][j]
  {
    seq(|m|, i requires 0 <= i < |m| => m[i][j])
  }

  /** `m.t()` for an rows x cols matrix. */
  function Transpose(m: Matrix, cols: nat): (t: Matrix)
    requires IsMatrix(m, |m|, cols)
    ensures IsMatrix(t, cols, |m|)
    ensures forall j, i :: 0 <= j < cols && 0 <= i < |m| ==> t[j][i] == m[i][j]
  {
    seq(cols, j requires 0 <= j < cols => Column(m, j))
  }

  /** `a.mm(b)` for an n x k matrix `a` and a k x cols matrix `b`: entry
      (i, j) is row i of `a` dotted with column j of `b`. */
  function MatMul(a: Matrix, b: Matrix, cols: nat): (r: Matrix)
    requires IsMatrix(a, |a|, |b|) && IsMatrix(b, |b|, cols)
    ensures IsMatrix(r, |a|, cols)
    ensures forall i, j :: 0 <= i < |a| && 0 <= j < cols ==> r[i][j] == Dot(a[i], Column(b, j))
  {
    seq(|a|, i requires 0 <= i < |a| =>
      seq(cols, j requires 0 <= j < cols => Dot(a[i], Column(b, j))))
  }

  /** `m + b`: the vector `b` broadcast onto every row of `m`. */
  function AddRow(m: Matrix, b: Vector): (r: Matrix)
    requires IsMatrix(m, |m|, |b|)
    ensures IsMatrix(r, |m|, |b|)
    ensures forall i, j :: 0 <= i < |m| && 0 <= j < |b| ==> r[i][j] - b[j] == m[i][j]
  {
    seq(|m|, i requires 0 <= i < |m| =>
      seq(|b|, j requires 0 <= j < |b| => m[i][j] + b[j]))
  }

  /** `a - b` for two matrices of one shape. */
  function Sub(a: Matrix, b: Matrix, cols: nat): (r: Matrix)
    requires IsMatrix(a, |a|, cols) && IsMatrix(b, |a|, cols)
    ensures IsMatrix(r, |a|, cols)
    ensures forall i, j :: 0 <= i < |a| && 0 <= j < cols ==> r[i][j] + b[i][j] == a[i][j]
  {
    seq(|a|, i requires 0 <= i < |a| =>
      seq(cols, j requires 0 <= j < cols => a[i][j] - b[i][j]))
  }

  /** `f` applied to every entry. */
  function Map(f: real -> real, m: Matrix): (r: Matrix)
    ensures |r| == |m| && forall i :: 0 <= i < |m| ==> |r[i]| == |m[i]|
  {
    seq(|m|, i requires 0 <= i < |m| =>
      seq(|m[i]|, j requires 0 <= j < |m[i]| => f(m[i][j])))
  }

  /** `torch.sigmoid(m)`: every entry lands in (0, 1). */
  function Sigmoid(sigmoid: Squash, m: Matrix): (r: Matrix)
    ensures |r| == |m| && forall i :: 0 <= i < |m| ==> |r[i]| == |m[i]|
    ensures IsOpenUnit(r)
  {
    Map(sigmoid, m)
  }

  /** `torch.bernoulli(p)`: entry (i, j) is 1 exactly when its uniform draw
      falls below p[i][j]. */
  function Bernoulli(p: Matrix, u: Draws): (s: Matrix)
    ensures |s| == |p| && forall i :: 0 <= i < |p| ==> |s[i]| == |p[i]|
    ensures IsBinary(s)
    ensures forall i, j :: 0 <= i < |p| && 0 <= j < |p[i]| ==> (s[i][j] == 1.0 <==> u(i, j) < p[i][j])
  {
    seq(|p|, i requires 0 <= i < |p| =>
      seq(|p[i]|, j requires 0 <= j < |p[i]| => if u(i, j) < p[i][j] then 1.0 else 0.0))
  }

  /** `torch.normal(mean, 1)`: each entry is its mean plus a standard normal draw. */
  function Normal(mean: Matrix, z: Draws): (s: Matrix)
    ensures |s| == |mean| && forall i :: 0 <= i < |mean| ==> |s[i]| == |mean[i]|
    ensures forall i, j :: 0 <= i < |mean| && 0 <= j < |mean[i]| ==> s[i][j] - mean[i][j] == z(i, j)
  {
    seq(|mean|, i requires 0 <= i < |mean| =>
      seq(|mean[i]|, j requires 0 <= j < |mean[i]| => mean[i][j] + z(i, j)))
  }

  /** `torch.mean(m, axis=0)` for a non-empty rows x cols matrix. */
  function ColMean(m: Matrix, cols: nat): (r: Vector)
    requires |m| >= 1 && IsMatrix(m, |m|, cols)
    ensures |r| == cols
    ensures forall j :: 0 <= j < cols ==> r[j] * |m| as real == Sum(Column(m, j))
  {
    seq(cols, j requires 0 <= j < cols => Sum(Column(m, j)) / |m| as real)
  }

  /** `s` in reverse order, as Python's `reversed`. */
  function Reversed<T>(s: seq<T>): (r: seq<T>)
    ensures |r| == |s| && forall i :: 0 <= i < |s| ==> r[i] == s[|s| - 1 - i]
  {
    seq(|s|, i requires 0 <= i < |s| => s[|s| - 1 - i])
  }

  /** The contents of a two-dimensional array, row by row. */
  function Mat(a: array2<real>): (m: Matrix)
    reads a
    ensures IsMatrix(m, a.Length0, a.Length1)
    ensures forall i, j :: 0 <= i < a.Length0 && 0 <= j < a.Length1 ==> m[i][j] == a[i, j]
  {
    seq(a.Length0, i requires 0 <= i < a.Length0 reads a =>
      seq(a.Length1, j requires 0 <= j < a.Length1 reads a => a[i, j]))
  }

  lemma {:induction false} SumZeros(s: seq<real>)
    requires forall k :: 0 <= k < |s| ==> s[k] == 0.0
    ensures Sum(s) == 0.0
  {
    if s != [] {
      SumZeros(s[1..]);
    }
  }

  lemma {:induction false} SumNegate(s: seq<real>, t: seq<real>)
    requires |s| == |t| && forall k :: 0 <= k < |s| ==> t[k] == -s[k]
    ensures Sum(t) == -Sum(s)
  {
    if s != [] {
      SumNegate(s[1..], t[1..]);
    }
  }

  lemma {:induction false} SumConstant(s: seq<real>, c: real)
    requires forall k :: 0 <= k < |s| ==> s[k] == c
    ensures Sum(s) == |s| as real * c
  {
    if s != [] {
      SumConstant(s[1..], c);
    }
  }
}
