/** The array helpers of the PCA experiments: `makeGrid`, which tiles a stack
    of equally sized images into one image, and `standardizing`, which
    centres and scales data column by column. */
module ArrayUtils {
  import opened Tensor
  import opened Results

  // ---------------------------------------------------------------------
  // Integer arithmetic

  /** Python's `a // b`, which rounds toward minus infinity: the quotient
      `q` leaves a remainder `a - b * q` of the divisor's sign, smaller than
      the divisor in magnitude. */
  function FloorDiv(a: int, b: int): (q: int)
    requires b != 0
    ensures b > 0 ==> b * q <= a < b * q + b
    ensures b < 0 ==> b * q + b < a <= b * q
  {
    if b > 0 then a / b else (-a) / (-b)
  }

  lemma MulAtLeast(t: int, m: int)
    requires t >= 1 && m > 0
    ensures t * m >= m
  {
    assert t * m == (t - 1) * m + m;
  }

  /** Dividing `x == q * m + r` by `m > 0` gives back `q` and `r` when `0 <= r < m`. */
  lemma DivMod(x: int, q: int, r: int, m: int)
    requires m > 0 && 0 <= r < m && x == q * m + r
    ensures x / m == q && x % m == r
  {
    var d, e := x / m, x % m;
    assert (d - q) * m == r - e;
    if d > q {
      MulAtLeast(d - q, m);
      assert false;
    } else if d < q {
      MulAtLeast(q - d, m);
      assert false;
    }
  }

  /** `a == b * (a // b)` holds exactly when `b` divides `a`. */
  lemma FloorDivExact(a: int, b: int)
    requires b != 0
    ensures a == b * FloorDiv(a, b) <==> a % b == 0
  {
    if b < 0 {
      var m := -b;
      var q, r := (-a) / m, (-a) % m;
      assert -a == q * m + r;
      assert b * q == a + r;
      // the remainders by b and by -b agree
      assert a == (-(a / b)) * m + a % b;
      DivMod(a, -(a / b), a % b, m);
      if a % m == 0 {
        assert -a == (-(a / m)) * m + 0;
        DivMod(-a, -(a / m), 0, m);
      }
      if r == 0 {
        assert a == (-q) * m + 0;
        DivMod(a, -q, 0, m);
      }
    }
  }

  lemma MulBound(x: nat, m: nat, y: nat, n: nat)
    requires x < m && y < n
    ensures x * n + y < m * n
  {
    var g := m - 1 - x;
    assert g * n >= 0;
    assert m * n == (x + 1 + g) * n == x * n + n + g * n;
  }

  lemma DivBound(k: nat, m: nat, n: nat)
    requires n > 0 && k < m * n
    ensures k / n < m
  {
  }

  // ---------------------------------------------------------------------
  // numpy arrays

  /** A numpy array: its shape, and its entries in row-major (C) order. */
  datatype NdArray = NdArray(shape: seq<nat>, data: seq<real>)

  function Product(dims: seq<nat>): nat {
    if dims == [] then 1 else dims[0] * Product(dims[1..])
  }

  /** There is one entry per position of the shape. */
  predicate IsArray(x: NdArray) {
    |x.data| == Product(x.shape)
  }

  lemma Product3(s: seq<nat>)
    requires |s| == 3
    ensures Product(s) == s[0] * s[1] * s[2]
  {
    assert s[1..][1..] == s[2..] && s[2..][1..] == [];
    assert Product(s[2..]) == s[2];
    assert Product(s[1..]) == s[1] * s[2];
  }

  lemma Product5(s: seq<nat>)
    requires |s| == 5
    ensures Product(s) == s[0] * s[1] * s[2] * s[3] * s[4]
  {
    assert s[1..][1..] == s[2..] && s[2..][1..] == s[3..] && s[3..][1..] == s[4..] && s[4..][1..] == [];
    assert Product(s[4..]) == s[4];
    assert Product(s[3..]) == s[3] * s[4];
    assert Product(s[2..]) == s[2] * (s[3] * s[4]);
    assert Product(s[1..]) == s[1] * (s[2] * (s[3] * s[4]));
  }

  /** How many entries of a requested shape are negative, that is, left for
      numpy to infer. */
  function Unknowns(dims: seq<int>): nat {
    if dims == [] then 0 else (if dims[0] < 0 then 1 else 0) + Unknowns(dims[1..])
  }

  /** The product of the entries of a requested shape that are not negative. */
  function KnownProduct(dims: seq<int>): nat {
    if dims == [] then 1 else (if dims[0] < 0 then 1 else dims[0] as nat) * KnownProduct(dims[1..])
  }

  /** `dims` with every negative entry replaced by `inferred`. */
  function Resolve(dims: seq<int>, inferred: nat): (s: seq<nat>)
    ensures |s| == |dims|
    ensures forall i :: 0 <= i < |dims| && dims[i] >= 0 ==> s[i] == dims[i]
    ensures forall i :: 0 <= i < |dims| && dims[i] < 0 ==> s[i] == inferred
  {
    if dims == [] then [] else [if dims[0] < 0 then inferred else dims[0] as nat] + Resolve(dims[1..], inferred)
  }

  /** The resolved shape has as many positions as the known entries allow,
      times the inferred entry when there is one. */
  lemma {:induction false} ResolvedProduct(dims: seq<int>, inferred: nat)
    requires Unknowns(dims) <= 1
    ensures Unknowns(dims) == 0 ==> Product(Resolve(dims, inferred)) == KnownProduct(dims)
    ensures Unknowns(dims) == 1 ==> Product(Resolve(dims, inferred)) == KnownProduct(dims) * inferred
  {
    if dims != [] {
      var rest := dims[1..];
      ResolvedProduct(rest, inferred);
      var r := Resolve(dims, inferred);
      assert r[1..] == Resolve(rest, inferred);
      var p, k := Product(Resolve(rest, inferred)), KnownProduct(rest);
      assert Product(r) == r[0] * p;
      if dims[0] < 0 {
        assert r[0] == inferred && KnownProduct(dims) == k && Unknowns(rest) == Unknowns(dims) - 1;
      } else {
        assert r[0] == dims[0] && KnownProduct(dims) == dims[0] * k && Unknowns(rest) == Unknowns(dims);
        if Unknowns(dims) == 1 {
          MulAssoc(dims[0], k, inferred);
        }
      }
    }
  }

  lemma MulAssoc(a: nat, b: nat, c: nat)
    ensures a * (b * c) == (a * b) * c
  {
  }

  lemma ExactQuotient(n: nat, k: nat, q: nat)
    requires k > 0 && n % k == 0 && q == n / k
    ensures k * q == n
  {
  }

  /** `x.reshape(dims)` as numpy does it: the entries keep their order and at
      most one entry of `dims` may be negative, which is then inferred so that
      the size is unchanged. ValueError when two are negative, when the other
      entries multiply to zero or to a number that does not divide the size,
      or, with no negative entry, when they do not multiply to the size. */
  function Reshape(x: NdArray, dims: seq<int>): (r: Result<NdArray>)
    requires IsArray(x)
    ensures r.Ok? <==>
      (Unknowns(dims) == 0 && KnownProduct(dims) == |x.data|) ||
      (Unknowns(dims) == 1 && KnownProduct(dims) > 0 && |x.data| % KnownProduct(dims) == 0)
    ensures r.Err? ==> r.error == ValueError
    ensures r.Ok? ==> IsArray(r.value) && r.value.data == x.data && |r.value.shape| == |dims|
    ensures r.Ok? ==> forall i :: 0 <= i < |dims| && dims[i] >= 0 ==> r.value.shape[i] == dims[i]
    ensures r.Ok? && Unknowns(dims) == 1 ==>
      forall i :: 0 <= i < |dims| && dims[i] < 0 ==> r.value.shape[i] == |x.data| / KnownProduct(dims)
  {
    var n := |x.data|;
    var known := KnownProduct(dims);
    if Unknowns(dims) > 1 then Err(ValueError)
    else if Unknowns(dims) == 1 then
      if known == 0 || n % known != 0 then Err(ValueError)
      else
        var inferred := n / known;
        ResolvedProduct(dims, inferred);
        ExactQuotient(n, known, inferred);
        Ok(NdArray(Resolve(dims, inferred), x.data))
    else if known != n then Err(ValueError)
    else
      ResolvedProduct(dims, 0);
      Ok(NdArray(Resolve(dims, 0), x.data))
  }

  // ---------------------------------------------------------------------
  // Five-dimensional positions

  /** A position in a five-dimensional array. */
  datatype Index5 = Index5(a: nat, b: nat, c: nat, d: nat, e: nat)

  predicate InRange(s: seq<nat>, i: Index5)
    requires |s| == 5
  {
    i.a < s[0] && i.b < s[1] && i.c < s[2] && i.d < s[3] && i.e < s[4]
  }

  /** Where position `i` sits in the row-major data of an array of shape `s`. */
  function Offset(s: seq<nat>, i: Index5): nat
    requires |s| == 5
  {
    (((i.a * s[1] + i.b) * s[2] + i.c) * s[3] + i.d) * s[4] + i.e
  }

  /** The position at row-major offset `k` of an array of shape `s`. */
  function Digits(s: seq<nat>, k: nat): Index5
    requires |s| == 5 && s[1] > 0 && s[2] > 0 && s[3] > 0 && s[4] > 0
  {
    var k1 := k / s[4];
    var k2 := k1 / s[3];
    var k3 := k2 / s[2];
    Index5(k3 / s[1], k3 % s[1], k2 % s[2], k1 % s[3], k % s[4])
  }

  lemma OffsetBound(s: seq<nat>, i: Index5)
    requires |s| == 5 && InRange(s, i)
    ensures Offset(s, i) < Product(s)
  {
    Product5(s);
    DigitsBound(i.a, i.b, i.c, i.d, i.e, s[0], s[1], s[2], s[3], s[4]);
  }

  lemma DigitsBound(a: nat, b: nat, c: nat, d: nat, e: nat, m0: nat, m1: nat, m2: nat, m3: nat, m4: nat)
    requires a < m0 && b < m1 && c < m2 && d < m3 && e < m4
    ensures (((a * m1 + b) * m2 + c) * m3 + d) * m4 + e < m0 * m1 * m2 * m3 * m4
  {
    var p1 := a * m1 + b;
    var p2 := p1 * m2 + c;
    var p3 := p2 * m3 + d;
    MulBound(a, m0, b, m1);
    MulBound(p1, m0 * m1, c, m2);
    MulBound(p2, m0 * m1 * m2, d, m3);
    MulBound(p3, m0 * m1 * m2 * m3, e, m4);
  }

  /** Reading a position's offset back gives the position. */
  lemma DigitsOfOffset(s: seq<nat>, i: Index5)
    requires |s| == 5 && InRange(s, i)
    ensures Digits(s, Offset(s, i)) == i
  {
    var p1 := i.a * s[1] + i.b;
    var p2 := p1 * s[2] + i.c;
    var p3 := p2 * s[3] + i.d;
    DivMod(Offset(s, i), p3, i.e, s[4]);
    DivMod(p3, p2, i.d, s[3]);
    DivMod(p2, p1, i.c, s[2]);
    DivMod(p1, i.a, i.b, s[1]);
  }

  /** Every offset below the size is the offset of a position in range. */
  lemma OffsetOfDigits(s: seq<nat>, k: nat)
    requires |s| == 5 && k < Product(s)
    ensures s[1] > 0 && s[2] > 0 && s[3] > 0 && s[4] > 0
    ensures InRange(s, Digits(s, k)) && Offset(s, Digits(s, k)) == k
  {
    Product5(s);
    PositiveFactors(k, s[0], s[1], s[2], s[3], s[4]);
    Recompose(k, s[1], s[2], s[3], s[4]);
    LeadingDigitBound(k, s[0], s[1], s[2], s[3], s[4]);
  }

  lemma PositiveFactors(k: nat, s0: nat, s1: nat, s2: nat, s3: nat, s4: nat)
    requires k < s0 * s1 * s2 * s3 * s4
    ensures s0 > 0 && s1 > 0 && s2 > 0 && s3 > 0 && s4 > 0
  {
  }

  /** Peeling off the digits of `k` and multiplying them back gives `k`. */
  lemma Recompose(k: nat, s1: nat, s2: nat, s3: nat, s4: nat)
    requires s1 > 0 && s2 > 0 && s3 > 0 && s4 > 0
    ensures var k1 := k / s4; var k2 := k1 / s3; var k3 := k2 / s2;
      (((k3 / s1 * s1 + k3 % s1) * s2 + k2 % s2) * s3 + k1 % s3) * s4 + k % s4 == k
  {
    var k1 := k / s4;
    var k2 := k1 / s3;
    var k3 := k2 / s2;
    assert k3 / s1 * s1 + k3 % s1 == k3;
    assert k3 * s2 + k2 % s2 == k2;
    assert k2 * s3 + k1 % s3 == k1;
    assert k1 * s4 + k % s4 == k;
  }

  lemma LeadingDigitBound(k: nat, s0: nat, s1: nat, s2: nat, s3: nat, s4: nat)
    requires s1 > 0 && s2 > 0 && s3 > 0 && s4 > 0 && k < s0 * s1 * s2 * s3 * s4
    ensures k / s4 / s3 / s2 / s1 < s0
  {
    DivBound(k, s0 * s1 * s2 * s3, s4);
    DivBound(k / s4, s0 * s1 * s2, s3);
    DivBound(k / s4 / s3, s0 * s1, s2);
    DivBound(k / s4 / s3 / s2, s0, s1);
  }

  /** The shape of `x.swapaxes(1, 2)` for a five-dimensional `x`. */
  function Swapped(s: seq<nat>): (t: seq<nat>)
    requires |s| == 5
    ensures |t| == 5
  {
    [s[0], s[2], s[1], s[3], s[4]]
  }

  function SwapIndex(i: Index5): Index5 {
    Index5(i.a, i.c, i.b, i.d, i.e)
  }

  lemma SwappedTwice(s: seq<nat>)
    requires |s| == 5
    ensures Swapped(Swapped(s)) == s && Product(Swapped(s)) == Product(s)
  {
    Product5(s);
    Product5(Swapped(s));
  }

  /** The offset in an array of shape `s` of the entry that lands at offset
      `k` of its copy with axes 1 and 2 swapped. */
  function SwapSource(s: seq<nat>, k: nat): (p: nat)
    requires |s| == 5 && k < Product(s)
    ensures p < Product(s) && Product(Swapped(s)) == Product(s)
  {
    SwappedTwice(s);
    OffsetOfDigits(Swapped(s), k);
    OffsetBound(s, SwapIndex(Digits(Swapped(s), k)));
    Offset(s, SwapIndex(Digits(Swapped(s), k)))
  }

  /** Position `i` of the swapped copy is filled from position
      `SwapIndex(i)` of the original. */
  lemma SwapSourceAt(s: seq<nat>, i: Index5)
    requires |s| == 5 && InRange(Swapped(s), i)
    ensures Offset(Swapped(s), i) < Product(s)
    ensures SwapSource(s, Offset(Swapped(s), i)) == Offset(s, SwapIndex(i))
  {
    SwappedTwice(s);
    OffsetBound(Swapped(s), i);
    DigitsOfOffset(Swapped(s), i);
  }

  /** Swapping back undoes a swap: the source maps of a shape and of its
      swapped shape are inverse to each other, so every entry lands at
      exactly one place. */
  lemma SwapSourceInverse(s: seq<nat>, k: nat)
    requires |s| == 5 && k < Product(s)
    ensures SwapSource(Swapped(s), SwapSource(s, k)) == k
  {
    var t := Swapped(s);
    SwappedTwice(s);
    OffsetOfDigits(t, k);
    var i := Digits(t, k);
    assert k == Offset(t, i);
    SwapSourceAt(s, i);
    assert SwapIndex(SwapIndex(i)) == i;
    SwapSourceAt(t, SwapIndex(i));
  }

  /** `x.swapaxes(1, 2)` for a five-dimensional `x`: the shape's middle
      two entries trade places and each entry comes from its source
      offset. */
  function SwapAxes12(x: NdArray): (y: NdArray)
    requires IsArray(x) && |x.shape| == 5
    ensures IsArray(y) && y.shape == Swapped(x.shape) && |y.data| == |x.data|
  {
    SwappedTwice(x.shape);
    NdArray(Swapped(x.shape), seq(|x.data|, k requires 0 <= k < |x.data| => x.data[SwapSource(x.shape, k)]))
  }

  /** Position by position, swapping axes 1 and 2 exchanges the two middle
      coordinates: entry (a, c, b, d, e) of the result is entry
      (a, b, c, d, e) of `x`. */
  lemma SwapAxes12At(x: NdArray, i: Index5)
    requires IsArray(x) && |x.shape| == 5 && InRange(Swapped(x.shape), i)
    ensures Offset(Swapped(x.shape), i) < |x.data| && Offset(x.shape, SwapIndex(i)) < |x.data|
    ensures SwapAxes12(x).data[Offset(Swapped(x.shape), i)] == x.data[Offset(x.shape, SwapIndex(i))]
  {
    SwappedTwice(x.shape);
    SwapSourceAt(x.shape, i);
  }

  /** Swapping axes 1 and 2 twice gives the array back. */
  lemma SwapAxes12Involution(x: NdArray)
    requires IsArray(x) && |x.shape| == 5
    ensures SwapAxes12(SwapAxes12(x)) == x
  {
    var y := SwapAxes12(x);
    var z := SwapAxes12(y);
    SwappedTwice(x.shape);
    forall k | 0 <= k < |x.data|
      ensures z.data[k] == x.data[k]
    {
      var p := SwapSource(y.shape, k);
      assert z.data[k] == y.data[p];
      assert y.data[p] == x.data[SwapSource(x.shape, p)];
      SwapSourceInverse(y.shape, k);
    }
  }

  // ---------------------------------------------------------------------
  // makeGrid

  /** The five-dimensional shape `(nrows, ncols, height, width, 1)` the
      stack is first reshaped to. */
  function TileShape(shape: seq<nat>, nrows: nat, ncols: nat): (s: seq<nat>)
    requires |shape| == 3
  {
    [nrows, ncols, shape[1], shape[2], 1]
  }

  /** `makeGrid(x, nrows)`: lays the `nindex` images of shape
      `height x width` out as `nrows` rows of `nindex // nrows` images each,
      in one image with a trailing channel axis. */
  function MakeGrid(x: NdArray, nrows: int): (r: Result<NdArray>)
    requires IsArray(x)
    ensures r.Ok? ==> IsArray(r.value) && |r.value.data| == |x.data|
  {
    // `nindex, height, width = array.shape` unpacks exactly three values
    if |x.shape| != 3 then Err(ValueError)
    else if nrows == 0 then Err(ZeroDivisionError)
    else
      var nindex, height, width := x.shape[0], x.shape[1], x.shape[2];
      var ncols := FloorDiv(nindex, nrows);
      if nindex != nrows * ncols then Err(AssertionError)
      else
        match Reshape(x, [nrows, ncols, height, width, -1])
        case Err(e) => Err(e)
        case Ok(tiles) =>
          SwapAxes12Shape(tiles);
          Reshape(SwapAxes12(tiles), [height * nrows, width * ncols, -1])
  }

  lemma SwapAxes12Shape(x: NdArray)
    requires IsArray(x) && |x.shape| == 5
    ensures |SwapAxes12(x).data| == |x.data|
  {
  }

  lemma Dims5(a: int, b: int, c: int, d: int)
    ensures Unknowns([a, b, c, d, -1]) == (if a < 0 then 1 else 0) + (if b < 0 then 1 else 0) +
      (if c < 0 then 1 else 0) + (if d < 0 then 1 else 0) + 1
    ensures a >= 0 && b >= 0 && c >= 0 && d >= 0 ==> KnownProduct([a, b, c, d, -1]) == a * b * c * d
  {
    assert [-1][1..] == [] && [d, -1][1..] == [-1] && [c, d, -1][1..] == [d, -1];
    assert [b, c, d, -1][1..] == [c, d, -1] && [a, b, c, d, -1][1..] == [b, c, d, -1];
    assert Unknowns([-1]) == 1 && KnownProduct([-1]) == 1;
    assert Unknowns([d, -1]) == (if d < 0 then 1 else 0) + 1;
    assert Unknowns([c, d, -1]) == (if c < 0 then 1 else 0) + Unknowns([d, -1]);
    assert Unknowns([b, c, d, -1]) == (if b < 0 then 1 else 0) + Unknowns([c, d, -1]);
    if a >= 0 && b >= 0 && c >= 0 && d >= 0 {
      assert KnownProduct([d, -1]) == d;
      assert KnownProduct([c, d, -1]) == c * d;
      assert KnownProduct([b, c, d, -1]) == b * (c * d);
    }
  }

  lemma Dims3(a: int, b: int)
    ensures Unknowns([a, b, -1]) == (if a < 0 then 1 else 0) + (if b < 0 then 1 else 0) + 1
    ensures a >= 0 && b >= 0 ==> KnownProduct([a, b, -1]) == a * b
  {
    assert [-1][1..] == [] && [b, -1][1..] == [-1] && [a, b, -1][1..] == [b, -1];
    assert Unknowns([-1]) == 1 && KnownProduct([-1]) == 1;
    assert Unknowns([b, -1]) == (if b < 0 then 1 else 0) + 1;
    if a >= 0 && b >= 0 {
      assert KnownProduct([b, -1]) == b;
    }
  }

  /** A stack of `nrows * ncols` images of one size. */
  predicate IsStack(x: NdArray, nrows: nat, ncols: nat) {
    IsArray(x) && |x.shape| == 3 && nrows > 0 && x.shape[0] == nrows * ncols
  }

  lemma TileProduct(shape: seq<nat>, nrows: nat, ncols: nat)
    requires |shape| == 3 && shape[0] == nrows * ncols
    ensures Product(TileShape(shape, nrows, ncols)) == Product(shape)
  {
    Product3(shape);
    Product5(TileShape(shape, nrows, ncols));
  }

  lemma GridSize(shape: seq<nat>, nrows: nat, ncols: nat)
    requires |shape| == 3 && shape[0] == nrows * ncols
    ensures Product([shape[1] * nrows, shape[2] * ncols, 1]) == Product(shape)
  {
    var height, width := shape[1], shape[2];
    Product3(shape);
    Product3([height * nrows, width * ncols, 1]);
    assert (height * nrows) * (width * ncols) == nrows * ncols * height * width;
  }

  /** The image `makeGrid` builds from a stack of `nrows * ncols` images:
      `height * nrows` rows and `width * ncols` columns with one channel,
      holding the tiles with axes 1 and 2 swapped. */
  function Grid(x: NdArray, nrows: nat, ncols: nat): (g: NdArray)
    requires IsStack(x, nrows, ncols)
    ensures IsArray(g) && g.shape == [x.shape[1] * nrows, x.shape[2] * ncols, 1] && |g.data| == |x.data|
  {
    TileProduct(x.shape, nrows, ncols);
    GridSize(x.shape, nrows, ncols);
    NdArray([x.shape[1] * nrows, x.shape[2] * ncols, 1],
            SwapAxes12(NdArray(TileShape(x.shape, nrows, ncols), x.data)).data)
  }

  /** The outcome of `makeGrid`: ValueError unless the input is a stack of
      images; ZeroDivisionError for `nrows == 0`; AssertionError when
      `nrows` does not divide the number of images; ValueError from the first
      reshape for a negative `nrows` or an empty stack; otherwise the grid of
      the `nrows` rows of `nindex // nrows` images. */
  lemma MakeGridOutcome(x: NdArray, nrows: int)
    requires IsArray(x)
    ensures |x.shape| != 3 ==> MakeGrid(x, nrows) == Err(ValueError)
    ensures |x.shape| == 3 ==> (MakeGrid(x, nrows) == Err(ZeroDivisionError) <==> nrows == 0)
    ensures |x.shape| == 3 && nrows != 0 ==>
      (MakeGrid(x, nrows) == Err(AssertionError) <==> x.shape[0] % nrows != 0)
    ensures MakeGrid(x, nrows).Ok? <==>
      |x.shape| == 3 && nrows > 0 && x.shape[0] % nrows == 0 && |x.data| > 0
    ensures MakeGrid(x, nrows).Err? ==>
      MakeGrid(x, nrows).error in {ValueError, ZeroDivisionError, AssertionError}
    ensures MakeGrid(x, nrows).Ok? ==>
      nrows > 0 && IsStack(x, nrows, x.shape[0] / nrows) &&
      MakeGrid(x, nrows).value == Grid(x, nrows, x.shape[0] / nrows)
  {
    if |x.shape| == 3 && nrows != 0 {
      var nindex, height, width := x.shape[0], x.shape[1], x.shape[2];
      var ncols := FloorDiv(nindex, nrows);
      FloorDivExact(nindex, nrows);
      if nindex == nrows * ncols {
        Dims5(nrows, ncols, height, width);
        if nrows > 0 {
          assert ncols == nindex / nrows;
          GridTiles(x, nrows, ncols);
          if |x.data| > 0 {
            var tiles := NdArray(TileShape(x.shape, nrows, ncols), x.data);
            GridImage(SwapAxes12(tiles), x.shape, nrows, ncols);
          }
        }
      }
    }
  }

  /** The first reshape of `makeGrid`: it succeeds exactly when the stack is
      not empty, and then only regroups the images. */
  lemma GridTiles(x: NdArray, nrows: nat, ncols: nat)
    requires IsStack(x, nrows, ncols)
    ensures var dims := [nrows as int, ncols, x.shape[1], x.shape[2], -1];
      Unknowns(dims) == 1 && KnownProduct(dims) == |x.data| &&
      (Reshape(x, dims).Ok? <==> |x.data| > 0) &&
      (|x.data| > 0 ==> Reshape(x, dims) == Ok(NdArray(TileShape(x.shape, nrows, ncols), x.data)))
  {
    var dims := [nrows as int, ncols, x.shape[1], x.shape[2], -1];
    Dims5(nrows, ncols, x.shape[1], x.shape[2]);
    Product3(x.shape);
    assert KnownProduct(dims) == |x.data|;
    if |x.data| > 0 {
      var r := Reshape(x, dims).value;
      assert r.shape[4] == |x.data| / |x.data| == 1;
      assert r.shape == TileShape(x.shape, nrows, ncols);
    }
  }

  /** The last reshape of `makeGrid`: the swapped tiles become one image of
      `height * nrows` rows, `width * ncols` columns and one channel. */
  lemma GridImage(y: NdArray, shape: seq<nat>, nrows: nat, ncols: nat)
    requires |shape| == 3
    requires IsArray(y) && y.shape == Swapped(TileShape(shape, nrows, ncols)) && |y.data| > 0
    ensures Reshape(y, [shape[1] * nrows, shape[2] * ncols, -1]) ==
      Ok(NdArray([shape[1] * nrows, shape[2] * ncols, 1], y.data))
  {
    var height, width := shape[1], shape[2];
    var dims := [height * nrows, width * ncols, -1];
    Dims3(height * nrows, width * ncols);
    Product5(y.shape);
    assert y.shape == [nrows, height, ncols, width, 1];
    assert |y.data| == nrows * height * ncols * width * 1;
    assert KnownProduct(dims) == |y.data| by {
      assert (height * nrows) * (width * ncols) == nrows * height * ncols * width;
    }
    var r := Reshape(y, dims).value;
    assert r.shape[2] == |y.data| / |y.data| == 1;
    assert r.shape == [height * nrows, width * ncols, 1];
  }

  /** Where entry `[a, b, c]` sits in the row-major data of a
      three-dimensional array of shape `s`. */
  function Offset3(s: seq<nat>, a: nat, b: nat, c: nat): nat
    requires |s| == 3
  {
    (a * s[1] + b) * s[2] + c
  }

  lemma Offset3Bound(s: seq<nat>, a: nat, b: nat, c: nat)
    requires |s| == 3 && a < s[0] && b < s[1] && c < s[2]
    ensures Offset3(s, a, b, c) < Product(s)
  {
    Product3(s);
    MulBound(a, s[0], b, s[1]);
    MulBound(a * s[1] + b, s[0] * s[1], c, s[2]);
  }

  /** Entry `[a, b, c]` of a three-dimensional array. */
  function At3(x: NdArray, a: nat, b: nat, c: nat): real
    requires IsArray(x) && |x.shape| == 3 && a < x.shape[0] && b < x.shape[1] && c < x.shape[2]
  {
    Offset3Bound(x.shape, a, b, c);
    x.data[Offset3(x.shape, a, b, c)]
  }

  /** Where tile position `(i, y, j, px)` sits before and after the swap. */
  lemma TileOffsets(nrows: nat, ncols: nat, height: nat, width: nat, i: nat, j: nat, y: nat, px: nat)
    requires i < nrows && j < ncols && y < height && px < width
    ensures i * height + y < height * nrows && j * width + px < width * ncols && i * ncols + j < nrows * ncols
    ensures InRange(Swapped([nrows, ncols, height, width, 1]), Index5(i, y, j, px, 0))
    ensures Offset(Swapped([nrows, ncols, height, width, 1]), Index5(i, y, j, px, 0)) ==
      Offset3([height * nrows, width * ncols, 1], i * height + y, j * width + px, 0)
    ensures Offset([nrows, ncols, height, width, 1], SwapIndex(Index5(i, y, j, px, 0))) ==
      Offset3([nrows * ncols, height, width], i * ncols + j, y, px)
  {
    MulBound(i, nrows, y, height);
    MulBound(j, ncols, px, width);
    MulBound(i, nrows, j, ncols);
    var s := [nrows, ncols, height, width, 1];
    assert Swapped(s) == [nrows, height, ncols, width, 1];
    var row := i * height + y;
    Regroup(row, ncols, j, width, px);
  }

  lemma Regroup(row: nat, ncols: nat, j: nat, width: nat, px: nat)
    ensures (row * ncols + j) * width + px == row * (width * ncols) + (j * width + px)
  {
    assert (row * ncols) * width == row * (width * ncols);
  }

  /** Image `i * ncols + j` of the stack becomes the tile in grid row `i` and
      grid column `j`: its pixel `(y, px)` lands at row `i * height + y`,
      column `j * width + px` of the grid. */
  lemma MakeGridPixel(x: NdArray, nrows: nat, ncols: nat, i: nat, j: nat, y: nat, px: nat)
    requires IsStack(x, nrows, ncols)
    requires i < nrows && j < ncols && y < x.shape[1] && px < x.shape[2]
    ensures i * x.shape[1] + y < x.shape[1] * nrows && j * x.shape[2] + px < x.shape[2] * ncols
    ensures i * ncols + j < x.shape[0]
    ensures At3(Grid(x, nrows, ncols), i * x.shape[1] + y, j * x.shape[2] + px, 0) == At3(x, i * ncols + j, y, px)
  {
    var height, width := x.shape[1], x.shape[2];
    var s := TileShape(x.shape, nrows, ncols);
    var tiles := NdArray(s, x.data);
    var at := Index5(i, y, j, px, 0);
    TileProduct(x.shape, nrows, ncols);
    TileOffsets(nrows, ncols, height, width, i, j, y, px);
    SwapAxes12At(tiles, at);
  }

  /** `makeGrid` moves entries and nothing else: every entry of the grid
      comes from exactly one entry of the stack, every entry of the stack
      lands at exactly one place in the grid, and the size is unchanged. */
  lemma MakeGridBijection(x: NdArray, nrows: nat, ncols: nat, k: nat)
    requires IsStack(x, nrows, ncols) && k < |x.data|
    ensures
      var s := TileShape(x.shape, nrows, ncols);
      var g := Grid(x, nrows, ncols);
      |g.data| == |x.data| && Product(s) == |x.data| && Swapped(Swapped(s)) == s &&
      g.data[k] == x.data[SwapSource(s, k)] &&
      SwapSource(Swapped(s), SwapSource(s, k)) == k &&
      SwapSource(s, SwapSource(Swapped(s), k)) == k
  {
    TileProduct(x.shape, nrows, ncols);
    var s := TileShape(x.shape, nrows, ncols);
    SwappedTwice(s);
    SwapSourceInverse(s, k);
    SwapSourceInverse(Swapped(s), k);
  }

  // ---------------------------------------------------------------------
  // standardizing

  /** The column means of an n x d matrix, `np.mean(data, axis=0)`. */
  function Mean(data: Matrix, d: nat): (mean: Vector)
    requires |data| >= 1 && IsMatrix(data, |data|, d)
    ensures |mean| == d
  {
    ColMean(data, d)
  }

  /** The population standard deviation of every column,
      `np.std(data, axis=0)`: the root of the mean squared deviation. */
  function Std(data: Matrix, d: nat, sqrt: Root): (std: Vector)
    requires |data| >= 1 && IsMatrix(data, |data|, d)
    ensures |std| == d && forall j :: 0 <= j < d ==> std[j] >= 0.0
  {
    var mean := Mean(data, d);
    seq(d, j requires 0 <= j < d => sqrt(Sum(SquaredDeviations(data, j, mean[j])) / |data| as real))
  }

  /** The squared distances of column `j`'s entries from `m`. */
  function SquaredDeviations(data: Matrix, j: nat, m: real): (sq: Vector)
    requires forall i :: 0 <= i < |data| ==> j < |data[i]|
    ensures |sq| == |data| && forall i :: 0 <= i < |data| ==> sq[i] == (data[i][j] - m) * (data[i][j] - m)
  {
    seq(|data|, i requires 0 <= i < |data| => (data[i][j] - m) * (data[i][j] - m))
  }

  /** `std[std == 0.0] = 1.0`: zero entries become 1.0, the others are kept,
      so no entry is zero any more. */
  function Guarded(std: Vector): (g: Vector)
    ensures |g| == |std|
    ensures forall j :: 0 <= j < |std| ==> g[j] != 0.0
    ensures forall j :: 0 <= j < |std| && std[j] != 0.0 ==> g[j] == std[j]
  {
    seq(|std|, j requires 0 <= j < |std| => if std[j] == 0.0 then 1.0 else std[j])
  }

  /** `(data - mean) / std`, broadcast over the rows. */
  function Scaled(data: Matrix, mean: Vector, std: Vector): (r: Matrix)
    requires IsMatrix(data, |data|, |mean|) && |std| == |mean|
    requires forall j :: 0 <= j < |std| ==> std[j] != 0.0
    ensures IsMatrix(r, |data|, |mean|)
  {
    seq(|data|, i requires 0 <= i < |data| =>
      seq(|mean|, j requires 0 <= j < |mean| => (data[i][j] - mean[j]) / std[j]))
  }

  /** `r * std + mean`, broadcast over the rows: standardized data mapped back. */
  function Unscaled(r: Matrix, mean: Vector, std: Vector): (data: Matrix)
    requires IsMatrix(r, |r|, |mean|) && |std| == |mean|
    ensures IsMatrix(data, |r|, |mean|)
  {
    seq(|r|, i requires 0 <= i < |r| =>
      seq(|mean|, j requires 0 <= j < |mean| => r[i][j] * std[j] + mean[j]))
  }

  /** Scaling back and adding the mean recovers the data exactly. */
  lemma ScaledRoundTrip(data: Matrix, mean: Vector, std: Vector)
    requires IsMatrix(data, |data|, |mean|) && |std| == |mean|
    requires forall j :: 0 <= j < |std| ==> std[j] != 0.0
    ensures Unscaled(Scaled(data, mean, std), mean, std) == data
  {
    var back := Unscaled(Scaled(data, mean, std), mean, std);
    forall i | 0 <= i < |data|
      ensures back[i] == data[i]
    {
      forall j | 0 <= j < |mean|
        ensures back[i][j] == data[i][j]
      {
        var q := Scaled(data, mean, std)[i][j];
        assert q == (data[i][j] - mean[j]) / std[j];
        assert q * std[j] == data[i][j] - mean[j];
      }
    }
  }

  lemma {:induction false} SumShift(s: seq<real>, t: seq<real>, m: real)
    requires |s| == |t| && forall k :: 0 <= k < |s| ==> t[k] == s[k] - m
    ensures Sum(t) == Sum(s) - |s| as real * m
  {
    if s != [] {
      SumShift(s[1..], t[1..], m);
    }
  }

  lemma {:induction false} SumScale(s: seq<real>, t: seq<real>, c: real)
    requires |s| == |t| && forall k :: 0 <= k < |s| ==> t[k] == s[k] * c
    ensures Sum(t) == Sum(s) * c
  {
    if s != [] {
      SumScale(s[1..], t[1..], c);
    }
  }

  /** Every standardized column sums to zero, so its mean is zero. */
  lemma StandardizedMeanZero(data: Matrix, d: nat, std: Vector, j: nat)
    requires |data| >= 1 && IsMatrix(data, |data|, d) && |std| == d && j < d
    requires forall k :: 0 <= k < |std| ==> std[k] != 0.0
    ensures Sum(Column(Scaled(data, Mean(data, d), std), j)) == 0.0
  {
    var mean := Mean(data, d);
    var n := |data|;
    var col := Column(data, j);
    var centred := seq(n, i requires 0 <= i < n => col[i] - mean[j]);
    var scaled := Column(Scaled(data, mean, std), j);
    assert mean[j] == Sum(col) / n as real;
    SumShift(col, centred, mean[j]);
    assert Sum(centred) == 0.0;
    SumScale(centred, scaled, 1.0 / std[j]);
  }

  lemma MeanOfConstant(n: real, c: real)
    requires n > 0.0
    ensures (n * c) / n == c
  {
  }

  /** A column whose entries are all `c` has mean `c`. */
  lemma ConstantMean(data: Matrix, d: nat, j: nat, c: real)
    requires |data| >= 1 && IsMatrix(data, |data|, d) && j < d
    requires forall i :: 0 <= i < |data| ==> data[i][j] == c
    ensures Mean(data, d)[j] == c
  {
    var col := Column(data, j);
    var n := |data| as real;
    assert Mean(data, d)[j] == Sum(col) / n;
    SumConstant(col, c);
    assert Sum(col) == n * c;
    MeanOfConstant(n, c);
  }

  lemma StdAt(data: Matrix, d: nat, sqrt: Root, j: nat)
    requires |data| >= 1 && IsMatrix(data, |data|, d) && j < d
    ensures Std(data, d, sqrt)[j] == sqrt(Sum(SquaredDeviations(data, j, Mean(data, d)[j])) / |data| as real)
  {
  }

  lemma ZeroOver(n: real)
    requires n > 0.0
    ensures 0.0 / n == 0.0
  {
  }

  lemma DeviationsOfConstant(data: Matrix, j: nat, c: real)
    requires forall i :: 0 <= i < |data| ==> j < |data[i]| && data[i][j] == c
    ensures Sum(SquaredDeviations(data, j, c)) == 0.0
  {
    var squares := SquaredDeviations(data, j, c);
    forall k | 0 <= k < |squares|
      ensures squares[k] == 0.0
    {
      assert data[k][j] - c == 0.0;
    }
    SumZeros(squares);
  }

  /** A column whose entries are all `c` has standard deviation 0. */
  lemma ConstantStd(data: Matrix, d: nat, sqrt: Root, j: nat, c: real)
    requires |data| >= 1 && IsMatrix(data, |data|, d) && j < d
    requires forall i :: 0 <= i < |data| ==> data[i][j] == c
    ensures Std(data, d, sqrt)[j] == 0.0
  {
    ConstantMean(data, d, j, c);
    DeviationsOfConstant(data, j, c);
    ZeroOver(|data| as real);
    StdAt(data, d, sqrt, j);
  }

  /** A constant column's deviation 0 is guarded to 1.0, so the column
      standardizes to zeros. */
  lemma ConstantColumn(data: Matrix, d: nat, sqrt: Root, j: nat, c: real)
    requires |data| >= 1 && IsMatrix(data, |data|, d) && j < d
    requires forall i :: 0 <= i < |data| ==> data[i][j] == c
    ensures Guarded(Std(data, d, sqrt))[j] == 1.0
    ensures forall i :: 0 <= i < |data| ==> Scaled(data, Mean(data, d), Guarded(Std(data, d, sqrt)))[i][j] == 0.0
  {
    ConstantMean(data, d, j, c);
    ConstantStd(data, d, sqrt, j, c);
  }

  /** `std[std == 0.0] = 1.0`, in place. */
  method GuardZeros(s: array<real>)
    modifies s
    ensures s[..] == Guarded(old(s[..]))
  {
    ghost var raw := s[..];
    for j := 0 to s.Length
      invariant forall k :: 0 <= k < j ==> s[k] == Guarded(raw)[k]
      invariant forall k :: j <= k < s.Length ==> s[k] == raw[k]
    {
      if s[j] == 0.0 {
        s[j] := 1.0;
      }
    }
  }

  /** `standardizing(data)` along axis 0: the data centred on its column
      means and divided by the guarded column standard deviations, together
      with the means and the guarded deviations. */
  method Standardizing(data: Matrix, d: nat, sqrt: Root) returns (result: Matrix, mean: Vector, std: Vector)
    requires |data| >= 1 && IsMatrix(data, |data|, d)
    ensures mean == Mean(data, d)
    ensures std == Guarded(Std(data, d, sqrt))
    ensures forall j :: 0 <= j < d ==> std[j] != 0.0
    ensures result == Scaled(data, mean, std)
    ensures Unscaled(result, mean, std) == data
  {
    mean := Mean(data, d);
    std := GuardedStd(data, d, sqrt);
    result := Scaled(data, mean, std);
    ScaledRoundTrip(data, mean, std);
  }

  /** `np.std(data, axis=0)` written into a fresh array, then guarded in place. */
  method GuardedStd(data: Matrix, d: nat, sqrt: Root) returns (std: Vector)
    requires |data| >= 1 && IsMatrix(data, |data|, d)
    ensures std == Guarded(Std(data, d, sqrt))
  {
    var raw := Std(data, d, sqrt);
    var s := new real[d](j => if 0 <= j < d then raw[j] else 0.0);
    assert s[..] == raw;
    GuardZeros(s);
    std := s[..];
  }
}
