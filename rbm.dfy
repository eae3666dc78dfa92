/** One Restricted Boltzmann Machine layer: a weight matrix between a visible
    and a hidden layer of units, one bias vector per layer, stochastic sampling
    in both directions, a Gibbs chain, and the contrastive-divergence update. */
module Rbm {
  import opened Tensor
  import opened Results

  /** The three trained parameters of an RBM, as values. */
  datatype Params = Params(W: Matrix, hBias: Vector, vBias: Vector)

  /** `W` is visible x hidden, `hBias` has one entry per hidden unit and
      `vBias` one per visible unit. */
  predicate HasShape(p: Params, visible: nat, hidden: nat) {
    IsMatrix(p.W, visible, hidden) && |p.hBias| == hidden && |p.vBias| == visible
  }

  /** The last iteration of a Gibbs chain: hidden probabilities and sample,
      visible probabilities and sample. */
  datatype GibbsState = GibbsState(Hp: Matrix, Hs: Matrix, Vp: Matrix, Vs: Matrix)

  /** The four batches handed to a contrastive-divergence step all have `n`
      rows: the visible start and end samples, and the hidden probabilities
      computed from each. */
  predicate IsBatch(Vs0: Matrix, Vsk: Matrix, Hp0: Matrix, Hpk: Matrix, visible: nat, hidden: nat) {
    |Vs0| >= 1 &&
    IsMatrix(Vs0, |Vs0|, visible) && IsMatrix(Vsk, |Vs0|, visible) &&
    IsMatrix(Hp0, |Vs0|, hidden) && IsMatrix(Hpk, |Vs0|, hidden)
  }

  /** `torch.mm(V.t(), H)` for a batch of visible rows `V` and hidden rows
      `H`: entry (i, j) sums, over the batch, visible unit i times hidden unit j. */
  function Correlation(V: Matrix, H: Matrix, visible: nat, hidden: nat): (c: Matrix)
    requires IsMatrix(V, |V|, visible) && IsMatrix(H, |V|, hidden)
    ensures IsMatrix(c, visible, hidden)
    ensures forall i, j :: 0 <= i < visible && 0 <= j < hidden ==> c[i][j] == Dot(Column(V, i), Column(H, j))
  {
    var c := MatMul(Transpose(V, visible), H, hidden);
    assert forall i :: 0 <= i < visible ==> Transpose(V, visible)[i] == Column(V, i);
    c
  }

  /** The batch mean of column `j` of `a - b`. */
  function BatchMeanDiff(a: Matrix, b: Matrix, j: nat): real
    requires |a| >= 1 && |b| == |a|
    requires forall r :: 0 <= r < |a| ==> j < |a[r]| && j < |b[r]|
  {
    Sum(seq(|a|, r requires 0 <= r < |a| => a[r][j] - b[r][j])) / |a| as real
  }

  /** The weight gradient estimate `(Vskᵗ·Hpk − Vs0ᵗ·Hp0) / n`: entry (i, j)
      is the batch sum of visible-i-times-hidden-j products in the negative
      phase minus that in the positive phase, over the batch size n. */
  function WeightGradient(Vs0: Matrix, Vsk: Matrix, Hp0: Matrix, Hpk: Matrix, visible: nat, hidden: nat): (g: Matrix)
    requires IsBatch(Vs0, Vsk, Hp0, Hpk, visible, hidden)
    ensures IsMatrix(g, visible, hidden)
    ensures forall i, j :: 0 <= i < visible && 0 <= j < hidden ==>
      g[i][j] == (Dot(Column(Vsk, i), Column(Hpk, j)) - Dot(Column(Vs0, i), Column(Hp0, j))) / |Vs0| as real
  {
    var positive := Correlation(Vs0, Hp0, visible, hidden);
    var negative := Correlation(Vsk, Hpk, visible, hidden);
    seq(visible, i requires 0 <= i < visible =>
      seq(hidden, j requires 0 <= j < hidden => (negative[i][j] - positive[i][j]) / |Vs0| as real))
  }

  /** `torch.mean(Hpk - Hp0, axis=0)`: per hidden unit, the batch mean of the
      difference between the phases. */
  function HiddenBiasGradient(Vs0: Matrix, Vsk: Matrix, Hp0: Matrix, Hpk: Matrix, visible: nat, hidden: nat): (g: Vector)
    requires IsBatch(Vs0, Vsk, Hp0, Hpk, visible, hidden)
    ensures |g| == hidden && forall j :: 0 <= j < hidden ==> g[j] == BatchMeanDiff(Hpk, Hp0, j)
  {
    var g := ColMean(Sub(Hpk, Hp0, hidden), hidden);
    assert forall j :: 0 <= j < hidden ==> Column(Sub(Hpk, Hp0, hidden), j) == seq(|Hpk|, r requires 0 <= r < |Hpk| => Hpk[r][j] - Hp0[r][j]);
    g
  }

  /** `torch.mean(Vsk - Vs0, axis=0)`: per visible unit, the batch mean of the
      difference between the phases. */
  function VisibleBiasGradient(Vs0: Matrix, Vsk: Matrix, Hp0: Matrix, Hpk: Matrix, visible: nat, hidden: nat): (g: Vector)
    requires IsBatch(Vs0, Vsk, Hp0, Hpk, visible, hidden)
    ensures |g| == visible && forall i :: 0 <= i < visible ==> g[i] == BatchMeanDiff(Vsk, Vs0, i)
  {
    var g := ColMean(Sub(Vsk, Vs0, visible), visible);
    assert forall i :: 0 <= i < visible ==> Column(Sub(Vsk, Vs0, visible), i) == seq(|Vsk|, r requires 0 <= r < |Vsk| => Vsk[r][i] - Vs0[r][i]);
    g
  }

  /** The parameters after one contrastive-divergence step with learning rate
      `lr`: each parameter moves by `lr` times its gradient estimate. */
  function CDUpdate(p: Params, Vs0: Matrix, Vsk: Matrix, Hp0: Matrix, Hpk: Matrix, lr: real,
                    visible: nat, hidden: nat): (q: Params)
    requires HasShape(p, visible, hidden) && IsBatch(Vs0, Vsk, Hp0, Hpk, visible, hidden)
    ensures HasShape(q, visible, hidden)
  {
    var gW := WeightGradient(Vs0, Vsk, Hp0, Hpk, visible, hidden);
    var gh := HiddenBiasGradient(Vs0, Vsk, Hp0, Hpk, visible, hidden);
    var gv := VisibleBiasGradient(Vs0, Vsk, Hp0, Hpk, visible, hidden);
    Params(
      seq(visible, i requires 0 <= i < visible =>
        seq(hidden, j requires 0 <= j < hidden => p.W[i][j] - lr * gW[i][j])),
      seq(hidden, j requires 0 <= j < hidden => p.hBias[j] - lr * gh[j]),
      seq(visible, i requires 0 <= i < visible => p.vBias[i] - lr * gv[i]))
  }

  /** When the negative phase reproduces the positive phase, every gradient
      estimate is zero. */
  lemma {:induction false} GradientsVanish(Vs0: Matrix, Hp0: Matrix, visible: nat, hidden: nat)
    requires IsBatch(Vs0, Vs0, Hp0, Hp0, visible, hidden)
    ensures forall i, j :: 0 <= i < visible && 0 <= j < hidden ==>
      WeightGradient(Vs0, Vs0, Hp0, Hp0, visible, hidden)[i][j] == 0.0
    ensures forall j :: 0 <= j < hidden ==> HiddenBiasGradient(Vs0, Vs0, Hp0, Hp0, visible, hidden)[j] == 0.0
    ensures forall i :: 0 <= i < visible ==> VisibleBiasGradient(Vs0, Vs0, Hp0, Hp0, visible, hidden)[i] == 0.0
  {
    forall j | 0 <= j < hidden ensures BatchMeanDiff(Hp0, Hp0, j) == 0.0 {
      SumZeros(seq(|Hp0|, r requires 0 <= r < |Hp0| => Hp0[r][j] - Hp0[r][j]));
    }
    forall i | 0 <= i < visible ensures BatchMeanDiff(Vs0, Vs0, i) == 0.0 {
      SumZeros(seq(|Vs0|, r requires 0 <= r < |Vs0| => Vs0[r][i] - Vs0[r][i]));
    }
  }

  lemma NegatedQuotient(x: real, y: real, n: real)
    requires n != 0.0
    ensures (y - x) / n == -((x - y) / n)
  {
  }

  /** Exchanging the two phases negates every gradient estimate. */
  lemma {:induction false} GradientsNegate(Vs0: Matrix, Vsk: Matrix, Hp0: Matrix, Hpk: Matrix, visible: nat, hidden: nat)
    requires IsBatch(Vs0, Vsk, Hp0, Hpk, visible, hidden)
    ensures forall i, j :: 0 <= i < visible && 0 <= j < hidden ==>
      WeightGradient(Vsk, Vs0, Hpk, Hp0, visible, hidden)[i][j] == -WeightGradient(Vs0, Vsk, Hp0, Hpk, visible, hidden)[i][j]
    ensures forall j :: 0 <= j < hidden ==>
      HiddenBiasGradient(Vsk, Vs0, Hpk, Hp0, visible, hidden)[j] == -HiddenBiasGradient(Vs0, Vsk, Hp0, Hpk, visible, hidden)[j]
    ensures forall i :: 0 <= i < visible ==>
      VisibleBiasGradient(Vsk, Vs0, Hpk, Hp0, visible, hidden)[i] == -VisibleBiasGradient(Vs0, Vsk, Hp0, Hpk, visible, hidden)[i]
  {
    var n := |Vs0| as real;
    forall i, j | 0 <= i < visible && 0 <= j < hidden
      ensures WeightGradient(Vsk, Vs0, Hpk, Hp0, visible, hidden)[i][j] == -WeightGradient(Vs0, Vsk, Hp0, Hpk, visible, hidden)[i][j]
    {
      NegatedQuotient(Dot(Column(Vsk, i), Column(Hpk, j)), Dot(Column(Vs0, i), Column(Hp0, j)), n);
    }
    forall j | 0 <= j < hidden ensures BatchMeanDiff(Hp0, Hpk, j) == -BatchMeanDiff(Hpk, Hp0, j) {
      var s := seq(|Hpk|, r requires 0 <= r < |Hpk| => Hpk[r][j] - Hp0[r][j]);
      SumNegate(s, seq(|Hp0|, r requires 0 <= r < |Hp0| => Hp0[r][j] - Hpk[r][j]));
      NegatedQuotient(Sum(s), 0.0, n);
    }
    forall i | 0 <= i < visible ensures BatchMeanDiff(Vs0, Vsk, i) == -BatchMeanDiff(Vsk, Vs0, i) {
      var s := seq(|Vsk|, r requires 0 <= r < |Vsk| => Vsk[r][i] - Vs0[r][i]);
      SumNegate(s, seq(|Vs0|, r requires 0 <= r < |Vs0| => Vs0[r][i] - Vsk[r][i]));
      NegatedQuotient(Sum(s), 0.0, n);
    }
  }

  /** When the negative phase reproduces the positive phase, or the learning
      rate is zero, a step leaves every parameter as it was. */
  lemma CDUpdateFixedPoint(p: Params, Vs0: Matrix, Vsk: Matrix, Hp0: Matrix, Hpk: Matrix, lr: real,
                           visible: nat, hidden: nat)
    requires HasShape(p, visible, hidden) && IsBatch(Vs0, Vsk, Hp0, Hpk, visible, hidden)
    requires (Vsk == Vs0 && Hpk == Hp0) || lr == 0.0
    ensures CDUpdate(p, Vs0, Vsk, Hp0, Hpk, lr, visible, hidden) == p
  {
    var q := CDUpdate(p, Vs0, Vsk, Hp0, Hpk, lr, visible, hidden);
    if Vsk == Vs0 && Hpk == Hp0 {
      GradientsVanish(Vs0, Hp0, visible, hidden);
    }
    assert q.W == p.W by {
      forall i | 0 <= i < visible ensures q.W[i] == p.W[i] { }
    }
    assert q.hBias == p.hBias;
    assert q.vBias == p.vBias;
  }

  /** Moving by `lr * g` and then by `lr * -g` comes back. */
  lemma StepBack(w: real, lr: real, g: real, g': real)
    requires g' == -g
    ensures (w - lr * g) - lr * g' == w
  {
  }

  /** A step taken with the two phases exchanged undoes a step: over exact
      reals the update is its own inverse under that exchange. */
  lemma CDUpdateSwapInverse(p: Params, Vs0: Matrix, Vsk: Matrix, Hp0: Matrix, Hpk: Matrix, lr: real,
                            visible: nat, hidden: nat)
    requires HasShape(p, visible, hidden) && IsBatch(Vs0, Vsk, Hp0, Hpk, visible, hidden)
    ensures CDUpdate(CDUpdate(p, Vs0, Vsk, Hp0, Hpk, lr, visible, hidden), Vsk, Vs0, Hpk, Hp0, lr, visible, hidden) == p
  {
    var q := CDUpdate(p, Vs0, Vsk, Hp0, Hpk, lr, visible, hidden);
    var p' := CDUpdate(q, Vsk, Vs0, Hpk, Hp0, lr, visible, hidden);
    var gW, gW' := WeightGradient(Vs0, Vsk, Hp0, Hpk, visible, hidden), WeightGradient(Vsk, Vs0, Hpk, Hp0, visible, hidden);
    var gh, gh' := HiddenBiasGradient(Vs0, Vsk, Hp0, Hpk, visible, hidden), HiddenBiasGradient(Vsk, Vs0, Hpk, Hp0, visible, hidden);
    var gv, gv' := VisibleBiasGradient(Vs0, Vsk, Hp0, Hpk, visible, hidden), VisibleBiasGradient(Vsk, Vs0, Hpk, Hp0, visible, hidden);
    GradientsNegate(Vs0, Vsk, Hp0, Hpk, visible, hidden);
    assert p'.W == p.W by {
      forall i | 0 <= i < visible ensures p'.W[i] == p.W[i] {
        forall j | 0 <= j < hidden ensures p'.W[i][j] == p.W[i][j] {
          StepBack(p.W[i][j], lr, gW[i][j], gW'[i][j]);
        }
      }
    }
    assert p'.hBias == p.hBias by {
      forall j | 0 <= j < hidden ensures p'.hBias[j] == p.hBias[j] {
        StepBack(p.hBias[j], lr, gh[j], gh'[j]);
      }
    }
    assert p'.vBias == p.vBias by {
      forall i | 0 <= i < visible ensures p'.vBias[i] == p.vBias[i] {
        StepBack(p.vBias[i], lr, gv[i], gv'[i]);
      }
    }
  }

  class RBM {
    const visibleDim: nat
    const hiddenDim: nat
    const gaussianHidden: bool
    // Each tensor is updated in place by a training step; the reference
    // itself is never reassigned.
    const W: array2<real>
    const hBias: array<real>
    const vBias: array<real>

    predicate Valid() {
      W.Length0 == visibleDim && W.Length1 == hiddenDim &&
      hBias.Length == hiddenDim && vBias.Length == visibleDim && hBias != vBias
    }

    /** The current parameter values. */
    ghost function Parameters(): (p: Params)
      reads W, hBias, vBias
      requires Valid()
      ensures HasShape(p, visibleDim, hiddenDim)
    {
      Params(Mat(W), hBias[..], vBias[..])
    }

    /** A fresh layer: `W` is 0.1 times standard normal draws, both biases zero. */
    constructor (visibleDim: nat, hiddenDim: nat, gaussianHidden: bool, noise: Draws)
      ensures Valid() && fresh(W) && fresh(hBias) && fresh(vBias)
      ensures this.visibleDim == visibleDim && this.hiddenDim == hiddenDim
      ensures this.gaussianHidden == gaussianHidden
      ensures forall i, j :: 0 <= i < visibleDim && 0 <= j < hiddenDim ==> W[i, j] == noise(i, j) * 0.1
      ensures forall j :: 0 <= j < hiddenDim ==> hBias[j] == 0.0
      ensures forall i :: 0 <= i < visibleDim ==> vBias[i] == 0.0
    {
      this.visibleDim := visibleDim;
      this.hiddenDim := hiddenDim;
      this.gaussianHidden := gaussianHidden;
      W := new real[visibleDim, hiddenDim]((i: nat, j: nat) => noise(i, j) * 0.1);
      hBias := new real[hiddenDim](_ => 0.0);
      vBias := new real[visibleDim](_ => 0.0);
    }

    /** `v.mm(W) + hBias` for a batch of visible rows. */
    function HiddenActivation(v: Matrix): (a: Matrix)
      reads W, hBias
      requires Valid() && IsMatrix(v, |v|, visibleDim)
      ensures IsMatrix(a, |v|, hiddenDim)
    {
      AddRow(MatMul(v, Mat(W), hiddenDim), hBias[..])
    }

    /** `h.mm(W.t()) + vBias` for a batch of hidden rows. */
    function VisibleActivation(h: Matrix): (a: Matrix)
      reads W, vBias
      requires Valid() && IsMatrix(h, |h|, hiddenDim)
      ensures IsMatrix(a, |h|, visibleDim)
    {
      AddRow(MatMul(h, Transpose(Mat(W), hiddenDim), visibleDim), vBias[..])
    }

    /** Hidden probabilities (or Gaussian means) and a hidden sample for a
        batch of visible rows; `u` supplies the random draws. */
    function SampleHidden(v: Matrix, u: Draws, sigmoid: Squash): (r: (Matrix, Matrix))
      reads W, hBias
      requires Valid() && IsMatrix(v, |v|, visibleDim)
      ensures IsMatrix(r.0, |v|, hiddenDim) && IsMatrix(r.1, |v|, hiddenDim)
      ensures gaussianHidden ==>
        r.0 == HiddenActivation(v) &&
        forall i, j :: 0 <= i < |v| && 0 <= j < hiddenDim ==> r.1[i][j] - r.0[i][j] == u(i, j)
      ensures !gaussianHidden ==>
        IsOpenUnit(r.0) && IsBinary(r.1) &&
        (forall i, j :: 0 <= i < |v| && 0 <= j < hiddenDim ==>
           r.0[i][j] == sigmoid(HiddenActivation(v)[i][j]) && (r.1[i][j] == 1.0 <==> u(i, j) < r.0[i][j]))
    {
      var activation := HiddenActivation(v);
      if gaussianHidden then
        (activation, Normal(activation, u))
      else
        var p := Sigmoid(sigmoid, activation);
        (p, Bernoulli(p, u))
    }

    /** Visible probabilities and a visible sample for a batch of hidden rows:
        always sigmoid and Bernoulli, whatever the hidden distribution. */
    function SampleVisible(h: Matrix, u: Draws, sigmoid: Squash): (r: (Matrix, Matrix))
      reads W, vBias
      requires Valid() && IsMatrix(h, |h|, hiddenDim)
      ensures IsMatrix(r.0, |h|, visibleDim) && IsMatrix(r.1, |h|, visibleDim)
      ensures IsOpenUnit(r.0) && IsBinary(r.1)
      ensures forall i, j :: 0 <= i < |h| && 0 <= j < visibleDim ==>
        r.0[i][j] == sigmoid(VisibleActivation(h)[i][j]) && (r.1[i][j] == 1.0 <==> u(i, j) < r.0[i][j])
    {
      var p := Sigmoid(sigmoid, VisibleActivation(h));
      (p, Bernoulli(p, u))
    }

    /** Pass `t` of a Gibbs chain from the visible sample `Vs`: the hidden
        layer is sampled from `Vs` with the draws `hDraws(t)`, and the visible
        layer from that hidden SAMPLE (not its probabilities) with `vDraws(t)`. */
    function GibbsPass(Vs: Matrix, t: nat, hDraws: nat -> Draws, vDraws: nat -> Draws, sigmoid: Squash): (g: GibbsState)
      reads W, hBias, vBias
      requires Valid() && IsMatrix(Vs, |Vs|, visibleDim)
      ensures IsMatrix(g.Hp, |Vs|, hiddenDim) && IsMatrix(g.Hs, |Vs|, hiddenDim)
      ensures IsMatrix(g.Vp, |Vs|, visibleDim) && IsMatrix(g.Vs, |Vs|, visibleDim)
      ensures IsOpenUnit(g.Vp) && IsBinary(g.Vs)
      ensures !gaussianHidden ==> IsOpenUnit(g.Hp) && IsBinary(g.Hs)
      ensures (g.Hp, g.Hs) == SampleHidden(Vs, hDraws(t), sigmoid)
      ensures (g.Vp, g.Vs) == SampleVisible(g.Hs, vDraws(t), sigmoid)
    {
      var hidden := SampleHidden(Vs, hDraws(t), sigmoid);
      var visible := SampleVisible(hidden.1, vDraws(t), sigmoid);
      GibbsState(hidden.0, hidden.1, visible.0, visible.1)
    }

    /** The visible sample that pass `k` of a chain from `v` starts from:
        `v` itself for the first pass, then each pass's visible sample. */
    function ChainInput(v: Matrix, k: nat, hDraws: nat -> Draws, vDraws: nat -> Draws, sigmoid: Squash): (Vs: Matrix)
      reads W, hBias, vBias
      requires Valid() && IsMatrix(v, |v|, visibleDim)
      ensures IsMatrix(Vs, |v|, visibleDim)
      ensures k >= 1 ==> IsBinary(Vs)
    {
      if k == 0 then v else GibbsPass(ChainInput(v, k - 1, hDraws, vDraws, sigmoid), k - 1, hDraws, vDraws, sigmoid).Vs
    }

    /** The state after `k` passes from the visible batch `v`. */
    function GibbsChain(v: Matrix, k: nat, hDraws: nat -> Draws, vDraws: nat -> Draws, sigmoid: Squash): (g: GibbsState)
      reads W, hBias, vBias
      requires Valid() && IsMatrix(v, |v|, visibleDim) && k >= 1
      ensures IsMatrix(g.Hp, |v|, hiddenDim) && IsMatrix(g.Hs, |v|, hiddenDim)
      ensures IsMatrix(g.Vp, |v|, visibleDim) && IsMatrix(g.Vs, |v|, visibleDim)
      ensures IsOpenUnit(g.Vp) && IsBinary(g.Vs)
      ensures !gaussianHidden ==> IsOpenUnit(g.Hp) && IsBinary(g.Hs)
    {
      GibbsPass(ChainInput(v, k - 1, hDraws, vDraws, sigmoid), k - 1, hDraws, vDraws, sigmoid)
    }

    /** `gibbsSampling(v, iterations)`: the last pass's hidden and visible
        probabilities and samples; with no pass at all the hidden probability
        is never bound and the return statement fails. */
    method GibbsSampling(v: Matrix, iterations: int, hDraws: nat -> Draws, vDraws: nat -> Draws, sigmoid: Squash)
      returns (r: Result<GibbsState>)
      requires Valid() && (iterations >= 1 ==> IsMatrix(v, |v|, visibleDim))
      ensures r.Err? <==> iterations < 1
      ensures r.Err? ==> r.error == UnboundLocalError
      ensures r.Ok? ==> r.value == GibbsChain(v, iterations, hDraws, vDraws, sigmoid)
    {
      var Vs := v;
      var Hp, Hs, Vp: Matrix := [], [], [];
      // `range(iterations)` is empty when `iterations` is not positive
      var passes: nat := if iterations < 0 then 0 else iterations;
      for i := 0 to passes
        invariant passes >= 1 ==> Vs == ChainInput(v, i, hDraws, vDraws, sigmoid)
        invariant i >= 1 ==> GibbsState(Hp, Hs, Vp, Vs) == GibbsChain(v, i, hDraws, vDraws, sigmoid)
      {
        var hidden := SampleHidden(Vs, hDraws(i), sigmoid);
        Hp, Hs := hidden.0, hidden.1;
        var visible := SampleVisible(Hs, vDraws(i), sigmoid);
        Vp, Vs := visible.0, visible.1;
      }
      if passes == 0 {
        r := Err(UnboundLocalError);
      } else {
        r := Ok(GibbsState(Hp, Hs, Vp, Vs));
      }
    }

    /** `contrastiveDivergence(Vs0, Vsk, Hp0, Hpk, lr)`: one CD step applied to
        the three parameter tensors in place; nothing else changes, and no
        weight decay or momentum is applied. */
    method ContrastiveDivergence(Vs0: Matrix, Vsk: Matrix, Hp0: Matrix, Hpk: Matrix, lr: real)
      requires Valid() && IsBatch(Vs0, Vsk, Hp0, Hpk, visibleDim, hiddenDim)
      modifies W, hBias, vBias
      ensures Parameters() == CDUpdate(old(Parameters()), Vs0, Vsk, Hp0, Hpk, lr, visibleDim, hiddenDim)
    {
      ghost var p := Parameters();
      ghost var q := CDUpdate(p, Vs0, Vsk, Hp0, Hpk, lr, visibleDim, hiddenDim);
      var gW := WeightGradient(Vs0, Vsk, Hp0, Hpk, visibleDim, hiddenDim);
      SubtractMatrix(W, seq(visibleDim, i requires 0 <= i < visibleDim =>
                          seq(hiddenDim, j requires 0 <= j < hiddenDim => lr * gW[i][j])));
      assert Mat(W) == q.W by {
        forall i | 0 <= i < visibleDim ensures Mat(W)[i] == q.W[i] { }
      }
      var gh := HiddenBiasGradient(Vs0, Vsk, Hp0, Hpk, visibleDim, hiddenDim);
      SubtractVector(hBias, seq(hiddenDim, j requires 0 <= j < hiddenDim => lr * gh[j]));
      assert hBias[..] == q.hBias;
      var gv := VisibleBiasGradient(Vs0, Vsk, Hp0, Hpk, visibleDim, hiddenDim);
      SubtractVector(vBias, seq(visibleDim, i requires 0 <= i < visibleDim => lr * gv[i]));
      assert vBias[..] == q.vBias;
    }
  }

  /** `a -= d` on a two-dimensional tensor. */
  method SubtractMatrix(a: array2<real>, d: Matrix)
    requires IsMatrix(d, a.Length0, a.Length1)
    modifies a
    ensures forall i, j :: 0 <= i < a.Length0 && 0 <= j < a.Length1 ==> a[i, j] == old(a[i, j]) - d[i][j]
  {
    var i := 0;
    while i < a.Length0
      invariant 0 <= i <= a.Length0
      invariant forall r, c :: 0 <= r < i && 0 <= c < a.Length1 ==> a[r, c] == old(a[r, c]) - d[r][c]
      invariant forall r, c :: i <= r < a.Length0 && 0 <= c < a.Length1 ==> a[r, c] == old(a[r, c])
    {
      var j := 0;
      while j < a.Length1
        invariant 0 <= j <= a.Length1
        invariant forall r, c :: 0 <= r < i && 0 <= c < a.Length1 ==> a[r, c] == old(a[r, c]) - d[r][c]
        invariant forall c :: 0 <= c < j ==> a[i, c] == old(a[i, c]) - d[i][c]
        invariant forall r, c :: (i < r < a.Length0 || (r == i && j <= c)) && 0 <= c < a.Length1 ==> a[r, c] == old(a[r, c])
      {
        a[i, j] := a[i, j] - d[i][j];
        j := j + 1;
      }
      i := i + 1;
    }
  }

  /** `a -= d` on a one-dimensional tensor. */
  method SubtractVector(a: array<real>, d: Vector)
    requires |d| == a.Length
    modifies a
    ensures forall i :: 0 <= i < a.Length ==> a[i] == old(a[i]) - d[i]
  {
    var i := 0;
    while i < a.Length
      invariant 0 <= i <= a.Length
      invariant forall k :: 0 <= k < i ==> a[k] == old(a[k]) - d[k]
      invariant forall k :: i <= k < a.Length ==> a[k] == old(a[k])
    {
      a[i] := a[i] - d[i];
      i := i + 1;
    }
  }
}
