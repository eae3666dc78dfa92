/** The deep autoencoders: `DAE`, unrolled from a stack of trained RBMs so
    that each RBM's weight matrix serves once as an encoder and once,
    transposed, as a decoder; and `Naive_DAE`, laid out from a list of layer
    sizes alone. */
module Autoencoder {
  import opened Tensor
  import opened Results
  import opened Rbm

  // ---------------------------------------------------------------------
  // DAE, as values

  /** One unrolled layer: a visible x hidden weight matrix (used as it is by
      an encoder, transposed by a decoder) and the bias that goes with it. */
  datatype Layer = Layer(W: Matrix, bias: Vector, visible: nat, hidden: nat)

  /** An encoder maps `visible` units to `hidden` ones, so its bias is a
      hidden bias. */
  predicate IsEncoder(l: Layer) {
    IsMatrix(l.W, l.visible, l.hidden) && |l.bias| == l.hidden
  }

  /** A decoder maps `hidden` units back to `visible` ones, so its bias is a
      visible bias. */
  predicate IsDecoder(l: Layer) {
    IsMatrix(l.W, l.visible, l.hidden) && |l.bias| == l.visible
  }

  /** Each encoder's output feeds the next one's input. */
  predicate EncoderChain(layers: seq<Layer>) {
    (forall i :: 0 <= i < |layers| ==> IsEncoder(layers[i])) &&
    (forall i :: 0 <= i < |layers| - 1 ==> layers[i].hidden == layers[i + 1].visible)
  }

  /** Each decoder's output feeds the next one's input. */
  predicate DecoderChain(layers: seq<Layer>) {
    (forall i :: 0 <= i < |layers| ==> IsDecoder(layers[i])) &&
    (forall i :: 0 <= i < |layers| - 1 ==> layers[i].visible == layers[i + 1].hidden)
  }

  /** `torch.mm(x, W) + hBias`: one encoder's activation. */
  function EncodeStep(x: Matrix, l: Layer): (a: Matrix)
    requires IsEncoder(l) && IsMatrix(x, |x|, l.visible)
    ensures IsMatrix(a, |x|, l.hidden)
  {
    AddRow(MatMul(x, l.W, l.hidden), l.bias)
  }

  /** `torch.sigmoid(torch.mm(x, W.t()) + vBias)`: one decoder's output. */
  function DecodeStep(x: Matrix, l: Layer, sigmoid: Squash): (p: Matrix)
    requires IsDecoder(l) && IsMatrix(x, |x|, l.hidden)
    ensures IsMatrix(p, |x|, l.visible) && IsOpenUnit(p)
  {
    Sigmoid(sigmoid, AddRow(MatMul(x, Transpose(l.W, l.hidden), l.visible), l.bias))
  }

  /** The sigmoid outputs `Vp` after the first `k` encoders: the input itself
      when `k` is 0, otherwise a batch as wide as encoder `k - 1`'s output
      with every entry in (0, 1). */
  function EncodedHidden(layers: seq<Layer>, v: Matrix, k: nat, sigmoid: Squash): (h: Matrix)
    requires EncoderChain(layers) && k <= |layers|
    requires |layers| > 0 ==> IsMatrix(v, |v|, layers[0].visible)
    ensures k == 0 ==> h == v
    ensures k > 0 ==> IsMatrix(h, |v|, layers[k - 1].hidden) && IsOpenUnit(h)
  {
    if k == 0 then v
    else Sigmoid(sigmoid, EncodeStep(EncodedHidden(layers, v, k - 1, sigmoid), layers[k - 1]))
  }

  /** What `DAE.encode` returns: the last encoder's activation, taken before
      its sigmoid (the input itself when there is no encoder). */
  function Encoded(layers: seq<Layer>, v: Matrix, sigmoid: Squash): (code: Matrix)
    requires EncoderChain(layers)
    requires |layers| > 0 ==> IsMatrix(v, |v|, layers[0].visible)
    ensures |layers| == 0 ==> code == v
    ensures |layers| > 0 ==> IsMatrix(code, |v|, layers[|layers| - 1].hidden)
  {
    if |layers| == 0 then v
    else EncodeStep(EncodedHidden(layers, v, |layers| - 1, sigmoid), layers[|layers| - 1])
  }

  /** The code stops exactly one sigmoid short of the full stack: squashing
      it gives the hidden outputs of all the encoders. */
  lemma EncodedSkipsLastSigmoid(layers: seq<Layer>, v: Matrix, sigmoid: Squash)
    requires EncoderChain(layers) && |layers| > 0 && IsMatrix(v, |v|, layers[0].visible)
    ensures Sigmoid(sigmoid, Encoded(layers, v, sigmoid)) == EncodedHidden(layers, v, |layers|, sigmoid)
  {
  }

  /** The output `Hp` after the first `k` decoders: the code itself when `k`
      is 0, otherwise a batch as wide as decoder `k - 1`'s output with every
      entry in (0, 1). */
  function Decoded(layers: seq<Layer>, h: Matrix, k: nat, sigmoid: Squash): (r: Matrix)
    requires DecoderChain(layers) && k <= |layers|
    requires |layers| > 0 ==> IsMatrix(h, |h|, layers[0].hidden)
    ensures k == 0 ==> r == h
    ensures k > 0 ==> IsMatrix(r, |h|, layers[k - 1].visible) && IsOpenUnit(r)
  {
    if k == 0 then h
    else DecodeStep(Decoded(layers, h, k - 1, sigmoid), layers[k - 1], sigmoid)
  }

  /** An RBM's parameters as the encoder `DAE` makes of them. */
  function EncoderOf(p: Params): (l: Layer)
    requires HasShape(p, |p.vBias|, |p.hBias|)
    ensures IsEncoder(l) && l.visible == |p.vBias| && l.hidden == |p.hBias|
  {
    Layer(p.W, p.hBias, |p.vBias|, |p.hBias|)
  }

  /** An RBM's parameters as the decoder `DAE` makes of them. */
  function DecoderOf(p: Params): (l: Layer)
    requires HasShape(p, |p.vBias|, |p.hBias|)
    ensures IsDecoder(l) && l.visible == |p.vBias| && l.hidden == |p.hBias|
  {
    Layer(p.W, p.vBias, |p.vBias|, |p.hBias|)
  }

  /** A stack of RBM parameters in which each layer's hidden units are the
      next layer's visible units. */
  predicate Stacked(stack: seq<Params>) {
    (forall k :: 0 <= k < |stack| ==> HasShape(stack[k], |stack[k].vBias|, |stack[k].hBias|)) &&
    (forall k :: 0 <= k < |stack| - 1 ==> |stack[k].hBias| == |stack[k + 1].vBias|)
  }

  /** The encoders of the unrolled stack, first layer first. */
  function Encoders(stack: seq<Params>): (layers: seq<Layer>)
    requires Stacked(stack)
    ensures |layers| == |stack|
    ensures forall k :: 0 <= k < |stack| ==> layers[k] == EncoderOf(stack[k])
  {
    seq(|stack|, k requires 0 <= k < |stack| => EncoderOf(stack[k]))
  }

  /** The decoders of the unrolled stack, last layer first. */
  function Decoders(stack: seq<Params>): (layers: seq<Layer>)
    requires Stacked(stack)
    ensures |layers| == |stack|
    ensures forall k :: 0 <= k < |stack| ==> layers[k] == DecoderOf(stack[|stack| - 1 - k])
  {
    Reversed(seq(|stack|, k requires 0 <= k < |stack| => DecoderOf(stack[k])))
  }

  /** Unrolling a stack gives encoders that chain from the first layer's
      visible units to the last layer's hidden units, and decoders that chain
      back from there to the first layer's visible units. */
  lemma UnrolledChains(stack: seq<Params>)
    requires Stacked(stack)
    ensures EncoderChain(Encoders(stack)) && DecoderChain(Decoders(stack))
    ensures |stack| > 0 ==> Decoders(stack)[0].hidden == Encoders(stack)[|stack| - 1].hidden
    ensures |stack| > 0 ==> Decoders(stack)[|stack| - 1].visible == Encoders(stack)[0].visible
  {
    var n := |stack|;
    forall i | 0 <= i < n - 1
      ensures Decoders(stack)[i].visible == Decoders(stack)[i + 1].hidden
    {
      assert Decoders(stack)[i] == DecoderOf(stack[n - 1 - i]);
      assert Decoders(stack)[i + 1] == DecoderOf(stack[n - 1 - (i + 1)]);
      assert |stack[n - 2 - i].hBias| == |stack[n - 1 - i].vBias|;
    }
  }

  /** What `DAE.forward` returns for a stack: the code of `v` decoded again. */
  function Reconstruction(stack: seq<Params>, v: Matrix, sigmoid: Squash): (r: Matrix)
    requires Stacked(stack)
    requires |stack| > 0 ==> IsMatrix(v, |v|, |stack[0].vBias|)
    ensures |stack| == 0 ==> r == v
    ensures |stack| > 0 ==> IsMatrix(r, |v|, |stack[0].vBias|) && IsOpenUnit(r)
  {
    UnrolledChains(stack);
    Decoded(Decoders(stack), Encoded(Encoders(stack), v, sigmoid), |stack|, sigmoid)
  }

  /** The first encoder computes exactly the activation the bottom RBM feeds
      to its hidden units, and the first decoder applies the sigmoid to the
      activation the top RBM feeds to its visible units: the unrolled network
      is a deterministic pass through the same conditional probabilities. */
  lemma UnrolledMatchesRbm(bottom: RBM, top: RBM, v: Matrix, h: Matrix, sigmoid: Squash)
    requires bottom.Valid() && top.Valid()
    requires IsMatrix(v, |v|, bottom.visibleDim) && IsMatrix(h, |h|, top.hiddenDim)
    ensures EncodeStep(v, EncoderOf(bottom.Parameters())) == bottom.HiddenActivation(v)
    ensures DecodeStep(h, DecoderOf(top.Parameters()), sigmoid) == Sigmoid(sigmoid, top.VisibleActivation(h))
  {
  }

  // ---------------------------------------------------------------------
  // DAE, as an object

  /** A stack of RBMs in which each one's hidden layer is the next one's
      visible layer. */
  predicate StackedModels(models: seq<RBM>) {
    (forall k :: 0 <= k < |models| ==> models[k].Valid()) &&
    (forall k :: 0 <= k < |models| - 1 ==> models[k].hiddenDim == models[k + 1].visibleDim)
  }

  /** No tensor appears twice in the four lists of an autoencoder. */
  predicate Distinct(encs: seq<array2<real>>, ebs: seq<array<real>>, decs: seq<array2<real>>, dbs: seq<array<real>>)
    requires |ebs| == |encs| && |decs| == |encs| && |dbs| == |encs|
  {
    forall i, j :: 0 <= i < |encs| && 0 <= j < |encs| ==>
      encs[i] != decs[j] && ebs[i] != dbs[j] &&
      (i != j ==> encs[i] != encs[j] && decs[i] != decs[j] && ebs[i] != ebs[j] && dbs[i] != dbs[j])
  }

  /** Encoder weights `ws` with biases `bs`: each output width is the bias
      length and the next encoder's input width. */
  predicate EncoderListChains(ws: seq<array2<real>>, bs: seq<array<real>>)
    requires |bs| == |ws|
  {
    (forall i :: 0 <= i < |ws| ==> bs[i].Length == ws[i].Length1) &&
    (forall i :: 0 <= i < |ws| - 1 ==> ws[i].Length1 == ws[i + 1].Length0)
  }

  /** Decoder weights `ws` (used transposed) with biases `bs`: each output
      width is the bias length and the next decoder's input width. */
  predicate DecoderListChains(ws: seq<array2<real>>, bs: seq<array<real>>)
    requires |bs| == |ws|
  {
    (forall i :: 0 <= i < |ws| ==> bs[i].Length == ws[i].Length0) &&
    (forall i :: 0 <= i < |ws| - 1 ==> ws[i].Length0 == ws[i + 1].Length1)
  }

  /** Both lists chain, the decoders start where the encoders end, and they
      end where the encoders start. */
  predicate ListsChained(encs: seq<array2<real>>, ebs: seq<array<real>>, decs: seq<array2<real>>, dbs: seq<array<real>>)
    requires |ebs| == |encs| && |decs| == |encs| && |dbs| == |encs|
  {
    EncoderListChains(encs, ebs) && DecoderListChains(decs, dbs) &&
    (|encs| > 0 ==>
       decs[0].Length1 == encs[|encs| - 1].Length1 && decs[|encs| - 1].Length0 == encs[0].Length0)
  }

  class DAE {
    // The parameter lists are fixed at construction; the tensors in them
    // belong to the autoencoder alone.
    const encoders: seq<array2<real>>
    const encoderBiases: seq<array<real>>
    const decoders: seq<array2<real>>
    const decoderBiases: seq<array<real>>

    /** The four lists have one entry per unrolled RBM. */
    predicate Valid() {
      |encoderBiases| == |encoders| && |decoders| == |encoders| && |decoderBiases| == |encoders|
    }

    /** No two parameter tensors are the same object: in particular the
        encoder and the decoder made from one RBM's `W` are separate copies,
        so updating one leaves the other as it was. */
    predicate Independent()
      requires Valid()
    {
      Distinct(encoders, encoderBiases, decoders, decoderBiases)
    }

    /** Each encoder's output width is its bias length and the next
        encoder's input width. */
    predicate EncodersChain()
      requires Valid()
    {
      EncoderListChains(encoders, encoderBiases)
    }

    /** Each decoder's output width is its bias length and the next
        decoder's input width. */
    predicate DecodersChain()
      requires Valid()
    {
      DecoderListChains(decoders, decoderBiases)
    }

    /** Both lists chain, the decoders start where the encoders end, and they
        end where the encoders start. */
    predicate Chained()
      requires Valid()
    {
      ListsChained(encoders, encoderBiases, decoders, decoderBiases)
    }

    /** The current encoder parameters, as values. */
    ghost function EncoderLayers(): (layers: seq<Layer>)
      reads encoders, encoderBiases
      requires Valid()
      ensures |layers| == |encoders|
      ensures forall i :: 0 <= i < |encoders| ==>
        layers[i] == Layer(Mat(encoders[i]), encoderBiases[i][..], encoders[i].Length0, encoders[i].Length1)
      ensures EncodersChain() ==> EncoderChain(layers)
    {
      seq(|encoders|, i requires 0 <= i < |encoders| reads encoders, encoderBiases =>
        Layer(Mat(encoders[i]), encoderBiases[i][..], encoders[i].Length0, encoders[i].Length1))
    }

    /** The current decoder parameters, as values. */
    ghost function DecoderLayers(): (layers: seq<Layer>)
      reads decoders, decoderBiases
      requires Valid()
      ensures |layers| == |decoders|
      ensures forall i :: 0 <= i < |decoders| ==>
        layers[i] == Layer(Mat(decoders[i]), decoderBiases[i][..], decoders[i].Length0, decoders[i].Length1)
      ensures DecodersChain() ==> DecoderChain(layers)
    {
      seq(|decoders|, i requires 0 <= i < |decoders| reads decoders, decoderBiases =>
        Layer(Mat(decoders[i]), decoderBiases[i][..], decoders[i].Length0, decoders[i].Length1))
    }

    /** Unrolls `models`: encoder k is a copy of model k's `W` and `hBias`,
        decoder k a copy of the `W` and `vBias` of model `n - 1 - k`. Every
        tensor is a fresh copy, so later training of the models does not
        reach the autoencoder. */
    constructor (models: seq<RBM>)
      requires forall k :: 0 <= k < |models| ==> models[k].Valid()
      ensures Valid() && |encoders| == |models| && Independent()
      ensures forall k :: 0 <= k < |models| ==>
        fresh(encoders[k]) && fresh(encoderBiases[k]) && fresh(decoders[k]) && fresh(decoderBiases[k])
      ensures forall k :: 0 <= k < |models| ==>
        IsCopy(encoders[k], models[k].W) && encoderBiases[k][..] == models[k].hBias[..]
      ensures forall k :: 0 <= k < |models| ==>
        IsCopy(decoders[k], models[|models| - 1 - k].W) &&
        decoderBiases[k][..] == models[|models| - 1 - k].vBias[..]
      ensures StackedModels(models) ==> Chained()
    {
      var encs, ebs, decs, dbs := Unroll(models);
      encoders := encs;
      encoderBiases := ebs;
      decoders := decs;
      decoderBiases := dbs;
    }

    /** `DAE.encode`: the last encoder's activation, before its sigmoid. */
    method Encode(v: Matrix, sigmoid: Squash) returns (code: Matrix)
      requires Valid() && EncodersChain()
      requires |encoders| > 0 ==> IsMatrix(v, |v|, encoders[0].Length0)
      ensures code == Encoded(EncoderLayers(), v, sigmoid)
    {
      var Vp := v;
      var activation := v;
      for i := 0 to |encoders|
        invariant Vp == EncodedHidden(EncoderLayers(), v, i, sigmoid)
        invariant i == 0 ==> activation == v
        invariant i > 0 ==> activation == EncodeStep(EncodedHidden(EncoderLayers(), v, i - 1, sigmoid), EncoderLayers()[i - 1])
      {
        var W := encoders[i];
        var hBias := encoderBiases[i];
        activation := AddRow(MatMul(Vp, Mat(W), W.Length1), hBias[..]);
        Vp := Sigmoid(sigmoid, activation);
      }
      code := activation;
    }

    /** `DAE.decode`: the code passed through every decoder, each followed by
        a sigmoid. */
    method Decode(h: Matrix, sigmoid: Squash) returns (r: Matrix)
      requires Valid() && DecodersChain()
      requires |decoders| > 0 ==> IsMatrix(h, |h|, decoders[0].Length1)
      ensures r == Decoded(DecoderLayers(), h, |decoders|, sigmoid)
    {
      var Hp := h;
      for i := 0 to |encoders|
        invariant Hp == Decoded(DecoderLayers(), h, i, sigmoid)
      {
        var W := decoders[i];
        var vBias := decoderBiases[i];
        var activation := AddRow(MatMul(Hp, Transpose(Mat(W), W.Length1), W.Length0), vBias[..]);
        Hp := Sigmoid(sigmoid, activation);
      }
      r := Hp;
    }

    /** `DAE.forward`: a reconstruction of `v`, with the same shape as `v` and
        every entry in (0, 1) (or `v` itself when nothing was unrolled). */
    method Forward(v: Matrix, sigmoid: Squash) returns (r: Matrix)
      requires Valid() && Chained()
      requires |encoders| > 0 ==> IsMatrix(v, |v|, encoders[0].Length0)
      ensures r == Decoded(DecoderLayers(), Encoded(EncoderLayers(), v, sigmoid), |decoders|, sigmoid)
      ensures |encoders| == 0 ==> r == v
      ensures |encoders| > 0 ==> IsMatrix(r, |v|, encoders[0].Length0) && IsOpenUnit(r)
    {
      var code := Encode(v, sigmoid);
      r := Decode(code, sigmoid);
    }
  }

  /** The four parameter lists of the autoencoder unrolled from `models`:
      fresh copies of each model's `W` and `hBias` in model order, and of
      each model's `W` and `vBias` in reverse order, no two of them the
      same object. */
  method Unroll(models: seq<RBM>)
      returns (encs: seq<array2<real>>, ebs: seq<array<real>>, decs: seq<array2<real>>, dbs: seq<array<real>>)
    requires forall k :: 0 <= k < |models| ==> models[k].Valid()
    ensures |encs| == |models| && |ebs| == |models| && |decs| == |models| && |dbs| == |models|
    ensures forall k :: 0 <= k < |models| ==> fresh(encs[k]) && fresh(ebs[k]) && fresh(decs[k]) && fresh(dbs[k])
    ensures forall k :: 0 <= k < |models| ==>
      IsCopy(encs[k], models[k].W) && ebs[k][..] == models[k].hBias[..]
    ensures forall k :: 0 <= k < |models| ==>
      IsCopy(decs[k], models[|models| - 1 - k].W) && dbs[k][..] == models[|models| - 1 - k].vBias[..]
    ensures Distinct(encs, ebs, decs, dbs)
    ensures StackedModels(models) ==> ListsChained(encs, ebs, decs, dbs)
  {
    var forward: seq<array2<real>>, forwardBiases: seq<array<real>>;
    encs, ebs, forward, forwardBiases := CloneModels(models);
    var n := |models|;
    decs, dbs := Reversed(forward), Reversed(forwardBiases);
    ReversedCopies(models, forward, forwardBiases);
    forall k | 0 <= k < n
      ensures fresh(decs[k]) && fresh(dbs[k])
    {
      assert decs[k] == forward[n - 1 - k] && dbs[k] == forwardBiases[n - 1 - k];
    }
    if StackedModels(models) {
      CopiesChain(models, encs, ebs, decs, dbs);
    }
  }

  /** Copies of every model's `W` (twice), `hBias` and `vBias`, in model
      order, no two of them the same object. */
  method CloneModels(models: seq<RBM>)
      returns (encs: seq<array2<real>>, ebs: seq<array<real>>, decs: seq<array2<real>>, dbs: seq<array<real>>)
    requires forall k :: 0 <= k < |models| ==> models[k].Valid()
    ensures |encs| == |models| && |ebs| == |models| && |decs| == |models| && |dbs| == |models|
    ensures forall i :: 0 <= i < |models| ==>
      fresh(encs[i]) && fresh(ebs[i]) && fresh(decs[i]) && fresh(dbs[i])
    ensures forall i :: 0 <= i < |models| ==>
      IsCopy(encs[i], models[i].W) && IsCopy(decs[i], models[i].W) &&
      ebs[i][..] == models[i].hBias[..] && dbs[i][..] == models[i].vBias[..]
    ensures forall i, j :: 0 <= i < |models| && 0 <= j < |models| ==> encs[i] != decs[j]
    ensures forall i, j :: 0 <= i < |models| && 0 <= j < |models| ==> ebs[i] != dbs[j]
    ensures forall i, j :: 0 <= i < j < |models| ==> encs[i] != encs[j] && decs[i] != decs[j]
    ensures forall i, j :: 0 <= i < j < |models| ==> ebs[i] != ebs[j] && dbs[i] != dbs[j]
  {
    var weights := seq(|models|, i requires 0 <= i < |models| => models[i].W);
    var hBiases := seq(|models|, i requires 0 <= i < |models| => models[i].hBias);
    var vBiases := seq(|models|, i requires 0 <= i < |models| => models[i].vBias);
    encs, ebs := CloneLayers(weights, hBiases);
    decs, dbs := CloneLayers(weights, vBiases);
  }

  /** Fresh copies of every weight matrix and bias vector, no two shared. */
  method CloneLayers(weights: seq<array2<real>>, biases: seq<array<real>>)
      returns (ws: seq<array2<real>>, bs: seq<array<real>>)
    requires |biases| == |weights|
    ensures |ws| == |weights| && |bs| == |weights|
    ensures forall i :: 0 <= i < |weights| ==> fresh(ws[i]) && fresh(bs[i])
    ensures forall i :: 0 <= i < |weights| ==> IsCopy(ws[i], weights[i]) && bs[i][..] == biases[i][..]
    ensures forall i, j :: 0 <= i < j < |weights| ==> ws[i] != ws[j] && bs[i] != bs[j]
  {
    ws, bs := [], [];
    for k := 0 to |weights|
      invariant |ws| == k && |bs| == k
      invariant forall i :: 0 <= i < k ==> fresh(ws[i]) && fresh(bs[i])
      invariant forall i :: 0 <= i < k ==> IsCopy(ws[i], weights[i]) && bs[i][..] == biases[i][..]
      invariant forall i, j :: 0 <= i < j < k ==> ws[i] != ws[j] && bs[i] != bs[j]
    {
      var w, b := CloneLayer(weights[k], biases[k]);
      ws, bs := ws + [w], bs + [b];
    }
  }

  method CloneLayer(weight: array2<real>, bias: array<real>) returns (w: array2<real>, b: array<real>)
    ensures fresh(w) && fresh(b)
    ensures IsCopy(w, weight) && b[..] == bias[..]
  {
    w := CloneMatrix(weight);
    b := CloneVector(bias);
  }

  /** Reversing the decoder copies pairs decoder k with model `n - 1 - k`. */
  lemma ReversedCopies(models: seq<RBM>, decs: seq<array2<real>>, dbs: seq<array<real>>)
    requires |decs| == |models| && |dbs| == |models|
    requires forall i :: 0 <= i < |models| ==> IsCopy(decs[i], models[i].W) && dbs[i][..] == models[i].vBias[..]
    ensures forall k :: 0 <= k < |models| ==>
      IsCopy(Reversed(decs)[k], models[|models| - 1 - k].W) &&
      Reversed(dbs)[k][..] == models[|models| - 1 - k].vBias[..]
  {
  }

  /** Copies of a stack keep its shapes: the encoders chain upwards, the
      reversed decoders chain downwards, and the two meet at both ends. */
  lemma CopiesChain(models: seq<RBM>, encs: seq<array2<real>>, ebs: seq<array<real>>,
                    decs: seq<array2<real>>, dbs: seq<array<real>>)
    requires StackedModels(models)
    requires |encs| == |models| && |ebs| == |models| && |decs| == |models| && |dbs| == |models|
    requires forall k :: 0 <= k < |models| ==>
      IsCopy(encs[k], models[k].W) && ebs[k][..] == models[k].hBias[..]
    requires forall k :: 0 <= k < |models| ==>
      IsCopy(decs[k], models[|models| - 1 - k].W) && dbs[k][..] == models[|models| - 1 - k].vBias[..]
    ensures ListsChained(encs, ebs, decs, dbs)
  {
    var n := |models|;
    forall i | 0 <= i < n - 1
      ensures decs[i].Length0 == decs[i + 1].Length1
    {
      assert decs[i].Length0 == models[n - 1 - i].visibleDim;
      assert decs[i + 1].Length1 == models[n - 2 - i].hiddenDim;
    }
  }

  /** The current parameters of a list of RBMs, as values. */
  ghost function Stack(models: seq<RBM>): (stack: seq<Params>)
    reads set k | 0 <= k < |models| :: models[k].W
    reads set k | 0 <= k < |models| :: models[k].hBias
    reads set k | 0 <= k < |models| :: models[k].vBias
    requires forall k :: 0 <= k < |models| ==> models[k].Valid()
    ensures |stack| == |models|
    ensures forall k :: 0 <= k < |models| ==> stack[k] == models[k].Parameters()
    ensures StackedModels(models) ==> Stacked(stack)
  {
    seq(|models|, k requires 0 <= k < |models|
      reads if 0 <= k < |models| then {models[k].W, models[k].hBias, models[k].vBias} else {} =>
        models[k].Parameters())
  }

  /** An autoencoder holding copies of a stack's tensors, as `new DAE(models)`
      leaves it, reads as the value-level unrolling of that stack: its
      encoders are `Encoders` and its decoders `Decoders` of the models'
      current parameters. */
  lemma UnrolledLayers(d: DAE, models: seq<RBM>)
    requires d.Valid() && StackedModels(models) && |d.encoders| == |models|
    requires forall k :: 0 <= k < |models| ==>
      IsCopy(d.encoders[k], models[k].W) && d.encoderBiases[k][..] == models[k].hBias[..]
    requires forall k :: 0 <= k < |models| ==>
      IsCopy(d.decoders[k], models[|models| - 1 - k].W) &&
      d.decoderBiases[k][..] == models[|models| - 1 - k].vBias[..]
    ensures Stacked(Stack(models))
    ensures d.EncoderLayers() == Encoders(Stack(models))
    ensures d.DecoderLayers() == Decoders(Stack(models))
  {
    var n := |models|;
    var stack := Stack(models);
    forall k | 0 <= k < n ensures d.EncoderLayers()[k] == Encoders(stack)[k] {
      CopyReads(d.encoders[k], models[k].W);
    }
    forall k | 0 <= k < n ensures d.DecoderLayers()[k] == Decoders(stack)[k] {
      CopyReads(d.decoders[k], models[n - 1 - k].W);
    }
  }

  /** `forward` on an autoencoder unrolled from a stack is the value-level
      `Reconstruction` of the stack. */
  lemma ForwardIsReconstruction(d: DAE, models: seq<RBM>, v: Matrix, sigmoid: Squash)
    requires d.Valid() && d.Chained() && StackedModels(models) && |d.encoders| == |models|
    requires forall k :: 0 <= k < |models| ==>
      IsCopy(d.encoders[k], models[k].W) && d.encoderBiases[k][..] == models[k].hBias[..]
    requires forall k :: 0 <= k < |models| ==>
      IsCopy(d.decoders[k], models[|models| - 1 - k].W) &&
      d.decoderBiases[k][..] == models[|models| - 1 - k].vBias[..]
    requires |models| > 0 ==> IsMatrix(v, |v|, models[0].visibleDim)
    ensures Stacked(Stack(models))
    ensures Decoded(d.DecoderLayers(), Encoded(d.EncoderLayers(), v, sigmoid), |d.decoders|, sigmoid)
         == Reconstruction(Stack(models), v, sigmoid)
  {
    UnrolledLayers(d, models);
  }

  /** Copies read as the same matrix. */
  lemma CopyReads(c: array2<real>, a: array2<real>)
    requires IsCopy(c, a)
    ensures Mat(c) == Mat(a)
  {
    forall i | 0 <= i < a.Length0 ensures Mat(c)[i] == Mat(a)[i] { }
  }

  /** `c` has the shape and the contents of `a`. */
  ghost predicate IsCopy(c: array2<real>, a: array2<real>)
    reads c, a
  {
    c.Length0 == a.Length0 && c.Length1 == a.Length1 &&
    forall i, j :: 0 <= i < a.Length0 && 0 <= j < a.Length1 ==> c[i, j] == a[i, j]
  }

  /** `W.clone()`: a fresh array with the same contents. */
  method CloneMatrix(a: array2<real>) returns (c: array2<real>)
    ensures fresh(c) && IsCopy(c, a)
  {
    c := new real[a.Length0, a.Length1]((i: nat, j: nat) reads a => if i < a.Length0 && j < a.Length1 then a[i, j] else 0.0);
  }

  /** `b.clone()`: a fresh array with the same contents. */
  method CloneVector(a: array<real>) returns (c: array<real>)
    ensures fresh(c) && c[..] == a[..]
  {
    c := new real[a.Length]((i: nat) reads a => if i < a.Length then a[i] else 0.0);
  }

  // ---------------------------------------------------------------------
  // Naive_DAE

  /** The shape of one `nn.Linear`: it maps `inFeatures` columns to
      `outFeatures` columns. */
  datatype LinearShape = LinearShape(inFeatures: nat, outFeatures: nat)

  /** The weights of one `nn.Linear`: `weight` is outFeatures x inFeatures
      and `bias` has outFeatures entries. */
  datatype Linear = Linear(weight: Matrix, bias: Vector)

  /** A `Naive_DAE` as laid out by its constructor: the layer sizes it was
      given and the shapes of its encoders and of its (reversed) decoders. */
  datatype NaiveLayout = NaiveLayout(layers: seq<int>, encoders: seq<LinearShape>, decoders: seq<LinearShape>)

  /** With `m + 1` layer sizes, encoder i maps size i to size i + 1 and
      decoder i maps size `m - i` back to size `m - 1 - i`. */
  predicate IsNaiveLayout(layers: seq<int>, L: NaiveLayout) {
    var m := |layers| - 1;
    |layers| >= 1 && L.layers == layers &&
    |L.encoders| == m && |L.decoders| == m &&
    (forall i :: 0 <= i < m ==>
       L.encoders[i].inFeatures == layers[i] && L.encoders[i].outFeatures == layers[i + 1]) &&
    (forall i :: 0 <= i < m ==>
       L.decoders[i].inFeatures == layers[m - i] && L.decoders[i].outFeatures == layers[m - 1 - i])
  }

  /** `Naive_DAE.__init__`: an empty list of sizes has no `layers[0]`
      (IndexError), and `nn.Linear` refuses a negative size (RuntimeError)
      as soon as there is a layer to build. */
  method NaiveInit(layers: seq<int>) returns (r: Result<NaiveLayout>)
    ensures r == Err(IndexError) <==> |layers| == 0
    ensures r == Err(RuntimeError) <==> |layers| >= 2 && exists k :: 0 <= k < |layers| && layers[k] < 0
    ensures r.Err? ==> r.error == IndexError || r.error == RuntimeError
    ensures r.Ok? ==> IsNaiveLayout(layers, r.value)
  {
    if |layers| == 0 {
      return Err(IndexError);
    }
    var encs: seq<LinearShape> := [];
    var decs: seq<LinearShape> := [];
    var prevLayer := layers[0];
    for k := 1 to |layers|
      invariant prevLayer == layers[k - 1]
      invariant |encs| == k - 1 && |decs| == k - 1
      invariant forall i :: 0 <= i < k - 1 ==>
        encs[i].inFeatures == layers[i] && encs[i].outFeatures == layers[i + 1] &&
        decs[i].inFeatures == layers[i + 1] && decs[i].outFeatures == layers[i]
      invariant k >= 2 ==> forall i :: 0 <= i < k ==> layers[i] >= 0
    {
      var layer := layers[k];
      if prevLayer < 0 || layer < 0 {
        return Err(RuntimeError);
      }
      encs := encs + [LinearShape(prevLayer, layer)];
      decs := decs + [LinearShape(layer, prevLayer)];
      prevLayer := layer;
    }
    r := Ok(NaiveLayout(layers, encs, Reversed(decs)));
  }

  /** `l` has the shape `s` asks for. */
  predicate Fits(l: Linear, s: LinearShape) {
    IsMatrix(l.weight, s.outFeatures, s.inFeatures) && |l.bias| == s.outFeatures
  }

  /** Weights for every shape, and the shapes chain output to input. */
  predicate FitsChain(ls: seq<Linear>, shapes: seq<LinearShape>) {
    |ls| == |shapes| &&
    (forall i :: 0 <= i < |shapes| ==> Fits(ls[i], shapes[i])) &&
    (forall i :: 0 <= i < |shapes| - 1 ==> shapes[i].outFeatures == shapes[i + 1].inFeatures)
  }

  /** `linear(x)`: `x.mm(weight.t()) + bias`. */
  function ApplyLinear(x: Matrix, l: Linear, s: LinearShape): (y: Matrix)
    requires Fits(l, s) && IsMatrix(x, |x|, s.inFeatures)
    ensures IsMatrix(y, |x|, s.outFeatures)
  {
    AddRow(MatMul(x, Transpose(l.weight, s.inFeatures), s.outFeatures), l.bias)
  }

  /** `x` after the first `k` decoders of `Naive_DAE.decode`, each followed
      by a sigmoid. */
  function NaiveDecoded(ls: seq<Linear>, shapes: seq<LinearShape>, x: Matrix, k: nat, sigmoid: Squash): (y: Matrix)
    requires FitsChain(ls, shapes) && k <= |shapes|
    requires |shapes| > 0 ==> IsMatrix(x, |x|, shapes[0].inFeatures)
    ensures k == 0 ==> y == x
    ensures k > 0 ==> IsMatrix(y, |x|, shapes[k - 1].outFeatures) && IsOpenUnit(y)
  {
    if k == 0 then x
    else Sigmoid(sigmoid, ApplyLinear(NaiveDecoded(ls, shapes, x, k - 1, sigmoid), ls[k - 1], shapes[k - 1]))
  }

  /** `x` after the first `k` encoders of the corrected `Naive_DAE.encode`:
      every encoder is followed by a sigmoid except the last one. */
  function NaiveEncoded(ls: seq<Linear>, shapes: seq<LinearShape>, x: Matrix, k: nat, sigmoid: Squash): (y: Matrix)
    requires FitsChain(ls, shapes) && k <= |shapes|
    requires |shapes| > 0 ==> IsMatrix(x, |x|, shapes[0].inFeatures)
    ensures k == 0 ==> y == x
    ensures k > 0 ==> IsMatrix(y, |x|, shapes[k - 1].outFeatures)
    ensures 0 < k < |shapes| ==> IsOpenUnit(y)
  {
    if k == 0 then x
    else
      var a := ApplyLinear(NaiveEncoded(ls, shapes, x, k - 1, sigmoid), ls[k - 1], shapes[k - 1]);
      if k - 1 != |shapes| - 1 then Sigmoid(sigmoid, a) else a
  }

  /** `Naive_DAE.encode` as written: the loop body calls `enc`, a name that
      is defined nowhere, so any model with an encoder raises NameError and
      only the empty model hands its input back. */
  function NaiveEncodeAsWritten(ls: seq<Linear>, x: Matrix): (r: Result<Matrix>)
    ensures r.Ok? <==> |ls| == 0
    ensures r.Ok? ==> r.value == x
    ensures r.Err? ==> r.error == NameError
  {
    if |ls| == 0 then Ok(x) else Err(NameError)
  }

  /** Every `Naive_DAE` built from two or more layer sizes has an encoder,
      so as written its `encode`, and with it `forward`, always raises
      NameError; the corrected encoder returns a code of the innermost
      size for the same input. */
  lemma NaiveEncodeAsWrittenFails(layers: seq<int>, L: NaiveLayout, ls: seq<Linear>, x: Matrix, sigmoid: Squash)
    requires IsNaiveLayout(layers, L) && |layers| >= 2 && FitsChain(ls, L.encoders)
    requires IsMatrix(x, |x|, L.encoders[0].inFeatures)
    ensures NaiveEncodeAsWritten(ls, x) == Err(NameError)
    ensures IsMatrix(NaiveEncoded(ls, L.encoders, x, |L.encoders|, sigmoid), |x|, layers[|layers| - 1] as nat)
  {
  }

  /** A layout's encoders chain from the outer size to the innermost one and
      its decoders chain back, so an encoder code fits the decoders and a
      reconstruction is as wide as the input. */
  lemma NaiveLayoutChains(layers: seq<int>, L: NaiveLayout)
    requires IsNaiveLayout(layers, L)
    ensures forall i :: 0 <= i < |L.encoders| - 1 ==> L.encoders[i].outFeatures == L.encoders[i + 1].inFeatures
    ensures forall i :: 0 <= i < |L.decoders| - 1 ==> L.decoders[i].outFeatures == L.decoders[i + 1].inFeatures
    ensures |layers| >= 2 ==>
      L.decoders[0].inFeatures == L.encoders[|layers| - 2].outFeatures &&
      L.decoders[|layers| - 2].outFeatures == L.encoders[0].inFeatures
  {
    var m := |layers| - 1;
    forall i | 0 <= i < m - 1
      ensures L.decoders[i].outFeatures == L.decoders[i + 1].inFeatures
    {
      assert L.decoders[i + 1].inFeatures == layers[m - (i + 1)];
    }
  }

  /** `Naive_DAE.forward` with the corrected encoder: the reconstruction has
      the input's shape, `|x|` rows of `layers[0]` columns, every entry in
      (0, 1). */
  lemma NaiveForwardShape(layers: seq<int>, L: NaiveLayout, encs: seq<Linear>, decs: seq<Linear>, x: Matrix, sigmoid: Squash)
    requires IsNaiveLayout(layers, L) && |layers| >= 2
    requires FitsChain(encs, L.encoders) && FitsChain(decs, L.decoders)
    requires IsMatrix(x, |x|, L.encoders[0].inFeatures)
    ensures L.decoders[0].inFeatures == L.encoders[|L.encoders| - 1].outFeatures
    ensures var r := NaiveDecoded(decs, L.decoders, NaiveEncoded(encs, L.encoders, x, |L.encoders|, sigmoid), |L.decoders|, sigmoid);
      IsMatrix(r, |x|, layers[0] as nat) && IsOpenUnit(r)
  {
    NaiveLayoutChains(layers, L);
  }

  /** `Naive_DAE.encode`, with `enc` read as the loop's `encoder`. */
  method NaiveEncode(ls: seq<Linear>, shapes: seq<LinearShape>, x: Matrix, sigmoid: Squash) returns (y: Matrix)
    requires FitsChain(ls, shapes)
    requires |shapes| > 0 ==> IsMatrix(x, |x|, shapes[0].inFeatures)
    ensures y == NaiveEncoded(ls, shapes, x, |shapes|, sigmoid)
  {
    y := x;
    for i := 0 to |ls|
      invariant y == NaiveEncoded(ls, shapes, x, i, sigmoid)
    {
      y := ApplyLinear(y, ls[i], shapes[i]);
      if i != |ls| - 1 {
        y := Sigmoid(sigmoid, y);
      }
    }
  }

  /** `Naive_DAE.decode`. */
  method NaiveDecode(ls: seq<Linear>, shapes: seq<LinearShape>, x: Matrix, sigmoid: Squash) returns (y: Matrix)
    requires FitsChain(ls, shapes)
    requires |shapes| > 0 ==> IsMatrix(x, |x|, shapes[0].inFeatures)
    ensures y == NaiveDecoded(ls, shapes, x, |shapes|, sigmoid)
    ensures |shapes| > 0 ==> IsMatrix(y, |x|, shapes[|shapes| - 1].outFeatures) && IsOpenUnit(y)
  {
    y := x;
    for i := 0 to |ls|
      invariant y == NaiveDecoded(ls, shapes, x, i, sigmoid)
    {
      y := Sigmoid(sigmoid, ApplyLinear(y, ls[i], shapes[i]));
    }
  }

  /** `Naive_DAE.forward` with the corrected encoder: a reconstruction of
      `x` with the input's shape and every entry in (0, 1), or `x` itself
      when only one layer size was given. */
  method NaiveForward(L: NaiveLayout, encs: seq<Linear>, decs: seq<Linear>, x: Matrix, sigmoid: Squash) returns (y: Matrix)
    requires IsNaiveLayout(L.layers, L)
    requires FitsChain(encs, L.encoders) && FitsChain(decs, L.decoders)
    requires |L.encoders| > 0 ==> IsMatrix(x, |x|, L.encoders[0].inFeatures)
    ensures |L.layers| == 1 ==> y == x
    ensures |L.layers| >= 2 ==> IsMatrix(y, |x|, L.layers[0] as nat) && IsOpenUnit(y)
  {
    var code := NaiveEncode(encs, L.encoders, x, sigmoid);
    if |L.layers| >= 2 {
      NaiveForwardShape(L.layers, L, encs, decs, x, sigmoid);
    }
    y := NaiveDecode(decs, L.decoders, code, sigmoid);
  }
}
