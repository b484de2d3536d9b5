/** One stage of the network: its state, its construction, its forward
    activation and its backward error rule, for the Input, Sigmoid, Relu and
    Softmax variants. A layer is a value; the methods return the updated
    value where the source updates the object in place. */
module Layers {
  import opened Numeric
  import opened Tasks

  /** An entry of the network's layer list. `Null` is the null pointer the
      network stores for a layer of type None; every other entry holds the
      fields of the source's layer object. The Input variant keeps `weights`
      empty and its `biases` at 1.0; they are never used. */
  datatype Layer =
    | Null
    | Layer(kind: LayerType, numNeurons: int, numInputs: int,
            activation: seq<real>, errors: seq<real>,
            biases: seq<real>, weights: seq<seq<real>>)

  /** The trainable variants, which own a weight matrix. */
  predicate IsDense(kind: LayerType)
  {
    kind == Sigmoid || kind == Relu || kind == Softmax
  }

  predicate IsMatrix(w: seq<seq<real>>, rows: int, cols: int)
  {
    |w| == rows && forall r :: 0 <= r < |w| ==> |w[r]| == cols
  }

  /** The shape invariant every constructed layer keeps: per-neuron vectors
      of length numNeurons and, for the dense variants, a numNeurons by
      numInputs weight matrix. The Input layer's activation is whatever it
      was last fed, so its length is not fixed. */
  predicate Shaped(l: Layer)
  {
    && l.Layer?
    && l.numNeurons >= 1 && l.numInputs >= 0
    && |l.errors| == l.numNeurons && |l.biases| == l.numNeurons
    && if l.kind == Input then l.weights == []
       else IsDense(l.kind) && |l.activation| == l.numNeurons
            && IsMatrix(l.weights, l.numNeurons, l.numInputs)
  }

  /** Same variant, sizes, errors and parameters: at most the activation differs. */
  predicate SameParameters(a: Layer, b: Layer)
  {
    && a.Layer? && b.Layer?
    && a.kind == b.kind && a.numNeurons == b.numNeurons && a.numInputs == b.numInputs
    && a.errors == b.errors && a.biases == b.biases && a.weights == b.weights
  }

  /** Same variant and sizes. */
  predicate SameShape(a: Layer, b: Layer)
  {
    a.Layer? && b.Layer? && a.kind == b.kind
    && a.numNeurons == b.numNeurons && a.numInputs == b.numInputs
  }

  // ---------------------------- construction ----------------------------

  function Filled(n: int, v: real): (s: seq<real>)
    requires n >= 0
    ensures |s| == n && forall i :: 0 <= i < n ==> s[i] == v
  {
    seq(n, _ => v)
  }

  /** The value uniform_real_distribution(lo, hi) makes of the engine's k-th
      canonical draw u(k). */
  function Draw(u: nat -> real, lo: real, hi: real, k: nat): real
  {
    lo + (hi - lo) * u(k)
  }

  /** The range of the initial weights and biases of a variant. */
  function InitLow(kind: LayerType): real
  {
    if kind == Sigmoid then -1.0 else if kind == Relu then -0.1 else 0.0
  }

  function InitHigh(kind: LayerType): real
  {
    if kind == Sigmoid then 1.0 else if kind == Relu then 0.1 else 0.0
  }

  /** A fresh engine per layer: neuron i draws its numInputs weights and then
      its bias, so weight (i, j) is draw i*(m+1)+j and bias i is draw
      i*(m+1)+m. Softmax layers keep the zeros the resize leaves. */
  function InitialWeights(kind: LayerType, n: int, m: int, u: nat -> real): (w: seq<seq<real>>)
    requires n >= 0 && m >= 0
    ensures IsMatrix(w, n, m)
  {
    if kind == Sigmoid || kind == Relu then
      seq(n, i requires 0 <= i < n =>
        seq(m, j requires 0 <= j < m => Draw(u, InitLow(kind), InitHigh(kind), i * (m + 1) + j)))
    else
      seq(n, _ => Filled(m, 0.0))
  }

  function InitialBiases(kind: LayerType, n: int, m: int, u: nat -> real): (b: seq<real>)
    requires n >= 0 && m >= 0
    ensures |b| == n
  {
    if kind == Sigmoid || kind == Relu then
      seq(n, i requires 0 <= i < n => Draw(u, InitLow(kind), InitHigh(kind), i * (m + 1) + m))
    else
      Filled(n, 0.0)
  }

  /** The layer the network constructs for a spec that passed validation:
      the null entry for None, otherwise a layer of the requested variant
      and sizes with zero activations and errors. */
  function NewLayer(kind: LayerType, n: int, m: int, u: nat -> real): (l: Layer)
    requires n >= 1 && m >= 0
    ensures kind == None <==> l.Null?
    ensures kind != None ==> Shaped(l) && l.kind == kind && l.numNeurons == n && l.numInputs == m
    ensures kind != None ==> l.activation == Filled(n, 0.0) && l.errors == Filled(n, 0.0)
  {
    match kind
    case None => Null
    case Input => Layer(Input, n, m, Filled(n, 0.0), Filled(n, 0.0), Filled(n, 1.0), [])
    case _ => Layer(kind, n, m, Filled(n, 0.0), Filled(n, 0.0),
                    InitialBiases(kind, n, m, u), InitialWeights(kind, n, m, u))
  }

  /** Initial parameters lie in the variant's range: [-1, 1) for Sigmoid,
      [-0.1, 0.1) for Relu, exactly 0 for Softmax; Input biases are 1. */
  lemma InitialParametersInRange(kind: LayerType, n: int, m: int, u: nat -> real)
    requires n >= 1 && m >= 0
    requires forall k :: 0.0 <= u(k) < 1.0
    ensures var l := NewLayer(kind, n, m, u);
      && (kind == Input ==> forall i :: 0 <= i < n ==> l.biases[i] == 1.0)
      && (IsDense(kind) ==> forall i :: 0 <= i < n ==> InitLow(kind) <= l.biases[i] <= InitHigh(kind))
      && (IsDense(kind) ==> forall i, j :: 0 <= i < n && 0 <= j < m ==>
            InitLow(kind) <= l.weights[i][j] <= InitHigh(kind))
      && (kind == Sigmoid || kind == Relu ==> forall i :: 0 <= i < n ==> l.biases[i] < InitHigh(kind))
      && (kind == Sigmoid || kind == Relu ==> forall i, j :: 0 <= i < n && 0 <= j < m ==>
            l.weights[i][j] < InitHigh(kind))
  {
    if kind == Sigmoid || kind == Relu {
      DrawnWeightsInRange(kind, n, m, u);
      DrawnBiasesInRange(kind, n, m, u);
    }
  }

  /** Every drawn weight of a Sigmoid or Relu layer lies in the variant's range. */
  lemma DrawnWeightsInRange(kind: LayerType, n: int, m: int, u: nat -> real)
    requires n >= 1 && m >= 0 && (kind == Sigmoid || kind == Relu)
    requires forall k :: 0.0 <= u(k) < 1.0
    ensures var l := NewLayer(kind, n, m, u);
      forall i, j :: 0 <= i < n && 0 <= j < m ==> InitLow(kind) <= l.weights[i][j] < InitHigh(kind)
  {
    var l := NewLayer(kind, n, m, u);
    forall i, j | 0 <= i < n && 0 <= j < m
      ensures InitLow(kind) <= l.weights[i][j] < InitHigh(kind)
    {
      var k: nat := i * (m + 1) + j;
      assert l.weights[i][j] == Draw(u, InitLow(kind), InitHigh(kind), k);
      assert 0.0 <= u(k) < 1.0;
    }
  }

  /** Every drawn bias of a Sigmoid or Relu layer lies in the variant's range. */
  lemma DrawnBiasesInRange(kind: LayerType, n: int, m: int, u: nat -> real)
    requires n >= 1 && m >= 0 && (kind == Sigmoid || kind == Relu)
    requires forall k :: 0.0 <= u(k) < 1.0
    ensures var l := NewLayer(kind, n, m, u);
      forall i :: 0 <= i < n ==> InitLow(kind) <= l.biases[i] < InitHigh(kind)
  {
    var l := NewLayer(kind, n, m, u);
    forall i | 0 <= i < n
      ensures InitLow(kind) <= l.biases[i] < InitHigh(kind)
    {
      var k: nat := i * (m + 1) + m;
      assert l.biases[i] == Draw(u, InitLow(kind), InitHigh(kind), k);
      assert 0.0 <= u(k) < 1.0;
    }
  }

  /** The Sigmoid and Relu constructors' fill loop: one engine, advanced
      once per weight of neuron i and then once for its bias. */
  method RandomParameters(kind: LayerType, n: int, m: int, u: nat -> real)
    returns (weights: seq<seq<real>>, biases: seq<real>)
    requires (kind == Sigmoid || kind == Relu) && n >= 0 && m >= 0
    ensures weights == InitialWeights(kind, n, m, u) && biases == InitialBiases(kind, n, m, u)
  {
    ghost var goalWeights := InitialWeights(kind, n, m, u);
    ghost var goalBiases := InitialBiases(kind, n, m, u);
    var lo, hi := InitLow(kind), InitHigh(kind);
    weights := seq(n, _ => Filled(m, 0.0));
    biases := Filled(n, 0.0);
    var draws: nat := 0;
    for i := 0 to n
      invariant draws == i * (m + 1)
      invariant IsMatrix(weights, n, m) && |biases| == n
      invariant forall r :: 0 <= r < i ==> weights[r] == goalWeights[r] && biases[r] == goalBiases[r]
    {
      for j := 0 to m
        invariant draws == i * (m + 1) + j
        invariant IsMatrix(weights, n, m)
        invariant forall r :: 0 <= r < i ==> weights[r] == goalWeights[r]
        invariant forall c :: 0 <= c < j ==> weights[i][c] == goalWeights[i][c]
      {
        weights := weights[i := weights[i][j := Draw(u, lo, hi, draws)]];
        draws := draws + 1;
      }
      assert weights[i] == goalWeights[i];
      biases := biases[i := Draw(u, lo, hi, draws)];
      draws := draws + 1;
      assert draws == (i + 1) * (m + 1);
    }
    assert weights == goalWeights && biases == goalBiases;
  }

  /** The layer constructors behind AddLayer: zeroed activation and errors,
      Input biases at 1, Softmax parameters left at 0, Sigmoid and Relu
      parameters drawn from the engine. */
  method Construct(kind: LayerType, n: int, m: int, u: nat -> real) returns (l: Layer)
    requires n >= 1 && m >= 0
    ensures l == NewLayer(kind, n, m, u)
  {
    match kind {
      case None =>
        l := Null;
      case Input =>
        l := Layer(Input, n, m, Filled(n, 0.0), Filled(n, 0.0), Filled(n, 1.0), []);
      case Softmax =>
        l := Layer(Softmax, n, m, Filled(n, 0.0), Filled(n, 0.0), Filled(n, 0.0), seq(n, _ => Filled(m, 0.0)));
      case Sigmoid =>
        var weights, biases := RandomParameters(kind, n, m, u);
        l := Layer(kind, n, m, Filled(n, 0.0), Filled(n, 0.0), biases, weights);
      case Relu =>
        var weights, biases := RandomParameters(kind, n, m, u);
        l := Layer(kind, n, m, Filled(n, 0.0), Filled(n, 0.0), biases, weights);
    }
  }

  // ---------------------------- forward ----------------------------

  /** The library exponential, abstracted to any positive function. */
  ghost predicate ExpPositive(exp: real -> real)
  {
    forall x :: exp(x) > 0.0
  }

  /** What Forward demands: a constructed layer and, for the dense variants,
      an input of exactly numInputs values (Sigmoid and Relu assert it;
      Softmax does not check it). The Input layer takes any input. */
  predicate ForwardOk(l: Layer, input: seq<real>)
  {
    Shaped(l) && (l.kind != Input ==> |input| == l.numInputs)
  }

  /** Neuron n's pre-activation: the inner product of the input with row n
      of the weights, plus the bias. */
  function Raw(l: Layer, input: seq<real>, n: int): real
    requires ForwardOk(l, input) && IsDense(l.kind) && 0 <= n < l.numNeurons
  {
    Dot(input, l.weights[n]) + l.biases[n]
  }

  function Logistic(x: real, exp: real -> real): real
    requires ExpPositive(exp)
  {
    1.0 / (1.0 + exp(-x))
  }

  /** std::max(0, x). */
  function Rectified(x: real): real
  {
    if 0.0 < x then x else 0.0
  }

  /** The Softmax numerators exp(raw[n]). */
  function Exps(l: Layer, input: seq<real>, exp: real -> real): (e: seq<real>)
    requires ForwardOk(l, input) && IsDense(l.kind) && ExpPositive(exp)
    ensures |e| == l.numNeurons
  {
    seq(l.numNeurons, n requires 0 <= n < l.numNeurons => exp(Raw(l, input, n)))
  }

  function SigmoidActivations(l: Layer, input: seq<real>, exp: real -> real): (a: seq<real>)
    requires ForwardOk(l, input) && IsDense(l.kind) && ExpPositive(exp)
    ensures |a| == l.numNeurons
  {
    seq(l.numNeurons, n requires 0 <= n < l.numNeurons => Logistic(Raw(l, input, n), exp))
  }

  function ReluActivations(l: Layer, input: seq<real>): (a: seq<real>)
    requires ForwardOk(l, input) && IsDense(l.kind)
    ensures |a| == l.numNeurons
  {
    seq(l.numNeurons, n requires 0 <= n < l.numNeurons => Rectified(Raw(l, input, n)))
  }

  function SoftmaxActivations(l: Layer, input: seq<real>, exp: real -> real): (a: seq<real>)
    requires ForwardOk(l, input) && IsDense(l.kind) && ExpPositive(exp)
    ensures |a| == l.numNeurons
  {
    var e := Exps(l, input, exp);
    SumOfPositives(e);
    seq(l.numNeurons, n requires 0 <= n < l.numNeurons => e[n] / Sum(e))
  }

  /** The activation vector each variant computes from its input. */
  function Activations(l: Layer, input: seq<real>, exp: real -> real): (a: seq<real>)
    requires ForwardOk(l, input) && ExpPositive(exp)
    ensures l.kind != Input ==> |a| == l.numNeurons
  {
    match l.kind
    case Sigmoid => SigmoidActivations(l, input, exp)
    case Relu => ReluActivations(l, input)
    case Softmax => SoftmaxActivations(l, input, exp)
    case _ => input
  }

  /** A forward pass overwrites the activation and nothing else. */
  function ForwardLayer(l: Layer, input: seq<real>, exp: real -> real): (r: Layer)
    requires ForwardOk(l, input) && ExpPositive(exp)
    ensures Shaped(r) && SameParameters(l, r)
    ensures l.kind == Input ==> r.activation == input
  {
    l.(activation := Activations(l, input, exp))
  }

  /** Sigmoid activations lie strictly between 0 and 1. */
  lemma SigmoidActivationsInUnitInterval(l: Layer, input: seq<real>, exp: real -> real)
    requires ForwardOk(l, input) && ExpPositive(exp) && l.kind == Sigmoid
    ensures forall n :: 0 <= n < l.numNeurons ==>
      0.0 < SigmoidActivations(l, input, exp)[n] < 1.0
  {
    forall n | 0 <= n < l.numNeurons
      ensures 0.0 < SigmoidActivations(l, input, exp)[n] < 1.0
    {
      var raw := Raw(l, input, n);
      UnitFraction(exp(-raw));
    }
  }

  lemma UnitFraction(e: real)
    requires e > 0.0
    ensures 0.0 < 1.0 / (1.0 + e) < 1.0
  {
  }

  /** Relu activations are never negative, equal the pre-activation where it
      is positive, and are zero elsewhere. */
  lemma ReluActivationsRectify(l: Layer, input: seq<real>)
    requires ForwardOk(l, input) && l.kind == Relu
    ensures forall n :: 0 <= n < l.numNeurons ==>
      && ReluActivations(l, input)[n] >= 0.0
      && ReluActivations(l, input)[n] >= Raw(l, input, n)
      && (Raw(l, input, n) > 0.0 ==> ReluActivations(l, input)[n] == Raw(l, input, n))
      && (Raw(l, input, n) <= 0.0 ==> ReluActivations(l, input)[n] == 0.0)
  {
  }

  /** Softmax activations are positive, at most 1, and sum to exactly 1. */
  lemma SoftmaxActivationsDistribution(l: Layer, input: seq<real>, exp: real -> real)
    requires ForwardOk(l, input) && ExpPositive(exp) && l.kind == Softmax
    ensures Sum(SoftmaxActivations(l, input, exp)) == 1.0
    ensures forall n :: 0 <= n < l.numNeurons ==> 0.0 < SoftmaxActivations(l, input, exp)[n] <= 1.0
  {
    var e := Exps(l, input, exp);
    var a := SoftmaxActivations(l, input, exp);
    SumOfPositives(e);
    var s := Sum(e);
    assert a == seq(|e|, i requires 0 <= i < |e| => e[i] / s);
    SumDivided(e, s);
    forall n | 0 <= n < l.numNeurons ensures 0.0 < a[n] <= 1.0 {
      assert a[n] == e[n] / s;
      FractionAtMostOne(e[n], s);
    }
  }

  lemma FractionAtMostOne(x: real, c: real)
    requires 0.0 < x <= c
    ensures 0.0 < x / c <= 1.0
  {
  }

  /** hhInputLayer::Forward: the activation becomes the input, unchecked. */
  method InputForward(l: Layer, input: seq<real>) returns (updated: Layer)
    requires Shaped(l) && l.kind == Input
    ensures updated == l.(activation := input)
  {
    updated := l.(activation := input);
  }

  /** hhSigmoidLayer::Forward. */
  method SigmoidForward(l: Layer, input: seq<real>, exp: real -> real) returns (updated: Layer)
    requires ForwardOk(l, input) && l.kind == Sigmoid && ExpPositive(exp)
    ensures updated == l.(activation := SigmoidActivations(l, input, exp))
  {
    var activation := l.activation;
    for n := 0 to l.numNeurons
      invariant |activation| == l.numNeurons
      invariant forall j :: 0 <= j < n ==> activation[j] == Logistic(Raw(l, input, j), exp)
    {
      var raw := DotProduct(input, l.weights[n]);
      raw := raw + l.biases[n];
      activation := activation[n := 1.0 / (1.0 + exp(-raw))];
    }
    assert activation == SigmoidActivations(l, input, exp);
    updated := l.(activation := activation);
  }

  /** hhReluLayer::Forward. */
  method ReluForward(l: Layer, input: seq<real>) returns (updated: Layer)
    requires ForwardOk(l, input) && l.kind == Relu
    ensures updated == l.(activation := ReluActivations(l, input))
  {
    var activation := l.activation;
    for n := 0 to l.numNeurons
      invariant |activation| == l.numNeurons
      invariant forall j :: 0 <= j < n ==> activation[j] == Rectified(Raw(l, input, j))
    {
      var raw := DotProduct(input, l.weights[n]);
      raw := raw + l.biases[n];
      activation := activation[n := if 0.0 < raw then raw else 0.0];
    }
    assert activation == ReluActivations(l, input);
    updated := l.(activation := activation);
  }

  /** Softmax's first loop: each neuron's exponentiated raw value, and
      their sum. */
  method SoftmaxExps(l: Layer, input: seq<real>, exp: real -> real) returns (activation: seq<real>, sum: real)
    requires ForwardOk(l, input) && l.kind == Softmax && ExpPositive(exp)
    ensures activation == Exps(l, input, exp) && sum == Sum(activation)
  {
    ghost var e := Exps(l, input, exp);
    activation := l.activation;
    sum := 0.0;
    for i := 0 to l.numNeurons
      invariant |activation| == l.numNeurons
      invariant forall j :: 0 <= j < i ==> activation[j] == e[j]
      invariant sum == Sum(e[..i])
    {
      var raw := DotProduct(input, l.weights[i]);
      raw := raw + l.biases[i];
      activation := activation[i := exp(raw)];
      assert e[..i + 1][..i] == e[..i];
      sum := sum + activation[i];
    }
    assert e[..l.numNeurons] == e;
  }

  /** hhSoftmaxLayer::Forward: exponentiate and accumulate, then normalise. */
  method SoftmaxForward(l: Layer, input: seq<real>, exp: real -> real) returns (updated: Layer)
    requires ForwardOk(l, input) && l.kind == Softmax && ExpPositive(exp)
    ensures updated == l.(activation := SoftmaxActivations(l, input, exp))
  {
    ghost var e := Exps(l, input, exp);
    var activation, sum := SoftmaxExps(l, input, exp);
    SumOfPositives(e);
    for i := 0 to l.numNeurons
      invariant |activation| == l.numNeurons
      invariant forall j :: 0 <= j < i ==> activation[j] == e[j] / sum
      invariant forall j :: i <= j < l.numNeurons ==> activation[j] == e[j]
    {
      activation := activation[i := activation[i] / sum];
    }
    assert activation == SoftmaxActivations(l, input, exp);
    updated := l.(activation := activation);
  }

  /** The virtual Forward call, dispatched on the variant. */
  method Forward(l: Layer, input: seq<real>, exp: real -> real) returns (updated: Layer)
    requires ForwardOk(l, input) && ExpPositive(exp)
    ensures updated == ForwardLayer(l, input, exp)
  {
    match l.kind
    case Input => updated := InputForward(l, input);
    case Sigmoid => updated := SigmoidForward(l, input, exp);
    case Relu => updated := ReluForward(l, input);
    case Softmax => updated := SoftmaxForward(l, input, exp);
  }

  // ---------------------------- update ----------------------------

  /** The gradient-descent step of the dense variants: every weight (n, i)
      moves by -lr * previous[i] * errors[n] and every bias n by
      -lr * errors[n]. */
  function Updated(l: Layer, previous: seq<real>, lr: real): (r: Layer)
    requires Shaped(l) && IsDense(l.kind) && |previous| >= l.numInputs
    ensures Shaped(r) && SameShape(l, r)
    ensures r.activation == l.activation && r.errors == l.errors
    ensures forall n, i :: 0 <= n < l.numNeurons && 0 <= i < l.numInputs ==>
      l.weights[n][i] - r.weights[n][i] == lr * previous[i] * l.errors[n]
    ensures forall n :: 0 <= n < l.numNeurons ==> l.biases[n] - r.biases[n] == lr * l.errors[n]
  {
    l.(weights := seq(l.numNeurons, n requires 0 <= n < l.numNeurons =>
                    seq(l.numInputs, i requires 0 <= i < l.numInputs =>
                      l.weights[n][i] - lr * previous[i] * l.errors[n])),
       biases := seq(l.numNeurons, n requires 0 <= n < l.numNeurons =>
                    l.biases[n] - lr * l.errors[n]))
  }

  /** With a zero learning rate the step changes nothing. */
  lemma UpdateAtZeroRateIsIdentity(l: Layer, previous: seq<real>)
    requires Shaped(l) && IsDense(l.kind) && |previous| >= l.numInputs
    ensures Updated(l, previous, 0.0) == l
  {
    var r := Updated(l, previous, 0.0);
    forall n | 0 <= n < l.numNeurons ensures r.weights[n] == l.weights[n] {
      assert |r.weights[n]| == |l.weights[n]|;
    }
    assert r.weights == l.weights;
    assert r.biases == l.biases;
  }

  /** hhDenseLayer::UpdateWeightsAndBiases. */
  method UpdateWeightsAndBiases(l: Layer, previous: Layer, learningRate: real) returns (updated: Layer)
    requires Shaped(l) && IsDense(l.kind)
    requires previous.Layer? && |previous.activation| >= l.numInputs
    ensures updated == Updated(l, previous.activation, learningRate)
  {
    ghost var goal := Updated(l, previous.activation, learningRate);
    var weights, biases := l.weights, l.biases;
    for n := 0 to l.numNeurons
      invariant IsMatrix(weights, l.numNeurons, l.numInputs) && |biases| == l.numNeurons
      invariant forall r :: 0 <= r < n ==> weights[r] == goal.weights[r] && biases[r] == goal.biases[r]
      invariant forall r :: n <= r < l.numNeurons ==> weights[r] == l.weights[r] && biases[r] == l.biases[r]
    {
      for i := 0 to l.numInputs
        invariant IsMatrix(weights, l.numNeurons, l.numInputs)
        invariant forall r :: 0 <= r < n ==> weights[r] == goal.weights[r]
        invariant forall r :: n < r < l.numNeurons ==> weights[r] == l.weights[r]
        invariant forall j :: 0 <= j < i ==> weights[n][j] == goal.weights[n][j]
        invariant forall j :: i <= j < l.numInputs ==> weights[n][j] == l.weights[n][j]
      {
        weights := weights[n := weights[n][i := weights[n][i] - learningRate * previous.activation[i] * l.errors[n]]];
      }
      assert weights[n] == goal.weights[n];
      biases := biases[n := biases[n] - learningRate * l.errors[n]];
    }
    assert weights == goal.weights;
    assert biases == goal.biases;
    updated := l.(weights := weights, biases := biases);
  }

  // ---------------------------- backward ----------------------------

  /** Column n of a matrix. */
  function Column(w: seq<seq<real>>, n: int): (c: seq<real>)
    requires 0 <= n && forall k :: 0 <= k < |w| ==> n < |w[k]|
    ensures |c| == |w|
  {
    seq(|w|, k requires 0 <= k < |w| => w[k][n])
  }

  /** The error that reaches neuron n from the layer above: the sum over k of
      next.errors[k] * next.weights[k][n], a transposed matrix-vector product. */
  function IncomingError(next: Layer, n: int): real
    requires Shaped(next) && IsDense(next.kind) && 0 <= n < next.numInputs
  {
    Dot(next.errors, Column(next.weights, n))
  }

  /** What the error rule reads: a constructed dense layer and either a
      target per neuron (output layer, `next` null) or a dense next layer
      fed by this one. */
  predicate ErrorRuleOk(l: Layer, next: Layer, targets: seq<real>)
  {
    && Shaped(l) && IsDense(l.kind)
    && (next.Null? ==> |targets| >= l.numNeurons)
    && (next.Layer? ==> Shaped(next) && IsDense(next.kind) && next.numInputs == l.numNeurons)
  }

  /** What Backward demands besides: a previous layer whose activation
      covers this layer's inputs. */
  predicate BackwardOk(l: Layer, previous: Layer, next: Layer, targets: seq<real>)
  {
    ErrorRuleOk(l, next, targets) && previous.Layer? && |previous.activation| >= l.numInputs
  }

  /** The derivative gate of Relu. */
  function Gate(p: real): real
  {
    if p > 0.0 then 1.0 else 0.0
  }

  /** Neuron n's new error under each variant's rule, p its activation.
      Sigmoid: output (p - t) * 2 * dp, hidden the incoming error, both then
      multiplied by dp = p * (1 - p), so the output applies dp twice.
      Relu: output (t - p) gated, hidden the incoming error gated.
      Softmax: output t - p, hidden the incoming error as is. */
  function ErrorAt(l: Layer, next: Layer, targets: seq<real>, n: int): real
    requires ErrorRuleOk(l, next, targets) && 0 <= n < l.numNeurons
  {
    var p := l.activation[n];
    match l.kind
    case Sigmoid =>
      var dp := p * (1.0 - p);
      (if next.Null? then (p - targets[n]) * 2.0 * dp else IncomingError(next, n)) * dp
    case Relu =>
      if next.Null? then (targets[n] - p) * Gate(p) else IncomingError(next, n) * Gate(p)
    case Softmax =>
      if next.Null? then targets[n] - p else IncomingError(next, n)
  }

  function NewErrors(l: Layer, next: Layer, targets: seq<real>): (e: seq<real>)
    requires ErrorRuleOk(l, next, targets)
    ensures |e| == l.numNeurons
  {
    seq(l.numNeurons, n requires 0 <= n < l.numNeurons => ErrorAt(l, next, targets, n))
  }

  /** The value Backward returns: the sum of squared new errors for Sigmoid;
      Relu and Softmax never accumulate theirs and return 0. */
  function Loss(l: Layer, next: Layer, targets: seq<real>): real
    requires ErrorRuleOk(l, next, targets)
  {
    if l.kind == Sigmoid then SumSquares(NewErrors(l, next, targets)) else 0.0
  }

  /** A backward step: store the new errors, then take the update step
      against the previous layer's activation. */
  function BackwardLayer(l: Layer, previous: Layer, next: Layer, lr: real, targets: seq<real>): (r: (Layer, real))
    requires BackwardOk(l, previous, next, targets)
    ensures Shaped(r.0) && SameShape(l, r.0) && r.0.activation == l.activation
    ensures r.0.errors == NewErrors(l, next, targets)
  {
    (Updated(l.(errors := NewErrors(l, next, targets)), previous.activation, lr),
     Loss(l, next, targets))
  }

  /** Sigmoid's returned loss is never negative; Relu's and Softmax's is 0. */
  lemma LossSign(l: Layer, next: Layer, targets: seq<real>)
    requires ErrorRuleOk(l, next, targets)
    ensures Loss(l, next, targets) >= 0.0
    ensures l.kind != Sigmoid ==> Loss(l, next, targets) == 0.0
  {
    SumSquaresNonNegative(NewErrors(l, next, targets));
  }

  /** Relu's new error is zero at every neuron whose activation is not
      positive, at the output and in hidden layers alike. */
  lemma ReluErrorsGated(l: Layer, next: Layer, targets: seq<real>)
    requires ErrorRuleOk(l, next, targets) && l.kind == Relu
    ensures forall n :: 0 <= n < l.numNeurons && l.activation[n] <= 0.0 ==>
      NewErrors(l, next, targets)[n] == 0.0
  {
  }

  /** A hidden layer's new error is the incoming error times the variant's
      local derivative: p * (1 - p) for Sigmoid, the gate for Relu, 1 for
      Softmax; the targets play no part. */
  lemma HiddenErrorsPropagate(l: Layer, next: Layer, targets: seq<real>, other: seq<real>)
    requires Shaped(l) && IsDense(l.kind)
    requires Shaped(next) && IsDense(next.kind) && next.numInputs == l.numNeurons
    ensures NewErrors(l, next, targets) == NewErrors(l, next, other)
    ensures forall n :: 0 <= n < l.numNeurons ==>
      NewErrors(l, next, targets)[n] == IncomingError(next, n) *
        (match l.kind
         case Sigmoid => l.activation[n] * (1.0 - l.activation[n])
         case Relu => Gate(l.activation[n])
         case _ => 1.0)
  {
    var a, b := NewErrors(l, next, targets), NewErrors(l, next, other);
    assert forall n :: 0 <= n < |a| ==> a[n] == b[n];
  }

  /** The inner loop every dense Backward runs for a hidden neuron n: sum
      the next layer's errors weighted by its column n. */
  method Propagate(next: Layer, n: int) returns (e: real)
    requires Shaped(next) && IsDense(next.kind) && 0 <= n < next.numInputs
    ensures e == IncomingError(next, n)
  {
    ghost var c := Column(next.weights, n);
    e := 0.0;
    for k := 0 to next.numNeurons
      invariant e == Dot(next.errors[..k], c)
    {
      assert next.errors[..k + 1][..k] == next.errors[..k];
      e := e + next.errors[k] * next.weights[k][n];
    }
    assert next.errors[..next.numNeurons] == next.errors;
  }

  /** The body of Sigmoid's neuron loop: the output or incoming error, then
      scaled by the derivative dp. */
  method SigmoidNeuronError(l: Layer, next: Layer, targets: seq<real>, n: int) returns (e: real)
    requires ErrorRuleOk(l, next, targets) && l.kind == Sigmoid && 0 <= n < l.numNeurons
    ensures e == ErrorAt(l, next, targets, n)
  {
    var predicted := l.activation[n];
    var dp := predicted * (1.0 - predicted);
    if next.Null? {
      e := (predicted - targets[n]) * 2.0 * dp;
    } else {
      e := Propagate(next, n);
    }
    e := e * dp;
  }

  /** Sigmoid's neuron loop: every neuron's new error, and the sum of
      their squares. */
  method SigmoidErrors(l: Layer, next: Layer, targets: seq<real>) returns (errors: seq<real>, error: real)
    requires ErrorRuleOk(l, next, targets) && l.kind == Sigmoid
    ensures errors == NewErrors(l, next, targets) && error == SumSquares(errors)
  {
    ghost var goal := NewErrors(l, next, targets);
    error := 0.0;
    errors := l.errors;
    for n := 0 to l.numNeurons
      invariant |errors| == l.numNeurons
      invariant forall j :: 0 <= j < n ==> errors[j] == goal[j]
      invariant error == SumSquares(goal[..n])
    {
      var e := SigmoidNeuronError(l, next, targets, n);
      errors := errors[n := e];
      assert goal[..n + 1][..n] == goal[..n];
      error := error + errors[n] * errors[n];
    }
    assert errors == goal;
    assert goal[..l.numNeurons] == goal;
  }

  /** hhSigmoidLayer::Backward. */
  method SigmoidBackward(l: Layer, previous: Layer, next: Layer, learningRate: real, targets: seq<real>)
    returns (updated: Layer, error: real)
    requires BackwardOk(l, previous, next, targets) && l.kind == Sigmoid
    ensures (updated, error) == BackwardLayer(l, previous, next, learningRate, targets)
  {
    var errors;
    errors, error := SigmoidErrors(l, next, targets);
    updated := UpdateWeightsAndBiases(l.(errors := errors), previous, learningRate);
  }

  /** hhReluLayer::Backward. */
  method ReluBackward(l: Layer, previous: Layer, next: Layer, learningRate: real, targets: seq<real>)
    returns (updated: Layer, error: real)
    requires BackwardOk(l, previous, next, targets) && l.kind == Relu
    ensures (updated, error) == BackwardLayer(l, previous, next, learningRate, targets)
  {
    ghost var goal := NewErrors(l, next, targets);
    error := 0.0;
    var errors := l.errors;
    for i := 0 to l.numNeurons
      invariant |errors| == l.numNeurons
      invariant forall j :: 0 <= j < i ==> errors[j] == goal[j]
    {
      var predicted := l.activation[i];
      if next.Null? {
        errors := errors[i := (targets[i] - predicted) * (if predicted > 0.0 then 1.0 else 0.0)];
      } else {
        var incoming := Propagate(next, i);
        errors := errors[i := incoming];
        errors := errors[i := errors[i] * (if predicted > 0.0 then 1.0 else 0.0)];
      }
    }
    assert errors == goal;
    updated := UpdateWeightsAndBiases(l.(errors := errors), previous, learningRate);
  }

  /** hhSoftmaxLayer::Backward. */
  method SoftmaxBackward(l: Layer, previous: Layer, next: Layer, learningRate: real, targets: seq<real>)
    returns (updated: Layer, error: real)
    requires BackwardOk(l, previous, next, targets) && l.kind == Softmax
    ensures (updated, error) == BackwardLayer(l, previous, next, learningRate, targets)
  {
    ghost var goal := NewErrors(l, next, targets);
    error := 0.0;
    var errors := l.errors;
    for i := 0 to l.numNeurons
      invariant |errors| == l.numNeurons
      invariant forall j :: 0 <= j < i ==> errors[j] == goal[j]
    {
      var predicted := l.activation[i];
      if next.Null? {
        errors := errors[i := targets[i] - predicted];
      } else {
        var incoming := Propagate(next, i);
        errors := errors[i := incoming];
      }
    }
    assert errors == goal;
    updated := UpdateWeightsAndBiases(l.(errors := errors), previous, learningRate);
  }

  /** The virtual Backward call, dispatched on the variant. */
  method Backward(l: Layer, previous: Layer, next: Layer, learningRate: real, targets: seq<real>)
    returns (updated: Layer, error: real)
    requires BackwardOk(l, previous, next, targets)
    ensures (updated, error) == BackwardLayer(l, previous, next, learningRate, targets)
  {
    match l.kind
    case Sigmoid => updated, error := SigmoidBackward(l, previous, next, learningRate, targets);
    case Relu => updated, error := ReluBackward(l, previous, next, learningRate, targets);
    case Softmax => updated, error := SoftmaxBackward(l, previous, next, learningRate, targets);
  }
}
