/** The network-level passes as functions on the layer list: the forward
    pass from the input layer up, the backward pass from the output layer
    down, one training step, and the epochs of training over a dataset. */
module Passes {
  import opened Numeric
  import opened Tasks
  import opened Layers
  import opened Topology

  /** A layer list the passes can run on: non-empty, well formed, no null entry. */
  predicate Ready(ls: seq<Layer>)
  {
    |ls| >= 1 && WellFormed(ls) && forall i :: 0 <= i < |ls| ==> ls[i].Layer?
  }

  predicate SameShapes(a: seq<Layer>, b: seq<Layer>)
  {
    |a| == |b| && forall i {:trigger SameShape(a[i], b[i])} :: 0 <= i < |a| ==> SameShape(a[i], b[i])
  }

  /** Agreement on shapes is transitive. */
  lemma SameShapesTrans(a: seq<Layer>, b: seq<Layer>, c: seq<Layer>)
    requires SameShapes(a, b) && SameShapes(b, c)
    ensures SameShapes(a, c)
  {
    forall i | 0 <= i < |a|
      ensures SameShape(a[i], c[i])
    {
      assert SameShape(a[i], b[i]) && SameShape(b[i], c[i]);
    }
  }

  lemma ReadyFromShapes(a: seq<Layer>, b: seq<Layer>)
    requires Ready(a) && SameShapes(a, b)
    requires forall i :: 0 <= i < |b| ==> Shaped(b[i])
    ensures Ready(b)
  {
    forall i | 0 <= i < |b|
      ensures (b[i].kind == Input <==> i == 0)
      ensures i > 0 ==> b[i].numInputs == b[i - 1].numNeurons
    {
      assert SameShape(a[i], b[i]);
      if i > 0 { assert SameShape(a[i - 1], b[i - 1]); }
    }
  }

  // ---------------------------- forward ----------------------------

  /** The input vector's length must match the Input layer's neuron count
      whenever a dense layer reads it. */
  predicate InputFits(ls: seq<Layer>, x: seq<real>)
  {
    |ls| >= 1 && ls[0].Layer? && (|ls| == 1 || |x| == ls[0].numNeurons)
  }

  /** What layer i is fed: the input for layer 0, otherwise the activation
      of layer i - 1. */
  function Fed(ls: seq<Layer>, x: seq<real>, i: int): seq<real>
    requires 0 <= i < |ls| && (i > 0 ==> ls[i - 1].Layer?)
  {
    if i == 0 then x else ls[i - 1].activation
  }

  /** The forward pass over layers 0 .. k-1, in index order. */
  function ForwardUpTo(ls: seq<Layer>, x: seq<real>, k: nat, exp: real -> real): (r: seq<Layer>)
    requires Ready(ls) && InputFits(ls, x) && ExpPositive(exp) && k <= |ls|
    ensures |r| == |ls| && forall i :: 0 <= i < |r| ==> r[i].Layer?
    ensures forall i {:trigger SameParameters(ls[i], r[i])} :: 0 <= i < |ls| ==> SameParameters(ls[i], r[i]) && Shaped(r[i])
    ensures forall i {:trigger SameParameters(ls[i], r[i])} :: k <= i < |ls| ==> r[i] == ls[i]
    ensures k > 0 ==> Shaped(r[0]) && r[0].activation == x
    decreases k, 1
  {
    if k == 0 then ls
    else
      var p := ForwardUpTo(ls, x, k - 1, exp);
      ForwardUpToLayers(ls, x, k - 1, exp);
      p[k - 1 := ForwardLayer(p[k - 1], Fed(p, x, k - 1), exp)]
  }

  /** ForwardUpTo's postcondition, layer by layer. */
  lemma ForwardUpToLayers(ls: seq<Layer>, x: seq<real>, k: nat, exp: real -> real)
    requires Ready(ls) && InputFits(ls, x) && ExpPositive(exp) && k <= |ls|
    ensures var p := ForwardUpTo(ls, x, k, exp);
      forall i :: 0 <= i < |ls| ==> SameParameters(ls[i], p[i]) && Shaped(p[i]) && (k <= i ==> p[i] == ls[i])
    decreases k, 2
  {
    var p := ForwardUpTo(ls, x, k, exp);
    forall i | 0 <= i < |ls|
      ensures SameParameters(ls[i], p[i]) && Shaped(p[i]) && (k <= i ==> p[i] == ls[i])
    {
      assert SameParameters(ls[i], p[i]);
    }
  }

  /** The whole forward pass: every layer keeps its parameters, the Input
      layer holds the input, and the list stays ready. */
  function ForwardAll(ls: seq<Layer>, x: seq<real>, exp: real -> real): (r: seq<Layer>)
    requires Ready(ls) && InputFits(ls, x) && ExpPositive(exp)
    ensures Ready(r) && SameShapes(ls, r)
    ensures forall i {:trigger SameParameters(ls[i], r[i])} :: 0 <= i < |ls| ==> SameParameters(ls[i], r[i])
    ensures InputFits(r, x) && r[0].activation == x
  {
    var r := ForwardUpTo(ls, x, |ls|, exp);
    ForwardUpToShapes(ls, x, exp);
    assert SameShape(ls[0], r[0]);
    ReadyFromShapes(ls, r);
    r
  }

  lemma ForwardUpToShapes(ls: seq<Layer>, x: seq<real>, exp: real -> real)
    requires Ready(ls) && InputFits(ls, x) && ExpPositive(exp)
    ensures var r := ForwardUpTo(ls, x, |ls|, exp);
      SameShapes(ls, r) && forall i :: 0 <= i < |r| ==> Shaped(r[i])
  {
    var r := ForwardUpTo(ls, x, |ls|, exp);
    forall i | 0 <= i < |r|
      ensures SameShape(ls[i], r[i]) && Shaped(r[i])
    {
      assert SameParameters(ls[i], r[i]);
    }
  }

  lemma {:induction false} ForwardUpToFeeds(ls: seq<Layer>, x: seq<real>, k: nat, exp: real -> real)
    requires Ready(ls) && InputFits(ls, x) && ExpPositive(exp) && k <= |ls|
    ensures var r := ForwardUpTo(ls, x, k, exp);
      forall i :: 0 <= i < k ==>
        ForwardOk(ls[i], Fed(r, x, i)) && r[i] == ForwardLayer(ls[i], Fed(r, x, i), exp)
    decreases k
  {
    if k > 0 {
      ForwardUpToFeeds(ls, x, k - 1, exp);
      var p := ForwardUpTo(ls, x, k - 1, exp);
      var r := ForwardUpTo(ls, x, k, exp);
      assert SameParameters(ls[k - 1], p[k - 1]) && p[k - 1] == ls[k - 1];
      assert k >= 2 ==> SameParameters(ls[k - 2], p[k - 2]) && Shaped(p[k - 2]);
      assert r == p[k - 1 := ForwardLayer(p[k - 1], Fed(p, x, k - 1), exp)];
      forall i | 0 <= i < k
        ensures Fed(r, x, i) == Fed(p, x, i)
      {
        if i > 0 { assert r[i - 1] == p[i - 1]; }
      }
    }
  }

  /** Forward order: layer 0 is fed the input and every later layer is fed
      the activation its predecessor computed in the same pass. */
  lemma ForwardFeedsEachLayerItsPredecessor(ls: seq<Layer>, x: seq<real>, exp: real -> real)
    requires Ready(ls) && InputFits(ls, x) && ExpPositive(exp)
    ensures var r := ForwardAll(ls, x, exp);
      forall i :: 0 <= i < |ls| ==>
        ForwardOk(ls[i], Fed(r, x, i)) && r[i] == ForwardLayer(ls[i], Fed(r, x, i), exp)
  {
    ForwardUpToFeeds(ls, x, |ls|, exp);
  }

  /** A layer's forward step reads its parameters, never its old activation. */
  lemma ForwardLayerIgnoresActivation(a: Layer, b: Layer, input: seq<real>, exp: real -> real)
    requires SameParameters(a, b) && Shaped(b) && ForwardOk(a, input) && ExpPositive(exp)
    ensures ForwardOk(b, input) && ForwardLayer(a, input, exp) == ForwardLayer(b, input, exp)
  {
    if IsDense(a.kind) {
      forall n | 0 <= n < a.numNeurons ensures Raw(a, input, n) == Raw(b, input, n) { }
      match a.kind {
        case Sigmoid =>
          assert SigmoidActivations(a, input, exp) == SigmoidActivations(b, input, exp);
        case Relu =>
          assert ReluActivations(a, input) == ReluActivations(b, input);
        case Softmax =>
          assert Exps(a, input, exp) == Exps(b, input, exp);
          assert SoftmaxActivations(a, input, exp) == SoftmaxActivations(b, input, exp);
      }
    }
  }

  lemma {:induction false} ForwardUpToIgnoresActivations(a: seq<Layer>, b: seq<Layer>, x: seq<real>, k: nat, exp: real -> real)
    requires Ready(a) && Ready(b) && InputFits(a, x) && InputFits(b, x) && ExpPositive(exp)
    requires |a| == |b| && k <= |a|
    requires forall i :: 0 <= i < |a| ==> SameParameters(a[i], b[i])
    ensures forall i :: 0 <= i < k ==> ForwardUpTo(a, x, k, exp)[i] == ForwardUpTo(b, x, k, exp)[i]
    decreases k
  {
    if k > 0 {
      ForwardUpToIgnoresActivations(a, b, x, k - 1, exp);
      ForwardUpToFeeds(a, x, k, exp);
      ForwardUpToFeeds(b, x, k, exp);
      var ra := ForwardUpTo(a, x, k, exp);
      var rb := ForwardUpTo(b, x, k, exp);
      var pa := ForwardUpTo(a, x, k - 1, exp);
      var pb := ForwardUpTo(b, x, k - 1, exp);
      if k >= 2 {
        assert Fed(ra, x, k - 1) == pa[k - 2].activation == pb[k - 2].activation == Fed(rb, x, k - 1);
      }
      ForwardLayerIgnoresActivation(a[k - 1], b[k - 1], Fed(ra, x, k - 1), exp);
    }
  }

  /** Forward is deterministic given the parameters: a second pass on the
      same input reproduces the first exactly, so Predict called twice with
      no training in between returns the same vector. */
  lemma ForwardIsIdempotent(ls: seq<Layer>, x: seq<real>, exp: real -> real)
    requires Ready(ls) && InputFits(ls, x) && ExpPositive(exp)
    ensures ForwardAll(ForwardAll(ls, x, exp), x, exp) == ForwardAll(ls, x, exp)
  {
    var f := ForwardAll(ls, x, exp);
    forall i | 0 <= i < |ls|
      ensures SameParameters(f[i], ls[i])
    {
      assert SameParameters(ls[i], f[i]);
    }
    ForwardUpToIgnoresActivations(f, ls, x, |ls|, exp);
  }

  // ---------------------------- backward ----------------------------

  /** The backward pass reads a target per output neuron and, for layer 1,
      an Input activation covering its inputs. */
  predicate BackwardFits(ls: seq<Layer>, t: seq<real>)
  {
    && |ls| >= 1 && ls[0].Layer? && ls[|ls| - 1].Layer?
    && (|ls| == 1 || (|t| >= ls[|ls| - 1].numNeurons && |ls[0].activation| >= ls[0].numNeurons))
  }

  /** What layer j's backward step sees above it in the partly updated list
      p: nothing for the output layer, the already updated layer j + 1
      otherwise; and the matching target vector. */
  function Above(p: seq<Layer>, j: int): Layer
    requires 0 <= j < |p|
  {
    if j == |p| - 1 then Null else p[j + 1]
  }

  function TargetFor(p: seq<Layer>, t: seq<real>, j: int): seq<real>
    requires 0 <= j < |p| && (j + 1 < |p| ==> p[j + 1].Layer?)
  {
    if j == |p| - 1 then t else p[j + 1].activation
  }

  /** The backward pass over layers |ls|-1 down to j, and the sum of what
      they return. Layers below j are untouched. */
  function BackwardDown(ls: seq<Layer>, t: seq<real>, lr: real, j: nat): (r: (seq<Layer>, real))
    requires Ready(ls) && BackwardFits(ls, t) && 1 <= j <= |ls|
    ensures |r.0| == |ls|
    ensures forall k {:trigger SameShape(ls[k], r.0[k])} :: 0 <= k < |ls| ==>
              SameShape(ls[k], r.0[k]) && Shaped(r.0[k]) && r.0[k].activation == ls[k].activation
    ensures forall k :: 0 <= k < j ==> r.0[k] == ls[k]
    decreases |ls| - j, 1
  {
    if j == |ls| then (ls, 0.0)
    else
      var below := BackwardDown(ls, t, lr, j + 1);
      var p := below.0;
      BackwardDownLayers(ls, t, lr, j + 1);
      assert p[j] == ls[j] && p[j - 1] == ls[j - 1];
      var step := BackwardLayer(p[j], p[j - 1], Above(p, j), lr, TargetFor(p, t, j));
      (p[j := step.0], below.1 + step.1)
  }

  /** BackwardDown's postcondition on shapes, layer by layer. */
  lemma BackwardDownLayers(ls: seq<Layer>, t: seq<real>, lr: real, j: nat)
    requires Ready(ls) && BackwardFits(ls, t) && 1 <= j <= |ls|
    ensures var p := BackwardDown(ls, t, lr, j).0;
      forall k :: 0 <= k < |ls| ==> SameShape(ls[k], p[k]) && Shaped(p[k]) && p[k].activation == ls[k].activation
    decreases |ls| - j, 2
  {
    var p := BackwardDown(ls, t, lr, j).0;
    forall k | 0 <= k < |ls|
      ensures SameShape(ls[k], p[k]) && Shaped(p[k]) && p[k].activation == ls[k].activation
    {
      assert SameShape(ls[k], p[k]);
    }
  }

  /** Layer k of the result r is what its backward step makes of the
      original layer k, against the original layer k - 1 and what r holds
      above it. */
  predicate StepMatches(ls: seq<Layer>, r: seq<Layer>, t: seq<real>, lr: real, k: int)
  {
    && 1 <= k < |ls| == |r| && ls[k - 1].Layer? && (k + 1 < |r| ==> r[k + 1].Layer?)
    && BackwardOk(ls[k], ls[k - 1], Above(r, k), TargetFor(r, t, k))
    && r[k] == BackwardLayer(ls[k], ls[k - 1], Above(r, k), lr, TargetFor(r, t, k)).0
  }

  lemma {:induction false} BackwardDownOrder(ls: seq<Layer>, t: seq<real>, lr: real, j: nat)
    requires Ready(ls) && BackwardFits(ls, t) && 1 <= j <= |ls|
    ensures forall k :: j <= k < |ls| ==> StepMatches(ls, BackwardDown(ls, t, lr, j).0, t, lr, k)
    decreases |ls| - j
  {
    if j < |ls| {
      BackwardDownOrder(ls, t, lr, j + 1);
      var p := BackwardDown(ls, t, lr, j + 1).0;
      var r := BackwardDown(ls, t, lr, j).0;
      assert p[j] == ls[j] && p[j - 1] == ls[j - 1];
      assert j + 1 < |ls| ==> SameShape(ls[j + 1], p[j + 1]) && Shaped(p[j + 1]);
      var step := BackwardLayer(p[j], p[j - 1], Above(p, j), lr, TargetFor(p, t, j));
      assert r == p[j := step.0];
      assert Above(r, j) == Above(p, j) && TargetFor(r, t, j) == TargetFor(p, t, j);
      assert StepMatches(ls, r, t, lr, j);
      forall k | j < k < |ls|
        ensures StepMatches(ls, r, t, lr, k)
      {
        assert StepMatches(ls, p, t, lr, k);
        assert r[k] == p[k];
        if k + 1 < |ls| { assert r[k + 1] == p[k + 1]; }
        assert Above(r, k) == Above(p, k) && TargetFor(r, t, k) == TargetFor(p, t, k);
      }
    }
  }

  /** Backward order: walking from the output layer down to layer 1, each
      layer is updated against its predecessor as it was before the pass
      (layers below are not yet touched) and the layer above as already
      updated in this pass; the output layer reads the targets, every other
      layer the activation of the layer above. Layer 0 is never touched. */
  lemma BackwardVisitsTopDown(ls: seq<Layer>, t: seq<real>, lr: real)
    requires Ready(ls) && BackwardFits(ls, t)
    ensures var r := BackwardDown(ls, t, lr, 1).0;
      r[0] == ls[0] && forall k :: 1 <= k < |ls| ==> StepMatches(ls, r, t, lr, k)
  {
    BackwardDownOrder(ls, t, lr, 1);
  }

  /** The error the backward pass returns is never negative, and is zero
      when no layer is a Sigmoid layer (only Sigmoid accumulates a loss). */
  lemma {:induction false} BackwardErrorSign(ls: seq<Layer>, t: seq<real>, lr: real, j: nat)
    requires Ready(ls) && BackwardFits(ls, t) && 1 <= j <= |ls|
    ensures BackwardDown(ls, t, lr, j).1 >= 0.0
    ensures (forall k :: j <= k < |ls| ==> ls[k].kind != Sigmoid) ==> BackwardDown(ls, t, lr, j).1 == 0.0
    decreases |ls| - j
  {
    if j < |ls| {
      BackwardErrorSign(ls, t, lr, j + 1);
      var p := BackwardDown(ls, t, lr, j + 1).0;
      assert p[j] == ls[j];
      assert j + 1 < |ls| ==> SameShape(ls[j + 1], p[j + 1]) && Shaped(p[j + 1]);
      LossSign(p[j], Above(p, j), TargetFor(p, t, j));
    }
  }

  // ---------------------------- training ----------------------------

  /** One sample the training loop can run: its input fits the Input layer
      and its target covers the output layer. */
  predicate SampleFits(ls: seq<Layer>, x: seq<real>, t: seq<real>)
  {
    InputFits(ls, x) && ls[|ls| - 1].Layer? && (|ls| == 1 || |t| >= ls[|ls| - 1].numNeurons)
  }

  predicate DataFits(ls: seq<Layer>, inputs: seq<seq<real>>, targets: seq<seq<real>>)
  {
    |targets| >= |inputs| && forall s {:trigger SampleFits(ls, inputs[s], targets[s])} :: 0 <= s < |inputs| ==> SampleFits(ls, inputs[s], targets[s])
  }

  lemma DataFitsKept(a: seq<Layer>, b: seq<Layer>, inputs: seq<seq<real>>, targets: seq<seq<real>>)
    requires Ready(a) && Ready(b) && SameShapes(a, b) && DataFits(a, inputs, targets)
    ensures DataFits(b, inputs, targets)
  {
    assert SameShape(a[0], b[0]) && SameShape(a[|a| - 1], b[|b| - 1]);
    forall s | 0 <= s < |inputs|
      ensures SampleFits(b, inputs[s], targets[s])
    {
      assert SampleFits(a, inputs[s], targets[s]);
    }
  }

  /** The backward pass keeps every layer's shape. */
  lemma BackwardDownShapes(ls: seq<Layer>, t: seq<real>, lr: real)
    requires Ready(ls) && BackwardFits(ls, t)
    ensures var r := BackwardDown(ls, t, lr, 1).0;
      SameShapes(ls, r) && forall i :: 0 <= i < |r| ==> Shaped(r[i])
  {
    var r := BackwardDown(ls, t, lr, 1).0;
    forall i | 0 <= i < |r|
      ensures SameShape(ls[i], r[i]) && Shaped(r[i])
    {
      assert SameShape(ls[i], r[i]);
    }
  }

  /** One training sample: a forward pass on x, then a backward pass
      against t. Shapes are kept and the returned error is never negative. */
  function Step(ls: seq<Layer>, x: seq<real>, t: seq<real>, lr: real, exp: real -> real): (r: (seq<Layer>, real))
    requires Ready(ls) && SampleFits(ls, x, t) && ExpPositive(exp)
    ensures Ready(r.0) && SameShapes(ls, r.0)
    ensures r.1 >= 0.0
  {
    var f := ForwardAll(ls, x, exp);
    assert SameShape(ls[0], f[0]) && SameShape(ls[|ls| - 1], f[|f| - 1]);
    var b := BackwardDown(f, t, lr, 1);
    BackwardErrorSign(f, t, lr, 1);
    BackwardDownShapes(f, t, lr);
    ReadyFromShapes(f, b.0);
    SameShapesTrans(ls, f, b.0);
    b
  }

  predicate OrderFits(order: seq<int>, n: int)
  {
    forall s :: 0 <= s < |order| ==> 0 <= order[s] < n
  }

  /** The first `count` samples of one epoch, in the order given: the
      resulting layers and the error recorded after the first of them (0
      when count is 0). */
  function RunSamples(ls: seq<Layer>, inputs: seq<seq<real>>, targets: seq<seq<real>>, lr: real,
                      order: seq<int>, count: nat, exp: real -> real): (r: (seq<Layer>, real))
    requires Ready(ls) && DataFits(ls, inputs, targets) && ExpPositive(exp)
    requires count <= |order| && OrderFits(order, |inputs|)
    ensures Ready(r.0) && SameShapes(ls, r.0) && DataFits(r.0, inputs, targets)
    ensures r.1 >= 0.0
    decreases count
  {
    if count == 0 then (ls, 0.0)
    else
      var p := RunSamples(ls, inputs, targets, lr, order, count - 1, exp);
      var s := order[count - 1];
      var q := Step(p.0, inputs[s], targets[s], lr, exp);
      DataFitsKept(p.0, q.0, inputs, targets);
      SameShapesTrans(ls, p.0, q.0);
      (q.0, if count == 1 then q.1 else p.1)
  }

  /** The error an epoch records is the error of its first sample, taken on
      the layers the epoch started from. */
  lemma {:induction false} RunSamplesRecordsFirst(ls: seq<Layer>, inputs: seq<seq<real>>, targets: seq<seq<real>>, lr: real,
                                                  order: seq<int>, count: nat, exp: real -> real)
    requires Ready(ls) && DataFits(ls, inputs, targets) && ExpPositive(exp)
    requires 0 < count <= |order| && OrderFits(order, |inputs|)
    ensures RunSamples(ls, inputs, targets, lr, order, count, exp).1
            == Step(ls, inputs[order[0]], targets[order[0]], lr, exp).1
    decreases count
  {
    if count > 1 {
      RunSamplesRecordsFirst(ls, inputs, targets, lr, order, count - 1, exp);
    }
  }

  /** One more sample of the epoch: the next Step on the layers so far. */
  lemma RunSamplesNext(ls: seq<Layer>, inputs: seq<seq<real>>, targets: seq<seq<real>>, lr: real,
                       order: seq<int>, i: nat, exp: real -> real)
    requires Ready(ls) && DataFits(ls, inputs, targets) && ExpPositive(exp)
    requires i < |order| && OrderFits(order, |inputs|)
    ensures var p := RunSamples(ls, inputs, targets, lr, order, i, exp);
      && SampleFits(p.0, inputs[order[i]], targets[order[i]])
      && RunSamples(ls, inputs, targets, lr, order, i + 1, exp)
         == (Step(p.0, inputs[order[i]], targets[order[i]], lr, exp).0,
             if i == 0 then Step(p.0, inputs[order[i]], targets[order[i]], lr, exp).1 else p.1)
  {
  }

  /** Sample k of a record: it indexes the data, the layers before it can
      run it, and the next entry and its error are that Step. */
  ghost predicate TraceStep(states: seq<seq<Layer>>, errors: seq<real>, inputs: seq<seq<real>>, targets: seq<seq<real>>,
                            lr: real, order: seq<int>, exp: real -> real, k: nat)
    requires k < |errors| < |states| && k < |order|
  {
    && 0 <= order[k] < |inputs| <= |targets| && ExpPositive(exp)
    && Ready(states[k]) && SampleFits(states[k], inputs[order[k]], targets[order[k]])
    && (states[k + 1], errors[k]) == Step(states[k], inputs[order[k]], targets[order[k]], lr, exp)
  }

  /** A record of the first |errors| samples of an epoch: states[k] holds
      the layers before sample k (the last entry those after the final
      sample) and errors[k] the error sample k returned. */
  ghost predicate Traces(states: seq<seq<Layer>>, errors: seq<real>, inputs: seq<seq<real>>, targets: seq<seq<real>>,
                         lr: real, order: seq<int>, exp: real -> real)
  {
    && |states| == |errors| + 1 && |errors| <= |order|
    && forall k: nat :: k < |errors| ==> TraceStep(states, errors, inputs, targets, lr, order, exp, k)
  }

  /** A record extended by one more Step. */
  lemma TracesExtend(states: seq<seq<Layer>>, errors: seq<real>, inputs: seq<seq<real>>, targets: seq<seq<real>>,
                     lr: real, order: seq<int>, exp: real -> real, next: seq<Layer>, e: real)
    requires Traces(states, errors, inputs, targets, lr, order, exp) && |errors| < |order|
    requires 0 <= order[|errors|] < |inputs| <= |targets| && ExpPositive(exp)
    requires Ready(states[|errors|]) && SampleFits(states[|errors|], inputs[order[|errors|]], targets[order[|errors|]])
    requires (next, e) == Step(states[|errors|], inputs[order[|errors|]], targets[order[|errors|]], lr, exp)
    ensures Traces(states + [next], errors + [e], inputs, targets, lr, order, exp)
  {
    var s, r := states + [next], errors + [e];
    forall k | 0 <= k < |r|
      ensures TraceStep(s, r, inputs, targets, lr, order, exp, k)
    {
      assert s[k] == states[k];
      if k < |errors| {
        assert s[k + 1] == states[k + 1] && r[k] == errors[k];
        assert TraceStep(states, errors, inputs, targets, lr, order, exp, k);
      }
    }
  }

  /** A record without its last sample is still a record. */
  lemma TracesDropLast(states: seq<seq<Layer>>, errors: seq<real>, inputs: seq<seq<real>>, targets: seq<seq<real>>,
                       lr: real, order: seq<int>, exp: real -> real)
    requires Traces(states, errors, inputs, targets, lr, order, exp) && |errors| > 0
    ensures Traces(states[..|errors|], errors[..|errors| - 1], inputs, targets, lr, order, exp)
  {
    var s, r := states[..|errors|], errors[..|errors| - 1];
    forall k | 0 <= k < |r|
      ensures TraceStep(s, r, inputs, targets, lr, order, exp, k)
    {
      assert s[k] == states[k] && s[k + 1] == states[k + 1] && r[k] == errors[k];
      assert TraceStep(states, errors, inputs, targets, lr, order, exp, k);
    }
  }

  /** A record of an epoch agrees with RunSamples: its last entry is the
      layers RunSamples computes and its first error is the one recorded. */
  lemma {:induction false} TracesRunSamples(states: seq<seq<Layer>>, errors: seq<real>, inputs: seq<seq<real>>, targets: seq<seq<real>>,
                                            lr: real, order: seq<int>, exp: real -> real)
    requires Traces(states, errors, inputs, targets, lr, order, exp)
    requires Ready(states[0]) && DataFits(states[0], inputs, targets) && ExpPositive(exp) && OrderFits(order, |inputs|)
    ensures RunSamples(states[0], inputs, targets, lr, order, |errors|, exp)
            == (states[|errors|], if |errors| == 0 then 0.0 else errors[0])
    decreases |errors|
  {
    var n := |errors|;
    if n > 0 {
      var s, r := states[..n], errors[..n - 1];
      TracesDropLast(states, errors, inputs, targets, lr, order, exp);
      TracesRunSamples(s, r, inputs, targets, lr, order, exp);
      assert s[0] == states[0] && s[n - 1] == states[n - 1];
      assert n > 1 ==> r[0] == errors[0];
      assert TraceStep(states, errors, inputs, targets, lr, order, exp, n - 1);
      RunSamplesNext(states[0], inputs, targets, lr, order, n - 1, exp);
    }
  }

  /** An epoch order the training loop can use: a permutation of the sample
      indices with at least numItems entries. */
  predicate OrdersFit(orders: seq<seq<int>>, n: int, numItems: nat)
  {
    forall e :: 0 <= e < |orders| ==> IsPermutation(orders[e], n) && numItems <= |orders[e]|
  }

  /** The order of epoch e indexes the data and covers numItems samples. */
  lemma OrderAt(orders: seq<seq<int>>, e: nat, n: int, numItems: nat)
    requires OrdersFit(orders, n, numItems) && e < |orders|
    ensures OrderFits(orders[e], n) && numItems <= |orders[e]| && IsPermutation(orders[e], n)
  {
  }

  /** One epoch per order, each running the first numItems samples of its order. */
  function TrainEpochs(ls: seq<Layer>, inputs: seq<seq<real>>, targets: seq<seq<real>>, lr: real,
                       orders: seq<seq<int>>, numItems: nat, exp: real -> real): (r: seq<Layer>)
    requires Ready(ls) && DataFits(ls, inputs, targets) && ExpPositive(exp)
    requires OrdersFit(orders, |inputs|, numItems)
    ensures Ready(r) && SameShapes(ls, r) && DataFits(r, inputs, targets)
    decreases |orders|
  {
    if |orders| == 0 then ls
    else
      var before := TrainEpochs(ls, inputs, targets, lr, orders[..|orders| - 1], numItems, exp);
      var r := RunSamples(before, inputs, targets, lr, orders[|orders| - 1], numItems, exp).0;
      SameShapesTrans(ls, before, r);
      r
  }

  /** The error recorded by training: that of the first sample of the last
      epoch, never negative. */
  function LastTrainError(ls: seq<Layer>, inputs: seq<seq<real>>, targets: seq<seq<real>>, lr: real,
                          orders: seq<seq<int>>, numItems: nat, exp: real -> real): (e: real)
    requires Ready(ls) && DataFits(ls, inputs, targets) && ExpPositive(exp)
    requires OrdersFit(orders, |inputs|, numItems)
    requires |orders| > 0 && numItems > 0
    ensures e >= 0.0
  {
    var before := TrainEpochs(ls, inputs, targets, lr, orders[..|orders| - 1], numItems, exp);
    RunSamples(before, inputs, targets, lr, orders[|orders| - 1], numItems, exp).1
  }

  /** Epoch e of a training record: its order fits, the layers before it
      can run it, and the next entry and the recorded error are what
      RunSamples gives for that epoch. */
  ghost predicate EpochStep(states: seq<seq<Layer>>, errors: seq<real>, inputs: seq<seq<real>>, targets: seq<seq<real>>,
                            lr: real, orders: seq<seq<int>>, numItems: nat, exp: real -> real, e: nat)
    requires e < |errors| < |states| && e < |orders|
  {
    && ExpPositive(exp) && OrderFits(orders[e], |inputs|) && numItems <= |orders[e]|
    && Ready(states[e]) && DataFits(states[e], inputs, targets)
    && (states[e + 1], errors[e]) == RunSamples(states[e], inputs, targets, lr, orders[e], numItems, exp)
  }

  /** A record of the first |errors| epochs of training: states[e] holds the
      layers before epoch e (the last entry those after the final epoch)
      and errors[e] the error epoch e recorded. */
  ghost predicate EpochTraces(states: seq<seq<Layer>>, errors: seq<real>, inputs: seq<seq<real>>, targets: seq<seq<real>>,
                              lr: real, orders: seq<seq<int>>, numItems: nat, exp: real -> real)
  {
    && |states| == |errors| + 1 && |errors| <= |orders|
    && forall e: nat :: e < |errors| ==> EpochStep(states, errors, inputs, targets, lr, orders, numItems, exp, e)
  }

  /** A training record extended by one more epoch. */
  lemma EpochTracesExtend(states: seq<seq<Layer>>, errors: seq<real>, inputs: seq<seq<real>>, targets: seq<seq<real>>,
                          lr: real, orders: seq<seq<int>>, numItems: nat, exp: real -> real, next: seq<Layer>, err: real)
    requires EpochTraces(states, errors, inputs, targets, lr, orders, numItems, exp) && |errors| < |orders|
    requires ExpPositive(exp) && OrderFits(orders[|errors|], |inputs|) && numItems <= |orders[|errors|]|
    requires Ready(states[|errors|]) && DataFits(states[|errors|], inputs, targets)
    requires (next, err) == RunSamples(states[|errors|], inputs, targets, lr, orders[|errors|], numItems, exp)
    ensures EpochTraces(states + [next], errors + [err], inputs, targets, lr, orders, numItems, exp)
  {
    var s, r := states + [next], errors + [err];
    forall e | 0 <= e < |r|
      ensures EpochStep(s, r, inputs, targets, lr, orders, numItems, exp, e)
    {
      assert s[e] == states[e];
      if e < |errors| {
        assert s[e + 1] == states[e + 1] && r[e] == errors[e];
        assert EpochStep(states, errors, inputs, targets, lr, orders, numItems, exp, e);
      }
    }
  }

  /** A training record agrees with TrainEpochs over the first k orders it
      covers, and its error for epoch k - 1 is the one LastTrainError gives. */
  lemma {:induction false} EpochTracesTrainEpochs(states: seq<seq<Layer>>, errors: seq<real>, inputs: seq<seq<real>>, targets: seq<seq<real>>,
                                                  lr: real, orders: seq<seq<int>>, numItems: nat, exp: real -> real, k: nat)
    requires EpochTraces(states, errors, inputs, targets, lr, orders, numItems, exp) && k <= |errors|
    requires Ready(states[0]) && DataFits(states[0], inputs, targets) && ExpPositive(exp)
    requires OrdersFit(orders, |inputs|, numItems)
    ensures OrdersFit(orders[..k], |inputs|, numItems)
    ensures TrainEpochs(states[0], inputs, targets, lr, orders[..k], numItems, exp) == states[k]
    ensures k > 0 && numItems > 0 ==>
              LastTrainError(states[0], inputs, targets, lr, orders[..k], numItems, exp) == errors[k - 1]
    decreases k
  {
    if k == 0 {
      assert orders[..0] == [];
    } else {
      EpochTracesTrainEpochs(states, errors, inputs, targets, lr, orders, numItems, exp, k - 1);
      assert EpochStep(states, errors, inputs, targets, lr, orders, numItems, exp, k - 1);
      EpochUnfolds(states[0], inputs, targets, lr, orders, k - 1, numItems, exp);
    }
  }

  /** The epoch-by-epoch unfolding the training loop follows: epoch e runs
      on what epochs 0 .. e-1 left, and the last epoch's first sample gives
      the recorded error. */
  lemma EpochUnfolds(ls: seq<Layer>, inputs: seq<seq<real>>, targets: seq<seq<real>>, lr: real,
                     orders: seq<seq<int>>, e: nat, numItems: nat, exp: real -> real)
    requires Ready(ls) && DataFits(ls, inputs, targets) && ExpPositive(exp)
    requires OrdersFit(orders, |inputs|, numItems) && e < |orders|
    ensures OrdersFit(orders[..e], |inputs|, numItems) && OrdersFit(orders[..e + 1], |inputs|, numItems)
    ensures OrderFits(orders[e], |inputs|) && numItems <= |orders[e]|
    ensures var before := TrainEpochs(ls, inputs, targets, lr, orders[..e], numItems, exp);
      && TrainEpochs(ls, inputs, targets, lr, orders[..e + 1], numItems, exp)
         == RunSamples(before, inputs, targets, lr, orders[e], numItems, exp).0
      && (numItems > 0 ==>
            LastTrainError(ls, inputs, targets, lr, orders[..e + 1], numItems, exp)
            == RunSamples(before, inputs, targets, lr, orders[e], numItems, exp).1)
  {
    assert orders[..e + 1][..e] == orders[..e];
    assert orders[..e + 1][e] == orders[e];
  }
}
