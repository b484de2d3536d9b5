/** The network object: its layer list, the task it is configured from, and
    the operations that build, run and train it in place. */
module Network {
  import opened Numeric
  import opened Tasks
  import opened Layers
  import opened Topology
  import opened Passes

  /** Samples per epoch: the batch size when positive, otherwise the whole set. */
  function ItemsPerEpoch(batchSize: int, count: nat): (k: nat)
    ensures batchSize > 0 ==> k == batchSize
    ensures batchSize <= 0 ==> k == count
  {
    if batchSize > 0 then batchSize else count
  }

  /** The sample count after one more epoch of b samples. */
  lemma NextMultiple(a: int, b: int)
    ensures (a + 1) * b == a * b + b
  {
  }

  class Model {
    var task: Task?
    var numEpochs: int
    var lastTrainError: real
    var layers: seq<Layer>
    var indices: seq<int>

    /** A new network has no task, no layers and no training history. */
    constructor ()
      ensures task == null && numEpochs == 0 && lastTrainError == 0.0
      ensures layers == [] && indices == []
    {
      task, numEpochs, lastTrainError := null, 0, 0.0;
      layers, indices := [], [];
    }

    /** Validates a layer spec against the list and appends the new layer
        (the null entry for None), returning it; a rejected spec leaves
        the list as it was and returns null. */
    method AddLayer(kind: LayerType, numNeurons: int, numInputs: int, u: nat -> real) returns (added: Layer)
      requires AddLayerDefined(layers, kind, numNeurons, numInputs)
      modifies this`layers
      ensures layers == Appended(old(layers), kind, numNeurons, numInputs, u)
      ensures added == if Rejects(old(layers), kind, numNeurons, numInputs) then Null
                       else NewLayer(kind, numNeurons, numInputs, u)
      ensures WellFormed(old(layers)) ==> WellFormed(layers)
    {
      if WellFormed(layers) {
        AddLayerKeepsWellFormed(layers, kind, numNeurons, numInputs, u);
      }
      if numNeurons < 1 || numInputs < 0 {
        return Null;
      }
      var layer := Null;
      match kind {
        case Input =>
          if |layers| > 0 {
            return Null;
          }
          layer := Construct(Input, numNeurons, numInputs, u);
        case Sigmoid =>
          if |layers| == 0 || layers[|layers| - 1].numNeurons != numInputs {
            return Null;
          }
          layer := Construct(Sigmoid, numNeurons, numInputs, u);
        case Relu =>
          if |layers| == 0 || layers[|layers| - 1].numNeurons != numInputs {
            return Null;
          }
          layer := Construct(Relu, numNeurons, numInputs, u);
        case Softmax =>
          if |layers| == 0 || layers[|layers| - 1].numNeurons != numInputs {
            return Null;
          }
          layer := Construct(Softmax, numNeurons, numInputs, u);
        case None =>
      }
      layers := layers + [layer];
      added := layer;
    }

    /** Takes the task, replays its layer specs through AddLayer in order
        (rejected ones are skipped) and resets the sample order to the
        identity over the task's inputs. */
    method Configure(t: Task, u: nat -> real)
      requires ReplayDefined(layers, t.layers, u)
      modifies this`task, this`layers, this`indices
      ensures task == t
      ensures layers == Replay(old(layers), t.layers, u)
      ensures WellFormed(old(layers)) ==> WellFormed(layers)
      ensures indices == Iota(|t.inputs|)
    {
      if WellFormed(layers) {
        ReplayKeepsWellFormed(layers, t.layers, u);
      }
      task := t;
      assert t.layers[0..] == t.layers;
      var k := 0;
      while k < |t.layers|
        invariant 0 <= k <= |t.layers| && task == t
        invariant ReplayDefined(layers, t.layers[k..], u)
        invariant Replay(layers, t.layers[k..], u) == Replay(old(layers), t.layers, u)
      {
        var spec := t.layers[k];
        assert t.layers[k..][0] == spec && t.layers[k..][1..] == t.layers[k + 1..];
        var added := AddLayer(spec.kind, spec.numNeurons, spec.numInputs, u);
        k := k + 1;
      }
      assert t.layers[k..] == [];
      indices := Iota(|t.inputs|);
    }

    /** Feeds the input to layer 0 and each layer's activation to the next. */
    method Forward(input: seq<real>, exp: real -> real)
      requires Ready(layers) && InputFits(layers, input) && ExpPositive(exp)
      modifies this`layers
      ensures layers == ForwardAll(old(layers), input, exp)
    {
      ghost var start := layers;
      assert ForwardUpTo(start, input, 0, exp) == start;
      var first := Layers.Forward(layers[0], input, exp);
      layers := layers[0 := first];
      var i := 1;
      while i < |layers|
        invariant 1 <= i <= |layers| == |start|
        invariant layers == ForwardUpTo(start, input, i, exp)
      {
        assert SameParameters(start[i], layers[i]) && SameParameters(start[i - 1], layers[i - 1]);
        var updated := Layers.Forward(layers[i], layers[i - 1].activation, exp);
        layers := layers[i := updated];
        i := i + 1;
      }
    }

    /** Walks from the output layer down to layer 1, handing each layer the
        layer above it as already updated (null for the output layer) and
        the targets or that layer's activation; returns the summed error. */
    method Backward(targets: seq<real>) returns (error: real)
      requires task != null
      requires Ready(layers) && BackwardFits(layers, targets)
      modifies this`layers
      ensures (layers, error) == BackwardDown(old(layers), targets, task.learningRate, 1)
    {
      ghost var start := layers;
      var lr := task.learningRate;
      error := 0.0;
      var next := Null;
      var i := |layers| - 1;
      while i > 0
        invariant 0 <= i < |layers| == |start|
        invariant (layers, error) == BackwardDown(start, targets, lr, i + 1)
        invariant next == if i == |layers| - 1 then Null else layers[i + 1]
      {
        assert SameShape(start[i - 1], layers[i - 1]) && SameShape(start[i], layers[i]);
        assert i + 1 < |layers| ==> SameShape(start[i + 1], layers[i + 1]) && Shaped(layers[i + 1]);
        var previous := layers[i - 1];
        var useTarget := if next.Null? then targets else next.activation;
        var updated, e := Layers.Backward(layers[i], previous, next, lr, useTarget);
        error := error + e;
        layers := layers[i := updated];
        next := layers[i];
        i := i - 1;
      }
    }

    /** Runs the configured number of epochs. Each epoch takes its sample
        order from `shuffles` (standing for the random shuffle of the index
        array), trains on the first ItemsPerEpoch samples of that order,
        counts each sample in numEpochs, and the last epoch records the
        error of its first sample. */
    method Train(exp: real -> real, shuffles: seq<seq<int>>)
      requires task != null && ExpPositive(exp)
      requires Ready(layers) && DataFits(layers, task.inputs, task.targets)
      requires IsPermutation(indices, |task.inputs|) && task.batchSize <= |task.inputs|
      requires |shuffles| == if task.epochs > 0 then task.epochs else 0
      requires OrdersFit(shuffles, |task.inputs|, ItemsPerEpoch(task.batchSize, |task.inputs|))
      modifies this`layers, this`indices, this`numEpochs, this`lastTrainError
      ensures var items := ItemsPerEpoch(task.batchSize, |task.inputs|);
        && layers == TrainEpochs(old(layers), task.inputs, task.targets, task.learningRate, shuffles, items, exp)
        && numEpochs == old(numEpochs) + |shuffles| * items
        && lastTrainError == (if |shuffles| > 0 && items > 0
             then LastTrainError(old(layers), task.inputs, task.targets, task.learningRate, shuffles, items, exp)
             else old(lastTrainError))
      ensures if |shuffles| > 0 then indices == shuffles[|shuffles| - 1] else indices == old(indices)
      ensures IsPermutation(indices, |task.inputs|)
    {
      ghost var states, errors := RunEpochs(exp, shuffles);
      ghost var items := ItemsPerEpoch(task.batchSize, |task.inputs|);
      EpochTracesTrainEpochs(states, errors, task.inputs, task.targets, task.learningRate, shuffles, items, exp, |errors|);
      assert shuffles[..|errors|] == shuffles;
      if |shuffles| > 0 {
        OrderAt(shuffles, |shuffles| - 1, |task.inputs|, items);
      }
    }

    /** Train's epoch loop. The ghost results are the trace of layer lists
        the epochs went through and the error each epoch would record. */
    method RunEpochs(exp: real -> real, shuffles: seq<seq<int>>)
      returns (ghost states: seq<seq<Layer>>, ghost errors: seq<real>)
      requires task != null && ExpPositive(exp)
      requires Ready(layers) && DataFits(layers, task.inputs, task.targets)
      requires |shuffles| == if task.epochs > 0 then task.epochs else 0
      requires OrdersFit(shuffles, |task.inputs|, ItemsPerEpoch(task.batchSize, |task.inputs|))
      modifies this`layers, this`indices, this`numEpochs, this`lastTrainError
      ensures |states| == |shuffles| + 1 && |errors| == |shuffles|
      ensures states[0] == old(layers) && states[|shuffles|] == layers
      ensures var items := ItemsPerEpoch(task.batchSize, |task.inputs|);
        && EpochTraces(states, errors, task.inputs, task.targets, task.learningRate, shuffles, items, exp)
        && numEpochs == old(numEpochs) + |shuffles| * items
        && lastTrainError == (if |shuffles| > 0 && items > 0 then errors[|shuffles| - 1] else old(lastTrainError))
      ensures if |shuffles| > 0 then indices == shuffles[|shuffles| - 1] else indices == old(indices)
    {
      ghost var inputs, targets, lr := task.inputs, task.targets, task.learningRate;
      ghost var items := ItemsPerEpoch(task.batchSize, |task.inputs|);
      states := [layers];
      errors := [];
      var epoch := 0;
      while epoch < task.epochs
        invariant 0 <= epoch <= |shuffles| && |states| == epoch + 1 && |errors| == epoch
        invariant task.epochs > 0 ==> epoch <= task.epochs
        invariant states[0] == old(layers) && states[epoch] == layers
        invariant task.inputs == inputs && task.targets == targets && task.learningRate == lr
        invariant EpochTraces(states, errors, inputs, targets, lr, shuffles, items, exp)
        invariant Ready(layers) && DataFits(layers, inputs, targets)
        invariant numEpochs == old(numEpochs) + epoch * items
        invariant lastTrainError == (if epoch == |shuffles| && epoch > 0 && items > 0
                    then errors[epoch - 1] else old(lastTrainError))
        invariant if epoch > 0 then indices == shuffles[epoch - 1] else indices == old(indices)
      {
        OrderAt(shuffles, epoch, |inputs|, items);
        var numItems := ItemsPerEpoch(task.batchSize, |task.inputs|);
        ghost var recorded := RunEpoch(states, errors, inputs, targets, lr, shuffles, epoch, numItems, epoch == task.epochs - 1, exp);
        states, errors := states + [layers], errors + [recorded];
        NextMultiple(epoch, items);
        epoch := epoch + 1;
      }
    }

    /** The body of Train's epoch loop: stores the epoch's sample order in
        `indices` and runs the inner sample loop over it. Stated over the
        ghost training record so far: the epoch extends it by one entry,
        the layers RunSamples gives for the order and the error it records. */
    method RunEpoch(ghost states: seq<seq<Layer>>, ghost errors: seq<real>,
                    ghost inputs: seq<seq<real>>, ghost targets: seq<seq<real>>, ghost lr: real,
                    shuffles: seq<seq<int>>, epoch: nat, numItems: nat, last: bool, exp: real -> real)
      returns (ghost recorded: real)
      requires task != null && ExpPositive(exp)
      requires task.inputs == inputs && task.targets == targets && task.learningRate == lr
      requires EpochTraces(states, errors, inputs, targets, lr, shuffles, numItems, exp)
      requires epoch == |errors| < |shuffles|
      requires numItems <= |shuffles[epoch]| && OrderFits(shuffles[epoch], |inputs|)
      requires layers == states[epoch] && Ready(layers) && DataFits(layers, inputs, targets)
      modifies this`indices, this`layers, this`numEpochs, this`lastTrainError
      ensures indices == shuffles[epoch]
      ensures Ready(layers) && DataFits(layers, inputs, targets)
      ensures EpochTraces(states + [layers], errors + [recorded], inputs, targets, lr, shuffles, numItems, exp)
      ensures numEpochs == old(numEpochs) + numItems
      ensures lastTrainError == if last && numItems > 0 then recorded else old(lastTrainError)
    {
      indices := shuffles[epoch];
      ghost var run, errs := TrainSamples(shuffles[epoch], numItems, last, exp);
      TracesRunSamples(run, errs, inputs, targets, lr, shuffles[epoch], exp);
      recorded := if numItems == 0 then 0.0 else errs[0];
      EpochTracesExtend(states, errors, inputs, targets, lr, shuffles, numItems, exp, layers, recorded);
    }

    /** Train's inner loop: trains on the first numItems samples of the
        order in turn, counts each in numEpochs, and in the last epoch
        records the error of the first sample. The ghost results are the
        trace of layer lists and per-sample errors the loop went through. */
    method TrainSamples(order: seq<int>, numItems: nat, last: bool, exp: real -> real)
      returns (ghost states: seq<seq<Layer>>, ghost errors: seq<real>)
      requires task != null && ExpPositive(exp) && indices == order
      requires Ready(layers) && DataFits(layers, task.inputs, task.targets)
      requires numItems <= |order| && OrderFits(order, |task.inputs|)
      modifies this`layers, this`numEpochs, this`lastTrainError
      ensures |states| == numItems + 1 && |errors| == numItems
      ensures states[0] == old(layers) && states[numItems] == layers
      ensures Traces(states, errors, task.inputs, task.targets, task.learningRate, order, exp)
      ensures numEpochs == old(numEpochs) + numItems
      ensures lastTrainError == if last && numItems > 0 then errors[0] else old(lastTrainError)
    {
      states := [layers];
      errors := [];
      ghost var inputs, targets, lr := task.inputs, task.targets, task.learningRate;
      var first := true;
      var error := 0.0;
      var i := 0;
      while i < numItems
        invariant 0 <= i <= numItems && |states| == i + 1 && |errors| == i
        invariant states[0] == old(layers) && states[i] == layers
        invariant task.inputs == inputs && task.targets == targets && task.learningRate == lr && indices == order
        invariant Traces(states, errors, inputs, targets, lr, order, exp)
        invariant Ready(layers) && DataFits(layers, inputs, targets)
        invariant numEpochs == old(numEpochs) + i
        invariant first <==> (i == 0 || !last)
        invariant i == 0 ==> error == 0.0
        invariant lastTrainError == if last && i > 0 then errors[0] else old(lastTrainError)
      {
        var e := TrainSample(states, errors, inputs, targets, lr, order, i, exp);
        states, errors := states + [layers], errors + [e];
        error := error + e;
        if first && last {
          first := false;
          lastTrainError := error;
        }
        numEpochs := numEpochs + 1;
        i := i + 1;
      }
    }

    /** Sample i of the epoch's order: Forward on its input, then Backward
        against its target. The ghost parameters are the trace so far and
        the task's data it is stated over. */
    method TrainSample(ghost states: seq<seq<Layer>>, ghost errors: seq<real>,
                       ghost inputs: seq<seq<real>>, ghost targets: seq<seq<real>>, ghost lr: real,
                       ghost order: seq<int>, i: nat, exp: real -> real) returns (error: real)
      requires task != null && ExpPositive(exp)
      requires task.inputs == inputs && task.targets == targets && task.learningRate == lr && indices == order
      requires Traces(states, errors, inputs, targets, lr, order, exp)
      requires i == |errors| < |order| && OrderFits(order, |inputs|)
      requires layers == states[i] && Ready(layers) && DataFits(layers, inputs, targets)
      modifies this`layers
      ensures Ready(layers) && DataFits(layers, inputs, targets)
      ensures Traces(states + [layers], errors + [error], inputs, targets, lr, order, exp)
    {
      var s := indices[i];
      ghost var before := layers;
      assert SampleFits(layers, inputs[s], targets[s]);
      Forward(task.inputs[s], exp);
      assert SameShape(before[0], layers[0]) && SameShape(before[|before| - 1], layers[|layers| - 1]);
      error := Backward(task.targets[s]);
      assert (layers, error) == Step(before, inputs[s], targets[s], lr, exp);
      DataFitsKept(before, layers, inputs, targets);
      TracesExtend(states, errors, inputs, targets, lr, order, exp, layers, error);
    }

    /** Runs Forward and returns the output layer's activation. */
    method Predict(input: seq<real>, exp: real -> real) returns (output: seq<real>)
      requires Ready(layers) && InputFits(layers, input) && ExpPositive(exp)
      modifies this`layers
      ensures layers == ForwardAll(old(layers), input, exp)
      ensures output == layers[|layers| - 1].activation
    {
      Forward(input, exp);
      output := layers[|layers| - 1].activation;
    }
  }
}
