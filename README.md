# A verified model of a small neural-network engine

This project models the core of `helper`, a small C++ engine for
fully connected feed-forward networks. A *task* (`hhTask`) declares a
topology as a list of layer specifications, together with a dataset, a
learning rate, an epoch count and a batch size. The *model* (`hhModel`)
does four things:

- builds its layer list by validating each specification;
- runs a forward pass from the Input layer up;
- runs a backward (gradient-descent) pass from the output layer down;
- trains, epoch by epoch: each epoch shuffles the sample indices and
  trains on a prefix of them; the last epoch records the error of its
  first sample.

The model is written in Dafny and stays close to the form of the source:

- `Tasks.Task` and `Network.Model` are classes. Their fields are the ones
  the source updates in place, and their methods carry `modifies` clauses.
  The model's layer list is a `seq<Layer>`.
- A layer is a datatype value. `Layer.Null` stands for the null pointer
  that `AddLayer` pushes for type `None`.
- Each layer operation of the source (`Forward`, `Backward`,
  `UpdateWeightsAndBiases`, the constructors' fill loops) is a method with
  the source's loops. Each method is proved equal to a specification
  function.
- The network passes are methods over the class state. `Forward`,
  `Backward` and `Train` are proved against the functions in module
  `Passes`: `ForwardAll`, `BackwardDown`, `TrainEpochs` and
  `LastTrainError`. The properties the source relies on are lemmas about
  those functions.

Modules:

| module | file | contents |
|---|---|---|
| `Numeric` | `numeric.dfy` | sums and dot products, permutations, `dotProduct`, `argmax` |
| `Tasks` | `task.dfy` | layer types, layer specifications, the task |
| `Layers` | `layers.dfy` | the layer value: construction, forward, update, backward |
| `Topology` | `topology.dfy` | the validating builder and the configuration fold |
| `Passes` | `passes.dfy` | forward pass, backward pass, training step and epochs, as functions |
| `Network` | `network.dfy` | the `Model` class and its in-place methods |

Floats are modelled as `real`. The library exponential is a parameter
`exp`, of which only positivity is assumed. Random initialisation is a
parameter `u: nat -> real`: `u(k)` is the k-th canonical draw in [0, 1) of
a default-seeded engine. Each layer constructor makes a new engine, so
every layer reads the stream from its start. The per-epoch shuffle is a
parameter `shuffles`, which lists one permutation of the sample indices
per epoch.

## Model

| member | source | states |
|---|---|---|
| Numeric.DotProduct | model.cpp:355-364 | for columns of equal length, the result is the sum of the pairwise products |
| Numeric.ArgMax | model.cpp:340-353 | the scan returns 0 for an empty column. When some value exceeds the sentinel -1000, it returns the index of the first maximum (no earlier value is as large). When no value exceeds -1000, it returns 0 |
| Numeric.Iota | model.cpp:277-278 | the index array that configuration sets up holds i at position i, so it is a permutation of 0..n-1 |
| Numeric.SumSquaresNonNegative | model.cpp:101 | a sum of squares, the Sigmoid error accumulator, is never negative |
| Numeric.DotCommutes | model.cpp:355-364 | the inner product does not depend on the order of its arguments |
| Tasks.Task.constructor | task.h:32-38 | a new task has no layer specifications and no data |
| Tasks.Task.AddLayer | task.h:27-30 | appends exactly the given specification to the list, with no validation |
| Layers.NewLayer | model.cpp:10-38 | a validated spec becomes the null entry exactly when its type is None. Otherwise it becomes a shaped layer of the requested variant and sizes, with zeroed activation and errors |
| Layers.Construct | model.cpp:219-258 | the constructor dispatch builds exactly NewLayer: Input biases 1 (model.cpp:21-24), Softmax zero parameters (model.cpp:165-167), Sigmoid and Relu parameters drawn from the stream |
| Layers.RandomParameters | model.cpp:54-69 | the nested fill loop of the Sigmoid (and Relu, model.cpp:111-126) constructor. Weight (i, j) is draw i*(m+1)+j and bias i is draw i*(m+1)+m |
| Layers.InitialParametersInRange | model.cpp:58 | initial weights and biases lie in [-1, 1) for Sigmoid and in [-0.1, 0.1) for Relu (model.cpp:115). They are 0 for Softmax, and Input biases are 1 |
| Layers.ForwardLayer | model.cpp:26-29 | a forward step of any variant overwrites the activation and nothing else: Input here, Sigmoid (model.cpp:71-79), Relu (model.cpp:128-136) and Softmax (model.cpp:169-183). An Input layer's activation becomes its input |
| Layers.InputForward | model.cpp:26-29 | the activation becomes the input vector, unchecked |
| Layers.SigmoidForward | model.cpp:71-79 | each neuron's activation is 1 / (1 + exp(-raw)), where raw is the inner product of the input with the neuron's weight row, plus its bias |
| Layers.ReluForward | model.cpp:128-136 | each neuron's activation is max(0, raw) |
| Layers.SoftmaxExps | model.cpp:171-177 | the first loop stores exp(raw) per neuron and accumulates their sum |
| Layers.SoftmaxForward | model.cpp:169-183 | each activation is exp(raw) divided by the sum over all neurons |
| Layers.Forward | model.cpp:283-287 | the virtual dispatch computes ForwardLayer for every variant |
| Layers.SigmoidActivationsInUnitInterval | model.cpp:77 | every Sigmoid activation lies strictly between 0 and 1 |
| Layers.ReluActivationsRectify | model.cpp:134 | a Relu activation is never negative and never below raw. It equals raw where raw is positive and is 0 elsewhere |
| Layers.SoftmaxActivationsDistribution | model.cpp:169-183 | Softmax activations are positive, at most 1, and sum to exactly 1 |
| Layers.Updated | model.cpp:40-50 | the update step lowers weight (n, i) by lr * previous activation i * error n and bias n by lr * error n. It keeps the shape, activation and errors |
| Layers.UpdateAtZeroRateIsIdentity | model.cpp:46-48 | with learning rate 0 the update changes nothing |
| Layers.UpdateWeightsAndBiases | model.cpp:40-50 | the nested loop computes exactly Updated against the previous layer's activation |
| Layers.BackwardLayer | model.cpp:81-106 | a backward step keeps the shape and activation and stores the new errors of the variant's rule |
| Layers.Propagate | model.cpp:94-98 | the inner loop sums next.errors[k] * next.weights[k][n] over the layer above, as in Relu (model.cpp:150-154) and Softmax (model.cpp:197-201) |
| Layers.SigmoidNeuronError | model.cpp:86-100 | a Sigmoid neuron's error at the output is (p - t) * 2 * dp * dp; in a hidden layer it is the incoming error * dp, where dp = p(1 - p) |
| Layers.SigmoidErrors | model.cpp:84-102 | the neuron loop stores every new error and returns the sum of their squares |
| Layers.SigmoidBackward | model.cpp:81-106 | Sigmoid's backward step: new errors, then the update step, returning the squared-error sum |
| Layers.ReluBackward | model.cpp:138-160 | Relu's backward step: (t - p) gated by p > 0 at the output, and the incoming error gated by p > 0 in a hidden layer. Then the update step, returning 0 |
| Layers.SoftmaxBackward | model.cpp:185-207 | Softmax's backward step: t - p at the output and the ungated incoming error in a hidden layer. Then the update step, returning 0 |
| Layers.Backward | model.cpp:299 | the virtual dispatch computes BackwardLayer for every variant |
| Layers.LossSign | model.cpp:101 | the value a layer's Backward returns is never negative, and is 0 unless the layer is Sigmoid (model.cpp:159, model.cpp:206) |
| Layers.ReluErrorsGated | model.cpp:146-155 | Relu's new error is 0 at every neuron whose activation is not positive |
| Layers.HiddenErrorsPropagate | model.cpp:94-100 | a hidden layer's errors ignore the target vector and are the incoming errors times the variant's derivative factor |
| Topology.AddLayerOutcome | model.cpp:211-265 | AddLayer leaves the list unchanged exactly when a rejection rule fires. Otherwise it appends one entry: null for None, or else a layer of the requested variant and sizes with vectors of length numNeurons and, for dense layers, a numNeurons by numInputs weight matrix |
| Topology.AddLayerKeepsWellFormed | model.cpp:213-258 | AddLayer keeps the invariant: Input only at index 0, and each layer's input count equal to its predecessor's neuron count |
| Topology.ReplayKeepsWellFormed | model.cpp:272-275 | the configuration loop keeps the invariant, never changes an existing entry, and adds at most one entry per spec |
| Topology.ConfigureChainedTopology | model.cpp:267-279 | configuring an empty network from a chained topology accepts every spec and yields one layer per spec, in order, with the declared sizes |
| Passes.ForwardUpTo | model.cpp:283-288 | the forward loop over the first k layers keeps every layer's parameters and leaves the layers above untouched |
| Passes.ForwardAll | model.cpp:281-289 | the forward pass keeps every layer's parameters and the list ready, and the Input layer holds the input |
| Passes.ForwardFeedsEachLayerItsPredecessor | model.cpp:283-287 | layer 0 is fed the input, and every later layer is fed the activation its predecessor computed in the same pass |
| Passes.ForwardIsIdempotent | model.cpp:334-338 | a second forward pass on the same input reproduces the first, so Predict is repeatable without training |
| Passes.BackwardDown | model.cpp:291-303 | the backward loop from the output layer down to layer j keeps shapes and activations and leaves the layers below j untouched |
| Passes.BackwardVisitsTopDown | model.cpp:295-301 | each layer from the output down to 1 is updated against its untouched predecessor and the already-updated layer above. The output layer reads the targets and the others the activation above; layer 0 is never touched |
| Passes.BackwardErrorSign | model.cpp:293-302 | the summed error is never negative, and is 0 when there is no Sigmoid layer |
| Passes.Step | model.cpp:319-320 | one training sample (a forward pass, then a backward pass) keeps the list ready and its shapes, and yields a non-negative error |
| Passes.RunSamples | model.cpp:317-330 | the first count samples of an order keep the list ready and the data fitting, and record a non-negative error |
| Passes.RunSamplesRecordsFirst | model.cpp:322-325 | the error an epoch records is the error of its first sample alone, taken on the layers the epoch started from |
| Passes.TracesRunSamples | model.cpp:317-330 | a per-sample record of the inner loop agrees with RunSamples on the final layers and on the recorded error |
| Passes.TrainEpochs | model.cpp:307-331 | training over the given orders keeps the list ready, its shapes and the fit of the data |
| Passes.LastTrainError | model.cpp:322-325 | the recorded training error is never negative |
| Passes.EpochTracesTrainEpochs | model.cpp:307-331 | after any number k of recorded epochs, the per-epoch record agrees with TrainEpochs over the first k orders, and its error for epoch k - 1 is LastTrainError's |
| Network.Model.constructor | model.h:24-30 | a new model has no task, no layers, zero counters and a zero error |
| Network.Model.AddLayer | model.cpp:211-265 | the list becomes Appended and the invariant is kept. The returned entry is null on rejection and for type None (which is accepted, and its null entry is pushed), and is otherwise the new layer |
| Network.Model.Configure | model.cpp:267-279 | stores the task, replays its specs through AddLayer, keeps the invariant, and resets the index array to 0..n-1 |
| Network.Model.Forward | model.cpp:281-289 | in place, the layer list becomes ForwardAll of the input |
| Network.Model.Backward | model.cpp:291-303 | in place, the layer list and the returned error become BackwardDown from layer 1 with the task's learning rate |
| Network.Model.Train | model.cpp:305-332 | the layers become TrainEpochs over the epoch orders: each epoch trains on the first ItemsPerEpoch samples of its order, which is batchSize when positive and the whole dataset otherwise (model.cpp:316). numEpochs grows by one per sample trained, lastTrainError becomes LastTrainError (unchanged when no sample is trained), and the index array ends as the last epoch's order, still a permutation |
| Network.Model.RunEpochs | model.cpp:307-331 | the epoch loop produces a per-epoch record (EpochTraces) ending in the new layers. numEpochs grows by the number of epochs times the samples per epoch, lastTrainError becomes the last epoch's recorded error when a sample is trained in it, and the index array ends as the last epoch's order |
| Network.Model.RunEpoch | model.cpp:309-330 | one epoch stores its order in the index array and extends the record by one RunSamples entry |
| Network.Model.TrainSamples | model.cpp:317-330 | the sample loop produces a per-sample record (Traces), counts each sample, and records the first sample's error in the last epoch |
| Network.Model.TrainSample | model.cpp:319-320 | one sample (forward on its input, then backward against its target) extends the record by exactly one Step |
| Network.Model.Predict | model.cpp:334-338 | runs the forward pass and returns the output layer's activation |

## Left out

- Floating point: `float` is `real`, so rounding, overflow and NaN are not modelled.
- `exp`: the library exponential is any positive function `exp`. Only positivity is used, for example for Sigmoid's range and for Softmax summing to 1.
- Random initialisation: `std::default_random_engine` and `uniform_real_distribution` are abstracted to the draw stream `u`. Every layer restarts the stream, as every constructor makes a new default-seeded engine.
- Shuffling: `std::random_device`, `std::mt19937` and `std::shuffle` are abstracted. Train receives each epoch's order as a permutation in `shuffles`. Any permutation of a permutation of 0..n-1 is again one, so this covers the order the source produces.
- `hhTask::Configure`, the task's virtual callback, is foreign code. Model.Configure receives the task in the state the callback leaves it in.
- Output and timing: `hhTask::Render`, the progress `printf` in Train (model.cpp:326-327) and `lastTrainTime` are output or timing only, and are not modelled.
- `numEpochs`: the model uses an unbounded integer, so overflow of the C++ `int` is not modelled.
- Ownership: layers are values, not heap objects, so ownership and freeing are not modelled. The null entry is `Layer.Null`.
- Network.Model.Backward: requires a non-empty list. With an empty list, the source's `size_t` loop index would underflow.
- Network.Model.Forward, Network.Model.Backward and Network.Model.Train: require every entry to be non-null. The source would dereference a null entry pushed for type None.
- AddLayer: a dense spec whose predecessor is a null entry would dereference null in the source. It is excluded by `AddLayerDefined`.
- Network.Model.Train: requires `batchSize` to be at most the dataset size. A larger batch would index past the end of the index array in the source.
- Network.Model.Train: requires each sample to fit the network, meaning an input of the Input layer's width and a target covering the output layer. The source checks input widths only with `assert`, in the Sigmoid and Relu forward steps (model.cpp:73, model.cpp:130).
- Layers.SoftmaxForward: requires an input of exactly numInputs values, as the other dense variants do. The source's Softmax forward step (model.cpp:169-183) does not check the width: a shorter input gives a partial inner product and a longer one reads past the weight row. That partial inner product is not modelled. The same width is required by Layers.Forward, Network.Model.Forward and Network.Model.Predict through `ForwardOk` and `InputFits`.
- Network.Model.Predict: returns a copy of the output layer's activation. The source returns a reference to that layer's live activation buffer (model.cpp:334-338), which a later Forward or Train call overwrites. The model does not capture that aliasing.
- Network.Model.RunEpoch: states its result over the ghost training record (`EpochTraces`), not over `TrainEpochs` directly. Model.Train then ties the record to `TrainEpochs` and `LastTrainError`. The same holds for Network.Model.TrainSamples and Network.Model.TrainSample with `Traces`. Splitting the loops over these helpers is a proof structure and is not in the source.
- Header conflict: `model.h` declares an inline `Configure` that only stores the task and runs the callback. `model.cpp` defines a version that also replays the layer specs and resets the index array. The model follows `model.cpp`.
- `main.cpp` (the demo tasks) and `test.cpp` (the tests) are not part of this model.
