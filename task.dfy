/** The declarative side of a training task: the layer specifications it
    records and the dataset and hyperparameters the network reads. */
module Tasks {

  /** The kinds of layer a task can ask for; `None` is a legal value too. */
  datatype LayerType = None | Input | Sigmoid | Relu | Softmax

  /** One recorded layer specification. */
  datatype TaskLayer = TaskLayer(kind: LayerType, numNeurons: int, numInputs: int)

  class Task {
    var inputs: seq<seq<real>>
    var targets: seq<seq<real>>
    var learningRate: real
    var epochs: int
    var batchSize: int
    var layers: seq<TaskLayer>

    /** A task starts with no layer specifications and no data. */
    constructor ()
      ensures inputs == [] && targets == [] && layers == []
    {
      inputs, targets, layers := [], [], [];
    }

    /** Records one layer specification, exactly as given: nothing is
        validated here, that is left to the network. */
    method AddLayer(kind: LayerType, numNeurons: int, numInputs: int)
      modifies this`layers
      ensures layers == old(layers) + [TaskLayer(kind, numNeurons, numInputs)]
    {
      layers := layers + [TaskLayer(kind, numNeurons, numInputs)];
    }
  }
}
