/**
 * The layered network (src/network.cpp): construction from a topology, the
 * forward pass and the read-out of the output layer.
 *
 * Layer `i` holds `topology[i]` ordinary neurons followed by one bias
 * neuron whose output is clamped to 1.0.  Every neuron of layer `i` has one
 * outgoing connection per ordinary neuron of layer `i + 1`, and ordinary
 * neuron `j` of layer `i + 1` carries index `j`, so it finds its incoming
 * weight at position `j` of each predecessor's connections.
 */
module Networks {
  import opened Wrappers
  import opened Activations
  import opened Neurons

  /** The output every bias neuron is clamped to. */
  const BiasConstant: real := 1.0

  /** Outgoing connections of each neuron of layer `i`: the next layer's size, none for the last layer. */
  function FanOut(sizes: seq<nat>, i: nat): nat
    requires i < |sizes|
  {
    if i == |sizes| - 1 then 0 else sizes[i + 1]
  }

  /** Activation of neuron `j` of layer `i`: none for input neurons and for bias neurons. */
  function RoleActivation(sizes: seq<nat>, i: nat, j: nat, act: Activation): Option<Activation>
    requires i < |sizes|
  {
    if i == 0 || j == sizes[i] then None else Some(act)
  }

  /** Neuron `n` has the index, fan-out and activation of position `j` in layer `i`. */
  ghost predicate WellPlaced(n: Neuron, sizes: seq<nat>, i: nat, j: nat, act: Activation)
    requires i < |sizes|
  {
    n.index == j && |n.weights| == FanOut(sizes, i) && n.activation == RoleActivation(sizes, i, j, act)
  }

  /** Layer `i`: `sizes[i]` ordinary neurons followed by the bias neuron, each in its place. */
  ghost predicate LayerShaped(layer: seq<Neuron>, sizes: seq<nat>, i: nat, act: Activation)
    requires i < |sizes|
  {
    |layer| == sizes[i] + 1 && forall j :: 0 <= j < |layer| ==> WellPlaced(layer[j], sizes, i, j, act)
  }

  /** No neuron object appears at two positions: the layers hold their neurons by value. */
  ghost predicate Distinct(layers: seq<seq<Neuron>>)
  {
    forall i1, j1, i2, j2 ::
      (0 <= i1 < |layers| && 0 <= j1 < |layers[i1]| && 0 <= i2 < |layers| && 0 <= j2 < |layers[i2]| &&
       layers[i1][j1] == layers[i2][j2]) ==> i1 == i2 && j1 == j2
  }

  /** The first `|layers|` layers of a network of topology `sizes`, all of whose neurons are in `neurons`. */
  ghost predicate Assembled(layers: seq<seq<Neuron>>, sizes: seq<nat>, act: Activation, neurons: set<Neuron>)
    requires |layers| <= |sizes|
  {
    (forall i, j :: 0 <= i < |layers| && 0 <= j < |layers[i]| ==> layers[i][j] in neurons)
    && Distinct(layers)
    && (forall i :: 0 <= i < |layers| ==> LayerShaped(layers[i], sizes, i, act))
  }

  /** The last neuron of every layer, its bias, outputs 1.0. */
  ghost predicate BiasesClamped(layers: seq<seq<Neuron>>)
    reads set i, j | 0 <= i < |layers| && 0 <= j < |layers[i]| :: layers[i][j]
  {
    forall i :: 0 <= i < |layers| && |layers[i]| > 0 ==> layers[i][|layers[i]| - 1].output == BiasConstant
  }

  /** Neuron `n` holds the value it computes from `prev`. */
  ghost predicate Computed(n: Neuron, prev: seq<Neuron>)
    reads n, prev
  {
    n.activation.Some? && Reaches(prev, n.index) && n.output == n.Fired(prev)
  }

  /** Every neuron of each layer but the last has a connection to every ordinary neuron of the next layer. */
  ghost predicate Wired(layers: seq<seq<Neuron>>)
  {
    (forall i :: 0 <= i < |layers| ==> |layers[i]| > 0)
    && forall i, j :: 0 <= i < |layers| - 1 && 0 <= j < |layers[i + 1]| - 1 ==> Reaches(layers[i], j)
  }

  /**
   * Reference semantics of the forward pass: the outputs of layer `l` as a
   * function of the inputs and the connection weights alone.  Layer 0 holds
   * the inputs; each later ordinary neuron `j` applies the activation to the
   * inner product of the previous layer's outputs with weight column `j`;
   * every layer ends with the bias value.
   */
  ghost function Propagate(layers: seq<seq<Neuron>>, act: Activation, inputs: seq<real>, l: nat): (out: seq<real>)
    requires Wired(layers) && l < |layers| && |inputs| == |layers[0]| - 1
    ensures |out| == |layers[l]|
  {
    if l == 0 then inputs + [BiasConstant]
    else
      var prev := Propagate(layers, act, inputs, l - 1);
      seq(|layers[l]|, j requires 0 <= j < |layers[l]| =>
        if j == |layers[l]| - 1 then BiasConstant else act.forward(Dot(prev, Column(layers[l - 1], j))))
  }

  /** Appending a layer of new, pairwise different neurons in its place keeps the layers assembled. */
  lemma AssembledExtend(layers: seq<seq<Neuron>>, layer: seq<Neuron>, sizes: seq<nat>, act: Activation, neurons: set<Neuron>)
    requires |layers| < |sizes| && Assembled(layers, sizes, act, neurons)
    requires LayerShaped(layer, sizes, |layers|, act)
    requires forall j :: 0 <= j < |layer| ==> layer[j] !in neurons
    requires forall j1, j2 :: 0 <= j1 < |layer| && 0 <= j2 < |layer| && layer[j1] == layer[j2] ==> j1 == j2
    ensures Assembled(layers + [layer], sizes, act, neurons + set j | 0 <= j < |layer| :: layer[j])
  {
    var grown := layers + [layer];
    assert forall i :: 0 <= i < |layers| ==> grown[i] == layers[i];
    assert Distinct(grown);
  }

  /** The state every neuron is built in: ordinary neurons output 0.0, and no neuron has a gradient yet. */
  ghost predicate AtRest(layers: seq<seq<Neuron>>)
    reads set i, j | 0 <= i < |layers| && 0 <= j < |layers[i]| :: layers[i][j]
  {
    (forall i, j :: 0 <= i < |layers| && 0 <= j < |layers[i]| - 1 ==> layers[i][j].output == 0.0)
    && forall i, j :: 0 <= i < |layers| && 0 <= j < |layers[i]| ==> layers[i][j].gradient == 0.0
  }

  /** Appending a layer of neurons in their initial state keeps all layers in it. */
  lemma AtRestExtend(layers: seq<seq<Neuron>>, layer: seq<Neuron>)
    requires AtRest(layers)
    requires forall j :: 0 <= j < |layer| - 1 ==> layer[j].output == 0.0
    requires forall j :: 0 <= j < |layer| ==> layer[j].gradient == 0.0
    ensures AtRest(layers + [layer])
  {
    var grown := layers + [layer];
    assert forall i :: 0 <= i < |layers| ==> grown[i] == layers[i];
  }

  /** Appending a layer whose last neuron outputs the bias value keeps every bias clamped. */
  lemma BiasesClampedExtend(layers: seq<seq<Neuron>>, layer: seq<Neuron>)
    requires BiasesClamped(layers)
    requires |layer| > 0 && layer[|layer| - 1].output == BiasConstant
    ensures BiasesClamped(layers + [layer])
  {
    var grown := layers + [layer];
    assert forall i :: 0 <= i < |layers| ==> grown[i] == layers[i];
  }

  class Network {
    const activation: Activation
    var layers: seq<seq<Neuron>>
    /** The layer sizes the network was built from, bias neurons not counted. */
    ghost const topology: seq<nat>
    /** Every neuron of the network. */
    ghost var Repr: set<Neuron>

    ghost predicate Valid()
      reads this, Repr
    {
      |topology| > 0 && |layers| == |topology| && Assembled(layers, topology, activation, Repr)
      && BiasesClamped(layers)
    }

    /**
     * Builds one layer per entry of `layerSizes`, each with its bias neuron.
     * The source rejects an empty topology before this point; see `Create`.
     */
    constructor (layerSizes: seq<nat>, activation: Activation)
      requires |layerSizes| > 0
      ensures Valid() && fresh(Repr)
      ensures topology == layerSizes && this.activation == activation
      ensures forall i, j :: 0 <= i < |layers| && 0 <= j < |layers[i]| ==> InitialWeights(layers[i][j].weights)
      ensures AtRest(layers)
    {
      this.activation := activation;
      topology := layerSizes;
      var built: seq<seq<Neuron>> := [];
      ghost var neurons: set<Neuron> := {};
      for layerIdx := 0 to |layerSizes|
        invariant |built| == layerIdx
        invariant fresh(neurons)
        invariant Assembled(built, layerSizes, activation, neurons)
        invariant forall i, j :: 0 <= i < |built| && 0 <= j < |built[i]| ==> InitialWeights(built[i][j].weights)
        invariant BiasesClamped(built)
        invariant AtRest(built)
      {
        var layer := NewLayer(layerSizes, layerIdx, activation);
        AssembledExtend(built, layer, layerSizes, activation, neurons);
        BiasesClampedExtend(built, layer);
        AtRestExtend(built, layer);
        built := built + [layer];
        neurons := neurons + set j | 0 <= j < |layer| :: layer[j];
      }
      layers := built;
      Repr := neurons;
    }

    /** Allocates layer `layerIdx`: its ordinary neurons, then its bias neuron, clamped to 1.0. */
    static method NewLayer(layerSizes: seq<nat>, layerIdx: nat, activation: Activation) returns (layer: seq<Neuron>)
      requires layerIdx < |layerSizes|
      ensures LayerShaped(layer, layerSizes, layerIdx, activation)
      ensures layer[|layer| - 1].output == BiasConstant
      ensures forall j :: 0 <= j < |layer| - 1 ==> layer[j].output == 0.0
      ensures forall j :: 0 <= j < |layer| ==> layer[j].gradient == 0.0
      ensures forall j :: 0 <= j < |layer| ==> fresh(layer[j]) && InitialWeights(layer[j].weights)
      ensures forall j1, j2 :: 0 <= j1 < |layer| && 0 <= j2 < |layer| && layer[j1] == layer[j2] ==> j1 == j2
    {
      var numNeurons := layerSizes[layerIdx];
      var numOutputs := if layerIdx == |layerSizes| - 1 then 0 else layerSizes[layerIdx + 1];
      layer := [];
      for neuronIdx := 0 to numNeurons
        invariant |layer| == neuronIdx
        invariant forall j :: 0 <= j < |layer| ==> fresh(layer[j]) && InitialWeights(layer[j].weights)
        invariant forall j1, j2 :: 0 <= j1 < |layer| && 0 <= j2 < |layer| && layer[j1] == layer[j2] ==> j1 == j2
        invariant forall j :: 0 <= j < |layer| ==> WellPlaced(layer[j], layerSizes, layerIdx, j, activation)
        invariant forall j :: 0 <= j < |layer| ==> layer[j].output == 0.0 && layer[j].gradient == 0.0
      {
        var neuron: Neuron;
        if layerIdx == 0 {
          neuron := new Neuron(numOutputs, neuronIdx);
        } else {
          neuron := new Neuron(numOutputs, neuronIdx, Some(activation));
        }
        layer := layer + [neuron];
      }
      // the bias neuron has no activation
      var bias := new Neuron(numOutputs, numNeurons);
      bias.SetOutput(BiasConstant);
      layer := layer + [bias];
    }

    /** Builds a network, or fails with `invalid_argument` on an empty topology. */
    static method Create(layerSizes: seq<nat>, activation: Activation) returns (r: Result<Network, Error>)
      ensures r.Failure? <==> |layerSizes| == 0
      ensures r.Failure? ==> r.error == InvalidArgument("The network can not be empty.")
      ensures r.Success? ==> fresh(r.value) && fresh(r.value.Repr) && r.value.Valid()
      ensures r.Success? ==> r.value.topology == layerSizes && r.value.activation == activation
      ensures r.Success? ==> AtRest(r.value.layers)
    {
      if |layerSizes| == 0 {
        return Failure(InvalidArgument("The network can not be empty."));
      }
      var net := new Network(layerSizes, activation);
      r := Success(net);
    }

    /** What `Valid` promises, spelled out layer by layer and neuron by neuron. */
    lemma Shape()
      requires Valid()
      ensures |layers| == |topology|
      ensures forall i :: 0 <= i < |layers| ==> |layers[i]| == topology[i] + 1
      ensures forall i, j :: 0 <= i < |layers| && 0 <= j < |layers[i]| ==> layers[i][j].index == j
      ensures forall i, j :: 0 <= i < |layers| - 1 && 0 <= j < |layers[i]| ==> |layers[i][j].weights| == topology[i + 1]
      ensures forall n :: n in layers[|layers| - 1] ==> n.weights == []
      ensures forall i, j :: 0 <= i < |layers| && 0 <= j < |layers[i]| ==>
        (layers[i][j].activation.Some? <==> i != 0 && j != topology[i])
      ensures forall i :: 0 <= i < |layers| ==> layers[i][topology[i]].output == BiasConstant
    {
      forall i, j | 0 <= i < |layers| && 0 <= j < |layers[i]|
        ensures layers[i][j].index == j && |layers[i][j].weights| == FanOut(topology, i)
      {
        assert LayerShaped(layers[i], topology, i, activation);
        assert WellPlaced(layers[i][j], topology, i, j, activation);
      }
    }

    /**
     * The read `prev_neuron.get_weights()[index_]` of the forward pass is in
     * bounds: every ordinary neuron of a layer after the first finds its
     * connection in every neuron of the layer before, bias included, and it
     * is computable (it has an activation and is not itself in that layer).
     */
    lemma IndexInBounds(l: nat, j: nat)
      requires Valid()
      requires 1 <= l < |layers| && j < |layers[l]| - 1
      ensures forall n :: n in layers[l - 1] ==> layers[l][j].index < |n.weights|
      ensures layers[l][j].activation.Some?
      ensures layers[l][j] !in layers[l - 1]
    {
      assert LayerShaped(layers[l], topology, l, activation);
      assert WellPlaced(layers[l][j], topology, l, j, activation);
      var prev := layers[l - 1];
      assert LayerShaped(prev, topology, l - 1, activation);
      forall k | 0 <= k < |prev|
        ensures layers[l][j].index < |prev[k].weights| && prev[k] != layers[l][j]
      {
        assert WellPlaced(prev[k], topology, l - 1, k, activation);
      }
    }

    /** Two different layers share no neuron. */
    lemma Apart(i1: nat, i2: nat)
      requires Valid() && i1 < |layers| && i2 < |layers| && i1 != i2
      ensures forall n :: n in layers[i1] ==> n !in layers[i2]
    {
    }

    /** The outputs of the ordinary neurons of the output layer, in order. */
    method GetOutput() returns (output: seq<real>)
      requires Valid()
      ensures |output| == topology[|topology| - 1]
      ensures forall i :: 0 <= i < |output| ==> output[i] == layers[|layers| - 1][i].output
    {
      var outputLayer := layers[|layers| - 1];
      assert LayerShaped(outputLayer, topology, |layers| - 1, activation);
      output := [];
      for i := 0 to |outputLayer| - 1
        invariant |output| == i
        invariant forall k :: 0 <= k < i ==> output[k] == outputLayer[k].output
      {
        var value := outputLayer[i].GetOutput();
        output := output + [value];
      }
    }

    /**
     * Every neuron the layers hold, whether or not `Valid` holds.  Under
     * `Valid` it lies within `Repr`; the predicates about outputs read this
     * set rather than `Repr` so that they need not require `Valid`, which
     * would oblige every caller to re-establish the whole invariant.
     */
    ghost function Neurons(): set<Neuron>
      reads this
    {
      set i, j | 0 <= i < |layers| && 0 <= j < |layers[i]| :: layers[i][j]
    }

    /** Layer 0's ordinary neurons hold `inputs`. */
    ghost predicate InputsLoaded(inputs: seq<real>)
      reads this, Neurons()
      requires |layers| > 0
    {
      |inputs| == |layers[0]| - 1 && forall k :: 0 <= k < |inputs| ==> layers[0][k].output == inputs[k]
    }

    /** The ordinary neurons of layers 1 up to `upTo` - 1 hold what they compute from the layer before. */
    ghost predicate LayersComputed(upTo: nat)
      reads this, Neurons()
      requires upTo <= |layers|
    {
      forall l, j :: 1 <= l < upTo && 0 <= j < |layers[l]| - 1 ==> Computed(layers[l][j], layers[l - 1])
    }

    lemma ValidIsWired()
      requires Valid()
      ensures Wired(layers)
    {
      forall i, j | 0 <= i < |layers| - 1 && 0 <= j < |layers[i + 1]| - 1
        ensures Reaches(layers[i], j)
      {
        IndexInBounds(i + 1, j);
      }
    }

    /**
     * After a forward pass the outputs of every layer are those of the
     * reference semantics: they depend on the inputs and the weights only,
     * so repeating the pass on the same inputs gives the same outputs.
     */
    lemma {:induction false} ForwardIsReference(inputs: seq<real>, l: nat)
      requires Valid() && InputsLoaded(inputs) && LayersComputed(|layers|)
      requires l < |layers|
      ensures Wired(layers)
      ensures Outputs(layers[l]) == Propagate(layers, activation, inputs, l)
    {
      ValidIsWired();
      var layer := layers[l];
      assert LayerShaped(layer, topology, l, activation);
      var want := Propagate(layers, activation, inputs, l);
      if l == 0 {
        assert Outputs(layer) == want;
      } else {
        var prev := layers[l - 1];
        ForwardIsReference(inputs, l - 1);
        forall j | 0 <= j < |layer| - 1
          ensures layer[j].output == want[j]
        {
          assert WellPlaced(layer[j], topology, l, j, activation);
          assert Computed(layer[j], prev);
          WeightedSumIsDot(prev, j);
        }
        assert Outputs(layer) == want;
      }
    }

    lemma ForwardIsReferenceEverywhere(inputs: seq<real>)
      requires Valid() && InputsLoaded(inputs) && LayersComputed(|layers|)
      ensures Wired(layers) && |inputs| == |layers[0]| - 1
      ensures forall l :: 0 <= l < |layers| ==> Outputs(layers[l]) == Propagate(layers, activation, inputs, l)
    {
      ValidIsWired();
      assert LayerShaped(layers[0], topology, 0, activation);
      forall l | 0 <= l < |layers|
        ensures Outputs(layers[l]) == Propagate(layers, activation, inputs, l)
      {
        ForwardIsReference(inputs, l);
      }
    }

    /** Copies `inputs` into the ordinary neurons of the input layer. */
    method LoadInputs(inputs: seq<real>)
      requires Valid() && |inputs| == topology[0]
      modifies layers[0]`output
      ensures Valid() && InputsLoaded(inputs)
    {
      assert LayerShaped(layers[0], topology, 0, activation);
      for i := 0 to |inputs|
        invariant Valid()
        invariant forall k :: 0 <= k < i ==> layers[0][k].output == inputs[k]
      {
        layers[0][i].SetOutput(inputs[i]);
      }
    }

    /**
     * Feeds every ordinary neuron of layer `l` forward from layer `l - 1`,
     * in order; the bias neuron and all other layers keep their outputs.
     */
    method ComputeLayer(ghost inputs: seq<real>, l: nat)
      requires Valid() && 1 <= l < |layers|
      requires InputsLoaded(inputs) && LayersComputed(l)
      modifies layers[l]`output
      ensures Valid() && InputsLoaded(inputs) && LayersComputed(l + 1)
    {
      var prev := layers[l - 1];
      var current := layers[l];
      assert LayerShaped(current, topology, l, activation);
      // facts about the fixed shape of the network, gathered before any output changes
      forall j | 0 <= j < |current| - 1
        ensures current[j].activation.Some? && current[j] !in prev && Reaches(prev, current[j].index)
      {
        IndexInBounds(l, j);
      }
      forall i | 0 <= i < |layers| && i != l
        ensures forall n :: n in layers[i] ==> n !in current
      {
        Apart(i, l);
      }
      for j := 0 to |current| - 1
        invariant current[|current| - 1].output == old(current[|current| - 1].output)
        invariant forall k :: 0 <= k < j ==> Computed(current[k], prev)
      {
        current[j].FeedForward(prev);
      }
      forall m, j | 1 <= m <= l && 0 <= j < |layers[m]| - 1
        ensures Computed(layers[m][j], layers[m - 1])
      {
        if m < l {
          assert old(Computed(layers[m][j], layers[m - 1]));
        }
      }
      forall i | 0 <= i < |layers|
        ensures layers[i][|layers[i]| - 1].output == BiasConstant
      {
        assert LayerShaped(layers[i], topology, i, activation);
        assert old(layers[i][|layers[i]| - 1].output) == BiasConstant;
      }
      assert BiasesClamped(layers);
    }

    /**
     * Loads `inputs` into the input layer and recomputes every later layer
     * in order, leaving the bias neurons alone.  A wrong number of inputs is
     * rejected before anything changes.
     */
    method FeedForward(inputs: seq<real>) returns (status: Outcome<Error>)
      requires Valid()
      modifies Repr`output
      ensures Valid() && layers == old(layers)
      ensures status.Fail? <==> |inputs| != topology[0]
      ensures status.Fail? ==> status.error == InvalidArgument("Invalid number of inputs.") && unchanged(Repr)
      ensures status.Pass? ==> InputsLoaded(inputs) && LayersComputed(|layers|)
      ensures status.Pass? ==> Wired(layers) && |inputs| == |layers[0]| - 1
      ensures status.Pass? ==> forall l :: 0 <= l < |layers| ==>
        Outputs(layers[l]) == Propagate(layers, activation, inputs, l)
    {
      assert LayerShaped(layers[0], topology, 0, activation);
      if |inputs| != |layers[0]| - 1 {
        return Fail(InvalidArgument("Invalid number of inputs."));
      }
      LoadInputs(inputs);
      // the bias neurons are skipped by the forward pass
      for l := 1 to |layers|
        invariant Valid()
        invariant InputsLoaded(inputs)
        invariant LayersComputed(l)
      {
        ComputeLayer(inputs, l);
      }
      ForwardIsReferenceEverywhere(inputs);
      status := Pass;
    }
  }
}
