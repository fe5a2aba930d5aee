/**
 * A single unit of the network (src/neuron.hpp, include/neuron.hpp,
 * src/neuron.cpp): its output value, its gradient, its position in its own
 * layer and its outgoing connections, one per non-bias neuron of the next
 * layer.  Neurons are mutable objects, updated in place by the network.
 */
module Neurons {
  import opened Wrappers
  import opened Activations

  /** One outgoing edge.  connection.hpp is not part of this model; only `weight` is read. */
  datatype Connection = Connection(weight: real)

  /** Every weight lies in the half-open range the initialiser draws from. */
  ghost predicate InitialWeights(ws: seq<Connection>)
  {
    forall k :: 0 <= k < |ws| ==> -1.0 <= ws[k].weight < 1.0
  }

  /**
   * Draws an initial weight.  The source samples a uniform distribution on
   * [-1.0, 1.0) from a process-wide generator; here the draw is an
   * arbitrary value of that range.
   */
  method RandomWeight() returns (w: real)
    ensures -1.0 <= w < 1.0
  {
    w :| -1.0 <= w < 1.0;
  }

  class Neuron {
    /** Absent for input and bias neurons, which are never computed. */
    const activation: Option<Activation>
    /** Position of this neuron in its layer, and of its connection in each predecessor. */
    const index: nat
    /** Outgoing connections; no modelled operation changes them after construction. */
    const weights: seq<Connection>
    var output: real
    var gradient: real

    /** Builds a neuron with `numOutputs` randomly weighted connections. */
    constructor (numOutputs: nat, index: nat, activation: Option<Activation> := None)
      ensures this.activation == activation && this.index == index
      ensures output == 0.0 && gradient == 0.0
      ensures |weights| == numOutputs && InitialWeights(weights)
    {
      this.activation := activation;
      this.index := index;
      output := 0.0;
      gradient := 0.0;
      var ws: seq<Connection> := [];
      for i := 0 to numOutputs
        invariant |ws| == i && InitialWeights(ws)
      {
        var w := RandomWeight();
        ws := ws + [Connection(w)];
      }
      weights := ws;
    }

    method SetOutput(value: real)
      modifies this`output
      ensures output == value
    {
      output := value;
    }

    method SetGradient(value: real)
      modifies this`gradient
      ensures gradient == value
    {
      gradient := value;
    }

    method GetOutput() returns (value: real)
      ensures value == output
    {
      value := output;
    }

    method GetGradient() returns (value: real)
      ensures value == gradient
    {
      value := gradient;
    }

    /** The outgoing connections (`get_weights`, renamed `get_connections` in the newer header). */
    method GetWeights() returns (ws: seq<Connection>)
      ensures ws == weights
    {
      ws := weights;
    }

    /** The value this neuron takes when it fires on `prev`. */
    ghost function Fired(prev: seq<Neuron>): real
      reads prev
      requires activation.Some? && Reaches(prev, index)
    {
      activation.value.forward(WeightedSum(prev, index))
    }

    /**
     * Recomputes the output from the previous layer, as it stood on entry.
     * A neuron without an activation (an input or a bias neuron) must never
     * be fed forward.
     */
    method FeedForward(prev: seq<Neuron>)
      requires activation.Some?
      requires Reaches(prev, index)
      modifies this`output
      ensures output == old(Fired(prev))
    {
      var sum := 0.0;
      for k := 0 to |prev|
        invariant sum == WeightedSum(prev[..k], index)
        invariant output == old(output)
      {
        var o := prev[k].GetOutput();
        var ws := prev[k].GetWeights();
        sum := sum + o * ws[index].weight;
        assert prev[..k + 1][..k] == prev[..k];
      }
      assert prev[..|prev|] == prev;
      assert activation.value.forward(sum) == Fired(prev);
      output := activation.value.forward(sum);
    }
  }

  /** Every neuron of `prev` has a connection at position `index`. */
  ghost predicate Reaches(prev: seq<Neuron>, index: nat)
  {
    forall k :: 0 <= k < |prev| ==> index < |prev[k].weights|
  }

  /**
   * The weighted input that the neuron at position `index` receives from
   * `prev`: each predecessor's output times the weight of its connection at
   * `index`, accumulated from 0.0 left to right, the bias neuron included.
   */
  ghost function WeightedSum(prev: seq<Neuron>, index: nat): real
    reads prev
    requires Reaches(prev, index)
  {
    if prev == [] then 0.0
    else
      var last := prev[|prev| - 1];
      WeightedSum(prev[..|prev| - 1], index) + last.output * last.weights[index].weight
  }

  /** Inner product of two vectors of equal length. */
  function Dot(xs: seq<real>, ys: seq<real>): real
    requires |xs| == |ys|
  {
    if xs == [] then 0.0 else xs[0] * ys[0] + Dot(xs[1..], ys[1..])
  }

  /** The outputs of a layer, as a vector. */
  ghost function Outputs(layer: seq<Neuron>): (v: seq<real>)
    reads layer
    ensures |v| == |layer| && forall k :: 0 <= k < |layer| ==> v[k] == layer[k].output
  {
    seq(|layer|, k reads layer requires 0 <= k < |layer| => layer[k].output)
  }

  /** The weights of the connections at position `index`: one column of the layer's weight matrix. */
  ghost function Column(layer: seq<Neuron>, index: nat): (v: seq<real>)
    requires Reaches(layer, index)
    ensures |v| == |layer| && forall k :: 0 <= k < |layer| ==> v[k] == layer[k].weights[index].weight
  {
    seq(|layer|, k requires 0 <= k < |layer| && index < |layer[k].weights| =>
      layer[k].weights[index].weight)
  }

  lemma {:induction false} DotSnoc(xs: seq<real>, ys: seq<real>, x: real, y: real)
    requires |xs| == |ys|
    ensures Dot(xs + [x], ys + [y]) == Dot(xs, ys) + x * y
  {
    if xs != [] {
      assert (xs + [x])[1..] == xs[1..] + [x];
      assert (ys + [y])[1..] == ys[1..] + [y];
      DotSnoc(xs[1..], ys[1..], x, y);
    }
  }

  /**
   * The running sum a neuron accumulates is the inner product of the
   * previous layer's output vector with the weight column at its index.
   */
  lemma {:induction false} WeightedSumIsDot(prev: seq<Neuron>, index: nat)
    requires Reaches(prev, index)
    ensures WeightedSum(prev, index) == Dot(Outputs(prev), Column(prev, index))
  {
    if prev != [] {
      var init := prev[..|prev| - 1];
      var last := prev[|prev| - 1];
      WeightedSumIsDot(init, index);
      assert Outputs(prev) == Outputs(init) + [last.output];
      assert Column(prev, index) == Column(init, index) + [last.weights[index].weight];
      DotSnoc(Outputs(init), Column(init, index), last.output, last.weights[index].weight);
    }
  }
}
