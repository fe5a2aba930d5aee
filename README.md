# axon: construction and forward pass of a layered neural network

This project models the core of the `ann` library: a fully connected
feed-forward network made of layers of neurons. The model covers building
the network from a list of layer sizes, loading inputs, the layer-by-layer
forward pass and reading the output layer. It also covers the neuron these
are built from and the output-based derivatives of the activation
functions. Doubles are modelled as mathematical reals.

- `wrappers.dfy` holds `Option`, `Result`, `Outcome` and the
  `InvalidArgument` error, which stands for `std::invalid_argument` and keeps
  the exception message as its payload.
- `activation.dfy` holds the `Activation` pair (transfer function and
  derivative), the identity activation and the logistic and tanh
  derivatives. Those two derivatives take the neuron's *output*, not its
  weighted input.
- `neuron.dfy` holds the `Neuron` class: output, gradient, index, optional
  activation and outgoing connections. It also holds `RandomWeight`, the
  weighted sum a neuron accumulates over the previous layer (a left fold
  from 0.0, bias included) and its equivalence to an inner product.
- `network.dfy` holds the `Network` class and its invariant `Valid`. Layer
  `i` holds `topology[i]` ordinary neurons followed by a bias neuron
  clamped to 1.0. Every neuron of layer `i` has `topology[i + 1]` outgoing
  connections (none in the last layer). Neuron `j` carries index `j`. Input
  neurons and bias neurons have no activation. No neuron appears twice.
  `Propagate` is a reference semantics of the forward pass, written only in
  terms of the inputs and the connection weights. `FeedForward` is proved
  to leave every layer holding exactly those values, and its bias neurons
  still at 1.0.

The central fact is `Network.IndexInBounds`. After construction, the read
`prev_neuron.get_weights()[index_]` made by every computed neuron is always
in bounds, so `Neuron.FeedForward`'s precondition always holds during the
network's forward pass.

The snapshot's source files disagree with one another in three places.
The model makes these choices:
- The network constructor in src/network.cpp:9 takes the layer sizes and
  an activation, while include/network.hpp:21 also takes a `Criterion`.
  The two-argument form is modelled. The criterion is only used by the
  loss and back-propagation, which are not part of this model.
- src/neuron.cpp:20 takes a plain `Activation`, while both neuron headers
  declare an optional one that defaults to absent. The headers are
  followed: the activation is `Option<Activation>` with default `None`.
- src/neuron.cpp:40 applies the activation without checking that it is
  present. Feeding forward a neuron that has no activation is therefore a
  precondition violation (`requires activation.Some?`). The network never
  does it.

The two neuron headers are merged into one class. It has the gradient and
`set_gradient`/`get_gradient` from include/neuron.hpp, and a single
connection accessor `GetWeights`, which stands for both `get_weights`
(src/neuron.hpp) and `get_connections` (include/neuron.hpp).

The source's `Network` constructor throws when given an empty topology.
The model splits this into `Network.Create`, which returns a `Result` and
rejects the empty topology, and the Dafny constructor, which builds the
layers for a non-empty one. `feed_forward`'s throw becomes an `Outcome`.

## Model

| member | source | states |
|---|---|---|
| Activations.LinearIsIdentity | src/activation.hpp:9-17 | about `Linear` and `LinearDerivative`: `linear` returns its argument, and `linear_derivative` is 1.0 everywhere: it equals the slope of `linear` between any two distinct points |
| Activations.SigmoidDerivativeVertex | src/activation.hpp:25-28 | about `SigmoidDerivative`: the logistic derivative `o * (1 - o)` is the parabola `1/4 - (o - 1/2)^2` |
| Activations.SigmoidDerivativeShape | src/activation.hpp:25-28 | about `SigmoidDerivative`: the logistic derivative is 0 at outputs 0 and 1, and symmetric: `sd(o) == sd(1 - o)` |
| Activations.SigmoidDerivativeBounds | src/activation.hpp:25-28 | about `SigmoidDerivative`: for every output in [0, 1] the logistic derivative lies in [0, 1/4] |
| Activations.TanhDerivativeShape | src/activation.hpp:36-39 | about `TanhDerivative`: the tanh derivative `1 - y*y` is 0 at y = 1 and y = -1, 1 at y = 0, and even in y |
| Activations.TanhDerivativeBounds | src/activation.hpp:36-39 | about `TanhDerivative`: for every output in [-1, 1] the tanh derivative lies in [0, 1] |
| Activations.TanhSigmoidDerivatives | src/activation.hpp:25-39 | about `TanhDerivative` and `SigmoidDerivative`: the two output-based derivatives are consistent with tanh(x) = 2 sigmoid(2x) - 1: `td(2s - 1) == 4 sd(s)` |
| Neurons.RandomWeight | src/neuron.cpp:10-17 | every drawn weight lies in [-1.0, 1.0) |
| Neurons.Neuron.constructor | src/neuron.cpp:20-29 | stores the index and the (optional, by default absent) activation unchanged; output and gradient start at 0.0; exactly `num_outputs` connections, each weight in [-1.0, 1.0) |
| Neurons.Neuron.SetOutput | src/neuron.hpp:25-28 | sets the output to the value and may change nothing else |
| Neurons.Neuron.SetGradient | include/neuron.hpp:31-34 | sets the gradient to the value and may change nothing else |
| Neurons.Neuron.GetOutput | src/neuron.hpp:30-33 | returns the output and changes nothing |
| Neurons.Neuron.GetGradient | include/neuron.hpp:41-44 | returns the gradient and changes nothing |
| Neurons.Neuron.GetWeights | src/neuron.hpp:35-38 | returns the outgoing connections and changes nothing |
| Neurons.Neuron.FeedForward | src/neuron.cpp:31-41 | needs an activation and a connection at `index` in every predecessor; sets only this neuron's output, to the activation of the left-fold weighted sum over the previous layer (bias included) as it stood on entry |
| Neurons.WeightedSumIsDot | src/neuron.cpp:33-38 | the accumulated sum equals the inner product of the previous layer's output vector with the weight column at the neuron's index |
| Networks.Network.Create | src/network.cpp:9-15 | fails with `invalid_argument("The network can not be empty.")` exactly when the topology is empty; otherwise a fresh network satisfying `Valid` with that topology and activation, every neuron in its initial state (`AtRest`) |
| Networks.Network.constructor | src/network.cpp:17-46 | builds a fresh network satisfying `Valid` (one layer per size, each with its bias neuron clamped to 1.0) with every initial weight in [-1.0, 1.0), every ordinary neuron outputting 0.0 and every gradient 0.0 (`AtRest`), so the output read before any forward pass is all zeros |
| Networks.Network.NewLayer | src/network.cpp:21-44 | allocates `size + 1` new, pairwise distinct neurons: neuron `j` has index `j`, fan-out `layer_sizes[i + 1]` (0 for the last layer), an activation unless it is in layer 0 or is the bias; the bias outputs 1.0, every other neuron 0.0, and every gradient is 0.0 |
| Networks.Network.Shape | src/network.cpp:17-45 | `Valid` means: as many layers as sizes; `size + 1` neurons per layer; neuron `j` has index `j`; fan-out of the next layer's size, none in the last layer; an activation exactly for non-bias neurons of layers 1 and later; every bias outputs 1.0 |
| Networks.Network.IndexInBounds | src/neuron.cpp:35-37 | on a valid network, every ordinary neuron of a layer after the first has an activation, is not part of the previous layer, and finds a connection at its index in every neuron of the previous layer, bias included |
| Networks.Network.GetOutput | src/network.cpp:48-61 | returns, without changing anything, the outputs of the last layer's non-bias neurons in order; its length is the last layer size |
| Networks.Network.LoadInputs | src/network.cpp:70-73 | input `i` becomes the output of input neuron `i`; the network stays valid |
| Networks.Network.ComputeLayer | src/network.cpp:76-85 | recomputes every non-bias neuron of one layer from the layer before; the bias and every other layer keep their outputs, so earlier layers stay computed |
| Networks.Network.FeedForward | src/network.cpp:63-86 | fails with `invalid_argument("Invalid number of inputs.")` exactly when the input count differs from the input layer size (too few or too many), changing nothing; otherwise loads the inputs, recomputes layers 1 to last in order, keeps the shape and every bias at 1.0, and leaves every layer equal to `Propagate` |
| Networks.Network.ForwardIsReference | src/network.cpp:76-85 | once the inputs are loaded and every layer is computed, layer `l`'s outputs are `Propagate` at `l`, which depends only on the inputs and the weights |
| Networks.Network.ForwardIsReferenceEverywhere | src/network.cpp:63-86 | the same for every layer at once, and the network is wired so that `Propagate` is defined |

## Left out

- `sigmoid` and `tanh` themselves call `std::exp` and `std::tanh`; they are not defined. An activation is any pair of real functions, and only the polynomial derivatives are modelled.
- IEEE-754 behaviour (rounding, NaN, infinities) is not modelled; doubles are reals, so the forward pass is exact.
- `get_random_weight` draws from a process-wide Mersenne Twister; `RandomWeight` is an arbitrary choice in [-1.0, 1.0), not a generator.
- `compute_loss`, `back_propagate` and `compute_hidden_gradient` are only declared, so their behaviour is unknown and they are not modelled. The gradient is stored and read but never computed.
- `get_error` only returns the network's `error_` field, which nothing but the declared-only `compute_loss` writes; the field and its getter are not modelled.
- The `Criterion` (include/network.hpp) is a pair of two-argument functions used only by the loss and back-propagation; no instance of it appears in the modelled files, and it is not modelled.
- connection.hpp is not part of this model. A connection is modelled only by its weight; any other field it has (such as a momentum term) is left out.
- Connection weights are constant fields, because no modelled operation changes them once the neuron is built.
- The neurons of a layer are separate objects (`seq<Neuron>`), whereas the source keeps them by value in a vector. `Valid` requires that no object appears twice, which rules out the aliasing that by-value storage cannot have.
- `Networks.Network.FeedForward` states the final state of every layer, not the order in which neurons are written. The layer loop and `ComputeLayer` visit the layers and neurons in the source's order.
- The training drivers (src/main.cpp, examples/function_approximation.cpp) and the test harness are not modelled.
