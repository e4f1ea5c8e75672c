# nlib shape logic in Dafny

A model of the shape logic of nlib, a small Rust library for feedforward
(multilayer perceptron) networks. The model covers:

- the topology builder: `Topology::input(size)` followed by chained
  `layer(size, activation)` calls. Each appended layer takes its input width
  from the builder's private running `last` width. The builder is the class
  `Topologies.Topology`, whose `AddLayer` method updates the object in place,
  as `layer` does on its `mut self`.
- network construction: `NeuralNetwork::new` keeps its own copy of the
  topology and allocates, per layer, `outputs` weight rows of `inputs` values
  each, plus `outputs` biases.
- the forward pass: `eval` threads a vector through the layers with a loop.
  Each layer zips its weight rows with its biases and computes
  `calculate_output` for every pair. That is a truncating zip-and-fold dot
  product plus the bias, passed through the activation.

Scalars are `real`. The activation's scalar function is a parameter
`base: (Activation, real) -> real` and is left uninterpreted. The values that
`new` draws at random come from caller-supplied functions of their position
(layer, neuron, input). Every possible draw is therefore covered, and the
contracts constrain only the shapes.

`eval` does not check the input width: a wrong-width input is not reported
as an error, and the model follows the code here.
The zips simply drop the surplus entries of the longer side. The model keeps
that behaviour (`CalculateOutput`, `ZipFoldIgnoresSurplus`). It also proves
that on a well-formed network with an input of the declared width, nothing is
dropped (`ForwardWidth`).

Files: `activation.dfy` (module `Activations`), `topology.dfy` (module
`Topologies`), `network.dfy` (module `Network`).

## Model

| member | source | states |
|---|---|---|
| `Topologies.Topology.Input` | src/topology.rs:18-24 | `inputs == size`, `last == size`, `layers` empty, and the builder invariant `Valid()` holds |
| `Topologies.Topology.AddLayer` | src/topology.rs:26-35 | appends exactly one layer `Layer(old last, size, activation)` and keeps every earlier layer; `inputs` unchanged; `last == size`; keeps `Valid()` (last width consistent, layers chained) |
| `Topologies.Topology.Clone` | src/topology.rs:10 | the copy has the same `inputs`, `last` and `layers`, and is valid when the original is |
| `Topologies.ChainedAppend` | src/topology.rs:27-32 | appending a layer that reads the running last width keeps the chaining invariant, and the new last width is the appended size |
| `Topologies.BuiltChained` | src/topology.rs:17-35 | any sequence of `layer` calls after `input(n)` yields chained layers: the first reads `n`, each later one reads its predecessor's `outputs`; the layers record exactly the calls made |
| `Topologies.ChainedIffBuilt` | src/topology.rs:17-35 | a layer list is chained if and only if it is what the builder produces from the calls it records (both directions) |
| `Topologies.TopologyScenario` | src/topology.rs:42-62 | `input(2).layer(2, Tanh).layer(1, Tanh)` yields the layers {2→2, Tanh} and {2→1, Tanh} |
| `Network.InitialWeights` | src/lib.rs:21-36 | one weight matrix per layer; `weights[l]` has `layers[l].outputs` rows; each row has `layers[l].inputs` entries |
| `Network.InitialBiases` | src/lib.rs:37-48 | one bias vector per layer; `biases[l]` has `layers[l].outputs` entries |
| `Network.NeuralNetwork.New` | src/lib.rs:16-50 | stores a fresh copy of the topology with the same fields; its weights and biases are shaped by the topology's layers (`WellShaped`); the network is valid when the topology is |
| `Network.ZipFoldIsDot` | src/lib.rs:85-88 | the zip-and-fold adds to its accumulator the sum of `xs[i] * ws[i]` over the first min(\|xs\|, \|ws\|) pairs |
| `Network.ZipFoldIgnoresSurplus` | src/lib.rs:85-88 | surplus entries on either side do not change the fold: it equals the fold over the common-length prefixes |
| `Network.CalculateOutput` | src/lib.rs:84-91 | the neuron's value is `base` applied to the activation and to the sum of `input[i] * weights[i]` over the first min(\|input\|, \|weights\|) pairs, plus `bias` |
| `Network.CalculateOutputExample` | src/lib.rs:130-139 | for input [2, 5, -1], weights [1, 0.5, 4] and bias 1.5, the value is `base(LeakyReLU, 2)` |
| `Network.LayerOutputs` | src/lib.rs:56-60 | a layer yields min(\|weights\|, \|biases\|) values; value `n` is the neuron output from weight row `n` and bias `n` |
| `Network.NeuralNetwork.Eval` | src/lib.rs:52-64 | the result is the forward pass over the first min(#layers, #weights, #biases) layers, with nothing modified; with no layers it is the input itself; otherwise its length is min(\|weights[k]\|, \|biases[k]\|) for the last visited layer `k`, which on a well-shaped network (every network `New` builds) is the last layer's `outputs` |
| `Network.ForwardWidth` | src/lib.rs:55-61 | on a well-shaped network over chained layers, with an input of the network's input width, the vector entering layer `k` has exactly `layers[k].inputs` entries, so no product is dropped; after `k` layers the width is the last output width of those layers |
| `Network.NetworkScenario` | src/lib.rs:98-118 | for `input(2).layer(2, LeakyReLU).layer(1, LeakyReLU)`, whatever values are drawn: 2 weight matrices and 2 bias vectors; layer 0 has 2 rows of 2 weights and 2 biases; layer 1 has 1 row of 2 weights and 1 bias; `eval([1, 1])` has length 1 |

## Left out

- `NeuralNetwork::train` (src/lib.rs:66-81): it only samples random subsets of the training data and prints them. It computes nothing that could be specified.
- The random number generator and the scale `sqrt(2 / (inputs + outputs + 1))` in `new`: the drawn values are arbitrary caller-supplied functions of their position. The order in which the generator is consumed is not modelled.
- src/activation.rs is not part of this model. `Activation` is a three-variant datatype, and its `base` function is an uninterpreted parameter. The piecewise-linear ReLU/LeakyReLU, `tanh` (a math library call) and the derivatives are single-precision float code.
- IEEE-754 single-precision rounding: sums and products are exact reals. The order of the left fold is kept, but no bit-exact equivalence is claimed.
- `usize` bounds: widths are unbounded naturals. The only arithmetic on widths in the source, `inputs + outputs + 1`, belongs to the left-out scale computation. That sum overflows for a layer such as `input(usize::MAX).layer(0, _)`, where a debug build panics inside `new`; the model's `New` always succeeds.
- Pointer-level sharing: the network stores its own copy of the topology, as `new` does with `topology.clone()`. Nothing else aliases it.
