/** The shape description of a feedforward network and its chained builder.

    A topology records the network's input width and an ordered list of layer
    descriptors. It is built by `Input(size)` followed by any number of
    `AddLayer(size, activation)` calls; each call takes the new layer's input
    width from the builder's running `last` output width, so the caller can
    never supply a mismatched width. */
module Topologies {

  import opened Activations

  /** One layer: how many values it reads, how many neurons it has, and the
      activation its neurons apply. */
  datatype Layer = Layer(inputs: nat, outputs: nat, activation: Activation)

  /** The arguments of one `AddLayer` call. */
  datatype LayerCall = LayerCall(size: nat, activation: Activation)

  /** The width of the values leaving the last layer: the network's input
      width while there are no layers yet. */
  function LastOutputs(inputs: nat, layers: seq<Layer>): nat
  {
    if layers == [] then inputs else layers[|layers| - 1].outputs
  }

  /** The chaining invariant: the first layer reads the network's inputs and
      every later layer reads exactly what the one before it produces. */
  predicate Chained(inputs: nat, layers: seq<Layer>)
  {
    (|layers| > 0 ==> layers[0].inputs == inputs) &&
    forall i :: 0 < i < |layers| ==> layers[i].inputs == layers[i - 1].outputs
  }

  /** The layers that `Input(inputs)` followed by one `AddLayer` per element
      of `calls`, in order, produce. */
  function Built(inputs: nat, calls: seq<LayerCall>): (layers: seq<Layer>)
    ensures |layers| == |calls|
  {
    if calls == [] then []
    else
      var prior := Built(inputs, calls[..|calls| - 1]);
      var call := calls[|calls| - 1];
      prior + [Layer(LastOutputs(inputs, prior), call.size, call.activation)]
  }

  /** The `AddLayer` calls a list of layers records, in order. */
  function Calls(layers: seq<Layer>): seq<LayerCall>
  {
    seq(|layers|, i requires 0 <= i < |layers| => LayerCall(layers[i].outputs, layers[i].activation))
  }

  /** Appending a layer that reads the running last width keeps the chaining
      invariant, and the new last width is the appended layer's size. */
  lemma ChainedAppend(inputs: nat, layers: seq<Layer>, size: nat, activation: Activation)
    requires Chained(inputs, layers)
    ensures Chained(inputs, layers + [Layer(LastOutputs(inputs, layers), size, activation)])
    ensures LastOutputs(inputs, layers + [Layer(LastOutputs(inputs, layers), size, activation)]) == size
  {
  }

  /** Whatever sequence of calls the builder receives, the layers it produces
      are chained, and they record exactly those calls. */
  lemma {:induction false} BuiltChained(inputs: nat, calls: seq<LayerCall>)
    ensures Chained(inputs, Built(inputs, calls))
    ensures Calls(Built(inputs, calls)) == calls
  {
    if calls != [] {
      var init := calls[..|calls| - 1];
      BuiltChained(inputs, init);
      var prior := Built(inputs, init);
      var call := calls[|calls| - 1];
      ChainedAppend(inputs, prior, call.size, call.activation);
      assert calls == init + [call];
    }
  }

  /** A list of layers is chained exactly when it is what the builder
      produces from the calls it records: the builder can produce every
      chained topology and nothing else. */
  lemma {:induction false} ChainedIffBuilt(inputs: nat, layers: seq<Layer>)
    ensures Chained(inputs, layers) <==> layers == Built(inputs, Calls(layers))
  {
    if layers == Built(inputs, Calls(layers)) {
      BuiltChained(inputs, Calls(layers));
    }
    if Chained(inputs, layers) && layers != [] {
      var init := layers[..|layers| - 1];
      assert Chained(inputs, init);
      ChainedIffBuilt(inputs, init);
      assert Calls(layers)[..|layers| - 1] == Calls(init);
      assert layers == init + [layers[|layers| - 1]];
    }
  }

  /** The builder. nlib's `layer` consumes the topology, pushes the new
      layer onto `layers` in place, overwrites `last`, and hands the same
      topology back; here that is a method that updates this object. */
  class Topology {
    var inputs: nat
    var last: nat
    var layers: seq<Layer>

    /** `last` is the running last output width and the layers are chained. */
    predicate Valid()
      reads this
    {
      last == LastOutputs(inputs, layers) && Chained(inputs, layers)
    }

    /** `Topology::input(size)`: no layers yet, and both the network input
        width and the running last width are `size`. */
    constructor Input(size: nat)
      ensures inputs == size && last == size && layers == []
      ensures Valid()
    {
      inputs := size;
      last := size;
      layers := [];
    }

    /** The derived `clone`: a new topology with the same fields. */
    constructor Clone(other: Topology)
      ensures inputs == other.inputs && last == other.last && layers == other.layers
      ensures other.Valid() ==> Valid()
    {
      inputs := other.inputs;
      last := other.last;
      layers := other.layers;
    }

    /** `layer(size, activation)`: appends exactly one layer, reading the
        running last width, leaves every earlier layer and the network input
        width alone, and makes `size` the new last width. */
    method AddLayer(size: nat, activation: Activation)
      modifies this
      ensures inputs == old(inputs)
      ensures layers == old(layers) + [Layer(old(last), size, activation)]
      ensures last == size
      ensures old(Valid()) ==> Valid()
    {
      if Valid() {
        ChainedAppend(inputs, layers, size, activation);
      }
      layers := layers + [Layer(last, size, activation)];
      last := size;
    }
  }

  /** The builder chain of nlib's own topology test:
      input(2).layer(2, Tanh).layer(1, Tanh). */
  method TopologyScenario() returns (layers: seq<Layer>)
    ensures layers == [Layer(2, 2, Tanh), Layer(2, 1, Tanh)]
  {
    var t := new Topology.Input(2);
    t.AddLayer(2, Tanh);
    t.AddLayer(1, Tanh);
    layers := t.layers;
  }
}
