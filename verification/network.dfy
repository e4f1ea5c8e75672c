/** A feedforward network: per-layer weight and bias tensors shaped by a
    topology, and the forward pass that threads a vector through the layers.

    Scalars are mathematical reals: single-precision rounding is not modelled.
    The values nlib draws at random when it builds a network are
    supplied by the caller as functions of their position, so every possible
    draw is covered and only the shapes they fill are constrained. */
module Network {

  import opened Activations
  import opened Topologies

  function Min(a: nat, b: nat): nat
  {
    if a <= b then a else b
  }

  // ---------------------------------------------------------------------------
  // Parameter tensors and their shape
  // ---------------------------------------------------------------------------

  /** The shape invariant of a network's parameters: one weight matrix and one
      bias vector per layer; each layer has one weight row and one bias per
      neuron, and each row holds one weight per input of that layer. */
  predicate WellShaped(layers: seq<Layer>, weights: seq<seq<seq<real>>>, biases: seq<seq<real>>)
  {
    |weights| == |layers| && |biases| == |layers| &&
    forall l :: 0 <= l < |layers| ==>
      |weights[l]| == layers[l].outputs && |biases[l]| == layers[l].outputs &&
      forall n :: 0 <= n < |weights[l]| ==> |weights[l][n]| == layers[l].inputs
  }

  /** The weights `new` builds: for each layer, `outputs` rows of `inputs`
      values, the value at (layer, neuron, input) being `draw(l, n, i)`. */
  function InitialWeights(layers: seq<Layer>, draw: (nat, nat, nat) -> real): (weights: seq<seq<seq<real>>>)
    ensures |weights| == |layers|
    ensures forall l :: 0 <= l < |layers| ==> |weights[l]| == layers[l].outputs
    ensures forall l, n :: 0 <= l < |layers| && 0 <= n < layers[l].outputs ==>
      |weights[l][n]| == layers[l].inputs
  {
    seq(|layers|, l requires 0 <= l < |layers| =>
      seq(layers[l].outputs, (n: nat) =>
        seq(layers[l].inputs, (i: nat) => draw(l, n, i))))
  }

  /** The biases `new` builds: for each layer, `outputs` values, the value at
      (layer, neuron) being `draw(l, n)`. */
  function InitialBiases(layers: seq<Layer>, draw: (nat, nat) -> real): (biases: seq<seq<real>>)
    ensures |biases| == |layers|
    ensures forall l :: 0 <= l < |layers| ==> |biases[l]| == layers[l].outputs
  {
    seq(|layers|, l requires 0 <= l < |layers| =>
      seq(layers[l].outputs, (n: nat) => draw(l, n)))
  }

  // ---------------------------------------------------------------------------
  // One neuron: a truncating dot product plus bias, through the activation
  // ---------------------------------------------------------------------------

  /** Rust's `zip` then `fold`, as nlib's `calculate_output` uses them: walks both sequences from the front,
      adding each product to the accumulator, and stops at the end of the
      shorter one. */
  function ZipFold(acc: real, xs: seq<real>, ws: seq<real>): real
    decreases |xs|
  {
    if |xs| == 0 || |ws| == 0 then acc
    else ZipFold(acc + xs[0] * ws[0], xs[1..], ws[1..])
  }

  /** Reference definition: the sum of the first `n` products. */
  function DotPrefix(xs: seq<real>, ws: seq<real>, n: nat): real
    requires n <= |xs| && n <= |ws|
  {
    if n == 0 then 0.0 else DotPrefix(xs, ws, n - 1) + xs[n - 1] * ws[n - 1]
  }

  lemma {:induction false} DotPrefixFirst(xs: seq<real>, ws: seq<real>, n: nat)
    requires 0 < n <= |xs| && n <= |ws|
    ensures DotPrefix(xs, ws, n) == xs[0] * ws[0] + DotPrefix(xs[1..], ws[1..], n - 1)
  {
    if n > 1 {
      DotPrefixFirst(xs, ws, n - 1);
    }
  }

  /** The sum of the first `n` products depends only on the first `n` entries
      of either side. */
  lemma {:induction false} DotPrefixOfPrefixes(xs: seq<real>, ws: seq<real>, n: nat, m: nat)
    requires n <= m <= |xs| && m <= |ws|
    ensures DotPrefix(xs, ws, n) == DotPrefix(xs[..m], ws[..m], n)
  {
    if n > 0 {
      DotPrefixOfPrefixes(xs, ws, n - 1, m);
    }
  }

  /** The fold adds to its accumulator the sum of the products of the first
      min(|xs|, |ws|) pairs. */
  lemma {:induction false} ZipFoldIsDot(acc: real, xs: seq<real>, ws: seq<real>)
    ensures ZipFold(acc, xs, ws) == acc + DotPrefix(xs, ws, Min(|xs|, |ws|))
    decreases |xs|
  {
    if |xs| != 0 && |ws| != 0 {
      ZipFoldIsDot(acc + xs[0] * ws[0], xs[1..], ws[1..]);
      DotPrefixFirst(xs, ws, Min(|xs|, |ws|));
    }
  }

  /** Surplus entries on either side are ignored: folding the full sequences
      gives what folding their common-length prefixes gives. */
  lemma ZipFoldIgnoresSurplus(xs: seq<real>, ws: seq<real>)
    ensures ZipFold(0.0, xs, ws) == ZipFold(0.0, xs[..Min(|xs|, |ws|)], ws[..Min(|xs|, |ws|)])
  {
    var m := Min(|xs|, |ws|);
    ZipFoldIsDot(0.0, xs, ws);
    ZipFoldIsDot(0.0, xs[..m], ws[..m]);
    DotPrefixOfPrefixes(xs, ws, m, m);
  }

  /** `calculate_output`: one neuron's value is the activation applied to the
      sum of the first min(|input|, |weights|) products plus the bias. */
  function CalculateOutput(input: seq<real>, weights: seq<real>, bias: real,
                           activation: Activation, base: (Activation, real) -> real): (r: real)
    ensures r == base(activation, DotPrefix(input, weights, Min(|input|, |weights|)) + bias)
  {
    ZipFoldIsDot(0.0, input, weights);
    base(activation, ZipFold(0.0, input, weights) + bias)
  }

  /** nlib's unit test for `calculate_output`:
      [2, 5, -1] . [1, 0.5, 4] + 1.5 = 2, passed to LeakyReLU. */
  lemma CalculateOutputExample(base: (Activation, real) -> real)
    ensures CalculateOutput([2.0, 5.0, -1.0], [1.0, 0.5, 4.0], 1.5, LeakyReLU, base) == base(LeakyReLU, 2.0)
  {
    var xs, ws := [2.0, 5.0, -1.0], [1.0, 0.5, 4.0];
    assert DotPrefix(xs, ws, 3) == 0.5;
  }

  // ---------------------------------------------------------------------------
  // One layer, and the forward pass over all layers
  // ---------------------------------------------------------------------------

  /** One layer's outputs: weight rows and biases are zipped, so the layer
      yields one value per pair, neuron `n` from row `n` and bias `n`. */
  function LayerOutputs(input: seq<real>, weights: seq<seq<real>>, biases: seq<real>,
                        activation: Activation, base: (Activation, real) -> real): (r: seq<real>)
    ensures |r| == Min(|weights|, |biases|)
    ensures forall n :: 0 <= n < |r| ==>
      r[n] == base(activation, DotPrefix(input, weights[n], Min(|input|, |weights[n]|)) + biases[n])
    decreases |weights|
  {
    if |weights| == 0 || |biases| == 0 then []
    else
      [CalculateOutput(input, weights[0], biases[0], activation, base)]
        + LayerOutputs(input, weights[1..], biases[1..], activation, base)
  }

  /** How many layers the forward pass visits: layers, weight matrices and
      bias vectors are zipped together, so the shortest of the three wins. */
  function Steps(layers: seq<Layer>, weights: seq<seq<seq<real>>>, biases: seq<seq<real>>): nat
  {
    Min(|layers|, Min(|weights|, |biases|))
  }

  /** The values after the first `k` layers of the forward pass. */
  function Forward(input: seq<real>, layers: seq<Layer>, weights: seq<seq<seq<real>>>,
                   biases: seq<seq<real>>, base: (Activation, real) -> real, k: nat): seq<real>
    requires k <= Steps(layers, weights, biases)
  {
    if k == 0 then input
    else
      LayerOutputs(Forward(input, layers, weights, biases, base, k - 1),
                   weights[k - 1], biases[k - 1], layers[k - 1].activation, base)
  }

  /** On a well-shaped network over chained layers, given an input as wide as
      the network's inputs, the vector reaching each layer is exactly as wide
      as that layer's inputs (and so as each of its weight rows): no product
      is dropped by the truncating zip, and after `k` layers the width is the
      last output width of those layers. */
  lemma ForwardWidth(input: seq<real>, inputs: nat, layers: seq<Layer>,
                       weights: seq<seq<seq<real>>>, biases: seq<seq<real>>,
                       base: (Activation, real) -> real, k: nat)
    requires Chained(inputs, layers) && WellShaped(layers, weights, biases)
    requires |input| == inputs && k <= |layers|
    ensures |Forward(input, layers, weights, biases, base, k)| == LastOutputs(inputs, layers[..k])
    ensures k < |layers| ==> |Forward(input, layers, weights, biases, base, k)| == layers[k].inputs
  {
  }

  // ---------------------------------------------------------------------------
  // The network object
  // ---------------------------------------------------------------------------

  class NeuralNetwork {
    /** The network's own copy of the topology it was built from. */
    const topology: Topology
    var weights: seq<seq<seq<real>>>
    var biases: seq<seq<real>>

    /** The topology is well formed and the parameters have its shape. */
    predicate Valid()
      reads this, topology
    {
      topology.Valid() && WellShaped(topology.layers, weights, biases)
    }

    /** `new`: keeps a copy of the topology, unchanged, and shapes the weights
        and biases after its layers, filling them with the drawn values. */
    constructor New(topology: Topology, weightDraw: (nat, nat, nat) -> real, biasDraw: (nat, nat) -> real)
      ensures fresh(this.topology)
      ensures this.topology.inputs == topology.inputs && this.topology.last == topology.last
      ensures this.topology.layers == topology.layers
      ensures weights == InitialWeights(topology.layers, weightDraw)
      ensures biases == InitialBiases(topology.layers, biasDraw)
      ensures WellShaped(this.topology.layers, weights, biases)
      ensures topology.Valid() ==> Valid()
    {
      this.topology := new Topology.Clone(topology);
      weights := InitialWeights(topology.layers, weightDraw);
      biases := InitialBiases(topology.layers, biasDraw);
    }

    /** `eval`: starting from the input, each visited layer replaces the
        running vector by its outputs. Nothing is modified. With no layers the
        input comes back unchanged; otherwise the result has one value per
        (weight row, bias) pair of the last visited layer, which on a well-shaped
        network is that layer's `outputs`. */
    method Eval(input: seq<real>, base: (Activation, real) -> real) returns (outputs: seq<real>)
      ensures outputs == Forward(input, topology.layers, weights, biases, base,
                                 Steps(topology.layers, weights, biases))
      ensures Steps(topology.layers, weights, biases) == 0 ==> outputs == input
      ensures Steps(topology.layers, weights, biases) > 0 ==>
        var k := Steps(topology.layers, weights, biases) - 1;
        |outputs| == Min(|weights[k]|, |biases[k]|)
      ensures WellShaped(topology.layers, weights, biases) && |topology.layers| > 0 ==>
        |outputs| == topology.layers[|topology.layers| - 1].outputs
    {
      var steps := Min(|topology.layers|, Min(|weights|, |biases|));
      outputs := input;
      var k := 0;
      while k < steps
        invariant 0 <= k <= steps
        invariant outputs == Forward(input, topology.layers, weights, biases, base, k)
      {
        outputs := LayerOutputs(outputs, weights[k], biases[k], topology.layers[k].activation, base);
        k := k + 1;
      }
    }
  }

  /** nlib's network test: input(2).layer(2, LeakyReLU).layer(1,
      LeakyReLU) gives two layers, the first with two neurons of two weights
      and two biases, the second with one neuron of two weights and one bias,
      and evaluating [1, 1] yields one value, whatever values were drawn. */
  method NetworkScenario(weightDraw: (nat, nat, nat) -> real, biasDraw: (nat, nat) -> real,
                         base: (Activation, real) -> real)
    returns (weights: seq<seq<seq<real>>>, biases: seq<seq<real>>, output: seq<real>)
    ensures |weights| == 2 && |biases| == 2
    ensures |weights[0]| == 2 && |biases[0]| == 2 && forall n :: 0 <= n < 2 ==> |weights[0][n]| == 2
    ensures |weights[1]| == 1 && |biases[1]| == 1 && |weights[1][0]| == 2
    ensures |output| == 1
  {
    var t := new Topology.Input(2);
    t.AddLayer(2, LeakyReLU);
    t.AddLayer(1, LeakyReLU);
    var net := new NeuralNetwork.New(t, weightDraw, biasDraw);
    output := net.Eval([1.0, 1.0], base);
    weights, biases := net.weights, net.biases;
  }
}
