/** The nonlinearities a layer may apply to each of its neurons' sums.

    Only the closed set of variants is modelled. Their scalar functions
    (`base` and its derivative) are single-precision floating-point code and,
    for Tanh, a call into the platform's math library; wherever a network
    applies an activation, the scalar function is supplied by the caller as a
    parameter of type `(Activation, real) -> real` and left uninterpreted. */
module Activations {

  datatype Activation = ReLU | LeakyReLU | Tanh

}
