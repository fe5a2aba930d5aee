/**
 * Activation functions and their derivatives (src/activation.hpp).
 *
 * Doubles are modelled as mathematical reals.  The derivatives of the
 * logistic and hyperbolic-tangent functions take the neuron's OUTPUT, not
 * its weighted input: sigmoid'(x) = s * (1 - s) and tanh'(x) = 1 - t * t
 * where s = sigmoid(x) and t = tanh(x).  The lemmas below state what that
 * convention guarantees about the values the derivatives can take.
 */
module Activations {

  /** A transfer function together with its derivative (`Activation` in neuron.hpp). */
  datatype Activation = Activation(forward: real -> real, derivative: real -> real)

  /** Identity transfer function. */
  function Linear(x: real): real
  {
    x
  }

  /** Derivative of `Linear`, constant one whatever the argument. */
  function LinearDerivative(x: real): real
  {
    1.0
  }

  /** Derivative of the logistic function, given its output `s`. */
  function SigmoidDerivative(s: real): real
  {
    s * (1.0 - s)
  }

  /** Derivative of the hyperbolic tangent, given its output `t`. */
  function TanhDerivative(t: real): real
  {
    1.0 - t * t
  }

  /** `Linear` is the identity, and `LinearDerivative` is its exact slope between any two points. */
  lemma LinearIsIdentity(x: real, a: real, b: real)
    requires a != b
    ensures Linear(x) == x
    ensures (Linear(b) - Linear(a)) / (b - a) == LinearDerivative(x)
  {
  }

  /** The logistic derivative is a parabola with its vertex at (1/2, 1/4). */
  lemma SigmoidDerivativeVertex(s: real)
    ensures SigmoidDerivative(s) == 0.25 - (s - 0.5) * (s - 0.5)
  {
  }

  /** Zero at both saturation points, and symmetric about one half. */
  lemma SigmoidDerivativeShape(s: real)
    ensures SigmoidDerivative(0.0) == 0.0 && SigmoidDerivative(1.0) == 0.0
    ensures SigmoidDerivative(s) == SigmoidDerivative(1.0 - s)
  {
  }

  /** On the logistic function's range [0, 1] the derivative lies in [0, 1/4]. */
  lemma SigmoidDerivativeBounds(s: real)
    requires 0.0 <= s <= 1.0
    ensures 0.0 <= SigmoidDerivative(s) <= 0.25
  {
    ProductNonNegative(s, 1.0 - s);
    ProductNonNegative(s - 0.5, s - 0.5);
    SigmoidDerivativeVertex(s);
  }

  /** Zero at plus and minus one, one at zero, and an even function. */
  lemma TanhDerivativeShape(t: real)
    ensures TanhDerivative(1.0) == 0.0 && TanhDerivative(-1.0) == 0.0
    ensures TanhDerivative(0.0) == 1.0
    ensures TanhDerivative(-t) == TanhDerivative(t)
  {
  }

  /** On the hyperbolic tangent's range [-1, 1] the derivative lies in [0, 1]. */
  lemma TanhDerivativeBounds(t: real)
    requires -1.0 <= t <= 1.0
    ensures 0.0 <= TanhDerivative(t) <= 1.0
  {
    // 1 - t * t = (1 - t) * (1 + t), a product of two non-negative factors
    ProductNonNegative(1.0 - t, 1.0 + t);
    ProductNonNegative(t, t);
  }

  /**
   * The two output-based derivatives agree with tanh(x) = 2 sigmoid(2x) - 1:
   * differentiating gives tanh'(x) = 4 sigmoid'(2x), and indeed
   * 1 - (2s - 1)^2 = 4 s (1 - s).
   */
  lemma TanhSigmoidDerivatives(s: real)
    ensures TanhDerivative(2.0 * s - 1.0) == 4.0 * SigmoidDerivative(s)
  {
  }

  lemma ProductNonNegative(a: real, b: real)
    ensures 0.0 <= a && 0.0 <= b ==> 0.0 <= a * b
    ensures a == b ==> 0.0 <= a * b
  {
  }
}
