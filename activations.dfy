/** The scalar activation functions of the network and their derivatives, the derivatives
    written in terms of the activation's OUTPUT y rather than its input. */
module Activations {

  /** The activation kind, one for the whole network. */
  datatype Activation = Sigmoid | Relu | Tanh | Sin

  /** The transcendental functions the activations rest on, supplied by the caller:
      1 / (1 + e^-x), (e^x - e^-x) / (e^x + e^-x), sin x, and cos (asin y). */
  datatype Transcendental = Transcendental(
    sigmoid: real -> real,
    tanh: real -> real,
    sin: real -> real,
    cosAsin: real -> real)

  /** The default slope of the ReLU derivative on negative outputs. */
  const DefaultReluLeak: real := 0.01

  /** max(0, x), written as std::max evaluates it. */
  function Relu(x: real): (y: real)
    ensures y >= 0.0 && y >= x
    ensures y == x || y == 0.0
  {
    if 0.0 < x then x else 0.0
  }

  /** The activation of kind `act` applied to x. */
  function Actf(x: real, act: Activation, tf: Transcendental): (y: real)
    ensures act.Relu? ==> y >= 0.0 && y >= x && (y == x || y == 0.0)
  {
    match act
    case Sigmoid => tf.sigmoid(x)
    case Relu => Relu(x)
    case Tanh => tf.tanh(x)
    case Sin => tf.sin(x)
  }

  /** The derivative of the activation of kind `act`, given its output y. */
  function Dactf(y: real, act: Activation, leak: real, tf: Transcendental): (d: real)
    ensures act.Relu? ==> (d == 1.0 <==> y >= 0.0 || leak == 1.0) && (d == 1.0 || d == leak)
  {
    match act
    case Sigmoid => y * (1.0 - y)
    case Relu => if y >= 0.0 then 1.0 else leak
    case Tanh => 1.0 - y * y
    case Sin => tf.cosAsin(y)
  }

  /** On an actual ReLU output the derivative is 1 and the leak is never used; on a
      negative value, which ReLU never outputs, it is the leak. */
  lemma ReluDerivativeOnOutputs(x: real, y: real, leak: real, tf: Transcendental)
    ensures Dactf(Actf(x, Activation.Relu, tf), Activation.Relu, leak, tf) == 1.0
    ensures y < 0.0 ==> Dactf(y, Activation.Relu, leak, tf) == leak
  {
  }

  /** For a sigmoid output y in [0, 1] the derivative y (1 - y) lies in [0, 1/4]. */
  lemma SigmoidDerivativeBounds(y: real, leak: real, tf: Transcendental)
    requires 0.0 <= y <= 1.0
    ensures 0.0 <= Dactf(y, Sigmoid, leak, tf) <= 0.25
  {
    var z := 1.0 - y;
    ProductNonNegative(y, z);
    var d := y - 0.5;
    SquareNonNegative(d);
    calc {
      y * z;
      == (0.5 + d) * (0.5 - d);
      == 0.25 - d * d;
    }
  }

  /** For a tanh output y in [-1, 1] the derivative 1 - y^2 lies in [0, 1]. */
  lemma TanhDerivativeBounds(y: real, leak: real, tf: Transcendental)
    requires -1.0 <= y <= 1.0
    ensures 0.0 <= Dactf(y, Tanh, leak, tf) <= 1.0
  {
    var u, v := 1.0 - y, 1.0 + y;
    ProductNonNegative(u, v);
    SquareNonNegative(y);
    calc {
      u * v;
      == 1.0 - y * y;
    }
  }

  lemma ProductNonNegative(a: real, b: real)
    requires 0.0 <= a && 0.0 <= b
    ensures 0.0 <= a * b
  {
  }

  lemma SquareNonNegative(a: real)
    ensures 0.0 <= a * a
  {
    if a < 0.0 {
      ProductNonNegative(-a, -a);
    } else {
      ProductNonNegative(a, a);
    }
  }
}
