/**
 * Activation functions, their derivatives written in terms of the activation's
 * own output, and the uniform weight sampler.
 *
 * The concrete `exp`-based sigmoid and the C library `tanh` are not modelled:
 * the network is parameterised by an `Act` value whose two functions are only
 * known to satisfy the range facts of `InRange`.
 */
module Activations {

  /** The two activation functions used by the network. */
  datatype Act = Act(sigmoid: real -> real, tanh: real -> real)

  /** Range facts of the logistic sigmoid and of the hyperbolic tangent. */
  ghost predicate InRange(act: Act) {
    && (forall x :: 0.0 < act.sigmoid(x) < 1.0)
    && (forall x :: -1.0 < act.tanh(x) < 1.0)
  }

  /** Derivative of the sigmoid, given its output `y` (`d_sigmoide`). */
  function DSigmoid(y: real): real {
    y * (1.0 - y)
  }

  /** Derivative of tanh, given its output `y` (`d_tanh`). */
  function DTanh(y: real): real {
    1.0 - y * y
  }

  /** On outputs of the sigmoid the derivative is positive and at most 1/4. */
  lemma DSigmoidRange(y: real)
    requires 0.0 < y < 1.0
    ensures 0.0 < DSigmoid(y) <= 0.25
  {
    assert DSigmoid(y) == 0.25 - (y - 0.5) * (y - 0.5);
    assert 0.0 < y * (1.0 - y) by {
      assert 1.0 - y > 0.0;
      MulPositive(y, 1.0 - y);
    }
  }

  /** The sigmoid derivative vanishes exactly at the saturation points 0 and 1. */
  lemma DSigmoidZero(y: real)
    ensures DSigmoid(y) == 0.0 <==> y == 0.0 || y == 1.0
  {
    if DSigmoid(y) == 0.0 && y != 0.0 {
      assert y * (1.0 - y) == 0.0;
      ZeroProduct(y, 1.0 - y);
    }
  }

  /** On outputs of tanh the derivative is positive and at most 1. */
  lemma DTanhRange(y: real)
    requires -1.0 < y < 1.0
    ensures 0.0 < DTanh(y) <= 1.0
  {
    assert 0.0 <= y * y by { SquareNonNegative(y); }
    assert y * y < 1.0 by {
      assert (1.0 - y) * (1.0 + y) == 1.0 - y * y;
      MulPositive(1.0 - y, 1.0 + y);
    }
  }

  lemma MulPositive(a: real, b: real)
    requires a > 0.0 && b > 0.0
    ensures a * b > 0.0
  {
  }

  lemma SquareNonNegative(a: real)
    ensures a * a >= 0.0
  {
    if a < 0.0 {
      MulPositive(-a, -a);
    }
  }

  lemma ZeroProduct(a: real, b: real)
    requires a * b == 0.0 && a != 0.0
    ensures b == 0.0
  {
    assert b == (a * b) / a;
  }

  /** `RAND_MAX` of the C library (the glibc value). */
  const RandMax: int := 2147483647

  /** A draw of `rand()` is an integer in [0, RAND_MAX]. */
  predicate IsDraw(r: int) {
    0 <= r <= RandMax
  }

  /**
   * `aleatorio`: maps one supplied draw `r` of `rand()` linearly onto [-1, 1].
   * Both end points are reached, by the draws 0 and `RAND_MAX`.
   */
  function Random(r: int): (x: real)
    requires IsDraw(r)
    ensures -1.0 <= x <= 1.0
    ensures x == -1.0 <==> r == 0
    ensures x == 1.0 <==> r == RandMax
    ensures (x + 1.0) / 2.0 * RandMax as real == r as real
  {
    (r as real / RandMax as real) * 2.0 - 1.0
  }
}
