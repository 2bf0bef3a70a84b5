/**
 * Floating-point operations the kernels use. Values are reals; std::sqrt and std::exp
 * are not given a definition and are passed to the kernels as parameters.
 */
module Numerics {

  /** The two transcendental functions of <cmath> the engine calls. */
  datatype Math = Math(sqrt: real -> real, exp: real -> real)

  /**
   * Float division. Where the divisor is zero the float result is an infinity or
   * NaN; that value is not modelled and 0.0 is taken instead.
   */
  function Quot(a: real, b: real): real
  {
    if b == 0.0 then 0.0 else a / b
  }

  /** std::max(a, b) and std::min(a, b) on floats: the first argument unless the other is strictly better. */
  function Max(a: real, b: real): real
  {
    if a < b then b else a
  }

  function Min(a: real, b: real): real
  {
    if b < a then b else a
  }
}
