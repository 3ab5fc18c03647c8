/** The parts of JavaScript's `Math` object the component uses. Their real values
    are not modelled: `pi` is only known to be positive, `cos` and `sin` are
    arbitrary total functions, so every result holds for any such library. */
module Numerics {
  type PosReal = x: real | x > 0.0 witness 1.0

  datatype MathLib = MathLib(pi: PosReal, cos: real -> real, sin: real -> real)

  /** cos²θ + sin²θ = 1 at one point: the only trigonometric fact any lemma assumes,
      and only where it says so. */
  predicate Pythagorean(m: MathLib, radian: real) {
    m.cos(radian) * m.cos(radian) + m.sin(radian) * m.sin(radian) == 1.0
  }
}
