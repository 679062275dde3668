/** The two-operation interpolation contract used by LinearInterpolate. */
module Interpolation {

  /** `plus` and `between` of the interpolation traits, together with the
      scalar multiplication of a difference that the policy applies. */
  datatype Interp<!M> = Interp(plus: (M, M) -> M, between: (M, M) -> M, scale: (M, real) -> M)

  /** The default traits: arithmetic addition and subtraction. */
  function Additive(): Interp<real> {
    Interp((a: real, b: real) => a + b, (from: real, to: real) => to - from, (d: real, r: real) => d * r)
  }

  /** The value a fraction `ratio` of the way from `from` to `to`. */
  function Blend<M>(ip: Interp<M>, from: M, to: M, ratio: real): M {
    ip.plus(from, ip.scale(ip.between(from, to), ratio))
  }

  /** Adding the difference back recovers the target. */
  lemma AdditiveRoundTrip(a: real, b: real)
    ensures Additive().plus(a, Additive().between(a, b)) == b
  {
  }

  /** The default blend is the straight line through both samples. */
  lemma AdditiveBlend(a: real, b: real, ratio: real)
    ensures Blend(Additive(), a, b, ratio) == a + ratio * (b - a)
    ensures Blend(Additive(), a, b, 0.0) == a
    ensures Blend(Additive(), a, b, 1.0) == b
    ensures Blend(Additive(), a, b, 0.5) == (a + b) / 2.0
  {
  }
}
