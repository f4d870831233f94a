/** Gaussian noise by the Box–Muller transform, with the floor on the first
    uniform draw that keeps the logarithm's argument positive. The uniform
    draws are inputs, and the transform itself (square root, logarithm and
    cosine) is an uninterpreted function that is defined only where its
    first argument lies in (0, 1]. */
module RandomSource {

  /** Smallest value the first uniform draw may take before its logarithm. */
  const U1_FLOOR: real := 0.0000001

  /** The two uniform draws consumed by one Gaussian deviate, in order. */
  datatype UniformPair = UniformPair(u1: real, u2: real)

  /** A uniform draw `rand() / RAND_MAX` lies in [0, 1]. */
  predicate UnitDraw(u: real)
  {
    0.0 <= u <= 1.0
  }

  /** The standard Box–Muller transform `sqrt(-2 log u1) * cos(2 pi u2)` is
      defined when `0 < u1 <= 1`: the logarithm needs a positive argument and
      the square root a non-negative `-2 log u1`. Outside that range the
      transform is not assumed to be defined. */
  ghost predicate BoxMullerDomain(transform: (real, real) --> real)
  {
    forall u1, u2 :: 0.0 < u1 <= 1.0 ==> transform.requires(u1, u2)
  }

  /** The draw that reaches the logarithm: `u1`, raised to the floor. */
  function LogArgument(u1: real): (a: real)
    ensures a >= U1_FLOOR && a > 0.0
    ensures u1 > U1_FLOOR ==> a == u1
    ensures u1 <= U1_FLOOR ==> a == U1_FLOOR
    ensures UnitDraw(u1) ==> a <= 1.0
  {
    if u1 <= U1_FLOOR then U1_FLOOR else u1
  }

  /** A deviate with the given mean and standard deviation: the transform of
      the floored first draw and the second draw, scaled by `stddev` and
      shifted by `mean`. A first draw above the floor reaches the transform
      unchanged; one at or below it is replaced by the floor, so the
      transform is only ever applied inside its domain. With a zero
      deviation the deviate is the mean itself. */
  function RandGaussian(mean: real, stddev: real, draw: UniformPair, transform: (real, real) --> real): (g: real)
    requires BoxMullerDomain(transform) && UnitDraw(draw.u1)
    ensures draw.u1 > U1_FLOOR ==> g == transform(draw.u1, draw.u2) * stddev + mean
    ensures draw.u1 <= U1_FLOOR ==> g == transform(U1_FLOOR, draw.u2) * stddev + mean
    ensures stddev == 0.0 ==> g == mean
  {
    transform(LogArgument(draw.u1), draw.u2) * stddev + mean
  }

  /** All first draws at or below the floor give the same deviate. */
  lemma GaussianFloorsFirstDraw(mean: real, stddev: real, u1: real, u2: real, transform: (real, real) --> real)
    requires BoxMullerDomain(transform) && UnitDraw(u1)
    ensures u1 <= U1_FLOOR ==>
      RandGaussian(mean, stddev, UniformPair(u1, u2), transform)
      == RandGaussian(mean, stddev, UniformPair(U1_FLOOR, u2), transform)
  {
  }
}
