/**
 * The numeric routines the treatment model calls but does not define: numpy's
 * `log`, `sqrt` and `exp`, scipy's standard-normal quantile `norm.ppf`, and the
 * `numpy.random.lognormal` sampler. They are not given bodies here; every
 * operation that uses them takes them as a parameter, so nothing proved about
 * the model depends on what they compute unless a lemma says so in its requires.
 */
module Numerics {

  /** numpy's `log`, `sqrt`, `exp` and scipy's `stats.norm.ppf`. */
  datatype Numerics = Numerics(
    log: real -> real,
    sqrt: real -> real,
    exp: real -> real,
    ppf: real -> real
  )

  /**
   * `numpy.random.lognormal(mu, sigma, size)`: the only promise relied on is that
   * a batch has exactly `size` draws. A caller passes the sampler for each draw,
   * so two draws with the same arguments need not agree.
   */
  type Sampler = f: (real, real, nat) -> seq<real> | forall mu: real, sigma: real, n: nat :: |f(mu, sigma, n)| == n
    witness (mu: real, sigma: real, n: nat) => seq(n, _ => 0.0)

  /**
   * The foreign routines as the model uses them: the square root of a positive
   * number is positive, which is what keeps the division in the method-of-moments
   * fit defined (a real `sqrt` and IEEE `sqrt` both satisfy it).
   */
  type Numpy = num: Numerics | SqrtPositive(num)
    witness Numerics(x => x, x => x, x => x, x => x)

  ghost predicate SqrtPositiveAt(num: Numerics, x: real) {
    x > 0.0 ==> num.sqrt(x) > 0.0
  }

  ghost predicate SqrtPositive(num: Numerics) {
    forall x: real :: SqrtPositiveAt(num, x)
  }

  /** Python's `x ** 2` on a float. */
  function Square(x: real): real {
    x * x
  }

  /** `exp` is positive everywhere. */
  ghost predicate ExpPositive(num: Numerics) {
    forall x: real :: num.exp(x) > 0.0
  }

  ghost predicate ExpAdds(num: Numerics, x: real, y: real) {
    num.exp(x + y) == num.exp(x) * num.exp(y)
  }

  ghost predicate ExpInvertsLog(num: Numerics, x: real) {
    x > 0.0 ==> num.exp(num.log(x)) == x
  }

  ghost predicate LogMultiplies(num: Numerics, x: real, y: real) {
    x > 0.0 && y > 0.0 ==> num.log(x * y) == num.log(x) + num.log(y)
  }

  ghost predicate LogDivides(num: Numerics, x: real, y: real) {
    x > 0.0 && y > 0.0 ==> num.log(x / y) == num.log(x) - num.log(y)
  }

  ghost predicate LogHalvesSqrt(num: Numerics, x: real) {
    x > 0.0 ==> num.log(num.sqrt(x)) == num.log(x) / 2.0
  }

  ghost predicate LogNonNegative(num: Numerics, x: real) {
    x >= 1.0 ==> num.log(x) >= 0.0
  }

  ghost predicate SqrtSquares(num: Numerics, x: real) {
    x >= 0.0 ==> num.sqrt(x) >= 0.0 && Square(num.sqrt(x)) == x
  }

  /**
   * The laws of the real `exp`, `log` and `sqrt` that the method-of-moments fit
   * and the disruption lemmas rely on. Floating point satisfies them only up to rounding.
   */
  ghost predicate Lawful(num: Numerics) {
    && ExpPositive(num)
    && (forall x: real, y: real :: ExpAdds(num, x, y))
    && (forall x: real :: ExpInvertsLog(num, x))
    && (forall x: real, y: real :: LogMultiplies(num, x, y))
    && (forall x: real, y: real :: LogDivides(num, x, y))
    && (forall x: real :: LogHalvesSqrt(num, x))
    && (forall x: real :: LogNonNegative(num, x))
    && (forall x: real :: SqrtSquares(num, x))
  }
}
