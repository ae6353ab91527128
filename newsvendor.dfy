/**
 * The pure part of the newsvendor treatment model: the six demand profiles,
 * the per-unit economics of a treatment, the method-of-moments fit of a
 * log-normal demand distribution, the critical fractile and the optimal order
 * quantity.
 */
module Newsvendor {
  import opened Numerics

  /** A demand profile: the mean and standard deviation of demand itself. */
  datatype Profile = Profile(naturalMean: real, naturalSigma: real)

  /** The fixed table of profiles a treatment index selects from. */
  const Distributions: seq<Profile> := [
    Profile(100.0, 50.0),
    Profile(100.0, 100.0),
    Profile(500.0, 150.0),
    Profile(500.0, 150.0),
    Profile(100.0, 50.0),
    Profile(100.0, 100.0)
  ]

  /** Retail, wholesale and salvage price per unit, as exact currency amounts. */
  datatype UnitCosts = UnitCosts(rcpu: real, wcpu: real, scpu: real)

  /** The triple every treatment uses except index 3. */
  const DefaultCosts := UnitCosts(25.0, 14.0, 6.0)

  /** The triple of treatment index 3. */
  const AlternateCosts := UnitCosts(24.0, 5.5, 5.0)

  /** Log-normal location and scale of demand. */
  datatype DistributionParameters = DistributionParameters(mu: real, sigma: real)

  /** Cost of each unit ordered but not sold. */
  function Overage(c: UnitCosts): real { c.wcpu - c.scpu }

  /** Margin lost on each unit demanded but not ordered. */
  function Underage(c: UnitCosts): real { c.rcpu - c.wcpu }

  /** Both the overage and the underage cost are positive. */
  predicate Ordered(c: UnitCosts) {
    Overage(c) > 0.0 && Underage(c) > 0.0
  }

  /**
   * The unit costs of a treatment. The index is not range-checked: every
   * integer other than 3 gets the default triple.
   */
  function CostsFromTreatment(idx: int): (c: UnitCosts)
    ensures Ordered(c)
    ensures c == AlternateCosts <==> idx == 3
    ensures c == DefaultCosts <==> idx != 3
  {
    if idx == 3 then AlternateCosts else DefaultCosts
  }

  /** The critical fractile underage / (underage + overage). */
  function CriticalFractile(c: UnitCosts): (cf: real)
    requires c.rcpu != c.scpu
    ensures Ordered(c) ==> 0.0 < cf < 1.0
  {
    Underage(c) / (Underage(c) + Overage(c))
  }

  /** The mean of the log-normal distribution with parameters `p`. */
  function BackTransformedMean(num: Numpy, p: DistributionParameters): real {
    num.exp(p.mu + Square(p.sigma) / 2.0)
  }

  /**
   * The method-of-moments fit of a log-normal distribution to the profile of
   * treatment `idx`: mu = log(m ** 2 / sqrt(s ** 2 + m ** 2)),
   * sigma = sqrt(log(s ** 2 / m ** 2 + 1)). Under the real laws sigma is never
   * negative; `Moments.FitRecoversMean` shows the fit reproduces the profile's mean.
   */
  function ParametersFromTreatment(num: Numpy, idx: int): (p: DistributionParameters)
    requires 0 <= idx < |Distributions|
    ensures Lawful(num) ==> p.sigma >= 0.0
  {
    var m := Distributions[idx].naturalMean;
    var s := Distributions[idx].naturalSigma;
    ProfileArithmetic(idx);
    assert SqrtPositiveAt(num, Square(s) + Square(m));
    var ratio := Square(s) / Square(m) + 1.0;
    assert Lawful(num) ==> LogNonNegative(num, ratio) && SqrtSquares(num, num.log(ratio));
    DistributionParameters(
      num.log(Square(m) / num.sqrt(Square(s) + Square(m))),
      num.sqrt(num.log(ratio)))
  }

  /**
   * The optimal order quantity: the mean of the log-normal distribution `p`
   * times exp(ppf(cf) * sigma). This is not the log-normal quantile at the
   * critical fractile, exp(mu + ppf(cf) * sigma), but that quantile times
   * exp(sigma^2 / 2) (see `Moments.OrderQuantityFactorises`).
   */
  function OptimalOrderQuantity(num: Numpy, c: UnitCosts, p: DistributionParameters): (q: real)
    requires c.rcpu != c.scpu
    ensures ExpPositive(num) ==> q > 0.0
  {
    ScaledByQuantile(num, BackTransformedMean(num, p), num.ppf(CriticalFractile(c)), p.sigma)
  }

  /** `mean` times exp(z * sigma), for a standard-normal quantile z. */
  function ScaledByQuantile(num: Numpy, mean: real, z: real, sigma: real): real {
    mean * num.exp(z * sigma)
  }

  /** The arithmetic facts about the profile table that the fit relies on. */
  lemma ProfileArithmetic(idx: int)
    requires 0 <= idx < |Distributions|
    ensures var m, s := Distributions[idx].naturalMean, Distributions[idx].naturalSigma;
      && m > 0.0
      && Square(m) > 0.0
      && Square(s) + Square(m) > 0.0
      && Square(s) / Square(m) + 1.0 >= 1.0
      && Square(s) / Square(m) + 1.0 == (Square(s) + Square(m)) / Square(m)
  {
  }
}
