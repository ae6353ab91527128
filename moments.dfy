/**
 * What the treatment model computes, given that the numeric routines obey the
 * laws of the real `exp`, `log` and `sqrt`: the method-of-moments fit is undone
 * by the back-transform in the order-quantity rule, and a disruption changes the
 * mean of demand as well as its spread. Also the exact critical fractiles.
 */
module Moments {
  import opened Numerics
  import opened Newsvendor

  /**
   * Where `exp`, `log` and `sqrt` obey their real laws, the distribution fitted to
   * a profile has that profile's mean: the back-transform exp(mu + sigma^2 / 2)
   * inverts the method-of-moments fit.
   */
  lemma FitRecoversMean(num: Numpy, idx: int)
    requires Lawful(num)
    requires 0 <= idx < |Distributions|
    ensures BackTransformedMean(num, ParametersFromTreatment(num, idx)) == Distributions[idx].naturalMean
  {
    var p := ParametersFromTreatment(num, idx);
    var m := Distributions[idx].naturalMean;
    var s := Distributions[idx].naturalSigma;
    ProfileArithmetic(idx);
    var v := Square(s) + Square(m);
    var r := num.sqrt(v);
    assert r > 0.0 by { assert SqrtPositiveAt(num, v); }
    assert p.mu == num.log(Square(m)) - num.log(v) / 2.0 by {
      assert LogDivides(num, Square(m), r);
      assert LogHalvesSqrt(num, v);
    }
    var b := Square(s) / Square(m) + 1.0;
    var l := num.log(b);
    assert Square(p.sigma) == l by {
      assert LogNonNegative(num, b);
      assert SqrtSquares(num, l);
    }
    assert l == num.log(v) - num.log(Square(m)) by { assert LogDivides(num, v, Square(m)); }
    assert num.log(Square(m)) == 2.0 * num.log(m) by { assert LogMultiplies(num, m, m); }
    assert p.mu + Square(p.sigma) / 2.0 == num.log(m);
    assert ExpInvertsLog(num, m);
  }

  /**
   * The second moment of the method-of-moments fit: where `exp`, `log` and `sqrt`
   * obey their real laws, the standard deviation of the fitted log-normal
   * distribution is the profile's standard deviation.
   */
  lemma FitRecoversSigma(num: Numpy, idx: int)
    requires Lawful(num)
    requires 0 <= idx < |Distributions|
    ensures BackTransformedSigma(num, ParametersFromTreatment(num, idx)) == Distributions[idx].naturalSigma
  {
    var p := ParametersFromTreatment(num, idx);
    var m := Distributions[idx].naturalMean;
    var s := Distributions[idx].naturalSigma;
    ProfileArithmetic(idx);
    var b := Square(s) / Square(m) + 1.0;
    assert Square(p.sigma) == num.log(b) by {
      assert LogNonNegative(num, b);
      assert SqrtSquares(num, num.log(b));
    }
    assert num.exp(Square(p.sigma)) == b by { assert ExpInvertsLog(num, b); }
    var h := p.mu + Square(p.sigma) / 2.0;
    assert num.exp(h) == m by { FitRecoversMean(num, idx); }
    assert num.exp(2.0 * p.mu + Square(p.sigma)) == Square(m) by {
      assert 2.0 * p.mu + Square(p.sigma) == h + h;
      assert ExpAdds(num, h, h);
    }
    VarianceOfProfile(idx);
    var v := num.exp(Square(p.sigma)) - 1.0;
    var w := num.exp(2.0 * p.mu + Square(p.sigma));
    EqualProducts(v, w, b - 1.0, Square(m));
    assert v * w == Square(s);
    assert SqrtSquares(num, Square(s));
    SqrtOfSquare(num.sqrt(Square(s)), s);
    assert BackTransformedSigma(num, p) == num.sqrt(v * w) == s;
  }

  /** The standard deviation of the log-normal distribution with parameters `p`. */
  function BackTransformedSigma(num: Numpy, p: DistributionParameters): real {
    num.sqrt((num.exp(Square(p.sigma)) - 1.0) * num.exp(2.0 * p.mu + Square(p.sigma)))
  }

  /** For each profile, (s^2 / m^2 + 1 - 1) * m^2 == s^2, and s is non-negative. */
  lemma VarianceOfProfile(idx: int)
    requires 0 <= idx < |Distributions|
    ensures var m, s := Distributions[idx].naturalMean, Distributions[idx].naturalSigma;
      && (Square(s) / Square(m) + 1.0 - 1.0) * Square(m) == Square(s)
      && s >= 0.0
  {
  }

  /** Equal factors give equal products. */
  lemma EqualProducts(x: real, y: real, x2: real, y2: real)
    requires x == x2 && y == y2
    ensures x * y == x2 * y2
  {
  }

  /** A non-negative number whose square is s^2, for s non-negative, is s. */
  lemma SqrtOfSquare(r: real, s: real)
    requires r >= 0.0 && s >= 0.0 && Square(r) == Square(s)
    ensures r == s
  {
    assert (r - s) * (r + s) == Square(r) - Square(s) == 0.0;
    if r + s > 0.0 {
      assert r - s == (r - s) * (r + s) / (r + s);
    }
  }

  /**
   * The critical fractile is the probability of selling out at which the expected
   * cost of one more unit ordered, the overage cost times the chance it is left
   * over, balances the expected margin it saves, the underage cost times the
   * chance it is sold.
   */
  lemma CriticalFractileBalances(c: UnitCosts)
    requires c.rcpu != c.scpu
    ensures CriticalFractile(c) * Overage(c) == (1.0 - CriticalFractile(c)) * Underage(c)
  {
  }

  /**
   * The fractile is 11/19 for the default triple and 18.5/19 = 37/38 for
   * treatment 3.
   */
  lemma CriticalFractileOfTreatment(idx: int)
    ensures CriticalFractile(CostsFromTreatment(idx)) == if idx == 3 then 37.0 / 38.0 else 11.0 / 19.0
  {
  }

  /**
   * Two distinct treatments share a demand profile exactly when they are 0 and 4,
   * 1 and 5, or 2 and 3; of these, only 2 and 3 differ in their unit costs.
   */
  lemma SharedProfiles(i: int, j: int)
    requires 0 <= i < j < |Distributions|
    ensures Distributions[i] == Distributions[j] <==> (i, j) in {(0, 4), (1, 5), (2, 3)}
    ensures Distributions[i] == Distributions[j] && CostsFromTreatment(i) != CostsFromTreatment(j) <==> (i, j) == (2, 3)
  {
  }

  /**
   * Where the numeric routines obey their real laws, the optimal order quantity
   * of a freshly fitted treatment is the profile's own mean times
   * exp(ppf(cf) * sigma).
   */
  lemma OrderQuantityOfFit(num: Numpy, idx: int)
    requires Lawful(num)
    requires 0 <= idx < |Distributions|
    ensures var p := ParametersFromTreatment(num, idx);
      OptimalOrderQuantity(num, CostsFromTreatment(idx), p)
      == ScaledByQuantile(num, Distributions[idx].naturalMean, num.ppf(CriticalFractile(CostsFromTreatment(idx))), p.sigma)
  {
    FitRecoversMean(num, idx);
  }

  /**
   * Doubling sigma, as a disruption does, leaves mu alone but multiplies the mean
   * of the log-normal distribution by exp(3 sigma^2 / 2): a disruption raises
   * expected demand as well as its spread.
   */
  lemma DisruptionRaisesMean(num: Numpy, p: DistributionParameters)
    requires Lawful(num)
    ensures BackTransformedMean(num, p.(sigma := 2.0 * p.sigma))
      == BackTransformedMean(num, p) * num.exp(3.0 * Square(p.sigma) / 2.0)
  {
    var before := p.mu + Square(p.sigma) / 2.0;
    assert p.mu + Square(2.0 * p.sigma) / 2.0 == before + 3.0 * Square(p.sigma) / 2.0;
    assert ExpAdds(num, before, 3.0 * Square(p.sigma) / 2.0);
  }

  /**
   * Under the real laws, with z = ppf(cf), the order quantity is the log-normal
   * quantile at the critical fractile, exp(mu + z * sigma), times exp(sigma^2 / 2):
   * the rule scales the mean, not the median exp(mu), by exp(z * sigma).
   */
  lemma OrderQuantityFactorises(num: Numpy, c: UnitCosts, p: DistributionParameters, z: real)
    requires c.rcpu != c.scpu
    requires Lawful(num)
    requires z == num.ppf(CriticalFractile(c))
    ensures OptimalOrderQuantity(num, c, p) == num.exp(p.mu + z * p.sigma) * num.exp(Square(p.sigma) / 2.0)
  {
    assert ExpAdds(num, p.mu, Square(p.sigma) / 2.0) && ExpAdds(num, p.mu, z * p.sigma);
    assert OptimalOrderQuantity(num, c, p) == ScaledByQuantile(num, BackTransformedMean(num, p), z, p.sigma);
    MeanScaledByQuantile(num, p, z);
  }

  /** The mean scaled by exp(z * sigma) is the quantile exp(mu + z * sigma) times exp(sigma^2 / 2). */
  lemma MeanScaledByQuantile(num: Numpy, p: DistributionParameters, z: real)
    requires ExpAdds(num, p.mu, Square(p.sigma) / 2.0) && ExpAdds(num, p.mu, z * p.sigma)
    ensures ScaledByQuantile(num, BackTransformedMean(num, p), z, p.sigma)
      == num.exp(p.mu + z * p.sigma) * num.exp(Square(p.sigma) / 2.0)
  {
    var a, b, e := num.exp(p.mu), num.exp(Square(p.sigma) / 2.0), num.exp(z * p.sigma);
    assert (a * b) * e == (a * e) * b;
  }
}
