# Newsvendor treatment model

A Dafny model of the treatment and demand component of the utk newsvendor
games (`utk-games/shorthorizon/treatment.py`). A participant is given one of six
treatments. The treatment index selects a demand profile (mean and standard
deviation of demand) and a triple of unit costs (retail, wholesale, salvage).
From these the component derives:

- the critical fractile underage / (underage + overage);
- a log-normal demand distribution fitted to the profile by the method of
  moments, derived lazily and cached on the treatment object;
- the optimal order quantity: the log-normal mean times exp(ppf(cf) * sigma).
  Under the real laws this is not the log-normal quantile at the critical
  fractile, exp(mu + ppf(cf) * sigma), but that quantile times exp(sigma^2 / 2);
- batches of simulated demand, cached by length. A "disruption" doubles the
  cached sigma for good.

Layout:

- `wrappers.dfy`: `Option` and `Result`.
- `numerics.dfy`: the numeric routines the component calls but does not define
  (numpy `log`, `sqrt`, `exp`, scipy `norm.ppf`, the `numpy.random.lognormal`
  sampler). They are values passed as parameters. `Lawful` states the laws of
  the real functions; lemmas that need them take them as a precondition.
- `newsvendor.dfy`: the profile table, the unit costs, the fractile, the fit and
  the order quantity, as functions.
- `moments.dfy`: what these compute under the real laws. The fit is undone by the
  back-transform. A disruption also raises mean demand. The fractiles are exact.
- `demand.dfy`: the cached fields as a value (`Cache`) and each call as a pure
  transition. The lemmas cover lazy fitting, cache reuse, redrawing, and
  disruptions that compound over any sequence of calls.
- `treatment.dfy`: the `Treatment` class. Its methods update the fields in place,
  and each method's postcondition equates the result and the new fields with a
  transition from `demand.dfy`.

Decisions taken from the code:

- The index is declared with `conint(ge=0, le=5)` only as a default value, so it
  is never checked. Here `0 <= idx < 6` is a precondition of the constructor
  (`Valid()`); no operation is claimed to reject a bad index.
  `CostsFromTreatment` takes any integer, as `UnitCosts.from_treatment` does.
- The order quantity reads the cached, possibly disrupted, parameters. It
  depends on the index and the cache, not on the index alone.
- The sample cache is reused when its length matches, whatever parameters it
  was drawn with. `CachedBatchIsCurrent` shows that one `get_demand_rvs`
  call preserves a current cache, because every disruption draws a new batch.
- `size` is given as `SizeArg`: omitted, an `int`, or a value of another type
  (a float or a bool fails `type(size) is int`). An omitted size becomes 10000.
  The assertion failure is an `Err` that leaves every field unchanged.
- Currency amounts are exact reals. Python's `x ** 2` on floats is `Square`.

## Model

| member | source | states |
|---|---|---|
| Newsvendor.CostsFromTreatment | utk-games/shorthorizon/treatment.py:95-108 | The triple is (24, 5.5, 5) exactly when idx is 3 and (25, 14, 6) for every other integer; in both, wholesale exceeds salvage and retail exceeds wholesale |
| Newsvendor.CriticalFractile | utk-games/shorthorizon/treatment.py:153-156 | For costs with positive overage and underage the fractile lies strictly between 0 and 1 |
| Newsvendor.OptimalOrderQuantity | utk-games/shorthorizon/treatment.py:160-162 | Where exp is positive, the order quantity is positive |
| Newsvendor.ParametersFromTreatment | utk-games/shorthorizon/treatment.py:115-122 | Under the real laws the fitted sigma is never negative; that the fit matches both moments of the profile is Moments.FitRecoversMean (the mean) and Moments.FitRecoversSigma (the standard deviation) |
| Newsvendor.ProfileArithmetic | utk-games/shorthorizon/treatment.py:85-92 | Every profile in the table has a positive mean, so the divisions and the inner log argument (at least 1) of the fit are defined |
| Moments.FitRecoversSigma | utk-games/shorthorizon/treatment.py:116-122 | Under the real laws, the standard deviation sqrt((exp(sigma^2) - 1) * exp(2 mu + sigma^2)) of the fitted log-normal distribution is the profile's natural sigma: the fit matches the second moment as well as the first |
| Moments.FitRecoversMean | utk-games/shorthorizon/treatment.py:116-122 | Under the real laws of exp, log and sqrt, exp(mu + sigma^2/2) of the fitted parameters is the profile's natural mean: the back-transform in the order-quantity rule inverts the method-of-moments fit |
| Moments.CriticalFractileBalances | utk-games/shorthorizon/treatment.py:153-156 | cf * overage == (1 - cf) * underage: the fractile balances the expected cost of a leftover unit against the expected margin of a sold one |
| Moments.CriticalFractileOfTreatment | utk-games/shorthorizon/treatment.py:153-156 | The fractile is 37/38 (18.5/19) for index 3 and 11/19 for every other index |
| Moments.SharedProfiles | utk-games/shorthorizon/treatment.py:85-92 | Distinct indices share a profile exactly for the pairs (0,4), (1,5), (2,3), and only 2 and 3 then differ in unit costs |
| Moments.OrderQuantityOfFit | utk-games/shorthorizon/treatment.py:152-162 | Under the real laws, the order quantity for freshly fitted parameters is the profile's mean times exp(ppf(cf) * sigma) |
| Moments.OrderQuantityFactorises | utk-games/shorthorizon/treatment.py:153-162 | Under the real laws, with z = ppf(cf), the order quantity is the log-normal quantile exp(mu + z * sigma) times exp(sigma^2 / 2): the mean, not the median exp(mu), is what gets scaled |
| Moments.DisruptionRaisesMean | utk-games/shorthorizon/treatment.py:183-187 | Under the real laws, doubling sigma with mu kept multiplies the log-normal mean by exp(3 sigma^2 / 2) |
| Demand.CheckedSize | utk-games/shorthorizon/treatment.py:176-178 | A size passes exactly when it is omitted (then 10000) or a positive int (then itself) |
| Demand.Parameters | utk-games/shorthorizon/treatment.py:168-171 | Afterwards both parameters are set and equal the returned pair; the sample cache is untouched |
| Demand.DemandRvs | utk-games/shorthorizon/treatment.py:173-189 | A call fails exactly when the size check fails, and then changes nothing; a successful call returns a batch of the checked size and that batch is what is cached |
| Demand.OrderQuantity | utk-games/shorthorizon/treatment.py:152-157 | Where exp is positive the quantity is positive; afterwards the parameters are set and the sample cache is untouched; parameters already set, disrupted or not, are kept exactly |
| Demand.ParametersIdempotent | utk-games/shorthorizon/treatment.py:168-171 | A second derivation returns the same pair and changes nothing |
| Demand.ParametersLazy | utk-games/shorthorizon/treatment.py:168-171 | With both parameters set, they are returned and nothing changes; otherwise the pair fitted to the profile table is returned |
| Demand.CacheHit | utk-games/shorthorizon/treatment.py:180-181 | A cached batch of the checked size is returned with nothing changed when no disruption is asked for |
| Demand.Redraw | utk-games/shorthorizon/treatment.py:183-189 | Otherwise a new batch of the checked size is drawn at mu and at sigma (doubled on a disruption); it is returned and cached, and the cache holds mu and that sigma |
| Demand.CallParameters | utk-games/shorthorizon/treatment.py:183-187 | One call leaves mu as it was and doubles sigma exactly when it passes the size check and disrupts |
| Demand.DisruptionsCompound | utk-games/shorthorizon/treatment.py:183-187 | After any sequence of calls, mu is unchanged and sigma has been doubled once per disrupting call |
| Demand.DoubledIsPower | utk-games/shorthorizon/treatment.py:186 | Doubling k times multiplies sigma by 2^k |
| Demand.NoDisruptionKeepsParameters | utk-games/shorthorizon/treatment.py:180-189 | Calls without disruption never change the parameters, so an earlier disruption is never reverted |
| Demand.CachedBatchIsCurrent | utk-games/shorthorizon/treatment.py:180-189 | If the cache was drawn at the held parameters before a call, it is so afterwards too (by the earlier sampler or the call's own) |
| Demand.OrderQuantityAfterDisruption | utk-games/shorthorizon/treatment.py:157 | After a disrupting call, the order quantity uses mu and the doubled sigma |
| Demand.FreshOrderQuantity | utk-games/shorthorizon/treatment.py:152-162 | Under the real laws, a new treatment's order quantity is its profile's mean times exp(ppf(cf) * sigma) |
| Treatments.Treatment.constructor | utk-games/shorthorizon/treatment.py:135-139 | A new treatment keeps its index, and mu, sigma and the sample cache start unset and empty |
| Treatments.Treatment.Choose | utk-games/shorthorizon/treatment.py:144-146 | The chosen index lies in [0, 5] and nothing is derived yet |
| Treatments.Treatment.GetUnitCosts | utk-games/shorthorizon/treatment.py:165-166 | The alternate triple for index 3, the default otherwise, both ordered |
| Treatments.Treatment.GetDistributionParameters | utk-games/shorthorizon/treatment.py:168-171 | Result and new fields are the lazy-derivation transition of the old fields |
| Treatments.Treatment.GetDemandRvs | utk-games/shorthorizon/treatment.py:173-189 | Result and new fields are the sampling transition of the old fields |
| Treatments.Treatment.GetOptimalOrderQuantity | utk-games/shorthorizon/treatment.py:152-162 | Result and new fields are the order-quantity transition of the old fields |

## Left out

- `games/disruption/models.py` is not part of this model. It holds oTree glue:
  template filters, player/group/subsession field declarations, participant
  hydration and the game-history bookkeeping.
- Floating point. The fit, the back-transform and the quantile use real
  arithmetic. `log`, `sqrt`, `exp` and `norm.ppf` are unspecified functions.
  The one assumption built into their type is that the square root of a positive
  number is positive. Nothing is claimed about their values (`sigma > 0`, ranges
  of the order quantity) except under `Lawful`, which floats satisfy only up to
  rounding.
- Randomness. `random.choice` in `Choose` is a nondeterministic pick of an index
  in range. `numpy.random.lognormal` is a `Sampler` passed with each call, and
  the only thing it promises is a batch of the requested length. Nothing about
  the distribution of the draws is modelled.
- oTree `Currency` amounts are exact reals. Any rounding that `Currency` applies
  (it depends on project settings outside this component) is not modelled.
- Serialization: `PydanticModel.tuple/from_args/dict/json`, `Treatment.from_json`,
  `parse_raw`, the currency JSON encoder, and extra fields allowed on a
  treatment are pydantic library behaviour.
- A treatment built without an index gets the `conint` type itself as `idx`, and
  any out-of-range index is kept. These are outside the constructor's
  precondition. So are Python's negative list indexing and the `IndexError`
  that a bad index causes in the fit.
- `Treatments.Treatment.GetDemandRvs` returns the cached batch as a value. That
  `get_demand_rvs` returns the `_demand_rvs` list object itself, which a caller
  could then change, is not captured.
- The `natural_sigma` computed but unused in the order-quantity rule, and the
  commented-out formulas beside the fit and the order quantity. The same
  standard-deviation formula appears as `Moments.BackTransformedSigma`. It is
  only a reference for checking the fit, not part of the order quantity.
