/**
 * The state a treatment carries between calls, as pure transitions: the lazily
 * derived log-normal parameters, the cached batch of demand samples, and the
 * disruption that doubles sigma. The class in module Treatments performs these
 * transitions in place; the lemmas here say what sequences of calls do.
 */
module Demand {
  import opened Wrappers
  import opened Numerics
  import opened Newsvendor
  import Moments

  /** The sample size used when the caller gives none. */
  const DefaultSize: nat := 10000

  /**
   * The `size` argument of a demand draw: left out (or None), an `int`, or a value
   * of some other type, such as a float or a bool, that the type check refuses.
   */
  datatype SizeArg = Omitted | IntSize(n: int) | NonInt

  /** The failed assertion on the size, with the size it was given. */
  datatype DemandError = SizeNotPositiveInt(size: SizeArg)

  /** The private fields `_mu`, `_sigma` and `_demand_rvs` of a treatment. */
  datatype Cache = Cache(mu: Option<real>, sigma: Option<real>, demandRvs: seq<real>)

  /** The fields of a newly created treatment. */
  const Fresh := Cache(None, None, [])

  /** What a call returns, and the fields it leaves behind. */
  datatype Step<T> = Step(value: T, next: Cache)

  /** Both parameters are set. */
  predicate Cached(c: Cache) {
    c.mu.Some? && c.sigma.Some?
  }

  /** The parameters held in a cache where both are set. */
  function Held(c: Cache): DistributionParameters
    requires Cached(c)
  {
    DistributionParameters(c.mu.value, c.sigma.value)
  }

  /** The size a call draws, once an omitted size is defaulted; None where the assertion fails. */
  function CheckedSize(size: SizeArg): (r: Option<nat>)
    ensures r.Some? <==> size.Omitted? || (size.IntSize? && size.n > 0)
    ensures size.Omitted? ==> r == Some(DefaultSize)
    ensures size.IntSize? && size.n > 0 ==> r == Some(size.n)
  {
    var s := if size.Omitted? then IntSize(DefaultSize) else size;
    if s.IntSize? && s.n > 0 then Some(s.n) else None
  }

  /**
   * `get_distribution_parameters`: fit the profile's parameters while either
   * field is unset, then return the fields. The returned pair is what the fields
   * hold afterwards; the sample cache is not touched.
   */
  function Parameters(num: Numpy, idx: int, c: Cache): (s: Step<DistributionParameters>)
    requires 0 <= idx < |Distributions|
    ensures Cached(s.next) && Held(s.next) == s.value
    ensures s.next.demandRvs == c.demandRvs
  {
    if c.mu.None? || c.sigma.None? then
      var p := ParametersFromTreatment(num, idx);
      Step(p, c.(mu := Some(p.mu), sigma := Some(p.sigma)))
    else
      Step(Held(c), c)
  }

  /**
   * `get_demand_rvs`: check the size; reuse the cached batch when it has that
   * length and no disruption is asked for; otherwise fit the parameters if need
   * be, double sigma on a disruption, and draw and cache a new batch.
   */
  function DemandRvs(num: Numpy, idx: int, c: Cache, size: SizeArg, disrupt: bool, draw: Sampler)
    : (s: Step<Result<seq<real>, DemandError>>)
    requires 0 <= idx < |Distributions|
    ensures s.value.Err? <==> CheckedSize(size).None?
    ensures s.value.Err? ==> s.next == c
    ensures s.value.Ok? ==> |s.value.value| == CheckedSize(size).value && s.next.demandRvs == s.value.value
  {
    match CheckedSize(size)
    case None => Step(Err(SizeNotPositiveInt(size)), c)
    case Some(n) =>
      if |c.demandRvs| == n && !disrupt then
        Step(Ok(c.demandRvs), c)
      else
        var filled := Parameters(num, idx, c).next;
        // A disruption doubles sigma and multiplies mu by 1, keeping it.
        var current :=
          if disrupt then filled.(sigma := Some(filled.sigma.value * 2.0), mu := Some(filled.mu.value * 1.0))
          else filled;
        var batch := draw(current.mu.value, current.sigma.value, n);
        Step(Ok(batch), current.(demandRvs := batch))
  }

  /**
   * `get_optimal_order_quantity`: the order quantity for the treatment's unit
   * costs and its current, possibly disrupted, parameters, fitting them first
   * if they are unset.
   */
  function OrderQuantity(num: Numpy, idx: int, c: Cache): (s: Step<real>)
    requires 0 <= idx < |Distributions|
    ensures ExpPositive(num) ==> s.value > 0.0
    ensures Cached(s.next) && s.next.demandRvs == c.demandRvs
    ensures Cached(c) ==> s.next == c
  {
    var p := Parameters(num, idx, c);
    Step(OptimalOrderQuantity(num, CostsFromTreatment(idx), p.value), p.next)
  }

  /** Deriving the parameters twice returns the same pair and changes nothing the second time. */
  lemma ParametersIdempotent(num: Numpy, idx: int, c: Cache)
    requires 0 <= idx < |Distributions|
    ensures var s := Parameters(num, idx, c); Parameters(num, idx, s.next) == Step(s.value, s.next)
  {
  }

  /**
   * The profile table is consulted only while a parameter is unset; once both
   * are set they are returned as they are, and nothing changes.
   */
  lemma ParametersLazy(num: Numpy, idx: int, c: Cache)
    requires 0 <= idx < |Distributions|
    ensures Cached(c) ==> Parameters(num, idx, c) == Step(Held(c), c)
    ensures !Cached(c) ==> Parameters(num, idx, c).value == ParametersFromTreatment(num, idx)
  {
  }

  /**
   * A batch of the requested length is returned again, with nothing changed,
   * whenever no disruption is asked for, whatever parameters it was drawn with.
   */
  lemma CacheHit(num: Numpy, idx: int, c: Cache, size: SizeArg, draw: Sampler)
    requires 0 <= idx < |Distributions|
    requires CheckedSize(size) == Some(|c.demandRvs|)
    ensures DemandRvs(num, idx, c, size, false, draw) == Step(Ok(c.demandRvs), c)
  {
  }

  /**
   * Otherwise a new batch of the requested size is drawn at the current
   * parameters, sigma doubled first on a disruption and mu kept; the batch is
   * both returned and cached.
   */
  lemma Redraw(num: Numpy, idx: int, c: Cache, size: SizeArg, disrupt: bool, draw: Sampler)
    requires 0 <= idx < |Distributions|
    requires CheckedSize(size).Some?
    requires disrupt || |c.demandRvs| != CheckedSize(size).value
    ensures var p := Parameters(num, idx, c).value;
      var sigma := if disrupt then 2.0 * p.sigma else p.sigma;
      var batch := draw(p.mu, sigma, CheckedSize(size).value);
      DemandRvs(num, idx, c, size, disrupt, draw) == Step(Ok(batch), Cache(Some(p.mu), Some(sigma), batch))
  {
  }

  /** One call of `get_demand_rvs`, with the sampler that call draws from. */
  datatype Call = Call(size: SizeArg, disrupt: bool, draw: Sampler)

  /** The call passes the size check and asks for a disruption. */
  predicate Disrupts(call: Call) {
    call.disrupt && CheckedSize(call.size).Some?
  }

  /** The fields after making `calls` in order. */
  function Run(num: Numpy, idx: int, c: Cache, calls: seq<Call>): Cache
    requires 0 <= idx < |Distributions|
    decreases |calls|
  {
    if calls == [] then c
    else Run(num, idx, DemandRvs(num, idx, c, calls[0].size, calls[0].disrupt, calls[0].draw).next, calls[1..])
  }

  /** How many of the calls disrupt. */
  function Disruptions(calls: seq<Call>): nat
    decreases |calls|
  {
    if calls == [] then 0 else (if Disrupts(calls[0]) then 1 else 0) + Disruptions(calls[1..])
  }

  /** `sigma` doubled `k` times. */
  function Doubled(sigma: real, k: nat): real
    decreases k
  {
    if k == 0 then sigma else Doubled(2.0 * sigma, k - 1)
  }

  function Pow2(k: nat): nat {
    if k == 0 then 1 else 2 * Pow2(k - 1)
  }

  /** Doubling `k` times multiplies by 2^k. */
  lemma {:induction false} DoubledIsPower(sigma: real, k: nat)
    ensures Doubled(sigma, k) == sigma * Pow2(k) as real
    decreases k
  {
    if k > 0 {
      DoubledIsPower(2.0 * sigma, k - 1);
      assert (2.0 * sigma) * Pow2(k - 1) as real == sigma * (2 * Pow2(k - 1)) as real;
    }
  }

  /** The effect of one call on the parameters: sigma doubles exactly when the call disrupts. */
  lemma CallParameters(num: Numpy, idx: int, c: Cache, call: Call)
    requires 0 <= idx < |Distributions|
    ensures var p := Parameters(num, idx, c).value;
      var next := DemandRvs(num, idx, c, call.size, call.disrupt, call.draw).next;
      Parameters(num, idx, next).value
      == DistributionParameters(p.mu, if Disrupts(call) then 2.0 * p.sigma else p.sigma)
  {
  }

  /**
   * Disruptions compound and are never undone: after any sequence of calls, mu is
   * what it was and sigma has been doubled once for each disrupting call.
   */
  lemma {:induction false} DisruptionsCompound(num: Numpy, idx: int, c: Cache, calls: seq<Call>)
    requires 0 <= idx < |Distributions|
    ensures var p := Parameters(num, idx, c).value;
      Parameters(num, idx, Run(num, idx, c, calls)).value
      == DistributionParameters(p.mu, Doubled(p.sigma, Disruptions(calls)))
    decreases |calls|
  {
    if calls != [] {
      var next := DemandRvs(num, idx, c, calls[0].size, calls[0].disrupt, calls[0].draw).next;
      CallParameters(num, idx, c, calls[0]);
      DisruptionsCompound(num, idx, next, calls[1..]);
    }
  }

  /** Calls that do not disrupt leave the parameters as they are, disrupted or not. */
  lemma {:induction false} NoDisruptionKeepsParameters(num: Numpy, idx: int, c: Cache, calls: seq<Call>)
    requires 0 <= idx < |Distributions|
    requires forall i :: 0 <= i < |calls| ==> !calls[i].disrupt
    ensures Parameters(num, idx, Run(num, idx, c, calls)).value == Parameters(num, idx, c).value
  {
    NoDisruptionsCounted(calls);
    DisruptionsCompound(num, idx, c, calls);
  }

  lemma {:induction false} NoDisruptionsCounted(calls: seq<Call>)
    requires forall i :: 0 <= i < |calls| ==> !calls[i].disrupt
    ensures Disruptions(calls) == 0
  {
    if calls != [] {
      NoDisruptionsCounted(calls[1..]);
    }
  }

  /**
   * The cached batch, when there is one, is the batch `draw` gives at the
   * parameters currently held.
   */
  predicate DrawnWith(c: Cache, draw: Sampler) {
    c.demandRvs == [] || (Cached(c) && c.demandRvs == draw(c.mu.value, c.sigma.value, |c.demandRvs|))
  }

  /**
   * Although reuse is decided by length alone, the cache never holds a batch
   * drawn before a disruption: every disruption draws afresh, so after any call
   * the cached batch is the one the last drawing call drew at the parameters
   * held now.
   */
  lemma CachedBatchIsCurrent(num: Numpy, idx: int, c: Cache, size: SizeArg, disrupt: bool,
                             earlier: Sampler, draw: Sampler)
    requires 0 <= idx < |Distributions|
    requires DrawnWith(c, earlier)
    ensures var next := DemandRvs(num, idx, c, size, disrupt, draw).next;
      DrawnWith(next, earlier) || DrawnWith(next, draw)
  {
  }

  /**
   * The order quantity reads the cached parameters: after a disruption it is
   * the quantity for the doubled sigma, not the one the profile table gives.
   */
  lemma OrderQuantityAfterDisruption(num: Numpy, idx: int, c: Cache, size: SizeArg, draw: Sampler)
    requires 0 <= idx < |Distributions|
    requires CheckedSize(size).Some?
    ensures var p := Parameters(num, idx, c).value;
      var next := DemandRvs(num, idx, c, size, true, draw).next;
      OrderQuantity(num, idx, next)
      == Step(OptimalOrderQuantity(num, CostsFromTreatment(idx), DistributionParameters(p.mu, 2.0 * p.sigma)), next)
  {
  }

  /**
   * Where the numeric routines obey their real laws, a new treatment's order
   * quantity is its profile's mean times exp(ppf(cf) * sigma).
   */
  lemma FreshOrderQuantity(num: Numpy, idx: int)
    requires Lawful(num)
    requires 0 <= idx < |Distributions|
    ensures OrderQuantity(num, idx, Fresh).value
      == ScaledByQuantile(num, Distributions[idx].naturalMean,
           num.ppf(CriticalFractile(CostsFromTreatment(idx))), ParametersFromTreatment(num, idx).sigma)
  {
    Moments.OrderQuantityOfFit(num, idx);
  }
}
