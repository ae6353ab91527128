/**
 * A treatment object: its index, fixed at creation, and the private fields it
 * updates in place as the game asks it for parameters, samples and the order
 * quantity. Each method performs one transition of module Demand.
 */
module Treatments {
  import opened Wrappers
  import opened Numerics
  import opened Newsvendor
  import opened Demand

  class Treatment {
    const idx: int
    var mu: Option<real>
    var sigma: Option<real>
    var demandRvs: seq<real>

    /**
     * The index names a profile. `Treatment.idx` is declared with
     * `conint(ge=0, le=5)` only as a default value, so the range is never checked.
     */
    ghost predicate Valid() {
      0 <= idx < |Distributions|
    }

    /** The private fields as one value. */
    function State(): Cache
      reads this
    {
      Cache(mu, sigma, demandRvs)
    }

    /** A treatment with the given index and nothing derived yet. */
    constructor (idx: int)
      requires 0 <= idx < |Distributions|
      ensures this.idx == idx && Valid()
      ensures State() == Fresh
    {
      this.idx := idx;
      mu, sigma, demandRvs := None, None, [];
    }

    /** A treatment with an index picked at random from the whole table. */
    static method Choose() returns (t: Treatment)
      ensures fresh(t) && t.Valid()
      ensures 0 <= t.idx <= |Distributions| - 1
      ensures t.State() == Fresh
    {
      var i :| 0 <= i < |Distributions|;
      t := new Treatment(i);
    }

    /** The unit costs: the alternate triple for index 3, the default for every other. */
    function GetUnitCosts(): (c: UnitCosts)
      ensures Ordered(c)
      ensures c == (if idx == 3 then AlternateCosts else DefaultCosts)
    {
      CostsFromTreatment(idx)
    }

    /** Fits the parameters unless both are already set, and returns them. */
    method GetDistributionParameters(num: Numpy) returns (p: DistributionParameters)
      requires Valid()
      modifies this
      ensures Step(p, State()) == Parameters(num, idx, old(State()))
    {
      if mu.None? || sigma.None? {
        var fit := ParametersFromTreatment(num, idx);
        mu, sigma := Some(fit.mu), Some(fit.sigma);
      }
      p := DistributionParameters(mu.value, sigma.value);
    }

    /**
     * Returns `size` demand samples (10000 when omitted): the cached batch when it
     * has that length and `disrupt` is false; otherwise, after doubling sigma if
     * `disrupt` is true, a new batch from `draw`, which replaces the cache.
     */
    method GetDemandRvs(num: Numpy, size: SizeArg, disrupt: bool, draw: Sampler)
      returns (r: Result<seq<real>, DemandError>)
      requires Valid()
      modifies this
      ensures Step(r, State()) == DemandRvs(num, idx, old(State()), size, disrupt, draw)
    {
      var n;
      match CheckedSize(size) {
        case None => return Err(SizeNotPositiveInt(size));
        case Some(k) => n := k;
      }
      if |demandRvs| == n && !disrupt {
        return Ok(demandRvs);
      }
      var _ := GetDistributionParameters(num);
      if disrupt {
        sigma := Some(sigma.value * 2.0);
        mu := Some(mu.value * 1.0);
      }
      demandRvs := draw(mu.value, sigma.value, n);
      r := Ok(demandRvs);
    }

    /** The optimal order quantity for the unit costs and the current parameters. */
    method GetOptimalOrderQuantity(num: Numpy) returns (q: real)
      requires Valid()
      modifies this
      ensures Step(q, State()) == OrderQuantity(num, idx, old(State()))
    {
      var costs := GetUnitCosts();
      var p := GetDistributionParameters(num);
      q := OptimalOrderQuantity(num, costs, p);
    }
  }
}
