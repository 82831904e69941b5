/** A pool of identical servers and the measure of how many are busy. */
module Resources {
  import opened Reals
  import opened Measures

  class Resource {
    const nresources: nat
    var resources: nat
    const resourceCount: SystemMeasure

    ghost predicate Valid()
      reads this, resourceCount
    {
      && resourceCount.Valid() && resources <= nresources
      && LastValue(resourceCount.changes) == (nresources - resources) as real
      && forall c :: c in resourceCount.changes ==> 0.0 <= c.value <= nresources as real
    }

    ghost function Clock(): real
      reads this, resourceCount
    {
      LastTime(resourceCount.changes)
    }

    constructor (n: nat)
      ensures Valid() && fresh(resourceCount) && nresources == n && resources == n
      ensures resourceCount.changes == []
    {
      nresources, resources := n, n;
      resourceCount := new SystemMeasure();
    }

    predicate ResourceIsAvailable()
      reads this
    {
      resources > 0
    }

    method Claim(now: real)
      requires Valid() && ResourceIsAvailable() && Clock() <= now
      modifies this, resourceCount
      ensures Valid() && Clock() == now && resources == old(resources) - 1
      ensures resourceCount.changes == old(resourceCount.changes) + [Change(now, (nresources - resources) as real)]
    {
      resources := resources - 1;
      resourceCount.Add(now, (nresources - resources) as real);
    }

    method Release(now: real)
      requires Valid() && resources < nresources && Clock() <= now
      modifies this, resourceCount
      ensures Valid() && Clock() == now && resources == old(resources) + 1
      ensures resourceCount.changes == old(resourceCount.changes) + [Change(now, (nresources - resources) as real)]
    {
      resources := resources + 1;
      resourceCount.Add(now, (nresources - resources) as real);
    }

    /** The mean number of busy servers as a fraction of all: in [0, 1], whatever was claimed and
        released in whatever order. */
    method Utilisation(now: real) returns (u: real)
      requires Valid() && nresources > 0 && now > 0.0 && Clock() <= now
      ensures Times(Times(u, nresources as real), now) == Area(resourceCount.changes, 1, Clock())
      ensures 0.0 <= u <= 1.0
    {
      hide Area, Times;
      var mean := resourceCount.Mean(now);
      u := mean / nresources as real;
      QuotientEqual(mean, nresources as real, u);
      AreaBounded(resourceCount.changes, nresources as real);
      Fraction(u, nresources as real, now, Clock(), mean, Area(resourceCount.changes, 1, Clock()));
    }
  }

  lemma Fraction(u: real, n: real, now: real, last: real, mean: real, area: real)
    requires n > 0.0 && now > 0.0 && last <= now
    requires Times(u, n) == mean && Times(mean, now) == area && 0.0 <= area <= Times(n, last)
    ensures 0.0 <= u <= 1.0
  {
    FactorNonNegative(now, mean);
    FactorNonNegative(n, u);
    ProductNonNegative(n, now - last);
    assert Times(now, n - mean) >= 0.0;
    FactorNonNegative(now, n - mean);
    assert Times(n, 1.0 - u) >= 0.0;
    FactorNonNegative(n, 1.0 - u);
  }
}
