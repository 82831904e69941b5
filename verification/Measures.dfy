/** On-line statistics: time-weighted moments of a step function (SystemMeasure), moments of a sample
    (CustomerMeasure), the one-pass variance (QStats) and the two-pass reference (Logger). */
module Measures {
  import opened Reals

  // ---- step functions ----

  /** The function takes `value` from `time` on. Before the first change it is zero. */
  datatype Change = Change(time: real, value: real)

  function LastTime(cs: seq<Change>): real {
    if cs == [] then 0.0 else cs[|cs| - 1].time
  }

  function LastValue(cs: seq<Change>): real {
    if cs == [] then 0.0 else cs[|cs| - 1].value
  }

  /** Changes come at non-decreasing times, none before time zero. */
  ghost predicate Ordered(cs: seq<Change>) {
    cs == [] || (Ordered(cs[..|cs| - 1]) && LastTime(cs[..|cs| - 1]) <= LastTime(cs))
  }

  lemma {:induction false} OrderedIsNonNegative(cs: seq<Change>)
    requires Ordered(cs)
    ensures 0.0 <= LastTime(cs)
  {
    if cs != [] {
      OrderedIsNonNegative(cs[..|cs| - 1]);
    }
  }

  function ValueAt(cs: seq<Change>, t: real): real {
    if cs == [] then 0.0
    else if cs[|cs| - 1].time <= t then cs[|cs| - 1].value
    else ValueAt(cs[..|cs| - 1], t)
  }

  /** Accumulated i-th moment up to `t`. That it is an integral is lemma `AreaIsIntegral`. */
  function Area(cs: seq<Change>, i: nat, t: real): real {
    if cs == [] then 0.0
    else
      var c, r := cs[|cs| - 1], cs[..|cs| - 1];
      if c.time <= t then Area(r, i, c.time) + Times(Power(c.value, i), t - c.time) else Area(r, i, t)
  }

  /** The left Riemann sum of the i-th power of the step function over a partition. */
  function RiemannSum(cs: seq<Change>, i: nat, ps: seq<real>): real {
    if |ps| < 2 then 0.0
    else
      var a, b := ps[|ps| - 2], ps[|ps| - 1];
      RiemannSum(cs, i, ps[..|ps| - 1]) + Times(Power(ValueAt(cs, a), i), b - a)
  }

  /** The partition is increasing and no change falls strictly inside one of its cells. */
  ghost predicate Separates(ps: seq<real>, cs: seq<Change>) {
    |ps| < 2 || (Separates(ps[..|ps| - 1], cs) && Cell(cs, ps[|ps| - 2], ps[|ps| - 1]))
  }

  ghost predicate Cell(cs: seq<Change>, a: real, b: real) {
    a <= b && forall c :: c in cs ==> c.time <= a || b <= c.time
  }

  lemma {:induction false} AreaOfCell(cs: seq<Change>, i: nat, a: real, b: real)
    requires i > 0 && Cell(cs, a, b)
    ensures Area(cs, i, b) - Area(cs, i, a) == Times(Power(ValueAt(cs, a), i), b - a)
  {
    if cs == [] {
      PowerOfZero(i);
    } else {
      hide Times;
      var c, r := cs[|cs| - 1], cs[..|cs| - 1];
      if c.time <= a {
        Distributes(Power(c.value, i), b - c.time, a - c.time);
      } else {
        assert c in cs;
        AreaOfCell(r, i, a, b);
        if b == c.time { ZeroWidth(Power(c.value, i)); }
      }
    }
  }

  lemma ZeroWidth(v: real)
    ensures Times(v, 0.0) == 0.0
  {
  }

  /** The recorded moments are exact integrals: over every partition, however fine, whose cells no
      change cuts, the Riemann sum of the i-th power is the same number. */
  lemma {:induction false} AreaIsIntegral(cs: seq<Change>, i: nat, ps: seq<real>)
    requires i > 0 && |ps| > 0 && Separates(ps, cs)
    ensures RiemannSum(cs, i, ps) == Area(cs, i, ps[|ps| - 1]) - Area(cs, i, ps[0])
    decreases |ps|
  {
    hide Times, Area, Power, ValueAt;
    if |ps| >= 2 {
      AreaIsIntegral(cs, i, ps[..|ps| - 1]);
      AreaOfCell(cs, i, ps[|ps| - 2], ps[|ps| - 1]);
    }
  }

  lemma {:induction false} AreaBeforeStart(cs: seq<Change>, i: nat)
    requires Ordered(cs) && i > 0
    ensures Area(cs, i, 0.0) == 0.0
  {
    if cs != [] {
      hide Times;
      var r := cs[..|cs| - 1];
      OrderedIsNonNegative(r);
      AreaBeforeStart(r, i);
      ZeroWidth(Power(LastValue(cs), i));
    }
  }

  lemma AreaAfterLastChange(cs: seq<Change>, i: nat, t: real)
    requires i > 0 && LastTime(cs) <= t
    ensures Area(cs, i, t) == Area(cs, i, LastTime(cs)) + Times(Power(LastValue(cs), i), t - LastTime(cs))
  {
    if cs == [] { PowerOfZero(i); }
  }

  /** The first two moments grow linearly from the last change on. */
  lemma MomentsAfterLastChange(cs: seq<Change>, t: real)
    requires LastTime(cs) <= t
    ensures var v, dt := LastValue(cs), t - LastTime(cs);
      && Area(cs, 1, t) == Area(cs, 1, LastTime(cs)) + Times(v, dt)
      && Area(cs, 2, t) == Area(cs, 2, LastTime(cs)) + Times(Times(v, v), dt)
  {
    hide Times, Area;
    AreaAfterLastChange(cs, 1, t);
    AreaAfterLastChange(cs, 2, t);
    SmallPowers(LastValue(cs));
  }

  lemma AreaExtends(cs: seq<Change>, c: Change, i: nat)
    ensures Area(cs + [c], i, c.time) == Area(cs, i, c.time)
  {
    assert (cs + [c])[..|cs|] == cs;
  }

  lemma OrderedExtends(cs: seq<Change>, c: Change)
    requires Ordered(cs) && LastTime(cs) <= c.time
    ensures Ordered(cs + [c])
  {
    assert (cs + [c])[..|cs|] == cs;
  }

  // ---- Cauchy-Schwarz ----

  lemma CauchyStep(m1: real, m2: real, t: real, v: real, dt: real)
    requires m2 >= 0.0 && t >= 0.0 && dt >= 0.0 && Times(m1, m1) <= Times(t, m2)
    ensures var a, b := m1 + Times(v, dt), m2 + Times(Times(v, v), dt);
      b >= 0.0 && Times(a, a) <= Times(t + dt, b)
  {
    var cross := t * (v * v) + m2 - 2.0 * (m1 * v);
    if t == 0.0 {
      SquareZero(m1);
    } else {
      SquareNonNegative(t * v - m1);
      assert Times(t, cross) == Times(t * v - m1, t * v - m1) + (t * m2 - m1 * m1);
      FactorNonNegative(t, cross);
    }
    ProductNonNegative(dt, cross);
    SquareNonNegative(v);
    ProductNonNegative(Times(v, v), dt);
    CauchyIdentity(m1, m2, t, v, dt);
  }

  lemma CauchyIdentity(m1: real, m2: real, t: real, v: real, dt: real)
    ensures var a, b := m1 + Times(v, dt), m2 + Times(Times(v, v), dt);
      Times(t + dt, b) - Times(a, a)
      == Times(t, m2) - Times(m1, m1) + Times(dt, t * (v * v) + m2 - 2.0 * (m1 * v))
  {
  }

  /** The weighted Cauchy-Schwarz inequality for any step function. */
  lemma {:induction false} CauchySchwarz(cs: seq<Change>)
    requires Ordered(cs)
    ensures var t := LastTime(cs);
      Area(cs, 2, t) >= 0.0 && Times(Area(cs, 1, t), Area(cs, 1, t)) <= Times(t, Area(cs, 2, t))
  {
    if cs == [] {
      ZeroWidth(0.0);
    } else {
      hide Times;
      var r := cs[..|cs| - 1];
      var t, t' := LastTime(r), LastTime(cs);
      OrderedIsNonNegative(r);
      CauchySchwarz(r);
      MomentsAfterLastChange(r, t');
      CauchyStep(Area(r, 1, t), Area(r, 2, t), t, LastValue(r), t' - t);
      AreaAtLastChange(cs, 1);
      AreaAtLastChange(cs, 2);
    }
  }

  lemma AreaAtLastChange(cs: seq<Change>, i: nat)
    requires cs != []
    ensures Area(cs, i, LastTime(cs)) == Area(cs[..|cs| - 1], i, LastTime(cs))
  {
  }

  lemma BoundedStep(m: real, t: real, bound: real, v: real, dt: real)
    requires 0.0 <= m <= Times(bound, t) && 0.0 <= v <= bound && dt >= 0.0
    ensures 0.0 <= m + Times(v, dt) <= Times(bound, t + dt)
  {
    ProductNonNegative(v, dt);
    ProductNonNegative(bound - v, dt);
    assert bound * (t + dt) == bound * t + v * dt + (bound - v) * dt;
  }

  /** If the function stays within [0, bound], its first moment stays within [0, bound * time]. */
  lemma {:induction false} AreaBounded(cs: seq<Change>, bound: real)
    requires Ordered(cs) && bound >= 0.0
    requires forall c :: c in cs ==> 0.0 <= c.value <= bound
    ensures 0.0 <= Area(cs, 1, LastTime(cs)) <= Times(bound, LastTime(cs))
  {
    if cs == [] {
      ZeroWidth(bound);
    } else {
      hide Times;
      var r := cs[..|cs| - 1];
      var t, t' := LastTime(r), LastTime(cs);
      AreaBounded(r, bound);
      MomentsAfterLastChange(r, t');
      assert r != [] ==> r[|r| - 1] in cs;
      BoundedStep(Area(r, 1, t), t, bound, LastValue(r), t' - t);
      AreaAtLastChange(cs, 1);
    }
  }

  // ---- SystemMeasure ----

  class SystemMeasure {
    var lastChange: real
    var current: real
    var n: nat
    const moments: nat := 2
    var moment: seq<real>
    const resetTime: real
    ghost var changes: seq<Change>

    ghost predicate Valid()
      reads this
    {
      && |moment| == 100 && resetTime == 0.0
      && Ordered(changes) && n == |changes|
      && lastChange == LastTime(changes) && current == LastValue(changes)
      && forall i :: 1 <= i <= moments ==> moment[i] == Area(changes, i, lastChange)
    }

    constructor ()
      ensures Valid() && changes == []
    {
      moment := seq(100, _ => 0.0);
      lastChange, current, n, resetTime, changes := 0.0, 0.0, 0, 0.0, [];
    }

    method Add(now: real, x: real)
      requires Valid() && lastChange <= now
      modifies this
      ensures Valid() && changes == old(changes) + [Change(now, x)]
    {
      hide Times, Power, Area;
      var i := 1;
      while i <= moments
        invariant 1 <= i <= moments + 1 && |moment| == 100
        invariant forall k :: 1 <= k < i ==> moment[k] == Area(changes, k, now)
        invariant forall k :: i <= k <= moments ==> moment[k] == Area(changes, k, lastChange)
        modifies this`moment
      {
        AreaAfterLastChange(changes, i, now);
        moment := moment[i := moment[i] + Times(Power(current, i), now - lastChange)];
        i := i + 1;
      }
      forall k | 1 <= k <= moments ensures moment[k] == Area(changes + [Change(now, x)], k, now) {
        AreaExtends(changes, Change(now, x), k);
      }
      OrderedExtends(changes, Change(now, x));
      current, lastChange, n := x, now, n + 1;
      changes := changes + [Change(now, x)];
    }

    /** The source divides by the time since the start, so nothing is promised at time zero. */
    method Mean(now: real) returns (m: real)
      requires Valid() && now > 0.0
      ensures Times(m, now) == Area(changes, 1, LastTime(changes))
    {
      hide Area, Power;
      m := moment[1] / (now - resetTime);
      QuotientEqual(moment[1], now, m);
    }

    /** Non-negative at any time from the last change on. */
    method Variance(now: real) returns (v: real)
      requires Valid() && now > 0.0 && lastChange <= now
      ensures var m1, m2 := Area(changes, 1, LastTime(changes)), Area(changes, 2, LastTime(changes));
        Times(v, Times(now, now)) == Times(now, m2) - Times(m1, m1)
      ensures v >= 0.0
    {
      hide Area, Power;
      var mean := Mean(now);
      v := moment[2] / (now - resetTime) - mean * mean;
      CauchySchwarz(changes);
      VarianceScaled(now, moment[1], moment[2], lastChange, mean, v);
    }
  }

  lemma VarianceScaled(now: real, m1: real, m2: real, t: real, mean: real, v: real)
    requires now > 0.0 && t <= now && m2 >= 0.0 && Times(m1, m1) <= Times(t, m2)
    requires Times(mean, now) == m1 && v == m2 / now - mean * mean
    ensures Times(v, Times(now, now)) == Times(now, m2) - Times(m1, m1)
    ensures v >= 0.0
  {
    var q := m2 / now;
    assert q * now == m2;
    assert v * (now * now) == (q * now) * now - (mean * now) * (mean * now);
    ProductNonNegative(now - t, m2);
    ProductPositive(now, now);
    assert Times(Times(now, now), v) >= 0.0;
    FactorNonNegative(Times(now, now), v);
  }

  /** `mean` stops integrating at the last change but divides by the whole elapsed time. It is the
      true time average exactly when nothing has elapsed since the last change or the current value
      is zero. */
  lemma MeanIsTimeAverageIff(cs: seq<Change>, now: real, m: real)
    requires Ordered(cs) && now > 0.0 && LastTime(cs) <= now
    requires Times(m, now) == Area(cs, 1, LastTime(cs))
    ensures m == Area(cs, 1, now) / now <==> now == LastTime(cs) || LastValue(cs) == 0.0
  {
    hide Times, Area;
    MomentsAfterLastChange(cs, now);
    ProductZero(LastValue(cs), now - LastTime(cs));
    QuotientEqual(Area(cs, 1, now), now, m);
  }

  /** A path on which it is wrong: one customer comes at time 0 and stays; at time 2 the mean is 0 and the
      time average 1. */
  lemma MeanOfOneWhoStays(m: real)
    requires var cs := [Change(0.0, 1.0)]; Times(m, 2.0) == Area(cs, 1, LastTime(cs))
    ensures m == 0.0 && Area([Change(0.0, 1.0)], 1, 2.0) / 2.0 == 1.0
  {
    var cs := [Change(0.0, 1.0)];
    assert cs[..0] == [] && Power(1.0, 1) == 1.0;
    assert Area(cs, 1, 0.0) == Area([], 1, 0.0) + Times(1.0, 0.0);
    assert Area(cs, 1, 2.0) == Area([], 1, 0.0) + Times(1.0, 2.0);
  }

  // ---- samples ----

  function PowerSum(xs: seq<real>, i: nat): real {
    if xs == [] then 0.0 else PowerSum(xs[..|xs| - 1], i) + Power(xs[|xs| - 1], i)
  }

  function Deviation(xs: seq<real>, centre: real): real {
    if xs == [] then 0.0
    else var d := xs[|xs| - 1] - centre; Deviation(xs[..|xs| - 1], centre) + Times(d, d)
  }

  /** The unbiased sample variance by its definition: two passes. */
  function SampleVariance(xs: seq<real>): real
    requires |xs| > 1
  {
    Deviation(xs, PowerSum(xs, 1) / |xs| as real) / (|xs| - 1) as real
  }

  lemma ExpandStep(p1: real, p2: real, n: real, x: real, c: real)
    ensures p2 - Times(2.0 * c, p1) + Times(n, Times(c, c)) + Times(x - c, x - c)
         == p2 + Times(x, x) - Times(2.0 * c, p1 + x) + Times(n + 1.0, Times(c, c))
  {
  }

  lemma {:induction false} DeviationExpands(xs: seq<real>, c: real)
    ensures Deviation(xs, c)
         == PowerSum(xs, 2) - Times(2.0 * c, PowerSum(xs, 1)) + Times(|xs| as real, Times(c, c))
  {
    if xs == [] {
    } else {
      hide Times, Power;
      var x, r := xs[|xs| - 1], xs[..|xs| - 1];
      DeviationExpands(r, c);
      SmallPowers(x);
      assert |xs| as real == |r| as real + 1.0;
      ExpandStep(PowerSum(r, 1), PowerSum(r, 2), |r| as real, x, c);
    }
  }

  /** About the mean, in a form free of division. */
  lemma DeviationAboutMean(xs: seq<real>, mean: real)
    requires Times(mean, |xs| as real) == PowerSum(xs, 1)
    ensures Deviation(xs, mean) == PowerSum(xs, 2) - Times(|xs| as real, Times(mean, mean))
  {
    hide Deviation, PowerSum, Power;
    DeviationExpands(xs, mean);
    AboutMean(mean, |xs| as real, PowerSum(xs, 1));
  }

  lemma AboutMean(mean: real, n: real, s: real)
    requires Times(mean, n) == s
    ensures Times(2.0 * mean, s) == 2.0 * Times(n, Times(mean, mean))
  {
    assert mean * s == mean * (mean * n);
  }

  lemma {:induction false} DeviationNonNegative(xs: seq<real>, c: real)
    ensures Deviation(xs, c) >= 0.0
  {
    if xs != [] {
      hide Times;
      DeviationNonNegative(xs[..|xs| - 1], c);
      SquareNonNegative(xs[|xs| - 1] - c);
    }
  }

  lemma SampleVarianceNonNegative(xs: seq<real>)
    requires |xs| > 1
    ensures SampleVariance(xs) >= 0.0
  {
    DeviationNonNegative(xs, PowerSum(xs, 1) / |xs| as real);
  }

  /** The squared differences of every sample of `ys` and every sample of `xs`. */
  function SquaredDifferences(xs: seq<real>, ys: seq<real>): real {
    if ys == [] then 0.0 else SquaredDifferences(xs, ys[..|ys| - 1]) + Deviation(xs, ys[|ys| - 1])
  }

  lemma DifferencesStep(p2: real, p1: real, n: real, s1: real, s2: real, m: real, x: real)
    ensures Times(m, p2) - 2.0 * Times(s1, p1) + Times(n, s2) + (p2 - Times(2.0 * x, p1) + Times(n, Times(x, x)))
         == Times(m + 1.0, p2) - 2.0 * Times(s1 + x, p1) + Times(n, s2 + Times(x, x))
  {
  }

  lemma {:induction false} DifferencesExpand(xs: seq<real>, ys: seq<real>)
    ensures SquaredDifferences(xs, ys)
         == Times(|ys| as real, PowerSum(xs, 2)) - 2.0 * Times(PowerSum(ys, 1), PowerSum(xs, 1))
            + Times(|xs| as real, PowerSum(ys, 2))
  {
    if ys == [] {
      assert Times(0.0, PowerSum(xs, 2)) == 0.0 && Times(0.0, PowerSum(xs, 1)) == 0.0;
      assert Times(|xs| as real, 0.0) == 0.0;
    } else {
      hide Times, Power;
      var y, s := ys[|ys| - 1], ys[..|ys| - 1];
      DifferencesExpand(xs, s);
      DeviationExpands(xs, y);
      SmallPowers(y);
      assert |ys| as real == |s| as real + 1.0;
      DifferencesStep(PowerSum(xs, 2), PowerSum(xs, 1), |xs| as real, PowerSum(s, 1), PowerSum(s, 2), |s| as real, y);
    }
  }

  /** The variance without a mean: half the average squared difference of two different samples. */
  lemma VarianceByPairs(xs: seq<real>)
    requires |xs| > 1
    ensures var n := |xs| as real;
      SquaredDifferences(xs, xs) == 2.0 * Times(Times(n, n - 1.0), SampleVariance(xs))
  {
    hide Deviation, PowerSum, Power;
    var n, p := |xs| as real, PowerSum(xs, 1);
    var mean := p / n;
    QuotientEqual(p, n, mean);
    DeviationAboutMean(xs, mean);
    DifferencesExpand(xs, xs);
    var d := Deviation(xs, mean);
    QuotientEqual(d, n - 1.0, d / (n - 1.0));
    ByPairs(n, p, PowerSum(xs, 2), mean, d, d / (n - 1.0));
  }

  lemma ByPairs(n: real, p: real, p2: real, mean: real, d: real, v: real)
    requires Times(mean, n) == p && d == p2 - Times(n, Times(mean, mean)) && Times(v, n - 1.0) == d
    ensures Times(n, p2) - 2.0 * Times(p, p) + Times(n, p2) == 2.0 * Times(Times(n, n - 1.0), v)
  {
    assert n * d == n * p2 - p * p;
    assert (n * (n - 1.0)) * v == n * (v * (n - 1.0));
  }

  class CustomerMeasure {
    var n: nat
    const moments: nat := 2
    var moment: seq<real>
    ghost var samples: seq<real>

    ghost predicate Valid()
      reads this
    {
      && |moment| == 100 && n == |samples|
      && forall i :: 1 <= i <= moments ==> moment[i] == PowerSum(samples, i)
    }

    constructor ()
      ensures Valid() && samples == []
    {
      moment := seq(100, _ => 0.0);
      n, samples := 0, [];
    }

    method Add(x: real)
      requires Valid()
      modifies this
      ensures Valid() && samples == old(samples) + [x]
    {
      hide Power;
      var i := 1;
      while i <= moments
        invariant 1 <= i <= moments + 1 && |moment| == 100
        invariant forall k :: 1 <= k < i ==> moment[k] == PowerSum(samples, k) + Power(x, k)
        invariant forall k :: i <= k <= moments ==> moment[k] == PowerSum(samples, k)
        modifies this`moment
      {
        moment := moment[i := moment[i] + Power(x, i)];
        i := i + 1;
      }
      assert (samples + [x])[..|samples|] == samples;
      n, samples := n + 1, samples + [x];
    }

    method Mean() returns (m: real)
      requires Valid() && n > 0
      ensures m == PowerSum(samples, 1) / |samples| as real
    {
      m := moment[1] / n as real;
    }

    /** The moment formula computes the two-pass variance. */
    method Variance() returns (v: real)
      requires Valid() && n > 1
      ensures v == SampleVariance(samples) && v >= 0.0
    {
      hide PowerSum, Deviation, Power;
      var mean := Mean();
      v := (moment[2] - n as real * mean * mean) / (n - 1) as real;
      QuotientEqual(PowerSum(samples, 1), n as real, mean);
      DeviationAboutMean(samples, mean);
      assert n as real * mean * mean == Times(n as real, Times(mean, mean));
      SampleVarianceNonNegative(samples);
    }
  }

  function SquaredDeviation(xs: seq<real>): real {
    if xs == [] then 0.0 else Deviation(xs, PowerSum(xs, 1) / |xs| as real)
  }

  class QStats {
    var sum: real
    var varianceTerm: real
    var samples: nat
    ghost var seen: seq<real>

    ghost predicate Valid()
      reads this
    {
      samples == |seen| && sum == PowerSum(seen, 1) && varianceTerm == SquaredDeviation(seen)
    }

    constructor ()
      ensures Valid() && seen == []
    {
      sum, varianceTerm, samples, seen := 0.0, 0.0, 0, [];
    }

    /** The one-pass update keeps the sum of squared deviations from a mean that itself moves. */
    method AddSample(sample: real)
      requires Valid()
      modifies this
      ensures Valid() && seen == old(seen) + [sample]
    {
      hide SquaredDeviation, PowerSum, Power;
      samples := samples + 1;
      if samples > 1 {
        var term := sum - (samples - 1) as real * sample;
        varianceTerm := varianceTerm + (term / samples as real) * (term / (samples as real - 1.0));
        DeviationUpdate(seen, sample);
      } else {
        NoDeviation(sample);
      }
      SumExtends(seen, sample);
      sum := sum + sample;
      seen := seen + [sample];
    }

    method GetMean() returns (m: real)
      requires Valid()
      ensures m == if seen == [] then 0.0 else PowerSum(seen, 1) / |seen| as real
    {
      if samples > 0 { m := sum / samples as real; } else { m := 0.0; }
    }

    /** The square of `getStdev`: the source takes the root of this number. */
    method GetVariance() returns (v: real)
      requires Valid()
      ensures v == (if |seen| > 1 then SampleVariance(seen) else 0.0) && v >= 0.0
    {
      hide PowerSum, Deviation;
      if samples > 1 {
        v := varianceTerm / (samples as real - 1.0);
        SampleVarianceNonNegative(seen);
      } else {
        v := 0.0;
      }
    }
  }

  lemma SumExtends(xs: seq<real>, x: real)
    ensures PowerSum(xs + [x], 1) == PowerSum(xs, 1) + x
    ensures PowerSum(xs + [x], 2) == PowerSum(xs, 2) + Times(x, x)
  {
    assert (xs + [x])[..|xs|] == xs;
    SmallPowers(x);
  }

  lemma NoDeviation(x: real)
    ensures SquaredDeviation([]) == 0.0
    ensures SquaredDeviation([] + [x]) == 0.0
  {
    SumExtends([], x);
    assert [] + [x] == [x] && PowerSum([x], 1) / 1.0 == x;
    assert Deviation([x], x) == Deviation([], x) + Times(x - x, x - x);
  }

  /** With a the old mean and b the new one: what adding x does to n a^2 + x^2. */
  lemma MeanShift(n: real, a: real, b: real, x: real)
    requires Times(b, n + 1.0) == Times(a, n) + x
    ensures Times(n, Times(a, a)) + Times(x, x) - Times(n + 1.0, Times(b, b)) == Times(Times(n, a - b), a - x)
    ensures Times(a - b, n + 1.0) == a - x
  {
    assert (n + 1.0) * b * b == b * (a * n + x);
    assert x * (b * (n + 1.0)) == x * (a * n + x);
  }

  lemma TermQuotients(n: real, s: real, a: real, b: real, x: real)
    requires n > 0.0 && Times(a, n) == s && Times(a - b, n + 1.0) == a - x
    ensures (s - n * x) / (n + 1.0) == Times(n, a - b)
    ensures (s - n * x) / n == a - x
  {
    assert s - n * x == n * (a - x);
    assert n * (a - x) == n * ((a - b) * (n + 1.0));
    QuotientEqual(s - n * x, n + 1.0, Times(n, a - b));
    QuotientEqual(s - n * x, n, a - x);
  }

  /** How one more sample changes the squared deviation about the running mean. */
  lemma DeviationUpdate(xs: seq<real>, x: real)
    requires xs != []
    ensures var n := |xs| as real;
      var term := PowerSum(xs, 1) - n * x;
      SquaredDeviation(xs + [x]) == SquaredDeviation(xs) + (term / (n + 1.0)) * (term / n)
  {
    hide Deviation, PowerSum;
    var n, ys := |xs| as real, xs + [x];
    var s, s' := PowerSum(xs, 1), PowerSum(ys, 1);
    var a, b := s / n, s' / (n + 1.0);
    assert |ys| as real == n + 1.0;
    SumExtends(xs, x);
    QuotientEqual(s, n, a);
    QuotientEqual(s', n + 1.0, b);
    DeviationAboutMean(xs, a);
    DeviationAboutMean(ys, b);
    MeanShift(n, a, b, x);
    TermQuotients(n, s, a, b, x);
    assert Times(Times(n, a - b), a - x) == Times(n, a - b) * (a - x);
  }

  /** The two passes of the logger. */
  method LoggerSampleMean(xs: array<real>, n: nat) returns (mean: real)
    requires 0 < n <= xs.Length
    ensures mean == PowerSum(xs[..n], 1) / n as real
  {
    var acc := 0.0;
    for i := 0 to n
      invariant acc == PowerSum(xs[..i], 1)
    {
      acc := acc + xs[i];
      SumExtends(xs[..i], xs[i]);
      assert xs[..i + 1] == xs[..i] + [xs[i]];
    }
    mean := acc / n as real;
  }

  method LoggerSampleVariance(xs: array<real>, n: nat, mean: real) returns (v: real)
    requires 1 < n <= xs.Length
    ensures v == Deviation(xs[..n], mean) / (n - 1) as real
    ensures mean == PowerSum(xs[..n], 1) / n as real ==> v == SampleVariance(xs[..n])
  {
    var acc := 0.0;
    for i := 0 to n
      invariant acc == Deviation(xs[..i], mean)
    {
      var diff := xs[i] - mean;
      acc := acc + diff * diff;
      assert xs[..i + 1][..i] == xs[..i];
    }
    v := acc / (n - 1) as real;
  }

  /** The three variances agree on every sample of more than one element. */
  method ThreeVariances(xs: array<real>) returns (onePass: real, byMoments: real, twoPass: real)
    requires xs.Length > 1
    ensures onePass == byMoments == twoPass == SampleVariance(xs[..])
    ensures onePass >= 0.0
  {
    hide SampleVariance, PowerSum, SquaredDeviation;
    var stats := new QStats();
    var measure := new CustomerMeasure();
    for i := 0 to xs.Length
      invariant stats.Valid() && stats.seen == xs[..i]
      invariant measure.Valid() && measure.samples == xs[..i]
      invariant fresh(stats) && fresh(measure)
    {
      stats.AddSample(xs[i]);
      measure.Add(xs[i]);
    }
    assert xs[..xs.Length] == xs[..];
    onePass := stats.GetVariance();
    byMoments := measure.Variance();
    var mean := LoggerSampleMean(xs, xs.Length);
    twoPass := LoggerSampleVariance(xs, xs.Length, mean);
  }
}
