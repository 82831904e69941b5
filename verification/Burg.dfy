/** Burg's method. The lattice recursion keeps forward and backward prediction errors in two arrays
    that it overwrites in place. The specification is the direct form: errors obtained by convolving
    the series with the current coefficients. */
module Burg {
  import opened Reals
  import opened AutoRegression

  datatype Filter = NotANumber | Coefficients(a: seq<real>)

  // ---- direct form ----

  /** a[0] x[p-1] + ... + a[m-1] x[p-m] */
  function Past(x: seq<real>, a: seq<real>, p: nat, m: nat): real
    requires m <= |a| && m <= p <= |x|
  {
    if m == 0 then 0.0 else Past(x, a, p, m - 1) + Times(a[m - 1], x[p - m])
  }

  /** a[m] x[q+1+m] + ... + a[n-1] x[q+n] for n coefficients */
  function Future(x: seq<real>, a: seq<real>, q: nat, m: nat): real
    requires m <= |a| && q + |a| < |x|
    decreases |a| - m
  {
    if m == |a| then 0.0 else Times(a[m], x[q + 1 + m]) + Future(x, a, q, m + 1)
  }

  /** The forward error of position j + n and the backward error of position j - 1. */
  function Forward(x: seq<real>, a: seq<real>, j: nat): real
    requires j + |a| < |x|
  {
    x[j + |a|] + Past(x, a, j + |a|, |a|)
  }

  function Backward(x: seq<real>, a: seq<real>, j: nat): real
    requires 1 <= j && j + |a| <= |x|
  {
    x[j - 1] + Future(x, a, j - 1, 0)
  }

  function Reversed(x: seq<real>): (y: seq<real>)
    ensures |y| == |x| && forall i :: 0 <= i < |x| ==> y[i] == x[|x| - 1 - i]
  {
    seq(|x|, i requires 0 <= i < |x| => x[|x| - 1 - i])
  }

  lemma {:induction false} FutureIsPastReversed(x: seq<real>, a: seq<real>, q: nat, m: nat)
    requires m <= |a| && q + |a| < |x|
    ensures Past(Reversed(x), a, |x| - 1 - q, |a|) == Past(Reversed(x), a, |x| - 1 - q, m) + Future(x, a, q, m)
    decreases |a| - m
  {
    hide Times;
    if m < |a| { FutureIsPastReversed(x, a, q, m + 1); }
  }

  /** The backward error is the forward error of the same filter on the series read backwards. */
  lemma BackwardIsForwardReversed(x: seq<real>, a: seq<real>, j: nat)
    requires 1 <= j && j + |a| <= |x|
    ensures Backward(x, a, j) == Forward(Reversed(x), a, |x| - |a| - j)
  {
    FutureIsPastReversed(x, a, j - 1, 0);
  }

  /** Longer filter with reflection coefficient k: each coefficient gains k times its mirror image. */
  function Extend(a: seq<real>, k: real): (b: seq<real>)
    ensures |b| == |a| + 1
  {
    seq(|a|, i requires 0 <= i < |a| => a[i] + Times(k, a[|a| - 1 - i])) + [k]
  }

  lemma ExtendTerm(c: real, k: real, d: real, y: real)
    ensures Times(c + Times(k, d), y) == Times(c, y) + Times(k, Times(d, y))
  {
  }

  /** The mirrored half of a convolution of the past is a convolution of the future. */
  lemma {:induction false} PastOfExtension(x: seq<real>, a: seq<real>, k: real, p: nat, m: nat)
    requires m <= |a| < p <= |x|
    ensures Past(x, Extend(a, k), p, m)
         == Past(x, a, p, m) + Times(k, Future(x, a, p - 1 - |a|, |a| - m))
  {
    if m == 0 {
      assert Times(k, 0.0) == 0.0;
    } else {
      hide Times;
      var n := |a|;
      PastOfExtension(x, a, k, p, m - 1);
      ExtendTerm(a[m - 1], k, a[n - m], x[p - m]);
      Distributes(k, Times(a[n - m], x[p - m]), Future(x, a, p - 1 - n, n - m + 1));
    }
  }

  lemma {:induction false} FutureOfExtension(x: seq<real>, a: seq<real>, k: real, q: nat, m: nat)
    requires m <= |a| && q + |a| + 1 < |x|
    ensures Future(x, Extend(a, k), q, m)
         == Future(x, a, q, m) + Times(k, Past(x, a, q + 1 + |a|, |a| - m)) + Times(k, x[q + 1 + |a|])
    decreases |a| - m
  {
    var n, b := |a|, Extend(a, k);
    if m == n {
      assert Times(k, 0.0) == 0.0;
      assert Future(x, b, q, n + 1) == 0.0;
    } else {
      hide Times;
      FutureOfExtension(x, a, k, q, m + 1);
      ExtendTerm(a[m], k, a[n - 1 - m], x[q + 1 + m]);
      Distributes(k, Past(x, a, q + 1 + n, n - m - 1), Times(a[n - 1 - m], x[q + 1 + m]));
    }
  }

  /** The lattice step in direct form: the errors of the longer filter come from those of the shorter
      one, shifted by one position in the forward direction. */
  lemma LatticeStep(x: seq<real>, a: seq<real>, k: real, j: nat)
    requires 1 <= j && j + |a| < |x|
    ensures Forward(x, Extend(a, k), j - 1) == Forward(x, a, j) + Times(k, Backward(x, a, j))
    ensures Backward(x, Extend(a, k), j) == Backward(x, a, j) + Times(k, Forward(x, a, j))
  {
    hide Times;
    var n, b := |a|, Extend(a, k);
    PastOfExtension(x, a, k, j + n, n);
    FutureOfExtension(x, a, k, j - 1, 0);
    assert Past(x, b, j + n, n + 1) == Past(x, b, j + n, n) + Times(k, x[j - 1]);
    Distributes(k, x[j - 1], Future(x, a, j - 1, 0));
    Distributes(k, x[j + n], Past(x, a, j + n, n));
  }

  // ---- error energies and the reflection coefficient ----

  /** Sum of squared forward and backward errors over positions 1 to m. */
  function Energy(x: seq<real>, a: seq<real>, m: nat): real
    requires m + |a| < |x|
  {
    if m == 0 then 0.0
    else
      var f, b := Forward(x, a, m), Backward(x, a, m);
      Energy(x, a, m - 1) + (Times(f, f) + Times(b, b))
  }

  /** Minus twice the sum of products of forward and backward errors. */
  function Correlation(x: seq<real>, a: seq<real>, m: nat): real
    requires m + |a| < |x|
  {
    if m == 0 then 0.0
    else Correlation(x, a, m - 1) - 2.0 * Times(Forward(x, a, m), Backward(x, a, m))
  }

  /** All forward and backward errors of the longer filter: forward from position 0, backward up to
      the last position. */
  function ExtendedEnergy(x: seq<real>, b: seq<real>, m: nat): real
    requires |b| > 0 && m + |b| <= |x|
  {
    if m == 0 then 0.0
    else
      var f, r := Forward(x, b, m - 1), Backward(x, b, m);
      ExtendedEnergy(x, b, m - 1) + (Times(f, f) + Times(r, r))
  }

  lemma EnergyTerm(e: real, c: real, f: real, b: real, k: real)
    ensures var p, q := f + Times(k, b), b + Times(k, f);
      Times(e, 1.0 + k * k) - 2.0 * Times(k, c) + (Times(p, p) + Times(q, q))
      == Times(e + (Times(f, f) + Times(b, b)), 1.0 + k * k) - 2.0 * Times(k, c - 2.0 * Times(f, b))
  {
  }

  lemma {:induction false} EnergyOfExtension(x: seq<real>, a: seq<real>, k: real, m: nat)
    requires m + |a| < |x|
    ensures ExtendedEnergy(x, Extend(a, k), m)
         == Times(Energy(x, a, m), 1.0 + k * k) - 2.0 * Times(k, Correlation(x, a, m))
  {
    if m == 0 {
      assert Times(0.0, 1.0 + k * k) == 0.0 && Times(k, 0.0) == 0.0;
    } else {
      hide Times, Extend, Forward, Backward;
      EnergyOfExtension(x, a, k, m - 1);
      LatticeStep(x, a, k, m);
      EnergyTerm(Energy(x, a, m - 1), Correlation(x, a, m - 1), Forward(x, a, m), Backward(x, a, m), k);
    }
  }

  lemma ProductBound(f: real, b: real)
    ensures -(Times(f, f) + Times(b, b)) <= 2.0 * Times(f, b) <= Times(f, f) + Times(b, b)
  {
    SquareNonNegative(f - b);
    SquareNonNegative(f + b);
    assert Times(f - b, f - b) == Times(f, f) + Times(b, b) - 2.0 * Times(f, b);
    assert Times(f + b, f + b) == Times(f, f) + Times(b, b) + 2.0 * Times(f, b);
  }

  lemma {:induction false} CorrelationBound(x: seq<real>, a: seq<real>, m: nat)
    requires m + |a| < |x|
    ensures 0.0 <= Energy(x, a, m)
    ensures -Energy(x, a, m) <= Correlation(x, a, m) <= Energy(x, a, m)
  {
    if m == 0 {
    } else {
      hide Times, Forward, Backward;
      CorrelationBound(x, a, m - 1);
      ProductBound(Forward(x, a, m), Backward(x, a, m));
      SquareNonNegative(Forward(x, a, m));
      SquareNonNegative(Backward(x, a, m));
    }
  }

  /** The energy vanishes exactly when the filter predicts perfectly in both directions. */
  lemma {:induction false} EnergyZeroIff(x: seq<real>, a: seq<real>, m: nat)
    requires m + |a| < |x|
    ensures Energy(x, a, m) == 0.0
       <==> forall j :: 1 <= j <= m ==> Forward(x, a, j) == 0.0 && Backward(x, a, j) == 0.0
  {
    if m == 0 {
    } else {
      hide Forward, Backward;
      EnergyZeroIff(x, a, m - 1);
      CorrelationBound(x, a, m - 1);
      ZeroSquares(Energy(x, a, m - 1), Forward(x, a, m), Backward(x, a, m));
    }
  }

  lemma ZeroSquares(e: real, f: real, b: real)
    requires e >= 0.0
    ensures e + (Times(f, f) + Times(b, b)) == 0.0 <==> e == 0.0 && f == 0.0 && b == 0.0
  {
    SquareNonNegative(f);
    SquareNonNegative(b);
    if Times(f, f) == 0.0 { SquareZero(f); }
    if Times(b, b) == 0.0 { SquareZero(b); }
  }

  lemma QuadraticMinimum(e: real, c: real, k: real, k': real)
    requires e > 0.0 && k == c / e && -e <= c <= e
    ensures -1.0 <= k <= 1.0
    ensures Times(e, 1.0 + k * k) - 2.0 * Times(k, c) == Times(e, 1.0 - k * k)
    ensures Times(e, 1.0 + k * k) - 2.0 * Times(k, c) <= Times(e, 1.0 + k' * k') - 2.0 * Times(k', c)
  {
    assert k * e == c;
    FactorNonNegative(e, 1.0 - k);
    FactorNonNegative(e, 1.0 + k);
    SquareNonNegative(k' - k);
    ProductNonNegative(e, Times(k' - k, k' - k));
    assert e * (1.0 + k' * k') - 2.0 * k' * (k * e) - (e * (1.0 + k * k) - 2.0 * k * (k * e))
        == Times(e, Times(k' - k, k' - k));
  }

  /** Burg's reflection coefficient lies in [-1, 1], and among all extensions of the filter by one
      coefficient the one it gives has the least total error energy, which is the factor 1 - k^2 of
      the energy before. */
  lemma ReflectionIsOptimal(x: seq<real>, a: seq<real>, k: real, k': real)
    requires |a| < |x|
    requires var m := |x| - |a| - 1; Energy(x, a, m) != 0.0 && k == Correlation(x, a, m) / Energy(x, a, m)
    ensures -1.0 <= k <= 1.0
    ensures var m := |x| - |a| - 1;
      && ExtendedEnergy(x, Extend(a, k), m) == Times(Energy(x, a, m), 1.0 - k * k)
      && ExtendedEnergy(x, Extend(a, k), m) <= ExtendedEnergy(x, Extend(a, k'), m)
  {
    hide Energy, Correlation, ExtendedEnergy, Extend;
    var m := |x| - |a| - 1;
    CorrelationBound(x, a, m);
    EnergyOfExtension(x, a, k, m);
    EnergyOfExtension(x, a, k', m);
    QuadraticMinimum(Energy(x, a, m), Correlation(x, a, m), k, k');
  }

  // ---- the whole method in direct form ----

  /** The filter after n stages, or no number when some stage divides by a zero energy. */
  function Stage(x: seq<real>, n: nat): (f: Filter)
    requires n < |x|
    ensures f.Coefficients? ==> |f.a| == n
  {
    if n == 0 then Coefficients([])
    else
      var f := Stage(x, n - 1);
      if f.NotANumber? then NotANumber else Next(x, f.a)
  }

  function Next(x: seq<real>, a: seq<real>): (f: Filter)
    requires |a| + 1 < |x|
    ensures f.Coefficients? ==> |f.a| == |a| + 1
  {
    var m := |x| - |a| - 1;
    if Energy(x, a, m) == 0.0 then NotANumber
    else Coefficients(Extend(a, Correlation(x, a, m) / Energy(x, a, m)))
  }

  /** The longer filter is the shorter one extended by a reflection coefficient of size at most one, and no
      other extension leaves less error energy. */
  ghost predicate BestExtension(x: seq<real>, a: seq<real>, b: seq<real>)
    requires |b| == |a| + 1 < |x|
  {
    var m := |x| - |b|;
    && b == Extend(a, b[|a|]) && -1.0 <= b[|a|] <= 1.0
    && forall k :: ExtendedEnergy(x, b, m) <= ExtendedEnergy(x, Extend(a, k), m)
  }

  lemma StageIsBest(x: seq<real>, n: nat)
    requires n + 1 < |x| && Stage(x, n + 1).Coefficients?
    ensures Stage(x, n).Coefficients? && BestExtension(x, Stage(x, n).a, Stage(x, n + 1).a)
  {
    hide Energy, Correlation, ExtendedEnergy;
    var a, b := Stage(x, n).a, Stage(x, n + 1).a;
    var m := |x| - n - 1;
    assert b[n] == Correlation(x, a, m) / Energy(x, a, m);
    forall k ensures ExtendedEnergy(x, b, m) <= ExtendedEnergy(x, Extend(a, k), m) {
      ReflectionIsOptimal(x, a, b[n], k);
    }
    ReflectionIsOptimal(x, a, b[n], 0.0);
  }

  /** Every stage up to n has been the best extension of the one before. */
  ghost predicate BestStages(x: seq<real>, n: nat)
    requires n < |x|
  {
    forall s :: 0 <= s < n ==> BestStage(x, s)
  }

  ghost predicate BestStage(x: seq<real>, s: nat)
    requires s + 1 < |x|
  {
    Stage(x, s).Coefficients? && Stage(x, s + 1).Coefficients? && BestExtension(x, Stage(x, s).a, Stage(x, s + 1).a)
  }

  lemma {:induction false} StagesAreBest(x: seq<real>, n: nat)
    requires n < |x| && Stage(x, n).Coefficients?
    ensures BestStages(x, n)
  {
    hide BestExtension, Next;
    if n > 0 {
      StageIsBest(x, n - 1);
      StagesAreBest(x, n - 1);
    }
  }

  /** It is the only one: an extension with as little error energy has the same reflection coefficient. */
  lemma BestIsUnique(x: seq<real>, n: nat, k: real)
    requires n + 1 < |x| && Stage(x, n + 1).Coefficients?
    requires var m := |x| - n - 1;
      ExtendedEnergy(x, Extend(Stage(x, n).a, k), m) <= ExtendedEnergy(x, Stage(x, n + 1).a, m)
    ensures Extend(Stage(x, n).a, k) == Stage(x, n + 1).a
  {
    hide Energy, Correlation, ExtendedEnergy, Extend;
    var a, m := Stage(x, n).a, |x| - n - 1;
    var g := Correlation(x, a, m) / Energy(x, a, m);
    CorrelationBound(x, a, m);
    EnergyOfExtension(x, a, k, m);
    EnergyOfExtension(x, a, g, m);
    OnlyMinimum(Energy(x, a, m), Correlation(x, a, m), g, k);
  }

  lemma OnlyMinimum(e: real, c: real, k: real, k': real)
    requires e > 0.0 && k == c / e
    requires Times(e, 1.0 + k' * k') - 2.0 * Times(k', c) <= Times(e, 1.0 + k * k) - 2.0 * Times(k, c)
    ensures k' == k
  {
    assert k * e == c;
    assert e * (1.0 + k' * k') - 2.0 * k' * (k * e) - (e * (1.0 + k * k) - 2.0 * k * (k * e))
        == Times(e, Times(k' - k, k' - k));
    SquareNonNegative(k' - k);
    ProductNonNegative(e, Times(k' - k, k' - k));
    ProductZero(e, Times(k' - k, k' - k));
    SquareZero(k' - k);
  }

  lemma {:induction false} NotANumberPersists(x: seq<real>, m: nat, n: nat)
    requires m <= n < |x| && Stage(x, m).NotANumber?
    ensures Stage(x, n).NotANumber?
  {
    if m < n { NotANumberPersists(x, m, n - 1); }
  }

  // ---- when it divides by zero ----

  /** Filter `a` leaves no error in either direction wherever both can be taken. */
  ghost predicate PredictsPerfectly(x: seq<real>, a: seq<real>) {
    forall j :: 1 <= j < |x| - |a| ==> Forward(x, a, j) == 0.0 && Backward(x, a, j) == 0.0
  }

  /** The method yields no number exactly when some earlier filter already predicts perfectly. */
  lemma {:induction false} FailsWhenPerfect(x: seq<real>, n: nat)
    requires n < |x|
    ensures Stage(x, n).NotANumber?
       <==> exists m: nat :: m < n && Stage(x, m).Coefficients? && PredictsPerfectly(x, Stage(x, m).a)
  {
    if n > 0 {
      FailsWhenPerfect(x, n - 1);
      if Stage(x, n - 1).Coefficients? {
        EnergyZeroIff(x, Stage(x, n - 1).a, |x| - n);
        assert Stage(x, n).NotANumber? <==> PredictsPerfectly(x, Stage(x, n - 1).a);
      }
    }
  }

  /** The first stage fails on the zero series only. */
  lemma FirstStageFails(x: seq<real>)
    requires |x| >= 2
    ensures Stage(x, 1).NotANumber? <==> forall t :: 0 <= t < |x| ==> x[t] == 0.0
  {
    FailsWhenPerfect(x, 1);
    hide Next;
    assert Stage(x, 0) == Coefficients([]);
    assert forall j :: 1 <= j < |x| ==> Forward(x, [], j) == x[j] && Backward(x, [], j) == x[j - 1];
    if PredictsPerfectly(x, []) {
      forall t | 0 <= t < |x| ensures x[t] == 0.0 {
        assert t > 0 ==> Forward(x, [], t) == 0.0;
        assert t == 0 ==> Backward(x, [], 1) == 0.0;
      }
    }
  }

  /** Inputs on which it fails: every constant series, at every stage. */
  lemma ConstantSeriesFails(s: seq<int>, n: nat)
    requires 1 <= n < |s| && forall t :: 0 <= t < |s| ==> s[t] == s[0]
    ensures Stage(Centred(s), n).NotANumber?
  {
    hide Stage, Centred;
    CentredConstant(s);
    FirstStageFails(Centred(s));
    NotANumberPersists(Centred(s), 1, n);
  }

  // ---- in place ----

  class BurgAutoRegression {
    const length: nat
    const degree: nat
    const normalizedVector: array<real>
    const coefficients: array<real>
    const pef: array<real>
    const per: array<real>
    const g: array<real>
    const h: array<real>
    const ar: array2<real>

    ghost predicate Valid() {
      && length == degree + 2
      && normalizedVector.Length == length && coefficients.Length == degree
      && pef.Length == length + 1 && per.Length == length + 1
      && g.Length == degree + 2 && h.Length == degree + 1
      && ar.Length0 == degree + 1 && ar.Length1 == degree + 1
      && pef != per && normalizedVector !in {pef, per, g, h, coefficients}
      && g !in {pef, per, h, coefficients} && h !in {pef, per, coefficients} && coefficients !in {pef, per}
    }

    /** A degree below zero makes the source allocate arrays of negative size. */
    constructor (length: nat)
      requires length >= 2
      ensures Valid() && this.length == length
      ensures fresh(normalizedVector) && fresh(coefficients) && fresh(ar)
      ensures fresh(pef) && fresh(per) && fresh(g) && fresh(h)
    {
      this.length, degree := length, length - 2;
      normalizedVector := new real[length];
      coefficients := new real[length - 2];
      pef := new real[length + 1];
      per := new real[length + 1];
      g := new real[length];
      h := new real[length - 1];
      ar := new real[length - 1, length - 1];
    }

    /** `a` is stored in g from index 2 on. */
    ghost predicate Holds(a: seq<real>)
      reads g
    {
      |a| + 2 <= g.Length && forall i :: 0 <= i < |a| ==> g[i + 2] == a[i]
    }

    /** The two arrays plus the series are the direct-form errors of filter `a`. */
    ghost predicate Lattice(x: seq<real>, a: seq<real>)
      reads pef, per
    {
      && |x| + 1 == pef.Length == per.Length && |a| < |x|
      && forall j :: 1 <= j < |x| - |a| ==>
           x[j + |a|] + pef[j] == Forward(x, a, j) && x[j - 1] + per[j] == Backward(x, a, j)
    }

    /** The accumulation of sn and sd. */
    method Accumulate(n: nat, ghost a: seq<real>) returns (sn: real, sd: real)
      requires Valid() && n < length && |a| == n && Lattice(normalizedVector[..], a)
      ensures var x := normalizedVector[..];
        sn == Correlation(x, a, length - n - 1) && sd == Energy(x, a, length - n - 1)
    {
      hide Forward, Backward, Times;
      ghost var x := normalizedVector[..];
      sn, sd := 0.0, 0.0;
      var jj := length - n - 1;
      for j := 1 to jj + 1
        invariant sn == Correlation(x, a, j - 1) && sd == Energy(x, a, j - 1)
      {
        var t1 := normalizedVector[j + n] + pef[j];
        var t2 := normalizedVector[j - 1] + per[j];
        sn := sn - 2.0 * Times(t1, t2);
        sd := sd + (Times(t1, t1) + Times(t2, t2));
      }
    }

    /** The update of the coefficients through the scratch array h. */
    method UpdateCoefficients(n: nat, t1: real, ghost a: seq<real>)
      requires Valid() && n < degree && |a| == n && Holds(a) && g[n + 2] == t1
      modifies g, h
      ensures Holds(Extend(a, t1))
    {
      hide Times;
      if n != 0 {
        for j := 2 to n + 2
          invariant forall i :: 2 <= i < j ==> h[i] == a[i - 2] + Times(t1, a[n + 1 - i])
          modifies h
        {
          assert g[n - j + 3] == a[n + 1 - j];
          h[j] := g[j] + Times(t1, g[n - j + 3]);
        }
        for j := 2 to n + 2
          invariant forall i :: 2 <= i < j ==> g[i] == a[i - 2] + Times(t1, a[n + 1 - i])
          invariant g[n + 2] == t1
          modifies g
        {
          g[j] := h[j];
        }
      }
    }

    /** The in-place update of the errors. Entry j of `pef` is computed from entry j + 1 of both arrays,
        which the loop has not reached yet. The source runs one position further at the first stage;
        that entry is not read afterwards. */
    method UpdateErrors(n: nat, t1: real, ghost a: seq<real>)
      requires Valid() && n < degree && |a| == n && Lattice(normalizedVector[..], a)
      modifies pef, per
      ensures Lattice(normalizedVector[..], Extend(a, t1))
    {
      hide Forward, Backward, Extend, Times;
      ghost var x := normalizedVector[..];
      ghost var b := Extend(a, t1);
      var jj := if n != 0 then length - n - 2 else length - 1;
      for j := 1 to jj + 1
        invariant forall i :: j <= i < length - n ==>
          x[i + n] + pef[i] == Forward(x, a, i) && x[i - 1] + per[i] == Backward(x, a, i)
        invariant forall i :: 1 <= i < j && i < length - n - 1 ==>
          x[i + n + 1] + pef[i] == Forward(x, b, i) && x[i - 1] + per[i] == Backward(x, b, i)
      {
        var k := j + n;
        LatticeTerms(t1, per[j], pef[j], normalizedVector[k]);
        per[j] := per[j] + (Times(t1, pef[j]) + Times(t1, normalizedVector[k]));
        pef[j] := pef[j + 1] + (Times(t1, per[j + 1]) + Times(t1, normalizedVector[j]));
        LatticeTerms(t1, pef[j + 1], per[j + 1], normalizedVector[j]);
        if j < length - n - 1 {
          LatticeStep(x, a, t1, j);
          LatticeStep(x, a, t1, j + 1);
        }
      }
    }

    /** The filter of stage s is kept in row s of `ar`. */
    ghost predicate Recorded(x: seq<real>, s: nat)
      reads ar
      requires ar.Length0 == ar.Length1 && s < ar.Length0 && s < |x|
    {
      Stage(x, s).Coefficients? && forall i :: 0 <= i < s ==> ar[s, i + 1] == Stage(x, s).a[i]
    }

    /** One stage. A zero energy makes the quotient, and with it everything later, no number. */
    method TakeStage(n: nat, ghost a: seq<real>) returns (defined: bool)
      requires Valid() && n < degree && Stage(normalizedVector[..], n) == Coefficients(a)
      requires Holds(a) && Lattice(normalizedVector[..], a)
      modifies pef, per, g, h
      ensures defined <==> Stage(normalizedVector[..], n + 1).Coefficients?
      ensures defined ==> var b := Stage(normalizedVector[..], n + 1).a;
        Holds(b) && Lattice(normalizedVector[..], b) && BestExtension(normalizedVector[..], a, b)
    {
      hide Lattice, Energy, Correlation, Extend, BestExtension;
      ghost var x := normalizedVector[..];
      var sn, sd := Accumulate(n, a);
      if sd == 0.0 {
        return false;
      }
      g[n + 2] := sn / sd;
      var t1 := g[n + 2];
      UpdateCoefficients(n, t1, a);
      UpdateErrors(n, t1, a);
      defined := true;
      StageIsBest(x, n);
    }

    method RecordStage(n: nat, ghost a: seq<real>)
      requires Valid() && n < degree && |a| == n + 1 && Holds(a)
      requires Stage(normalizedVector[..], n + 1) == Coefficients(a)
      requires forall s :: 1 <= s <= n ==> Recorded(normalizedVector[..], s)
      modifies ar
      ensures forall s :: 1 <= s <= n + 1 ==> Recorded(normalizedVector[..], s)
    {
      hide Stage;
      ghost var x := normalizedVector[..];
      for j := 2 to n + 3
        invariant forall i :: 0 <= i < j - 2 ==> ar[n + 1, i + 1] == a[i]
        invariant forall s :: 1 <= s <= n ==> Recorded(x, s)
      {
        label before:
        ar[n + 1, j - 1] := g[j];
        forall s | 1 <= s <= n ensures Recorded(x, s) {
          assert old@before(Recorded(x, s));
        }
      }
    }

    /** Whatever the series, the in-place lattice computes the direct-form filter of every stage; it
        yields no number exactly when the direct form does. */
    method Autoregress() returns (defined: bool)
      requires Valid()
      modifies coefficients, pef, per, g, h, ar
      ensures defined <==> Stage(normalizedVector[..], degree).Coefficients?
      ensures defined ==> forall i :: 0 <= i < degree ==>
        coefficients[i] == -Stage(normalizedVector[..], degree).a[i]
      ensures defined ==> forall s :: 1 <= s <= degree ==> Recorded(normalizedVector[..], s)
      ensures defined ==> BestStages(normalizedVector[..], degree)
    {
      hide Stage, Next, Lattice, BestStages;
      ghost var x := normalizedVector[..];
      defined := RunStages();
      if defined {
        StagesAreBest(x, degree);
        if degree > 0 { assert Recorded(x, degree); }
        for i := 1 to degree + 1
          invariant forall k :: 0 <= k < i - 1 ==> coefficients[k] == -Stage(x, degree).a[k]
          modifies coefficients
        {
          coefficients[i - 1] := -ar[degree, i];
        }
      }
    }

    method RunStages() returns (defined: bool)
      requires Valid()
      modifies pef, per, g, h, ar
      ensures defined <==> Stage(normalizedVector[..], degree).Coefficients?
      ensures defined ==> forall s :: 1 <= s <= degree ==> Recorded(normalizedVector[..], s)
    {
      ghost var x := normalizedVector[..];
      hide Lattice, Holds, Stage, Recorded;
      ghost var a := ClearErrors();
      for n := 0 to degree
        invariant normalizedVector[..] == x
        invariant Stage(x, n) == Coefficients(a) && Holds(a) && Lattice(x, a)
        invariant forall s :: 1 <= s <= n ==> Recorded(x, s)
      {
        var ok := TakeStage(n, a);
        if !ok {
          NotANumberPersists(x, n + 1, degree);
          return false;
        }
        a := Stage(x, n + 1).a;
        RecordStage(n, a);
      }
      defined := true;
    }

    /** Before the first stage both errors are the series itself. */
    method ClearErrors() returns (ghost a: seq<real>)
      requires Valid()
      modifies pef, per
      ensures Stage(normalizedVector[..], 0) == Coefficients(a) && Holds(a) && Lattice(normalizedVector[..], a)
    {
      for j := 1 to length + 1
        invariant forall i :: 1 <= i < j ==> pef[i] == 0.0 && per[i] == 0.0
      {
        pef[j], per[j] := 0.0, 0.0;
      }
      a := [];
    }

    /** The prediction continues the series without forward error (see PredictionHasNoError), except
        that a non-positive one becomes zero. */
    method GetNextPrediction(inputseries: array<int>) returns (defined: bool, prediction: real)
      requires Valid() && inputseries.Length >= length >= 2
      modifies normalizedVector, coefficients, pef, per, g, h, ar
      ensures defined <==> Stage(Centred(inputseries[..length]), degree).Coefficients?
      ensures defined ==>
        var s, x := inputseries[..length], Centred(inputseries[..length]);
        && PositivePart(prediction, Mean(s) + Weighted(x, Negated(Stage(x, degree).a), degree))
        && BestStages(x, degree)
    {
      hide Mean, Centred, Weighted, Stage;
      prediction := 0.0;
      var mean := SubtractMean(inputseries, normalizedVector);
      ghost var x := normalizedVector[..];
      assert x == Centred(inputseries[..length]);
      for i := 0 to degree
        modifies coefficients
      {
        coefficients[i] := 0.0;
      }
      defined := Autoregress();
      assert normalizedVector[..] == x;
      if defined {
        assert coefficients[..] == Negated(Stage(normalizedVector[..], degree).a);
        prediction := Predict(mean, normalizedVector, coefficients);
      }
    }
  }

  function Negated(a: seq<real>): (c: seq<real>)
    ensures |c| == |a|
  {
    seq(|a|, i requires 0 <= i < |a| => -a[i])
  }

  lemma {:induction false} WeightedIsPast(x: seq<real>, y: real, a: seq<real>, m: nat)
    requires m <= |a| <= |x|
    ensures Past(x + [y], a, |x|, m) == -Weighted(x, Negated(a), m)
  {
    if m != 0 {
      WeightedIsPast(x, y, a, m - 1);
      assert Times(x[|x| - m], -a[m - 1]) == -Times(a[m - 1], x[|x| - m]);
    }
  }

  /** Appending the predicted value to the centred series makes its forward error zero, and no other
      value does. */
  lemma PredictionHasNoError(x: seq<real>, a: seq<real>, y: real)
    requires |a| <= |x|
    ensures Forward(x + [y], a, |x| - |a|) == 0.0 <==> y == Weighted(x, Negated(a), |a|)
  {
    WeightedIsPast(x, y, a, |a|);
  }

  lemma LatticeTerms(k: real, p: real, q: real, y: real)
    ensures p + (Times(k, q) + Times(k, y)) == p + Times(k, y + q)
  {
  }
}
