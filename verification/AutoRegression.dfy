/** What the two autoregressive predictors share: centring the series and turning the coefficients into
    a prediction. */
module AutoRegression {
  import opened Reals

  lemma {:induction false} SumOfEqual(s: seq<int>, a: int)
    requires forall t :: 0 <= t < |s| ==> s[t] == a
    ensures SumOf(s) == |s| * a
  {
    if s != [] { SumOfEqual(s[..|s| - 1], a); }
  }

  function Mean(s: seq<int>): real
    requires s != []
  {
    SumOf(s) as real / |s| as real
  }

  function Centred(s: seq<int>): (x: seq<real>)
    requires s != []
    ensures |x| == |s|
  {
    seq(|s|, t requires 0 <= t < |s| => s[t] as real - Mean(s))
  }

  function Total(x: seq<real>): real {
    if x == [] then 0.0 else Total(x[..|x| - 1]) + x[|x| - 1]
  }

  lemma {:induction false} TotalShifted(s: seq<int>, m: real, x: seq<real>)
    requires |x| == |s| && forall t :: 0 <= t < |s| ==> x[t] == s[t] as real - m
    ensures Total(x) == SumOf(s) as real - Times(|s| as real, m)
  {
    if s != [] {
      TotalShifted(s[..|s| - 1], m, x[..|x| - 1]);
      Distributes(m, (|s| - 1) as real, 1.0);
    }
  }

  /** Centring shifts the series, so that it sums to zero. */
  lemma CentredSumsToZero(s: seq<int>)
    requires s != []
    ensures Total(Centred(s)) == 0.0
    ensures forall t, u :: 0 <= t < |s| && 0 <= u < |s| ==> Centred(s)[t] - Centred(s)[u] == (s[t] - s[u]) as real
  {
    TotalShifted(s, Mean(s), Centred(s));
    QuotientTimes(SumOf(s) as real, |s| as real);
  }

  lemma QuotientTimes(b: real, p: real)
    requires p != 0.0
    ensures Times(p, b / p) == b
  {
  }

  /** Centring leaves nothing exactly of a constant series. */
  lemma CentredConstant(s: seq<int>)
    requires s != []
    ensures (forall t :: 0 <= t < |s| ==> Centred(s)[t] == 0.0) <==> forall t :: 0 <= t < |s| ==> s[t] == s[0]
  {
    hide Mean;
    if forall t :: 0 <= t < |s| ==> s[t] == s[0] {
      MeanOfEqual(s);
    } else if forall t :: 0 <= t < |s| ==> Centred(s)[t] == 0.0 {
      forall t | 0 <= t < |s| ensures s[t] == s[0] {
        assert Centred(s)[t] == Centred(s)[0];
      }
    }
  }

  lemma MeanOfEqual(s: seq<int>)
    requires s != [] && forall t :: 0 <= t < |s| ==> s[t] == s[0]
    ensures Mean(s) == s[0] as real
  {
    SumOfEqual(s, s[0]);
    assert (|s| * s[0]) as real == |s| as real * s[0] as real;
  }

  /** c[0] times the newest value, c[1] times the one before, and so on. */
  function Weighted(x: seq<real>, c: seq<real>, m: nat): real
    requires m <= |c| && m <= |x|
  {
    if m == 0 then 0.0 else Weighted(x, c, m - 1) + Times(x[|x| - m], c[m - 1])
  }

  /** Non-positive predictions become zero, and no others. */
  predicate PositivePart(prediction: real, p: real) {
    prediction >= 0.0 && (p > 0.0 ==> prediction == p) && (p <= 0.0 ==> prediction == 0.0)
  }

  method SubtractMean(inputseries: array<int>, v: array<real>) returns (mean: real)
    requires 0 < v.Length <= inputseries.Length
    modifies v
    ensures mean == Mean(inputseries[..v.Length])
    ensures v[..] == Centred(inputseries[..v.Length])
  {
    mean := 0.0;
    for t := 0 to v.Length
      invariant mean == SumOf(inputseries[..t]) as real
    {
      assert inputseries[..t + 1][..t] == inputseries[..t];
      mean := mean + inputseries[t] as real;
    }
    mean := mean / v.Length as real;
    hide Mean, SumOf;
    for t := 0 to v.Length
      invariant forall i :: 0 <= i < t ==> v[i] == inputseries[i] as real - mean
    {
      v[t] := inputseries[t] as real - mean;
    }
  }

  method Predict(mean: real, v: array<real>, coefficients: array<real>) returns (prediction: real)
    requires coefficients.Length <= v.Length
    ensures PositivePart(prediction, mean + Weighted(v[..], coefficients[..], coefficients.Length))
  {
    hide Times;
    prediction := mean;
    for i := 0 to coefficients.Length
      invariant prediction == mean + Weighted(v[..], coefficients[..], i)
    {
      prediction := prediction + Times(v[v.Length - 1 - i], coefficients[i]);
    }
    if prediction <= 0.0 {
      prediction := 0.0;
    }
  }
}
