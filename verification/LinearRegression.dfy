/** Least-squares line through the points (1, y0), ..., (n, y(n-1)), and its value at n + 1. */
module LinearRegression {
  import opened Reals

  datatype Prediction = NotANumber | Predicted(value: int)

  /** Conversion of a floating-point value to an integer: towards zero. */
  function Truncate(x: real): int {
    if x >= 0.0 then x.Floor else -(-x).Floor
  }

  /** `n` has the sign of x, is no larger in size, and lies within one of it. */
  predicate TowardsZero(n: int, x: real) {
    && (x >= 0.0 ==> 0.0 <= n as real <= x < n as real + 1.0)
    && (x <= 0.0 ==> n as real - 1.0 < x <= n as real <= 0.0)
  }

  lemma TruncateIsTowardsZero(x: real)
    ensures TowardsZero(Truncate(x), x) && forall n :: TowardsZero(n, x) ==> n == Truncate(x)
  {
  }

  // ---- the sums ----

  function SumX(n: nat): int {
    if n == 0 then 0 else SumX(n - 1) + n
  }

  function SumXX(n: nat): int {
    if n == 0 then 0 else SumXX(n - 1) + n * n
  }

  function SumXY(ys: seq<int>): int {
    if ys == [] then 0 else SumXY(ys[..|ys| - 1]) + |ys| * ys[|ys| - 1]
  }

  function SumYY(ys: seq<int>): int {
    if ys == [] then 0 else SumYY(ys[..|ys| - 1]) + ys[|ys| - 1] * ys[|ys| - 1]
  }

  lemma ProductAsReal(x: int, y: int)
    ensures (x * y) as real == Times(x as real, y as real)
  {
  }

  lemma SumsOfX(n: nat)
    requires n > 0
    ensures SumX(n) as real == SumX(n - 1) as real + n as real
    ensures SumXX(n) as real == SumXX(n - 1) as real + Times(n as real, n as real)
  {
    ProductAsReal(n, n);
  }

  lemma SumsOfY(ys: seq<int>)
    requires ys != []
    ensures var y, r := ys[|ys| - 1], ys[..|ys| - 1];
      && SumOf(ys) as real == SumOf(r) as real + y as real
      && SumXY(ys) as real == SumXY(r) as real + Times(|ys| as real, y as real)
      && SumYY(ys) as real == SumYY(r) as real + Times(y as real, y as real)
  {
    ProductAsReal(|ys|, ys[|ys| - 1]);
    ProductAsReal(ys[|ys| - 1], ys[|ys| - 1]);
  }

  // ---- residuals ----

  function Line(a: real, b: real, x: real): real {
    Times(a, x) + b
  }

  /** The sum of squared residuals of the line a x + b. */
  function Residual(ys: seq<int>, a: real, b: real): real {
    if ys == [] then 0.0
    else
      var d := ys[|ys| - 1] as real - Line(a, b, |ys| as real);
      Residual(ys[..|ys| - 1], a, b) + Times(d, d)
  }

  /** The same as a quadratic form in the coefficients. */
  function Form(n: real, sx: real, sxx: real, sy: real, sxy: real, syy: real, a: real, b: real): real {
    syy - 2.0 * a * sxy - 2.0 * b * sy + a * a * sxx + 2.0 * a * b * sx + n * b * b
  }

  lemma FormStep(n: real, sx: real, sxx: real, sy: real, sxy: real, syy: real, y: real, a: real, b: real)
    ensures var m, d := n + 1.0, y - Line(a, b, n + 1.0);
      Form(n, sx, sxx, sy, sxy, syy, a, b) + Times(d, d)
      == Form(m, sx + m, sxx + Times(m, m), sy + y, sxy + Times(m, y), syy + Times(y, y), a, b)
  {
  }

  function DataForm(ys: seq<int>, a: real, b: real): real {
    Form(|ys| as real, SumX(|ys|) as real, SumXX(|ys|) as real,
         SumOf(ys) as real, SumXY(ys) as real, SumYY(ys) as real, a, b)
  }

  lemma {:induction false} ResidualExpands(ys: seq<int>, a: real, b: real)
    ensures Residual(ys, a, b) == DataForm(ys, a, b)
  {
    if ys == [] {
    } else {
      hide Times, Form, Line;
      hide SumX, SumXX, SumOf, SumXY, SumYY;
      var n, y, r := |ys|, ys[|ys| - 1], ys[..|ys| - 1];
      ResidualExpands(r, a, b);
      SumsOfX(n);
      SumsOfY(ys);
      assert |r| as real + 1.0 == n as real;
      FormStep(|r| as real, SumX(n - 1) as real, SumXX(n - 1) as real,
               SumOf(r) as real, SumXY(r) as real, SumYY(r) as real, y as real, a, b);
    }
  }

  lemma {:induction false} ResidualNonNegative(ys: seq<int>, a: real, b: real)
    ensures Residual(ys, a, b) >= 0.0
  {
    if ys == [] {
    } else {
      hide Times, Line;
      ResidualNonNegative(ys[..|ys| - 1], a, b);
      SquareNonNegative(ys[|ys| - 1] as real - Line(a, b, |ys| as real));
    }
  }

  // ---- the denominator ----

  lemma {:induction false} ClosedForms(n: nat)
    ensures 2 * SumX(n) == n * (n + 1)
    ensures 6 * SumXX(n) == n * (n + 1) * (2 * n + 1)
  {
    if n != 0 {
      ClosedForms(n - 1);
      assert (n - 1) * n * (2 * n - 1) + 6 * n * n == n * (n + 1) * (2 * n + 1);
    }
  }

  lemma PositiveProduct(n: nat)
    requires n >= 2
    ensures n * n * (n * n - 1) > 0
  {
    assert n * n >= 2 * n;
    assert n * n - 1 > 0;
  }

  lemma DenominatorIdentity(n: int, s: int, t: int)
    requires 2 * s == n * (n + 1) && 6 * t == n * (n + 1) * (2 * n + 1)
    ensures 12 * (n * t - s * s) == n * n * (n * n - 1)
  {
    assert 12 * (n * t) == 2 * n * (6 * t);
    assert 12 * (s * s) == 3 * ((2 * s) * (2 * s));
    assert 2 * n * (n * (n + 1) * (2 * n + 1)) - 3 * ((n * (n + 1)) * (n * (n + 1))) == n * n * (n * n - 1);
  }

  function Denominator(n: nat): int {
    n * SumXX(n) - SumX(n) * SumX(n)
  }

  /** The denominator of the slope is n^2 (n^2 - 1) / 12, which is zero for fewer than two points and
      positive from two points on. */
  lemma DenominatorPositive(n: nat)
    ensures 12 * Denominator(n) == n * n * (n * n - 1)
    ensures if n >= 2 then Denominator(n) > 0 else Denominator(n) == 0
  {
    hide SumX, SumXX;
    ClosedForms(n);
    DenominatorIdentity(n, SumX(n), SumXX(n));
    if n >= 2 { PositiveProduct(n); }
  }

  // ---- the fit ----

  /** What the two formulas of `apply` solve. */
  predicate NormalEquations(n: real, sx: real, sxx: real, sy: real, sxy: real, a: real, b: real) {
    Times(a, sxx) + Times(b, sx) == sxy && Times(a, sx) + Times(n, b) == sy
  }

  lemma CancelFactor(n: real, x: real, y: real)
    requires n != 0.0 && Times(n, x) == Times(n, y)
    ensures x == y
  {
    assert Times(n, x - y) == 0.0;
    ProductZero(n, x - y);
  }

  lemma SolvesNormalEquations(n: real, sx: real, sxx: real, sy: real, sxy: real, a: real, b: real)
    requires n > 0.0 && n * sxx - sx * sx != 0.0
    requires a == (n * sxy - sx * sy) / (n * sxx - sx * sx)
    requires b == (sy - a * sx) / n
    ensures NormalEquations(n, sx, sxx, sy, sxy, a, b)
  {
    var d := n * sxx - sx * sx;
    assert a * d == n * sxy - sx * sy;
    assert b * n == sy - a * sx;
    assert n * (a * sxx + b * sx) == a * d + sx * (a * sx + n * b);
    CancelFactor(n, a * sxx + b * sx, sxy);
  }

  predicate Fits(ys: seq<int>, a: real, b: real) {
    NormalEquations(|ys| as real, SumX(|ys|) as real, SumXX(|ys|) as real,
                    SumOf(ys) as real, SumXY(ys) as real, a, b)
  }

  function Slope(n: int, sx: int, sxx: int, sy: int, sxy: int): real
    requires n * sxx - sx * sx != 0
  {
    (n * sxy - sx * sy) as real / (n * sxx - sx * sx) as real
  }

  function Intercept(n: int, sx: int, sy: int, a: real): real
    requires n != 0
  {
    (sy as real - a * sx as real) / n as real
  }

  lemma FormulasFit(ys: seq<int>, a: real, b: real)
    requires |ys| >= 2 && Denominator(|ys|) != 0
    requires a == Slope(|ys|, SumX(|ys|), SumXX(|ys|), SumOf(ys), SumXY(ys))
    requires b == Intercept(|ys|, SumX(|ys|), SumOf(ys), a)
    ensures Fits(ys, a, b)
  {
    hide SumX, SumXX, SumOf, SumXY;
    var n := |ys|;
    ProductAsReal(n, SumXX(n));
    ProductAsReal(SumX(n), SumX(n));
    ProductAsReal(n, SumXY(ys));
    ProductAsReal(SumX(n), SumOf(ys));
    SolvesNormalEquations(n as real, SumX(n) as real, SumXX(n) as real, SumOf(ys) as real, SumXY(ys) as real, a, b);
  }

  /** The residual of the line u x + v against zero: a sum of squares. */
  function Spread(n: nat, u: real, v: real): real {
    if n == 0 then 0.0 else Spread(n - 1, u, v) + Times(Line(u, v, n as real), Line(u, v, n as real))
  }

  function Quadratic(n: real, sx: real, sxx: real, u: real, v: real): real {
    u * u * sxx + 2.0 * u * v * sx + n * v * v
  }

  lemma QuadraticStep(n: real, sx: real, sxx: real, u: real, v: real)
    ensures var m, l := n + 1.0, Line(u, v, n + 1.0);
      Quadratic(n, sx, sxx, u, v) + Times(l, l) == Quadratic(m, sx + m, sxx + Times(m, m), u, v)
  {
  }

  lemma {:induction false} SpreadExpands(n: nat, u: real, v: real)
    ensures Spread(n, u, v) == Quadratic(n as real, SumX(n) as real, SumXX(n) as real, u, v)
    ensures Spread(n, u, v) >= 0.0
  {
    if n == 0 {
    } else {
      hide Times, Line, Quadratic;
      hide SumX, SumXX;
      SpreadExpands(n - 1, u, v);
      SumsOfX(n);
      assert (n - 1) as real + 1.0 == n as real;
      QuadraticStep((n - 1) as real, SumX(n - 1) as real, SumXX(n - 1) as real, u, v);
      SquareNonNegative(Line(u, v, n as real));
    }
  }

  /** A line that vanishes at two different points is zero. */
  lemma SpreadZero(n: nat, u: real, v: real)
    requires n >= 2 && Spread(n, u, v) == 0.0
    ensures u == 0.0 && v == 0.0
  {
    var p, q := Line(u, v, n as real), Line(u, v, (n - 1) as real);
    LinePasses(n, u, v);
    assert u == 0.0 by {
      hide Times, Line;
      SpreadExpands(n - 2, u, v);
      assert Spread(n, u, v) == Spread(n - 2, u, v) + Times(q, q) + Times(p, p);
      SquareNonNegative(p);
      SquareNonNegative(q);
      SquareZero(p);
      SquareZero(q);
    }
    hide Line, Times;
    SpreadExpands(n - 2, u, v);
    assert Spread(n, u, v) == Spread(n - 2, u, v) + Times(q, q) + Times(p, p);
    SquareNonNegative(q);
    SquareZero(p);
  }

  lemma LinePasses(n: nat, u: real, v: real)
    ensures Line(u, v, n as real) - Line(u, v, (n - 1) as real) == u
    ensures u == 0.0 ==> Line(u, v, n as real) == v
  {
  }

  lemma FormGap(n: real, sx: real, sxx: real, sy: real, sxy: real, syy: real,
                a: real, b: real, a': real, b': real)
    requires NormalEquations(n, sx, sxx, sy, sxy, a, b)
    ensures Form(n, sx, sxx, sy, sxy, syy, a', b') - Form(n, sx, sxx, sy, sxy, syy, a, b)
         == Quadratic(n, sx, sxx, a' - a, b' - b)
  {
    assert (a' - a) * sxy == (a' - a) * (a * sxx + b * sx);
    assert (b' - b) * sy == (b' - b) * (a * sx + n * b);
  }

  /** The line that solves the normal equations is the only minimiser of the squared residuals over
      all lines. */
  lemma LeastSquares(ys: seq<int>, a: real, b: real, a': real, b': real)
    requires |ys| >= 2 && Fits(ys, a, b)
    ensures Residual(ys, a, b) <= Residual(ys, a', b')
    ensures Residual(ys, a, b) == Residual(ys, a', b') <==> a == a' && b == b'
  {
    hide Residual, Spread, Form, Quadratic, NormalEquations;
    hide SumX, SumXX, SumOf, SumXY, SumYY;
    var n := |ys|;
    ResidualExpands(ys, a, b);
    ResidualExpands(ys, a', b');
    FormGap(n as real, SumX(n) as real, SumXX(n) as real, SumOf(ys) as real, SumXY(ys) as real,
            SumYY(ys) as real, a, b, a', b');
    SpreadExpands(n, a' - a, b' - b);
    if Residual(ys, a, b) == Residual(ys, a', b') { SpreadZero(n, a' - a, b' - b); }
  }

  lemma BestOfAllLines(ys: seq<int>, a: real, b: real)
    requires |ys| >= 2 && Fits(ys, a, b)
    ensures forall a', b' :: Residual(ys, a, b) <= Residual(ys, a', b')
  {
    hide Fits, Residual;
    forall a', b' ensures Residual(ys, a, b) <= Residual(ys, a', b') {
      LeastSquares(ys, a, b, a', b');
    }
  }

  // ---- exact extrapolation ----

  predicate Affine(ys: seq<int>, p: int, q: int) {
    forall i :: 0 <= i < |ys| ==> ys[i] == p * (i + 1) + q
  }

  lemma LineOnIntegers(p: int, q: int, x: int)
    ensures Line(p as real, q as real, x as real) == (p * x + q) as real
  {
    ProductAsReal(p, x);
  }

  lemma {:induction false} AffineResidual(ys: seq<int>, p: int, q: int)
    requires Affine(ys, p, q)
    ensures Residual(ys, p as real, q as real) == 0.0
  {
    if ys != [] {
      AffineResidual(ys[..|ys| - 1], p, q);
      LineOnIntegers(p, q, |ys|);
    }
  }

  /** An affine series is extrapolated exactly. */
  lemma AffineIsExact(ys: seq<int>, a: real, b: real, p: int, q: int)
    requires |ys| >= 2 && Fits(ys, a, b) && Affine(ys, p, q)
    ensures a == p as real && b == q as real
    ensures Truncate(Line(a, b, (|ys| + 1) as real)) == p * (|ys| + 1) + q
    ensures Affine(ys + [Truncate(Line(a, b, (|ys| + 1) as real))], p, q)
  {
    hide Residual, Fits, Line;
    AffineResidual(ys, p, q);
    ResidualNonNegative(ys, a, b);
    LeastSquares(ys, a, b, p as real, q as real);
    LineOnIntegers(p, q, |ys| + 1);
  }

  // ---- the class ----

  class Regression {
    const size: nat
    var Sx: int
    var Sxx: int
    var Sy: int
    var Sxy: int
    var Syy: int

    ghost predicate Valid()
      reads this
    {
      Sx == SumX(size) && Sxx == SumXX(size)
    }

    constructor (size: nat)
      ensures Valid() && this.size == size
    {
      this.size := size;
      Sx, Sxx, Sy, Sxy, Syy := 0, 0, 0, 0, 0;
      new;
      var i := 1;
      while i <= size
        invariant 1 <= i <= size + 1
        invariant Sx == SumX(i - 1) && Sxx == SumXX(i - 1)
      {
        Sx := Sx + i;
        Sxx := Sxx + i * i;
        i := i + 1;
      }
    }

    /** The line is returned beside the prediction so that its meaning can be stated: the prediction is
        the value at size + 1, rounded towards zero, of the line that fits (see LeastSquares and
        AffineIsExact). With fewer than two points the denominators of the source are zero. */
    method Apply(buffer: array<int>) returns (prediction: Prediction, a: real, b: real)
      requires Valid() && buffer.Length >= size
      modifies this
      ensures Valid()
      ensures prediction.NotANumber? <==> size < 2
      ensures prediction.Predicted? ==>
        && Fits(buffer[..size], a, b)
        && TowardsZero(prediction.value, Line(a, b, (size + 1) as real))
        && prediction.value == Truncate(Line(a, b, (size + 1) as real))
        && forall a', b' :: Residual(buffer[..size], a, b) <= Residual(buffer[..size], a', b')
    {
      hide Truncate, TowardsZero, Line, Slope, Intercept;
      a, b := 0.0, 0.0;
      Sums(buffer);
      DenominatorPositive(size);
      if size < 2 {
        return NotANumber, a, b;
      }
      hide Residual, Fits;
      hide SumX, SumXX, SumOf, SumXY, SumYY;
      assert size * Sxx - Sx * Sx == Denominator(size);
      a := Slope(size, Sx, Sxx, Sy, Sxy);
      b := Intercept(size, Sx, Sy, a);
      FormulasFit(buffer[..size], a, b);
      BestOfAllLines(buffer[..size], a, b);
      TruncateIsTowardsZero(Line(a, b, (size + 1) as real));
      prediction := Predicted(Truncate(Line(a, b, (size + 1) as real)));
    }

    /** The accumulating loop of `apply`. */
    method Sums(buffer: array<int>)
      requires Valid() && buffer.Length >= size
      modifies this
      ensures Valid()
      ensures Sy == SumOf(buffer[..size]) && Sxy == SumXY(buffer[..size]) && Syy == SumYY(buffer[..size])
    {
      Sy, Syy, Sxy := 0, 0, 0;
      for i := 0 to size
        invariant Valid()
        invariant Sy == SumOf(buffer[..i]) && Syy == SumYY(buffer[..i]) && Sxy == SumXY(buffer[..i])
      {
        assert buffer[..i + 1][..i] == buffer[..i];
        Sy := Sy + buffer[i];
        Syy := Syy + buffer[i] * buffer[i];
        Sxy := Sxy + (i + 1) * buffer[i];
      }
    }
  }
}
