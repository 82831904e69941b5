/** The Yule-Walker predictor: normal equations of the one-step prediction problem, solved by Gaussian
    elimination in place. */
module YuleWalker {
  import opened Reals
  import opened LinearSystems
  import opened AutoRegression

  /** `Rejected`: a zero pivot made `SolveLE` return false. `NotANumber`: it returned true after
      dividing by a zero last pivot. */
  datatype Outcome = Rejected | NotANumber | Solved

  function Abs(x: real): real {
    if x < 0.0 then -x else x
  }

  class YuleWalkerAutoRegression {
    const length: nat
    const degree: nat
    const normalizedVector: array<real>
    const coefficients: array<real>
    const rMatrix: array<array<real>>
    ghost const rows: set<array<real>>

    /** The rows are different arrays and none of them is one of the two vectors. */
    ghost predicate Valid()
      reads this, rMatrix
    {
      && degree >= 1 && length == degree + 2
      && normalizedVector.Length == length && coefficients.Length == degree && rMatrix.Length == degree
      && normalizedVector != coefficients && normalizedVector !in rows && coefficients !in rows
      && (forall i :: 0 <= i < degree ==> rMatrix[i] in rows && rMatrix[i].Length == degree)
      && (forall i, j :: 0 <= i < j < degree ==> rMatrix[i] != rMatrix[j])
    }

    ghost function Rows(): (A: Matrix)
      requires Valid()
      reads this, rMatrix, rows
      ensures Square(A) && |A| == degree
      ensures forall i :: 0 <= i < degree ==> A[i] == rMatrix[i][..]
    {
      seq(degree, i requires 0 <= i < degree reads this, rMatrix, rows
                    requires Valid() => rMatrix[i][..])
    }

    /** With fewer than three samples there is no coefficient and `SolveLE` would index before its
        arrays. */
    constructor (length: nat)
      requires length >= 3
      ensures Valid() && this.length == length
      ensures fresh(normalizedVector) && fresh(coefficients) && fresh(rMatrix) && fresh(rows)
    {
      var d := length - 2;
      var blank := new real[0];
      var m := new array<real>[d](_ => blank);
      ghost var rs: set<array<real>> := {};
      for i := 0 to d
        invariant fresh(m) && m.Length == d && forall r :: r in rs ==> fresh(r)
        invariant forall k :: 0 <= k < i ==> m[k] in rs && m[k].Length == d
        invariant forall k, l :: 0 <= k < l < i ==> m[k] != m[l]
      {
        var row := new real[d];
        m[i], rs := row, rs + {row};
      }
      this.length, degree := length, d;
      rMatrix, rows := m, rs;
      coefficients := new real[d];
      normalizedVector := new real[length];
    }

    /** The row below `i` with the largest entry in column i. */
    method SelectPivot(i: nat) returns (maxi: nat)
      requires Valid() && i < degree
      ensures i <= maxi < degree
      ensures forall j :: i <= j < degree ==> Abs(Rows()[j][i]) <= Abs(Rows()[maxi][i])
    {
      var max := Abs(rMatrix[i][i]);
      maxi := i;
      for j := i + 1 to degree
        invariant i <= maxi < j && max == Abs(rMatrix[maxi][i])
        invariant forall k :: i <= k < j ==> Abs(rMatrix[k][i]) <= max
      {
        var h := Abs(rMatrix[j][i]);
        if h > max {
          max, maxi := h, j;
        }
      }
    }

    /** Swaps two row pointers and the matching right-hand sides. */
    method Exchange(i: nat, maxi: nat)
      requires Valid() && i < degree && maxi < degree
      modifies rMatrix, coefficients
      ensures Valid()
      ensures Rows() == Swapped(old(Rows()), i, maxi)
      ensures coefficients[..] == Swapped(old(coefficients[..]), i, maxi)
    {
      if maxi != i {
        var mswap := rMatrix[i];
        rMatrix[i] := rMatrix[maxi];
        rMatrix[maxi] := mswap;
        var vswap := coefficients[i];
        coefficients[i] := coefficients[maxi];
        coefficients[maxi] := vswap;
      }
      assert forall r :: 0 <= r < degree ==> Rows()[r] == Swapped(old(Rows()), i, maxi)[r];
    }

    /** Subtracts the multiple of row i that clears column i of row j. */
    method EliminateRow(i: nat, j: nat) returns (ghost q: real)
      requires Valid() && i < j < degree && Upper(Rows(), i) && Pivots(Rows(), i + 1)
      modifies rMatrix[j], coefficients
      ensures Valid()
      ensures Rows() == old(Rows())[j := Combine(old(Rows())[j], q, old(Rows())[i])]
      ensures coefficients[..]
        == old(coefficients[..])[j := old(coefficients[j]) + Times(q, old(coefficients[i]))]
      ensures Rows()[j][i] == 0.0
    {
      hide Times, Combine;
      var hvec, row := rMatrix[i], rMatrix[j];
      assert hvec != row;
      var m := -row[i] / hvec[i];
      q := m;
      ClearsColumn(row[i], hvec[i], m);
      AddMultiple(row, m, hvec, i);
      ghost var A := old(Rows());
      assert forall r :: 0 <= r < degree && r != j ==> Rows()[r] == A[r];
      coefficients[j] := coefficients[j] + Times(m, coefficients[i]);
    }

    /** The innermost loop: entries left of column i are zero in both rows and are not visited, and
        the entry in column i is known to vanish. */
    static method AddMultiple(row: array<real>, m: real, hvec: array<real>, i: nat)
      requires row.Length == hvec.Length && row != hvec && i < row.Length
      requires forall c :: 0 <= c < i ==> row[c] == 0.0 && hvec[c] == 0.0
      requires row[i] + Times(m, hvec[i]) == 0.0
      modifies row
      ensures row[..] == Combine(old(row[..]), m, hvec[..]) && row[i] == 0.0
    {
      TimesZero(m);
      hide Times;
      row[i] := 0.0;
      for k := i + 1 to row.Length
        invariant forall c :: 0 <= c < k ==> row[c] == old(row[c]) + Times(m, hvec[c])
        invariant forall c :: k <= c < row.Length ==> row[c] == old(row[c])
        invariant row[i] == 0.0
      {
        row[k] := row[k] + Times(m, hvec[k]);
      }
    }

    /** Clears column i below the diagonal. */
    method EliminateBelow(i: nat)
      requires Valid() && i < degree - 1
      requires Upper(Rows(), i) && Pivots(Rows(), i + 1)
      modifies rows, coefficients
      ensures Valid() && rMatrix[..] == old(rMatrix[..])
      ensures Upper(Rows(), i + 1) && Pivots(Rows(), i + 1)
      ensures Equivalent(old(Rows()), old(coefficients[..]), Rows(), coefficients[..])
    {
      hide Equivalent, Upper, Pivots, Combine, Times;
      EquivalentReflexive(Rows(), coefficients[..]);
      for j := i + 1 to degree
        invariant Valid() && rMatrix[..] == old(rMatrix[..])
        invariant Upper(Rows(), i) && Pivots(Rows(), i + 1)
        invariant forall r :: i < r < j ==> Rows()[r][i] == 0.0
        invariant Equivalent(old(Rows()), old(coefficients[..]), Rows(), coefficients[..])
      {
        ghost var A, b := Rows(), coefficients[..];
        ghost var q := EliminateRow(i, j);
        EliminationEquivalent(A, b, i, j, q);
        EquivalentTransitive(old(Rows()), old(coefficients[..]), A, b, Rows(), coefficients[..]);
        UpperAfterElimination(A, i, j, q);
      }
      UpperExtends(Rows(), i);
    }

    /** One step of the elimination, up to the test of the pivot. */
    method BringPivot(i: nat)
      requires Valid() && i < degree && Upper(Rows(), i) && Pivots(Rows(), i)
      modifies rMatrix, coefficients
      ensures Valid() && Upper(Rows(), i) && Pivots(Rows(), i)
      ensures Rows()[i][i] == 0.0 ==> forall r :: i <= r < degree ==> Rows()[r][i] == 0.0
      ensures Equivalent(old(Rows()), old(coefficients[..]), Rows(), coefficients[..])
    {
      hide Equivalent, Upper, Pivots;
      var maxi := SelectPivot(i);
      ghost var A, b := Rows(), coefficients[..];
      Exchange(i, maxi);
      SwapEquivalent(A, b, i, maxi);
      UpperAfterSwap(A, i, maxi);
    }

    /** Triangular form. `false` exactly when some pivot before the last one is zero. */
    method Triangularize() returns (ok: bool)
      requires Valid()
      modifies rMatrix, rows, coefficients
      ensures Valid()
      ensures Equivalent(old(Rows()), old(coefficients[..]), Rows(), coefficients[..])
      ensures if ok then Upper(Rows(), degree) && Pivots(Rows(), degree - 1)
              else exists k :: 0 <= k < degree - 1 && Upper(Rows(), k) && Pivots(Rows(), k)
                               && forall r :: k <= r < degree ==> Rows()[r][k] == 0.0
    {
      hide Equivalent, Upper, Pivots;
      EmptyTriangle(Rows());
      EquivalentReflexive(Rows(), coefficients[..]);
      for i := 0 to degree - 1
        invariant Valid() && Upper(Rows(), i) && Pivots(Rows(), i)
        invariant Equivalent(old(Rows()), old(coefficients[..]), Rows(), coefficients[..])
      {
        ghost var A, b := Rows(), coefficients[..];
        BringPivot(i);
        ghost var A', b' := Rows(), coefficients[..];
        EquivalentTransitive(old(Rows()), old(coefficients[..]), A, b, A', b');
        if Abs(rMatrix[i][i]) == 0.0 {
          return false;
        }
        PivotsExtend(A', i);
        EliminateBelow(i);
        EquivalentTransitive(old(Rows()), old(coefficients[..]), A', b', Rows(), coefficients[..]);
      }
      ok := true;
      UpperExtends(Rows(), degree - 1);
    }

    /** Turns the right-hand side of a triangular system into its solution, last component first. */
    method BackSubstitute()
      requires Valid() && Upper(Rows(), degree) && Pivots(Rows(), degree)
      modifies coefficients
      ensures Solves(Rows(), old(coefficients[..]), coefficients[..])
    {
      hide Times, Tail, Dot, Upper, Solves;
      ghost var A, b := Rows(), coefficients[..];
      var last := degree - 1;
      coefficients[last] := coefficients[last] / rMatrix[last][last];
      LastComponent(A[last], coefficients[..], b[last]);
      var i := degree - 1;
      while i > 0
        invariant 0 <= i < degree
        invariant forall r :: 0 <= r < i ==> coefficients[r] == b[r]
        invariant forall r :: i <= r < degree ==> Tail(A[r], coefficients[..], r) == b[r]
      {
        i := i - 1;
        ghost var before := coefficients[..];
        SolveRow(i, b[i]);
        forall r | i < r < degree ensures Tail(A[r], coefficients[..], r) == b[r] {
          TailDependsOnTail(A[r], before, coefficients[..], r);
        }
      }
      SolvesFromDiagonal(A, b, coefficients[..]);
    }

    method SolveRow(i: nat, ghost b: real)
      requires Valid() && i < degree - 1 && Rows()[i][i] != 0.0 && coefficients[i] == b
      modifies coefficients
      ensures forall c :: 0 <= c < degree && c != i ==> coefficients[c] == old(coefficients[c])
      ensures Tail(Rows()[i], coefficients[..], i) == b
    {
      hide Times;
      var hvec := rMatrix[i];
      var j := degree - 1;
      while j > i
        invariant i <= j < degree
        invariant forall c :: 0 <= c < degree && c != i ==> coefficients[c] == old(coefficients[c])
        invariant coefficients[i] == b - Tail(hvec[..], coefficients[..], j + 1)
      {
        ghost var before := coefficients[..];
        coefficients[i] := coefficients[i] - Times(hvec[j], coefficients[j]);
        TailDependsOnTail(hvec[..], before, coefficients[..], j);
        j := j - 1;
      }
      ghost var before := coefficients[..];
      coefficients[i] := coefficients[i] / hvec[i];
      TailDependsOnTail(hvec[..], before, coefficients[..], i + 1);
      QuotientTimes(before[i], hvec[i]);
    }

    /** The solver succeeds exactly on the non-singular systems, and then its result is the one
        solution. It returns false exactly when the columns before the last are dependent; on every other
        singular system it divides by zero and returns true. */
    method SolveLE() returns (outcome: Outcome)
      requires Valid()
      modifies rMatrix, rows, coefficients
      ensures Valid()
      ensures outcome.Solved? <==> !Singular(old(Rows()))
      ensures outcome.Solved? ==>
        forall x :: |x| == degree ==> (Solves(old(Rows()), old(coefficients[..]), x) <==> x == coefficients[..])
      ensures outcome.Rejected? <==> DependentBeforeLast(old(Rows()))
    {
      hide Equivalent, Upper, Pivots, Solves, Singular, DependentBeforeLast;
      ghost var A, b := Rows(), coefficients[..];
      var ok := Triangularize();
      ghost var U, c := Rows(), coefficients[..];
      EquivalentSingular(A, b, U, c);
      if !ok {
        ghost var k :| 0 <= k < degree - 1 && Upper(U, k) && Pivots(U, k)
                       && forall r :: k <= r < degree ==> U[r][k] == 0.0;
        ZeroColumnIsSingular(U, k);
        return Rejected;
      }
      PivotsExtend(U, degree - 1);
      UpperExtends(U, degree - 1);
      PivotsBeforeLast(U);
      if rMatrix[degree - 1][degree - 1] == 0.0 {
        ZeroColumnIsSingular(U, degree - 1);
        return NotANumber;
      }
      FullPivotsNotSingular(U);
      BackSubstitute();
      UniqueSolution(A, b, U, c, coefficients[..]);
      outcome := Solved;
    }

    // ---- the normal equations ----

    function Product(s: nat, t: nat): real
      requires s < normalizedVector.Length && t < normalizedVector.Length
      reads normalizedVector
    {
      Times(normalizedVector[s], normalizedVector[t])
    }

    /** One term of every sum in row j, on and right of the diagonal. */
    method AccumulateRow(i: nat, j: nat)
      requires Valid() && j < degree && degree - 1 <= i <= degree
      modifies rMatrix[j]
      ensures forall k :: 0 <= k < degree ==>
        rMatrix[j][k] == old(rMatrix[j][k]) + if k < j then 0.0 else Product(i - j, i - k)
    {
      hide Times;
      var row := rMatrix[j];
      for k := j to degree
        invariant forall c :: 0 <= c < degree ==>
          row[c] == old(row[c]) + if j <= c < k then Product(i - j, i - c) else 0.0
      {
        row[k] := row[k] + Product(i - j, i - k);
      }
    }

    /** The contribution of one residual to all the sums. */
    method Accumulate(i: nat)
      requires Valid() && degree - 1 <= i <= degree
      modifies rows, coefficients
      ensures Valid() && rMatrix[..] == old(rMatrix[..])
      ensures forall j :: 0 <= j < degree ==>
        coefficients[j] == old(coefficients[j]) + Product(i + 1, i - j)
      ensures forall j, k :: 0 <= j <= k < degree ==>
        Rows()[j][k] == old(Rows()[j][k]) + Product(i - j, i - k)
    {
      hide Times;
      for j := 0 to degree
        invariant Valid() && rMatrix[..] == old(rMatrix[..])
        invariant forall r :: 0 <= r < degree ==>
          coefficients[r] == old(coefficients[r]) + if r < j then Product(i + 1, i - r) else 0.0
        invariant forall r, k :: 0 <= r <= k < degree ==>
          rMatrix[r][k] == old(rMatrix[r][k]) + if r < j then Product(i - r, i - k) else 0.0
      {
        coefficients[j] := coefficients[j] + Product(i + 1, i - j);
        AccumulateRow(i, j);
      }
    }

    /** Divides the sums by the number of residuals and mirrors the matrix. */
    method AverageAndMirror()
      requires Valid()
      modifies rows, coefficients
      ensures Valid() && rMatrix[..] == old(rMatrix[..])
      ensures forall j :: 0 <= j < degree ==> coefficients[j] == old(coefficients[j]) / 2.0
      ensures forall j, k :: 0 <= j <= k < degree ==> Rows()[j][k] == old(Rows()[j][k]) / 2.0
      ensures forall j, k :: 0 <= j <= k < degree ==> Rows()[k][j] == old(Rows()[j][k]) / 2.0
    {
      for i := 0 to degree
        invariant Valid() && rMatrix[..] == old(rMatrix[..])
        invariant forall r :: 0 <= r < i ==> coefficients[r] == old(coefficients[r]) / 2.0
        invariant forall r :: i <= r < degree ==> coefficients[r] == old(coefficients[r])
        invariant forall r, k :: 0 <= r <= k < degree && r < i ==> rMatrix[r][k] == old(rMatrix[r][k]) / 2.0
        invariant forall r, k :: 0 <= r <= k < degree && r < i ==> rMatrix[k][r] == old(rMatrix[r][k]) / 2.0
        invariant forall r, k :: i <= r <= k < degree ==> rMatrix[r][k] == old(rMatrix[r][k])
      {
        coefficients[i] := coefficients[i] / (length - degree) as real;
        MirrorRow(i);
      }
    }

    method MirrorRow(i: nat)
      requires Valid() && i < degree
      modifies rows
      ensures Valid() && rMatrix[..] == old(rMatrix[..])
      ensures forall k :: i <= k < degree ==> rMatrix[i][k] == old(rMatrix[i][k]) / 2.0
      ensures forall k :: i <= k < degree ==> rMatrix[k][i] == old(rMatrix[i][k]) / 2.0
      ensures forall r, k :: 0 <= r < degree && 0 <= k < degree && (r < i || k < i || (r != i && k != i)) ==>
        rMatrix[r][k] == old(rMatrix[r][k])
    {
      for j := i to degree
        invariant Valid() && rMatrix[..] == old(rMatrix[..])
        invariant forall k :: i <= k < j ==> rMatrix[i][k] == old(rMatrix[i][k]) / 2.0
        invariant forall k :: i <= k < j ==> rMatrix[k][i] == old(rMatrix[i][k]) / 2.0
        invariant forall k :: j <= k < degree ==> rMatrix[i][k] == old(rMatrix[i][k])
        invariant forall r, k :: 0 <= r < degree && 0 <= k < degree && (r < i || k < i || (r != i && k != i)) ==>
          rMatrix[r][k] == old(rMatrix[r][k])
      {
        rMatrix[i][j] := rMatrix[i][j] / (length - degree) as real;
        rMatrix[j][i] := rMatrix[i][j];
      }
    }

    /** Builds and solves the normal equations. A solution is a least-squares predictor of the series.
        What becomes of a series is decided by at most three of its values. */
    method Autoregress() returns (outcome: Outcome)
      requires Valid()
      requires forall j :: 0 <= j < degree ==> coefficients[j] == 0.0
      requires forall j, k :: 0 <= j < degree && 0 <= k < degree ==> Rows()[j][k] == 0.0
      modifies rMatrix, rows, coefficients
      ensures Valid()
      ensures outcome.Solved? <==> !Singular(NormalMatrix(normalizedVector[..]))
      ensures outcome.Solved? ==> forall a :: |a| == degree ==>
        SquaredError(normalizedVector[..], coefficients[..]) <= SquaredError(normalizedVector[..], a)
      ensures outcome == OutcomeOf(normalizedVector[..])
    {
      ghost var x := normalizedVector[..];
      BuildNormalEquations();
      outcome := SolveLE();
      OutcomeIs(x);
      hide Solves, Singular, DependentBeforeLast, NormalMatrix, NormalVector, SquaredError, OutcomeOf;
      if outcome.Solved? {
        assert Solves(NormalMatrix(x), NormalVector(x), coefficients[..]);
        forall a: seq<real> | |a| == degree
          ensures SquaredError(x, coefficients[..]) <= SquaredError(x, a)
        {
          NormalEquationsMinimise(x, coefficients[..], a);
        }
      }
    }

    method BuildNormalEquations()
      requires Valid()
      requires forall j :: 0 <= j < degree ==> coefficients[j] == 0.0
      requires forall j, k :: 0 <= j < degree && 0 <= k < degree ==> Rows()[j][k] == 0.0
      modifies rows, coefficients
      ensures Valid()
      ensures Rows() == NormalMatrix(normalizedVector[..])
      ensures coefficients[..] == NormalVector(normalizedVector[..])
    {
      hide DoubleEntry, NormalMatrix, Times;
      AccumulateAll();
      AverageAndMirror();
      NormalMatrixFromEntries(normalizedVector[..], Rows());
    }

    /** The loop over the residuals: there are length - degree of them, that is two. */
    method AccumulateAll()
      requires Valid()
      requires forall j :: 0 <= j < degree ==> coefficients[j] == 0.0
      requires forall j, k :: 0 <= j < degree && 0 <= k < degree ==> Rows()[j][k] == 0.0
      modifies rows, coefficients
      ensures Valid()
      ensures forall j, k :: 0 <= j <= k < degree ==> Rows()[j][k] == DoubleEntry(normalizedVector[..], j, k)
      ensures forall j :: 0 <= j < degree ==>
        coefficients[j] == Product(degree, degree - 1 - j) + Product(degree + 1, degree - j)
    {
      hide Times;
      for i := degree - 1 to length - 1
        invariant degree - 1 <= i <= degree + 1
        invariant Valid()
        invariant forall j :: 0 <= j < degree ==>
          coefficients[j] == (if i >= degree then Product(degree, degree - 1 - j) else 0.0)
                             + if i > degree then Product(degree + 1, degree - j) else 0.0
        invariant forall j, k :: 0 <= j <= k < degree ==>
          Rows()[j][k] == (if i >= degree then Product(degree - 1 - j, degree - 1 - k) else 0.0)
                          + if i > degree then Product(degree - j, degree - k) else 0.0
      {
        Accumulate(i);
      }
    }

    method ClearSystem()
      requires Valid()
      modifies rows, coefficients
      ensures Valid() && rMatrix[..] == old(rMatrix[..])
      ensures forall j :: 0 <= j < degree ==> coefficients[j] == 0.0
      ensures forall j, k :: 0 <= j < degree && 0 <= k < degree ==> Rows()[j][k] == 0.0
    {
      for i := 0 to degree
        invariant Valid() && rMatrix[..] == old(rMatrix[..])
        invariant forall j :: 0 <= j < i ==> coefficients[j] == 0.0
        invariant forall j, k :: 0 <= j < i && 0 <= k < degree ==> rMatrix[j][k] == 0.0
      {
        coefficients[i] := 0.0;
        ClearRow(rMatrix[i]);
      }
    }

    static method ClearRow(row: array<real>)
      modifies row
      ensures forall k :: 0 <= k < row.Length ==> row[k] == 0.0
    {
      for j := 0 to row.Length
        invariant forall k :: 0 <= k < j ==> row[k] == 0.0
      {
        row[j] := 0.0;
      }
    }

    /** A rejected system predicts zero. */
    method GetNextPrediction(inputseries: array<int>) returns (outcome: Outcome, prediction: real)
      requires Valid() && inputseries.Length >= length
      modifies normalizedVector, coefficients, rMatrix, rows
      ensures Valid()
      ensures outcome.Solved? <==> !Singular(NormalMatrix(Centred(inputseries[..length])))
      ensures outcome.Solved? ==>
        var s, x := inputseries[..length], Centred(inputseries[..length]);
        && PositivePart(prediction, Mean(s) + Weighted(x, coefficients[..], degree))
        && forall a :: |a| == degree ==> SquaredError(x, coefficients[..]) <= SquaredError(x, a)
      ensures outcome.Rejected? ==> prediction == 0.0
      ensures outcome == OutcomeOf(Centred(inputseries[..length]))
    {
      hide Mean, Centred, Weighted, NormalMatrix, SquaredError, Singular, OutcomeOf;
      prediction := 0.0;
      var mean := SubtractMean(inputseries, normalizedVector);
      ghost var x := normalizedVector[..];
      ClearSystem();
      outcome := Autoregress();
      assert normalizedVector[..] == x;
      if outcome.Solved? {
        prediction := Predict(mean, normalizedVector, coefficients);
      }
    }
  }

  // ---- what the normal equations mean ----

  /** The regressors and the target of the first residual (series values d-1 down to 0 predict value
      d) and of the second (values d down to 1 predict value d + 1). */
  function Earlier(x: seq<real>): (u: seq<real>)
    requires |x| >= 3
    ensures |u| == |x| - 2
  {
    var d := |x| - 2;
    seq(d, j requires 0 <= j < d => x[d - 1 - j])
  }

  function Later(x: seq<real>): (v: seq<real>)
    requires |x| >= 3
    ensures |v| == |x| - 2
  {
    var d := |x| - 2;
    seq(d, j requires 0 <= j < d => x[d - j])
  }

  /** p u + q v */
  function Mix(p: real, u: seq<real>, q: real, v: seq<real>): (t: seq<real>)
    requires |u| == |v|
    ensures |t| == |u|
  {
    Combine(Combine(Zeros(|u|), p, u), q, v)
  }

  function NormalMatrix(x: seq<real>): (A: Matrix)
    requires |x| >= 3
    ensures |A| == |x| - 2 && Square(A)
  {
    var u, v := Earlier(x), Later(x);
    seq(|u|, j requires 0 <= j < |u| => Mix(u[j] / 2.0, u, v[j] / 2.0, v))
  }

  function NormalVector(x: seq<real>): (b: seq<real>)
    requires |x| >= 3
    ensures |b| == |x| - 2
  {
    var d := |x| - 2;
    seq(d, j requires 0 <= j < d => (Times(x[d], x[d - 1 - j]) + Times(x[d + 1], x[d - j])) / 2.0)
  }

  function Square2(e: real, f: real): real {
    Times(e, e) + Times(f, f)
  }

  /** The squared one-step prediction errors of the coefficients `a` over the series. */
  function SquaredError(x: seq<real>, a: seq<real>): real
    requires |x| >= 3 && |a| == |x| - 2
  {
    var d := |x| - 2;
    Square2(x[d] - Dot(Earlier(x), a), x[d + 1] - Dot(Later(x), a))
  }

  lemma {:induction false} DotIsWeighted(y: seq<real>, u: seq<real>, a: seq<real>, m: nat)
    requires m <= |u| == |a| <= |y| && forall i :: 0 <= i < |u| ==> u[i] == y[|y| - 1 - i]
    ensures Dot(u, a) == Weighted(y, a, m) + Tail(u, a, m)
  {
    if m > 0 {
      DotIsWeighted(y, u, a, m - 1);
      assert Times(u[m - 1], a[m - 1]) == Times(y[|y| - m], a[m - 1]);
    }
  }

  /** What is minimised are the errors of the very predictions the coefficients make: of the last two values
      from those before them. */
  lemma ErrorsOfPredictions(x: seq<real>, a: seq<real>)
    requires |x| >= 3 && |a| == |x| - 2
    ensures var d := |x| - 2;
      SquaredError(x, a) == Square2(x[d] - Weighted(x[..d], a, d), x[d + 1] - Weighted(x[..d + 1], a, d))
  {
    hide Times, Square2;
    var d := |x| - 2;
    DotIsWeighted(x[..d], Earlier(x), a, d);
    DotIsWeighted(x[..d + 1], Later(x), a, d);
  }

  function DoubleEntry(x: seq<real>, j: nat, k: nat): real
    requires |x| >= 3 && j < |x| - 2 && k < |x| - 2
  {
    var d := |x| - 2;
    Times(x[d - 1 - j], x[d - 1 - k]) + Times(x[d - j], x[d - k])
  }

  lemma NormalEntry(x: seq<real>, j: nat, k: nat)
    requires |x| >= 3 && j < |x| - 2 && k < |x| - 2
    ensures NormalMatrix(x)[j][k] == DoubleEntry(x, j, k) / 2.0
    ensures DoubleEntry(x, j, k) == DoubleEntry(x, k, j)
  {
    var d := |x| - 2;
    Halves(x[d - 1 - j], x[d - 1 - k], x[d - j], x[d - k]);
  }

  lemma NormalMatrixFromEntries(x: seq<real>, A: Matrix)
    requires |x| >= 3 && |A| == |x| - 2 && Square(A)
    requires forall j, k :: 0 <= j <= k < |A| ==> A[j][k] == DoubleEntry(x, j, k) / 2.0
    requires forall j, k :: 0 <= j <= k < |A| ==> A[k][j] == DoubleEntry(x, j, k) / 2.0
    ensures A == NormalMatrix(x)
  {
    hide DoubleEntry, NormalMatrix;
    forall j, k | 0 <= j < |A| && 0 <= k < |A| ensures A[j][k] == NormalMatrix(x)[j][k] {
      NormalEntry(x, j, k);
    }
    forall j | 0 <= j < |A| ensures A[j] == NormalMatrix(x)[j] {}
  }

  lemma Halves(a: real, b: real, c: real, e: real)
    ensures 0.0 + Times(a / 2.0, b) + Times(c / 2.0, e) == (Times(a, b) + Times(c, e)) / 2.0
  {
  }

  lemma DotOfMix(p: real, u: seq<real>, q: real, v: seq<real>, a: seq<real>)
    requires |u| == |v| == |a|
    ensures Dot(Mix(p, u, q, v), a) == Times(p, Dot(u, a)) + Times(q, Dot(v, a))
  {
    hide Times, Combine;
    var z := Zeros(|u|);
    TailOfZeros(z, a, 0);
    TailCombines(z, p, u, a, 0);
    TailCombines(Combine(z, p, u), q, v, a, 0);
  }

  lemma RowCondition(uj: real, vj: real, du: real, dv: real, y: real, z: real)
    requires Times(uj / 2.0, du) + Times(vj / 2.0, dv) == (Times(y, uj) + Times(z, vj)) / 2.0
    ensures 0.0 + Times(y - du, uj) + Times(z - dv, vj) == 0.0
  {
  }

  /** The residuals of a solution are orthogonal to every choice of coefficients. */
  lemma ResidualsOrthogonal(x: seq<real>, a: seq<real>, w: seq<real>)
    requires |x| >= 3 && |a| == |w| == |x| - 2
    requires Solves(NormalMatrix(x), NormalVector(x), a)
    ensures var d, u, v := |x| - 2, Earlier(x), Later(x);
      Times(x[d] - Dot(u, a), Dot(u, w)) + Times(x[d + 1] - Dot(v, a), Dot(v, w)) == 0.0
  {
    hide Times, Tail;
    var d, u, v := |x| - 2, Earlier(x), Later(x);
    var e, f := x[d] - Dot(u, a), x[d + 1] - Dot(v, a);
    forall j | 0 <= j < d ensures Mix(e, u, f, v)[j] == 0.0 {
      assert Dot(NormalMatrix(x)[j], a) == NormalVector(x)[j];
      DotOfMix(u[j] / 2.0, u, v[j] / 2.0, v, a);
      RowCondition(u[j], v[j], Dot(u, a), Dot(v, a), x[d], x[d + 1]);
    }
    TailOfZeros(Mix(e, u, f, v), w, 0);
    DotOfMix(e, u, f, v, w);
  }

  lemma MinimumStep(e: real, f: real, g: real, h: real)
    requires Times(e, g) + Times(f, h) == 0.0
    ensures Square2(e, f) <= Square2(e - g, f - h)
  {
    SquareNonNegative(g);
    SquareNonNegative(h);
    assert Square2(e - g, f - h)
        == Square2(e, f) - 2.0 * (Times(e, g) + Times(f, h)) + Times(g, g) + Times(h, h);
  }

  /** Solving the normal equations minimises the squared prediction error. */
  lemma NormalEquationsMinimise(x: seq<real>, a: seq<real>, a': seq<real>)
    requires |x| >= 3 && |a| == |a'| == |x| - 2
    requires Solves(NormalMatrix(x), NormalVector(x), a)
    ensures SquaredError(x, a) <= SquaredError(x, a')
  {
    hide Times, Tail, Solves, Combine, NormalMatrix, NormalVector, Square2;
    var d, u, v := |x| - 2, Earlier(x), Later(x);
    var w := Combine(a', -1.0, a);
    ResidualsOrthogonal(x, a, w);
    DotOfDifference(u, a', a);
    DotOfDifference(v, a', a);
    MinimumStep(x[d] - Dot(u, a), x[d + 1] - Dot(v, a), Dot(u, w), Dot(v, w));
  }

  lemma DotOfDifference(u: seq<real>, a: seq<real>, b: seq<real>)
    requires |u| == |a| == |b|
    ensures Dot(u, Combine(a, -1.0, b)) == Dot(u, a) - Dot(u, b)
  {
    TailSymmetric(u, Combine(a, -1.0, b), 0);
    TailSymmetric(u, a, 0);
    TailSymmetric(u, b, 0);
    TailCombines(a, -1.0, b, u, 0);
  }

  // ---- why three or more coefficients are never determined ----

  predicate Orthogonal3(a: real, b: real, c: real, p: real, q: real, r: real) {
    Times(a, p) + (Times(b, q) + Times(c, r)) == 0.0
  }

  lemma CrossProduct(a: real, b: real, c: real, e: real, f: real, g: real)
    ensures Orthogonal3(a, b, c, b * g - c * f, c * e - a * g, a * f - b * e)
    ensures Orthogonal3(e, f, g, b * g - c * f, c * e - a * g, a * f - b * e)
  {
  }

  lemma PlaneNormal(a: real, b: real, c: real, e: real, f: real, g: real)
    requires a * f - b * e == 0.0
    ensures Orthogonal3(a, b, c, -b, a, 0.0) && Orthogonal3(e, f, g, -b, a, 0.0)
  {
  }

  /** Two vectors of three components have a common non-zero normal. */
  lemma CommonNormal(a: real, b: real, c: real, e: real, f: real, g: real) returns (p: real, q: real, r: real)
    ensures Orthogonal3(a, b, c, p, q, r) && Orthogonal3(e, f, g, p, q, r)
    ensures p != 0.0 || q != 0.0 || r != 0.0
  {
    hide Orthogonal3;
    p, q, r := b * g - c * f, c * e - a * g, a * f - b * e;
    CrossProduct(a, b, c, e, f, g);
    if p == 0.0 && q == 0.0 && r == 0.0 {
      if a != 0.0 || b != 0.0 {
        PlaneNormal(a, b, c, e, f, g);
        p, q, r := -b, a, 0.0;
      } else {
        p, q, r := UprightNormal(c, e, f, g);
      }
    }
  }

  lemma UprightNormal(c: real, e: real, f: real, g: real) returns (p: real, q: real, r: real)
    ensures Orthogonal3(0.0, 0.0, c, p, q, r) && Orthogonal3(e, f, g, p, q, r)
    ensures p != 0.0 || q != 0.0 || r != 0.0
  {
    if e != 0.0 || f != 0.0 {
      PlaneNormal(e, f, g, 0.0, 0.0, c);
      p, q, r := -f, e, 0.0;
    } else {
      p, q, r := 1.0, 0.0, 0.0;
    }
  }

  lemma DotOfThree(u: seq<real>, w: seq<real>)
    requires |u| == |w| >= 3 && forall c :: 3 <= c < |w| ==> w[c] == 0.0
    ensures Dot(u, w) == Times(u[0], w[0]) + (Times(u[1], w[1]) + Times(u[2], w[2]))
  {
    hide Times;
    TailOfZeros(u, w, 3);
    assert Tail(u, w, 2) == Times(u[2], w[2]) + Tail(u, w, 3);
    assert Tail(u, w, 1) == Times(u[1], w[1]) + Tail(u, w, 2);
  }

  /** A non-zero kernel vector of the normal matrix in its first three components. */
  lemma SmallKernelVector(x: seq<real>) returns (w: seq<real>)
    requires |x| >= 5
    ensures |w| == |x| - 2 && InKernel(NormalMatrix(x), w)
    ensures forall c :: 3 <= c < |w| ==> w[c] == 0.0
    ensures w[0] != 0.0 || w[1] != 0.0 || w[2] != 0.0
  {
    hide Times, Tail, Combine;
    var u, v := Earlier(x), Later(x);
    var p, q, r := CommonNormal(u[0], u[1], u[2], v[0], v[1], v[2]);
    w := [p, q, r] + Zeros(|x| - 5);
    DotOfThree(u, w);
    DotOfThree(v, w);
    forall j | 0 <= j < |u| ensures Dot(NormalMatrix(x)[j], w) == 0.0 {
      DotOfMix(u[j] / 2.0, u, v[j] / 2.0, v, w);
      NoContribution(u[j] / 2.0, v[j] / 2.0);
    }
  }

  lemma NoContribution(p: real, q: real)
    ensures Times(p, 0.0) + Times(q, 0.0) == 0.0
  {
  }

  lemma NormalMatrixSingular(x: seq<real>)
    requires |x| >= 5
    ensures Singular(NormalMatrix(x))
  {
    hide NormalMatrix, InKernel;
    var w := SmallKernelVector(x);
    assert w != Zeros(|w|);
  }

  /** With at least four coefficients the first three columns are dependent. */
  lemma RankAtMostTwo(x: seq<real>)
    requires |x| >= 6
    ensures DependentBeforeLast(NormalMatrix(x))
  {
    hide NormalMatrix, InKernel;
    var w := SmallKernelVector(x);
    assert w != Zeros(|w|) && w[|w| - 1] == 0.0;
  }

  // ---- what becomes of a series ----

  /** The matrix is half the sum of two outer products, so its kernel is what both regressors annihilate. */
  lemma KernelOfNormalMatrix(x: seq<real>, w: seq<real>)
    requires |x| >= 3 && |w| == |x| - 2
    ensures InKernel(NormalMatrix(x), w) <==> Dot(Earlier(x), w) == 0.0 && Dot(Later(x), w) == 0.0
  {
    hide Times, Tail;
    var u, v := Earlier(x), Later(x);
    var p, q := Dot(u, w), Dot(v, w);
    forall j | 0 <= j < |u|
      ensures Dot(NormalMatrix(x)[j], w) == Times(u[j] / 2.0, p) + Times(v[j] / 2.0, q)
    {
      DotOfMix(u[j] / 2.0, u, v[j] / 2.0, v, w);
    }
    if p == 0.0 && q == 0.0 {
      forall j | 0 <= j < |u| ensures Dot(NormalMatrix(x)[j], w) == 0.0 {
        NoContribution(u[j] / 2.0, v[j] / 2.0);
      }
    } else if InKernel(NormalMatrix(x), w) {
      forall j | 0 <= j < |u| ensures Mix(p, u, q, v)[j] == 0.0 {
        assert Dot(NormalMatrix(x)[j], w) == 0.0;
        TwiceNothing(u[j], v[j], p, q);
      }
      TailOfZeros(Mix(p, u, q, v), w, 0);
      DotOfMix(p, u, q, v, w);
      BothZero(p, q);
    }
  }

  lemma TwiceNothing(a: real, b: real, p: real, q: real)
    requires Times(a / 2.0, p) + Times(b / 2.0, q) == 0.0
    ensures 0.0 + Times(p, a) + Times(q, b) == 0.0
  {
  }

  lemma BothZero(p: real, q: real)
    requires Times(p, p) + Times(q, q) == 0.0
    ensures p == 0.0 && q == 0.0
  {
    SquareNonNegative(p);
    SquareNonNegative(q);
    ProductZero(p, p);
    ProductZero(q, q);
  }

  /** Two vectors of two components have a common non-zero normal just when their determinant vanishes. */
  lemma PlaneKernel(a: real, b: real, e: real, f: real) returns (p: real, q: real)
    requires Times(a, f) == Times(b, e)
    ensures Times(a, p) + Times(b, q) == 0.0 && Times(e, p) + Times(f, q) == 0.0
    ensures p != 0.0 || q != 0.0
  {
    if a != 0.0 || b != 0.0 {
      p, q := -b, a;
    } else if e != 0.0 || f != 0.0 {
      p, q := -f, e;
    } else {
      p, q := 1.0, 0.0;
    }
  }

  lemma NoPlaneKernel(a: real, b: real, e: real, f: real, p: real, q: real)
    requires Times(a, p) + Times(b, q) == 0.0 && Times(e, p) + Times(f, q) == 0.0
    requires p != 0.0 || q != 0.0
    ensures Times(a, f) == Times(b, e)
  {
    var d := Times(a, f) - Times(b, e);
    assert Times(d, p) == f * (Times(a, p) + Times(b, q)) - b * (Times(e, p) + Times(f, q));
    assert Times(d, q) == a * (Times(e, p) + Times(f, q)) - e * (Times(a, p) + Times(b, q));
    ProductZero(d, p);
    ProductZero(d, q);
  }

  /** The outcome for the centred series `x`, decided by the determinant of two or three values. */
  function OutcomeOf(x: seq<real>): Outcome
    requires |x| >= 3
  {
    if |x| == 3 then
      if x[0] == 0.0 && x[1] == 0.0 then NotANumber else Solved
    else if |x| == 4 then
      if Times(x[1], x[1]) != Times(x[0], x[2]) then Solved
      else if x[1] == 0.0 && x[2] == 0.0 then Rejected
      else NotANumber
    else if |x| == 5 then
      if Times(x[2], x[2]) == Times(x[1], x[3]) then Rejected else NotANumber
    else
      Rejected
  }

  lemma DotOfOne(u: seq<real>, w: seq<real>)
    requires |u| == |w| >= 1 && forall c :: 1 <= c < |w| ==> w[c] == 0.0
    ensures Dot(u, w) == Times(u[0], w[0])
  {
    hide Times;
    TailOfZeros(u, w, 1);
  }

  lemma DotOfTwo(u: seq<real>, w: seq<real>)
    requires |u| == |w| >= 2 && forall c :: 2 <= c < |w| ==> w[c] == 0.0
    ensures Dot(u, w) == Times(u[0], w[0]) + Times(u[1], w[1])
  {
    hide Times;
    TailOfZeros(u, w, 2);
    assert Tail(u, w, 1) == Times(u[1], w[1]) + Tail(u, w, 2);
  }

  /** A non-zero kernel vector in the first component only. */
  lemma KernelInOne(x: seq<real>)
    requires |x| >= 3
    ensures var d := |x| - 2;
      (exists w: seq<real> :: |w| == d && w != Zeros(d) && InKernel(NormalMatrix(x), w)
                              && forall c :: 1 <= c < d ==> w[c] == 0.0)
      <==> Earlier(x)[0] == 0.0 && Later(x)[0] == 0.0
  {
    var d, u, v := |x| - 2, Earlier(x), Later(x);
    hide NormalMatrix, InKernel, Earlier, Later, Dot;
    forall w: seq<real> | |w| == d && w != Zeros(d) && InKernel(NormalMatrix(x), w)
                          && forall c :: 1 <= c < d ==> w[c] == 0.0
      ensures u[0] == 0.0 && v[0] == 0.0
    {
      KernelOfNormalMatrix(x, w);
      DotOfOne(u, w);
      DotOfOne(v, w);
      assert w[0] != 0.0;
      ProductZero(u[0], w[0]);
      ProductZero(v[0], w[0]);
    }
    if u[0] == 0.0 && v[0] == 0.0 {
      var w := Zeros(d)[0 := 1.0];
      KernelOfNormalMatrix(x, w);
      DotOfOne(u, w);
      DotOfOne(v, w);
      assert w[0] == 1.0 && Zeros(d)[0] == 0.0;
    }
  }

  /** A non-zero kernel vector in the first two components. */
  lemma KernelInTwo(x: seq<real>)
    requires |x| >= 4
    ensures var d := |x| - 2;
      (exists w: seq<real> :: |w| == d && w != Zeros(d) && InKernel(NormalMatrix(x), w)
                              && forall c :: 2 <= c < d ==> w[c] == 0.0)
      <==> Times(Earlier(x)[0], Later(x)[1]) == Times(Earlier(x)[1], Later(x)[0])
  {
    var d, u, v := |x| - 2, Earlier(x), Later(x);
    hide NormalMatrix, InKernel, Earlier, Later, Dot, Times;
    forall w: seq<real> | |w| == d && w != Zeros(d) && InKernel(NormalMatrix(x), w)
                          && forall c :: 2 <= c < d ==> w[c] == 0.0
      ensures Times(u[0], v[1]) == Times(u[1], v[0])
    {
      KernelOfNormalMatrix(x, w);
      DotOfTwo(u, w);
      DotOfTwo(v, w);
      assert w[0] != 0.0 || w[1] != 0.0;
      NoPlaneKernel(u[0], u[1], v[0], v[1], w[0], w[1]);
    }
    if Times(u[0], v[1]) == Times(u[1], v[0]) {
      var p, q := PlaneKernel(u[0], u[1], v[0], v[1]);
      var w := [p, q] + Zeros(d - 2);
      KernelOfNormalMatrix(x, w);
      DotOfTwo(u, w);
      DotOfTwo(v, w);
      assert w[0] == p && w[1] == q && Zeros(d)[0] == 0.0 && Zeros(d)[1] == 0.0;
    }
  }

  /** Which series the elimination solves, and which it rejects. */
  lemma OutcomeIs(x: seq<real>)
    requires |x| >= 3
    ensures OutcomeOf(x).Solved? <==> !Singular(NormalMatrix(x))
    ensures OutcomeOf(x).Rejected? <==> DependentBeforeLast(NormalMatrix(x))
  {
    hide NormalMatrix, InKernel, Times;
    if |x| == 3 {
      KernelInOne(x);
    } else if |x| == 4 {
      KernelInOne(x);
      KernelInTwo(x);
    } else if |x| == 5 {
      KernelInTwo(x);
      NormalMatrixSingular(x);
    } else {
      NormalMatrixSingular(x);
      RankAtMostTwo(x);
    }
  }

  /** An input on which the solver divides by zero and still returns true: three equal samples. */
  lemma ThreeEqualSamples(a: int)
    ensures OutcomeOf(Centred([a, a, a])) == NotANumber
  {
    CentredConstant([a, a, a]);
  }

  lemma UniqueSolution(A: Matrix, b: seq<real>, U: Matrix, c: seq<real>, s: seq<real>)
    requires Equivalent(A, b, U, c) && |s| == |A| && !Singular(U) && Solves(U, c, s)
    ensures forall x :: |x| == |A| ==> (Solves(A, b, x) <==> x == s)
  {
    hide Solves;
    forall x: seq<real> | |x| == |A| && Solves(A, b, x) ensures x == s {
      SolutionUnique(U, c, x, s);
    }
  }

  lemma SolvesFromDiagonal(A: Matrix, b: seq<real>, x: seq<real>)
    requires Square(A) && |b| == |A| == |x| && Upper(A, |A|)
    requires forall r :: 0 <= r < |A| ==> Tail(A[r], x, r) == b[r]
    ensures Solves(A, b, x)
  {
    hide Times;
    forall r | 0 <= r < |A| ensures Dot(A[r], x) == b[r] {
      TailSkipsZeros(A[r], x, 0, r);
    }
  }

  lemma LastComponent(r: seq<real>, x: seq<real>, b: real)
    requires |r| == |x| > 0 && r[|r| - 1] != 0.0 && x[|r| - 1] == b / r[|r| - 1]
    ensures Tail(r, x, |r| - 1) == b
  {
    QuotientTimes(b, r[|r| - 1]);
    hide Times;
  }

  lemma ClearsColumn(a: real, p: real, q: real)
    requires p != 0.0 && q == -a / p
    ensures a + Times(q, p) == 0.0
  {
  }
}
