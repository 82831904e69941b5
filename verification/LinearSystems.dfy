/** Gaussian elimination with partial pivoting, in place on an array of row pointers. */
module LinearSystems {
  import opened Reals

  type Matrix = seq<seq<real>>

  ghost predicate Square(A: Matrix) {
    forall i :: 0 <= i < |A| ==> |A[i]| == |A|
  }

  /** r[k] x[k] + ... + r[n-1] x[n-1] */
  function Tail(r: seq<real>, x: seq<real>, k: nat): real
    requires k <= |r| == |x|
    decreases |r| - k
  {
    if k == |r| then 0.0 else Times(r[k], x[k]) + Tail(r, x, k + 1)
  }

  function Dot(r: seq<real>, x: seq<real>): real
    requires |r| == |x|
  {
    Tail(r, x, 0)
  }

  ghost predicate Solves(A: Matrix, b: seq<real>, x: seq<real>)
    requires Square(A) && |b| == |A| == |x|
  {
    forall i :: 0 <= i < |A| ==> Dot(A[i], x) == b[i]
  }

  function Zeros(n: nat): seq<real> {
    seq(n, _ => 0.0)
  }

  ghost predicate InKernel(A: Matrix, x: seq<real>)
    requires Square(A) && |x| == |A|
  {
    forall i :: 0 <= i < |A| ==> Dot(A[i], x) == 0.0
  }

  ghost predicate Singular(A: Matrix)
    requires Square(A)
  {
    exists x: seq<real> :: |x| == |A| && x != Zeros(|A|) && InKernel(A, x)
  }

  /** The columns before the last are linearly dependent: a kernel vector does without the last one. */
  ghost predicate DependentBeforeLast(A: Matrix)
    requires Square(A)
  {
    exists x: seq<real> ::
      |x| == |A| > 0 && x != Zeros(|A|) && InKernel(A, x) && x[|A| - 1] == 0.0
  }

  // ---- row operations ----

  /** r + q s */
  function Combine(r: seq<real>, q: real, s: seq<real>): (t: seq<real>)
    requires |r| == |s|
    ensures |t| == |r|
  {
    seq(|r|, k requires 0 <= k < |r| => r[k] + Times(q, s[k]))
  }

  lemma CombineStep(r: real, q: real, s: real, x: real)
    ensures Times(r + Times(q, s), x) == Times(r, x) + Times(q, Times(s, x))
  {
  }

  lemma {:induction false} TailCombines(r: seq<real>, q: real, s: seq<real>, x: seq<real>, k: nat)
    requires k <= |r| == |s| == |x|
    ensures Tail(Combine(r, q, s), x, k) == Tail(r, x, k) + Times(q, Tail(s, x, k))
    decreases |r| - k
  {
    if k == |r| {
    } else {
      hide Times;
      TailCombines(r, q, s, x, k + 1);
      CombineStep(r[k], q, s[k], x[k]);
      Distributes(q, Times(s[k], x[k]), Tail(s, x, k + 1));
    }
  }

  /** The two systems have the same solutions and their matrices the same kernel. */
  ghost predicate Equivalent(A: Matrix, b: seq<real>, A': Matrix, b': seq<real>) {
    && Square(A) && Square(A') && |A| == |A'| == |b| == |b'|
    && (forall x :: |x| == |A| ==> (Solves(A, b, x) <==> Solves(A', b', x)))
    && (forall x :: |x| == |A| ==> (InKernel(A, x) <==> InKernel(A', x)))
  }

  lemma EquivalentReflexive(A: Matrix, b: seq<real>)
    requires Square(A) && |b| == |A|
    ensures Equivalent(A, b, A, b)
  {
  }

  lemma EquivalentTransitive(A: Matrix, b: seq<real>, A': Matrix, b': seq<real>, A'': Matrix, b'': seq<real>)
    requires Equivalent(A, b, A', b') && Equivalent(A', b', A'', b'')
    ensures Equivalent(A, b, A'', b'')
  {
  }

  function Swapped<T>(s: seq<T>, i: nat, j: nat): seq<T>
    requires i < |s| && j < |s|
  {
    s[i := s[j]][j := s[i]]
  }

  lemma SwapEquivalent(A: Matrix, b: seq<real>, i: nat, j: nat)
    requires Square(A) && |b| == |A| && i < |A| && j < |A|
    ensures Equivalent(A, b, Swapped(A, i, j), Swapped(b, i, j))
  {
    hide Dot, Times;
    var A', b' := Swapped(A, i, j), Swapped(b, i, j);
    assert A == Swapped(A', i, j) && b == Swapped(b', i, j);
  }

  lemma SolvesAfterElimination(A: Matrix, b: seq<real>, x: seq<real>, i: nat, j: nat, q: real)
    requires Square(A) && |b| == |A| == |x| && i < |A| && j < |A| && i != j
    ensures var A' := A[j := Combine(A[j], q, A[i])];
      Solves(A, b, x) <==> Solves(A', b[j := b[j] + Times(q, b[i])], x)
  {
    hide Times, Tail, Combine;
    var A', b' := A[j := Combine(A[j], q, A[i])], b[j := b[j] + Times(q, b[i])];
    TailCombines(A[j], q, A[i], x, 0);
    assert Dot(A'[j], x) == Dot(A[j], x) + Times(q, Dot(A[i], x));
    if Solves(A, b, x) {
      forall r | 0 <= r < |A| ensures Dot(A'[r], x) == b'[r] {}
    }
    if Solves(A', b', x) {
      assert Dot(A'[i], x) == b'[i];
      forall r | 0 <= r < |A| ensures Dot(A[r], x) == b[r] {
        assert Dot(A'[r], x) == b'[r];
      }
    }
  }

  lemma KernelIsHomogeneous(A: Matrix, x: seq<real>)
    requires Square(A) && |x| == |A|
    ensures InKernel(A, x) <==> Solves(A, Zeros(|A|), x)
  {
  }

  /** Adding a multiple of one row to another changes neither the solutions nor the kernel. */
  lemma EliminationEquivalent(A: Matrix, b: seq<real>, i: nat, j: nat, q: real)
    requires Square(A) && |b| == |A| && i < |A| && j < |A| && i != j
    ensures Equivalent(A, b, A[j := Combine(A[j], q, A[i])], b[j := b[j] + Times(q, b[i])])
  {
    var A' := A[j := Combine(A[j], q, A[i])];
    var z := Zeros(|A|);
    assert z[j := z[j] + Times(q, z[i])] == z;
    hide Times, Combine, Solves, InKernel;
    forall x: seq<real> | |x| == |A|
      ensures Solves(A, b, x) <==> Solves(A', b[j := b[j] + Times(q, b[i])], x)
      ensures InKernel(A, x) <==> InKernel(A', x)
    {
      SolvesAfterElimination(A, b, x, i, j, q);
      SolvesAfterElimination(A, z, x, i, j, q);
      KernelIsHomogeneous(A, x);
      KernelIsHomogeneous(A', x);
    }
  }

  // ---- triangular form ----

  /** Zero below the diagonal in the first k columns. */
  ghost predicate Upper(A: Matrix, k: nat)
    requires Square(A)
  {
    forall r, c :: 0 <= c < r < |A| && c < k ==> A[r][c] == 0.0
  }

  ghost predicate Pivots(A: Matrix, k: nat)
    requires Square(A)
  {
    forall r :: 0 <= r < k && r < |A| ==> A[r][r] != 0.0
  }

  lemma CombineKeepsZeros(r: seq<real>, q: real, s: seq<real>, i: nat)
    requires |r| == |s| && i <= |r|
    requires forall c :: 0 <= c < i ==> r[c] == 0.0 && s[c] == 0.0
    ensures forall c :: 0 <= c < i ==> Combine(r, q, s)[c] == 0.0
  {
    TimesZero(q);
  }

  lemma TimesZero(q: real)
    ensures 0.0 + Times(q, 0.0) == 0.0
  {
  }

  lemma UpperAfterElimination(A: Matrix, i: nat, j: nat, q: real)
    requires Square(A) && i < j < |A| && Upper(A, i) && Pivots(A, i + 1)
    ensures var A' := A[j := Combine(A[j], q, A[i])];
      Upper(A', i) && Pivots(A', i + 1)
  {
    hide Times;
    CombineKeepsZeros(A[j], q, A[i], i);
  }

  lemma UpperExtends(A: Matrix, i: nat)
    requires Square(A) && i < |A|
    ensures Upper(A, i + 1) <==> Upper(A, i) && forall r :: i < r < |A| ==> A[r][i] == 0.0
  {
  }

  lemma EmptyTriangle(A: Matrix)
    requires Square(A)
    ensures Upper(A, 0) && Pivots(A, 0)
  {
  }

  lemma PivotsExtend(A: Matrix, i: nat)
    requires Square(A) && i < |A| && Pivots(A, i)
    ensures Pivots(A, i + 1) <==> A[i][i] != 0.0
  {
  }

  lemma UpperAfterSwap(A: Matrix, i: nat, j: nat)
    requires Square(A) && i <= j < |A| && Upper(A, i) && Pivots(A, i)
    ensures Upper(Swapped(A, i, j), i) && Pivots(Swapped(A, i, j), i)
  {
  }

  lemma {:induction false} TailDependsOnTail(r: seq<real>, x: seq<real>, y: seq<real>, k: nat)
    requires k <= |r| == |x| == |y|
    requires forall c :: k <= c < |r| ==> x[c] == y[c]
    ensures Tail(r, x, k) == Tail(r, y, k)
    decreases |r| - k
  {
    hide Times;
    if k != |r| { TailDependsOnTail(r, x, y, k + 1); }
  }

  /** Leading zeros of the row may be skipped. */
  lemma {:induction false} TailSkipsZeros(r: seq<real>, x: seq<real>, k: nat, m: nat)
    requires k <= m <= |r| == |x|
    requires forall c :: k <= c < m ==> r[c] == 0.0 || x[c] == 0.0
    ensures Tail(r, x, k) == Tail(r, x, m)
    decreases m - k
  {
    if k != m {
      ProductZero(r[k], x[k]);
      hide Times;
      TailSkipsZeros(r, x, k + 1, m);
    }
  }

  lemma TailOfZeros(r: seq<real>, x: seq<real>, k: nat)
    requires k <= |r| == |x|
    requires forall c :: k <= c < |r| ==> r[c] == 0.0 || x[c] == 0.0
    ensures Tail(r, x, k) == 0.0
  {
    TailSkipsZeros(r, x, k, |r|);
  }

  /** A kernel vector supported on the first k columns vanishes if those columns are triangular with
      non-zero pivots. */
  lemma {:induction false} TriangularKernel(A: Matrix, k: nat, x: seq<real>, r: nat)
    requires Square(A) && |x| == |A| && r <= k <= |A|
    requires Upper(A, k) && Pivots(A, k) && InKernel(A, x)
    requires forall c :: k <= c < |x| ==> x[c] == 0.0
    ensures forall c :: r <= c < |x| ==> x[c] == 0.0
    decreases k - r
  {
    if r < k {
      TriangularKernel(A, k, x, r + 1);
      assert Dot(A[r], x) == 0.0;
      TailSkipsZeros(A[r], x, 0, r);
      TailOfZeros(A[r], x, r + 1);
      assert Times(A[r][r], x[r]) == 0.0;
      ProductZero(A[r][r], x[r]);
    }
  }

  /** Extends a vector downwards so that row r of a triangular matrix is orthogonal to it. */
  lemma {:induction false} SolveAbove(A: Matrix, k: nat, x: seq<real>) returns (y: seq<real>)
    requires Square(A) && |x| == |A| && k <= |A| && Pivots(A, k) && Upper(A, k)
    ensures |y| == |A| && y[k..] == x[k..]
    ensures forall r :: 0 <= r < k ==> Dot(A[r], y) == 0.0
    decreases k
  {
    if k == 0 {
      y := x;
    } else {
      var r := k - 1;
      var p, t := A[r][r], Tail(A[r], x, k);
      var x' := x[r := -t / p];
      QuotientEqual(-t, p, -t / p);
      TailDependsOnTail(A[r], x, x', k);
      assert Times(A[r][r], x'[r]) == Times(-t / p, p);
      assert Tail(A[r], x', r) == 0.0;
      y := SolveAbove(A, r, x');
      forall c | k <= c < |y| ensures y[c] == x[c] {
        assert y[r..][c - r] == x'[r..][c - r];
      }
      assert y[r] == x'[r] by { assert y[r..][0] == x'[r..][0]; }
      TailSkipsZeros(A[r], y, 0, r);
      TailDependsOnTail(A[r], x', y, r);
    }
  }

  /** A zero column below and on the diagonal makes the matrix singular; if it is not the last, it depends
      on those before it. */
  lemma ZeroColumnIsSingular(A: Matrix, k: nat)
    requires Square(A) && k < |A| && Upper(A, k) && Pivots(A, k)
    requires forall r :: k <= r < |A| ==> A[r][k] == 0.0
    ensures Singular(A) && (k < |A| - 1 ==> DependentBeforeLast(A))
  {
    var e := Zeros(|A|)[k := 1.0];
    var y := SolveAbove(A, k, e);
    forall c | k <= c < |A| ensures y[c] == e[c] { assert y[k..][c - k] == e[k..][c - k]; }
    forall r | k <= r < |A| ensures Dot(A[r], y) == 0.0 {
      TailSkipsZeros(A[r], y, 0, k);
      TailOfZeros(A[r], y, k);
    }
    assert InKernel(A, y);
    assert y[k] == 1.0 && Zeros(|A|)[k] == 0.0;
  }

  lemma PivotsBeforeLast(A: Matrix)
    requires Square(A) && |A| > 0 && Upper(A, |A| - 1) && Pivots(A, |A| - 1)
    ensures !DependentBeforeLast(A)
  {
    forall x: seq<real> | |x| == |A| && InKernel(A, x) && x[|A| - 1] == 0.0 ensures x == Zeros(|A|) {
      TriangularKernel(A, |A| - 1, x, 0);
    }
  }

  lemma FullPivotsNotSingular(A: Matrix)
    requires Square(A) && Upper(A, |A|) && Pivots(A, |A|)
    ensures !Singular(A)
  {
    forall x: seq<real> | |x| == |A| && InKernel(A, x) ensures x == Zeros(|A|) {
      TriangularKernel(A, |A|, x, 0);
    }
  }

  /** A non-singular system has at most one solution. */
  lemma SolutionUnique(A: Matrix, b: seq<real>, x: seq<real>, y: seq<real>)
    requires Square(A) && |A| == |b| == |x| == |y| && !Singular(A)
    requires Solves(A, b, x) && Solves(A, b, y)
    ensures x == y
  {
    var d := Combine(x, -1.0, y);
    forall i | 0 <= i < |A| ensures Dot(A[i], d) == 0.0 {
      assert Dot(A[i], x) == b[i] && Dot(A[i], y) == b[i];
      TailSymmetric(A[i], d, 0);
      TailSymmetric(A[i], x, 0);
      TailSymmetric(A[i], y, 0);
      TailCombines(x, -1.0, y, A[i], 0);
    }
    assert InKernel(A, d);
    assert d == Zeros(|A|);
    forall c | 0 <= c < |A| ensures x[c] == y[c] { assert d[c] == 0.0; }
  }

  lemma {:induction false} TailSymmetric(r: seq<real>, x: seq<real>, k: nat)
    requires k <= |r| == |x|
    ensures Tail(r, x, k) == Tail(x, r, k)
    decreases |r| - k
  {
    if k != |r| { TailSymmetric(r, x, k + 1); }
  }

  lemma EquivalentSingular(A: Matrix, b: seq<real>, A': Matrix, b': seq<real>)
    requires Equivalent(A, b, A', b')
    ensures Singular(A) <==> Singular(A')
    ensures DependentBeforeLast(A) <==> DependentBeforeLast(A')
  {
  }
}
