/** The between-class matrix `M`, the within-class matrix `N` and the ridge
    step of `KFDA.fit`, for the training Gram matrix `K` and the label vector `y`.

    The first half says in closed form what every entry of `M` and `N` is:
    sums over the samples of each class. The second half is the numpy
    computation the estimator performs (`np.where`, `K[:, C_i]`,
    `sum(axis=1)`, `@`), the lemmas that connect the two, and the method that
    builds `M` and `N` in place in `array2` buffers, as the `+=` loop does. */
module Scatter {
  import opened Linalg
  import opened Grouping

  /** `K` is the `n x n` Gram matrix of `n >= 1` labelled samples. */
  predicate IsGram(K: Matrix, y: seq<int>) {
    |y| > 0 && IsMatrix(K, |y|, |y|)
  }

  function Abs(x: real): real {
    if x < 0.0 then -x else x
  }

  // ---------------------------------------------------------------------------
  // What M and N are

  /** Sum of `row[j]` over the samples `j` whose label is `c`. */
  function ClassSum(row: seq<real>, y: seq<int>, c: int): real
    requires |row| == |y|
  {
    if y == [] then 0.0
    else ClassSum(row[..|row| - 1], y[..|y| - 1], c) + (if y[|y| - 1] == c then row[|row| - 1] else 0.0)
  }

  /** `M_avg[p]`: the mean similarity of sample `p` to all samples. */
  function OverallMeanAt(K: Matrix, y: seq<int>, p: nat): real
    requires IsGram(K, y) && p < |y|
  {
    Sum(K[p]) / |y| as real
  }

  /** `M_i[p]`: the mean similarity of sample `p` to the samples of class `c`. */
  function ClassMeanAt(K: Matrix, y: seq<int>, c: int, p: nat): real
    requires IsGram(K, y) && c in y && p < |y|
  {
    CountPositive(y, c);
    ClassSum(K[p], y, c) / Count(y, c) as real
  }

  /** `sum over p < k of (M_i[p] - M_avg[p])^2`, never negative. */
  function SquaredDeviation(K: Matrix, y: seq<int>, c: int, k: nat): (r: real)
    requires IsGram(K, y) && c in y && k <= |y|
    ensures r >= 0.0
  {
    if k == 0 then 0.0
    else
      var d := ClassMeanAt(K, y, c, k - 1) - OverallMeanAt(K, y, k - 1);
      SquareNonNegative(d);
      SquaredDeviation(K, y, c, k - 1) + d * d
  }

  lemma SquareNonNegative(x: real)
    ensures x * x >= 0.0
  {
    if x < 0.0 {
      assert x * x == (-x) * (-x);
    }
  }

  /** What class `c` adds to every entry of `M`: `n_i * |M_i - M_avg|^2`, never negative. */
  function BetweenIncrement(K: Matrix, y: seq<int>, c: int): (r: real)
    requires IsGram(K, y) && c in y
    ensures r >= 0.0
  {
    ProductNonNegative(Count(y, c) as real, SquaredDeviation(K, y, c, |y|));
    Count(y, c) as real * SquaredDeviation(K, y, c, |y|)
  }

  /** The common value of every entry of `M` after the first `k` classes: a sum
      of non-negative increments, so never negative. */
  function BetweenScalar(K: Matrix, y: seq<int>, u: seq<int>, k: nat): (s: real)
    requires IsGram(K, y) && ClassesOf(y, u) && k <= |u|
    ensures s >= 0.0
  {
    if k == 0 then 0.0 else BetweenScalar(K, y, u, k - 1) + BetweenIncrement(K, y, u[k - 1])
  }

  /** The value of every entry of `const_ni`: `1.0 - 1.0 / n_i`. */
  function CenteringWeight(m: nat): real
    requires m > 0
  {
    1.0 - 1.0 / m as real
  }

  /** What class `c` adds to entry `(p, q)` of `N`: `(1 - 1/n_i)` times the
      class sums of rows `p` and `q`. */
  function ClassTerm(K: Matrix, y: seq<int>, c: int, p: nat, q: nat): real
    requires IsGram(K, y) && c in y && p < |y| && q < |y|
  {
    CountPositive(y, c);
    CenteringWeight(Count(y, c)) * ClassSum(K[p], y, c) * ClassSum(K[q], y, c)
  }

  /** Entry `(p, q)` of `N` after the first `k` classes. */
  function WithinEntry(K: Matrix, y: seq<int>, u: seq<int>, k: nat, p: nat, q: nat): real
    requires IsGram(K, y) && ClassesOf(y, u) && k <= |u| && p < |y| && q < |y|
  {
    if k == 0 then 0.0 else WithinEntry(K, y, u, k - 1, p, q) + ClassTerm(K, y, u[k - 1], p, q)
  }

  /** `N` after the first `k` classes. */
  function WithinScatter(K: Matrix, y: seq<int>, u: seq<int>, k: nat): (N: Matrix)
    requires IsGram(K, y) && ClassesOf(y, u) && k <= |u|
    ensures IsMatrix(N, |y|, |y|)
    ensures forall p, q :: 0 <= p < |y| && 0 <= q < |y| ==> N[p][q] == WithinEntry(K, y, u, k, p, q)
  {
    seq(|y|, p requires 0 <= p < |y| => seq(|y|, q requires 0 <= q < |y| => WithinEntry(K, y, u, k, p, q)))
  }

  lemma ProductSwap(w: real, a: real, b: real)
    ensures w * a * b == w * b * a
  {
  }

  /** Every entry of `N` equals its mirror entry, whatever `K` is. */
  lemma {:induction false} WithinEntrySymmetric(K: Matrix, y: seq<int>, u: seq<int>, k: nat, p: nat, q: nat)
    requires IsGram(K, y) && ClassesOf(y, u) && k <= |u| && p < |y| && q < |y|
    ensures WithinEntry(K, y, u, k, p, q) == WithinEntry(K, y, u, k, q, p)
  {
    if k > 0 {
      WithinEntrySymmetric(K, y, u, k - 1, p, q);
      var c := u[k - 1];
      CountPositive(y, c);
      ProductSwap(CenteringWeight(Count(y, c)), ClassSum(K[p], y, c), ClassSum(K[q], y, c));
    }
  }

  /** `N` is symmetric after any number of classes. */
  lemma WithinScatterSymmetric(K: Matrix, y: seq<int>, u: seq<int>, k: nat)
    requires IsGram(K, y) && ClassesOf(y, u) && k <= |u|
    ensures Symmetric(WithinScatter(K, y, u, k))
  {
    forall p, q | 0 <= p < |y| && 0 <= q < |y|
      ensures WithinScatter(K, y, u, k)[p][q] == WithinScatter(K, y, u, k)[q][p]
    {
      WithinEntrySymmetric(K, y, u, k, p, q);
    }
  }

  /** A class with a single sample has `const_ni` zero, so it leaves `N` as it was. */
  lemma SingletonClassAddsNothing(K: Matrix, y: seq<int>, u: seq<int>, k: nat)
    requires IsGram(K, y) && ClassesOf(y, u) && k < |u| && Count(y, u[k]) == 1
    ensures WithinScatter(K, y, u, k + 1) == WithinScatter(K, y, u, k)
  {
    MatrixExt(WithinScatter(K, y, u, k + 1), WithinScatter(K, y, u, k), |y|, |y|);
  }

  /** The ridge step: when `|det N| < tol`, `N + alpha * np.eye(n)`, otherwise `N`.
      Exactly the diagonal moves, by exactly `alpha`. */
  function Regularize(N: Matrix, detN: real, tol: real, alpha: real): (R: Matrix)
    requires IsSquare(N)
    ensures IsMatrix(R, |N|, |N|)
    ensures Abs(detN) < tol ==> forall p, q :: 0 <= p < |N| && 0 <= q < |N| ==>
      R[p][q] == N[p][q] + (if p == q then alpha else 0.0)
    ensures Abs(detN) >= tol ==> R == N
  {
    if Abs(detN) < tol then MatAdd(N, MatScale(Eye(|N|), alpha, |N|, |N|), |N|, |N|) else N
  }

  // ---------------------------------------------------------------------------
  // How fit computes them

  /** `A.sum(axis=1)`. */
  function RowSums(A: Matrix): (s: seq<real>)
    ensures |s| == |A| && forall p :: 0 <= p < |A| ==> s[p] == Sum(A[p])
  {
    seq(|A|, p requires 0 <= p < |A| => Sum(A[p]))
  }

  /** `v / d` on a 1-D array. */
  function VDiv(v: seq<real>, d: real): (w: seq<real>)
    requires d != 0.0
    ensures |w| == |v| && forall k :: 0 <= k < |v| ==> w[k] == v[k] / d
  {
    seq(|v|, k requires 0 <= k < |v| => v[k] / d)
  }

  /** `a - b` on two 1-D arrays. */
  function VSub(a: seq<real>, b: seq<real>): (w: seq<real>)
    requires |a| == |b|
    ensures |w| == |a| && forall k :: 0 <= k < |a| ==> w[k] == a[k] - b[k]
  {
    seq(|a|, k requires 0 <= k < |a| => a[k] - b[k])
  }

  /** `K_i = K[:, C_i]` with `C_i = np.where(y == c)[0]`. */
  function ClassColumns(K: Matrix, y: seq<int>, c: int): (Ki: Matrix)
    requires IsGram(K, y)
    ensures IsMatrix(Ki, |y|, Count(y, c))
  {
    SubCols(K, |y|, Where(y, c))
  }

  /** `M_avg = K.sum(axis=1) / n`. */
  function OverallMean(K: Matrix, y: seq<int>): (avg: seq<real>)
    requires IsGram(K, y)
    ensures |avg| == |y|
  {
    VDiv(RowSums(K), |y| as real)
  }

  /** `M_i = K_i.sum(axis=1) / n_i`. */
  function ClassMean(K: Matrix, y: seq<int>, c: int): (Mi: seq<real>)
    requires IsGram(K, y) && c in y
    ensures |Mi| == |y|
  {
    CountPositive(y, c);
    VDiv(RowSums(ClassColumns(K, y, c)), Count(y, c) as real)
  }

  /** Summing `row[C_i]` is summing `row[j]` over exactly the samples `j` of class `c`. */
  lemma {:induction false} GatherWhereSum(row: seq<real>, y: seq<int>, c: int)
    requires |row| == |y|
    ensures Sum(Gather(row, Where(y, c))) == ClassSum(row, y, c)
  {
    if y != [] {
      var yi, ri := y[..|y| - 1], row[..|row| - 1];
      GatherWhereSum(ri, yi, c);
      var w := Where(yi, c);
      GatherPrefix(row, ri, w);
      if y[|y| - 1] == c {
        assert Where(y, c) == w + [|y| - 1];
        SumSnoc(Gather(row, w), row[|row| - 1]);
        assert Gather(row, w + [|y| - 1]) == Gather(row, w) + [row[|row| - 1]];
      } else {
        assert Where(y, c) == w;
      }
    }
  }

  /** Gathering positions that lie in a prefix only reads that prefix. */
  lemma GatherPrefix(row: seq<real>, ri: seq<real>, w: seq<nat>)
    requires |ri| <= |row| && ri == row[..|ri|]
    requires forall a :: 0 <= a < |w| ==> w[a] < |ri|
    ensures Gather(row, w) == Gather(ri, w)
  {
  }

  /** Row `p` of `Ki` sums to the class sum of row `p` of `K`, for every sample `p`. */
  predicate HasClassRowSums(K: Matrix, y: seq<int>, c: int, Ki: Matrix)
    requires IsGram(K, y)
  {
    |Ki| == |y| && forall p :: 0 <= p < |y| ==> Sum(Ki[p]) == ClassSum(K[p], y, c)
  }

  /** Row `p` of `K_i` sums to the class sum of row `p` of `K`. */
  lemma ClassColumnsRowSums(K: Matrix, y: seq<int>, c: int)
    requires IsGram(K, y)
    ensures HasClassRowSums(K, y, c, ClassColumns(K, y, c))
  {
    forall p | 0 <= p < |y| ensures Sum(ClassColumns(K, y, c)[p]) == ClassSum(K[p], y, c) {
      GatherWhereSum(K[p], y, c);
    }
  }

  /** `M_i[p]` as computed is the mean of `K[p, j]` over the samples `j` of class `c`. */
  lemma ClassMeanIsClassAverage(K: Matrix, y: seq<int>, c: int)
    requires IsGram(K, y) && c in y
    ensures forall p :: 0 <= p < |y| ==> ClassMean(K, y, c)[p] == ClassMeanAt(K, y, c, p)
  {
    ClassColumnsRowSums(K, y, c);
  }

  /** `M_avg[p]` as computed is the mean of row `p` of `K`. */
  lemma OverallMeanIsAverage(K: Matrix, y: seq<int>)
    requires IsGram(K, y)
    ensures forall p :: 0 <= p < |y| ==> OverallMean(K, y)[p] == OverallMeanAt(K, y, p)
  {
  }

  /** `diff` holds, at every sample `p`, the class mean minus the overall mean at `p`. */
  predicate IsDeviation(K: Matrix, y: seq<int>, c: int, diff: seq<real>)
    requires IsGram(K, y) && c in y
  {
    |diff| == |y| && forall p :: 0 <= p < |y| ==> diff[p] == ClassMeanAt(K, y, c, p) - OverallMeanAt(K, y, p)
  }

  /** The squared length of the first `k` entries of a vector whose entries are
      `M_i[p] - M_avg[p]`. */
  lemma {:induction false} DotPrefixIsSquaredDeviation(K: Matrix, y: seq<int>, c: int, diff: seq<real>, k: nat)
    requires IsGram(K, y) && c in y && IsDeviation(K, y, c, diff) && k <= |y|
    ensures Dot(diff[..k], diff[..k]) == SquaredDeviation(K, y, c, k)
  {
    if k > 0 {
      DotPrefixIsSquaredDeviation(K, y, c, diff, k - 1);
      assert diff[..k][..k - 1] == diff[..k - 1];
    }
  }

  /** `diff = M_i - M_avg` as computed is the deviation of class `c`. */
  lemma DeviationEntries(K: Matrix, y: seq<int>, c: int, avg: seq<real>)
    requires IsGram(K, y) && c in y && avg == OverallMean(K, y)
    ensures IsDeviation(K, y, c, VSub(ClassMean(K, y, c), avg))
  {
    ClassMeanIsClassAverage(K, y, c);
    OverallMeanIsAverage(K, y);
  }

  /** `diff @ diff.T` is the squared deviation of class `c`. */
  lemma DeviationSquared(K: Matrix, y: seq<int>, c: int, diff: seq<real>)
    requires IsGram(K, y) && c in y && IsDeviation(K, y, c, diff)
    ensures Dot(diff, diff) == SquaredDeviation(K, y, c, |y|)
  {
    DotPrefixIsSquaredDeviation(K, y, c, diff, |y|);
    assert diff[..|y|] == diff;
  }

  /** `n_i * d`, for `d` class `c`'s squared deviation, is class `c`'s increment of `M`. */
  lemma IncrementOfSquaredDeviation(K: Matrix, y: seq<int>, c: int, d: real)
    requires IsGram(K, y) && c in y && d == SquaredDeviation(K, y, c, |y|)
    ensures Count(y, c) as real * d == BetweenIncrement(K, y, c)
  {
  }

  /** `n_i * (diff @ diff.T)`, for `diff` the deviation of class `c`, is class
      `c`'s increment of `M`. */
  lemma DeviationIncrement(K: Matrix, y: seq<int>, c: int, ni: nat, diff: seq<real>)
    requires IsGram(K, y) && c in y && ni == Count(y, c) && IsDeviation(K, y, c, diff)
    ensures ni as real * Dot(diff, diff) == BetweenIncrement(K, y, c)
  {
    DeviationSquared(K, y, c, diff);
    IncrementOfSquaredDeviation(K, y, c, Dot(diff, diff));
  }

  /** Adding `x`, class `u[k]`'s increment, to every entry of `M` after `k`
      classes gives `M` after `k + 1`. */
  lemma BetweenStep(K: Matrix, y: seq<int>, u: seq<int>, k: nat, x: real)
    requires IsGram(K, y) && ClassesOf(y, u) && k < |u| && x == BetweenIncrement(K, y, u[k])
    ensures MatAdd(Full(|y|, |y|, BetweenScalar(K, y, u, k)), Full(|y|, |y|, x), |y|, |y|)
         == Full(|y|, |y|, BetweenScalar(K, y, u, k + 1))
  {
    var n := |y|;
    MatrixExt(MatAdd(Full(n, n, BetweenScalar(K, y, u, k)), Full(n, n, x), n, n),
              Full(n, n, BetweenScalar(K, y, u, k + 1)), n, n);
  }

  /** Entry `(p, q)` of `Ki @ const_ni @ Ki.T`, when the rows of `Ki` have the
      class sums of the rows of `K`, is class `c`'s term of `N`. */
  lemma TripleIsClassTerm(K: Matrix, y: seq<int>, c: int, Ki: Matrix, m: nat, p: nat, q: nat)
    requires IsGram(K, y) && c in y && m == Count(y, c) && m > 0 && p < |y| && q < |y|
    requires IsMatrix(Ki, |y|, m) && HasClassRowSums(K, y, c, Ki)
    ensures MatMul(MatMul(Ki, Full(m, m, CenteringWeight(m)), m), Transpose(Ki, m), |y|)[p][q] == ClassTerm(K, y, c, p, q)
  {
    TripleProductEntry(Ki, m, CenteringWeight(m), p, q);
    assert Sum(Ki[p]) == ClassSum(K[p], y, c) && Sum(Ki[q]) == ClassSum(K[q], y, c);
  }

  /** Entry `(p, q)` of `N` grows by class `u[k]`'s term from `k` to `k + 1` classes. */
  lemma WithinEntryStep(K: Matrix, y: seq<int>, u: seq<int>, k: nat, p: nat, q: nat)
    requires IsGram(K, y) && ClassesOf(y, u) && k < |u| && p < |y| && q < |y|
    ensures WithinEntry(K, y, u, k + 1, p, q) == WithinEntry(K, y, u, k, p, q) + ClassTerm(K, y, u[k], p, q)
  {
  }

  /** Entry `(p, q)` of `N + Ki @ const_ni @ Ki.T` after `k` classes is entry
      `(p, q)` of `N` after `k + 1`. */
  lemma WithinStepEntry(K: Matrix, y: seq<int>, u: seq<int>, k: nat, Ki: Matrix, m: nat, p: nat, q: nat)
    requires IsGram(K, y) && ClassesOf(y, u) && k < |u| && m == Count(y, u[k]) && m > 0
    requires IsMatrix(Ki, |y|, m) && HasClassRowSums(K, y, u[k], Ki) && p < |y| && q < |y|
    ensures MatAdd(WithinScatter(K, y, u, k),
                   MatMul(MatMul(Ki, Full(m, m, CenteringWeight(m)), m), Transpose(Ki, m), |y|), |y|, |y|)[p][q]
         == WithinScatter(K, y, u, k + 1)[p][q]
  {
    TripleIsClassTerm(K, y, u[k], Ki, m, p, q);
    WithinEntryStep(K, y, u, k, p, q);
    assert WithinScatter(K, y, u, k)[p][q] == WithinEntry(K, y, u, k, p, q);
    assert WithinScatter(K, y, u, k + 1)[p][q] == WithinEntry(K, y, u, k + 1, p, q);
  }

  /** Adding `Ki @ const_ni @ Ki.T` for class `u[k]` to `N` after `k` classes
      gives `N` after `k + 1`, when the rows of `Ki` have the class sums of the rows of `K`. */
  lemma WithinStep(K: Matrix, y: seq<int>, u: seq<int>, k: nat, Ki: Matrix, m: nat)
    requires IsGram(K, y) && ClassesOf(y, u) && k < |u| && m == Count(y, u[k]) && m > 0
    requires IsMatrix(Ki, |y|, m) && HasClassRowSums(K, y, u[k], Ki)
    ensures MatAdd(WithinScatter(K, y, u, k),
                   MatMul(MatMul(Ki, Full(m, m, CenteringWeight(m)), m), Transpose(Ki, m), |y|), |y|, |y|)
         == WithinScatter(K, y, u, k + 1)
  {
    var n := |y|;
    var T := MatMul(MatMul(Ki, Full(m, m, CenteringWeight(m)), m), Transpose(Ki, m), n);
    forall p, q | 0 <= p < n && 0 <= q < n
      ensures MatAdd(WithinScatter(K, y, u, k), T, n, n)[p][q] == WithinScatter(K, y, u, k + 1)[p][q]
    {
      WithinStepEntry(K, y, u, k, Ki, m, p, q);
    }
    MatrixExt(MatAdd(WithinScatter(K, y, u, k), T, n, n), WithinScatter(K, y, u, k + 1), n, n);
  }

  /** The contents of a 2-D buffer, row by row. */
  function ToSeq(A: array2<real>): (S: Matrix)
    reads A
    ensures IsMatrix(S, A.Length0, A.Length1)
    ensures forall i, j :: 0 <= i < A.Length0 && 0 <= j < A.Length1 ==> S[i][j] == A[i, j]
  {
    seq(A.Length0, i requires 0 <= i < A.Length0 reads A =>
      seq(A.Length1, j requires 0 <= j < A.Length1 reads A => A[i, j]))
  }

  /** `A += B`, entry by entry, in place. */
  method AddInPlace(A: array2<real>, B: Matrix)
    requires IsMatrix(B, A.Length0, A.Length1)
    modifies A
    ensures ToSeq(A) == MatAdd(old(ToSeq(A)), B, A.Length0, A.Length1)
  {
    ghost var before := ToSeq(A);
    var p := 0;
    while p < A.Length0
      invariant 0 <= p <= A.Length0
      invariant forall i, j :: 0 <= i < p && 0 <= j < A.Length1 ==> A[i, j] == before[i][j] + B[i][j]
      invariant forall i, j :: p <= i < A.Length0 && 0 <= j < A.Length1 ==> A[i, j] == before[i][j]
    {
      var q := 0;
      while q < A.Length1
        invariant 0 <= q <= A.Length1
        invariant forall i, j :: 0 <= i < p && 0 <= j < A.Length1 ==> A[i, j] == before[i][j] + B[i][j]
        invariant forall j :: 0 <= j < q ==> A[p, j] == before[p][j] + B[p][j]
        invariant forall j :: q <= j < A.Length1 ==> A[p, j] == before[p][j]
        invariant forall i, j :: p < i < A.Length0 && 0 <= j < A.Length1 ==> A[i, j] == before[i][j]
      {
        A[p, q] := A[p, q] + B[p][q];
        q := q + 1;
      }
      p := p + 1;
    }
    MatrixExt(ToSeq(A), MatAdd(before, B, A.Length0, A.Length1), A.Length0, A.Length1);
  }

  /** The ridge step in place: `if abs(det(N)) < tol: N += alpha * np.eye(n)`. */
  method RegularizeInPlace(N: array2<real>, detN: real, tol: real, alpha: real)
    requires N.Length0 == N.Length1
    modifies N
    ensures ToSeq(N) == Regularize(old(ToSeq(N)), detN, tol, alpha)
  {
    if Abs(detN) < tol {
      AddInPlace(N, MatScale(Eye(N.Length0), alpha, N.Length0, N.Length0));
    }
  }

  /** One iteration's update of `M`: `M += n_i * (diff @ diff.T)` for class `u[k]`. */
  method AddBetween(M: array2<real>, K: Matrix, y: seq<int>, u: seq<int>, k: nat, ni: nat, avg: seq<real>)
    requires IsGram(K, y) && ClassesOf(y, u) && k < |u| && ni == Count(y, u[k])
    requires avg == OverallMean(K, y)
    requires M.Length0 == M.Length1 == |y|
    requires ToSeq(M) == Full(|y|, |y|, BetweenScalar(K, y, u, k))
    modifies M
    ensures ToSeq(M) == Full(|y|, |y|, BetweenScalar(K, y, u, k + 1))
  {
    var n := |y|;
    var c := u[k];
    var Mi := ClassMean(K, y, c);
    var diff := VSub(Mi, avg);
    DeviationEntries(K, y, c, avg);
    DeviationIncrement(K, y, c, ni, diff);
    assert ni as real * Dot(diff, diff) == BetweenIncrement(K, y, u[k]);
    BetweenStep(K, y, u, k, ni as real * Dot(diff, diff));
    AddInPlace(M, Full(n, n, ni as real * Dot(diff, diff)));
  }

  /** One iteration's update of `N`: `N += Ki @ const_ni @ Ki.T` for class `u[k]`. */
  method AddWithin(N: array2<real>, K: Matrix, y: seq<int>, u: seq<int>, k: nat, ni: nat)
    requires IsGram(K, y) && ClassesOf(y, u) && k < |u| && ni == Count(y, u[k])
    requires N.Length0 == N.Length1 == |y|
    requires ToSeq(N) == WithinScatter(K, y, u, k)
    modifies N
    ensures ToSeq(N) == WithinScatter(K, y, u, k + 1)
  {
    var n := |y|;
    var c := u[k];
    CountPositive(y, c);
    var Ki := ClassColumns(K, y, c);
    var constNi := Full(ni, ni, CenteringWeight(ni));
    ClassColumnsRowSums(K, y, c);
    WithinStep(K, y, u, k, Ki, ni);
    AddInPlace(N, MatMul(MatMul(Ki, constNi, ni), Transpose(Ki, ni), n));
  }

  /** Lines 116-126 of `fit`: start `M` and `N` at zero and, class by class,
      add `n_i * (diff @ diff.T)` to every entry of `M` and `K_i @ const_ni @ K_i.T`
      to `N`. */
  method BuildScatter(K: Matrix, y: seq<int>, u: seq<int>, counts: seq<nat>)
    returns (M: array2<real>, N: array2<real>)
    requires IsGram(K, y) && ClassesOf(y, u) && counts == Counts(y, u)
    ensures fresh(M) && fresh(N) && M != N
    ensures M.Length0 == M.Length1 == N.Length0 == N.Length1 == |y|
    ensures ToSeq(M) == Full(|y|, |y|, BetweenScalar(K, y, u, |u|))
    ensures ToSeq(N) == WithinScatter(K, y, u, |u|)
  {
    var n := |y|;
    var avg := OverallMean(K, y);
    M := new real[n, n]((p, q) => 0.0);
    N := new real[n, n]((p, q) => 0.0);
    MatrixExt(ToSeq(M), Full(n, n, 0.0), n, n);
    MatrixExt(ToSeq(N), WithinScatter(K, y, u, 0), n, n);
    var i := 0;
    while i < |u|
      invariant 0 <= i <= |u|
      invariant M.Length0 == M.Length1 == N.Length0 == N.Length1 == n
      invariant ToSeq(M) == Full(n, n, BetweenScalar(K, y, u, i))
      invariant ToSeq(N) == WithinScatter(K, y, u, i)
    {
      AddBetween(M, K, y, u, i, counts[i], avg);
      AddWithin(N, K, y, u, i, counts[i]);
      i := i + 1;
    }
  }
}
