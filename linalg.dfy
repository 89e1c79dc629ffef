/** Dense real matrices as sequences of rows, and the few numpy operations
    the estimator performs on them (sums, dot products, `@`, `+`, `.T`,
    `np.full`, `np.eye`). Arithmetic is exact: there is no rounding. */
module Linalg {

  type Matrix = seq<seq<real>>

  /** `A` has numpy shape `(r, c)`: `r` rows of `c` entries each. */
  predicate IsMatrix(A: Matrix, r: nat, c: nat) {
    |A| == r && forall i :: 0 <= i < r ==> |A[i]| == c
  }

  predicate IsSquare(A: Matrix) {
    IsMatrix(A, |A|, |A|)
  }

  ghost predicate Symmetric(A: Matrix)
    requires IsSquare(A)
  {
    forall i, j :: 0 <= i < |A| && 0 <= j < |A| ==> A[i][j] == A[j][i]
  }

  /** `s.sum()`, accumulated from the left. */
  function Sum(s: seq<real>): real {
    if s == [] then 0.0 else Sum(s[..|s| - 1]) + s[|s| - 1]
  }

  lemma SumSnoc(s: seq<real>, x: real)
    ensures Sum(s + [x]) == Sum(s) + x
  {
    assert (s + [x])[..|s|] == s;
  }

  /** `u @ v` on two 1-D arrays: the inner product. */
  function Dot(u: seq<real>, v: seq<real>): real
    requires |u| == |v|
  {
    if u == [] then 0.0 else Dot(u[..|u| - 1], v[..|v| - 1]) + u[|u| - 1] * v[|v| - 1]
  }

  /** Column `j` of `B`: `B[:, j]`. */
  function Col(B: Matrix, j: nat): (c: seq<real>)
    requires forall k :: 0 <= k < |B| ==> j < |B[k]|
    ensures |c| == |B| && forall k :: 0 <= k < |B| ==> c[k] == B[k][j]
  {
    seq(|B|, k requires 0 <= k < |B| => B[k][j])
  }

  /** `A.T` for `A` of shape `(|A|, c)`. */
  function Transpose(A: Matrix, c: nat): (T: Matrix)
    requires IsMatrix(A, |A|, c)
    ensures IsMatrix(T, c, |A|)
    ensures forall j, i :: 0 <= j < c && 0 <= i < |A| ==> T[j][i] == A[i][j]
  {
    seq(c, j requires 0 <= j < c => Col(A, j))
  }

  /** Column `j` of `A.T` is row `j` of `A`. */
  lemma TransposeColumns(A: Matrix, c: nat)
    requires IsMatrix(A, |A|, c)
    ensures forall j :: 0 <= j < |A| ==> Col(Transpose(A, c), j) == A[j]
  {
    forall j | 0 <= j < |A| ensures Col(Transpose(A, c), j) == A[j] {
    }
  }

  /** `A @ B` for `A` of shape `(|A|, |B|)` and `B` of shape `(|B|, c)`. */
  function MatMul(A: Matrix, B: Matrix, c: nat): (P: Matrix)
    requires IsMatrix(A, |A|, |B|) && IsMatrix(B, |B|, c)
    ensures IsMatrix(P, |A|, c)
    ensures forall i, j :: 0 <= i < |A| && 0 <= j < c ==> P[i][j] == Dot(A[i], Col(B, j))
  {
    seq(|A|, i requires 0 <= i < |A| => seq(c, j requires 0 <= j < c => Dot(A[i], Col(B, j))))
  }

  /** `A + B` for two matrices of shape `(r, c)`. */
  function MatAdd(A: Matrix, B: Matrix, r: nat, c: nat): (S: Matrix)
    requires IsMatrix(A, r, c) && IsMatrix(B, r, c)
    ensures IsMatrix(S, r, c)
    ensures forall i, j :: 0 <= i < r && 0 <= j < c ==> S[i][j] == A[i][j] + B[i][j]
  {
    seq(r, i requires 0 <= i < r => seq(c, j requires 0 <= j < c => A[i][j] + B[i][j]))
  }

  /** `s * A`. */
  function MatScale(A: Matrix, s: real, r: nat, c: nat): (S: Matrix)
    requires IsMatrix(A, r, c)
    ensures IsMatrix(S, r, c)
    ensures forall i, j :: 0 <= i < r && 0 <= j < c ==> S[i][j] == s * A[i][j]
  {
    seq(r, i requires 0 <= i < r => seq(c, j requires 0 <= j < c => s * A[i][j]))
  }

  /** `row[idx]`: the entries at the given positions. */
  function Gather(row: seq<real>, idx: seq<nat>): (g: seq<real>)
    requires forall a :: 0 <= a < |idx| ==> idx[a] < |row|
    ensures |g| == |idx| && forall a :: 0 <= a < |idx| ==> g[a] == row[idx[a]]
  {
    seq(|idx|, a requires 0 <= a < |idx| => row[idx[a]])
  }

  /** `K[:, idx]`: the columns at the given positions, for `K` of width `n`. */
  function SubCols(K: Matrix, n: nat, idx: seq<nat>): (Ki: Matrix)
    requires IsMatrix(K, |K|, n)
    requires forall a :: 0 <= a < |idx| ==> idx[a] < n
    ensures IsMatrix(Ki, |K|, |idx|)
    ensures forall p :: 0 <= p < |K| ==> Ki[p] == Gather(K[p], idx)
  {
    seq(|K|, p requires 0 <= p < |K| => Gather(K[p], idx))
  }

  /** `np.full([r, c], v)`; `np.zeros([r, c])` is `Full(r, c, 0.0)`. */
  function Full(r: nat, c: nat, v: real): (F: Matrix)
    ensures IsMatrix(F, r, c)
    ensures forall i, j :: 0 <= i < r && 0 <= j < c ==> F[i][j] == v
  {
    seq(r, i => seq(c, j => v))
  }

  /** `np.eye(n)`. */
  function Eye(n: nat): (I: Matrix)
    ensures IsMatrix(I, n, n)
    ensures forall i, j :: 0 <= i < n && 0 <= j < n ==> I[i][j] == if i == j then 1.0 else 0.0
  {
    seq(n, i => seq(n, j => if i == j then 1.0 else 0.0))
  }

  /** Every entry of `v` is `c`. */
  predicate Constant(v: seq<real>, c: real) {
    forall k :: 0 <= k < |v| ==> v[k] == c
  }

  /** An inner product against a constant vector factors out the constant. */
  lemma {:induction false} DotConstRight(u: seq<real>, v: seq<real>, c: real)
    requires |u| == |v| && Constant(v, c)
    ensures Dot(u, v) == c * Sum(u)
  {
    if u != [] {
      DotConstRight(u[..|u| - 1], v[..|v| - 1], c);
      assert c * (Sum(u[..|u| - 1]) + u[|u| - 1]) == c * Sum(u[..|u| - 1]) + u[|u| - 1] * c;
    }
  }

  lemma {:induction false} DotConstLeft(u: seq<real>, v: seq<real>, c: real)
    requires |u| == |v| && Constant(u, c)
    ensures Dot(u, v) == c * Sum(v)
  {
    if u != [] {
      DotConstLeft(u[..|u| - 1], v[..|v| - 1], c);
      assert c * (Sum(v[..|v| - 1]) + v[|v| - 1]) == c * Sum(v[..|v| - 1]) + c * v[|v| - 1];
    }
  }

  /** `v @ v` is a sum of squares. */
  lemma {:induction false} DotSelfNonNegative(v: seq<real>)
    ensures Dot(v, v) >= 0.0
  {
    if v != [] {
      DotSelfNonNegative(v[..|v| - 1]);
      var x := v[|v| - 1];
      assert x * x >= 0.0;
    }
  }

  lemma ProductNonNegative(a: real, b: real)
    requires a >= 0.0 && b >= 0.0
    ensures a * b >= 0.0
  {
  }

  /** Two matrices of the same shape with the same entries are equal. */
  lemma MatrixExt(A: Matrix, B: Matrix, r: nat, c: nat)
    requires IsMatrix(A, r, c) && IsMatrix(B, r, c)
    requires forall i, j :: 0 <= i < r && 0 <= j < c ==> A[i][j] == B[i][j]
    ensures A == B
  {
    forall i | 0 <= i < r ensures A[i] == B[i] {
    }
  }

  /** Row `p` of `A @ np.full([m, m], w)` is constant: `w` times the sum of row `p` of `A`. */
  lemma ConstantProductRow(A: Matrix, m: nat, w: real, p: nat)
    requires IsMatrix(A, |A|, m) && p < |A|
    ensures Constant(MatMul(A, Full(m, m, w), m)[p], w * Sum(A[p]))
  {
    var P := MatMul(A, Full(m, m, w), m);
    forall b | 0 <= b < m ensures P[p][b] == w * Sum(A[p]) {
      DotConstRight(A[p], Col(Full(m, m, w), b), w);
    }
  }

  /** `(A @ np.full([m, m], w) @ A.T)[p, q]` is `w` times the row sums of `p` and of `q`. */
  lemma TripleProductEntry(A: Matrix, m: nat, w: real, p: nat, q: nat)
    requires IsMatrix(A, |A|, m) && p < |A| && q < |A|
    ensures MatMul(MatMul(A, Full(m, m, w), m), Transpose(A, m), |A|)[p][q] == w * Sum(A[p]) * Sum(A[q])
  {
    var P := MatMul(A, Full(m, m, w), m);
    var T := Transpose(A, m);
    ConstantProductRow(A, m, w, p);
    assert Col(T, q) == A[q];
    DotConstLeft(P[p], Col(T, q), w * Sum(A[p]));
    assert MatMul(P, T, |A|)[p][q] == Dot(P[p], Col(T, q));
  }

  /** `A @ np.full([m, m], w) @ A.T` is symmetric. */
  lemma TripleProductSymmetric(A: Matrix, m: nat, w: real)
    requires IsMatrix(A, |A|, m)
    ensures Symmetric(MatMul(MatMul(A, Full(m, m, w), m), Transpose(A, m), |A|))
  {
    forall p, q | 0 <= p < |A| && 0 <= q < |A|
      ensures MatMul(MatMul(A, Full(m, m, w), m), Transpose(A, m), |A|)[p][q]
           == MatMul(MatMul(A, Full(m, m, w), m), Transpose(A, m), |A|)[q][p]
    {
      TripleProductEntry(A, m, w, p, q);
      TripleProductEntry(A, m, w, q, p);
    }
  }
}
