/** The `KFDA` estimator: its configuration, `fit`, which fills in `X_`, `y_`,
    `unique_classes` and `W_`, and `transform`, which projects kernel rows
    onto the rows of `W_`.

    The library routines the estimator calls are parameters: `pairwise_kernels`
    is a `Pairwise` function, and `det`, `inv` and `eigh` are the three fields
    of a `LinAlg` value. Of each, the model assumes only the shape of what it
    returns; `None` stands for the exception it raises. */
module Estimator {
  import opened Results
  import opened Linalg
  import opened Grouping
  import opened Scatter
  import opened Selection

  /** Keyword arguments forwarded to the kernel, `**kprms`. */
  type Params = map<string, real>

  /** `pairwise_kernels(A, B, metric=name, filter_params=True, **params)`;
      `B == None` compares `A` with itself. */
  type Pairwise = (string, Params, Matrix, Option<Matrix>) -> Option<Matrix>

  /** A kernel value has one row per row of `A` and one column per row of `B`
      (of `A` when `B` is `None`). */
  ghost predicate KernelShapes(k: Pairwise) {
    forall name, params, A, B :: k(name, params, A, B).Some? ==>
      IsMatrix(k(name, params, A, B).value, |A|, |B.GetOr(A)|)
  }

  /** `numpy.linalg.det`, `numpy.linalg.inv` and `scipy.linalg.eigh`; `eigh`
      gives `(evals, evecs)` with the eigenvectors as columns. */
  datatype LinAlg = LinAlg(det: Matrix -> real, inv: Matrix -> Option<Matrix>, eigh: Matrix -> Option<(seq<real>, Matrix)>)

  /** For an `n x n` input, `inv` gives an `n x n` matrix, and `eigh` gives `n`
      eigenvalues and an `n x n` matrix of eigenvectors. */
  ghost predicate LinAlgShapes(la: LinAlg) {
    (forall A :: IsSquare(A) && la.inv(A).Some? ==> IsMatrix(la.inv(A).value, |A|, |A|)) &&
    (forall A :: IsSquare(A) && la.eigh(A).Some? ==>
      |la.eigh(A).value.0| == |A| && IsMatrix(la.eigh(A).value.1, |A|, |A|))
  }

  /** The `kernel` argument of the constructor: a metric name, a callable, or `None`. */
  datatype KernelArg = Named(name: string) | Custom | Unset

  /** What `fit` ends in: `self`, or the exception it raises. */
  datatype Outcome = Fitted | Failed(error: Error)

  /** A 2-D array with at least one row and one column, every row as wide as the
      first: the shapes the input validation lets through. */
  predicate IsDataMatrix(X: Matrix) {
    |X| > 0 && |X[0]| > 0 && IsMatrix(X, |X|, |X[0]|)
  }

  /** `X` and `y` pass `check_X_y`: one label per sample. */
  predicate WellFormed(X: Matrix, y: seq<int>) {
    IsDataMatrix(X) && |y| == |X|
  }

  /** Lines 107-113: `n_components`, or the feature count `d` when it is `None`,
      and at most the number of classes minus one. */
  function EffectiveComponents(nComponents: Option<int>, d: nat, classes: nat): (ndims: int)
    ensures ndims <= nComponents.GetOr(d) && ndims <= classes - 1
    ensures ndims == nComponents.GetOr(d) || ndims == classes - 1
  {
    var requested := nComponents.GetOr(d);
    if classes - 1 < requested then classes - 1 else requested
  }

  /** `M` once every class has been added: every entry is the same value, and
      that value is never negative. */
  function BetweenMatrix(K: Matrix, y: seq<int>): (M: Matrix)
    requires IsGram(K, y)
    ensures IsMatrix(M, |y|, |y|)
    ensures forall p, q :: 0 <= p < |y| && 0 <= q < |y| ==> M[p][q] == M[0][0] && M[p][q] >= 0.0
  {
    UniqueAreClasses(y);
    var u := Unique(y);
    Full(|y|, |y|, BetweenScalar(K, y, u, |u|))
  }

  /** `N` once every class has been added, before the ridge step: symmetric. */
  function WithinMatrix(K: Matrix, y: seq<int>): (N: Matrix)
    requires IsGram(K, y)
    ensures IsMatrix(N, |y|, |y|) && Symmetric(N)
  {
    UniqueAreClasses(y);
    var u := Unique(y);
    WithinScatterSymmetric(K, y, u, |u|);
    WithinScatter(K, y, u, |u|)
  }

  /** Line 133: `eigh(inv(N) @ M)` with `N` after the ridge step, or `None`
      when `inv` or `eigh` raises. */
  function Eigen(K: Matrix, y: seq<int>, alpha: real, tol: real, la: LinAlg): (eig: Option<(seq<real>, Matrix)>)
    requires IsGram(K, y) && LinAlgShapes(la)
    ensures eig.Some? ==> |eig.value.0| == |y| && IsMatrix(eig.value.1, |y|, |y|)
  {
    var N0 := WithinMatrix(K, y);
    var N := Regularize(N0, la.det(N0), tol, alpha);
    match la.inv(N)
    case None => None
    case Some(invN) => la.eigh(MatMul(invN, BetweenMatrix(K, y), |y|))
  }

  /** What `fit` stores in `W_` from line 116 on: the eigenvectors of the
      `ndims` largest eigenvalues as rows, largest first. */
  function Directions(K: Matrix, y: seq<int>, ndims: int, alpha: real, tol: real, la: LinAlg): (res: Result<Weights>)
    requires IsGram(K, y) && LinAlgShapes(la)
    ensures res.Ok? == Eigen(K, y, alpha, tol, la).Some?
    ensures res.Err? ==> res.error == LinAlgFailure
    ensures res.Ok? ==>
      var evals, evecs := Eigen(K, y, alpha, tol, la).value.0, Eigen(K, y, alpha, tol, la).value.1;
      var order := DescendingOrder(evals);
      res.value.rows == SliceStop(ndims, |y|) && res.value.cols == |y| &&
      (forall r, p :: 0 <= r < res.value.rows && 0 <= p < |y| ==> res.value.entries[r][p] == evecs[p][order[r]]) &&
      (forall r, s :: 0 <= r < s < res.value.rows ==> evals[order[r]] >= evals[order[s]])
  {
    match Eigen(K, y, alpha, tol, la)
    case None => Err(LinAlgFailure)
    case Some(eig) =>
      var k := SliceStop(ndims, |y|);
      TopDirections(eig.0, k);
      Ok(SelectDirections(eig.1, |y|, DescendingOrder(eig.0), k))
  }

  /** Lines 116-137 of `fit`: build `M` and `N` in place, regularize `N`, solve
      the eigenproblem and keep the leading `ndims` eigenvectors. */
  method Train(K: Matrix, y: seq<int>, u: seq<int>, counts: seq<nat>, ndims: int, alpha: real, tol: real, la: LinAlg)
    returns (res: Result<Weights>)
    requires IsGram(K, y) && LinAlgShapes(la) && u == Unique(y) && counts == Counts(y, u)
    ensures res == Directions(K, y, ndims, alpha, tol, la)
  {
    var n := |y|;
    UniqueAreClasses(y);
    var M, N := BuildScatter(K, y, u, counts);
    ghost var within := ToSeq(N);
    assert ToSeq(M) == BetweenMatrix(K, y);
    assert within == WithinMatrix(K, y);
    RegularizeInPlace(N, la.det(ToSeq(N)), tol, alpha);
    assert ToSeq(N) == Regularize(within, la.det(within), tol, alpha);
    var invN := la.inv(ToSeq(N));
    if invN.None? {
      return Err(LinAlgFailure);
    }
    var eig := la.eigh(MatMul(invN.value, ToSeq(M), n));
    assert eig == Eigen(K, y, alpha, tol, la);
    if eig.None? {
      return Err(LinAlgFailure);
    }
    var evals, evecs := eig.value.0, eig.value.1;
    res := Ok(SelectDirections(evecs, n, DescendingOrder(evals), SliceStop(ndims, n)));
  }

  /** For labels `y` and any non-negative component count the clamp yields,
      `W_` gets exactly that many rows: the clamp keeps it below the number of
      samples, so the slice is not cut short. */
  lemma DirectionCount(y: seq<int>, nComponents: Option<int>, d: nat)
    requires |y| > 0 && EffectiveComponents(nComponents, d, |Unique(y)|) >= 0
    ensures SliceStop(EffectiveComponents(nComponents, d, |Unique(y)|), |y|)
         == EffectiveComponents(nComponents, d, |Unique(y)|)
    ensures EffectiveComponents(nComponents, d, |Unique(y)|) < |Unique(y)|
  {
    UniqueAreClasses(y);
  }

  class KFDA {
    var nComponents: Option<int>
    var kernelName: string
    var alpha: real
    var tol: real
    var kernelParams: Params
    /** `X_`, `y_`, `unique_classes` and `W_`; `None` until `fit` assigns them. */
    var samples: Option<Matrix>
    var labels: Option<seq<int>>
    var classes: Option<seq<int>>
    var weights: Option<Weights>

    /** `X_` and `y_` are assigned together, from inputs that passed validation,
        and `unique_classes` is strictly increasing. */
    ghost predicate Valid()
      reads this
    {
      (samples.Some? <==> labels.Some?) &&
      (samples.Some? ==> WellFormed(samples.value, labels.value)) &&
      (classes.Some? ==> StrictlyIncreasing(classes.value))
    }

    /** `KFDA(n_components, kernel, alpha, tol, **kprms)`: a kernel given as `None`
        or as a callable becomes `'linear'`. */
    constructor (nComponents: Option<int>, kernel: KernelArg, alpha: real, tol: real, kernelParams: Params)
      ensures Valid()
      ensures this.nComponents == nComponents && this.alpha == alpha && this.tol == tol
      ensures this.kernelParams == kernelParams
      ensures kernelName == if kernel.Named? then kernel.name else "linear"
      ensures samples.None? && labels.None? && classes.None? && weights.None?
    {
      this.nComponents := nComponents;
      this.kernelName := if kernel.Named? then kernel.name else "linear";
      this.alpha := alpha;
      this.tol := tol;
      this.kernelParams := kernelParams;
      samples, labels, classes, weights := None, None, None, None;
    }

    /** `KFDA()`: two components, the linear kernel, `alpha = 1e-3`, `tol = 1e-4`. */
    constructor Defaults()
      ensures Valid()
      ensures nComponents == Some(2) && kernelName == "linear" && alpha == 0.001 && tol == 0.0001
      ensures kernelParams == map[]
      ensures samples.None? && labels.None? && classes.None? && weights.None?
    {
      nComponents := Some(2);
      kernelName := "linear";
      alpha := 0.001;
      tol := 0.0001;
      kernelParams := map[];
      samples, labels, classes, weights := None, None, None, None;
    }

    /** `get_kernel_(A, B)`. The kernel is never a callable once constructed, so
        the parameters are always `kernel_params_`. */
    function GetKernel(A: Matrix, B: Option<Matrix>, pairwise: Pairwise): (G: Option<Matrix>)
      reads this`kernelName, this`kernelParams
      requires KernelShapes(pairwise)
      ensures G.Some? ==> IsMatrix(G.value, |A|, |B.GetOr(A)|)
    {
      pairwise(kernelName, kernelParams, A, B)
    }

    /** `fit(X, y)`. Invalid input changes nothing. After validation `X_` and
        `y_` are assigned, and a kernel failure stops there; after the kernel,
        `unique_classes` is assigned, and `W_` only when `inv` and `eigh`
        succeed. */
    method Fit(X: Matrix, y: seq<int>, pairwise: Pairwise, la: LinAlg) returns (out: Outcome)
      requires Valid() && KernelShapes(pairwise) && LinAlgShapes(la)
      modifies this
      ensures Valid()
      ensures nComponents == old(nComponents) && kernelName == old(kernelName) && alpha == old(alpha)
      ensures tol == old(tol) && kernelParams == old(kernelParams)
      ensures !WellFormed(X, y) ==> (out == Failed(InvalidInput) && samples == old(samples) &&
        labels == old(labels) && classes == old(classes) && weights == old(weights))
      ensures WellFormed(X, y) ==> samples == Some(X) && labels == Some(y)
      ensures WellFormed(X, y) && GetKernel(X, None, pairwise).None? ==>
        out == Failed(KernelFailure) && classes == old(classes) && weights == old(weights)
      ensures WellFormed(X, y) && GetKernel(X, None, pairwise).Some? ==>
        classes == Some(Unique(y)) &&
        var res := Directions(GetKernel(X, None, pairwise).value, y,
                              EffectiveComponents(nComponents, |X[0]|, |Unique(y)|), alpha, tol, la);
        (res.Ok? ==> out == Fitted && weights == Some(res.value)) &&
        (res.Err? ==> out == Failed(res.error) && weights == old(weights))
    {
      if !WellFormed(X, y) {
        return Failed(InvalidInput);
      }
      samples, labels := Some(X), Some(y);
      var G := GetKernel(X, None, pairwise);
      out := FitValidated(X, y, G, la);
      assert G == GetKernel(X, None, pairwise);
    }

    /** Lines 105-138 of `fit`, given what the kernel call returned for the
        validated samples. */
    method FitValidated(X: Matrix, y: seq<int>, G: Option<Matrix>, la: LinAlg) returns (out: Outcome)
      requires WellFormed(X, y) && LinAlgShapes(la) && (G.Some? ==> IsGram(G.value, y))
      requires classes.Some? ==> StrictlyIncreasing(classes.value)
      modifies this`classes, this`weights
      ensures classes.Some? ==> StrictlyIncreasing(classes.value)
      ensures G.None? ==> out == Failed(KernelFailure) && classes == old(classes) && weights == old(weights)
      ensures G.Some? ==>
        classes == Some(Unique(y)) &&
        var res := Directions(G.value, y, EffectiveComponents(nComponents, |X[0]|, |Unique(y)|), alpha, tol, la);
        (res.Ok? ==> out == Fitted && weights == Some(res.value)) &&
        (res.Err? ==> out == Failed(res.error) && weights == old(weights))
    {
      if G.None? {
        return Failed(KernelFailure);
      }
      var u := Unique(y);
      var counts := Counts(y, u);
      classes := Some(u);
      var ndims := EffectiveComponents(nComponents, |X[0]|, |u|);
      var res := Train(G.value, y, u, counts, ndims, alpha, tol, la);
      if res.Err? {
        return Failed(res.error);
      }
      weights := Some(res.value);
      return Fitted;
    }

    /** `transform(X)`: `X` defaults to `X_`; the kernel between `X` and `X_`,
        times `W_.T`. Entry `(i, j)` of the result is kernel row `i` projected
        onto direction `j`. */
    function Transform(X: Option<Matrix>, pairwise: Pairwise): (r: Result<Matrix>)
      reads this
      requires KernelShapes(pairwise)
      ensures X.Some? && !IsDataMatrix(X.value) ==> r == Err(InvalidInput)
      ensures samples.None? ==> r.Err? && r.error in {NotFitted, InvalidInput}
      ensures samples.None? && (X.None? || IsDataMatrix(X.value)) ==> r == Err(NotFitted)
      ensures (samples.Some? && (X.None? || IsDataMatrix(X.value)) &&
        GetKernel(X.GetOr(samples.value), samples, pairwise).None?) ==> r == Err(KernelFailure)
      ensures (samples.Some? && (X.None? || IsDataMatrix(X.value)) &&
        GetKernel(X.GetOr(samples.value), samples, pairwise).Some? && weights.None?) ==> r == Err(NotFitted)
      ensures r.Ok? <==> ((X.None? || IsDataMatrix(X.value)) && samples.Some? && weights.Some? &&
        GetKernel(X.GetOr(samples.value), samples, pairwise).Some? && weights.value.cols == |samples.value|)
      ensures r.Ok? ==>
        var Q := X.GetOr(samples.value);
        var G := GetKernel(Q, samples, pairwise).value;
        IsMatrix(r.value, |Q|, weights.value.rows) &&
        forall i, j :: 0 <= i < |Q| && 0 <= j < weights.value.rows ==>
          r.value[i][j] == Dot(G[i], weights.value.entries[j])
      ensures (r.Err? && samples.Some? && weights.Some? && (X.None? || IsDataMatrix(X.value)) &&
        GetKernel(X.GetOr(samples.value), samples, pairwise).Some?) ==> r == Err(ShapeMismatch)
    {
      if X.None? && samples.None? then Err(NotFitted)
      else if X.Some? && !IsDataMatrix(X.value) then Err(InvalidInput)
      else if samples.None? then Err(NotFitted)
      else
        var Q := X.GetOr(samples.value);
        match GetKernel(Q, samples, pairwise)
        case None => Err(KernelFailure)
        case Some(G) =>
          if weights.None? then Err(NotFitted)
          else if weights.value.cols != |samples.value| then Err(ShapeMismatch)
          else
            var W := weights.value;
            TransposeColumns(W.entries, W.cols);
            Ok(MatMul(G, Transpose(W.entries, W.cols), W.rows))
    }

    /** `transform()` is `transform(X_)`: once fitted, leaving `X` out projects
        the training samples. */
    lemma TransformDefaultsToSamples(pairwise: Pairwise)
      requires Valid() && KernelShapes(pairwise) && samples.Some?
      ensures Transform(None, pairwise) == Transform(samples, pairwise)
    {
    }
  }
}
