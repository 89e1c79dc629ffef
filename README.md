# KFDA in Dafny

A model of the `KFDA` estimator (Kernel Fisher Discriminant Analysis) in
`Groups/Group_ID_29/KFDA/KFDA.py`, with proofs about it. The model covers:

- the configuration the constructor stores;
- `fit`, which takes a sample matrix `X` and labels `y`. It checks their
  shapes, computes the training Gram matrix `K` and clamps the number of
  directions. It finds the sorted classes, builds the between-class matrix
  `M` and the within-class matrix `N` class by class, and adds a ridge to
  `N` when its determinant is small. It then solves `eigh(inv(N) @ M)` and
  keeps the eigenvectors of the largest eigenvalues as the rows of `W_`;
- `transform`, which projects the kernel rows between its input (by
  default `X_`) and `X_` onto the rows of `W_`.

Modules:

- `Results` holds `Option`, `Result` and the exceptions `fit` and
  `transform` raise.
- `Linalg` holds matrices as sequences of rows and the numpy operations on
  them.
- `Grouping` holds `np.unique` with counts, and `np.where`.
- `Scatter` does three things:
  - it says in closed form what every entry of `M` and `N` is;
  - it proves that the numpy expressions of the class loop compute those
    entries;
  - it builds `M` and `N` in place in `array2` buffers, one class per
    iteration, as the `+=` loop does.
- `Selection` holds the descending eigenvalue order, the slice and
  transpose that give `W_`, and its top-`k` property.
- `Estimator` holds the class `KFDA` with the fields `X_`, `y_`,
  `unique_classes` and `W_`, and the functions that say what `fit` stores.
  `Fit` is a method that changes those fields. `Transform` is a function
  that reads them.

The library calls are inputs to the model, and only the shape of what they
return is assumed:

- `pairwise_kernels` is a function value. `None` from it stands for the
  kernel raising.
- `det`, `inv` and `eigh` are three function values. `inv` and `eigh`
  return `None` for `LinAlgError`.

## Model

| member | source | states |
|---|---|---|
| Grouping.Unique | Groups/Group_ID_29/KFDA/KFDA.py:112 | `unique_classes` is strictly increasing, holds exactly the labels that occur in `y`, and is no longer than `y` |
| Grouping.InsertSorted | Groups/Group_ID_29/KFDA/KFDA.py:112 | adding a label to a strictly increasing sequence keeps it strictly increasing, and the members become the old ones plus that label |
| Grouping.UniqueAreClasses | Groups/Group_ID_29/KFDA/KFDA.py:112 | every class is a label of `y`, and a non-empty `y` has at least one class |
| Grouping.Counts | Groups/Group_ID_29/KFDA/KFDA.py:112 | `class_counts[i]` is the number of positions of `y` holding `unique_classes[i]` |
| Grouping.CountPositive | Groups/Group_ID_29/KFDA/KFDA.py:112 | a label that occurs has a count of at least one |
| Grouping.CountsCover | Groups/Group_ID_29/KFDA/KFDA.py:112 | counting over distinct classes that cover every label accounts for every sample exactly once |
| Grouping.ClassCounts | Groups/Group_ID_29/KFDA/KFDA.py:112 | the classes are strictly increasing, every count is at least 1, and the counts add up to `n` |
| Grouping.Where | Groups/Group_ID_29/KFDA/KFDA.py:120 | `C_i` lists only positions holding the label `c`, and as many as `c` has samples |
| Grouping.WhereComplete | Groups/Group_ID_29/KFDA/KFDA.py:120 | every position holding `c` is in `C_i` |
| Grouping.WhereIncreasing | Groups/Group_ID_29/KFDA/KFDA.py:120 | `C_i` is strictly increasing |
| Grouping.ClassOfSample | Groups/Group_ID_29/KFDA/KFDA.py:112-120 | the sets `C_i` partition `0 .. n-1`: each sample is in the set of the class holding its label and in no other |
| Scatter.SquaredDeviation | Groups/Group_ID_29/KFDA/KFDA.py:122-124 | the sum of squared differences between class mean and overall mean is never negative |
| Scatter.BetweenIncrement | Groups/Group_ID_29/KFDA/KFDA.py:124 | what one class adds to every entry of `M` is never negative |
| Scatter.BetweenScalar | Groups/Group_ID_29/KFDA/KFDA.py:119-124 | after any number of classes, the common value of the entries of `M` is never negative |
| Scatter.WithinScatter | Groups/Group_ID_29/KFDA/KFDA.py:118-126 | `N` after `k` classes is `n x n`, and entry `(p, q)` is the sum over those classes of `(1 - 1/n_i)` times the class sums of rows `p` and `q` of `K` |
| Scatter.WithinEntrySymmetric | Groups/Group_ID_29/KFDA/KFDA.py:126 | every entry of `N` equals its mirror entry, for any `K` |
| Scatter.WithinScatterSymmetric | Groups/Group_ID_29/KFDA/KFDA.py:118-126 | `N` is symmetric after any number of classes, whatever `K` is |
| Scatter.SingletonClassAddsNothing | Groups/Group_ID_29/KFDA/KFDA.py:125-126 | a class with exactly one sample leaves `N` unchanged |
| Scatter.Regularize | Groups/Group_ID_29/KFDA/KFDA.py:129-130 | when `abs(det N) < tol`, every diagonal entry grows by exactly `alpha` and no other entry changes; otherwise `N` is returned unchanged |
| Scatter.RegularizeInPlace | Groups/Group_ID_29/KFDA/KFDA.py:129-130 | the in-place ridge step leaves the buffer holding the regularized matrix of its old contents |
| Scatter.RowSums | Groups/Group_ID_29/KFDA/KFDA.py:116 | entry `p` of `K.sum(axis=1)` is the sum of row `p` |
| Scatter.ClassColumns | Groups/Group_ID_29/KFDA/KFDA.py:120-121 | `K_i` has `n` rows and one column per sample of the class |
| Scatter.OverallMeanIsAverage | Groups/Group_ID_29/KFDA/KFDA.py:116 | `M_avg[p]` is the sum of row `p` of `K` divided by `n` |
| Scatter.GatherWhereSum | Groups/Group_ID_29/KFDA/KFDA.py:120-122 | summing a row over `C_i` is summing it over exactly the samples of class `c` |
| Scatter.ClassColumnsRowSums | Groups/Group_ID_29/KFDA/KFDA.py:121-122 | every row of `K_i` sums to the class sum of that row of `K` |
| Scatter.ClassMeanIsClassAverage | Groups/Group_ID_29/KFDA/KFDA.py:120-122 | `M_i[p]` is the sum of `K[p, j]` over the samples `j` of the class, divided by `n_i` |
| Scatter.DeviationEntries | Groups/Group_ID_29/KFDA/KFDA.py:123 | `diff[p]` is the class mean minus the overall mean at `p` |
| Scatter.DotPrefixIsSquaredDeviation | Groups/Group_ID_29/KFDA/KFDA.py:123-124 | the inner product of a prefix of `diff` with itself is the squared deviation over that prefix |
| Scatter.DeviationSquared | Groups/Group_ID_29/KFDA/KFDA.py:124 | `diff @ diff.T` on the 1-D `diff` is the scalar sum of the squared deviations |
| Scatter.DeviationIncrement | Groups/Group_ID_29/KFDA/KFDA.py:124 | `class_counts[i] * (diff @ diff.T)` is the class's increment of `M` |
| Scatter.BetweenStep | Groups/Group_ID_29/KFDA/KFDA.py:124 | broadcasting that scalar over `M` after `k` classes gives `M` after `k + 1` |
| Scatter.TripleIsClassTerm | Groups/Group_ID_29/KFDA/KFDA.py:125-126 | entry `(p, q)` of `K_i @ const_ni @ K_i.T` is the class's term of `N` |
| Scatter.WithinStepEntry | Groups/Group_ID_29/KFDA/KFDA.py:126 | one entry of `N + K_i @ const_ni @ K_i.T` after `k` classes is that entry of `N` after `k + 1` |
| Scatter.WithinStep | Groups/Group_ID_29/KFDA/KFDA.py:125-126 | the whole matrix `N + K_i @ const_ni @ K_i.T` after `k` classes is `N` after `k + 1` |
| Scatter.AddInPlace | Groups/Group_ID_29/KFDA/KFDA.py:124-126 | `A += B` in place leaves the old contents plus `B`, entry by entry |
| Scatter.AddBetween | Groups/Group_ID_29/KFDA/KFDA.py:122-124 | one iteration's `M += n_i * (diff @ diff.T)` takes `M` from its value after `k` classes to its value after `k + 1` |
| Scatter.AddWithin | Groups/Group_ID_29/KFDA/KFDA.py:120-126 | one iteration's `N += K_i @ const_ni @ K_i.T` takes `N` from its value after `k` classes to its value after `k + 1` |
| Scatter.BuildScatter | Groups/Group_ID_29/KFDA/KFDA.py:116-126 | the class loop ends with every entry of `M` equal to the sum of the class increments, and with `N` equal to the closed-form within-class matrix; both are fresh, distinct `n x n` buffers |
| Linalg.DotSelfNonNegative | Groups/Group_ID_29/KFDA/KFDA.py:124 | `diff @ diff` is never negative |
| Linalg.TripleProductEntry | Groups/Group_ID_29/KFDA/KFDA.py:125-126 | entry `(p, q)` of `A @ np.full([m, m], w) @ A.T` is `w` times the row sums of `p` and `q` |
| Linalg.TripleProductSymmetric | Groups/Group_ID_29/KFDA/KFDA.py:125-126 | each class's increment of `N` is symmetric |
| Linalg.TransposeColumns | Groups/Group_ID_29/KFDA/KFDA.py:161 | column `j` of `W_.T` is row `j` of `W_` |
| Selection.InsertIndex | Groups/Group_ID_29/KFDA/KFDA.py:134 | inserting an index into an ascending eigenvalue order keeps it ascending and adds exactly that index |
| Selection.Argsort | Groups/Group_ID_29/KFDA/KFDA.py:134 | `np.argsort(evals)` is a permutation of the indices with non-decreasing eigenvalues |
| Selection.Reverse | Groups/Group_ID_29/KFDA/KFDA.py:134 | `[::-1]` reads the order backwards and keeps the same indices |
| Selection.DescendingOrder | Groups/Group_ID_29/KFDA/KFDA.py:134 | `np.argsort(evals)[::-1]` is a permutation of `0 .. n-1` with non-increasing eigenvalues |
| Selection.SliceStop | Groups/Group_ID_29/KFDA/KFDA.py:137 | `[:, :ndims]` keeps `ndims` columns when `0 <= ndims <= n`, all `n` when more, and `n + ndims` (at least 0) when negative |
| Selection.SelectDirections | Groups/Group_ID_29/KFDA/KFDA.py:134-137 | `W_` has `k` rows of width `n`, and row `r` is the eigenvector in column `order[r]` |
| Selection.TopDirections | Groups/Group_ID_29/KFDA/KFDA.py:133-137 | the eigenvalues of the kept rows do not increase, and no eigenvector left out has an eigenvalue above a kept one |
| Estimator.EffectiveComponents | Groups/Group_ID_29/KFDA/KFDA.py:107-113 | `ndims` is the smaller of `n_components` (or `d` when it is `None`) and the number of classes minus one |
| Estimator.DirectionCount | Groups/Group_ID_29/KFDA/KFDA.py:107-137 | a non-negative `ndims` from the clamp is below the number of classes, so `W_` gets exactly `ndims` rows |
| Estimator.BetweenMatrix | Groups/Group_ID_29/KFDA/KFDA.py:116-124 | `M` is `n x n`, all its entries are equal, and none is negative |
| Estimator.WithinMatrix | Groups/Group_ID_29/KFDA/KFDA.py:117-126 | `N` before the ridge step is `n x n` and symmetric |
| Estimator.Eigen | Groups/Group_ID_29/KFDA/KFDA.py:129-133 | `eigh(inv(N) @ M)` on the regularized `N` gives `n` eigenvalues and an `n x n` eigenvector matrix, or fails |
| Estimator.Directions | Groups/Group_ID_29/KFDA/KFDA.py:133-137 | `W_` exists exactly when `inv` and `eigh` succeed. It then has `SliceStop(ndims, n)` rows of width `n`, row `r` is the eigenvector of the `r`-th largest eigenvalue, and those eigenvalues do not increase. Otherwise the failure is `LinAlgError` |
| Estimator.Train | Groups/Group_ID_29/KFDA/KFDA.py:116-137 | the in-place loop, the ridge step and the eigenvector selection produce exactly `Directions` |
| Estimator.KFDA.constructor | Groups/Group_ID_29/KFDA/KFDA.py:62-72 | the configuration is stored as given, except that a `None` or callable kernel becomes `'linear'`; nothing is fitted |
| Estimator.KFDA.Defaults | Groups/Group_ID_29/KFDA/KFDA.py:62-68 | `KFDA()` has two components, the linear kernel, `alpha = 1e-3`, `tol = 1e-4` and no kernel parameters |
| Estimator.KFDA.GetKernel | Groups/Group_ID_29/KFDA/KFDA.py:75-81 | the kernel is evaluated with the stored metric and parameters, and has one row per row of `A` and one column per row of `B` (or of `A`) |
| Estimator.KFDA.Fit | Groups/Group_ID_29/KFDA/KFDA.py:101-138 | see below |
| Estimator.KFDA.FitValidated | Groups/Group_ID_29/KFDA/KFDA.py:105-138 | a kernel failure changes neither `unique_classes` nor `W_`. Otherwise `unique_classes` becomes `np.unique(y)`, and `W_` becomes `Directions(K, y, ndims)` when that succeeds; on a `LinAlgError` it is left alone |
| Estimator.KFDA.Transform | Groups/Group_ID_29/KFDA/KFDA.py:140-161 | see below |
| Estimator.KFDA.TransformDefaultsToSamples | Groups/Group_ID_29/KFDA/KFDA.py:154-155 | once `X_` is set, `transform()` equals `transform(X_)` |

`Estimator.KFDA.Fit` keeps the class invariant and never changes the
configuration. Its outcomes:

- Invalid input fails with a `ValueError` and changes nothing.
- Valid input stores `X_` and `y_`.
- If the kernel then fails, `unique_classes` and `W_` are unchanged.
- Otherwise `unique_classes` becomes `np.unique(y)`, and `W_` and the
  outcome are `Directions(K, y, ndims)`, with `ndims` from the clamp.

`Estimator.KFDA.Transform` checks, in the code's order:

1. `X` omitted and not fitted: a not-fitted error.
2. `X` invalid: a shape error.
3. Not fitted: a not-fitted error.
4. Kernel fails: a kernel error.
5. `W_` missing: a not-fitted error.
6. Inner sizes differ: a shape-mismatch error.

Otherwise the result has shape `(|X|, rows of W_)`, and entry `(i, j)` is
kernel row `i` dotted with row `j` of `W_`. The function reads the state
and changes nothing.

## Left out

- The kernel, `det`, `inv` and `eigh`: the model takes them as inputs.
  - It assumes only the shapes of their results.
  - Which metric names the kernel accepts, and what it computes, are not
    modelled. An unknown metric or bad parameters appear only as the
    kernel returning `None`.
  - What `inv` and `eigh` compute is not modelled, so nothing is proved
    about the eigenvectors beyond their order and the shape of the result.
- Floating point: the model uses exact `real` arithmetic, with no rounding,
  overflow, or NaN/Inf.
- `check_X_y` and `check_array`: only their shape checks are modelled (a
  2-D array with at least one row and one column, and one label per
  sample). Their finiteness and dtype checks, and the conversion of sparse
  or list inputs, are not.
- Labels are modelled as integers and kernel parameters as reals. Labels of
  other comparable types are not modelled.
- Estimator.KFDA.Fit: line 112 and line 120 read the raw `y`, not the
  validated `y_`. The model uses the one label sequence for both, which is
  what they are for valid input.
- Selection.Argsort: numpy's default `argsort` is not stable. The model
  uses a stable insertion sort, so when two eigenvalues are equal the model
  fixes one order of their eigenvectors where numpy may choose another.
  Everything that is proved about the order holds for any order with
  non-increasing eigenvalues.
- Estimator.KFDA.GetKernel: the callable-kernel branch (lines 76-77) is
  unreachable, because the constructor replaces a callable with
  `'linear'`. `KernelArg.Custom` stands for "a callable" without
  representing one.
- Estimator.KFDA.Fit: `self` is returned by reference and not modelled;
  `Fitted` stands for it.
- Estimator.KFDA.Fit: the failure paths leave partial state, as the code
  does. After a kernel failure `X_` and `y_` are already replaced. After an
  `inv` or `eigh` failure `unique_classes` is replaced too, and `W_` keeps
  any earlier value.
- Estimator.KFDA.Transform: if `X` and `X_` differ in width, the model
  reports this only through the kernel failing. The estimator does not
  check it itself.

Where this code differs from textbook KFDA, the model follows the code:

- `diff @ diff.T` on the 1-D `diff` is an inner product, a scalar that is
  broadcast over all of `M`. Textbook KFDA uses an outer product. Here
  every entry of `M` is equal (`Estimator.BetweenMatrix`).
- `const_ni` is filled with `1 - 1/n_i`. Textbook KFDA uses the centering
  operator `I - J/n_i`. Both give zero for a class of one sample
  (`Scatter.SingletonClassAddsNothing`).

Other facts about the code that the model keeps:

- With a single class, `ndims` is 0 and `W_` has no rows. Nothing is
  raised.
- A negative `n_components` is not rejected. The slice then counts from
  the end (`Selection.SliceStop`).
- A failed `fit` can leave `X_`, `y_` and `unique_classes` replaced while
  `W_` keeps its earlier value, as described above.
