/** Optional values, and the failures the estimator can end in. Python's
    `None` and raised exceptions become these values. */
module Results {

  datatype Option<T> = None | Some(value: T) {
    /** `x if x is not None else d`. */
    function GetOr(d: T): (r: T)
      ensures Some? ==> r == value
      ensures None? ==> r == d
    {
      match this
      case None => d
      case Some(v) => v
    }
  }

  /** The exceptions `fit` and `transform` can raise. */
  datatype Error =
    | InvalidInput    // `ValueError` from the input validation of `X` and `y`
    | KernelFailure   // `pairwise_kernels` rejects the metric or its parameters
    | NotFitted       // `AttributeError`: `X_` or `W_` read before `fit` assigned it
    | LinAlgFailure   // `LinAlgError` from `inv` or `eigh`
    | ShapeMismatch   // `ValueError` from `@` on operands whose inner sizes differ

  datatype Result<T> = Ok(value: T) | Err(error: Error)
}
