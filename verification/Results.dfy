/** Outcomes of calls that either return a value or throw, and optional values. */
module Results {

  datatype Option<+T> = None | Some(value: T)

  datatype Result<+T, +E> = Ok(value: T) | Err(error: E)

  // Number.isSafeInteger on an integer value.
  const MAX_SAFE: int := 9_007_199_254_740_991

  predicate SafeInteger(n: int) {
    -MAX_SAFE <= n <= MAX_SAFE
  }
}
