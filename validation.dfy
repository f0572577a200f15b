/**
 * Parameter checks done once before any clustering work: `testValidation`
 * and the defaulting of the iteration bound in `Kmeans`.
 */
module Validation {

  /**
   * Why a run produces no centroid set. `InvalidParameters`: `testValidation`
   * refused the parameters and the program exits. `AllocationFailed`: a
   * `malloc` for a negative number of centroids returned NULL and the program
   * exits. `IndexOutOfRange`: the C code would read or write outside an array
   * (undefined behaviour there).
   */
  datatype Error = InvalidParameters | AllocationFailed | IndexOutOfRange

  /** The iteration bound used when the caller gives a non-positive one. */
  const DefaultIterations: int := 200

  /**
   * `testValidation`: the clusters check, then the points check, then the
   * dimension check, then the iteration check; the first one that fails
   * decides. The points check can never be the one that fails, because
   * `1 < k < n` already gives `n >= 3`.
   */
  function TestValidation(k: int, n: int, d: int, maxIter: int): (valid: bool)
    ensures valid <==> 1 < k < n && d >= 1 && 1 < maxIter < 1000
  {
    if !(1 < k && k < n) then false
    else if n < 1 then false
    else if d < 1 then false
    else if !(1 < maxIter && maxIter < 1000) then false
    else true
  }

  /** `if (maxIter <= 0) maxIter = 200;` in `Kmeans`. */
  function DefaultMaxIter(maxIter: int): (m: int)
    ensures m >= 1
    ensures maxIter >= 1 ==> m == maxIter
    ensures maxIter <= 0 ==> m == DefaultIterations
  {
    if maxIter <= 0 then DefaultIterations else maxIter
  }

  /** A non-positive bound is replaced by 200, which always passes the iteration check. */
  lemma DefaultPassesIterationCheck(k: int, n: int, d: int, maxIter: int)
    requires maxIter <= 0
    ensures TestValidation(k, n, d, DefaultMaxIter(maxIter)) <==> 1 < k < n && d >= 1
  {
  }
}
