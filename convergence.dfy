/**
 * The convergence test `isConverged`: exact, component-wise equality of
 * the old and the new centroid set, with no tolerance.
 */
module Convergence {
  import opened Vectors

  /**
   * What `isConverged` reads: for each of the first `k` centroids, the
   * first `dimension` components of the old one and of the new one.
   */
  predicate Comparable(centroids: seq<Vector>, updated: seq<Vector>, k: nat) {
    && k <= |centroids| && k <= |updated|
    && forall index | 0 <= index < k ::
      0 <= centroids[index].dimension <= |centroids[index].components|
      && centroids[index].dimension <= |updated[index].components|
  }

  /** Every compared component of the old set equals the new one. */
  predicate Converged(centroids: seq<Vector>, updated: seq<Vector>, k: nat)
    requires Comparable(centroids, updated, k)
  {
    forall index, i | 0 <= index < k && 0 <= i < centroids[index].dimension ::
      centroids[index].components[i] == updated[index].components[i]
  }

  /**
   * `isConverged(centroidsList, updatedCentroidsList, k)`: scans centroid
   * by centroid and component by component, and answers false at the
   * first difference.
   */
  method IsConverged(centroids: seq<Vector>, updated: seq<Vector>, k: nat) returns (converged: bool)
    requires Comparable(centroids, updated, k)
    ensures converged <==> Converged(centroids, updated, k)
  {
    for index := 0 to k
      invariant forall m, i | 0 <= m < index && 0 <= i < centroids[m].dimension ::
        centroids[m].components[i] == updated[m].components[i]
    {
      for i := 0 to centroids[index].dimension
        invariant forall c | 0 <= c < i :: centroids[index].components[c] == updated[index].components[c]
      {
        if centroids[index].components[i] != updated[index].components[i] {
          return false;
        }
      }
    }
    return true;
  }

  /**
   * For two sets of `k` centroids of dimension `d`, convergence is exactly
   * equality of the components of every centroid: the set kept on
   * convergence is, component for component, the updated one.
   */
  lemma ConvergedIffSameComponents(centroids: seq<Vector>, updated: seq<Vector>, k: nat, d: nat)
    requires k <= |centroids| && k <= |updated|
    requires Shaped(centroids[..k], d) && Shaped(updated[..k], d)
    ensures Comparable(centroids, updated, k)
    ensures Converged(centroids, updated, k) <==>
      forall index | 0 <= index < k :: centroids[index].components == updated[index].components
  {
    assert forall index | 0 <= index < k :: centroids[..k][index] == centroids[index];
    assert forall index | 0 <= index < k :: updated[..k][index] == updated[index];
    if Converged(centroids, updated, k) {
      forall index | 0 <= index < k
        ensures centroids[index].components == updated[index].components
      {
        assert centroids[index].dimension == d;
      }
    }
  }
}
