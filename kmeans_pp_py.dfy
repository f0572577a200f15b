/**
 * `Kmeans` of kmeans_pp@py/kmeans.c, the C side of the Python extension:
 * the caller hands in the points and an initial set of `k` centroids, a
 * bound of zero or less becomes 200, every scan starts at the finite
 * sentinel `INF`, and the final set is returned. There is no parameter
 * validation, and the convergence threshold `eps` is accepted and never
 * read: convergence is exact equality.
 */
module KmeansPpPy {
  import opened Wrappers
  import opened Vectors
  import opened Assignment
  import opened Validation
  import opened Clustering
  import KmeanPpC

  /** The set `Kmeans` returns, or the reason it has none: a round that would index the accumulators with -1. */
  function Clusters(points: seq<Vector>, init: seq<Vector>, k: nat, d: nat, maxIter: int, eps: real): (r: Result<seq<Vector>, Error>)
    requires Fits(points, init, k, d)
    ensures r.Failure? ==> r.error == IndexOutOfRange
    ensures r.Success? ==> |r.value| == k && Shaped(r.value, d)
  {
    var o := Run(points, init, k, d, FiniteSentinel, DefaultMaxIter(maxIter), 0);
    IteratedBounds(LloydRound(k, d, FiniteSentinel), k, d, points, init, DefaultMaxIter(maxIter), 0);
    Finish(o)
  }

  /** The points after the run, relabelled by its last round. */
  function Labelled(points: seq<Vector>, init: seq<Vector>, k: nat, d: nat, maxIter: int): (labelled: seq<Vector>)
    requires Fits(points, init, k, d)
    ensures SameComponents(labelled, points)
  {
    IteratedBounds(LloydRound(k, d, FiniteSentinel), k, d, points, init, DefaultMaxIter(maxIter), 0);
    Run(points, init, k, d, FiniteSentinel, DefaultMaxIter(maxIter), 0).points
  }

  /** The threshold `eps` has no effect on the result. */
  lemma EpsIgnored(points: seq<Vector>, init: seq<Vector>, k: nat, d: nat, maxIter: int, eps: real, other: real)
    requires Fits(points, init, k, d)
    ensures Clusters(points, init, k, d, maxIter, eps) == Clusters(points, init, k, d, maxIter, other)
  {
  }

  /**
   * Unlike kmeansmoudle.c, a bound of zero or less still runs: at least one
   * round, and at most 200.
   */
  lemma AlwaysRuns(points: seq<Vector>, init: seq<Vector>, k: nat, d: nat, maxIter: int)
    requires Fits(points, init, k, d)
    ensures 1 <= Run(points, init, k, d, FiniteSentinel, DefaultMaxIter(maxIter), 0).rounds <= DefaultMaxIter(maxIter)
  {
    IteratedBounds(LloydRound(k, d, FiniteSentinel), k, d, points, init, DefaultMaxIter(maxIter), 0);
  }

  /**
   * The finite sentinel breaks this copy too: started from the first two
   * far points of kmean_pp@C/kmeans.c, the first round leaves the far point
   * with label -1, which would index the accumulators out of range.
   */
  lemma FarPointBreaksTheRun(eps: real)
    ensures Fits(KmeanPpC.FarPoints(), FirstK(KmeanPpC.FarPoints(), 2), 2, 1)
    ensures Clusters(KmeanPpC.FarPoints(), FirstK(KmeanPpC.FarPoints(), 2), 2, 1, 0, eps) == Failure(IndexOutOfRange)
  {
    var points := KmeanPpC.FarPoints();
    var init := FirstK(points, 2);
    var round := LloydRound(2, 1, FiniteSentinel);
    FirstKFits(points, 2, 1);
    LloydRoundImplements(2, 1, FiniteSentinel);
    KmeanPpC.FarPointIsUnassigned();
    AssignShape(points, init, 2, 1, FiniteSentinel);
    var labelled := Assign(points, init, 2, FiniteSentinel);
    assert labelled[2].centroid == Unassigned;
    assert Lloyd(points, init, 2, 1, FiniteSentinel) == Stopped(labelled, LabelOutOfRange);
    IteratedStep(round, 2, 1, points, init, DefaultIterations, 0);
  }

  /** A run that converges hands back a fixed point of Lloyd's iteration with the finite start. */
  lemma ConvergedRunIsFixedPoint(points: seq<Vector>, init: seq<Vector>, k: nat, d: nat, maxIter: int)
    requires Fits(points, init, k, d)
    ensures var o := Run(points, init, k, d, FiniteSentinel, DefaultMaxIter(maxIter), 0);
      o.terminal == ConvergedStop ==> Fits(o.points, o.centroids, k, d) && FixedPoint(o.points, o.centroids, k, d, FiniteSentinel)
  {
    ConvergedIsFixedPoint(points, init, k, d, FiniteSentinel, DefaultMaxIter(maxIter), 0);
  }

  /**
   * `Kmeans(vectorList, centroidList, k, n, d, maxIter, eps)`: `n` is the
   * number of points; the points and the `k` initial centroids come parsed
   * from the Python lists, all of dimension `d`.
   */
  method Kmeans(points: array<Vector>, init: seq<Vector>, k: nat, d: nat, maxIter: int, eps: real)
    returns (result: Result<seq<Vector>, Error>)
    requires Fits(points[..], init, k, d)
    modifies points
    ensures result == Clusters(old(points[..]), init, k, d, maxIter, eps)
    ensures points[..] == Labelled(old(points[..]), init, k, d, maxIter)
  {
    var m := maxIter;
    if m <= 0 {
      m := DefaultIterations;
    }
    LloydRoundImplements(k, d, FiniteSentinel);
    var finalList, rounds, terminal := Iterate(points, init, k, d, m, FiniteSentinel, LloydRound(k, d, FiniteSentinel));
    result := Finish(Outcome(points[..], finalList, rounds, terminal));
  }
}
