/**
 * `Kmeans` of kmeans.c: default the iteration bound, validate the
 * parameters, take the first `k` points as the initial set, and run the
 * clustering loop with each scan starting at IEEE infinity. Reading the
 * points from a file is replaced by the `points` parameter, whose length
 * is `n`; printing the final set is replaced by returning it.
 */
module KmeansC {
  import opened Wrappers
  import opened Vectors
  import opened Assignment
  import opened Validation
  import opened Clustering

  /**
   * The centroid set the program prints, or the reason it exits without
   * one. Valid parameters always give a set: a scan starting at infinity
   * always finds a centroid, so no label ever leaves `[0, k)`.
   */
  function Clusters(points: seq<Vector>, k: int, d: int, maxIter: int): (r: Result<seq<Vector>, Error>)
    requires Shaped(points, d)
    ensures r.Failure? <==> !TestValidation(k, |points|, d, DefaultMaxIter(maxIter))
    ensures r.Failure? ==> r.error == InvalidParameters
    ensures r.Success? ==> |r.value| == k && Shaped(r.value, d)
  {
    var m := DefaultMaxIter(maxIter);
    if !TestValidation(k, |points|, d, m) then Failure(InvalidParameters)
    else
      FirstKFits(points, k, d);
      InfinityNeverLeavesRange(points, FirstK(points, k), k, d, m, 0);
      Finish(Clustered(points, k, d, Infinity, m))
  }

  /** The points after a run: relabelled by the last round, or untouched when the parameters are refused. */
  function Labelled(points: seq<Vector>, k: int, d: int, maxIter: int): (labelled: seq<Vector>)
    requires Shaped(points, d)
    ensures SameComponents(labelled, points)
  {
    var m := DefaultMaxIter(maxIter);
    if !TestValidation(k, |points|, d, m) then points
    else Clustered(points, k, d, Infinity, m).points
  }

  /** A run that stops before the iteration bound stops at a fixed point of Lloyd's iteration. */
  lemma EarlyStopIsFixedPoint(points: seq<Vector>, k: int, d: int, maxIter: int)
    requires Shaped(points, d) && TestValidation(k, |points|, d, DefaultMaxIter(maxIter))
    ensures var o := Clustered(points, k, d, Infinity, DefaultMaxIter(maxIter));
      o.terminal != MaxIterReached ==> FixedPoint(o.points, o.centroids, k, d, Infinity)
  {
    var m := DefaultMaxIter(maxIter);
    FirstKFits(points, k, d);
    InfinityNeverLeavesRange(points, FirstK(points, k), k, d, m, 0);
    ConvergedIsFixedPoint(points, FirstK(points, k), k, d, Infinity, m, 0);
  }

  /**
   * `Kmeans(filename, k, n, d, maxIter)` of kmeans.c, with the points
   * already read. Refused parameters leave the points as they are.
   */
  method Kmeans(points: array<Vector>, k: int, d: int, maxIter: int) returns (result: Result<seq<Vector>, Error>)
    requires Shaped(points[..], d)
    modifies points
    ensures result == Clusters(old(points[..]), k, d, maxIter)
    ensures points[..] == Labelled(old(points[..]), k, d, maxIter)
  {
    var m := maxIter;
    if m <= 0 {
      m := DefaultIterations;
    }
    var isValid := TestValidation(k, points.Length, d, m);
    if !isValid {
      return Failure(InvalidParameters);
    }
    ghost var before := points[..];
    var centroidList := InitializeCentroids(points, k);
    FirstKFits(before, k, d);
    LloydRoundImplements(k, d, Infinity);
    var finalList, rounds, terminal := Iterate(points, centroidList, k, d, m, Infinity, LloydRound(k, d, Infinity));
    result := Finish(Outcome(points[..], finalList, rounds, terminal));
  }
}
