/**
 * `Kmeans` of kmean_pp@C/kmeansmoudle.c: no parameter validation and no
 * default for the iteration bound, scans starting at the finite sentinel
 * `INF`. A bound of zero or less makes no round at all, and the first `k`
 * points are printed back as the centroids.
 */
module KmeansModule {
  import opened Wrappers
  import opened Vectors
  import opened Assignment
  import opened Validation
  import opened Clustering
  import KmeanPpC

  /**
   * The centroid set the program prints, or the reason it has none: a
   * negative `k` makes the allocation of the initial set fail; more
   * centroids than points makes `initializeCentroids` read past the points;
   * a label of -1 would index the accumulators out of range.
   */
  function Clusters(points: seq<Vector>, k: int, d: nat, maxIter: int): (r: Result<seq<Vector>, Error>)
    requires Shaped(points, d)
    ensures k < 0 <==> r == Failure(AllocationFailed)
    ensures 0 <= k && k > |points| ==> r == Failure(IndexOutOfRange)
    ensures r.Success? ==> |r.value| == k && Shaped(r.value, d)
  {
    if k < 0 then Failure(AllocationFailed)
    else if k > |points| then Failure(IndexOutOfRange)
    else Finish(Clustered(points, k, d, FiniteSentinel, Fuel(maxIter)))
  }

  /** The points after a run: relabelled by the last round, or untouched when no run starts. */
  function Labelled(points: seq<Vector>, k: int, d: nat, maxIter: int): (labelled: seq<Vector>)
    requires Shaped(points, d)
    ensures SameComponents(labelled, points)
  {
    if k < 0 || k > |points| then points
    else Clustered(points, k, d, FiniteSentinel, Fuel(maxIter)).points
  }

  /** With a bound of zero or less the loop body never runs: the first `k` points come back, the labels untouched. */
  lemma NoRoundsWithoutBound(points: seq<Vector>, k: int, d: nat, maxIter: int)
    requires Shaped(points, d) && 0 <= k <= |points| && maxIter <= 0
    ensures Clusters(points, k, d, maxIter) == Success(FirstK(points, k))
    ensures Labelled(points, k, d, maxIter) == points
  {
    FirstKFits(points, k, d);
  }

  /** With no centroid and at least one point and one round, the first round labels every point -1 and fails. */
  lemma NoClustersFail(points: seq<Vector>, d: nat, maxIter: int)
    requires Shaped(points, d) && |points| > 0 && maxIter > 0
    ensures Clusters(points, 0, d, maxIter) == Failure(IndexOutOfRange)
    ensures forall i | 0 <= i < |points| :: Labelled(points, 0, d, maxIter)[i].centroid == Unassigned
  {
    var init := FirstK(points, 0);
    var round := LloydRound(0, d, FiniteSentinel);
    FirstKFits(points, 0, d);
    LloydRoundImplements(0, d, FiniteSentinel);
    AssignShape(points, init, 0, d, FiniteSentinel);
    var labelled := Assign(points, init, 0, FiniteSentinel);
    assert labelled[0].centroid == Unassigned;
    assert Lloyd(points, init, 0, d, FiniteSentinel) == Stopped(labelled, LabelOutOfRange);
    IteratedStep(round, 0, d, points, init, maxIter, 0);
  }

  /**
   * The finite sentinel breaks this copy too: for the far points of
   * kmean_pp@C/kmeans.c and one round, the first round leaves the far
   * point with label -1, which would index the accumulators out of range.
   */
  lemma FarPointBreaksTheRun()
    ensures Clusters(KmeanPpC.FarPoints(), 2, 1, 1) == Failure(IndexOutOfRange)
  {
    var points := KmeanPpC.FarPoints();
    var init := FirstK(points, 2);
    var round := LloydRound(2, 1, FiniteSentinel);
    FirstKFits(points, 2, 1);
    LloydRoundImplements(2, 1, FiniteSentinel);
    KmeanPpC.FarPointIsUnassigned();
    AssignShape(points, init, 2, 1, FiniteSentinel);
    var labelled := Assign(points, init, 2, FiniteSentinel);
    assert labelled[2].centroid == Unassigned;
    assert Lloyd(points, init, 2, 1, FiniteSentinel) == Stopped(labelled, LabelOutOfRange);
    IteratedStep(round, 2, 1, points, init, 1, 0);
  }

  /** A run that converges, converges at a fixed point of Lloyd's iteration with the finite start. */
  lemma ConvergedRunIsFixedPoint(points: seq<Vector>, k: nat, d: nat, maxIter: int)
    requires Shaped(points, d) && k <= |points|
    ensures var o := Clustered(points, k, d, FiniteSentinel, Fuel(maxIter));
      o.terminal == ConvergedStop ==> FixedPoint(o.points, o.centroids, k, d, FiniteSentinel)
  {
    FirstKFits(points, k, d);
    ConvergedIsFixedPoint(points, FirstK(points, k), k, d, FiniteSentinel, Fuel(maxIter), 0);
  }

  /**
   * `Kmeans(filename, k, n, d, maxIter)` of kmeansmoudle.c, with the points
   * already read as `d`-dimensional vectors.
   */
  method Kmeans(points: array<Vector>, k: int, d: nat, maxIter: int) returns (result: Result<seq<Vector>, Error>)
    requires Shaped(points[..], d)
    modifies points
    ensures result == Clusters(old(points[..]), k, d, maxIter)
    ensures points[..] == Labelled(old(points[..]), k, d, maxIter)
  {
    if k < 0 {
      return Failure(AllocationFailed);
    }
    if k > points.Length {
      return Failure(IndexOutOfRange);
    }
    ghost var before := points[..];
    var centroidList := InitializeCentroids(points, k);
    FirstKFits(before, k, d);
    LloydRoundImplements(k, d, FiniteSentinel);
    var finalList, rounds, terminal := Iterate(points, centroidList, k, d, maxIter, FiniteSentinel, LloydRound(k, d, FiniteSentinel));
    result := Finish(Outcome(points[..], finalList, rounds, terminal));
  }
}
