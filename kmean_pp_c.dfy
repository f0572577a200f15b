/**
 * `Kmeans` of kmean_pp@C/kmeans.c: the same driver as kmeans.c, except
 * that every scan of `computeMinDistance` starts at the finite sentinel
 * `INF` instead of at infinity. A point farther than `INF` from every
 * centroid keeps the label -1, which `updateCentroids` then uses as an
 * array index.
 */
module KmeanPpC {
  import opened Wrappers
  import opened Vectors
  import opened Assignment
  import opened Validation
  import opened Clustering
  import KmeansC

  /**
   * The centroid set the program prints, or the reason it has none: refused
   * parameters, or a round that would index the accumulators with -1.
   */
  function Clusters(points: seq<Vector>, k: int, d: int, maxIter: int): (r: Result<seq<Vector>, Error>)
    requires Shaped(points, d)
    ensures !TestValidation(k, |points|, d, DefaultMaxIter(maxIter)) ==> r == Failure(InvalidParameters)
    ensures TestValidation(k, |points|, d, DefaultMaxIter(maxIter)) ==> r != Failure(InvalidParameters)
    ensures r.Success? ==> |r.value| == k && Shaped(r.value, d)
  {
    var m := DefaultMaxIter(maxIter);
    if !TestValidation(k, |points|, d, m) then Failure(InvalidParameters)
    else Finish(Clustered(points, k, d, FiniteSentinel, m))
  }

  /** The points after a run: relabelled by the last round, or untouched when the parameters are refused. */
  function Labelled(points: seq<Vector>, k: int, d: int, maxIter: int): (labelled: seq<Vector>)
    requires Shaped(points, d)
    ensures SameComponents(labelled, points)
  {
    var m := DefaultMaxIter(maxIter);
    if !TestValidation(k, |points|, d, m) then points
    else Clustered(points, k, d, FiniteSentinel, m).points
  }

  /** A run that converges, converges at a fixed point of Lloyd's iteration with the finite start. */
  lemma ConvergedRunIsFixedPoint(points: seq<Vector>, k: int, d: int, maxIter: int)
    requires Shaped(points, d) && TestValidation(k, |points|, d, DefaultMaxIter(maxIter))
    ensures var o := Clustered(points, k, d, FiniteSentinel, DefaultMaxIter(maxIter));
      o.terminal == ConvergedStop ==> FixedPoint(o.points, o.centroids, k, d, FiniteSentinel)
  {
    FirstKFits(points, k, d);
    ConvergedIsFixedPoint(points, FirstK(points, k), k, d, FiniteSentinel, DefaultMaxIter(maxIter), 0);
  }

  /** Three points on a line; the third is about three times `INF` away from the other two. */
  function FarPoints(): (points: seq<Vector>)
    ensures Shaped(points, 1)
  {
    [Vector(1, [0.0], Unassigned), Vector(1, [1.0], Unassigned), Vector(1, [3000000000000.0], Unassigned)]
  }

  /** Starting at `INF`, no initial centroid beats the sentinel for the third point, which stays unassigned. */
  lemma FarPointIsUnassigned()
    ensures Nearest(FarPoints()[2].components, FirstK(FarPoints(), 2), 2, FiniteSentinel) == Unassigned
  {
    var x := FarPoints()[2].components;
    var init := FirstK(FarPoints(), 2);
    assert Dist(x, init, 0) == 9000000000000000000000000.0;
    assert Dist(x, init, 1) == 8999999999994000000000001.0;
  }

  /**
   * Valid parameters that kmeans.c clusters, and this copy does not: its
   * first round leaves the far point with label -1, which would index the
   * accumulators out of range.
   */
  lemma FarPointBreaksTheRun()
    ensures TestValidation(2, |FarPoints()|, 1, DefaultMaxIter(0))
    ensures Clusters(FarPoints(), 2, 1, 0) == Failure(IndexOutOfRange)
    ensures KmeansC.Clusters(FarPoints(), 2, 1, 0).Success?
  {
    var points := FarPoints();
    var init := FirstK(points, 2);
    var round := LloydRound(2, 1, FiniteSentinel);
    FirstKFits(points, 2, 1);
    LloydRoundImplements(2, 1, FiniteSentinel);
    FarPointIsUnassigned();
    AssignShape(points, init, 2, 1, FiniteSentinel);
    var labelled := Assign(points, init, 2, FiniteSentinel);
    assert labelled[2].centroid == Unassigned;
    assert Lloyd(points, init, 2, 1, FiniteSentinel) == Stopped(labelled, LabelOutOfRange);
    IteratedStep(round, 2, 1, points, init, DefaultIterations, 0);
  }

  /**
   * `Kmeans(filename, k, n, d, maxIter)` of kmean_pp@C/kmeans.c, with the
   * points already read. Refused parameters leave the points as they are.
   */
  method Kmeans(points: array<Vector>, k: int, d: int, maxIter: int) returns (result: Result<seq<Vector>, Error>)
    requires Shaped(points[..], d)
    modifies points
    ensures result == Clusters(old(points[..]), k, d, maxIter)
    ensures points[..] == Labelled(old(points[..]), k, d, maxIter)
  {
    var m := maxIter;
    if m <= 0 {
      m := DefaultIterations;
    }
    var isValid := TestValidation(k, points.Length, d, m);
    if !isValid {
      return Failure(InvalidParameters);
    }
    ghost var before := points[..];
    var centroidList := InitializeCentroids(points, k);
    FirstKFits(before, k, d);
    LloydRoundImplements(k, d, FiniteSentinel);
    var finalList, rounds, terminal := Iterate(points, centroidList, k, d, m, FiniteSentinel, LloydRound(k, d, FiniteSentinel));
    result := Finish(Outcome(points[..], finalList, rounds, terminal));
  }
}
