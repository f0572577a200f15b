/**
 * Cluster-mean recomputation: `updateCentroids`. One pass over the points
 * adds each into the accumulator of its label and counts it; a second pass
 * scales each accumulator by one over its count, leaving a cluster with no
 * points at the zero vector.
 */
module Update {
  import opened Wrappers
  import opened Vectors

  /** Every point carries a label that is a valid index into `k` accumulators. */
  predicate LabelsIn(points: seq<Vector>, k: nat) {
    forall i | 0 <= i < |points| :: 0 <= points[i].centroid < k
  }

  /** How many points are labelled `j`: the counter `kNumbers[j]` after the first pass. */
  function Count(points: seq<Vector>, j: int): nat
  {
    if |points| == 0 then 0
    else Count(points[..|points| - 1], j) + (if points[|points| - 1].centroid == j then 1 else 0)
  }

  /** The component-wise sum of the points labelled `j`: the accumulator after the first pass. */
  function ClusterSum(points: seq<Vector>, j: int, d: nat): (sum: seq<real>)
    requires Shaped(points, d)
    ensures |sum| == d
  {
    if |points| == 0 then Zeros(d)
    else
      var last := points[|points| - 1];
      var sum := ClusterSum(points[..|points| - 1], j, d);
      if last.centroid == j then Plus(last.components, sum) else sum
  }

  /** The scale factor `1.0 / kNumbers[i]` of a non-empty cluster. */
  function Reciprocal(count: nat): real
    requires count > 0
  {
    1.0 / count as real
  }

  /** The accumulator after the second pass: scaled by one over the count, unless the count is zero. */
  function ClusterMean(points: seq<Vector>, j: int, d: nat): (mean: seq<real>)
    requires Shaped(points, d)
    ensures |mean| == d
  {
    var count := Count(points, j);
    var sum := ClusterSum(points, j, d);
    if count != 0 then Times(sum, Reciprocal(count)) else sum
  }

  /** The centroid set `updateCentroids` returns: `k` vectors of dimension `d`. */
  function Updated(points: seq<Vector>, d: nat, k: nat): (centroids: seq<Vector>)
    requires Shaped(points, d)
  {
    seq(k, j requires 0 <= j < k => Vector(d, ClusterMean(points, j, d), Unassigned))
  }

  /** The update always yields `k` well-formed centroids of dimension `d`. */
  lemma UpdatedShape(points: seq<Vector>, d: nat, k: nat)
    requires Shaped(points, d)
    ensures |Updated(points, d, k)| == k && Shaped(Updated(points, d, k), d)
  {
  }

  /** A cluster nobody is labelled with sums to the zero vector. */
  lemma {:induction false} EmptyClusterSum(points: seq<Vector>, j: int, d: nat)
    requires Shaped(points, d) && Count(points, j) == 0
    ensures ClusterSum(points, j, d) == Zeros(d)
    decreases |points|
  {
    if |points| > 0 {
      EmptyClusterSum(points[..|points| - 1], j, d);
    }
  }

  /** An empty cluster's centroid collapses to the origin, whatever its previous position. */
  lemma EmptyClusterIsOrigin(points: seq<Vector>, j: int, d: nat)
    requires Shaped(points, d) && Count(points, j) == 0
    ensures ClusterMean(points, j, d) == Zeros(d)
  {
    EmptyClusterSum(points, j, d);
  }

  /** Component `c` of a non-empty cluster's centroid: the sum's component, scaled by one over the count. */
  lemma MeanComponent(points: seq<Vector>, j: int, d: nat, c: nat)
    requires Shaped(points, d) && Count(points, j) > 0 && c < d
    ensures ClusterMean(points, j, d)[c] == ClusterSum(points, j, d)[c] * Reciprocal(Count(points, j))
  {
  }

  /** A non-empty cluster's centroid is its mean: each component is the sum's component divided by the count. */
  lemma MeanIsAverage(points: seq<Vector>, j: int, d: nat, c: nat)
    requires Shaped(points, d) && Count(points, j) > 0 && c < d
    ensures ClusterMean(points, j, d)[c] == ClusterSum(points, j, d)[c] / Count(points, j) as real
  {
    MeanComponent(points, j, d, c);
    ScaleIsDivision(ClusterSum(points, j, d)[c], Count(points, j));
  }

  /** Scaling by one over `n` is dividing by `n`. */
  lemma ScaleIsDivision(s: real, n: nat)
    requires n > 0
    ensures s * Reciprocal(n) == s / n as real
  {
  }

  /** The set of indices of the points labelled `j`. */
  function Members(points: seq<Vector>, j: int): set<nat> {
    set i: nat | i < |points| && points[i].centroid == j
  }

  /** The counter is the number of points whose label is `j`. */
  lemma {:induction false} CountIsMembers(points: seq<Vector>, j: int)
    ensures Count(points, j) == |Members(points, j)|
    decreases |points|
  {
    if |points| > 0 {
      var m := |points| - 1;
      var prefix := points[..m];
      CountIsMembers(prefix, j);
      if points[m].centroid == j {
        assert Members(points, j) == Members(prefix, j) + {m};
      } else {
        assert Members(points, j) == Members(prefix, j);
      }
    }
  }

  /** Sum of the counters of clusters `0 .. k-1`. */
  function TotalCount(points: seq<Vector>, k: nat): nat {
    if k == 0 then 0 else TotalCount(points, k - 1) + Count(points, k - 1)
  }

  lemma {:induction false} TotalCountOfOne(v: Vector, k: nat)
    ensures TotalCount([v], k) == if 0 <= v.centroid < k then 1 else 0
  {
    if k > 0 {
      TotalCountOfOne(v, k - 1);
      assert [v][..0] == [];
      assert Count([v], k - 1) == if v.centroid == k - 1 then 1 else 0;
    }
  }

  lemma {:induction false} TotalCountSplit(points: seq<Vector>, k: nat)
    requires |points| > 0
    ensures TotalCount(points, k) == TotalCount(points[..|points| - 1], k) + TotalCount([points[|points| - 1]], k)
  {
    if k > 0 {
      TotalCountSplit(points, k - 1);
      var v := points[|points| - 1];
      assert [v][..0] == [];
      assert Count([v], k - 1) == if v.centroid == k - 1 then 1 else 0;
    }
  }

  /** With every label in range, the clusters partition the points: the counters add up to `n`. */
  lemma {:induction false} CountsCoverAllPoints(points: seq<Vector>, k: nat)
    requires LabelsIn(points, k)
    ensures TotalCount(points, k) == |points|
    decreases |points|
  {
    if |points| > 0 {
      var m := |points| - 1;
      CountsCoverAllPoints(points[..m], k);
      TotalCountSplit(points, k);
      TotalCountOfOne(points[m], k);
    } else {
      TotalCountOfNothing(points, k);
    }
  }

  lemma {:induction false} TotalCountOfNothing(points: seq<Vector>, k: nat)
    requires |points| == 0
    ensures TotalCount(points, k) == 0
  {
    if k > 0 {
      TotalCountOfNothing(points, k - 1);
    }
  }

  /** If every point of cluster `j` sits at `x`, the cluster sums to count times `x`. */
  lemma {:induction false} IdenticalMembersSum(points: seq<Vector>, j: int, d: nat, x: seq<real>)
    requires Shaped(points, d) && |x| == d
    requires forall i | 0 <= i < |points| && points[i].centroid == j :: points[i].components == x
    ensures forall c | 0 <= c < d :: ClusterSum(points, j, d)[c] == Count(points, j) as real * x[c]
    decreases |points|
  {
    if |points| > 0 {
      IdenticalMembersSum(points[..|points| - 1], j, d, x);
    }
  }

  /** Dividing `n` times `x` by `n` gives `x`. */
  lemma DivideMultiple(x: real, n: nat)
    requires n > 0
    ensures (n as real * x) / n as real == x
  {
  }

  /** A non-empty cluster whose points all sit at `x` has its centroid at `x`. */
  lemma IdenticalMembersMean(points: seq<Vector>, j: int, d: nat, x: seq<real>)
    requires Shaped(points, d) && |x| == d && Count(points, j) > 0
    requires forall i | 0 <= i < |points| && points[i].centroid == j :: points[i].components == x
    ensures ClusterMean(points, j, d) == x
  {
    IdenticalMembersSum(points, j, d, x);
    forall c | 0 <= c < d
      ensures ClusterMean(points, j, d)[c] == x[c]
    {
      MeanIsAverage(points, j, d, c);
      DivideMultiple(x[c], Count(points, j));
    }
  }

  /**
   * The first pass of `updateCentroids`: fresh zero accumulators and zero
   * counters for the `k` clusters, then each of the first `n` points added
   * into the accumulator of its label and counted.
   */
  method Accumulate(points: array<Vector>, n: nat, d: nat, k: nat) returns (sums: array<Vector>, kNumbers: array<int>)
    requires n <= points.Length
    requires Shaped(points[..n], d)
    requires LabelsIn(points[..n], k)
    ensures fresh(sums) && fresh(kNumbers) && sums.Length == k && kNumbers.Length == k
    ensures forall c | 0 <= c < k :: sums[c] == Vector(d, ClusterSum(points[..n], c, d), Unassigned)
    ensures forall c | 0 <= c < k :: kNumbers[c] == Count(points[..n], c)
  {
    sums := new Vector[k];
    kNumbers := new int[k];
    for i := 0 to k
      invariant forall c | 0 <= c < i :: sums[c] == Vector(d, Zeros(d), Unassigned) && kNumbers[c] == 0
    {
      sums[i] := CreateVector(d, None);
      kNumbers[i] := 0;
    }

    for j := 0 to n
      invariant forall c | 0 <= c < k :: sums[c] == Vector(d, ClusterSum(points[..j], c, d), Unassigned)
      invariant forall c | 0 <= c < k :: kNumbers[c] == Count(points[..j], c)
    {
      assert points[..j + 1][..j] == points[..j];
      var currentVector := points[j];
      var centroidIndex := currentVector.centroid;
      sums[centroidIndex] := Add(currentVector, sums[centroidIndex]);
      kNumbers[centroidIndex] := kNumbers[centroidIndex] + 1;
    }
  }

  /**
   * The second pass of `updateCentroids`: each accumulator with a non-zero
   * counter is scaled by one over it, leaving the mean of its cluster.
   */
  method Scale(sums: array<Vector>, kNumbers: array<int>, ghost labelled: seq<Vector>, d: nat)
    requires sums.Length == kNumbers.Length
    requires Shaped(labelled, d)
    requires forall c | 0 <= c < sums.Length :: sums[c] == Vector(d, ClusterSum(labelled, c, d), Unassigned)
    requires forall c | 0 <= c < kNumbers.Length :: kNumbers[c] == Count(labelled, c)
    modifies sums
    ensures forall c | 0 <= c < sums.Length :: sums[c] == Vector(d, ClusterMean(labelled, c, d), Unassigned)
  {
    for l := 0 to sums.Length
      invariant forall c | 0 <= c < l :: sums[c] == Vector(d, ClusterMean(labelled, c, d), Unassigned)
      invariant forall c | l <= c < sums.Length :: sums[c] == Vector(d, ClusterSum(labelled, c, d), Unassigned)
    {
      if kNumbers[l] != 0 {
        sums[l] := MultiplyScalar(sums[l], Reciprocal(kNumbers[l]));
      }
    }
  }

  /**
   * `updateCentroids(vectorList, n, d, k)`: the centroid set computed from
   * the labels of the first `n` points. Every label must index one of the
   * `k` accumulators, as the C code uses it as an array index.
   */
  method UpdateCentroids(points: array<Vector>, n: nat, d: nat, k: nat) returns (updatedCentroidsList: seq<Vector>)
    requires n <= points.Length
    requires Shaped(points[..n], d)
    requires LabelsIn(points[..n], k)
    ensures updatedCentroidsList == Updated(points[..n], d, k)
  {
    var sums, kNumbers := Accumulate(points, n, d, k);
    Scale(sums, kNumbers, points[..n], d);
    updatedCentroidsList := sums[..];
  }
}
