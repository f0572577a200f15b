/**
 * Nearest-centroid labelling: `computeMinDistance`. For each point, a scan
 * over the k centroids keeps a running minimum and the index that reached
 * it; a centroid replaces the current one only when strictly closer, so the
 * lowest index wins a tie. Where the running minimum starts is the one
 * difference between the four copies of the code.
 */
module Assignment {
  import opened Vectors

  /** The running minimum distance: IEEE infinity, or a finite squared distance. */
  datatype Bound = Infinity | Finite(value: real)

  /** The finite sentinel `INF` of the three copies other than kmeans.c. */
  const INF: real := 999999999999.0

  /** Where those copies start the scan; distances are compared squared, so the sentinel is squared too. */
  const FiniteSentinel: Bound := Finite(INF * INF)

  /** `distance < minDistance`. */
  predicate Below(distance: real, min: Bound) {
    min.Infinity? || distance < min.value
  }

  /** The first `k` centroids can be measured against a point with components `x`. */
  predicate Measurable(x: seq<real>, centroids: seq<Vector>, k: nat) {
    k <= |centroids| && forall j | 0 <= j < k :: |centroids[j].components| == |x|
  }

  function Dist(x: seq<real>, centroids: seq<Vector>, j: nat): real
    requires j < |centroids| && |centroids[j].components| == |x|
  {
    SquaredDistance(x, centroids[j].components)
  }

  /**
   * What the scan must yield: `Unassigned` exactly when no centroid beats
   * the starting bound, and otherwise an index that beats it, is at least
   * as close as every centroid, and is strictly closer than every lower index.
   */
  predicate IsFirstNearest(x: seq<real>, centroids: seq<Vector>, k: nat, start: Bound, closest: int)
    requires Measurable(x, centroids, k)
  {
    if closest == Unassigned then
      forall j | 0 <= j < k :: !Below(Dist(x, centroids, j), start)
    else
      && 0 <= closest < k
      && Below(Dist(x, centroids, closest), start)
      && (forall j | 0 <= j < k :: Dist(x, centroids, closest) <= Dist(x, centroids, j))
      && (forall j | 0 <= j < closest :: Dist(x, centroids, closest) < Dist(x, centroids, j))
  }

  /** The index the scan over centroids `0 .. k-1` ends with. */
  function Nearest(x: seq<real>, centroids: seq<Vector>, k: nat, start: Bound): (closest: int)
    requires Measurable(x, centroids, k)
    ensures closest == Unassigned || 0 <= closest < k
  {
    if k == 0 then Unassigned
    else
      var best := Nearest(x, centroids, k - 1, start);
      var last := Dist(x, centroids, k - 1);
      if best == Unassigned then
        if Below(last, start) then k - 1 else Unassigned
      else if last < Dist(x, centroids, best) then k - 1
      else best
  }

  /** The scan meets its specification: it ends with the first nearest centroid that beats the start. */
  lemma {:induction false} NearestIsFirstNearest(x: seq<real>, centroids: seq<Vector>, k: nat, start: Bound)
    requires Measurable(x, centroids, k)
    ensures IsFirstNearest(x, centroids, k, start, Nearest(x, centroids, k, start))
  {
    if k > 0 {
      NearestIsFirstNearest(x, centroids, k - 1, start);
    }
  }

  /** The specification of the scan has exactly one solution, the one `Nearest` computes. */
  lemma NearestIsTheOnlyAnswer(x: seq<real>, centroids: seq<Vector>, k: nat, start: Bound, closest: int)
    requires Measurable(x, centroids, k)
    ensures IsFirstNearest(x, centroids, k, start, closest) <==> closest == Nearest(x, centroids, k, start)
  {
    NearestIsFirstNearest(x, centroids, k, start);
  }

  /** Starting from infinity with at least one centroid, every point gets a label in `[0, k)`. */
  lemma InfinityLabelsInRange(x: seq<real>, centroids: seq<Vector>, k: nat)
    requires Measurable(x, centroids, k) && k >= 1
    ensures 0 <= Nearest(x, centroids, k, Infinity) < k
  {
    assert Below(Dist(x, centroids, 0), Infinity);
  }

  /**
   * A finite start changes nothing for a point that some centroid beats it
   * for: the scan ends where a scan from infinity ends. Otherwise the point
   * stays unassigned.
   */
  lemma FiniteStartAgreesWithInfinity(x: seq<real>, centroids: seq<Vector>, k: nat, start: Bound)
    requires Measurable(x, centroids, k)
    ensures (exists j | 0 <= j < k :: Below(Dist(x, centroids, j), start)) ==>
      Nearest(x, centroids, k, start) == Nearest(x, centroids, k, Infinity)
    ensures (forall j | 0 <= j < k :: !Below(Dist(x, centroids, j), start)) ==>
      Nearest(x, centroids, k, start) == Unassigned
  {
    var closest := Nearest(x, centroids, k, start);
    NearestIsFirstNearest(x, centroids, k, start);
    if closest != Unassigned {
      assert IsFirstNearest(x, centroids, k, Infinity, closest);
      NearestIsTheOnlyAnswer(x, centroids, k, Infinity, closest);
    }
  }

  /** A centroid at distance zero, with no lower index at distance zero, is the label. */
  lemma CoincidentCentroidWins(x: seq<real>, centroids: seq<Vector>, k: nat, start: Bound, j: nat)
    requires Measurable(x, centroids, k) && j < k && Below(0.0, start)
    requires centroids[j].components == x
    requires forall i | 0 <= i < j :: centroids[i].components != x
    ensures Nearest(x, centroids, k, start) == j
  {
    forall i | 0 <= i < k
      ensures Dist(x, centroids, i) == 0.0 <==> i == j || centroids[i].components == x
    {
      SquaredDistanceZero(x, centroids[i].components);
    }
    assert IsFirstNearest(x, centroids, k, start, j);
    NearestIsTheOnlyAnswer(x, centroids, k, start, j);
  }

  /** Every point of `points` can be measured against the first `k` centroids. */
  predicate AllMeasurable(points: seq<Vector>, centroids: seq<Vector>, k: nat) {
    forall i | 0 <= i < |points| :: Measurable(points[i].components, centroids, k)
  }

  /** The points after the labelling pass: same dimensions and components, label replaced. */
  function Assign(points: seq<Vector>, centroids: seq<Vector>, k: nat, start: Bound): (labelled: seq<Vector>)
    requires AllMeasurable(points, centroids, k)
  {
    seq(|points|, i requires 0 <= i < |points| =>
      points[i].(centroid := Nearest(points[i].components, centroids, k, start)))
  }

  /** The labelling pass changes labels only, and gives each point its first nearest centroid. */
  lemma AssignLabelsNearest(points: seq<Vector>, centroids: seq<Vector>, k: nat, start: Bound)
    requires AllMeasurable(points, centroids, k)
    ensures var labelled := Assign(points, centroids, k, start);
      && |labelled| == |points|
      && forall i | 0 <= i < |points| ::
        && labelled[i].dimension == points[i].dimension
        && labelled[i].components == points[i].components
        && IsFirstNearest(points[i].components, centroids, k, start, labelled[i].centroid)
  {
    forall i | 0 <= i < |points|
      ensures IsFirstNearest(points[i].components, centroids, k, start, Nearest(points[i].components, centroids, k, start))
    {
      NearestIsFirstNearest(points[i].components, centroids, k, start);
    }
  }

  /** Labelling depends on components only, so labelling twice against the same centroids changes nothing. */
  lemma AssignIdempotent(points: seq<Vector>, centroids: seq<Vector>, k: nat, start: Bound)
    requires AllMeasurable(points, centroids, k)
    ensures AllMeasurable(Assign(points, centroids, k, start), centroids, k)
    ensures Assign(Assign(points, centroids, k, start), centroids, k, start) == Assign(points, centroids, k, start)
  {
  }

  /**
   * The inner loop of `computeMinDistance`: scan centroids `0 .. k-1`,
   * keeping the running minimum, which starts at `start`.
   */
  method ClosestCentroid(x: seq<real>, centroids: seq<Vector>, k: nat, start: Bound) returns (closestCentroidIndex: int)
    requires Measurable(x, centroids, k)
    ensures IsFirstNearest(x, centroids, k, start, closestCentroidIndex)
    ensures closestCentroidIndex == Nearest(x, centroids, k, start)
  {
    var minDistance := start;
    closestCentroidIndex := Unassigned;
    for j := 0 to k
      invariant closestCentroidIndex == Nearest(x, centroids, j, start)
      invariant minDistance ==
        if closestCentroidIndex == Unassigned then start
        else Finite(Dist(x, centroids, closestCentroidIndex))
    {
      var distance := SquaredDistance(x, centroids[j].components);
      if Below(distance, minDistance) {
        minDistance := Finite(distance);
        closestCentroidIndex := j;
      }
    }
    NearestIsFirstNearest(x, centroids, k, start);
  }

  /**
   * `computeMinDistance(vectorList, centroidsList, k, n)`: labels the first
   * `n` points in place with their first nearest centroid, starting each
   * scan at `start`. Nothing but those labels changes.
   */
  method ComputeMinDistance(points: array<Vector>, centroids: seq<Vector>, k: nat, n: nat, start: Bound)
    requires n <= points.Length
    requires forall i | 0 <= i < n :: Measurable(points[i].components, centroids, k)
    modifies points
    ensures forall i | 0 <= i < n ::
      points[i] == old(points[i]).(centroid := Nearest(old(points[i]).components, centroids, k, start))
    ensures forall i | n <= i < points.Length :: points[i] == old(points[i])
  {
    for i := 0 to n
      invariant forall m | 0 <= m < i ::
        points[m] == old(points[m]).(centroid := Nearest(old(points[m]).components, centroids, k, start))
      invariant forall m | i <= m < points.Length :: points[m] == old(points[m])
    {
      var closestCentroidIndex := ClosestCentroid(points[i].components, centroids, k, start);
      points[i] := points[i].(centroid := closestCentroidIndex);
    }
  }
}
