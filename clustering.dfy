/**
 * The clustering loop shared by every copy of `Kmeans`: the initial
 * centroid set, then rounds of labelling, updating and the convergence
 * test, bounded by the iteration count.
 */
module Clustering {
  import opened Vectors
  import opened Assignment
  import opened Update
  import Convergence
  import opened Wrappers
  import opened Validation

  /** The centroid set `initializeCentroids` builds: centroid `i` is a copy of point `i`, labelled `i`. */
  function FirstK(points: seq<Vector>, k: nat): seq<Vector>
    requires k <= |points|
  {
    seq(k, i requires 0 <= i < k => Vector(points[i].dimension, points[i].components, i))
  }

  /**
   * `initializeCentroids(vectorList, k)`: copies the dimension and the
   * components of each of the first `k` points into a new centroid, which
   * carries its own index as label. The points are only read.
   */
  method InitializeCentroids(points: array<Vector>, k: nat) returns (centroidList: seq<Vector>)
    requires k <= points.Length
    requires forall i | 0 <= i < k :: WellFormed(points[i])
    ensures centroidList == FirstK(points[..], k)
    ensures forall i | 0 <= i < k ::
      && centroidList[i].dimension == points[i].dimension
      && centroidList[i].components == points[i].components
      && centroidList[i].centroid == i
  {
    var list := new Vector[k];
    for i := 0 to k
      invariant forall m | 0 <= m < i :: list[m] == Vector(points[m].dimension, points[m].components, m)
    {
      // memcpy of `dimension` components
      list[i] := Vector(points[i].dimension, points[i].components[..points[i].dimension], i);
    }
    centroidList := list[..];
  }

  /** The first `k` points of dimension `d` give `k` centroids of dimension `d`. */
  lemma FirstKFits(points: seq<Vector>, k: nat, d: nat)
    requires k <= |points| && Shaped(points, d)
    ensures Fits(points, FirstK(points, k), k, d)
  {
  }

  /** How a run ends. `LabelOutOfRange` is where the C code would index an accumulator with a label outside `[0, k)`. */
  datatype Terminal = ConvergedStop | MaxIterReached | LabelOutOfRange

  /** The state at the end of a run: the points with their last labels, the kept centroid set, and the rounds begun. */
  datatype Outcome = Outcome(points: seq<Vector>, centroids: seq<Vector>, rounds: nat, terminal: Terminal)

  /** What one round of the loop body leaves: the loop stops, or the updated set replaces the current one. */
  datatype Round = Stopped(points: seq<Vector>, terminal: Terminal) | Replaced(points: seq<Vector>, centroids: seq<Vector>)

  /** The number of rounds `for (iter = 0; iter < maxIter; iter++)` allows. */
  function Fuel(maxIter: int): nat {
    if maxIter <= 0 then 0 else maxIter
  }

  /** The points differ at most in their labels. */
  predicate SameComponents(a: seq<Vector>, b: seq<Vector>) {
    |a| == |b| && forall i | 0 <= i < |a| :: a[i].dimension == b[i].dimension && a[i].components == b[i].components
  }

  /** Points of dimension `d` and `k` centroids of dimension `d`. */
  predicate Fits(points: seq<Vector>, centroids: seq<Vector>, k: nat, d: nat) {
    Shaped(points, d) && Shaped(centroids, d) && |centroids| == k
  }

  /**
   * What every round guarantees: it changes only the labels of the points,
   * a replacing set again has `k` centroids of dimension `d`, and a round
   * never stops for lack of iterations.
   */
  predicate Keeps(points: seq<Vector>, r: Round, k: nat, d: nat) {
    && SameComponents(r.points, points)
    && (r.Replaced? ==> Shaped(r.centroids, d) && |r.centroids| == k)
    && (r.Stopped? ==> r.terminal != MaxIterReached)
  }

  /** A round function that may be applied to every fitting state and keeps the shapes. */
  ghost predicate Sound(round: (seq<Vector>, seq<Vector>) --> Round, k: nat, d: nat) {
    forall p, c | Fits(p, c, k, d) :: round.requires(p, c) && Keeps(p, round(p, c), k, d)
  }

  /** One labelling pass keeps the points' shape and components. */
  lemma AssignShape(points: seq<Vector>, centroids: seq<Vector>, k: nat, d: nat, start: Bound)
    requires Fits(points, centroids, k, d)
    ensures AllMeasurable(points, centroids, k)
    ensures Shaped(Assign(points, centroids, k, start), d)
    ensures SameComponents(Assign(points, centroids, k, start), points)
  {
  }

  lemma SameComponentsShaped(a: seq<Vector>, b: seq<Vector>, d: nat)
    requires SameComponents(a, b) && Shaped(b, d)
    ensures Shaped(a, d)
  {
  }

  /**
   * The body of the loop of `Kmeans`: `computeMinDistance` labels the
   * points, `updateCentroids` computes the updated set, and `isConverged`
   * compares it with the current one.
   */
  function Lloyd(points: seq<Vector>, centroids: seq<Vector>, k: nat, d: nat, start: Bound): (r: Round)
    requires Fits(points, centroids, k, d)
    ensures Keeps(points, r, k, d)
  {
    AssignShape(points, centroids, k, d, start);
    var labelled := Assign(points, centroids, k, start);
    if !LabelsIn(labelled, k) then Stopped(labelled, LabelOutOfRange)
    else
      UpdatedShape(labelled, d, k);
      var updated := Updated(labelled, d, k);
      if Convergence.Converged(centroids, updated, k) then Stopped(labelled, ConvergedStop)
      else Replaced(labelled, updated)
  }

  /** `Lloyd` as a value, for the iteration below. */
  function LloydRound(k: nat, d: nat, start: Bound): (round: (seq<Vector>, seq<Vector>) --> Round)
    ensures Sound(round, k, d)
  {
    (p: seq<Vector>, c: seq<Vector>) requires Fits(p, c, k, d) => Lloyd(p, c, k, d, start)
  }

  /** `round` is `Lloyd` on every fitting state. */
  ghost predicate Implements(round: (seq<Vector>, seq<Vector>) --> Round, k: nat, d: nat, start: Bound) {
    forall p, c {:trigger Lloyd(p, c, k, d, start)} | Fits(p, c, k, d) ::
      round.requires(p, c) && round(p, c) == Lloyd(p, c, k, d, start)
  }

  lemma LloydRoundImplements(k: nat, d: nat, start: Bound)
    ensures Implements(LloydRound(k, d, start), k, d, start)
  {
  }

  /**
   * `fuel` more rounds at most, after `done` rounds already made: a
   * stopping round ends the run with the current set kept; a replacing
   * round goes on with the updated set.
   */
  function Iterated(round: (seq<Vector>, seq<Vector>) --> Round, k: nat, d: nat,
                    points: seq<Vector>, centroids: seq<Vector>, fuel: nat, done: nat): Outcome
    requires Sound(round, k, d) && Fits(points, centroids, k, d)
    decreases fuel, 1
  {
    if fuel == 0 then Outcome(points, centroids, done, MaxIterReached)
    else Proceed(round, k, d, points, centroids, fuel, done)
  }

  /** The round on `points` and `centroids`, `fuel` counting it: stop, or go on with the updated set. */
  function Proceed(round: (seq<Vector>, seq<Vector>) --> Round, k: nat, d: nat,
                   points: seq<Vector>, centroids: seq<Vector>, fuel: nat, done: nat): Outcome
    requires Sound(round, k, d) && Fits(points, centroids, k, d) && fuel > 0
    decreases fuel, 0
  {
    var r := round(points, centroids);
    SameComponentsShaped(r.points, points, d);
    match r
    case Stopped(labelled, terminal) => Outcome(labelled, centroids, done + 1, terminal)
    case Replaced(labelled, updated) => Iterated(round, k, d, labelled, updated, fuel - 1, done + 1)
  }

  /**
   * What a copy of `Kmeans` hands back at the end of a run: the kept set,
   * unless the run stopped where the C code would index outside the
   * accumulators.
   */
  function Finish(o: Outcome): Result<seq<Vector>, Error> {
    if o.terminal == LabelOutOfRange then Failure(IndexOutOfRange) else Success(o.centroids)
  }

  /** The clustering loop: at most `fuel` rounds of `Lloyd`. */
  function Run(points: seq<Vector>, centroids: seq<Vector>, k: nat, d: nat, start: Bound, fuel: nat, done: nat): Outcome
    requires Fits(points, centroids, k, d)
  {
    Iterated(LloydRound(k, d, start), k, d, points, centroids, fuel, done)
  }

  /** The run every copy but the Python one makes: from the first `k` points, at most `fuel` rounds. */
  function Clustered(points: seq<Vector>, k: nat, d: nat, start: Bound, fuel: nat): (o: Outcome)
    requires k <= |points| && Shaped(points, d)
    ensures Fits(o.points, o.centroids, k, d) && SameComponents(o.points, points)
    ensures o.rounds <= fuel
    ensures o.terminal == MaxIterReached ==> o.rounds == fuel
  {
    FirstKFits(points, k, d);
    IteratedBounds(LloydRound(k, d, start), k, d, points, FirstK(points, k), fuel, 0);
    Run(points, FirstK(points, k), k, d, start, fuel, 0)
  }

  /**
   * A run keeps `k` centroids of dimension `d`, changes only the points'
   * labels, and makes at most `fuel` rounds; it runs out of rounds exactly
   * when it makes all `fuel` of them without stopping.
   */
  lemma {:induction false} IteratedBounds(round: (seq<Vector>, seq<Vector>) --> Round, k: nat, d: nat,
                                          points: seq<Vector>, centroids: seq<Vector>, fuel: nat, done: nat)
    requires Sound(round, k, d) && Fits(points, centroids, k, d)
    ensures var o := Iterated(round, k, d, points, centroids, fuel, done);
      && Fits(o.points, o.centroids, k, d)
      && SameComponents(o.points, points)
      && done <= o.rounds <= done + fuel
      && (o.terminal == MaxIterReached ==> o.rounds == done + fuel)
      && (o.terminal != MaxIterReached ==> o.rounds >= done + 1)
    decreases fuel
  {
    if fuel > 0 {
      var r := round(points, centroids);
      SameComponentsShaped(r.points, points, d);
      if r.Replaced? {
        IteratedBounds(round, k, d, r.points, r.centroids, fuel - 1, done + 1);
      }
    }
  }

  /** A run that stops, stops on a round applied to the set it keeps. */
  lemma {:induction false} IteratedStops(round: (seq<Vector>, seq<Vector>) --> Round, k: nat, d: nat,
                                         points: seq<Vector>, centroids: seq<Vector>, fuel: nat, done: nat)
    requires Sound(round, k, d) && Fits(points, centroids, k, d)
    ensures var o := Iterated(round, k, d, points, centroids, fuel, done);
      o.terminal != MaxIterReached ==>
        exists p | Fits(p, o.centroids, k, d) :: round(p, o.centroids) == Stopped(o.points, o.terminal)
    decreases fuel
  {
    if fuel > 0 {
      var r := round(points, centroids);
      SameComponentsShaped(r.points, points, d);
      if r.Replaced? {
        IteratedStops(round, k, d, r.points, r.centroids, fuel - 1, done + 1);
      }
    }
  }

  /**
   * A fixed point of Lloyd's iteration: every label is a cluster index, each
   * point is labelled with its first nearest centroid, and each centroid is,
   * component for component, the mean of its cluster (the origin for an
   * empty cluster).
   */
  predicate FixedPoint(points: seq<Vector>, centroids: seq<Vector>, k: nat, d: nat, start: Bound)
    requires Fits(points, centroids, k, d)
  {
    AssignShape(points, centroids, k, d, start);
    && LabelsIn(points, k)
    && points == Assign(points, centroids, k, start)
    && forall j | 0 <= j < k :: centroids[j].components == ClusterMean(points, j, d)
  }

  /**
   * A round that stops on convergence stops at a fixed point of Lloyd's
   * iteration, made of the relabelled points and the kept set.
   */
  lemma LloydConvergedIsFixedPoint(points: seq<Vector>, centroids: seq<Vector>, k: nat, d: nat, start: Bound)
    requires Fits(points, centroids, k, d)
    ensures var r := Lloyd(points, centroids, k, d, start);
      r == Stopped(r.points, ConvergedStop) ==>
        Fits(r.points, centroids, k, d) && FixedPoint(r.points, centroids, k, d, start)
  {
    AssignShape(points, centroids, k, d, start);
    var labelled := Assign(points, centroids, k, start);
    if LabelsIn(labelled, k) {
      UpdatedShape(labelled, d, k);
      var updated := Updated(labelled, d, k);
      if Convergence.Converged(centroids, updated, k) {
        AssignIdempotent(points, centroids, k, start);
        Convergence.ConvergedIffSameComponents(centroids, updated, k, d);
      }
    }
  }

  /** A run that ends by convergence ends at a fixed point of Lloyd's iteration. */
  lemma ConvergedIsFixedPoint(points: seq<Vector>, centroids: seq<Vector>, k: nat, d: nat, start: Bound, fuel: nat, done: nat)
    requires Fits(points, centroids, k, d)
    ensures var o := Run(points, centroids, k, d, start, fuel, done);
      o.terminal == ConvergedStop ==>
        Fits(o.points, o.centroids, k, d) && FixedPoint(o.points, o.centroids, k, d, start)
  {
    var round := LloydRound(k, d, start);
    IteratedBounds(round, k, d, points, centroids, fuel, done);
    IteratedStops(round, k, d, points, centroids, fuel, done);
    var o := Run(points, centroids, k, d, start, fuel, done);
    if o.terminal == ConvergedStop {
      var p :| Fits(p, o.centroids, k, d) && round(p, o.centroids) == Stopped(o.points, ConvergedStop);
      LloydConvergedIsFixedPoint(p, o.centroids, k, d, start);
    }
  }

  /** Starting each scan at infinity, with at least one centroid, a round never meets a bad label. */
  lemma LloydInfinityLabelsInRange(points: seq<Vector>, centroids: seq<Vector>, k: nat, d: nat)
    requires Fits(points, centroids, k, d) && k >= 1
    ensures Lloyd(points, centroids, k, d, Infinity).Replaced? || Lloyd(points, centroids, k, d, Infinity).terminal != LabelOutOfRange
  {
    AssignShape(points, centroids, k, d, Infinity);
    var labelled := Assign(points, centroids, k, Infinity);
    forall i | 0 <= i < |points|
      ensures 0 <= labelled[i].centroid < k
    {
      InfinityLabelsInRange(points[i].components, centroids, k);
    }
  }

  /** Starting each scan at infinity, with at least one centroid, a run never meets a bad label. */
  lemma InfinityNeverLeavesRange(points: seq<Vector>, centroids: seq<Vector>, k: nat, d: nat, fuel: nat, done: nat)
    requires Fits(points, centroids, k, d) && k >= 1
    ensures Run(points, centroids, k, d, Infinity, fuel, done).terminal != LabelOutOfRange
  {
    var round := LloydRound(k, d, Infinity);
    IteratedStops(round, k, d, points, centroids, fuel, done);
    var o := Run(points, centroids, k, d, Infinity, fuel, done);
    if o.terminal == LabelOutOfRange {
      var p :| Fits(p, o.centroids, k, d) && round(p, o.centroids) == Stopped(o.points, LabelOutOfRange);
      LloydInfinityLabelsInRange(p, o.centroids, k, d);
    }
  }

  /**
   * The body of the loop of `Kmeans`, in place: labels the points, stops
   * on a label outside `[0, k)`, then computes the updated set and stops if
   * it equals the current one. `stop` is the reason for stopping, if any;
   * otherwise `updatedCentroidsList` is the set that replaces the current one.
   */
  method LloydStep(points: array<Vector>, centroidList: seq<Vector>, k: nat, d: nat, start: Bound)
    returns (stop: Option<Terminal>, updatedCentroidsList: seq<Vector>)
    requires Fits(points[..], centroidList, k, d)
    modifies points
    ensures var r := Lloyd(old(points[..]), centroidList, k, d, start);
      && points[..] == r.points
      && (stop.Some? <==> r.Stopped?)
      && (r.Stopped? ==> stop.value == r.terminal)
      && (r.Replaced? ==> updatedCentroidsList == r.centroids)
  {
    ghost var before := points[..];
    ComputeMinDistance(points, centroidList, k, points.Length, start);
    assert points[..] == Assign(before, centroidList, k, start);
    if !(forall i | 0 <= i < points.Length :: 0 <= points[i].centroid < k) {
      return Some(LabelOutOfRange), [];
    }
    assert points[..points.Length] == points[..];
    updatedCentroidsList := UpdateCentroids(points, points.Length, d, k);
    var converged := Convergence.IsConverged(centroidList, updatedCentroidsList, k);
    if converged {
      return Some(ConvergedStop), updatedCentroidsList;
    }
    return None, updatedCentroidsList;
  }

  /** One more round: a stopping round ends the run, a replacing round hands on to the rest. */
  lemma IteratedStep(round: (seq<Vector>, seq<Vector>) --> Round, k: nat, d: nat,
                     points: seq<Vector>, centroids: seq<Vector>, fuel: nat, done: nat)
    requires Sound(round, k, d) && Fits(points, centroids, k, d) && fuel > 0
    ensures var r := round(points, centroids);
      && (r.Stopped? ==> Iterated(round, k, d, points, centroids, fuel, done) == Outcome(r.points, centroids, done + 1, r.terminal))
      && (r.Replaced? ==>
            Fits(r.points, r.centroids, k, d) &&
            Iterated(round, k, d, points, centroids, fuel, done) == Iterated(round, k, d, r.points, r.centroids, fuel - 1, done + 1))
  {
    SameComponentsShaped(round(points, centroids).points, points, d);
  }

  /**
   * The loop of `Kmeans`: at most `maxIter` rounds of `computeMinDistance`,
   * `updateCentroids` and `isConverged`; on convergence the current set is
   * kept, otherwise the updated set replaces it. The points' labels are
   * updated in place and their components are never written.
   */
  method Iterate(points: array<Vector>, init: seq<Vector>, k: nat, d: nat, maxIter: int, start: Bound,
                 ghost round: (seq<Vector>, seq<Vector>) --> Round)
    returns (centroidList: seq<Vector>, rounds: nat, terminal: Terminal)
    requires Sound(round, k, d) && Implements(round, k, d, start)
    requires Fits(points[..], init, k, d)
    modifies points
    ensures Iterated(round, k, d, old(points[..]), init, Fuel(maxIter), 0) == Outcome(points[..], centroidList, rounds, terminal)
  {
    centroidList := init;
    var iter := 0;
    while iter < maxIter
      invariant 0 <= iter <= Fuel(maxIter)
      invariant Fits(points[..], centroidList, k, d)
      invariant Iterated(round, k, d, old(points[..]), init, Fuel(maxIter), 0)
        == Iterated(round, k, d, points[..], centroidList, Fuel(maxIter) - iter, iter)
    {
      ghost var before := points[..];
      var stop, updatedCentroidsList := LloydStep(points, centroidList, k, d, start);
      IteratedStep(round, k, d, before, centroidList, Fuel(maxIter) - iter, iter);
      if stop.Some? {
        return centroidList, iter + 1, stop.value;
      }
      centroidList := updatedCentroidsList;
      iter := iter + 1;
    }
    return centroidList, iter, MaxIterReached;
  }
}
