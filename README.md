# Lloyd's k-means, four C copies

This project models the clustering engine of a course project that implements Lloyd's k-means in C. The same engine appears, nearly copied, in four files:

- `kmeans.c`;
- `kmean_pp@C/kmeans.c`;
- `kmean_pp@C/kmeansmoudle.c`;
- `kmeans_pp@py/kmeans.c`, the C side of a Python extension.

All four share `vector.h`.

The engine works in rounds:

- `computeMinDistance` labels each point, in place, with its nearest centroid. The scan uses a strict `<`, so the lowest index wins a tie.
- `updateCentroids` sums each cluster into a zero accumulator, counts its points, and scales each sum by one over its count. An empty cluster stays the zero vector.
- `isConverged` compares the old and new sets component by component, exactly.
- `Kmeans` runs at most `maxIter` rounds. It keeps the current set on convergence and otherwise adopts the updated one.

The copies differ as follows:

| copy | running minimum starts at | validation | non-positive `maxIter` | initial set | result |
|---|---|---|---|---|---|
| `kmeans.c` | `INFINITY` | `testValidation` | becomes 200 | first `k` points | printed |
| `kmean_pp@C/kmeans.c` | `INF = 999999999999` | `testValidation` | becomes 200 | first `k` points | printed |
| `kmean_pp@C/kmeansmoudle.c` | `INF` | none | no round runs | first `k` points | printed |
| `kmeans_pp@py/kmeans.c` | `INF` | none | becomes 200 | from the caller | returned; `eps` ignored |

Modules:

- `Vectors` (`vectors.dfy`): the `Vector` record of `vector.h`, `createVector`, `add`, `multiplyScalar` and the squared Euclidean distance.
- `Validation` (`validation.dfy`): `testValidation`, the 200 default, and the error kinds.
- `Assignment` (`assignment.dfy`): the nearest-centroid scan.
  - `Nearest` is the specification of the scan.
  - `IsFirstNearest` is the property it must have.
  - `ClosestCentroid` and `ComputeMinDistance` are the loops, which update labels in an `array<Vector>`.
  - The start of the running minimum is a `Bound`: `Infinity`, or `Finite(INF * INF)` for the sentinel copies.
- `Update` (`update.dfy`): the cluster counts, sums and means (`Count`, `ClusterSum`, `ClusterMean`, `Updated`), and the three loops of `updateCentroids`.
- `Convergence` (`convergence.dfy`): `isConverged` as a nested loop, proved against the predicate `Converged`.
- `Clustering` (`clustering.dfy`): `initializeCentroids`, one round (`Lloyd`), and the bounded loop.
  - `Iterated` is written for any round function.
  - `Run` is that loop with Lloyd's round.
  - The method `Iterate` is the C loop, proved equal to the run.
- `KmeansC`, `KmeanPpC`, `KmeansModule`, `KmeansPpPy`: one driver per copy. Each driver has:
  - `Clusters`, the set the program ends with, or the reason it has none;
  - `Labelled`, the points after the run;
  - `Kmeans`, the method proved to produce both.

Where the C code would index outside an array, the model does not let execution go on. The C code has undefined behaviour in these cases:

- a label of -1 reaches `updateCentroids`;
- `k` exceeds the number of points in `kmeansmoudle.c`.

The model returns `Failure(IndexOutOfRange)` instead, in two different places:

- For a -1 label, the round checks the labels before the update and stops the run with `LabelOutOfRange`. The C code has no such check; this is where its behaviour becomes undefined.
- For `k` greater than the number of points, the `kmeansmoudle.c` driver refuses the parameters before any round runs, where `initializeCentroids` would read past the points. No round runs and `LabelOutOfRange` does not arise.

## Model

| member | source | states |
|---|---|---|
| Vectors.CreateVector | vector.h:11 | `createVector(d, values)` gives a well-formed unassigned vector of dimension `d`. Its components are `values`, or all zero for NULL. |
| Vectors.SquaredDistance | vector.h:14 | The distance compared in the scan is never negative. |
| Vectors.SquaredDistanceZero | vector.h:14 | The distance is zero exactly when the two vectors coincide. |
| Vectors.SquaredDistanceSymmetric | vector.h:14 | The distance does not depend on the order of its arguments. |
| Vectors.AddZero | vector.h:11-12 | Adding the NULL-created accumulator gives back the components of the added vector. |
| Vectors.Add | vector.h:12 | `add` returns a fresh unassigned vector of the first operand's dimension, whose components are the component-wise sums. |
| Vectors.MultiplyScalar | vector.h:13 | `multiplyScalar` returns a fresh unassigned vector of the same dimension, whose components are each multiplied by the scalar. |
| Vectors.MultiplyScalarComposes | vector.h:13 | Scaling by one changes no component. Scaling by `s` and then by `t` is scaling by `s * t`. |
| Vectors.MultiplyScalarDistributes | vector.h:12-13 | Scaling a sum gives the sum of the scaled vectors. |
| Vectors.AddCommutes | vector.h:12 | `add` is component-wise, so the order of its operands does not matter. |
| Validation.TestValidation | kmeans.c:25-52 | Accepts exactly `1 < k < n`, `d >= 1` and `1 < maxIter < 1000`. The `n < 1` branch can never decide. |
| Validation.DefaultMaxIter | kmeans.c:220-221 | A non-positive bound becomes 200. A positive bound is kept. |
| Validation.DefaultPassesIterationCheck | kmeans.c:220-224 | The defaulted bound always passes the iteration check, so only `k`, `n` and `d` can refuse it. |
| Assignment.Nearest | kmeans.c:138-150 | The scan yields -1 or an index in `[0, k)`. |
| Assignment.NearestIsFirstNearest | kmeans.c:138-150 | The scan yields -1 exactly when no centroid beats the start. Otherwise it yields a centroid that beats the start, is at least as close as every centroid, and is strictly closer than every lower index. |
| Assignment.NearestIsTheOnlyAnswer | kmeans.c:143-150 | That property has exactly one solution, the scan's result. |
| Assignment.InfinityLabelsInRange | kmeans.c:139-150 | Starting at infinity with `k >= 1`, every label is in `[0, k)`. |
| Assignment.FiniteStartAgreesWithInfinity | kmean_pp@C/kmeans.c:123-135 | With a finite start, a point that some centroid beats the sentinel for gets the same label as with infinity. A point that no centroid beats it for keeps -1. |
| Assignment.CoincidentCentroidWins | kmeans.c:143-150 | A centroid at distance zero with no lower coincident centroid is the label. |
| Assignment.AssignLabelsNearest | kmeans.c:136-155 | The labelling pass keeps every point's dimension and components and gives it its first nearest centroid. |
| Assignment.AssignIdempotent | kmeans.c:136-155 | Labelling twice against the same centroids changes nothing. |
| Assignment.ClosestCentroid | kmeans.c:139-150 | The inner loop ends with the first nearest centroid that beats the start, or -1. |
| Assignment.ComputeMinDistance | kmeans.c:136-155 | Each of the first `n` points gets the scan's label. Nothing else in the array changes. |
| Update.UpdatedShape | kmeans.c:160-201 | The update returns `k` vectors of dimension `d`. |
| Update.CountIsMembers | kmeans.c:181-188 | Counter `j` is the number of points labelled `j`. |
| Update.CountsCoverAllPoints | kmeans.c:181-188 | With every label in `[0, k)`, the counters add up to the number of points. |
| Update.EmptyClusterSum | kmeans.c:176-188 | The accumulator of an empty cluster stays the zero vector. |
| Update.EmptyClusterIsOrigin | kmeans.c:191-195 | An empty cluster's centroid is the zero vector. |
| Update.MeanComponent | kmeans.c:191-195 | A non-empty cluster's centroid component is the sum's component scaled by one over the count. |
| Update.MeanIsAverage | kmeans.c:191-195 | A non-empty cluster's centroid component is the sum's component divided by the count, that is, the mean. |
| Update.IdenticalMembersSum | kmeans.c:181-188 | If every member sits at `x`, the cluster sums to count times `x`. |
| Update.IdenticalMembersMean | kmeans.c:181-195 | If every member of a non-empty cluster sits at `x`, its centroid is `x`. |
| Update.Accumulate | kmeans.c:176-188 | After the first two loops, accumulator `j` holds the cluster sum and counter `j` holds the cluster count. |
| Update.Scale | kmeans.c:191-195 | After the third loop, every accumulator holds its cluster's mean, or the zero vector for an empty cluster. |
| Update.UpdateCentroids | kmeans.c:160-201 | The returned set is `Updated`, the `k` cluster means of the labelled points. |
| Convergence.IsConverged | kmeans.c:205-215 | Answers true exactly when every compared component of the old set equals the new one. |
| Convergence.ConvergedIffSameComponents | kmeans.c:205-215 | For two sets of `k` centroids of dimension `d`, convergence is equality of the components of every centroid. |
| Clustering.InitializeCentroids | kmeans.c:107-132 | Centroid `i` copies point `i`'s dimension and components and carries label `i`. The points are only read. |
| Clustering.FirstKFits | kmeans.c:116-129 | The first `k` points of dimension `d` give `k` centroids of dimension `d`. |
| Clustering.Lloyd | kmeans.c:243-258 | A round changes only labels. A replacing set again has `k` centroids of dimension `d`. A round never stops for lack of iterations. |
| Clustering.Clustered | kmeans.c:233-259 | The run from the first `k` points keeps the shapes, makes at most `fuel` rounds, and uses them all when it runs out. |
| Clustering.IteratedBounds | kmeans.c:239-259 | Any run keeps the shapes and the components. It makes at most `fuel` rounds: all of them when it runs out, and at least one when it stops. |
| Clustering.IteratedStops | kmeans.c:249-252 | A run that stops, stops on a round applied to the set it keeps. |
| Clustering.IteratedStep | kmeans.c:243-258 | A stopping round ends the run with the current set. A replacing round hands the updated set to the rest of the run. |
| Clustering.LloydConvergedIsFixedPoint | kmeans.c:243-252 | A round that converges leaves a fixed point. Each label is the first nearest kept centroid, and each kept centroid is its cluster's mean. |
| Clustering.ConvergedIsFixedPoint | kmeans.c:239-259 | A run that ends by convergence ends at such a fixed point. |
| Clustering.LloydInfinityLabelsInRange | kmeans.c:138-153 | Starting at infinity with `k >= 1`, a round never meets a bad label. |
| Clustering.InfinityNeverLeavesRange | kmeans.c:239-259 | Starting at infinity with `k >= 1`, a run never ends on a bad label. |
| Clustering.LloydStep | kmeans.c:242-258 | One pass of the loop body, in place, does what `Lloyd` says: same labels, same stop reason, same updated set. |
| Clustering.Iterate | kmeans.c:239-259 | The C loop ends with exactly the outcome of the run: labels, kept set, rounds and reason. |
| KmeansC.Clusters | kmeans.c:218-259 | Fails exactly when the defaulted parameters are refused, and then with `InvalidParameters`. Otherwise it always gives `k` centroids of dimension `d`. |
| KmeansC.Labelled | kmeans.c:218-259 | The points end with their components untouched. |
| KmeansC.EarlyStopIsFixedPoint | kmeans.c:249-252 | A run that stops before the bound stops at a fixed point of Lloyd's iteration. |
| KmeansC.Kmeans | kmeans.c:218-259 | The driver returns `Clusters` and leaves the points as `Labelled`. |
| KmeanPpC.Clusters | kmean_pp@C/kmeans.c:193-225 | Refused parameters give `InvalidParameters`, and only they do. A set, when given, has `k` centroids of dimension `d`. |
| KmeanPpC.Labelled | kmean_pp@C/kmeans.c:193-225 | The points end with their components untouched. |
| KmeanPpC.ConvergedRunIsFixedPoint | kmean_pp@C/kmeans.c:214-225 | A converged run ends at a fixed point with the finite start. |
| KmeanPpC.FarPointIsUnassigned | kmean_pp@C/kmeans.c:123-135 | For the points 0, 1 and 3e12 with `k = 2`, no centroid beats `INF` for the third point, which keeps -1. |
| KmeanPpC.FarPointBreaksTheRun | kmean_pp@C/kmeans.c:214-217 | Those valid parameters make this copy index the accumulators with -1. kmeans.c clusters the same input. |
| KmeanPpC.Kmeans | kmean_pp@C/kmeans.c:193-225 | The driver returns `Clusters` and leaves the points as `Labelled`. |
| KmeansModule.Clusters | kmean_pp@C/kmeansmoudle.c:170-191 | A negative `k` fails the allocation, and only it does. More centroids than points reads past the points. A set, when given, has `k` centroids of dimension `d`. |
| KmeansModule.Labelled | kmean_pp@C/kmeansmoudle.c:170-191 | The points end with their components untouched. |
| KmeansModule.NoRoundsWithoutBound | kmean_pp@C/kmeansmoudle.c:178-180 | With `maxIter <= 0` no round runs. The first `k` points come back, and the labels are untouched. |
| KmeansModule.NoClustersFail | kmean_pp@C/kmeansmoudle.c:100-111 | With `k = 0`, at least one point and one round, every label is -1 and the run fails. |
| KmeansModule.FarPointBreaksTheRun | kmean_pp@C/kmeansmoudle.c:98-111 | Take the points 0, 1 and 3e12, with `k = 2` and one round. The `INF` start leaves the far point with -1, and the run fails on the out-of-range index. |
| KmeansModule.ConvergedRunIsFixedPoint | kmean_pp@C/kmeansmoudle.c:180-191 | A converged run ends at a fixed point with the finite start. |
| KmeansModule.Kmeans | kmean_pp@C/kmeansmoudle.c:170-191 | The driver returns `Clusters` and leaves the points as `Labelled`. |
| KmeansPpPy.Clusters | kmeans_pp@py/kmeans.c:98-120 | The only failure is a bad label. A set, when given, has `k` centroids of dimension `d`. |
| KmeansPpPy.Labelled | kmeans_pp@py/kmeans.c:98-120 | The caller's points end with their components untouched. |
| KmeansPpPy.EpsIgnored | kmeans_pp@py/kmeans.c:98-120 | The result does not depend on `eps`. |
| KmeansPpPy.AlwaysRuns | kmeans_pp@py/kmeans.c:103-106 | Even with `maxIter <= 0` at least one round runs, and never more than the defaulted bound. |
| KmeansPpPy.FarPointBreaksTheRun | kmeans_pp@py/kmeans.c:25-38 | Start from the first two of the points 0, 1 and 3e12, with `k = 2`, for any `eps`. The `INF` start leaves the far point with -1, and the run fails on the out-of-range index. |
| KmeansPpPy.ConvergedRunIsFixedPoint | kmeans_pp@py/kmeans.c:106-119 | A converged run hands back a fixed point with the finite start. |
| KmeansPpPy.Kmeans | kmeans_pp@py/kmeans.c:98-120 | The function returns `Clusters` and leaves the caller's points as `Labelled`. |

## Left out

- Reading the points from a file (`convertToVectors`): the points are a parameter, and `n` is taken to be their number.
  - The model assumes the file has exactly `n` rows of exactly `d` values each.
  - The reader checks neither. It reads every line whatever `n` is (kmeans.c:75). It stores one component per token into `d` slots with no bound check (kmeans.c:79-90). It records the token count as `dimension` (kmeans.c:93).
  - Other input overruns its buffers, and that is not modelled.
  - The reader sets every label to 0 (kmeans.c:95). The model allows any initial labels, since the first round overwrites them all.
- `main`, command-line parsing, all printing, and the Python-binding files: they are I/O and glue, not clustering.
- Memory management:
  - `malloc`/`free` and leaks are not modelled, including the cleanup loop at kmean_pp@C/kmeans.c:232, which frees the same components repeatedly.
  - The only allocation failure modelled is a negative `k` in kmeansmoudle.c.
  - `malloc(0)` for `k = 0` is taken to succeed.
- IEEE doubles:
  - Components, sums and means are exact reals.
  - The reciprocal `1.0f / kNumbers[i]` is exact.
  - The counters are integers.
  - `INFINITY` is a separate bound value; NaN does not arise.
- `euclidean_distance`: its body (the `vector.c` included by kmeans.c) is not part of this model. The model compares squared distances, and the finite sentinel as `INF * INF`. The square root is strictly increasing on non-negative numbers, so every `<` decides the same way.
- `add` and `multiplyScalar`: their bodies are not part of this model either. They are modelled as returning fresh vectors with label -1, like `createVector`.
- The k-means++ seeding in the Python scripts: it is random sampling through numpy. The Python copy takes its initial set as a parameter instead.
- The empty `fit` stub at kmean_pp@C/kmeansmoudle.c:206-208: it has no body to model.

## Findings

| source | as written | input that shows it | evidently intended | confidence | as-written member | corrected member |
|---|---|---|---|---|---|---|
| kmean_pp@C/kmeans.c:124 | `minDistance = INF` with `INF = 999999999999`: a point farther than `INF` from every centroid keeps label -1, and `updateCentroids` then indexes its accumulators with -1 | points 0, 1 and 3e12 in one dimension, `k = 2`, `maxIter = 0`: the parameters pass validation, and the third point is left with -1 in the first round | start the running minimum at infinity, as kmeans.c does, so that every point gets a label in `[0, k)` | not executed | KmeanPpC.FarPointBreaksTheRun | Clustering.InfinityNeverLeavesRange |
| kmean_pp@C/kmeansmoudle.c:101 | `minDistance = INF` with `INF = 999999999999`: a point farther than `INF` from every centroid keeps label -1, and `updateCentroids` then indexes its accumulators with -1 | points 0, 1 and 3e12 in one dimension, `k = 2`, `maxIter = 1`: the third point is left with -1 in the first round | start the running minimum at infinity, as kmeans.c does, so that every point gets a label in `[0, k)` | not executed | KmeansModule.FarPointBreaksTheRun | Clustering.InfinityNeverLeavesRange |
| kmeans_pp@py/kmeans.c:28 | `minDistance = INF` with `INF = 999999999999`: a point farther than `INF` from every centroid keeps label -1, and `updateCentroids` then indexes its accumulators with -1 | points 0, 1 and 3e12 in one dimension, the first two as the initial set, `k = 2`, `maxIter = 0`: the third point is left with -1 in the first round | start the running minimum at infinity, as kmeans.c does, so that every point gets a label in `[0, k)` | not executed | KmeansPpPy.FarPointBreaksTheRun | Clustering.InfinityNeverLeavesRange |
