# DBSCAN draft — a Dafny model

This project models the two DBSCAN drafts of the repository: the C++ class
`DBSCAN` (`run`, `expandCluster`, `regionQuery`, plus the helper
`euclideanDistance`) and the Python function `dbscan` with its nested
`region_query` and `expand_cluster`.

The model follows what the code does, and that is not textbook DBSCAN. In
both drafts the branch of the expansion loop that would query a neighbour
and append that neighbour's neighbours can never be taken. In C++ the guard
tests for `-1` or `0` right after a `-1` label was replaced by the positive
`clusterID`. At that point the label is either that id or an id some earlier
seed already gave the point, so the test fails. In Python the branch is the
`elif` of a `-1` test, and it requires a label of `0`, which never occurs.
So a cluster is a seed plus those of the seed's neighbours that were still
unlabelled when the seed was visited. The drafts compute this
labelling:

- point `j` is a *seed* when it has at least `minPts` neighbours (itself
  included, since its distance to itself is 0) and no earlier seed has it
  in its neighbourhood;
- the `t`-th seed (counting from 0) gets the id `base + t + 1`, where
  `base` is the engine's cluster counter before the run;
- every other point gets the id of the first seed whose neighbourhood
  contains it, or `-1` (noise) when there is none.

Module layout:

- `Region` (region.dfy): the neighbour scan shared by both engines.
- `Euclid` (euclid.dfy): the Euclidean neighbour test, with the square
  root removed.
- `Clustering` (clustering.dfy): the declarative labelling above (`IsSeed`,
  `SeedsBelow`, `FirstNear`, `LabelAfter`, `Labels`) and its properties.
- `DbscanCpp` (dbscan_cpp.dfy): the C++ engine as methods. It keeps the
  `size_t` conversion of `minPts` and the cluster counter that `run` does
  not reset.
- `DbscanPy` (dbscan_py.dfy): the Python engine as methods.
- `Engines` (engines.dfy): when the two engines agree.
- `Scenarios` (scenarios.dfy): the example driver's data set, and a
  three-point chain that shows the missing transitive expansion.

The engines are generic over the point type and take the neighbour test
`near(p, q)` as a parameter. The parameter stands for "distance from `p` to
`q` is at most `eps`". `Euclid.Near(eps)` is the concrete test on
coordinate sequences, and the scenarios use it. `Euclid.Within(eps, p, q)`
is the comparison `euclideanDistance(p, q) <= eps` at DBSCAN-draft.cpp:76
and the comparison `norm(p - q) <= eps` at DBSCAN-draft.py:23, with the
square root removed.

The C++ object fixes `eps` when it is constructed (DBSCAN-draft.cpp:20).
`DbscanCpp.Run` instead takes `near` on every call, so the model can run
one object at different radii where the C++ object cannot. Every property
holds for whichever `near` is passed. `DbscanCpp.FreshRun` captures the
driver's usage: construct once, run once.

The C++ counter `clusterID` is a member of the object. `run` does not reset
it, so a second `run` on the same object continues numbering where the first
one stopped. `DbscanCpp.Run` takes and returns that state.
`Run` requires a non-negative counter. Every object meets this: the constructor sets the counter to 0, and
`Run` only increases it. The requirement matters because the proof that the
`== 0` test in the expansion loop never fires relies on no label being 0.
The Python counter is local and starts at 0 on every call.

## Model

| member | source | states |
|---|---|---|
| Euclid.SqDist | DBSCAN-draft.cpp:9-15 | the sum of squared coordinate differences of two equal-dimension points; never negative |
| Euclid.SqrtFree | DBSCAN-draft.cpp:9-15 | for a non-negative root `d` of the squared sum `s`, `d <= eps` holds exactly when `0 <= eps` and `s <= eps*eps`, so the neighbour test can skip the square root |
| Euclid.SqDistSymmetric | DBSCAN-draft.cpp:9-15 | the squared distance does not depend on the order of the two points |
| Euclid.SqDistZero | DBSCAN-draft.cpp:9-15 | the squared distance of two equal-dimension points is 0 exactly when the points are equal |
| Euclid.NearIsReflexive | DBSCAN-draft.cpp:76 | with `eps >= 0` every point is within `eps` of itself, so each point is in its own neighbour list |
| Euclid.NearIsSymmetric | DBSCAN-draft.py:23 | the neighbour relation at any radius is symmetric |
| Region.NeighboursBelow | DBSCAN-draft.cpp:73-81 | the scan over the first `k` indices yields an ascending list of indices below `k` that contains an index exactly when that point is a neighbour |
| DbscanCpp.RegionQuery | DBSCAN-draft.cpp:73-81 | the loop returns the ascending list of exactly those indices whose point is within `eps` of point `pointIdx`; that point itself is included when it is near itself |
| DbscanCpp.ExpandCluster | DBSCAN-draft.cpp:48-70 | the seed gets `clusterID`; every listed neighbour that was `-1` gets `clusterID` and every other label is kept; the neighbour list comes back unchanged because the extending branch is unreachable; all labels stay `-1` or in `1..clusterID` |
| DbscanCpp.SizeT | DBSCAN-draft.cpp:30 | the `int` threshold converted to a 64-bit `size_t`: unchanged when non-negative, increased by 2^64 when negative |
| DbscanCpp.NewDbscan | DBSCAN-draft.cpp:20 | a new engine keeps `minPts` and starts its cluster counter at 0 |
| DbscanCpp.Visit | DBSCAN-draft.cpp:26-36 | one pass of the main loop moves the loop state from "indices below `i` visited" to "indices below `i+1` visited" in the declarative labelling |
| DbscanCpp.Run | DBSCAN-draft.cpp:23-39 | `run` returns one label per point, equal to the declarative labelling from base `clusterID` with threshold `size_t(minPts)`; the counter grows by the number of seeds; every label is `-1` or an id handed out by this run |
| DbscanCpp.FreshRun | DBSCAN-draft.cpp:96-97 | a newly constructed engine run once returns the declarative labelling from base 0; its counter ends at the number of clusters, and every label is `-1` or in `1..counter` |
| DbscanPy.RegionQuery | DBSCAN-draft.py:19-25 | the `enumerate` loop returns the ascending list of exactly those indices within `eps` of point `point_idx` |
| DbscanPy.ExpandCluster | DBSCAN-draft.py:27-41 | the seed and every listed neighbour still `-1` get `cluster_id` and all other labels are kept; the `elif == 0` arm is unreachable, so the list is unchanged |
| DbscanPy.Visit | DBSCAN-draft.py:43-51 | one pass of the `for point_idx` loop advances the loop state by one index |
| DbscanPy.Dbscan | DBSCAN-draft.py:3-53 | `dbscan` returns one label per point, equal to the declarative labelling from base 0 with threshold `minPts`; every label is `-1` or an id in `1..number of seeds` |
| Clustering.FirstNear | DBSCAN-draft.cpp:55-57 | the position of the first seed whose neighbourhood contains point `j`, or -1: that seed is near `j` and no earlier one is |
| Clustering.SeedsBelow | DBSCAN-draft.cpp:26-35 | the seeds among the first `k` indices are ascending and below `k`, and an index is among them exactly when it is a seed |
| Clustering.VisitSeed | DBSCAN-draft.cpp:27-33 | visiting index `k` makes it a seed exactly when its label is still `-1` and it has at least `minPts` neighbours |
| Clustering.VisitLabel | DBSCAN-draft.cpp:48-57 | visiting a seed `k` gives the new id to `k` and to every neighbour of `k` still labelled `-1`; every other label stays as it was |
| Clustering.SkipStep | DBSCAN-draft.cpp:27-31 | skipping a labelled point, or marking a point with too few neighbours as `-1`, leaves the loop state valid for the next index |
| Clustering.SeedStep | DBSCAN-draft.cpp:32-35 | opening cluster `clusterID + 1` at an unlabelled core point and expanding it gives the loop state for the next index |
| Clustering.ReachedValid | DBSCAN-draft.cpp:59 | during the run every label is `-1` or an id between `base + 1` and the current counter, and never 0 |
| Clustering.LabelRange | DBSCAN-draft.cpp:24-35 | every label after visiting `k` indices is noise or an id between `base + 1` and `base` plus the number of seeds so far |
| Clustering.ClaimsAreFinal | DBSCAN-draft.cpp:27 | once a point carries a cluster id, no later visit changes it |
| Clustering.SeedRank | DBSCAN-draft.cpp:33 | the `t`-th seed is preceded by exactly `t` seeds |
| Clustering.SeedIds | DBSCAN-draft.cpp:33-34 | the `t`-th seed ends with id `base + t + 1`, and every id from `base + 1` to `base + number of seeds` appears among the labels |
| Clustering.BorderJoinsFirstSeed | DBSCAN-draft.cpp:55-57 | a point that is not a seed carries the id of the first seed whose neighbourhood contains it, the same label as that seed |
| Clustering.NoiseIff | DBSCAN-draft.cpp:30-31 | a final label is `-1` exactly when the point is not a seed and lies in no seed's neighbourhood |
| Clustering.IsolatedIsNoise | DBSCAN-draft.cpp:30-31 | with `minPts > 1`, a point that has no other point as neighbour in either direction ends as noise |
| Clustering.CoreIsClustered | DBSCAN-draft.cpp:27-34 | a point with at least `minPts` neighbours never ends as noise |
| Clustering.FewPointsAllNoise | DBSCAN-draft.cpp:30-31 | when `minPts` exceeds the number of points there are no seeds and every label is `-1` |
| Engines.CppNegativeMinPtsAllNoise | DBSCAN-draft.cpp:30 | with a negative `int` `minPts`, the C++ comparison against `size_t` finds no core point and labels every point noise |
| Engines.PyNonPositiveMinPtsNoNoise | DBSCAN-draft.py:47 | with `minPts <= 0`, every point of the Python run ends in a cluster |
| Engines.EnginesAgreeIff | DBSCAN-draft.py:47 | on a fresh engine and non-empty data, the C++ and Python labellings are equal exactly when `minPts >= 0` |
| Scenarios.DriverExample | DBSCAN-draft.cpp:86-97 | the example driver (eps 2.0, minPts 2) gets the labels `[1, 1, 1, 2, 2, -1, 2, 2]` |
| Scenarios.ShapeLabels | DBSCAN-draft.py:58-68 | any eight points whose neighbourhoods look like the driver's get the same labels |
| Scenarios.ChainIsSplit | DBSCAN-draft.cpp:59-66 | the points 0, 1 and 2 on a line with eps 1 and minPts 2 get `[1, 1, 2]`, although points 1 and 2 are neighbours: clusters do not grow transitively |

## Left out

- The printing drivers (`main` and the `__main__` block) are left out as I/O. Their data set and parameters appear only in `Scenarios.DriverExample`.
- Floating-point arithmetic is left out. Coordinates are exact reals, and `sqrt` is removed by `Euclid.SqrtFree`. Rounding in the sum of squares or in `sqrt` can flip the test for any pair whose exact distance is on or near the `eps` boundary, on either side, and the model does not capture that.
- Euclid.Within: two points of different dimension are never neighbours. In the C++ code a longer second point is truncated to the first one's length and a shorter one is read out of bounds. In the Python code numpy either broadcasts or raises an error. The model covers equal-dimension points only.
- The engines take `near` as a parameter instead of `eps`. `Euclid.Near(eps)` is the only concrete instance.
- numpy arrays are modelled as sequences of points. The Python `data` may be any indexable sequence of vectors.
- DbscanCpp.Run: the 32-bit `int` counter `clusterID` is unbounded in the model. Overflow after 2^31 - 1 clusters over the lifetime of one object is not modelled.
- The C++ member `labels` is not kept in the object state. `run` overwrites it completely before reading it, so its old contents cannot affect a run. The model returns it as the result.
- The unreachable expansion branches (DBSCAN-draft.cpp:59-66 and DBSCAN-draft.py:36-40) are present as `assert false`. The proof shows they are never entered. Their bodies, a second `regionQuery` and a list extension, are not modelled.
- DbscanCpp.SizeT: an LP64 target with a 64-bit `size_t` is assumed. On a 32-bit target the conversion of `minPts` is modulo 2^32 instead.
- The conversion of the `size_t` loop index `i` to the `int` parameters of `regionQuery` and `expandCluster` is not modelled. It only matters for data sets of more than 2^31 points.
