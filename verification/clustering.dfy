/**
  Declarative description of the labelling the draft DBSCAN computes.

  The engine visits indices in order. A point that is still unlabelled when
  it is reached and whose neighbour list has at least `minPts` entries is a
  *seed*: it opens the next cluster, and the cluster consists of the seed and
  those of its neighbours that were still unlabelled at that moment. The
  transitive expansion of textbook DBSCAN never happens in this code, so a
  point claimed as a neighbour is never a seed itself.

  Without reference to the loop, this reads:
  - `j` is a seed when it is core and no earlier seed has `j` in its
    neighbourhood (`IsSeed`, `SeedsBelow`);
  - a seed carries `base + 1 + (number of earlier seeds)`;
  - any other point carries the id of the first seed whose neighbourhood
    contains it, or `-1` when there is none (`LabelAfter`).
  `base` is the cluster counter before the run: 0 on a fresh engine.
*/
module Clustering {

  import opened Region

  const NOISE: int := -1

  /** Point `i` has at least `minPts` points (itself included when near) in its neighbourhood. */
  predicate IsCore<P>(data: seq<P>, near: (P, P) -> bool, minPts: int, i: nat)
    requires i < |data|
  {
    |Neighbours(data, near, i)| >= minPts
  }

  /** Position of the first entry of `seeds` whose neighbourhood contains point `j`, or -1. */
  function FirstNear<P>(data: seq<P>, near: (P, P) -> bool, seeds: seq<nat>, j: nat): (t: int)
    requires j < |data| && Indices(data, seeds)
    ensures -1 <= t < |seeds|
    ensures 0 <= t ==> near(data[seeds[t]], data[j])
    ensures forall u :: 0 <= u < |seeds| && (t < 0 || u < t) ==> !near(data[seeds[u]], data[j])
    decreases |seeds|
  {
    if |seeds| == 0 then -1
    else
      var t := FirstNear(data, near, seeds[..|seeds| - 1], j);
      if 0 <= t then t
      else if near(data[seeds[|seeds| - 1]], data[j]) then |seeds| - 1
      else -1
  }

  /** Point `i` opens a cluster: it is core and no earlier seed claimed it. */
  predicate IsSeed<P>(data: seq<P>, near: (P, P) -> bool, minPts: int, i: nat)
    requires i < |data|
    decreases i, 1
  {
    IsCore(data, near, minPts, i) && FirstNear(data, near, SeedsBelow(data, near, minPts, i), i) < 0
  }

  /** The seeds among indices `0 .. k-1`, in visiting order. */
  function SeedsBelow<P>(data: seq<P>, near: (P, P) -> bool, minPts: int, k: nat): (seeds: seq<nat>)
    requires k <= |data|
    ensures Ascending(seeds)
    ensures forall t :: 0 <= t < |seeds| ==> seeds[t] < k
    ensures forall i :: 0 <= i < k ==> (i in seeds <==> IsSeed(data, near, minPts, i))
    decreases k, 0
  {
    if k == 0 then []
    else
      var prev := SeedsBelow(data, near, minPts, k - 1);
      if IsSeed(data, near, minPts, k - 1) then prev + [k - 1] else prev
  }

  function Seeds<P>(data: seq<P>, near: (P, P) -> bool, minPts: int): seq<nat>
  {
    SeedsBelow(data, near, minPts, |data|)
  }

  /** The label of point `j` once indices `0 .. k-1` have been visited. */
  function LabelAfter<P>(data: seq<P>, near: (P, P) -> bool, minPts: int, base: int, k: nat, j: nat): int
    requires k <= |data| && j < |data|
  {
    if j < k && IsSeed(data, near, minPts, j) then
      base + |SeedsBelow(data, near, minPts, j)| + 1
    else
      var t := FirstNear(data, near, SeedsBelow(data, near, minPts, k), j);
      if t < 0 then NOISE else base + t + 1
  }

  /** The label of every point at the end of a run. */
  function Labels<P>(data: seq<P>, near: (P, P) -> bool, minPts: int, base: int): seq<int>
  {
    seq(|data|, j requires 0 <= j < |data| => LabelAfter(data, near, minPts, base, |data|, j))
  }

  /** Every label is noise or an id in `1 .. maxId`; in particular none is 0. */
  predicate ValidLabels(labels: seq<int>, maxId: int)
  {
    forall j :: 0 <= j < |labels| ==> labels[j] == NOISE || 1 <= labels[j] <= maxId
  }

  // ---------------------------------------------------------------------------
  // One visit of the main loop
  // ---------------------------------------------------------------------------

  lemma FirstNearAppend<P>(data: seq<P>, near: (P, P) -> bool, seeds: seq<nat>, s: nat, j: nat)
    requires j < |data| && s < |data| && Indices(data, seeds)
    ensures FirstNear(data, near, seeds + [s], j) ==
      var t := FirstNear(data, near, seeds, j);
      if 0 <= t then t else if near(data[s], data[j]) then |seeds| else -1
  {
    assert (seeds + [s])[..|seeds|] == seeds;
  }

  /** Visiting index `k` makes it a seed exactly when it is still unlabelled and core. */
  lemma VisitSeed<P>(data: seq<P>, near: (P, P) -> bool, minPts: int, base: int, k: nat)
    requires k < |data| && 0 <= base
    ensures IsSeed(data, near, minPts, k) <==>
      LabelAfter(data, near, minPts, base, k, k) == NOISE && IsCore(data, near, minPts, k)
    ensures SeedsBelow(data, near, minPts, k + 1) ==
      SeedsBelow(data, near, minPts, k) + (if IsSeed(data, near, minPts, k) then [k] else [])
  {
  }

  /**
    The effect of visiting index `k` on the label of `j`: if `k` is a seed, it
    and every neighbour of it that was still unlabelled get the new id; all
    other labels stay as they were.
  */
  lemma VisitLabel<P>(data: seq<P>, near: (P, P) -> bool, minPts: int, base: int, k: nat, j: nat)
    requires k < |data| && j < |data| && 0 <= base
    ensures LabelAfter(data, near, minPts, base, k + 1, j) ==
      if IsSeed(data, near, minPts, k)
         && (j == k || (LabelAfter(data, near, minPts, base, k, j) == NOISE && near(data[k], data[j])))
      then base + |SeedsBelow(data, near, minPts, k)| + 1
      else LabelAfter(data, near, minPts, base, k, j)
  {
    VisitSeed(data, near, minPts, base, k);
    if IsSeed(data, near, minPts, k) {
      FirstNearAppend(data, near, SeedsBelow(data, near, minPts, k), k, j);
    }
  }

  /** The loop state once indices `0 .. k-1` are visited: the counter and labels of the declarative run. */
  ghost predicate Reached<P>(data: seq<P>, near: (P, P) -> bool, minPts: int, base: int, k: nat,
                             labels: seq<int>, clusterID: int)
    requires k <= |data|
  {
    && |labels| == |data|
    && clusterID == base + |SeedsBelow(data, near, minPts, k)|
    && forall j :: 0 <= j < |data| ==> labels[j] == LabelAfter(data, near, minPts, base, k, j)
  }

  /** During the run every label is noise or an id already handed out. */
  lemma ReachedValid<P>(data: seq<P>, near: (P, P) -> bool, minPts: int, base: int, k: nat,
                        labels: seq<int>, clusterID: int)
    requires k <= |data| && 0 <= base && Reached(data, near, minPts, base, k, labels, clusterID)
    ensures base <= clusterID
    ensures forall j :: 0 <= j < |labels| ==> labels[j] == NOISE || base < labels[j] <= clusterID
    ensures ValidLabels(labels, clusterID) && ValidLabels(labels, clusterID + 1)
  {
    forall j | 0 <= j < |data| {
      LabelRange(data, near, minPts, base, k, j);
    }
  }

  /** Visiting index `k` when it already has a label, or is not core, changes nothing. */
  lemma SkipStep<P>(data: seq<P>, near: (P, P) -> bool, minPts: int, base: int, k: nat,
                    labels: seq<int>, clusterID: int)
    requires k < |data| && 0 <= base && Reached(data, near, minPts, base, k, labels, clusterID)
    requires labels[k] != NOISE || !IsCore(data, near, minPts, k)
    ensures Reached(data, near, minPts, base, k + 1, labels, clusterID)
  {
    VisitSeed(data, near, minPts, base, k);
    forall j | 0 <= j < |data|
      ensures labels[j] == LabelAfter(data, near, minPts, base, k + 1, j)
    {
      VisitLabel(data, near, minPts, base, k, j);
    }
  }

  /**
    Visiting an unlabelled core point `k` opens cluster `clusterID + 1`: the
    labels that result from giving it, and each neighbour still labelled
    noise, the new id are those of the declarative run after `k`.
  */
  lemma SeedStep<P>(data: seq<P>, near: (P, P) -> bool, minPts: int, base: int, k: nat,
                    labels: seq<int>, clusterID: int, neighbors: seq<nat>, labels': seq<int>)
    requires k < |data| && 0 <= base && Reached(data, near, minPts, base, k, labels, clusterID)
    requires labels[k] == NOISE && IsCore(data, near, minPts, k)
    requires neighbors == Neighbours(data, near, k)
    requires |labels'| == |labels| && labels'[k] == clusterID + 1
    requires forall j :: 0 <= j < |labels| && j != k ==>
      labels'[j] == (if labels[j] == NOISE && j in neighbors then clusterID + 1 else labels[j])
    ensures Reached(data, near, minPts, base, k + 1, labels', clusterID + 1)
  {
    VisitSeed(data, near, minPts, base, k);
    forall j | 0 <= j < |data|
      ensures labels'[j] == LabelAfter(data, near, minPts, base, k + 1, j)
    {
      VisitLabel(data, near, minPts, base, k, j);
    }
  }

  lemma ReachedEnd<P>(data: seq<P>, near: (P, P) -> bool, minPts: int, base: int, labels: seq<int>, clusterID: int)
    requires 0 <= base && Reached(data, near, minPts, base, |data|, labels, clusterID)
    ensures labels == Labels(data, near, minPts, base)
    ensures clusterID == base + |Seeds(data, near, minPts)|
    ensures forall j :: 0 <= j < |labels| ==> labels[j] == NOISE || base < labels[j] <= clusterID
    ensures ValidLabels(labels, clusterID)
  {
    ReachedValid(data, near, minPts, base, |data|, labels, clusterID);
  }

  // ---------------------------------------------------------------------------
  // Properties of the whole run
  // ---------------------------------------------------------------------------

  /** The seeds found among the first `k` indices are a prefix of those among the first `m`. */
  lemma {:induction false} SeedsPrefix<P>(data: seq<P>, near: (P, P) -> bool, minPts: int, k: nat, m: nat)
    requires k <= m <= |data|
    ensures SeedsBelow(data, near, minPts, k) <= SeedsBelow(data, near, minPts, m)
    decreases m - k
  {
    if k < m {
      SeedsPrefix(data, near, minPts, k, m - 1);
    }
  }

  /** Every label is noise or one of the ids handed out so far, `base + 1 .. base + seeds`. */
  lemma LabelRange<P>(data: seq<P>, near: (P, P) -> bool, minPts: int, base: int, k: nat, j: nat)
    requires k <= |data| && j < |data| && 0 <= base
    ensures var l := LabelAfter(data, near, minPts, base, k, j);
      l == NOISE || base < l <= base + |SeedsBelow(data, near, minPts, k)|
  {
    if j < k && IsSeed(data, near, minPts, j) {
      VisitSeed(data, near, minPts, base, j);
      SeedsPrefix(data, near, minPts, j + 1, k);
    }
  }

  lemma ClaimSurvivesVisit<P>(data: seq<P>, near: (P, P) -> bool, minPts: int, base: int, k: nat, j: nat)
    requires k < |data| && j < |data| && 0 <= base
    requires LabelAfter(data, near, minPts, base, k, j) != NOISE
    ensures LabelAfter(data, near, minPts, base, k + 1, j) == LabelAfter(data, near, minPts, base, k, j)
  {
    VisitSeed(data, near, minPts, base, k);
    VisitLabel(data, near, minPts, base, k, j);
  }

  /** Once a point carries a cluster id, no later visit changes it: the first claim wins. */
  lemma {:induction false} ClaimsAreFinal<P>(data: seq<P>, near: (P, P) -> bool, minPts: int, base: int, k: nat, m: nat, j: nat)
    requires k <= m <= |data| && j < |data| && 0 <= base
    requires LabelAfter(data, near, minPts, base, k, j) != NOISE
    ensures LabelAfter(data, near, minPts, base, m, j) == LabelAfter(data, near, minPts, base, k, j)
    decreases m - k
  {
    if k < m {
      ClaimSurvivesVisit(data, near, minPts, base, k, j);
      ClaimsAreFinal(data, near, minPts, base, k + 1, m, j);
    }
  }

  /** The `t`-th seed is preceded by exactly `t` seeds. */
  lemma SeedRank<P>(data: seq<P>, near: (P, P) -> bool, minPts: int, t: nat)
    requires t < |Seeds(data, near, minPts)|
    ensures var s := Seeds(data, near, minPts)[t];
      s < |data| && IsSeed(data, near, minPts, s) && |SeedsBelow(data, near, minPts, s)| == t
  {
    var seeds := Seeds(data, near, minPts);
    var s := seeds[t];
    assert s in seeds;
    SeedsPrefix(data, near, minPts, s + 1, |data|);
    var before := SeedsBelow(data, near, minPts, s);
    assert SeedsBelow(data, near, minPts, s + 1) == before + [s];
    assert seeds[|before|] == s;
  }

  /**
    Ids are dense and follow discovery order: the `t`-th seed (from 0) ends
    with id `base + t + 1`, and every id from `base + 1` to `base + |seeds|`
    is carried by some point.
  */
  lemma SeedIds<P>(data: seq<P>, near: (P, P) -> bool, minPts: int, base: int)
    ensures var seeds := Seeds(data, near, minPts);
      forall t :: 0 <= t < |seeds| ==> Labels(data, near, minPts, base)[seeds[t]] == base + t + 1
    ensures var seeds := Seeds(data, near, minPts);
      forall id :: base < id <= base + |seeds| ==> id in Labels(data, near, minPts, base)
  {
    var seeds := Seeds(data, near, minPts);
    var labels := Labels(data, near, minPts, base);
    forall t | 0 <= t < |seeds|
      ensures labels[seeds[t]] == base + t + 1
    {
      SeedRank(data, near, minPts, t);
    }
    forall id | base < id <= base + |seeds|
      ensures id in labels
    {
      var t := id - base - 1;
      assert labels[seeds[t]] == id;
    }
  }

  /**
    A point that is not a seed carries the id of the first seed whose
    neighbourhood contains it, the same label as that seed.
  */
  lemma BorderJoinsFirstSeed<P>(data: seq<P>, near: (P, P) -> bool, minPts: int, base: int, j: nat, t: nat)
    requires j < |data| && j !in Seeds(data, near, minPts)
    requires t < |Seeds(data, near, minPts)|
    requires near(data[Seeds(data, near, minPts)[t]], data[j])
    requires forall u :: 0 <= u < t ==> !near(data[Seeds(data, near, minPts)[u]], data[j])
    ensures Labels(data, near, minPts, base)[j] == base + t + 1
    ensures Labels(data, near, minPts, base)[j] == Labels(data, near, minPts, base)[Seeds(data, near, minPts)[t]]
  {
    SeedIds(data, near, minPts, base);
  }

  /** A final label is noise exactly when the point is not a seed and no seed's neighbourhood contains it. */
  lemma NoiseIff<P>(data: seq<P>, near: (P, P) -> bool, minPts: int, base: int, j: nat)
    requires j < |data| && 0 <= base
    ensures Labels(data, near, minPts, base)[j] == NOISE <==>
      j !in Seeds(data, near, minPts)
      && forall s :: s in Seeds(data, near, minPts) ==> !near(data[s], data[j])
  {
    var seeds := Seeds(data, near, minPts);
    if j !in seeds && FirstNear(data, near, seeds, j) >= 0 {
      assert seeds[FirstNear(data, near, seeds, j)] in seeds;
    }
  }

  /**
    With `minPts > 1`, a point with no other point in its neighbourhood and in
    no other point's neighbourhood ends as noise.
  */
  lemma IsolatedIsNoise<P>(data: seq<P>, near: (P, P) -> bool, minPts: int, base: int, j: nat)
    requires j < |data| && 1 < minPts
    requires forall s :: 0 <= s < |data| && s != j ==> !near(data[j], data[s]) && !near(data[s], data[j])
    ensures Labels(data, near, minPts, base)[j] == NOISE
  {
    var ns := Neighbours(data, near, j);
    forall t | 0 <= t < |ns|
      ensures j <= ns[t] < j + 1
    {
      assert ns[t] in ns;
    }
    AscendingBound(ns, j, j + 1);
    var seeds := Seeds(data, near, minPts);
    forall u | 0 <= u < |seeds|
      ensures !near(data[seeds[u]], data[j])
    {
      assert seeds[u] in seeds;
    }
  }

  /**
    A core point always ends in a cluster: either it is still unlabelled when
    visited and opens one, or an earlier seed already claimed it.
  */
  lemma CoreIsClustered<P>(data: seq<P>, near: (P, P) -> bool, minPts: int, base: int, j: nat)
    requires j < |data| && 0 <= base && IsCore(data, near, minPts, j)
    ensures Labels(data, near, minPts, base)[j] != NOISE
  {
    if !IsSeed(data, near, minPts, j) {
      var before := SeedsBelow(data, near, minPts, j);
      var seeds := Seeds(data, near, minPts);
      var t := FirstNear(data, near, before, j);
      SeedsPrefix(data, near, minPts, j, |data|);
      assert seeds[t] == before[t];
      assert 0 <= FirstNear(data, near, seeds, j);
    }
  }

  lemma {:induction false} NoSeedsBelow<P>(data: seq<P>, near: (P, P) -> bool, minPts: int, k: nat)
    requires k <= |data| < minPts
    ensures SeedsBelow(data, near, minPts, k) == []
  {
    if 0 < k {
      NoSeedsBelow(data, near, minPts, k - 1);
    }
  }

  /**
    When `minPts` exceeds the number of points no point is core, so there are
    no seeds and every point ends as noise.
  */
  lemma FewPointsAllNoise<P>(data: seq<P>, near: (P, P) -> bool, minPts: int, base: int)
    requires |data| < minPts
    ensures Seeds(data, near, minPts) == []
    ensures forall j :: 0 <= j < |data| ==> Labels(data, near, minPts, base)[j] == NOISE
  {
    NoSeedsBelow(data, near, minPts, |data|);
  }
}
