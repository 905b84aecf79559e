/**
  The C++ engine: class `DBSCAN` with `run`, `expandCluster` and `regionQuery`.

  The label vector is a sequence threaded through the calls; the object's
  mutable state is the cluster counter, which `run` does not reset, so a
  second run on the same object hands out ids after the first run's.
  `near(p, q)` stands for `euclideanDistance(p, q) <= eps`.
*/
module DbscanCpp {

  import opened Region
  import opened Clustering

  /** Number of values of a 64-bit `size_t`. */
  const SIZE_T_MODULUS: int := 0x1_0000_0000_0000_0000

  /**
    The value `neighbors.size() < minPts` compares against: the usual
    arithmetic conversions turn the `int` operand into a `size_t`, so a
    negative `minPts` becomes a huge threshold.
  */
  function SizeT(x: int): (r: nat)
    ensures r < SIZE_T_MODULUS
    ensures 0 <= x < SIZE_T_MODULUS ==> r == x
    ensures -SIZE_T_MODULUS <= x < 0 ==> r == x + SIZE_T_MODULUS
  {
    x % SIZE_T_MODULUS
  }

  /** The object state of one `DBSCAN` instance besides `eps`, which lives in `near`. */
  datatype Dbscan = Dbscan(minPts: int, clusterID: int)

  /** The constructor: the cluster counter starts at 0. */
  function NewDbscan(minPts: int): (d: Dbscan)
    ensures d.minPts == minPts && d.clusterID == 0
  {
    Dbscan(minPts, 0)
  }

  /** Linear scan for the indices whose point is within `eps` of point `pointIdx`. */
  method RegionQuery<P>(data: seq<P>, near: (P, P) -> bool, pointIdx: nat) returns (neighbors: seq<nat>)
    requires pointIdx < |data|
    ensures neighbors == Neighbours(data, near, pointIdx)
    ensures Ascending(neighbors) && Indices(data, neighbors)
    ensures forall j :: 0 <= j < |data| ==> (j in neighbors <==> near(data[pointIdx], data[j]))
    ensures near(data[pointIdx], data[pointIdx]) ==> pointIdx in neighbors && 1 <= |neighbors|
  {
    neighbors := [];
    var i := 0;
    while i < |data|
      invariant 0 <= i <= |data|
      invariant neighbors == NeighboursBelow(data, near, data[pointIdx], i)
    {
      if near(data[pointIdx], data[i]) {
        neighbors := neighbors + [i];
      }
      i := i + 1;
    }
  }

  /**
    Claims the seed `pointIdx` and every entry of `neighbors` still labelled
    -1 for `clusterID`. The second test of the loop body (does the label equal
    -1 or 0 right after the claim?) can never succeed, because the label is
    then either the positive `clusterID` or a label that was already a
    positive id; the branch that would query the neighbour and append its
    neighbours to the list is proved dead, so the list comes back unchanged.
  */
  method ExpandCluster(labels: seq<int>, pointIdx: nat, neighbors: seq<nat>, clusterID: int)
    returns (labels': seq<int>, neighbors': seq<nat>)
    requires pointIdx < |labels| && Indices(labels, neighbors)
    requires 1 <= clusterID && ValidLabels(labels, clusterID)
    ensures neighbors' == neighbors
    ensures |labels'| == |labels|
    ensures labels'[pointIdx] == clusterID
    ensures forall j :: 0 <= j < |labels| && j != pointIdx ==>
      labels'[j] == (if labels[j] == NOISE && j in neighbors then clusterID else labels[j])
    ensures ValidLabels(labels', clusterID)
  {
    labels' := labels[pointIdx := clusterID];
    neighbors' := neighbors;
    var i := 0;
    while i < |neighbors'|
      invariant 0 <= i <= |neighbors'| && neighbors' == neighbors
      invariant |labels'| == |labels| && labels'[pointIdx] == clusterID
      invariant forall j :: 0 <= j < |labels| && j != pointIdx ==>
        labels'[j] == (if labels[j] == NOISE && j in neighbors[..i] then clusterID else labels[j])
      invariant ValidLabels(labels', clusterID)
    {
      var neighborIdx := neighbors'[i];
      if labels'[neighborIdx] == NOISE {
        labels' := labels'[neighborIdx := clusterID];
      }
      if labels'[neighborIdx] == NOISE || labels'[neighborIdx] == 0 {
        assert false;
      }
      assert neighbors[..i + 1] == neighbors[..i] + [neighborIdx];
      i := i + 1;
    }
    assert neighbors[..i] == neighbors;
  }

  /**
    One pass of the main loop at index `i`: skip a point that already has a
    label, mark it -1 when it has fewer than `minPts` neighbours, otherwise
    open cluster `clusterID + 1` and expand it.
  */
  method Visit<P>(data: seq<P>, near: (P, P) -> bool, minPts: int, base: int, i: nat,
                  labels: seq<int>, clusterID: int)
    returns (labels': seq<int>, clusterID': int)
    requires i < |data| && 0 <= base
    requires Reached(data, near, SizeT(minPts), base, i, labels, clusterID)
    ensures Reached(data, near, SizeT(minPts), base, i + 1, labels', clusterID')
  {
    var threshold := SizeT(minPts);
    labels', clusterID' := labels, clusterID;
    if labels[i] != NOISE {
      // already claimed by an earlier seed
      SkipStep(data, near, threshold, base, i, labels, clusterID);
      return;
    }
    var neighbors := RegionQuery(data, near, i);
    if |neighbors| < threshold {
      labels' := labels[i := NOISE];
      assert labels' == labels;
      SkipStep(data, near, threshold, base, i, labels, clusterID);
    } else {
      clusterID' := clusterID + 1;
      ReachedValid(data, near, threshold, base, i, labels, clusterID);
      labels', neighbors := ExpandCluster(labels, i, neighbors, clusterID');
      SeedStep(data, near, threshold, base, i, labels, clusterID, neighbors, labels');
    }
  }

  /**
    `run` on an object whose counter is `self.clusterID`: every point gets
    exactly one label, equal to the declarative labelling with the counter as
    base and the `size_t`-converted `minPts` as threshold.
  */
  method Run<P>(self: Dbscan, near: (P, P) -> bool, data: seq<P>) returns (self': Dbscan, labels: seq<int>)
    requires 0 <= self.clusterID
    ensures |labels| == |data|
    ensures labels == Labels(data, near, SizeT(self.minPts), self.clusterID)
    ensures self'.minPts == self.minPts
    ensures self'.clusterID == self.clusterID + |Seeds(data, near, SizeT(self.minPts))|
    ensures forall j :: 0 <= j < |labels| ==>
      labels[j] == NOISE || self.clusterID < labels[j] <= self'.clusterID
  {
    var clusterID := self.clusterID;
    labels := seq(|data|, _ => NOISE);
    assert SeedsBelow(data, near, SizeT(self.minPts), 0) == [];
    var i := 0;
    while i < |data|
      invariant 0 <= i <= |data|
      invariant Reached(data, near, SizeT(self.minPts), self.clusterID, i, labels, clusterID)
    {
      labels, clusterID := Visit(data, near, self.minPts, self.clusterID, i, labels, clusterID);
      i := i + 1;
    }
    ReachedEnd(data, near, SizeT(self.minPts), self.clusterID, labels, clusterID);
    self' := self.(clusterID := clusterID);
  }

  /**
    The example driver's usage: construct an engine and run it once. Ids
    start at 1, and every label is noise or one of the ids this run opened.
  */
  method FreshRun<P>(minPts: int, near: (P, P) -> bool, data: seq<P>) returns (self': Dbscan, labels: seq<int>)
    ensures |labels| == |data|
    ensures labels == Labels(data, near, SizeT(minPts), 0)
    ensures self'.minPts == minPts && self'.clusterID == |Seeds(data, near, SizeT(minPts))|
    ensures forall j :: 0 <= j < |labels| ==> labels[j] == NOISE || 1 <= labels[j] <= self'.clusterID
  {
    var engine := NewDbscan(minPts);
    self', labels := Run(engine, near, data);
  }
}
