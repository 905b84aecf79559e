/**
  The Python engine: function `dbscan` with its nested `region_query` and
  `expand_cluster`. The nested functions share the enclosing `labels` list;
  here it is passed in and returned. The counter `cluster_id` is local, so
  every call starts from 0. `near(p, q)` stands for
  `np.linalg.norm(p - q) <= eps`.
*/
module DbscanPy {

  import opened Region
  import opened Clustering

  /** `region_query`: one pass of `enumerate(data)`, keeping the indices within `eps`. */
  method RegionQuery<P>(data: seq<P>, near: (P, P) -> bool, pointIdx: nat) returns (neighbors: seq<nat>)
    requires pointIdx < |data|
    ensures neighbors == Neighbours(data, near, pointIdx)
    ensures Ascending(neighbors) && Indices(data, neighbors)
    ensures forall j :: 0 <= j < |data| ==> (j in neighbors <==> near(data[pointIdx], data[j]))
    ensures near(data[pointIdx], data[pointIdx]) ==> pointIdx in neighbors && 1 <= |neighbors|
  {
    neighbors := [];
    for idx := 0 to |data|
      invariant neighbors == NeighboursBelow(data, near, data[pointIdx], idx)
    {
      if near(data[pointIdx], data[idx]) {
        neighbors := neighbors + [idx];
      }
    }
  }

  /**
    `expand_cluster`: claims the seed and every neighbour still labelled -1.
    The `elif labels[neighbor_idx] == 0` arm is dead, since every label is -1
    or a positive id, so the neighbour list is never extended.
  */
  method ExpandCluster(labels: seq<int>, pointIdx: nat, neighbors: seq<nat>, clusterId: int)
    returns (labels': seq<int>, neighbors': seq<nat>)
    requires pointIdx < |labels| && Indices(labels, neighbors)
    requires 1 <= clusterId && ValidLabels(labels, clusterId)
    ensures neighbors' == neighbors
    ensures |labels'| == |labels|
    ensures labels'[pointIdx] == clusterId
    ensures forall j :: 0 <= j < |labels| && j != pointIdx ==>
      labels'[j] == (if labels[j] == NOISE && j in neighbors then clusterId else labels[j])
    ensures ValidLabels(labels', clusterId)
  {
    labels' := labels[pointIdx := clusterId];
    neighbors' := neighbors;
    var i := 0;
    while i < |neighbors'|
      invariant 0 <= i <= |neighbors'| && neighbors' == neighbors
      invariant |labels'| == |labels| && labels'[pointIdx] == clusterId
      invariant forall j :: 0 <= j < |labels| && j != pointIdx ==>
        labels'[j] == (if labels[j] == NOISE && j in neighbors[..i] then clusterId else labels[j])
      invariant ValidLabels(labels', clusterId)
    {
      var neighborIdx := neighbors'[i];
      if labels'[neighborIdx] == NOISE {
        labels' := labels'[neighborIdx := clusterId];
      } else if labels'[neighborIdx] == 0 {
        assert false;
      }
      assert neighbors[..i + 1] == neighbors[..i] + [neighborIdx];
      i := i + 1;
    }
    assert neighbors[..i] == neighbors;
  }

  /** The body of the `for point_idx` loop of `dbscan`. */
  method Visit<P>(data: seq<P>, near: (P, P) -> bool, minPts: int, pointIdx: nat,
                  labels: seq<int>, clusterId: int)
    returns (labels': seq<int>, clusterId': int)
    requires pointIdx < |data|
    requires Reached(data, near, minPts, 0, pointIdx, labels, clusterId)
    ensures Reached(data, near, minPts, 0, pointIdx + 1, labels', clusterId')
  {
    labels', clusterId' := labels, clusterId;
    if labels[pointIdx] != NOISE {
      // already claimed by an earlier seed
      SkipStep(data, near, minPts, 0, pointIdx, labels, clusterId);
      return;
    }
    var neighbors := RegionQuery(data, near, pointIdx);
    if |neighbors| < minPts {
      labels' := labels[pointIdx := NOISE];
      assert labels' == labels;
      SkipStep(data, near, minPts, 0, pointIdx, labels, clusterId);
    } else {
      clusterId' := clusterId + 1;
      ReachedValid(data, near, minPts, 0, pointIdx, labels, clusterId);
      labels', neighbors := ExpandCluster(labels, pointIdx, neighbors, clusterId');
      SeedStep(data, near, minPts, 0, pointIdx, labels, clusterId, neighbors, labels');
    }
  }

  /** `dbscan`: one label per point, equal to the declarative labelling from a counter of 0. */
  method Dbscan<P>(data: seq<P>, near: (P, P) -> bool, minPts: int) returns (labels: seq<int>)
    ensures |labels| == |data|
    ensures labels == Labels(data, near, minPts, 0)
    ensures ValidLabels(labels, |Seeds(data, near, minPts)|)
  {
    labels := seq(|data|, _ => NOISE);
    var clusterId := 0;
    assert SeedsBelow(data, near, minPts, 0) == [];
    for pointIdx := 0 to |data|
      invariant Reached(data, near, minPts, 0, pointIdx, labels, clusterId)
    {
      labels, clusterId := Visit(data, near, minPts, pointIdx, labels, clusterId);
    }
    ReachedEnd(data, near, minPts, 0, labels, clusterId);
  }
}
