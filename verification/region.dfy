/**
  Region query: the indices of all points within the neighbourhood of a
  point, found by one linear scan over the dataset.

  The neighbourhood test `near(p, q)` stands for "the distance from `p` to
  `q` is at most `eps`"; module `Euclid` supplies the Euclidean instance.
*/
module Region {

  ghost predicate Reflexive<P(!new)>(near: (P, P) -> bool)
  {
    forall p :: near(p, p)
  }

  ghost predicate Symmetric<P(!new)>(near: (P, P) -> bool)
  {
    forall p, q :: near(p, q) <==> near(q, p)
  }

  /** Strictly increasing: scan order, no index twice. */
  predicate Ascending(ns: seq<nat>)
  {
    forall a, b :: 0 <= a < b < |ns| ==> ns[a] < ns[b]
  }

  /** Every entry is a valid index of `data`. */
  predicate Indices<P>(data: seq<P>, ns: seq<nat>)
  {
    forall t :: 0 <= t < |ns| ==> ns[t] < |data|
  }

  /** The indices `j < k` whose point is within the neighbourhood of `p`, in scan order. */
  function NeighboursBelow<P>(data: seq<P>, near: (P, P) -> bool, p: P, k: nat): (ns: seq<nat>)
    requires k <= |data|
    ensures |ns| <= k
    ensures Ascending(ns)
    ensures forall t :: 0 <= t < |ns| ==> ns[t] < k
    ensures forall j :: 0 <= j < k ==> (j in ns <==> near(p, data[j]))
    decreases k
  {
    if k == 0 then []
    else
      var prev := NeighboursBelow(data, near, p, k - 1);
      if near(p, data[k - 1]) then prev + [k - 1] else prev
  }

  /** The neighbour list of point `i`: every index of the dataset within its neighbourhood. */
  function Neighbours<P>(data: seq<P>, near: (P, P) -> bool, i: nat): (ns: seq<nat>)
    requires i < |data|
  {
    NeighboursBelow(data, near, data[i], |data|)
  }

  /** A neighbour list holding two different indices has at least two entries. */
  lemma TwoMembers(ns: seq<nat>, a: nat, b: nat)
    requires a in ns && b in ns && a != b
    ensures 2 <= |ns|
  {
  }

  /** An ascending list drawn from the interval `[lo, hi)` has at most `hi - lo` entries. */
  lemma {:induction false} AscendingBound(ns: seq<nat>, lo: int, hi: int)
    requires Ascending(ns)
    requires forall t :: 0 <= t < |ns| ==> lo <= ns[t] < hi
    ensures |ns| <= if lo <= hi then hi - lo else 0
    decreases |ns|
  {
    if |ns| > 0 {
      AscendingBound(ns[1..], ns[0] + 1, hi);
    }
  }
}
