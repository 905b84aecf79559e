/**
  How the two engines relate. The C++ engine compares the `size_t` neighbour
  count with the `int` field `minPts`, which converts `minPts` to `size_t`;
  the Python engine compares two unbounded integers. For a non-negative
  `minPts` both thresholds are the same number; for a negative one the C++
  threshold exceeds any neighbour count a real data set can produce, so every
  point is noise, while in Python every point is core and none is noise.
*/
module Engines {

  import opened Clustering
  import DbscanCpp

  /** Range of the C++ `int` that holds `minPts`. */
  const INT_MIN: int := -0x8000_0000
  const INT_MAX: int := 0x7FFF_FFFF

  /** More points than this cannot be held in memory on a 64-bit machine. */
  const MAX_POINTS: int := 0x8000_0000_0000_0000

  /** With `minPts <= 0` every point of the Python run ends in a cluster. */
  lemma PyNonPositiveMinPtsNoNoise<P>(data: seq<P>, near: (P, P) -> bool, minPts: int)
    requires minPts <= 0
    ensures forall j :: 0 <= j < |data| ==> Labels(data, near, minPts, 0)[j] != NOISE
  {
    forall j | 0 <= j < |data|
      ensures Labels(data, near, minPts, 0)[j] != NOISE
    {
      CoreIsClustered(data, near, minPts, 0, j);
    }
  }

  /** With a negative `minPts` the C++ run finds no seed and labels every point noise. */
  lemma CppNegativeMinPtsAllNoise<P>(data: seq<P>, near: (P, P) -> bool, minPts: int, base: int)
    requires INT_MIN <= minPts < 0 && |data| < MAX_POINTS
    ensures Seeds(data, near, DbscanCpp.SizeT(minPts)) == []
    ensures forall j :: 0 <= j < |data| ==> Labels(data, near, DbscanCpp.SizeT(minPts), base)[j] == NOISE
  {
    FewPointsAllNoise(data, near, DbscanCpp.SizeT(minPts), base);
  }

  /**
    On a fresh engine and a non-empty data set, the C++ and Python labellings
    coincide exactly when `minPts` is not negative.
  */
  lemma EnginesAgreeIff<P>(data: seq<P>, near: (P, P) -> bool, minPts: int)
    requires INT_MIN <= minPts <= INT_MAX && 0 < |data| < MAX_POINTS
    ensures Labels(data, near, DbscanCpp.SizeT(minPts), 0) == Labels(data, near, minPts, 0) <==> 0 <= minPts
  {
    if minPts < 0 {
      CppNegativeMinPtsAllNoise(data, near, minPts, 0);
      PyNonPositiveMinPtsNoNoise(data, near, minPts);
      assert Labels(data, near, DbscanCpp.SizeT(minPts), 0)[0] != Labels(data, near, minPts, 0)[0];
    }
  }
}
