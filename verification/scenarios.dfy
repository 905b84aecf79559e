/**
  Concrete runs of the labelling.
*/
module Scenarios {

  import opened Region
  import opened Clustering
  import opened Euclid
  import DbscanCpp

  /** Squared distance of two 1-D points. */
  lemma SqDist1(a: real, c: real)
    ensures SqDist([a], [c]) == Sq(a - c)
  {
    assert [a][1..] == [] && [c][1..] == [];
  }

  /** The neighbour test at radius 2.0 between two 2-D points. */
  lemma Near2(a: real, b: real, c: real, d: real)
    ensures Near(2.0)([a, b], [c, d]) <==> Sq(a - c) + Sq(b - d) <= 4.0
  {
    assert [a, b][1..] == [b] && [c, d][1..] == [d];
    SqDist1(b, d);
  }

  /** The neighbour test at radius 1.0 between two 1-D points. */
  lemma Near1(a: real, c: real)
    ensures Near(1.0)([a], [c]) <==> Sq(a - c) <= 1.0
  {
    SqDist1(a, c);
  }

  lemma Pair(a: nat, b: nat)
    ensures [a] + [b] == [a, b]
  {
  }

  /** The first of two seeds whose neighbourhood contains point `j`. */
  lemma FirstNearPair<P>(data: seq<P>, near: (P, P) -> bool, a: nat, b: nat, j: nat)
    requires a < |data| && b < |data| && j < |data|
    ensures FirstNear(data, near, [a], j) == if near(data[a], data[j]) then 0 else -1
    ensures FirstNear(data, near, [a, b], j) ==
      if near(data[a], data[j]) then 0 else if near(data[b], data[j]) then 1 else -1
  {
    assert [a][..0] == [];
    assert [a, b][..1] == [a];
  }

  /** Extending the visited prefix by one index, in terms of the previous seed list. */
  lemma SeedsStep<P>(data: seq<P>, near: (P, P) -> bool, minPts: int, k: nat, prev: seq<nat>)
    requires k < |data| && SeedsBelow(data, near, minPts, k) == prev
    ensures SeedsBelow(data, near, minPts, k + 1) ==
      if IsCore(data, near, minPts, k) && FirstNear(data, near, prev, k) < 0 then prev + [k] else prev
  {
  }

  // ---------------------------------------------------------------------------
  // The example driver: eps 2.0, minPts 2, eight points in the plane
  // ---------------------------------------------------------------------------

  /** The points of the example driver. */
  function DriverData(): seq<Point>
  {
    [[1.0, 2.0], [2.0, 2.0], [2.0, 3.0], [8.0, 7.0], [8.0, 8.0], [25.0, 80.0], [8.0, 6.0], [7.0, 7.0]]
  }

  /**
    The neighbour facts the driver run depends on: point 0 has neighbours
    0, 1 and 2 only, point 3 has 3, 4, 6 and 7 but not 5, and point 5 has
    no neighbour other than possibly itself.
  */
  predicate DriverShape<P>(d: seq<P>, near: (P, P) -> bool)
  {
    && |d| == 8
    && near(d[0], d[0]) && near(d[0], d[1]) && near(d[0], d[2])
    && !near(d[0], d[3]) && !near(d[0], d[4]) && !near(d[0], d[5]) && !near(d[0], d[6]) && !near(d[0], d[7])
    && near(d[3], d[3]) && near(d[3], d[4]) && near(d[3], d[6]) && near(d[3], d[7]) && !near(d[3], d[5])
    && (forall j :: 0 <= j < 8 && j != 5 ==> !near(d[5], d[j]))
  }

  /** The neighbourhood of driver point 0 at radius 2.0. */
  lemma DriverFirstRow()
    ensures var d, near := DriverData(), Near(2.0);
      && near(d[0], d[0]) && near(d[0], d[1]) && near(d[0], d[2])
      && !near(d[0], d[3]) && !near(d[0], d[4]) && !near(d[0], d[5]) && !near(d[0], d[6]) && !near(d[0], d[7])
  {
    Near2(1.0, 2.0, 1.0, 2.0);
    Near2(1.0, 2.0, 2.0, 2.0);
    Near2(1.0, 2.0, 2.0, 3.0);
    DriverFirstRowFar();
  }

  lemma DriverFirstRowFar()
    ensures var d, near := DriverData(), Near(2.0);
      !near(d[0], d[3]) && !near(d[0], d[4]) && !near(d[0], d[5]) && !near(d[0], d[6]) && !near(d[0], d[7])
  {
    Near2(1.0, 2.0, 8.0, 7.0);
    Near2(1.0, 2.0, 8.0, 8.0);
    Near2(1.0, 2.0, 25.0, 80.0);
    Near2(1.0, 2.0, 8.0, 6.0);
    Near2(1.0, 2.0, 7.0, 7.0);
  }

  /** The neighbourhood of driver point 3 at radius 2.0, as far as the run looks at it. */
  lemma DriverFourthRow()
    ensures var d, near := DriverData(), Near(2.0);
      near(d[3], d[3]) && near(d[3], d[4]) && near(d[3], d[6]) && near(d[3], d[7]) && !near(d[3], d[5])
  {
    Near2(8.0, 7.0, 8.0, 7.0);
    Near2(8.0, 7.0, 8.0, 8.0);
    Near2(8.0, 7.0, 8.0, 6.0);
    Near2(8.0, 7.0, 7.0, 7.0);
    Near2(8.0, 7.0, 25.0, 80.0);
  }

  /** Only point 5 itself can lie within 2.0 of driver point 5. */
  lemma DriverSixthRow()
    ensures var d, near := DriverData(), Near(2.0);
      forall j :: 0 <= j < 8 && j != 5 ==> !near(d[5], d[j])
  {
    DriverSixthRowLeft();
    Near2(25.0, 80.0, 8.0, 7.0);
    Near2(25.0, 80.0, 8.0, 8.0);
    Near2(25.0, 80.0, 8.0, 6.0);
    Near2(25.0, 80.0, 7.0, 7.0);
  }

  lemma DriverSixthRowLeft()
    ensures var d, near := DriverData(), Near(2.0);
      !near(d[5], d[0]) && !near(d[5], d[1]) && !near(d[5], d[2])
  {
    Near2(25.0, 80.0, 1.0, 2.0);
    Near2(25.0, 80.0, 2.0, 2.0);
    Near2(25.0, 80.0, 2.0, 3.0);
  }

  /** The driver points at radius 2.0 have that shape. */
  lemma DriverHasShape()
    ensures DriverShape(DriverData(), Near(2.0))
  {
    DriverFirstRow();
    DriverFourthRow();
    DriverSixthRow();
  }

  /** In that shape, at minPts 2, points 0 and 3 are core and point 5 is not. */
  lemma ShapeCores<P>(d: seq<P>, near: (P, P) -> bool)
    requires DriverShape(d, near)
    ensures IsCore(d, near, 2, 0) && IsCore(d, near, 2, 3) && !IsCore(d, near, 2, 5)
  {
    var n0 := Neighbours(d, near, 0);
    assert 0 in n0 && 1 in n0;
    TwoMembers(n0, 0, 1);
    var n3 := Neighbours(d, near, 3);
    assert 3 in n3 && 4 in n3;
    TwoMembers(n3, 3, 4);
    var n5 := Neighbours(d, near, 5);
    forall t | 0 <= t < |n5|
      ensures 5 <= n5[t] < 6
    {
      assert n5[t] in n5;
    }
    AscendingBound(n5, 5, 6);
  }

  /** In that shape point 0 is the only seed among the first three points. */
  lemma ShapeSeedsFirst<P>(d: seq<P>, near: (P, P) -> bool)
    requires DriverShape(d, near)
    ensures SeedsBelow(d, near, 2, 3) == [0]
  {
    ShapeCores(d, near);
    SeedsStep(d, near, 2, 0, []);
    SeedsStep(d, near, 2, 1, [0]);
    SeedsStep(d, near, 2, 2, [0]);
  }

  /** No point is near point 3 from point 0's side, so point 3 opens the second cluster. */
  lemma ShapeSeedsThree<P>(d: seq<P>, near: (P, P) -> bool)
    requires DriverShape(d, near)
    ensures SeedsBelow(d, near, 2, 4) == [0, 3]
  {
    ShapeCores(d, near);
    ShapeSeedsFirst(d, near);
    FirstNearPair(d, near, 0, 3, 3);
    SeedsStep(d, near, 2, 3, [0]);
    Pair(0, 3);
  }

  /** Point 4 is claimed by seed 3. */
  lemma ShapeSeedsSecond<P>(d: seq<P>, near: (P, P) -> bool)
    requires DriverShape(d, near)
    ensures SeedsBelow(d, near, 2, 5) == [0, 3]
  {
    ShapeSeedsThree(d, near);
    SeedsStep(d, near, 2, 4, [0, 3]);
  }

  /** In that shape the seeds are points 0 and 3. */
  lemma ShapeSeeds<P>(d: seq<P>, near: (P, P) -> bool)
    requires DriverShape(d, near)
    ensures SeedsBelow(d, near, 2, 3) == [0]
    ensures Seeds(d, near, 2) == [0, 3]
  {
    ShapeCores(d, near);
    ShapeSeedsFirst(d, near);
    ShapeSeedsSecond(d, near);
    SeedsStep(d, near, 2, 5, [0, 3]);
    SeedsStep(d, near, 2, 6, [0, 3]);
    SeedsStep(d, near, 2, 7, [0, 3]);
  }

  /** In that shape the seeds 0 and 3 carry ids 1 and 2. */
  lemma ShapeSeedLabels<P>(d: seq<P>, near: (P, P) -> bool)
    requires DriverShape(d, near)
    ensures var l := Labels(d, near, 2, 0); l[0] == 1 && l[3] == 2
  {
    ShapeSeeds(d, near);
    SeedIds(d, near, 2, 0);
    assert Seeds(d, near, 2)[0] == 0 && Seeds(d, near, 2)[1] == 3;
  }

  /** In that shape points 1 and 2 join cluster 1. */
  lemma ShapeFirstCluster<P>(d: seq<P>, near: (P, P) -> bool, j: nat)
    requires DriverShape(d, near) && (j == 1 || j == 2)
    ensures Labels(d, near, 2, 0)[j] == 1
  {
    ShapeSeeds(d, near);
    assert SeedsBelow(d, near, 2, 8) == [0, 3];
    assert !IsSeed(d, near, 2, j);
    FirstNearPair(d, near, 0, 3, j);
    assert LabelAfter(d, near, 2, 0, 8, j) == 1;
  }

  /** In that shape points 4, 6 and 7 join cluster 2. */
  lemma ShapeSecondCluster<P>(d: seq<P>, near: (P, P) -> bool, j: nat)
    requires DriverShape(d, near) && (j == 4 || j == 6 || j == 7)
    ensures Labels(d, near, 2, 0)[j] == 2
  {
    ShapeSeeds(d, near);
    assert SeedsBelow(d, near, 2, 8) == [0, 3];
    assert !IsSeed(d, near, 2, j);
    FirstNearPair(d, near, 0, 3, j);
    assert LabelAfter(d, near, 2, 0, 8, j) == 2;
  }

  /** In that shape point 5 is noise. */
  lemma ShapeNoiseLabel<P>(d: seq<P>, near: (P, P) -> bool)
    requires DriverShape(d, near)
    ensures Labels(d, near, 2, 0)[5] == NOISE
  {
    ShapeSeeds(d, near);
    assert SeedsBelow(d, near, 2, 8) == [0, 3];
    assert !IsSeed(d, near, 2, 5);
    FirstNearPair(d, near, 0, 3, 5);
    assert LabelAfter(d, near, 2, 0, 8, 5) == NOISE;
  }

  lemma EightLabels(l: seq<int>)
    requires |l| == 8 && l[0] == 1 && l[1] == 1 && l[2] == 1 && l[3] == 2
    requires l[4] == 2 && l[5] == -1 && l[6] == 2 && l[7] == 2
    ensures l == [1, 1, 1, 2, 2, -1, 2, 2]
  {
  }

  /** The labels of any data set of that shape at minPts 2 on a fresh engine. */
  lemma ShapeLabels<P>(d: seq<P>, near: (P, P) -> bool)
    requires DriverShape(d, near)
    ensures Labels(d, near, 2, 0) == [1, 1, 1, 2, 2, -1, 2, 2]
  {
    ShapeSeedLabels(d, near);
    ShapeFirstCluster(d, near, 1);
    ShapeFirstCluster(d, near, 2);
    ShapeSecondCluster(d, near, 4);
    ShapeSecondCluster(d, near, 6);
    ShapeSecondCluster(d, near, 7);
    ShapeNoiseLabel(d, near);
    EightLabels(Labels(d, near, 2, 0));
  }

  /**
    The example driver (eps 2.0, minPts 2) on a fresh engine gives
    `[1, 1, 1, 2, 2, -1, 2, 2]`: the first three points form cluster 1, the
    four points around (8, 7) cluster 2, and (25, 80) is noise.
  */
  lemma DriverExample()
    ensures Labels(DriverData(), Near(2.0), DbscanCpp.SizeT(2), 0) == [1, 1, 1, 2, 2, -1, 2, 2]
  {
    DriverHasShape();
    ShapeLabels(DriverData(), Near(2.0));
  }

  // ---------------------------------------------------------------------------
  // A chain of three points: no transitive growth
  // ---------------------------------------------------------------------------

  /**
    Three points in a row where neighbouring points are within `eps` of each
    other and the two ends are not: 0 ~ 1 ~ 2, 0 !~ 2.
  */
  predicate ChainShape<P>(d: seq<P>, near: (P, P) -> bool)
  {
    && |d| == 3
    && near(d[0], d[0]) && near(d[0], d[1]) && !near(d[0], d[2])
    && near(d[2], d[1]) && near(d[2], d[2])
  }

  /** In a chain the seeds at minPts 2 are both ends. */
  lemma ChainSeeds<P>(d: seq<P>, near: (P, P) -> bool)
    requires ChainShape(d, near)
    ensures Seeds(d, near, 2) == [0, 2]
  {
    var n0 := Neighbours(d, near, 0);
    assert 0 in n0 && 1 in n0;
    TwoMembers(n0, 0, 1);
    var n2 := Neighbours(d, near, 2);
    assert 1 in n2 && 2 in n2;
    TwoMembers(n2, 1, 2);
    FirstNearPair(d, near, 0, 2, 1);
    FirstNearPair(d, near, 0, 2, 2);
    SeedsStep(d, near, 2, 0, []);
    SeedsStep(d, near, 2, 1, [0]);
    SeedsStep(d, near, 2, 2, [0]);
    Pair(0, 2);
  }

  /**
    With minPts 2, point 0 opens cluster 1 and claims point 1; point 2 is
    core but its neighbour 1 is not expanded, so it opens cluster 2 of its
    own. Textbook DBSCAN would put all three points in one cluster.
  */
  lemma ChainLabels<P>(d: seq<P>, near: (P, P) -> bool)
    requires ChainShape(d, near)
    ensures Labels(d, near, 2, 0) == [1, 1, 2]
  {
    ChainSeeds(d, near);
    SeedIds(d, near, 2, 0);
    assert Seeds(d, near, 2)[0] == 0 && Seeds(d, near, 2)[1] == 2;
    assert SeedsBelow(d, near, 2, 3) == [0, 2];
    assert !IsSeed(d, near, 2, 1);
    FirstNearPair(d, near, 0, 2, 1);
    assert LabelAfter(d, near, 2, 0, 3, 1) == 1;
    ThreeLabels(Labels(d, near, 2, 0));
  }

  lemma ThreeLabels(l: seq<int>)
    requires |l| == 3 && l[0] == 1 && l[1] == 1 && l[2] == 2
    ensures l == [1, 1, 2]
  {
  }

  /**
    The points 0.0, 1.0 and 2.0 on a line with eps 1.0 and minPts 2 end in two
    clusters, although points 1 and 2 are within eps of each other.
  */
  lemma ChainIsSplit()
    ensures Near(1.0)([1.0], [2.0]) && Near(1.0)([2.0], [1.0])
    ensures Labels([[0.0], [1.0], [2.0]], Near(1.0), 2, 0) == [1, 1, 2]
  {
    Near1(0.0, 0.0);
    Near1(0.0, 1.0);
    Near1(0.0, 2.0);
    Near1(2.0, 1.0);
    Near1(2.0, 2.0);
    Near1(1.0, 2.0);
    ChainLabels([[0.0], [1.0], [2.0]], Near(1.0));
  }
}
