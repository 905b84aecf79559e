/**
  Euclidean neighbourhood test between points of real coordinates.

  The source compares `sqrt(sum of squared differences) <= eps`. The model
  never takes the square root: for a non-negative distance `d` with
  `Sq(d) == s`, `d <= eps` holds exactly when `0 <= eps` and `s <= Sq(eps)`
  (lemma `SqrtFree`), so the neighbour test is stated on the squared sum.
*/
module Euclid {

  import opened Region

  type Point = seq<real>

  function Sq(x: real): real
  {
    x * x
  }

  /** Sum of squared per-coordinate differences of two points of equal dimension. */
  function SqDist(p: Point, q: Point): (s: real)
    requires |p| == |q|
    ensures 0.0 <= s
    decreases |p|
  {
    if |p| == 0 then 0.0
    else
      SqNonNegative(p[0] - q[0]);
      Sq(p[0] - q[0]) + SqDist(p[1..], q[1..])
  }

  /** `q` lies within distance `eps` of `p`; points of different dimension are never neighbours. */
  predicate Within(eps: real, p: Point, q: Point)
  {
    |p| == |q| && 0.0 <= eps && SqDist(p, q) <= Sq(eps)
  }

  /** The neighbour relation handed to the clustering engine for radius `eps`. */
  function Near(eps: real): (Point, Point) -> bool
  {
    (p: Point, q: Point) => Within(eps, p, q)
  }

  lemma MulPositive(a: real, b: real)
    requires 0.0 < a && 0.0 < b
    ensures 0.0 < a * b
  {
  }

  lemma SqStrict(x: real, y: real)
    requires 0.0 <= x < y
    ensures Sq(x) < Sq(y)
  {
    var a, b := y - x, y + x;
    MulPositive(a, b);
    var m := a * b;
    assert m == y * y - x * x;
  }

  lemma SqNonNegative(x: real)
    ensures 0.0 <= Sq(x)
    ensures x != 0.0 ==> 0.0 < Sq(x)
  {
    if x < 0.0 {
      SqStrict(0.0, -x);
      assert Sq(-x) == Sq(x);
    } else if 0.0 < x {
      SqStrict(0.0, x);
    }
  }

  /** Comparing the root with `eps` is the same as comparing the square with `Sq(eps)`. */
  lemma SqrtFree(d: real, s: real, eps: real)
    requires 0.0 <= d && Sq(d) == s
    ensures d <= eps <==> 0.0 <= eps && s <= Sq(eps)
  {
    if d < eps {
      SqStrict(d, eps);
    } else if 0.0 <= eps < d {
      SqStrict(eps, d);
    }
  }

  lemma {:induction false} SqDistSelf(p: Point)
    ensures SqDist(p, p) == 0.0
    decreases |p|
  {
    if |p| > 0 {
      SqDistSelf(p[1..]);
    }
  }

  lemma {:induction false} SqDistSymmetric(p: Point, q: Point)
    requires |p| == |q|
    ensures SqDist(p, q) == SqDist(q, p)
    decreases |p|
  {
    if |p| > 0 {
      SqDistSymmetric(p[1..], q[1..]);
      assert Sq(p[0] - q[0]) == Sq(q[0] - p[0]);
    }
  }

  /** A squared distance of zero means the points are identical. */
  lemma {:induction false} SqDistZero(p: Point, q: Point)
    requires |p| == |q|
    ensures SqDist(p, q) == 0.0 <==> p == q
    decreases |p|
  {
    if p == q {
      SqDistSelf(p);
    } else if |p| > 0 {
      var d := p[0] - q[0];
      SqNonNegative(d);
      if d == 0.0 {
        SqDistZero(p[1..], q[1..]);
      }
    }
  }

  /** With a non-negative radius every point is its own neighbour. */
  lemma NearIsReflexive(eps: real)
    requires 0.0 <= eps
    ensures Reflexive(Near(eps))
  {
    forall p: Point
      ensures Near(eps)(p, p)
    {
      SqDistSelf(p);
      SqNonNegative(eps);
    }
  }

  lemma NearIsSymmetric(eps: real)
    ensures Symmetric(Near(eps))
  {
    forall p: Point, q: Point
      ensures Near(eps)(p, q) <==> Near(eps)(q, p)
    {
      if |p| == |q| {
        SqDistSymmetric(p, q);
      }
    }
  }
}
