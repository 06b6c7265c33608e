/**
 * Points, distances, the point-in-rectangle test and the nearest-point search
 * that the chart's interactive plugins build on.
 *
 * Distances are kept SQUARED: the source takes a square root before comparing,
 * and since the square root is monotone on non-negative numbers every
 * comparison the search makes has the same outcome on squared distances.
 *
 * The search starts from a closest distance of Number.MAX_VALUE, which every
 * finite distance below it beats; the model starts from "no candidate yet",
 * so the first point is always taken.
 */
module Geometry {
  import opened Scale

  datatype Option<T> = None | Some(value: T)

  /** A raw data point, as the caller supplies it. */
  datatype Point = Point(x: real, y: real)

  /** A saved data point extended with its pixel-space projection. */
  datatype ComputedPoint = ComputedPoint(x: real, y: real, renderX: real, renderY: real)

  /** The three ways the nearest-point search can measure distance. */
  datatype DistanceMethod = ClosestX | ClosestY | Pythagoras

  function Square(d: real): real
  {
    d * d
  }

  lemma SquareFacts(d: real)
    ensures Square(d) >= 0.0
    ensures Square(d) == 0.0 <==> d == 0.0
  {
    ProductNonNegative(d, Square(d));
    if d > 0.0 {
      ProductPositive(d, d, Square(d));
    } else if d < 0.0 {
      ProductPositive(-d, -d, Square(d));
    }
  }

  /** The squared Euclidean distance between two points; never negative. */
  function SquaredDistance(a: Point, b: Point): (r: real)
    ensures r >= 0.0
  {
    SquareFacts(a.x - b.x);
    SquareFacts(a.y - b.y);
    Square(a.x - b.x) + Square(a.y - b.y)
  }

  /** The distance is never negative and is zero exactly when the two points coincide. */
  lemma SquaredDistanceZeroIff(a: Point, b: Point)
    ensures SquaredDistance(a, b) >= 0.0
    ensures SquaredDistance(a, b) == 0.0 <==> a == b
  {
    SquareFacts(a.x - b.x);
    SquareFacts(a.y - b.y);
  }

  /** The distance does not depend on the order of its arguments. */
  lemma SquaredDistanceIsSymmetric(a: Point, b: Point)
    ensures SquaredDistance(a, b) == SquaredDistance(b, a)
  {
  }

  /**
   * The distance the search uses between a computed point's pixel position
   * and the query point. "closest-x" replaces the computed point's renderY by
   * the query's own y, "closest-y" replaces its renderX by the query's own x.
   */
  function MethodDistance(m: DistanceMethod, c: ComputedPoint, p: Point): (r: real)
    ensures m == ClosestX ==> r == Square(c.renderX - p.x)
    ensures m == ClosestY ==> r == Square(c.renderY - p.y)
    ensures r >= 0.0
  {
    SquareFacts(c.renderX - p.x);
    SquareFacts(c.renderY - p.y);
    SquaredDistanceZeroIff(Point(c.renderX, c.renderY), p);
    match m
    case ClosestX => SquaredDistance(Point(c.renderX, p.y), p)
    case ClosestY => SquaredDistance(Point(p.x, c.renderY), p)
    case Pythagoras => SquaredDistance(Point(c.renderX, c.renderY), p)
  }

  /**
   * Inclusive containment of (px, py) in the box at (x, y) of size w by h;
   * no point lies in a box with a negative width or height.
   */
  function IsPointInBox(px: real, py: real, x: real, y: real, w: real, h: real): (r: bool)
    ensures r ==> w >= 0.0 && h >= 0.0
  {
    x <= px && px <= x + w && y <= py && py <= y + h
  }

  /** The edges are inclusive: a box of non-negative size holds its four corners. */
  lemma BoxHoldsItsCorners(x: real, y: real, w: real, h: real)
    ensures w >= 0.0 && h >= 0.0 <==>
      (IsPointInBox(x, y, x, y, w, h) && IsPointInBox(x + w, y, x, y, w, h) &&
       IsPointInBox(x, y + h, x, y, w, h) && IsPointInBox(x + w, y + h, x, y, w, h))
  {
  }

  /**
   * Index k of `computed` is the one the search settles on: no point is
   * nearer, and every earlier point is strictly farther (a later tie never
   * replaces an earlier minimum).
   */
  ghost predicate IsFirstNearest(computed: seq<ComputedPoint>, p: Point, m: DistanceMethod, k: int)
  {
    && 0 <= k < |computed|
    && (forall j :: 0 <= j < |computed| ==> MethodDistance(m, computed[k], p) <= MethodDistance(m, computed[j], p))
    && (forall j :: 0 <= j < k ==> MethodDistance(m, computed[k], p) < MethodDistance(m, computed[j], p))
  }

  /**
   * The index the linear scan holds after looking at the first n points:
   * a point replaces the current one only when strictly nearer.
   */
  function NearestIn(computed: seq<ComputedPoint>, p: Point, m: DistanceMethod, n: nat): (r: Option<nat>)
    requires n <= |computed|
    ensures r.Some? ==> r.value < n
    decreases n
  {
    if n == 0 then None
    else
      var prev := NearestIn(computed, p, m, n - 1);
      if prev.None? || MethodDistance(m, computed[n - 1], p) < MethodDistance(m, computed[prev.value], p)
      then Some(n - 1)
      else prev
  }

  /** The scan finds the first nearest point, and finds none only when it has seen no point. */
  lemma {:induction false} NearestInIsFirstNearest(computed: seq<ComputedPoint>, p: Point, m: DistanceMethod, n: nat)
    requires n <= |computed|
    ensures NearestIn(computed, p, m, n).None? <==> n == 0
    ensures NearestIn(computed, p, m, n).Some? ==> IsFirstNearest(computed[..n], p, m, NearestIn(computed, p, m, n).value)
  {
    if n > 0 {
      NearestInIsFirstNearest(computed, p, m, n - 1);
      var prev := NearestIn(computed, p, m, n - 1);
      assert forall j :: 0 <= j < n - 1 ==> computed[..n][j] == computed[..n - 1][j];
    }
  }

  /** The characterisation above pins down a single index: no other index meets it. */
  lemma FirstNearestIsUnique(computed: seq<ComputedPoint>, p: Point, m: DistanceMethod, k: int, other: int)
    requires IsFirstNearest(computed, p, m, k) && 0 <= other < |computed| && other != k
    ensures !IsFirstNearest(computed, p, m, other)
  {
    if other < k {
      assert MethodDistance(m, computed[k], p) < MethodDistance(m, computed[other], p);
    } else {
      assert MethodDistance(m, computed[k], p) <= MethodDistance(m, computed[other], p);
    }
  }

  /** The nearest computed point to `p` under method `m` (by default Euclidean), or None when there is no computed point. */
  method GetNearestPoint(computed: seq<ComputedPoint>, p: Point, m: DistanceMethod := Pythagoras) returns (r: Option<ComputedPoint>)
    ensures r.None? <==> computed == []
    ensures r == (match NearestIn(computed, p, m, |computed|)
                  case None => None
                  case Some(k) => Some(computed[k]))
  {
    if |computed| < 1 {
      return None;
    }
    var closest: Option<ComputedPoint> := None;
    var closestDistance := 0.0;
    ghost var closestIndex: Option<nat> := None;
    for i := 0 to |computed|
      invariant closestIndex == NearestIn(computed, p, m, i)
      invariant closestIndex.None? ==> closest.None?
      invariant closestIndex.Some? ==> closestIndex.value < |computed| && closest == Some(computed[closestIndex.value])
      invariant closestIndex.Some? ==> closestDistance == MethodDistance(m, computed[closestIndex.value], p)
    {
      var distance := MethodDistance(m, computed[i], p);
      if closest.None? || distance < closestDistance {
        closestDistance := distance;
        closest := Some(computed[i]);
        closestIndex := Some(i);
      }
    }
    r := closest;
  }

  /** Whatever the search returns is a computed point, and the first of the nearest ones; it returns one whenever there is one. */
  lemma NearestPointIsFirstMinimum(computed: seq<ComputedPoint>, p: Point, m: DistanceMethod)
    ensures NearestIn(computed, p, m, |computed|).Some? ==>
      IsFirstNearest(computed, p, m, NearestIn(computed, p, m, |computed|).value)
    ensures |computed| > 0 ==> NearestIn(computed, p, m, |computed|).Some?
  {
    NearestInIsFirstNearest(computed, p, m, |computed|);
    assert computed[..|computed|] == computed;
  }
}
