/**
 * Points on the map grid and the distance tests the supply system uses.
 *
 * Distances are never taken with a square root: every test "distance(a, b) OP r"
 * with a non-negative radius r is decided on the squared distance, which is
 * exact on reals (lemma DistanceComparisons justifies deciding each distance
 * test on squares).
 */
module Geometry {

  datatype Point = Point(x: real, y: real)

  /** Squared Euclidean distance between two points. */
  function DistSq(a: Point, b: Point): (d: real)
    ensures d >= 0.0
  {
    (a.x - b.x) * (a.x - b.x) + (a.y - b.y) * (a.y - b.y)
  }

  /** `d` is the Euclidean distance between `a` and `b`. */
  ghost predicate IsDistance(d: real, a: Point, b: Point) {
    d >= 0.0 && d * d == DistSq(a, b)
  }

  /** distance(a, b) <= r */
  predicate WithinOrOn(a: Point, b: Point, r: real) {
    DistSq(a, b) <= r * r
  }

  /** distance(a, b) < r */
  predicate Within(a: Point, b: Point, r: real) {
    DistSq(a, b) < r * r
  }

  /** distance(a, b) > r */
  predicate Beyond(a: Point, b: Point, r: real) {
    DistSq(a, b) > r * r
  }

  /** distance(a, b) >= r */
  predicate AtLeast(a: Point, b: Point, r: real) {
    DistSq(a, b) >= r * r
  }

  lemma ProductNonNegative(u: real, v: real)
    requires u >= 0.0 && v >= 0.0
    ensures u * v >= 0.0
  {
  }

  lemma ProductPositive(u: real, v: real)
    requires u > 0.0 && v > 0.0
    ensures u * v > 0.0
  {
  }

  lemma SquareMonotone(u: real, v: real)
    requires 0.0 <= u <= v
    ensures u * u <= v * v
  {
    ProductNonNegative(v - u, v + u);
    assert (v - u) * (v + u) == v * v - u * u;
  }

  lemma SquareStrictMonotone(u: real, v: real)
    requires 0.0 <= u < v
    ensures u * u < v * v
  {
    ProductPositive(v - u, v + u);
    assert (v - u) * (v + u) == v * v - u * u;
  }

  /** The squared tests agree with the tests on the true distance, for every radius r >= 0. */
  lemma DistanceComparisons(a: Point, b: Point, d: real, r: real)
    requires IsDistance(d, a, b) && r >= 0.0
    ensures WithinOrOn(a, b, r) <==> d <= r
    ensures Within(a, b, r) <==> d < r
    ensures Beyond(a, b, r) <==> d > r
    ensures AtLeast(a, b, r) <==> d >= r
  {
    if d <= r { SquareMonotone(d, r); } else { SquareStrictMonotone(r, d); }
    if d < r { SquareStrictMonotone(d, r); } else { SquareMonotone(r, d); }
  }

  function SumX(ps: seq<Point>): real {
    if ps == [] then 0.0 else ps[0].x + SumX(ps[1..])
  }

  function SumY(ps: seq<Point>): real {
    if ps == [] then 0.0 else ps[0].y + SumY(ps[1..])
  }

  /** avgPoints: the arithmetic mean of a non-empty list of points. */
  function Centroid(ps: seq<Point>): Point
    requires |ps| > 0
  {
    Point(SumX(ps) / (|ps| as real), SumY(ps) / (|ps| as real))
  }

  lemma {:induction false} SumXWithin(ps: seq<Point>, lo: real, hi: real)
    requires forall i :: 0 <= i < |ps| ==> lo <= ps[i].x <= hi
    ensures (|ps| as real) * lo <= SumX(ps) <= (|ps| as real) * hi
  {
    if ps != [] {
      SumXWithin(ps[1..], lo, hi);
      var m := |ps[1..]| as real;
      assert (m + 1.0) * lo == m * lo + lo;
      assert (m + 1.0) * hi == m * hi + hi;
    }
  }

  lemma {:induction false} SumYWithin(ps: seq<Point>, lo: real, hi: real)
    requires forall i :: 0 <= i < |ps| ==> lo <= ps[i].y <= hi
    ensures (|ps| as real) * lo <= SumY(ps) <= (|ps| as real) * hi
  {
    if ps != [] {
      SumYWithin(ps[1..], lo, hi);
      var m := |ps[1..]| as real;
      assert (m + 1.0) * lo == m * lo + lo;
      assert (m + 1.0) * hi == m * hi + hi;
    }
  }

  lemma QuotientNonNegative(a: real, n: real)
    requires a >= 0.0 && n > 0.0
    ensures a / n >= 0.0
  {
  }

  /** A mean lies between the bounds of the values it averages. */
  lemma QuotientWithin(s: real, n: real, lo: real, hi: real)
    requires n > 0.0 && n * lo <= s <= n * hi
    ensures lo <= s / n <= hi
  {
    QuotientNonNegative(s - n * lo, n);
    QuotientNonNegative(n * hi - s, n);
    assert (s - n * lo) / n == s / n - lo;
    assert (n * hi - s) / n == hi - s / n;
  }

  lemma CentroidXWithin(ps: seq<Point>, lo: real, hi: real)
    requires |ps| > 0
    requires forall i :: 0 <= i < |ps| ==> lo <= ps[i].x <= hi
    ensures lo <= Centroid(ps).x <= hi
  {
    SumXWithin(ps, lo, hi);
    QuotientWithin(SumX(ps), |ps| as real, lo, hi);
  }

  lemma CentroidYWithin(ps: seq<Point>, lo: real, hi: real)
    requires |ps| > 0
    requires forall i :: 0 <= i < |ps| ==> lo <= ps[i].y <= hi
    ensures lo <= Centroid(ps).y <= hi
  {
    SumYWithin(ps, lo, hi);
    QuotientWithin(SumY(ps), |ps| as real, lo, hi);
  }

  /** The centroid of a set of cells lies in every box that holds all the cells. */
  lemma CentroidWithinBounds(ps: seq<Point>, lo: Point, hi: Point)
    requires |ps| > 0
    requires forall i :: 0 <= i < |ps| ==> lo.x <= ps[i].x <= hi.x && lo.y <= ps[i].y <= hi.y
    ensures lo.x <= Centroid(ps).x <= hi.x
    ensures lo.y <= Centroid(ps).y <= hi.y
  {
    CentroidXWithin(ps, lo.x, hi.x);
    CentroidYWithin(ps, lo.y, hi.y);
  }
}
