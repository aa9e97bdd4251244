/**
 * Choosing the biggest of the rectangles the detector reports for one image
 * (`biggestRectangle` in SobrCameraView.swift).
 */
module RectangleSelection {
  import opened Wrappers
  import opened Geometry

  /** A detected quadrilateral: CIRectangleFeature's four corners. */
  datatype RectangleFeature = RectangleFeature(topLeft: Point, topRight: Point, bottomLeft: Point, bottomRight: Point)

  /** The Euclidean distance (`hypotf` of the coordinate differences), left uninterpreted. */
  type Distance = (Point, Point) -> real

  /** What the model assumes of the distance: it is never negative. */
  ghost predicate NonNegative(dist: Distance) {
    forall p, q :: dist(p, q) >= 0.0
  }

  /** The length of the top edge plus the length of the left edge. The bottom-right corner plays no part. */
  function HalfPerimeter(r: RectangleFeature, dist: Distance): real {
    dist(r.topLeft, r.topRight) + dist(r.topLeft, r.bottomLeft)
  }

  /**
   * The pair (index of the kept rectangle, halfPerimeterValue) once the loop of
   * `biggestRectangle` has visited rects[..n]: it starts from index 0 and value 0.0 and
   * moves to a rectangle only when its half-perimeter is strictly greater than the value.
   */
  function Scan(rects: seq<RectangleFeature>, dist: Distance, n: nat): (res: (nat, real))
    requires n <= |rects|
    ensures n == 0 ==> res == (0, 0.0)
    ensures n > 0 ==> res.0 < n
    ensures res.1 >= 0.0
    ensures forall j :: 0 <= j < n ==> HalfPerimeter(rects[j], dist) <= res.1
    ensures res == (0, 0.0) || res.1 == HalfPerimeter(rects[res.0], dist)
    ensures forall j :: 0 <= j < res.0 ==> HalfPerimeter(rects[j], dist) < res.1
    decreases n
  {
    if n == 0 then (0, 0.0)
    else
      var prev := Scan(rects, dist, n - 1);
      var current := HalfPerimeter(rects[n - 1], dist);
      if prev.1 < current then (n - 1, current) else prev
  }

  /** The position in `rects` of the rectangle `biggestRectangle` returns. */
  function BiggestIndex(rects: seq<RectangleFeature>, dist: Distance): (k: nat)
    requires |rects| > 0
    ensures k < |rects|
    ensures forall j :: 0 <= j < k ==> HalfPerimeter(rects[j], dist) < HalfPerimeter(rects[k], dist)
  {
    Scan(rects, dist, |rects|).0
  }

  /** `biggestRectangle(rects)`: nil for an empty list, otherwise the rectangle of BiggestIndex. */
  function Biggest(rects: seq<RectangleFeature>, dist: Distance): (r: Option<RectangleFeature>)
    ensures r.None? <==> |rects| == 0
    ensures r.Some? ==> r.value in rects
  {
    if |rects| == 0 then None else Some(rects[BiggestIndex(rects, dist)])
  }

  /** Position k holds a rectangle of maximal half-perimeter and no earlier one reaches it. */
  ghost predicate IsEarliestMaximum(rects: seq<RectangleFeature>, dist: Distance, k: int) {
    && 0 <= k < |rects|
    && (forall j :: 0 <= j < |rects| ==> HalfPerimeter(rects[j], dist) <= HalfPerimeter(rects[k], dist))
    && (forall j :: 0 <= j < k ==> HalfPerimeter(rects[j], dist) < HalfPerimeter(rects[k], dist))
  }

  /** The selection is the earliest rectangle of maximal half-perimeter. */
  lemma BiggestIsEarliestMaximum(rects: seq<RectangleFeature>, dist: Distance)
    requires NonNegative(dist) && |rects| > 0
    ensures IsEarliestMaximum(rects, dist, BiggestIndex(rects, dist))
  {
  }

  /** Conversely, any earliest maximum is what `biggestRectangle` returns: the two definitions agree. */
  lemma EarliestMaximumIsBiggest(rects: seq<RectangleFeature>, dist: Distance, k: int)
    requires NonNegative(dist) && IsEarliestMaximum(rects, dist, k)
    ensures BiggestIndex(rects, dist) == k && Biggest(rects, dist) == Some(rects[k])
  {
    BiggestIsEarliestMaximum(rects, dist);
  }

  /** Two candidate lists that differ at most in their bottom-right corners. */
  ghost predicate SameButBottomRight(s: seq<RectangleFeature>, t: seq<RectangleFeature>) {
    && |s| == |t|
    && forall i :: 0 <= i < |s| ==>
         s[i].topLeft == t[i].topLeft && s[i].topRight == t[i].topRight && s[i].bottomLeft == t[i].bottomLeft
  }

  lemma {:induction false} ScanIgnoresBottomRight(s: seq<RectangleFeature>, t: seq<RectangleFeature>, dist: Distance, n: nat)
    requires SameButBottomRight(s, t) && n <= |s|
    ensures Scan(s, dist, n) == Scan(t, dist, n)
  {
    if n > 0 {
      ScanIgnoresBottomRight(s, t, dist, n - 1);
      assert HalfPerimeter(s[n - 1], dist) == HalfPerimeter(t[n - 1], dist);
    }
  }

  /** Moving only bottom-right corners never changes which candidate is chosen. */
  lemma BiggestIgnoresBottomRight(s: seq<RectangleFeature>, t: seq<RectangleFeature>, dist: Distance)
    requires SameButBottomRight(s, t) && |s| > 0
    ensures BiggestIndex(s, dist) == BiggestIndex(t, dist)
  {
    ScanIgnoresBottomRight(s, t, dist, |s|);
  }

  /** `biggestRectangle`, with its loop over the candidates. */
  method BiggestRectangle(rectangles: seq<RectangleFeature>, dist: Distance) returns (r: Option<RectangleFeature>)
    ensures r == Biggest(rectangles, dist)
  {
    if |rectangles| == 0 {
      return None;
    }
    var biggestRectangle := rectangles[0];
    var halfPerimeterValue := 0.0;
    for i := 0 to |rectangles|
      invariant biggestRectangle == rectangles[Scan(rectangles, dist, i).0]
      invariant halfPerimeterValue == Scan(rectangles, dist, i).1
    {
      var rectangle := rectangles[i];
      var width := dist(rectangle.topLeft, rectangle.topRight);
      var height := dist(rectangle.topLeft, rectangle.bottomLeft);
      var currentHalfPerimeterValue := height + width;
      if halfPerimeterValue < currentHalfPerimeterValue {
        halfPerimeterValue := currentHalfPerimeterValue;
        biggestRectangle := rectangle;
      }
    }
    return Some(biggestRectangle);
  }
}
