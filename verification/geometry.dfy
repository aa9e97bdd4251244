/** Points of the plane, as Core Graphics' CGPoint, with real coordinates. */
module Geometry {
  datatype Point = Point(x: real, y: real)

  /** CGPointZero. */
  const Origin := Point(0.0, 0.0)

  /** Componentwise difference p - q. */
  function Sub(p: Point, q: Point): Point {
    Point(p.x - q.x, p.y - q.y)
  }
}
