/**
 * Integer points and axis-aligned bounds, standing for Leaflet's `L.Point`
 * and `L.Bounds` once rounded to whole pixels.
 */
module Geometry {

  datatype Point = Point(x: int, y: int)

  /** A rectangle given by its top-left `min` and bottom-right `max` corners. */
  datatype Bounds = Bounds(min: Point, max: Point)

  function Max(a: int, b: int): int { if a < b then b else a }
  function Min(a: int, b: int): int { if a < b then a else b }

  function Add(p: Point, q: Point): Point { Point(p.x + q.x, p.y + q.y) }

  function Width(b: Bounds): int { b.max.x - b.min.x }
  function Height(b: Bounds): int { b.max.y - b.min.y }

  /** `p` lies in the closed rectangle `b`. */
  predicate Inside(p: Point, b: Bounds) {
    b.min.x <= p.x <= b.max.x && b.min.y <= p.y <= b.max.y
  }

  /** Every edge of `inner` lies within `outer`. */
  predicate Contains(outer: Bounds, inner: Bounds) {
    outer.min.x <= inner.min.x && inner.max.x <= outer.max.x &&
    outer.min.y <= inner.min.y && inner.max.y <= outer.max.y
  }

  /**
   * The componentwise intersection of two rectangles: the larger of the two
   * minima and the smaller of the two maxima on each axis. Its points are
   * exactly the points of both.
   */
  function Crop(a: Bounds, b: Bounds): (c: Bounds)
    ensures forall p {:trigger Inside(p, c)} :: Inside(p, c) <==> Inside(p, a) && Inside(p, b)
    ensures Width(c) <= Width(a) && Height(c) <= Height(a)
    ensures Width(c) <= Width(b) && Height(c) <= Height(b)
    ensures a.min.x <= c.min.x && b.min.x <= c.min.x && a.min.y <= c.min.y && b.min.y <= c.min.y
    ensures Contains(b, a) ==> c == a
  {
    Bounds(Point(Max(a.min.x, b.min.x), Max(a.min.y, b.min.y)),
           Point(Min(a.max.x, b.max.x), Min(a.max.y, b.max.y)))
  }
}
