/**
 * The part of Core Graphics geometry the carousel relies on: points, sizes
 * and rectangles with exact (real) coordinates. Every rectangle the carousel
 * builds has a non-negative width and height, so no standardisation of
 * negative sizes is modelled.
 */
module Geometry {
  datatype Point = Point(x: real, y: real)

  datatype Size = Size(width: real, height: real)

  datatype Rect = Rect(x: real, y: real, width: real, height: real) {
    function MaxX(): real { x + width }

    function MaxY(): real { y + height }

    /** The x-coordinate of the centre, as `UIView.center.x` and `CGRect.midX` give it. */
    function MidX(): real { x + width / 2.0 }

    /** Half-open containment: the left and top edges belong to the rectangle, the right and bottom ones do not. */
    predicate Contains(p: Point) {
      x <= p.x < MaxX() && y <= p.y < MaxY()
    }

    /**
     * The two rectangles share interior area; rectangles that only touch do
     * not intersect. This reading of `CGRect.intersects` is an assumption of
     * the model.
     */
    predicate Intersects(other: Rect) {
      x < other.MaxX() && other.x < MaxX() && y < other.MaxY() && other.y < MaxY()
    }
  }
}
