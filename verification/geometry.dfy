/**
 Plane geometry in Qt's device coordinates (x grows to the right, y grows
 downwards): points, axis-aligned rectangles and the affine steps a
 `QTransform` is built from.
 */
module Geometry {

  datatype Point = Point(x: real, y: real)

  /** A `QRectF(left, top, width, height)`. */
  datatype Rect = Rect(left: real, top: real, width: real, height: real) {

    function Right(): real { left + width }

    function Bottom(): real { top + height }

    /** `p` lies in the rectangle or on its border. */
    predicate ContainsClosed(p: Point) {
      left <= p.x <= Right() && top <= p.y <= Bottom()
    }

    /** `p` lies strictly inside the rectangle. */
    predicate ContainsOpen(p: Point) {
      left < p.x < Right() && top < p.y < Bottom()
    }

    /** Every point of this rectangle lies in `outer`. */
    predicate Within(outer: Rect) {
      outer.left <= left && Right() <= outer.Right() &&
      outer.top <= top && Bottom() <= outer.Bottom()
    }
  }

  /**
   One call on a `QTransform`: `translate`, `rotate` (angle in degrees) or
   `scale`. A transform is the list of calls made on an identity transform,
   in order; the empty list is the identity.
   */
  datatype Step =
    | Translate(dx: real, dy: real)
    | Rotate(degrees: real)
    | Scale(sx: real, sy: real)

  type Transform = seq<Step>
}
