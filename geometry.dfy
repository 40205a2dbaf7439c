/** The few CoreGraphics / UIKit value types the layout engine computes with (`CGFloat` is `real`). */
module Geometry {
  datatype Point = Point(x: real, y: real)

  datatype Rect = Rect(x: real, y: real, width: real, height: real)

  /** `UIEdgeInsets(top:left:bottom:right:)`; negative values grow a rectangle. */
  datatype EdgeInsets = EdgeInsets(top: real, left: real, bottom: real, right: real)

  const ZeroInsets := EdgeInsets(0.0, 0.0, 0.0, 0.0)

  function Min(a: real, b: real): real
  {
    if a <= b then a else b
  }

  function Max(a: real, b: real): real
  {
    if a >= b then a else b
  }

  /** `UIEdgeInsetsInsetRect`: each side moves inwards by its inset. */
  function InsetRect(r: Rect, e: EdgeInsets): Rect
  {
    Rect(r.x + e.left, r.y + e.top, r.width - e.left - e.right, r.height - e.top - e.bottom)
  }

  /** `CGRectContainsPoint` for a rectangle of non-negative size: half-open on the far edges. */
  predicate Contains(r: Rect, p: Point)
  {
    r.x <= p.x < r.x + r.width && r.y <= p.y < r.y + r.height
  }
}
