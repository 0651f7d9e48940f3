/** The CoreGraphics values a scroll view hands to the prefetch rule: points,
    sizes and rectangles, with exact reals in place of CGFloat. */
module Geometry {

  datatype Point = Point(x: real, y: real)

  datatype Size = Size(width: real, height: real)

  datatype Rect = Rect(origin: Point, size: Size)

  /** CGRect.zero */
  const ZeroRect: Rect := Rect(Point(0.0, 0.0), Size(0.0, 0.0))

  function Abs(v: real): real {
    if v < 0.0 then -v else v
  }

  /** CGRect.width: the width of the rectangle as if it were standardized,
      so a rectangle stored with a negative width reports its magnitude. */
  function Width(r: Rect): (w: real)
    ensures w >= 0.0
    ensures w == r.size.width || w == -r.size.width
    ensures r.size.width >= 0.0 ==> w == r.size.width
  {
    Abs(r.size.width)
  }

  /** CGRect.height, standardized in the same way as Width. */
  function Height(r: Rect): (h: real)
    ensures h >= 0.0
    ensures h == r.size.height || h == -r.size.height
    ensures r.size.height >= 0.0 ==> h == r.size.height
  {
    Abs(r.size.height)
  }

  /** `r.equalTo(CGRect.zero)`. Standardizing a rectangle changes nothing
      once its size is zero, so comparing with the zero rectangle is plain
      equality of origin and size. */
  predicate IsZero(r: Rect) {
    r.origin.x == 0.0 && r.origin.y == 0.0 && r.size.width == 0.0 && r.size.height == 0.0
  }

  /** What the host scroll view reports when its content offset changes. */
  datatype ScrollGeometry = ScrollGeometry(bounds: Rect, contentSize: Size, contentOffset: Point)
}
