/** CGFloat geometry (CGSize, CGPoint, CGRect) over the reals; IEEE rounding is not modelled. */
module Geometry {

  datatype Size = Size(width: real, height: real)
  datatype Point = Point(x: real, y: real)
  datatype Rect = Rect(origin: Point, size: Size)

  function Max(a: real, b: real): real { if a >= b then a else b }
  function Min(a: real, b: real): real { if a <= b then a else b }

  /** `floor` on a CGFloat: the largest whole number not above `x`. */
  function Floor(x: real): (r: real)
    ensures r <= x < r + 1.0
    ensures r == r.Floor as real
  {
    x.Floor as real
  }

  /** `Int(x)` on a CGFloat: truncation toward zero. */
  function TruncateToInt(x: real): (r: int)
    ensures 0.0 <= x ==> r as real <= x < r as real + 1.0
    ensures x < 0.0 ==> r as real - 1.0 < x <= r as real
  {
    if x >= 0.0 then x.Floor else -((-x).Floor)
  }
}
