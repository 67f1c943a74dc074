/**
 * Core Graphics points and rectangles in window coordinates, with the
 * CGRect accessors the layout code reads. `nfloat` is modelled as `real`.
 */
module Geometry {

  datatype Point = Point(x: real, y: real)

  /** A CGRect: origin plus size. Sizes are taken as given (no standardisation of negative sizes). */
  datatype Rect = Rect(x: real, y: real, width: real, height: real) {
    function MinX(): real { x }
    function MaxX(): real { x + width }
    function MidX(): real { x + width / 2.0 }
    function MinY(): real { y }
    function MaxY(): real { y + height }
    function MidY(): real { y + height / 2.0 }
  }

  /** System.Math.Abs on nfloat. */
  function Abs(v: real): (r: real)
    ensures r >= 0.0
    ensures v >= 0.0 ==> r == v
    ensures v < 0.0 ==> r == -v
  {
    if v < 0.0 then -v else v
  }
}
