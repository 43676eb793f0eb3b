/** Value types shared by the tracker, the calibration and the scorer:
    CoreGraphics points, sizes and rectangles over reals, the tracker's
    `GuitarZone` record and the hand-pose joint names. */
module Geometry {

  datatype Point = Point(x: real, y: real)

  datatype Size = Size(width: real, height: real)

  /** A `CGRect`. Vision hands out normalised boxes with the origin at the
      bottom left; the accessors follow CoreGraphics, which reads a negative
      width or height as extending towards smaller values. The stored
      `width` and `height` may be negative; `Width()` and `Height()` are the
      standardized, never negative, sizes that `CGRect.width` and
      `CGRect.height` return. */
  datatype Rect = Rect(x: real, y: real, width: real, height: real)
  {
    function Width(): real { if width < 0.0 then -width else width }
    function Height(): real { if height < 0.0 then -height else height }
    function MinX(): real { if width < 0.0 then x + width else x }
    function MaxX(): real { if width < 0.0 then x else x + width }
    function MinY(): real { if height < 0.0 then y + height else y }
    function MaxY(): real { if height < 0.0 then y else y + height }
    function MidX(): real { x + width / 2.0 }
    function MidY(): real { y + height / 2.0 }
  }

  /** The normalised bounds of the four-fret window, top-left origin
      (the record built at GuitarNeckTracker.swift:201-206). */
  datatype GuitarZone = GuitarZone(nutY: real, fret4Y: real, leftX: real, rightX: real)

  /** The hand-pose joints. The four fingertips are the ones the lesson
      scores; every other joint of the 21-joint skeleton is `OtherJoint`. */
  datatype Joint = IndexTip | MiddleTip | RingTip | LittleTip | OtherJoint(name: string)

  /** A normalised point placed in a view: `p.x * width`, `p.y * height`. */
  function ScaleToView(p: Point, size: Size): Point
  {
    Point(p.x * size.width, p.y * size.height)
  }

  predicate InUnitSquare(p: Point)
  {
    0.0 <= p.x <= 1.0 && 0.0 <= p.y <= 1.0
  }
}
