/**
 The data of `BoundingBoxContourGraphic`, the only kind of graphic the
 application puts on the overlay: the detected box, the crop rectangle of
 the frame it was found in, and a paint fixed at construction. All three are
 final fields, so the graphic's data is a value here; the object that holds
 it (and its overlay reference) is `Overlay.Graphic`, whose `Draw` feeds this
 data to `CalculateRect`.
 */
module BoundingBoxContourGraphic {
  import opened Geometry

  /** `Paint.Style`. */
  datatype PaintStyle = Fill | Stroke | FillAndStroke

  /** The three `Paint` settings the graphic makes. */
  datatype Paint = Paint(color: int, style: PaintStyle, strokeWidth: real)

  /** `Color.GREEN`, opaque green as an ARGB word. */
  const Green: int := 0xFF00_FF00

  /** The paint every bounding-box graphic draws with: a green 5-pixel outline. */
  const BoxPaint: Paint := Paint(Green, Stroke, 5.0)

  /** The final fields of a `BoundingBoxContourGraphic`. */
  datatype Contour = Contour(objectBoundingBox: Rect, imageRect: Rect, boxPaint: Paint)

  /**
   The constructor: both rectangles are kept exactly as given, and the paint
   is the same whatever they are.
   */
  function NewContour(objectBoundingBox: Rect, imageRect: Rect): (c: Contour)
    ensures c.objectBoundingBox == objectBoundingBox && c.imageRect == imageRect
    ensures c.boxPaint.style == Stroke && c.boxPaint.strokeWidth == 5.0 && c.boxPaint.color == Green
  {
    Contour(objectBoundingBox, imageRect, BoxPaint)
  }

  /**
   The two numbers `draw` hands to `calculateRect`, in the order it hands
   them: the crop rectangle's height first, then its width.
   */
  function CalculateRectArguments(c: Contour): (args: (real, real))
    ensures args.0 == (c.imageRect.bottom - c.imageRect.top) as real
    ensures args.1 == (c.imageRect.right - c.imageRect.left) as real
  {
    (c.imageRect.Height() as real, c.imageRect.Width() as real)
  }
}
