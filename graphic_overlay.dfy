/**
 `GraphicOverlay`, the view that draws graphics over the camera preview, and
 its nested `Graphic`, which maps detector coordinates into view coordinates.

 The view's measured width and height and the device orientation are read
 from the platform in the application; here they are parameters, and the view
 is assumed to have been laid out (both sizes positive). `float` is `real`.
 */
module Overlay {
  import opened Geometry
  import opened BoundingBoxContourGraphic

  /** `CameraSelector.LENS_FACING_FRONT` and `CameraSelector.LENS_FACING_BACK`. */
  const LensFacingFront: int := 0
  const LensFacingBack: int := 1

  /** What `Preconditions.checkState` does: return, or throw `IllegalStateException` with a message. */
  datatype Outcome = Success | IllegalState(message: string)

  /** `toggleSelector` as a function of the selector it finds. */
  function Toggled(selector: int): (r: int)
    ensures r == LensFacingFront || r == LensFacingBack
    ensures r == LensFacingFront <==> selector == LensFacingBack
  {
    if selector == LensFacingBack then LensFacingFront else LensFacingBack
  }

  /** Toggling twice gives back a selector that was BACK or FRONT, and toggling always changes it. */
  lemma ToggleTwiceRestores(selector: int)
    requires selector == LensFacingBack || selector == LensFacingFront
    ensures Toggled(Toggled(selector)) == selector
    ensures Toggled(selector) != selector
  {
  }

  // ---------------------------------------------------------------------
  // Lists of graphics: `ArrayList.remove(Object)` removes the first entry
  // equal to its argument (for graphics, the same object) if there is one.
  // ---------------------------------------------------------------------

  /** The position of the first `x` in `s`, or -1 when there is none. */
  function IndexOf<T(==)>(s: seq<T>, x: T): (i: int)
    ensures -1 <= i < |s|
    ensures i < 0 <==> x !in s
    ensures 0 <= i ==> s[i] == x && forall j :: 0 <= j < i ==> s[j] != x
  {
    if |s| == 0 then -1
    else if s[0] == x then 0
    else
      var k := IndexOf(s[1..], x);
      if k < 0 then -1 else k + 1
  }

  /** `s` without its first `x`; `s` itself when it holds no `x`. */
  function RemoveFirst<T(==)>(s: seq<T>, x: T): (r: seq<T>)
    ensures x !in s ==> r == s
    ensures x in s ==> |r| == |s| - 1 && multiset(r) == multiset(s) - multiset{x}
    ensures x in s ==> exists i :: 0 <= i < |s| && s[i] == x && x !in s[..i] && r == s[..i] + s[i + 1..]
  {
    var i := IndexOf(s, x);
    if i < 0 then s
    else
      assert s == s[..i] + [s[i]] + s[i + 1..];
      assert x !in s[..i];
      s[..i] + s[i + 1..]
  }

  // ---------------------------------------------------------------------
  // The frame-level transformation (`updateTransformationIfNeeded`).
  // ---------------------------------------------------------------------

  /** The scale factor and the two post-scale offsets the overlay caches. */
  datatype Transform = Transform(scaleFactor: real, postScaleWidthOffset: real, postScaleHeightOffset: real)

  /**
   The recomputation of `updateTransformationIfNeeded`: both offsets start at
   zero; if the view is wider than the image (by aspect ratio) the width fits
   and the height is cropped, otherwise the height fits and the width is cropped.
   */
  function AspectFill(viewW: int, viewH: int, imageW: int, imageH: int): Transform
    requires viewW > 0 && viewH > 0 && imageW > 0 && imageH > 0
  {
    var viewAspectRatio := viewW as real / viewH as real;
    var imageAspectRatio := imageW as real / imageH as real;
    if viewAspectRatio > imageAspectRatio then
      Transform(viewW as real / imageW as real, 0.0, (viewW as real / imageAspectRatio - viewH as real) / 2.0)
    else
      Transform(viewH as real / imageH as real, (viewH as real * imageAspectRatio - viewW as real) / 2.0, 0.0)
  }

  /**
   The recomputed transformation is an aspect fill: the scaled image covers
   the view on both axes (offsets are never negative), it is centred (each
   offset is half the overflow on its axis), and the scale is the smallest
   that covers (one axis fits exactly).
   */
  lemma {:induction false} AspectFillCovers(viewW: int, viewH: int, imageW: int, imageH: int)
    requires viewW > 0 && viewH > 0 && imageW > 0 && imageH > 0
    ensures var t := AspectFill(viewW, viewH, imageW, imageH);
      && t.scaleFactor > 0.0
      && t.postScaleWidthOffset == (imageW as real * t.scaleFactor - viewW as real) / 2.0
      && t.postScaleHeightOffset == (imageH as real * t.scaleFactor - viewH as real) / 2.0
      && t.postScaleWidthOffset >= 0.0 && t.postScaleHeightOffset >= 0.0
      && (t.postScaleWidthOffset == 0.0 || t.postScaleHeightOffset == 0.0)
  {
    var vw, vh, iw, ih := viewW as real, viewH as real, imageW as real, imageH as real;
    var viewAspectRatio, imageAspectRatio := vw / vh, iw / ih;
    DivMulCancel(vw, vh);
    DivMulCancel(iw, ih);
    if viewAspectRatio > imageAspectRatio {
      var s, h := vw / iw, vw / imageAspectRatio;
      DivMulCancel(vw, iw);
      DivMulCancel(vw, imageAspectRatio);
      WidthFits(vw, vh, iw, ih, viewAspectRatio, imageAspectRatio, s, h);
    } else {
      var s := vh / ih;
      DivMulCancel(vh, ih);
      HeightFits(vw, vh, iw, ih, viewAspectRatio, imageAspectRatio, s);
    }
  }

  /**
   The branch of `AspectFill` where the view is the wider, in product form:
   with `a` and `r` the view's and the image's aspect ratios and `s` the scale
   that fits the width, the height `h` the branch computes is the scaled image
   height, and it overflows the view.
   */
  lemma {:induction false} WidthFits(vw: real, vh: real, iw: real, ih: real, a: real, r: real, s: real, h: real)
    requires vw > 0.0 && vh > 0.0 && iw > 0.0 && ih > 0.0
    requires a * vh == vw && r * ih == iw && s * iw == vw && h * r == vw && a > r
    ensures s > 0.0 && h == ih * s && h > vh
  {
    MulMonotone(s, 0.0, iw);
    MulMonotone(r, 0.0, ih);
    MulEqual(r * ih, iw, s);
    MulMonotone(ih * s, h, r);
    MulMonotone(h, ih * s, r);
    MulMonotone(r, a, vh);
    MulMonotone(h, vh, r);
  }

  /**
   The branch of `AspectFill` where the view is not the wider, in product
   form: with `s` the scale that fits the height, the branch's
   `vh * r` is the scaled image width, and it covers the view.
   */
  lemma {:induction false} HeightFits(vw: real, vh: real, iw: real, ih: real, a: real, r: real, s: real)
    requires vw > 0.0 && vh > 0.0 && iw > 0.0 && ih > 0.0
    requires a * vh == vw && r * ih == iw && s * ih == vh && a <= r
    ensures s > 0.0 && vh * r == iw * s && iw * s >= vw
  {
    MulMonotone(s, 0.0, ih);
    MulEqual(r * ih, iw, s);
    MulEqual(s * ih, vh, r);
    MulMonotone(a, r, vh);
  }

  /**
   A 640 by 480 image in a 640 by 480 view needs no crop; once the view is
   resized to 1280 by 480, the view is the wider and the height is cropped:
   scale 2, and 240 pixels cut from the top (and the bottom).
   */
  lemma {:induction false} AspectFillExample()
    ensures AspectFill(640, 480, 640, 480) == Transform(1.0, 0.0, 0.0)
    ensures AspectFill(1280, 480, 640, 480) == Transform(2.0, 0.0, 240.0)
  {
    assert 640.0 / 480.0 > 0.0;
    assert 1280.0 / (640.0 / 480.0) == 960.0;
  }

  /**
   The matrix `updateTransformationIfNeeded` builds: `setScale(s, s)`, then
   `postTranslate(-widthOffset, -heightOffset)`, then, for a flipped image,
   `postScale(-1, 1)` about the centre of the view.
   */
  function TransformationMatrix(t: Transform, flipped: bool, viewW: int, viewH: int): Matrix
  {
    var m := ScaleMatrix(t.scaleFactor, t.scaleFactor).PostTranslate(-t.postScaleWidthOffset, -t.postScaleHeightOffset);
    if flipped then m.PostScale(-1.0, 1.0, viewW as real / 2.0, viewH as real / 2.0) else m
  }

  /**
   The matrix sends an image point to the same place as `Graphic.translateX`
   and `Graphic.translateY`: scale, subtract the offset, and for a flipped image
   reflect x about the middle of the view, so that the flipped and the
   unflipped x of a point sum to the view width.
   */
  lemma {:induction false} TransformationMatrixMaps(t: Transform, flipped: bool, viewW: int, viewH: int, x: real, y: real)
    ensures TransformationMatrix(t, flipped, viewW, viewH).MapX(x)
      == if flipped then viewW as real - (x * t.scaleFactor - t.postScaleWidthOffset)
         else x * t.scaleFactor - t.postScaleWidthOffset
    ensures TransformationMatrix(t, flipped, viewW, viewH).MapY(y) == y * t.scaleFactor - t.postScaleHeightOffset
    ensures TransformationMatrix(t, true, viewW, viewH).MapX(x) + TransformationMatrix(t, false, viewW, viewH).MapX(x)
      == viewW as real
  {
    var m := ScaleMatrix(t.scaleFactor, t.scaleFactor).PostTranslate(-t.postScaleWidthOffset, -t.postScaleHeightOffset);
    assert m.MapX(x) == x * t.scaleFactor - t.postScaleWidthOffset;
    assert m.MapY(y) == y * t.scaleFactor - t.postScaleHeightOffset;
    MirrorAboutCentre(m, viewW as real / 2.0, viewH as real / 2.0, x, y);
  }

  // ---------------------------------------------------------------------
  // The per-graphic fit (`Graphic.calculateRect`).
  // ---------------------------------------------------------------------

  /** The scale and the two centring offsets `calculateRect` computes. */
  datatype Fit = Fit(scale: real, offsetX: real, offsetY: real)

  /**
   The cover fit of `calculateRect` for a frame of `fitWidth` by `fitHeight`:
   the larger of the two axis scales, and offsets that centre the frame,
   rounded up to whole pixels, in the view.
   */
  function CoverFit(fitWidth: real, fitHeight: real, viewW: int, viewH: int): Fit
    requires fitWidth > 0.0 && fitHeight > 0.0 && viewW > 0 && viewH > 0
  {
    var scale := Max(viewW as real / fitWidth, viewH as real / fitHeight);
    Fit(scale,
        (viewW as real - Ceil(fitWidth * scale) as real) / 2.0,
        (viewH as real - Ceil(fitHeight * scale) as real) / 2.0)
  }

  /**
   The fit covers the view: the scaled frame is at least as large as the view
   on both axes, with the smallest such scale (one of the two axis scales);
   both offsets are at most zero, and each lies within half a pixel of
   centring the scaled frame on its axis.
   */
  lemma {:induction false} CoverFitCovers(fitWidth: real, fitHeight: real, viewW: int, viewH: int)
    requires fitWidth > 0.0 && fitHeight > 0.0 && viewW > 0 && viewH > 0
    ensures var f := CoverFit(fitWidth, fitHeight, viewW, viewH);
      && f.scale > 0.0
      && fitWidth * f.scale >= viewW as real && fitHeight * f.scale >= viewH as real
      && (f.scale == viewW as real / fitWidth || f.scale == viewH as real / fitHeight)
      && f.offsetX <= 0.0 && f.offsetY <= 0.0
      && (viewW as real - fitWidth * f.scale) / 2.0 - 0.5 < f.offsetX <= (viewW as real - fitWidth * f.scale) / 2.0
      && (viewH as real - fitHeight * f.scale) / 2.0 - 0.5 < f.offsetY <= (viewH as real - fitHeight * f.scale) / 2.0
  {
    var f := CoverFit(fitWidth, fitHeight, viewW, viewH);
    var scaleX, scaleY := viewW as real / fitWidth, viewH as real / fitHeight;
    var scale := Max(scaleX, scaleY);
    assert f.scale == scale;
    DivMulCancel(viewW as real, fitWidth);
    DivMulCancel(viewH as real, fitHeight);
    MulMonotone(scaleX, 0.0, fitWidth);
    MulMonotone(scaleX, scale, fitWidth);
    MulMonotone(scaleY, scale, fitHeight);
    MulEqual(f.scale, scale, fitWidth);
    MulEqual(f.scale, scale, fitHeight);
  }

  /**
   The rectangle `calculateRect` returns for `box` under the fit `f`: the
   mapped left edge comes from the box's right edge and the mapped right edge
   from its left edge; in front mode both are then reflected about the
   view's vertical centre line.
   */
  function MappedBox(box: Rect, f: Fit, frontMode: bool, viewW: int): RectF
  {
    var left := box.right as real * f.scale + f.offsetX;
    var top := box.top as real * f.scale + f.offsetY;
    var right := box.left as real * f.scale + f.offsetX;
    var bottom := box.bottom as real * f.scale + f.offsetY;
    if frontMode then
      var centerX := viewW as real / 2.0;
      RectF(centerX + (centerX - left), top, centerX - (right - centerX), bottom)
    else
      RectF(left, top, right, bottom)
  }

  /**
   Front mode reflects the horizontal edges about the view's centre and leaves
   the vertical ones alone; with a positive scale the back-camera rectangle has
   its horizontal edges reversed (left at or right of right), the front-camera
   one has them in order, the vertical order of the box is kept, and the
   mapped sides are the box's sides times the scale.
   */
  lemma {:induction false} MappedBoxGeometry(box: Rect, f: Fit, viewW: int)
    requires f.scale > 0.0 && box.left <= box.right && box.top <= box.bottom
    ensures var back, front := MappedBox(box, f, false, viewW), MappedBox(box, f, true, viewW);
      && front.left + back.left == viewW as real && front.right + back.right == viewW as real
      && front.top == back.top && front.bottom == back.bottom
      && back.right <= back.left && front.left <= front.right
      && back.top <= back.bottom
      && back.left - back.right == box.Width() as real * f.scale
      && front.right - front.left == box.Width() as real * f.scale
      && back.bottom - back.top == box.Height() as real * f.scale
  {
    var back, front := MappedBox(box, f, false, viewW), MappedBox(box, f, true, viewW);
    var w, h := box.right as real - box.left as real, box.bottom as real - box.top as real;
    MulSubDistrib(box.right as real, box.left as real, f.scale);
    MulSubDistrib(box.bottom as real, box.top as real, f.scale);
    MulEqual(box.Width() as real, w, f.scale);
    MulEqual(box.Height() as real, h, f.scale);
    MulMonotone(0.0, w, f.scale);
    MulMonotone(0.0, h, f.scale);
    assert back.left - back.right == w * f.scale;
    assert back.bottom - back.top == h * f.scale;
    assert front.right - front.left == back.left - back.right;
  }

  /**
   The fit the bounding-box graphic `c` uses in a `viewW` by `viewH` view: the
   crop rectangle's height and width go to `calculateRect` in that order, and
   `calculateRect` picks its frame width and height from them by orientation.
   */
  function DrawFit(c: Contour, viewW: int, viewH: int, landscape: bool): Fit
    requires c.imageRect.Width() > 0 && c.imageRect.Height() > 0 && viewW > 0 && viewH > 0
  {
    var (height, width) := CalculateRectArguments(c);
    CoverFit(Graphic.WhenLandScapeModeWidth(height, width, landscape),
             Graphic.WhenLandScapeModeHeight(height, width, landscape), viewW, viewH)
  }

  /** What the bounding-box graphic `c` draws: its box mapped under its fit. */
  function DrawnRect(c: Contour, viewW: int, viewH: int, landscape: bool, frontMode: bool): RectF
    requires c.imageRect.Width() > 0 && c.imageRect.Height() > 0 && viewW > 0 && viewH > 0
  {
    MappedBox(c.objectBoundingBox, DrawFit(c, viewW, viewH, landscape), frontMode, viewW)
  }

  /**
   The fit basis of a drawn bounding box: in landscape the crop rectangle's
   width and height are fitted to the view's width and height, in portrait
   its height and width are.
   */
  lemma DrawnRectBasis(c: Contour, viewW: int, viewH: int, landscape: bool)
    requires c.imageRect.Width() > 0 && c.imageRect.Height() > 0 && viewW > 0 && viewH > 0
    ensures landscape ==>
              DrawFit(c, viewW, viewH, landscape)
              == CoverFit(c.imageRect.Width() as real, c.imageRect.Height() as real, viewW, viewH)
    ensures !landscape ==>
              DrawFit(c, viewW, viewH, landscape)
              == CoverFit(c.imageRect.Height() as real, c.imageRect.Width() as real, viewW, viewH)
  {
  }

  /**
   A 640 by 480 crop drawn in landscape in a 640 by 480 view is drawn at
   scale 1 with no offset: the box (100, 50, 180, 120) comes out with its
   horizontal edges swapped, and in front mode reflected about x = 320.
   */
  lemma {:induction false} DrawnRectExample()
    ensures var c := NewContour(Rect(100, 50, 180, 120), Rect(0, 0, 640, 480));
      && CoverFit(640.0, 480.0, 640, 480) == Fit(1.0, 0.0, 0.0)
      && DrawnRect(c, 640, 480, true, false) == RectF(180.0, 50.0, 100.0, 120.0)
      && DrawnRect(c, 640, 480, true, true) == RectF(460.0, 50.0, 540.0, 120.0)
  {
    assert Max(640.0 / 640.0, 480.0 / 480.0) == 1.0;
    assert Ceil(640.0) == 640 && Ceil(480.0) == 480;
  }

  // ---------------------------------------------------------------------
  // The overlay view.
  // ---------------------------------------------------------------------

  class GraphicOverlay {
    var graphics: seq<Graphic>
    var transformationMatrix: Matrix
    var cameraSelector: int
    var imageWidth: int
    var imageHeight: int
    var scaleFactor: real
    var postScaleWidthOffset: real
    var postScaleHeightOffset: real
    var isImageFlipped: bool
    var needUpdateTransformation: bool

    /** The cached scale and offsets, as one value. */
    function CurrentTransform(): Transform
      reads this
    {
      Transform(scaleFactor, postScaleWidthOffset, postScaleHeightOffset)
    }

    /** A new overlay: no graphics, back camera, no image size yet, and a pending recomputation. */
    constructor ()
      ensures graphics == [] && cameraSelector == LensFacingBack && !IsFrontMode()
      ensures imageWidth == 0 && imageHeight == 0 && !isImageFlipped
      ensures CurrentTransform() == Transform(1.0, 0.0, 0.0) && transformationMatrix == Identity
      ensures needUpdateTransformation
    {
      graphics := [];
      transformationMatrix := Identity;
      cameraSelector := LensFacingBack;
      imageWidth, imageHeight := 0, 0;
      scaleFactor := 1.0;
      postScaleWidthOffset, postScaleHeightOffset := 0.0, 0.0;
      isImageFlipped := false;
      needUpdateTransformation := true;
    }

    /** The layout-change listener: any new bounds make the transformation stale. */
    method OnLayoutChange()
      modifies this`needUpdateTransformation
      ensures needUpdateTransformation
    {
      needUpdateTransformation := true;
    }

    method Clear()
      modifies this`graphics
      ensures graphics == []
    {
      graphics := [];
    }

    method Add(graphic: Graphic)
      modifies this`graphics
      ensures graphics == old(graphics) + [graphic]
    {
      graphics := graphics + [graphic];
    }

    method Remove(graphic: Graphic)
      modifies this`graphics
      ensures graphics == RemoveFirst(old(graphics), graphic)
    {
      graphics := RemoveFirst(graphics, graphic);
    }

    /**
     Rejects a non-positive width, then a non-positive height, before touching
     anything; otherwise records the image size and flip and marks the
     transformation stale.
     */
    method SetImageSourceInfo(imageWidth: int, imageHeight: int, isFlipped: bool) returns (outcome: Outcome)
      modifies this`imageWidth, this`imageHeight, this`isImageFlipped, this`needUpdateTransformation
      ensures outcome == if imageWidth <= 0 then IllegalState("image width must be positive")
                         else if imageHeight <= 0 then IllegalState("image height must be positive")
                         else Success
      ensures !outcome.Success? ==> unchanged(this)
      ensures outcome.Success? ==>
        && this.imageWidth == imageWidth && this.imageHeight == imageHeight
        && isImageFlipped == isFlipped && needUpdateTransformation
    {
      if imageWidth <= 0 {
        return IllegalState("image width must be positive");
      }
      if imageHeight <= 0 {
        return IllegalState("image height must be positive");
      }
      this.imageWidth := imageWidth;
      this.imageHeight := imageHeight;
      isImageFlipped := isFlipped;
      needUpdateTransformation := true;
      outcome := Success;
    }

    /**
     Recomputes the cached transformation and matrix when it is stale and an
     image size is known, and then clears the stale mark; otherwise changes
     nothing. Either way, a second call right after changes nothing.
     */
    method UpdateTransformationIfNeeded(viewW: int, viewH: int)
      requires viewW > 0 && viewH > 0
      modifies this`scaleFactor, this`postScaleWidthOffset, this`postScaleHeightOffset
      modifies this`transformationMatrix, this`needUpdateTransformation
      ensures !old(needUpdateTransformation) || imageWidth <= 0 || imageHeight <= 0 ==> unchanged(this)
      ensures old(needUpdateTransformation) && imageWidth > 0 && imageHeight > 0 ==>
        && CurrentTransform() == AspectFill(viewW, viewH, imageWidth, imageHeight)
        && transformationMatrix == TransformationMatrix(CurrentTransform(), isImageFlipped, viewW, viewH)
      ensures !needUpdateTransformation || imageWidth <= 0 || imageHeight <= 0
    {
      if !needUpdateTransformation || imageWidth <= 0 || imageHeight <= 0 {
        return;
      }
      var viewAspectRatio := viewW as real / viewH as real;
      var imageAspectRatio := imageWidth as real / imageHeight as real;
      postScaleWidthOffset := 0.0;
      postScaleHeightOffset := 0.0;
      if viewAspectRatio > imageAspectRatio {
        // the image is cropped vertically
        scaleFactor := viewW as real / imageWidth as real;
        postScaleHeightOffset := (viewW as real / imageAspectRatio - viewH as real) / 2.0;
      } else {
        // the image is cropped horizontally
        scaleFactor := viewH as real / imageHeight as real;
        postScaleWidthOffset := (viewH as real * imageAspectRatio - viewW as real) / 2.0;
      }

      transformationMatrix := Identity;
      transformationMatrix := ScaleMatrix(scaleFactor, scaleFactor);
      transformationMatrix := transformationMatrix.PostTranslate(-postScaleWidthOffset, -postScaleHeightOffset);
      if isImageFlipped {
        transformationMatrix := transformationMatrix.PostScale(-1.0, 1.0, viewW as real / 2.0, viewH as real / 2.0);
      }

      needUpdateTransformation := false;
    }

    /**
     `onDraw`: recompute the transformation if needed, then draw every graphic
     in list order; the result is the list of rectangles drawn. Every graphic
     draws on this overlay and writes its own fit into the cached scale and
     offsets, so afterwards they hold the last graphic's fit (offsets crossed),
     or the recomputed transformation when there is no graphic.
     */
    method OnDraw(viewW: int, viewH: int, landscape: bool) returns (drawn: seq<RectF>)
      requires viewW > 0 && viewH > 0
      requires forall g :: g in graphics ==>
        g.overlay == this && g.contour.imageRect.Width() > 0 && g.contour.imageRect.Height() > 0
      modifies this`scaleFactor, this`postScaleWidthOffset, this`postScaleHeightOffset
      modifies this`transformationMatrix, this`needUpdateTransformation
      ensures graphics == old(graphics)
      ensures |drawn| == |graphics|
      ensures forall i :: 0 <= i < |drawn| ==>
        drawn[i] == DrawnRect(graphics[i].contour, viewW, viewH, landscape, IsFrontMode())
      ensures !old(needUpdateTransformation) || imageWidth <= 0 || imageHeight <= 0 ==>
        && transformationMatrix == old(transformationMatrix)
        && needUpdateTransformation == old(needUpdateTransformation)
        && (|graphics| == 0 ==> CurrentTransform() == old(CurrentTransform()))
      ensures old(needUpdateTransformation) && imageWidth > 0 && imageHeight > 0 ==>
        && transformationMatrix
           == TransformationMatrix(AspectFill(viewW, viewH, imageWidth, imageHeight), isImageFlipped, viewW, viewH)
        && !needUpdateTransformation
        && (|graphics| == 0 ==> CurrentTransform() == AspectFill(viewW, viewH, imageWidth, imageHeight))
      ensures |graphics| > 0 ==>
        var f := DrawFit(graphics[|graphics| - 1].contour, viewW, viewH, landscape);
        CurrentTransform() == Transform(f.scale, f.offsetY, f.offsetX)
    {
      UpdateTransformationIfNeeded(viewW, viewH);
      ghost var recomputed, matrix, stale := CurrentTransform(), transformationMatrix, needUpdateTransformation;
      drawn := [];
      var i := 0;
      while i < |graphics|
        invariant 0 <= i <= |graphics| && graphics == old(graphics)
        invariant |drawn| == i
        invariant forall k :: 0 <= k < i ==>
          drawn[k] == DrawnRect(graphics[k].contour, viewW, viewH, landscape, IsFrontMode())
        invariant transformationMatrix == matrix && needUpdateTransformation == stale
        invariant i == 0 ==> CurrentTransform() == recomputed
        invariant i > 0 ==>
          var f := DrawFit(graphics[i - 1].contour, viewW, viewH, landscape);
          CurrentTransform() == Transform(f.scale, f.offsetY, f.offsetX)
      {
        var r := graphics[i].Draw(viewW, viewH, landscape);
        drawn := drawn + [r];
        i := i + 1;
      }
    }

    function IsFrontMode(): bool
      reads this
    {
      cameraSelector == LensFacingFront
    }

    /** BACK becomes FRONT; anything else becomes BACK. */
    method ToggleSelector()
      modifies this`cameraSelector
      ensures cameraSelector == Toggled(old(cameraSelector))
      ensures old(cameraSelector) == LensFacingBack || old(cameraSelector) == LensFacingFront ==>
        IsFrontMode() == !old(IsFrontMode())
    {
      if cameraSelector == LensFacingBack {
        cameraSelector := LensFacingFront;
      } else {
        cameraSelector := LensFacingBack;
      }
    }
  }

  /**
   `GraphicOverlay.Graphic` together with its one subclass: the overlay it is
   drawn on, and the bounding-box data it draws.
   */
  class Graphic {
    const overlay: GraphicOverlay
    const contour: Contour

    /** `new BoundingBoxContourGraphic(overlay, objectBoundingBox, imageRect)`. */
    constructor (overlay: GraphicOverlay, objectBoundingBox: Rect, imageRect: Rect)
      ensures this.overlay == overlay && contour == NewContour(objectBoundingBox, imageRect)
    {
      this.overlay := overlay;
      contour := NewContour(objectBoundingBox, imageRect);
    }

    /** `scale`: an image length in view pixels, as the matrix's scale part maps it. */
    function Scale(imagePixel: real): (r: real)
      reads overlay
      ensures r == ScaleMatrix(overlay.scaleFactor, overlay.scaleFactor).MapX(imagePixel)
    {
      imagePixel * overlay.scaleFactor
    }

    /**
     `translateX`: the scaled and shifted x, which is what the matrix without
     its flip gives; for a flipped image it is that point's mirror image about
     the view's vertical centre line.
     */
    function TranslateX(x: real, viewW: int): (r: real)
      reads overlay
      ensures var m := ScaleMatrix(overlay.scaleFactor, overlay.scaleFactor)
                         .PostTranslate(-overlay.postScaleWidthOffset, -overlay.postScaleHeightOffset);
        && (!overlay.isImageFlipped ==> r == m.MapX(x))
        && (overlay.isImageFlipped ==> r + m.MapX(x) == viewW as real)
    {
      if overlay.isImageFlipped then viewW as real - (Scale(x) - overlay.postScaleWidthOffset)
      else Scale(x) - overlay.postScaleWidthOffset
    }

    /** `translateY`: the scaled and shifted y, as the matrix maps it (the flip keeps y). */
    function TranslateY(y: real): (r: real)
      reads overlay
      ensures r == ScaleMatrix(overlay.scaleFactor, overlay.scaleFactor)
                     .PostTranslate(-overlay.postScaleWidthOffset, -overlay.postScaleHeightOffset).MapY(y)
    {
      Scale(y) - overlay.postScaleHeightOffset
    }

    /** The width of the frame to fit: `width` in landscape, `height` in portrait. */
    static function WhenLandScapeModeWidth(height: real, width: real, landscape: bool): real
    {
      if landscape then width else height
    }

    /** The height of the frame to fit: `height` in landscape, `width` in portrait. */
    static function WhenLandScapeModeHeight(height: real, width: real, landscape: bool): real
    {
      if landscape then height else width
    }

    /**
     Maps `boundingBoxT` into the view with the cover fit of a frame whose
     size is given height first, and as a side effect stores the fit's scale
     into the overlay's scale factor and its x and y offsets into the overlay's
     HEIGHT and WIDTH offsets respectively; nothing else changes.
     */
    method CalculateRect(height: real, width: real, boundingBoxT: Rect, viewW: int, viewH: int, landscape: bool)
      returns (mappedBox: RectF)
      requires height > 0.0 && width > 0.0 && viewW > 0 && viewH > 0
      modifies overlay`scaleFactor, overlay`postScaleHeightOffset, overlay`postScaleWidthOffset
      ensures var f := CoverFit(WhenLandScapeModeWidth(height, width, landscape),
                                WhenLandScapeModeHeight(height, width, landscape), viewW, viewH);
        && mappedBox == MappedBox(boundingBoxT, f, overlay.IsFrontMode(), viewW)
        && overlay.scaleFactor == f.scale
        && overlay.postScaleHeightOffset == f.offsetX
        && overlay.postScaleWidthOffset == f.offsetY
    {
      var fitWidth := WhenLandScapeModeWidth(height, width, landscape);
      var fitHeight := WhenLandScapeModeHeight(height, width, landscape);
      var fit := CoverFit(fitWidth, fitHeight, viewW, viewH);
      overlay.scaleFactor := fit.scale;
      // the x offset goes to the height offset and the y offset to the width offset
      overlay.postScaleHeightOffset := fit.offsetX;
      overlay.postScaleWidthOffset := fit.offsetY;
      mappedBox := MappedBox(boundingBoxT, fit, overlay.IsFrontMode(), viewW);
    }

    /**
     `BoundingBoxContourGraphic.draw`: the rectangle drawn depends only on the
     stored box and crop rectangle, the view size, the orientation and the
     camera selector, never on the scale and offsets a previous draw left
     behind; the overlay is left holding this graphic's fit, with the offsets
     crossed as `calculateRect` writes them.
     */
    method Draw(viewW: int, viewH: int, landscape: bool) returns (rectF: RectF)
      requires viewW > 0 && viewH > 0 && contour.imageRect.Width() > 0 && contour.imageRect.Height() > 0
      modifies overlay`scaleFactor, overlay`postScaleHeightOffset, overlay`postScaleWidthOffset
      ensures rectF == DrawnRect(contour, viewW, viewH, landscape, overlay.IsFrontMode())
      ensures var f := DrawFit(contour, viewW, viewH, landscape);
        && overlay.scaleFactor == f.scale
        && overlay.postScaleHeightOffset == f.offsetX
        && overlay.postScaleWidthOffset == f.offsetY
    {
      var (height, width) := CalculateRectArguments(contour);
      rectF := CalculateRect(height, width, contour.objectBoundingBox, viewW, viewH, landscape);
    }
  }

  /**
   `translateX` and `translateY` agree with the overlay's transformation
   matrix whenever the matrix was built from the overlay's current scale,
   offsets and flip (as `updateTransformationIfNeeded` leaves it).
   */
  lemma TranslateAgreesWithMatrix(g: Graphic, viewW: int, viewH: int, x: real, y: real)
    requires g.overlay.transformationMatrix
      == TransformationMatrix(g.overlay.CurrentTransform(), g.overlay.isImageFlipped, viewW, viewH)
    ensures g.TranslateX(x, viewW) == g.overlay.transformationMatrix.MapX(x)
    ensures g.TranslateY(y) == g.overlay.transformationMatrix.MapY(y)
  {
    TransformationMatrixMaps(g.overlay.CurrentTransform(), g.overlay.isImageFlipped, viewW, viewH, x, y);
  }
}
