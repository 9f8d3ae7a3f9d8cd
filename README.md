# Face-detection overlay: a Dafny model

This project models the core of an Android camera application that runs a
face-detection cascade over each camera frame and draws a box over the preview
where a face was found. The core is the overlay view (`GraphicOverlay`). It
keeps an ordered list of graphics and caches a frame-level transformation,
made of a scale factor and two post-scale offsets, that is recomputed lazily
behind a dirty flag. Its nested `Graphic` maps a detected box from
frame coordinates into view coordinates. The only graphic is
`BoundingBoxContourGraphic`, which fits its own crop rectangle over the view.
A few pieces of `MainActivity` are modelled too: the NV21 buffer assembly, the
one-shot source-size update of the frame analyzer, the face boxes handed to
the overlay, the rotation switch, and the permission check.

Modules, one per source file, plus shared value types:

- `Geometry` (`geometry.dfy`): `Rect`, `RectF`, `Ceil`, `Max`, and the
  scale/translate part of `android.graphics.Matrix` as a record.
- `BoundingBoxContourGraphic` (`bounding_box_contour_graphic.dfy`): the
  graphic's final fields as a value, its fixed paint, and the order of the
  arguments `draw` passes to `calculateRect`.
- `Overlay` (`graphic_overlay.dfy`): the classes `GraphicOverlay` and
  `Graphic`. The methods update the overlay in place. Around them sit the pure
  functions that define their results, `AspectFill`, `TransformationMatrix`, `CoverFit`,
  `MappedBox` and `DrawnRect`, and the lemmas about them.
- `MainActivity` (`main_activity.dfy`): the array-filling `ToNv21`, the class
  `MainActivity` with its one-shot flag, the rotation switch, and the
  early-exit permission loop.

Modelling choices:

- `float` is `real`, and `Math.ceil(x)` is `-((-x).Floor)`.
- The view's measured width and height and the device orientation are
  parameters. The layout-change listener only sets the dirty flag, exactly as
  in the source, so it takes no sizes.
- Java has an abstract `Graphic` with one subclass. Here that is the single
  class `Overlay.Graphic`, which holds the overlay reference and the
  subclass's data as a `Contour` value. Graphics are objects, so
  `remove` compares by identity, as `ArrayList.remove` does for a class
  without `equals`.
- The matrix is `(scaleX, scaleY, transX, transY)`. `setScale`,
  `postTranslate` and `postScale` about a pivot stay inside this form exactly.
- The error of `Preconditions.checkState` is the `Outcome` value
  `IllegalState(message)`. The source messages are kept, and the width is
  checked before the height.

## Behaviour worth noting

- A bad image size raises `IllegalStateException` through `checkState`; there
  is no dedicated error for it.
- Front mode in `calculateRect` is decided by the camera selector, not by the
  image-flip flag.
- Degenerate detection rectangles are not rejected anywhere.
- Any layout change marks the transformation stale, whether or not the size
  changed.
- `calculateRect` writes its x offset into the overlay's height offset and its
  y offset into the width offset, so each draw overwrites the cached
  transformation with its own fit, axes crossed (`Overlay.Graphic.CalculateRect`,
  `Overlay.Graphic.Draw`, `Overlay.GraphicOverlay.OnDraw`).

## Model

| member | source | states |
|---|---|---|
| `Geometry.Ceil` | app/src/main/java/com/mxcsyounes/facerecognition2/GraphicOverlay.java:202-203 | the result is the least integer at or above `x`: `x <= r < x + 1` |
| `Geometry.Max` | app/src/main/java/com/mxcsyounes/facerecognition2/GraphicOverlay.java:198 | the result bounds both arguments and is one of them |
| `Geometry.ScaleMatrix` | app/src/main/java/com/mxcsyounes/facerecognition2/GraphicOverlay.java:102-103 | after `setScale(sx, sy)` every x maps to `sx * x` and every y to `sy * y` |
| `Geometry.Matrix.PostTranslate` | app/src/main/java/com/mxcsyounes/facerecognition2/GraphicOverlay.java:104 | the new matrix maps each point to the old image moved by `(dx, dy)` |
| `Geometry.Matrix.PostScale` | app/src/main/java/com/mxcsyounes/facerecognition2/GraphicOverlay.java:107 | the new matrix maps each point to the old image scaled about the pivot `(px, py)` |
| `Geometry.MirrorAboutCentre` | app/src/main/java/com/mxcsyounes/facerecognition2/GraphicOverlay.java:106-108 | a `(-1, 1)` post-scale about `x == c` sends every point to its mirror image: flipped x plus unflipped x is `2c`, and y is unchanged |
| `BoundingBoxContourGraphic.NewContour` | app/src/main/java/com/mxcsyounes/facerecognition2/BoundingBoxContourGraphic.java:15-23 | the constructor keeps both rectangles unchanged, and the paint is a green 5.0 stroke whatever the inputs |
| `BoundingBoxContourGraphic.CalculateRectArguments` | app/src/main/java/com/mxcsyounes/facerecognition2/BoundingBoxContourGraphic.java:27 | `draw` passes the crop rectangle's height first and its width second |
| `Overlay.Toggled` | app/src/main/java/com/mxcsyounes/facerecognition2/GraphicOverlay.java:128-132 | the selector after a toggle is always BACK or FRONT, and it is FRONT exactly when it was BACK |
| `Overlay.ToggleTwiceRestores` | app/src/main/java/com/mxcsyounes/facerecognition2/GraphicOverlay.java:128-132 | from BACK or FRONT, one toggle changes the selector and two toggles restore it |
| `Overlay.IndexOf` | app/src/main/java/com/mxcsyounes/facerecognition2/GraphicOverlay.java:56-61 | returns -1 exactly when the graphic is absent; otherwise the index of its first occurrence |
| `Overlay.RemoveFirst` | app/src/main/java/com/mxcsyounes/facerecognition2/GraphicOverlay.java:56-61 | an absent graphic leaves the list unchanged; otherwise exactly its first occurrence is cut out, and the entries before and after keep their order |
| `Overlay.AspectFillCovers` | app/src/main/java/com/mxcsyounes/facerecognition2/GraphicOverlay.java:88-100 | the recomputed transformation is an aspect fill. The scale is positive. Each offset is half the overflow of the scaled image on its axis. Both offsets are non-negative, so the image covers the view. One offset is zero, so the scale is the smallest that covers |
| `Overlay.WidthFits` | app/src/main/java/com/mxcsyounes/facerecognition2/GraphicOverlay.java:92-95 | in the branch where the view is the wider, the scale is positive, the computed `viewW / imageAspectRatio` is the scaled image height, and it exceeds the view height |
| `Overlay.HeightFits` | app/src/main/java/com/mxcsyounes/facerecognition2/GraphicOverlay.java:96-99 | in the other branch, the scale is positive, the computed `viewH * imageAspectRatio` is the scaled image width, and it covers the view width |
| `Overlay.AspectFill` | app/src/main/java/com/mxcsyounes/facerecognition2/GraphicOverlay.java:88-100 | the recomputed cache; its properties are the contract of `Overlay.AspectFillCovers` and its values in `Overlay.AspectFillExample` |
| `Overlay.AspectFillExample` | app/src/main/java/com/mxcsyounes/facerecognition2/GraphicOverlay.java:88-100 | a 640x480 image in a 640x480 view gives scale 1 and no offset; in a 1280x480 view it gives scale 2 and a height offset of 240 (vertical crop) |
| `Overlay.TransformationMatrixMaps` | app/src/main/java/com/mxcsyounes/facerecognition2/GraphicOverlay.java:102-108 | the built matrix maps x to `x*s - widthOffset`, reflected to `viewW - (x*s - widthOffset)` when flipped, and y to `y*s - heightOffset`; flipped and unflipped x sum to the view width |
| `Overlay.TransformationMatrix` | app/src/main/java/com/mxcsyounes/facerecognition2/GraphicOverlay.java:102-108 | the matrix built from a cache; what it maps each point to is the contract of `Overlay.TransformationMatrixMaps` |
| `Overlay.TranslateAgreesWithMatrix` | app/src/main/java/com/mxcsyounes/facerecognition2/GraphicOverlay.java:144-167 | `scale`, `translateX` and `translateY` give the same point as the transformation matrix whenever the matrix matches the overlay's current scale, offsets and flip |
| `Overlay.Graphic.Scale` | app/src/main/java/com/mxcsyounes/facerecognition2/GraphicOverlay.java:144-146 | an image length maps to view pixels exactly as the scale part of the overlay's matrix maps it |
| `Overlay.Graphic.TranslateX` | app/src/main/java/com/mxcsyounes/facerecognition2/GraphicOverlay.java:156-162 | without flip, x maps as the scale-then-translate matrix maps it; with flip, to that point's mirror image about the view's centre line (the two sum to the view width) |
| `Overlay.Graphic.TranslateY` | app/src/main/java/com/mxcsyounes/facerecognition2/GraphicOverlay.java:165-167 | y maps as the scale-then-translate matrix maps it |
| `Overlay.CoverFitCovers` | app/src/main/java/com/mxcsyounes/facerecognition2/GraphicOverlay.java:196-203 | `calculateRect`'s fit covers the view: the scaled frame is at least the view on both axes, with the larger axis scale; both offsets are at most 0, and each is within half a pixel of centring |
| `Overlay.CoverFit` | app/src/main/java/com/mxcsyounes/facerecognition2/GraphicOverlay.java:196-206 | the fit `calculateRect` computes; its properties are the contract of `Overlay.CoverFitCovers` |
| `Overlay.Graphic.WhenLandScapeModeWidth` | app/src/main/java/com/mxcsyounes/facerecognition2/GraphicOverlay.java:183-186 | the frame width `calculateRect` fits: the given width in landscape, the given height in portrait; its effect on the fit is stated by `Overlay.DrawnRectBasis` |
| `Overlay.Graphic.WhenLandScapeModeHeight` | app/src/main/java/com/mxcsyounes/facerecognition2/GraphicOverlay.java:189-192 | the frame height `calculateRect` fits: the given height in landscape, the given width in portrait; its effect on the fit is stated by `Overlay.DrawnRectBasis` |
| `Overlay.MappedBoxGeometry` | app/src/main/java/com/mxcsyounes/facerecognition2/GraphicOverlay.java:209-218 | front mode reflects left and right about the view centre (front plus back is `viewW`) and keeps top and bottom. Left and right come out reversed for the back camera and in order for the front camera. The mapped sides are the box sides times the scale |
| `Overlay.MappedBox` | app/src/main/java/com/mxcsyounes/facerecognition2/GraphicOverlay.java:209-218 | the rectangle `calculateRect` returns under a fit; its geometry is the contract of `Overlay.MappedBoxGeometry` |
| `Overlay.DrawnRectBasis` | app/src/main/java/com/mxcsyounes/facerecognition2/BoundingBoxContourGraphic.java:26-27 | through `draw`'s argument order and `calculateRect`'s orientation choice, the fit is computed for the crop rectangle's width by height in landscape and height by width in portrait |
| `Overlay.DrawFit` | app/src/main/java/com/mxcsyounes/facerecognition2/BoundingBoxContourGraphic.java:26-27 | the fit a bounding-box graphic draws with; its basis is stated by `Overlay.DrawnRectBasis` and its cover properties by `Overlay.CoverFitCovers` |
| `Overlay.DrawnRect` | app/src/main/java/com/mxcsyounes/facerecognition2/BoundingBoxContourGraphic.java:25-30 | the rectangle a bounding-box graphic draws; its values are stated by `Overlay.DrawnRectExample`, and it is what `Overlay.Graphic.Draw` and `Overlay.GraphicOverlay.OnDraw` promise |
| `Overlay.DrawnRectExample` | app/src/main/java/com/mxcsyounes/facerecognition2/GraphicOverlay.java:195-219 | box (100,50,180,120), crop 640x480, landscape, view 640x480: scale 1, no offsets; the back camera gives (180,50,100,120), the front camera (460,50,540,120) |
| `Overlay.GraphicOverlay.constructor` | app/src/main/java/com/mxcsyounes/facerecognition2/GraphicOverlay.java:23-41 | a new overlay has no graphics, the BACK selector (so it is not in front mode), no image size, scale 1, zero offsets, an identity matrix, and a pending recomputation |
| `Overlay.GraphicOverlay.OnLayoutChange` | app/src/main/java/com/mxcsyounes/facerecognition2/GraphicOverlay.java:38-40 | a layout change marks the transformation stale and changes nothing else |
| `Overlay.GraphicOverlay.Clear` | app/src/main/java/com/mxcsyounes/facerecognition2/GraphicOverlay.java:43-48 | the list becomes empty; no other field changes |
| `Overlay.GraphicOverlay.Add` | app/src/main/java/com/mxcsyounes/facerecognition2/GraphicOverlay.java:50-54 | the graphic is appended at the end and the earlier entries are untouched |
| `Overlay.GraphicOverlay.Remove` | app/src/main/java/com/mxcsyounes/facerecognition2/GraphicOverlay.java:56-61 | the list loses the first occurrence of the graphic, or is unchanged if the graphic is absent |
| `Overlay.GraphicOverlay.SetImageSourceInfo` | app/src/main/java/com/mxcsyounes/facerecognition2/GraphicOverlay.java:63-74 | a non-positive width (checked first) or height fails with its message and changes nothing. Otherwise width, height and flip are stored and the transformation is marked stale |
| `Overlay.GraphicOverlay.UpdateTransformationIfNeeded` | app/src/main/java/com/mxcsyounes/facerecognition2/GraphicOverlay.java:84-111 | nothing changes unless the flag is set and both image sizes are positive. Otherwise the cache becomes `AspectFill`, the matrix matches it, and the flag is cleared. Afterwards a second call is always a no-op |
| `Overlay.GraphicOverlay.OnDraw` | app/src/main/java/com/mxcsyounes/facerecognition2/GraphicOverlay.java:113-122 | recomputes if needed, then draws every graphic, all on this overlay, in list order. The list is unchanged and the i-th rectangle drawn is the i-th graphic's `DrawnRect`. Only the cache, matrix and stale flag may change. The matrix and flag are those of `UpdateTransformationIfNeeded`. The cache ends as the last graphic's `DrawFit` with offsets crossed, or, with no graphic, as the recomputed (or kept) transformation |
| `Overlay.GraphicOverlay.ToggleSelector` | app/src/main/java/com/mxcsyounes/facerecognition2/GraphicOverlay.java:124-132 | BACK becomes FRONT and anything else BACK; from BACK or FRONT, `isFrontMode` flips |
| `Overlay.GraphicOverlay.IsFrontMode` | app/src/main/java/com/mxcsyounes/facerecognition2/GraphicOverlay.java:124-126 | front mode is the FRONT selector; the constructor starts out of it and `Overlay.GraphicOverlay.ToggleSelector` flips it |
| `Overlay.Graphic.constructor` | app/src/main/java/com/mxcsyounes/facerecognition2/BoundingBoxContourGraphic.java:15-23 | the graphic keeps its overlay, and its data is `NewContour` of the two rectangles |
| `Overlay.Graphic.CalculateRect` | app/src/main/java/com/mxcsyounes/facerecognition2/GraphicOverlay.java:183-219 | returns `MappedBox` under the `CoverFit` of the orientation-dependent frame size. The overlay's scale factor becomes the fit's scale. The fit's x offset goes to the HEIGHT offset and its y offset to the WIDTH offset. No other field changes |
| `Overlay.Graphic.Draw` | app/src/main/java/com/mxcsyounes/facerecognition2/BoundingBoxContourGraphic.java:25-30 | the drawn rectangle is `DrawnRect` of the stored box and crop, the view size, the orientation and the selector, so it never depends on what a previous draw left in the overlay; the overlay's scale becomes the graphic's `DrawFit` scale, its height offset the fit's x offset and its width offset the fit's y offset |
| `MainActivity.CopyInto` | app/src/main/java/com/mxcsyounes/facerecognition2/MainActivity.java:100-102 | a bulk `ByteBuffer.get` writes the source bytes at the offset and leaves every other element alone |
| `MainActivity.ToNv21` | app/src/main/java/com/mxcsyounes/facerecognition2/MainActivity.java:88-102 | the NV21 array has length `ySize + uSize + vSize`: the Y bytes occupy `[0, ySize)`, the V bytes `[ySize, ySize + vSize)`, and the U bytes the rest |
| `MainActivity.ImageSourceSize` | app/src/main/java/com/mxcsyounes/facerecognition2/MainActivity.java:197-204 | the overlay gets the frame's two sizes, as analyzed for 0 or 180 degrees and exchanged for any other rotation |
| `MainActivity.AnalysisRect` | app/src/main/java/com/mxcsyounes/facerecognition2/MainActivity.java:222 | the analysis box starts at the face's corner and is 20 pixels wider and taller than the face |
| `MainActivity.CaptureRect` | app/src/main/java/com/mxcsyounes/facerecognition2/MainActivity.java:348 | the capture box is exactly the detected face |
| `MainActivity.AnalysisRectPadsCaptureRect` | app/src/main/java/com/mxcsyounes/facerecognition2/MainActivity.java:222 | the two boxes differ only by 20 on the right and bottom edges |
| `MainActivity.MainActivity.constructor` | app/src/main/java/com/mxcsyounes/facerecognition2/MainActivity.java:70-77 | the activity holds its overlay, and the one-shot flag starts cleared |
| `MainActivity.MainActivity.SetImageAnalysis` | app/src/main/java/com/mxcsyounes/facerecognition2/MainActivity.java:190-194 | installing the analyzer sets the one-shot flag |
| `MainActivity.MainActivity.Analyze` | app/src/main/java/com/mxcsyounes/facerecognition2/MainActivity.java:194-233 | the frame fails exactly when the flag is set and the (rotation-exchanged) size has a non-positive side; then nothing changes. Otherwise, while the flag is set, the size is pushed, flipped always true, and the flag is cleared. A found face leaves exactly one new graphic (first face, padded box, the frame's crop). No face leaves the graphics alone |
| `MainActivity.MainActivity.TakePictureForLearning` | app/src/main/java/com/mxcsyounes/facerecognition2/MainActivity.java:326-357 | a found face leaves exactly one new graphic with the unpadded box; no face leaves the graphics alone |
| `MainActivity.TruncateToInt` | app/src/main/java/com/mxcsyounes/facerecognition2/MainActivity.java:249 | the `(int)` cast truncates toward zero |
| `MainActivity.RotationDegrees` | app/src/main/java/com/mxcsyounes/facerecognition2/MainActivity.java:251-266 | ROTATION_0, 90, 180, 270 give 0, 90, 180, 270 degrees (90 times the constant); any other value gives none (early return) |
| `MainActivity.UpdateTransform` | app/src/main/java/com/mxcsyounes/facerecognition2/MainActivity.java:240-266 | the view rotation, truncated, goes through the switch: a value strictly between -1 and 4 yields 90 times its whole part (0 for negatives); anything else returns early |
| `MainActivity.AllPermissionsGranted` | app/src/main/java/com/mxcsyounes/facerecognition2/MainActivity.java:316-324 | true exactly when every permission of the activity's required list is reported granted; for this activity's list, exactly when the camera permission is |

## Left out

- Locking (`synchronized (lock)`), `postInvalidate` and the executor thread pool: the operations are modelled sequentially, and repaint requests are not modelled. So the difference that the analysis path posts an invalidate and the capture path does not is not captured.
- Camera setup (`setupCamera`, `bindCameraPreview` and its camera filter, `bindToLifecycle`), `onCreate`, permission requests, `onRequestPermissionsResult` with `Toast` and `finish`: platform lifecycle.
- OpenCV calls (`detectMultiScale`, `Utils.bitmapToMat`, `Imgproc.rectangle`): the detector's output is the `faces` input of `Analyze` and `TakePictureForLearning`.
- `MainActivity.MainActivity.Analyze`: the per-frame `toBitmap` call (modelled separately as `ToNv21`) and `image.close()` are not part of the analyzer model, because the bitmap only feeds the detector.
- Image codecs (`YuvImage.compressToJpeg`, `BitmapFactory.decodeByteArray`, `Bitmap.createScaledBitmap`, `convertJPEGtoBitmap`): only the byte-buffer concatenation of `toBitmap` is modelled.
- `createClassifier`: copying the cascade resource to a file is file I/O.
- `Canvas.drawRect` and the `Paint` object: a draw yields its rectangle, and the paint is reduced to its three settings.
- `updateTransform` builds a rotation matrix with `postRotate` and discards it. Only which angle it would use, or the early return, is modelled.
- Trivial accessors (`getImageWidth`, `getImageHeight`, `Graphic.isImageFlipped`, `getTransformationMatrix`, `Graphic.postInvalidate`, `getApplicationContext`) and `isLandScapeMode`. The orientation is a boolean parameter instead of a read of the configuration.
- Logging (`System.out.println`, `Log`).
- `Overlay.GraphicOverlay.UpdateTransformationIfNeeded`: requires a positive view size. The source divides by the view height and would get IEEE infinity or NaN before layout; float rounding is not modelled either.
- `Overlay.Graphic.CalculateRect`: requires positive frame sizes, because the source divides the view's width and height by them, and a zero gives a `float` division by zero. It also requires a positive view size, because the view is assumed laid out, as for `UpdateTransformationIfNeeded`. The source does not divide by the view size here; a zero view size would only give a zero or one-axis scale, and the model does not cover that case.
- `Overlay.Graphic.Draw`: requires a crop rectangle of positive width and height, because these become `calculateRect`'s frame sizes and are divided into. It requires a positive view size because the view is assumed laid out, as for `CalculateRect`.
- `Overlay.GraphicOverlay.OnDraw`: requires a positive view size, because it first runs `UpdateTransformationIfNeeded`, which divides by the view height. It requires every graphic's crop rectangle to have positive sides, because `calculateRect` divides by them. It also requires every graphic to belong to this overlay: a graphic's `calculateRect` reads its own overlay's size, and the application only ever adds graphics to the overlay they were made for.
- `MainActivity.AnalysisRect`: 32-bit overflow of `x + width + 20` is not modelled (integers are unbounded); the same holds for `MainActivity.CaptureRect`.
- `MainActivity.TruncateToInt`: the Java cast's handling of NaN and of out-of-range floats is not modelled.
- `MainActivity.AllPermissionsGranted`: the permission checker is a pure function parameter, so the order of checks and the early exit leave no other trace.
