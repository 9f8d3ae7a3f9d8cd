/**
 The logic inside `MainActivity`, apart from the camera, detector and codec
 calls it makes: the NV21 buffer assembly of `toBitmap`, the source-size swap
 and one-shot flag of the frame analyzer, the face rectangles handed to the
 overlay on the analysis and on the capture path, the rotation switch of
 `updateTransform`, and `allPermissionsGranted`.

 The detector's output is an input here (a sequence of OpenCV rectangles),
 and so are the permission checker and the view rotation.
 */
module MainActivity {
  import opened Geometry
  import opened Overlay
  import opened BoundingBoxContourGraphic

  /** A Java `byte`. */
  newtype Byte = b: int | -128 <= b < 128

  // ---------------------------------------------------------------------
  // `toBitmap`: the NV21 buffer, Y plane first, then V, then U.
  // ---------------------------------------------------------------------

  /** `ByteBuffer.get(dst, offset, src.length)`: copies `src` into `dst` from `offset` on. */
  method CopyInto(dst: array<Byte>, offset: nat, src: seq<Byte>)
    requires offset + |src| <= dst.Length
    modifies dst
    ensures forall k :: 0 <= k < |src| ==> dst[offset + k] == src[k]
    ensures forall k :: 0 <= k < dst.Length && !(offset <= k < offset + |src|) ==> dst[k] == old(dst[k])
  {
    var i := 0;
    while i < |src|
      invariant 0 <= i <= |src|
      invariant forall k :: 0 <= k < i ==> dst[offset + k] == src[k]
      invariant forall k :: 0 <= k < dst.Length && !(offset <= k < offset + i) ==> dst[k] == old(dst[k])
    {
      dst[offset + i] := src[i];
      i := i + 1;
    }
  }

  /**
   The NV21 array of `toBitmap`: as long as the three planes together, with
   the Y bytes at `[0, ySize)`, the V bytes at `[ySize, ySize + vSize)` and the
   U bytes after them.
   */
  method ToNv21(yPlane: seq<Byte>, uPlane: seq<Byte>, vPlane: seq<Byte>) returns (nv21: array<Byte>)
    ensures fresh(nv21)
    ensures nv21.Length == |yPlane| + |uPlane| + |vPlane|
    ensures nv21[..|yPlane|] == yPlane
    ensures nv21[|yPlane|..|yPlane| + |vPlane|] == vPlane
    ensures nv21[|yPlane| + |vPlane|..] == uPlane
  {
    var ySize := |yPlane|;
    var uSize := |uPlane|;
    var vSize := |vPlane|;

    nv21 := new Byte[ySize + uSize + vSize];
    // V is written before U, as NV21 orders them
    CopyInto(nv21, 0, yPlane);
    CopyInto(nv21, ySize, vPlane);
    CopyInto(nv21, ySize + vSize, uPlane);

    assert nv21[..ySize] == yPlane by {
      forall k | 0 <= k < ySize ensures nv21[..ySize][k] == yPlane[k] { }
    }
    assert nv21[ySize..ySize + vSize] == vPlane by {
      forall k | 0 <= k < vSize ensures nv21[ySize..ySize + vSize][k] == vPlane[k] { }
    }
  }

  // ---------------------------------------------------------------------
  // The frame analyzer and the capture callback.
  // ---------------------------------------------------------------------

  /** An OpenCV `Rect`: corner, width and height. */
  datatype CvRect = CvRect(x: int, y: int, width: int, height: int)

  /** What the analyzer reads from an `ImageProxy`. */
  datatype ImageProxy = ImageProxy(width: int, height: int, rotationDegrees: int, cropRect: Rect)

  /**
   The size given to the overlay for a frame: as analyzed for a rotation of
   0 or 180 degrees, with width and height exchanged for any other rotation.
   */
  function ImageSourceSize(rotationDegrees: int, width: int, height: int): (size: (int, int))
    ensures multiset{size.0, size.1} == multiset{width, height}
    ensures rotationDegrees == 0 || rotationDegrees == 180 ==> size.0 == width && size.1 == height
    ensures rotationDegrees != 0 && rotationDegrees != 180 ==> size.0 == height && size.1 == width
  {
    if rotationDegrees == 0 || rotationDegrees == 180 then (width, height) else (height, width)
  }

  /**
   The box the analyzer draws for a face: its corner, and 20 pixels more
   than the detected width and height.
   */
  function AnalysisRect(face: CvRect): (r: Rect)
    ensures r.left == face.x && r.top == face.y
    ensures r.Width() == face.width + 20 && r.Height() == face.height + 20
  {
    Rect(face.x, face.y, face.x + face.width + 20, face.y + face.height + 20)
  }

  /** The box the capture callback draws for a face: exactly the detected one. */
  function CaptureRect(face: CvRect): (r: Rect)
    ensures r.left == face.x && r.top == face.y
    ensures r.Width() == face.width && r.Height() == face.height
  {
    Rect(face.x, face.y, face.x + face.width, face.y + face.height)
  }

  /** The two paths differ only by the padding, on the right and bottom edges. */
  lemma AnalysisRectPadsCaptureRect(face: CvRect)
    ensures AnalysisRect(face) == CaptureRect(face).(right := CaptureRect(face).right + 20,
                                                      bottom := CaptureRect(face).bottom + 20)
  {
  }

  class MainActivity {
    const graphicOverlay: GraphicOverlay
    var needUpdateGraphicOverlayImageSourceInfo: bool

    constructor (graphicOverlay: GraphicOverlay)
      ensures this.graphicOverlay == graphicOverlay && !needUpdateGraphicOverlayImageSourceInfo
    {
      this.graphicOverlay := graphicOverlay;
      needUpdateGraphicOverlayImageSourceInfo := false;
    }

    /** Installing the analyzer arms the one-shot source-info update. */
    method SetImageAnalysis()
      modifies this`needUpdateGraphicOverlayImageSourceInfo
      ensures needUpdateGraphicOverlayImageSourceInfo
    {
      needUpdateGraphicOverlayImageSourceInfo := true;
    }

    /**
     The analyzer, for one frame and the faces detected in it. While the
     one-shot flag is set, the frame's size (exchanged for a quarter turn) is
     given to the overlay, always as flipped, and the flag is cleared; when the
     overlay rejects the size, the failure ends the frame with nothing else
     changed. When a face was found, the overlay is cleared and then holds
     exactly one new graphic: the first face's box, padded, with the frame's
     crop rectangle. With no face the overlay's graphics are left alone.
     */
    method Analyze(image: ImageProxy, faces: seq<CvRect>) returns (outcome: Outcome)
      modifies this`needUpdateGraphicOverlayImageSourceInfo
      modifies graphicOverlay`graphics, graphicOverlay`imageWidth, graphicOverlay`imageHeight
      modifies graphicOverlay`isImageFlipped, graphicOverlay`needUpdateTransformation
      ensures var size := ImageSourceSize(image.rotationDegrees, image.width, image.height);
        outcome.Success? <==> !(old(needUpdateGraphicOverlayImageSourceInfo) && (size.0 <= 0 || size.1 <= 0))
      ensures !outcome.Success? ==> outcome.IllegalState? && unchanged(this) && unchanged(graphicOverlay)
      ensures var size := ImageSourceSize(image.rotationDegrees, image.width, image.height);
        old(needUpdateGraphicOverlayImageSourceInfo) && size.0 > 0 && size.1 > 0 ==>
          && graphicOverlay.imageWidth == size.0 && graphicOverlay.imageHeight == size.1
          && graphicOverlay.isImageFlipped && graphicOverlay.needUpdateTransformation
          && !needUpdateGraphicOverlayImageSourceInfo
      ensures !old(needUpdateGraphicOverlayImageSourceInfo) ==>
        && !needUpdateGraphicOverlayImageSourceInfo
        && graphicOverlay.imageWidth == old(graphicOverlay.imageWidth)
        && graphicOverlay.imageHeight == old(graphicOverlay.imageHeight)
        && graphicOverlay.isImageFlipped == old(graphicOverlay.isImageFlipped)
        && graphicOverlay.needUpdateTransformation == old(graphicOverlay.needUpdateTransformation)
      ensures outcome.Success? && |faces| > 0 ==>
        && |graphicOverlay.graphics| == 1 && fresh(graphicOverlay.graphics[0])
        && graphicOverlay.graphics[0].overlay == graphicOverlay
        && graphicOverlay.graphics[0].contour == NewContour(AnalysisRect(faces[0]), image.cropRect)
      ensures outcome.Success? && |faces| == 0 ==> graphicOverlay.graphics == old(graphicOverlay.graphics)
    {
      outcome := Success;
      if needUpdateGraphicOverlayImageSourceInfo {
        var isImageFlipped := true;
        var rotationDegrees := image.rotationDegrees;
        if rotationDegrees == 0 || rotationDegrees == 180 {
          outcome := graphicOverlay.SetImageSourceInfo(image.width, image.height, isImageFlipped);
        } else {
          outcome := graphicOverlay.SetImageSourceInfo(image.height, image.width, isImageFlipped);
        }
        if !outcome.Success? {
          return;
        }
        needUpdateGraphicOverlayImageSourceInfo := false;
      }

      if |faces| != 0 {
        var rect := Rect(faces[0].x, faces[0].y, faces[0].x + faces[0].width + 20, faces[0].y + faces[0].height + 20);
        graphicOverlay.Clear();
        var contourGraphic := new Graphic(graphicOverlay, rect, image.cropRect);
        graphicOverlay.Add(contourGraphic);
      }
    }

    /**
     The capture callback: when a face was found in the captured picture, the
     overlay is cleared and then holds exactly one new graphic, the first
     face's box unpadded; otherwise the overlay is left alone.
     */
    method TakePictureForLearning(cropRect: Rect, faces: seq<CvRect>)
      modifies graphicOverlay`graphics
      ensures |faces| > 0 ==>
        && |graphicOverlay.graphics| == 1 && fresh(graphicOverlay.graphics[0])
        && graphicOverlay.graphics[0].overlay == graphicOverlay
        && graphicOverlay.graphics[0].contour == NewContour(CaptureRect(faces[0]), cropRect)
      ensures |faces| == 0 ==> graphicOverlay.graphics == old(graphicOverlay.graphics)
    {
      if |faces| != 0 {
        var rect := Rect(faces[0].x, faces[0].y, faces[0].x + faces[0].width, faces[0].y + faces[0].height);
        graphicOverlay.Clear();
        var contourGraphic := new Graphic(graphicOverlay, rect, cropRect);
        graphicOverlay.Add(contourGraphic);
      }
    }
  }

  // ---------------------------------------------------------------------
  // `updateTransform` and `allPermissionsGranted`.
  // ---------------------------------------------------------------------

  /** `Surface.ROTATION_0` to `Surface.ROTATION_270`. */
  const Rotation0: int := 0
  const Rotation90: int := 1
  const Rotation180: int := 2
  const Rotation270: int := 3

  datatype Option<T> = None | Some(value: T)

  /** The Java cast of a float to `int`: truncation toward zero. */
  function TruncateToInt(x: real): (r: int)
    ensures 0.0 <= x ==> r as real <= x < r as real + 1.0
    ensures x < 0.0 ==> r as real - 1.0 < x <= r as real
  {
    if x >= 0.0 then x.Floor else -((-x).Floor)
  }

  /**
   The rotation switch of `updateTransform`: the degrees for each of the four
   surface rotations, and no value (the method returns early) for anything else.
   */
  function RotationDegrees(rotation: int): (degrees: Option<int>)
    ensures degrees.Some? <==> Rotation0 <= rotation <= Rotation270
    ensures degrees.Some? ==> degrees.value == 90 * rotation
  {
    if rotation == Rotation0 then Some(0)
    else if rotation == Rotation90 then Some(90)
    else if rotation == Rotation180 then Some(180)
    else if rotation == Rotation270 then Some(270)
    else None
  }

  /**
   `updateTransform`: the view's rotation, cast to `int`, goes through the
   switch, so every rotation strictly between -1 and 4 is accepted.
   */
  function UpdateTransform(viewRotation: real): (degrees: Option<int>)
    ensures degrees.Some? <==> -1.0 < viewRotation < 4.0
    ensures degrees.Some? ==> degrees.value == if viewRotation < 0.0 then 0 else 90 * viewRotation.Floor
  {
    RotationDegrees(TruncateToInt(viewRotation))
  }

  /** `PackageManager.PERMISSION_GRANTED`. */
  const PermissionGranted: int := 0

  /** The permissions the activity asks for. */
  const RequiredPermissions: seq<string> := ["android.permission.CAMERA"]

  /**
   True exactly when the checker reports every required permission granted
   (for this activity: exactly when the camera permission is); the loop stops
   at the first one that is not.
   */
  method AllPermissionsGranted(checkSelfPermission: string -> int) returns (granted: bool)
    ensures granted <==> forall i :: 0 <= i < |RequiredPermissions| ==>
                           checkSelfPermission(RequiredPermissions[i]) == PermissionGranted
    ensures granted <==> checkSelfPermission("android.permission.CAMERA") == PermissionGranted
  {
    assert RequiredPermissions == ["android.permission.CAMERA"];
    for i := 0 to |RequiredPermissions|
      invariant forall k :: 0 <= k < i ==> checkSelfPermission(RequiredPermissions[k]) == PermissionGranted
    {
      if checkSelfPermission(RequiredPermissions[i]) != PermissionGranted {
        return false;
      }
    }
    assert checkSelfPermission(RequiredPermissions[0]) == PermissionGranted;
    return true;
  }
}
