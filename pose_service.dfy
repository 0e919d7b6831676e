/**
 * The lifecycle of `SimplePoseService`: lazy initialisation of a 320x240
 * drawing canvas, pose estimation from a video frame (face detection, then a
 * synthetic pose, or the fallback pose), and disposal.
 *
 * The browser is a parameter: whether creating the canvas succeeds, whether a
 * 2D context is available, and the frame's pixels as the canvas holds them
 * after drawing.
 */
module PoseService {
  import opened Wrappers
  import opened Types
  import opened FaceDetection
  import opened PoseGeneration

  const CanvasWidth: nat := 320
  const CanvasHeight: nat := 240

  /** What the browser does when the service sets itself up. */
  datatype Dom = Dom(
    canCreateCanvas: bool,  // false: creating the canvas element throws
    has2DContext: bool)     // false: the canvas has no 2D context (getContext gives null)

  /**
   * A video element at the moment of estimation: its ready state, and the
   * RGBA bytes the 320x240 canvas holds after the frame is drawn onto it
   * (None when drawing or reading the frame throws).
   */
  datatype VideoFrame = VideoFrame(readyState: int, pixels: Option<seq<Byte>>)

  /** The last face position: the initial centre guess has no confidence, a detected face has one. */
  datatype FacePosition = FacePosition(x: real, y: real, size: real, confidence: Option<real>)

  /** A detected face as the last face position: its centre and size, and unlike the initial guess a confidence. */
  function Remembered(f: FaceData): (pos: FacePosition)
    ensures pos.confidence.Some? && pos != FacePosition(0.5, 0.5, 0.2, None)
    ensures pos.x == f.x && pos.y == f.y && pos.size == f.size && pos.confidence.value == f.confidence
  {
    FacePosition(f.x, f.y, f.size, Some(f.confidence))
  }

  class SimplePoseService {
    var isInitialized: bool
    var faceCanvas: Option<Canvas>
    var hasFaceContext: bool
    var lastFacePosition: FacePosition

    /** A canvas, when there is one, is the service's own 320x240 canvas; a context belongs to a canvas. */
    ghost predicate Valid()
      reads this
    {
      (faceCanvas.Some? ==> faceCanvas.value == Canvas(CanvasWidth, CanvasHeight)) &&
      (hasFaceContext ==> faceCanvas.Some?)
    }

    constructor ()
      ensures Valid()
      ensures !isInitialized && faceCanvas == None && !hasFaceContext
      ensures lastFacePosition == FacePosition(0.5, 0.5, 0.2, None)
    {
      isInitialized := false;
      faceCanvas := None;
      hasFaceContext := false;
      lastFacePosition := FacePosition(0.5, 0.5, 0.2, None);
    }

    /**
     * `initialize`: creates the canvas and asks it for a 2D context. Only
     * creating the canvas can fail; then nothing is changed and the result
     * is false. A missing context still counts as initialised.
     */
    method Initialize(dom: Dom) returns (ok: bool)
      requires Valid()
      modifies this
      ensures Valid()
      ensures ok == dom.canCreateCanvas
      ensures ok ==> isInitialized && faceCanvas == Some(Canvas(CanvasWidth, CanvasHeight)) &&
                     hasFaceContext == dom.has2DContext
      ensures !ok ==> isInitialized == old(isInitialized) && faceCanvas == old(faceCanvas) &&
                      hasFaceContext == old(hasFaceContext)
      ensures lastFacePosition == old(lastFacePosition)
    {
      if !dom.canCreateCanvas {
        return false;
      }
      faceCanvas := Some(Canvas(CanvasWidth, CanvasHeight));
      hasFaceContext := dom.has2DContext;
      isInitialized := true;
      return true;
    }

    /** `detectFaceInCanvas`: no face without a canvas and a context, else the detector's answer. */
    method DetectFaceInCanvas(data: seq<Byte>, sqrt: real -> real) returns (face: Option<FaceData>)
      requires Valid()
      requires faceCanvas.Some? ==> IsImageData(faceCanvas.value, data)
      ensures faceCanvas.None? || !hasFaceContext ==> face == None
      ensures faceCanvas.Some? && hasFaceContext ==> face == DetectedFace(faceCanvas.value, data, sqrt)
    {
      if !hasFaceContext || faceCanvas.None? {
        return None;
      }
      face := DetectFace(faceCanvas.value, data, sqrt);
    }

    /**
     * `estimatePose`: initialises first when needed; with no canvas, no
     * context, a video not ready (ready state below 2) or a frame that
     * cannot be drawn, it returns the fallback pose; otherwise a detected
     * face is remembered and a pose is built around it, and no face again
     * gives the fallback pose.
     */
    method EstimatePose(dom: Dom, video: VideoFrame, sqrt: real -> real) returns (pose: PoseResult)
      requires Valid()
      requires video.pixels.Some? ==> |video.pixels.value| == 4 * (CanvasWidth * CanvasHeight)
      modifies this
      ensures Valid()
      ensures isInitialized == (old(isInitialized) || dom.canCreateCanvas)
      ensures !old(isInitialized) && dom.canCreateCanvas ==>
        faceCanvas == Some(Canvas(CanvasWidth, CanvasHeight)) && hasFaceContext == dom.has2DContext
      ensures old(isInitialized) || !dom.canCreateCanvas ==>
        faceCanvas == old(faceCanvas) && hasFaceContext == old(hasFaceContext)
      ensures var detected :=
          if faceCanvas.Some? && hasFaceContext && video.readyState >= 2 && video.pixels.Some?
          then DetectedFace(faceCanvas.value, video.pixels.value, sqrt) else None;
        match detected
        case Some(face) => pose == FacePose(face) && lastFacePosition == Remembered(face)
        case None => pose == FallbackPose() && lastFacePosition == old(lastFacePosition)
    {
      if !isInitialized {
        var _ := Initialize(dom);
      }
      if faceCanvas.None? || !hasFaceContext || video.readyState < 2 {
        return FallbackPose();
      }
      if video.pixels.None? {
        return FallbackPose();
      }
      var faceData := DetectFaceInCanvas(video.pixels.value, sqrt);
      if faceData.Some? {
        lastFacePosition := Remembered(faceData.value);
        pose := GeneratePoseFromFace(faceData.value);
        return;
      }
      return FallbackPose();
    }

    /** `dispose`: drops the canvas and its context and forgets initialisation; the last face position stays. */
    method Dispose()
      modifies this
      ensures Valid()
      ensures faceCanvas == None && !hasFaceContext && !isInitialized
      ensures lastFacePosition == old(lastFacePosition)
    {
      faceCanvas := None;
      hasFaceContext := false;
      isInitialized := false;
    }
  }

  /**
   * Every pose `EstimatePose` returns has 33 keypoints; when it is built
   * around a detected face, all of them lie in the unit square, whereas the
   * fallback pose reaches below it.
   */
  lemma EstimatedPoseShape(c: Canvas, data: seq<Byte>, sqrt: real -> real)
    requires IsImageData(c, data)
    ensures |FallbackPose().keypoints| == KeypointCount
    ensures DetectedFace(c, data, sqrt).Some? ==>
      var pose := FacePose(DetectedFace(c, data, sqrt).value);
      |pose.keypoints| == KeypointCount &&
      forall i :: 0 <= i < KeypointCount ==> 0.0 <= pose.keypoints[i].x <= 1.0 && 0.0 <= pose.keypoints[i].y <= 1.0
    ensures FallbackPose().keypoints[KeypointCount - 1].y > 1.0
  {
    if DetectedFace(c, data, sqrt).Some? {
      DetectedPoseInFrame(c, data, sqrt);
    }
    FallbackLeavesFrame(KeypointCount - 1);
  }
}
