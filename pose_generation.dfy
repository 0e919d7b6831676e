/**
 * The synthetic poses of the pose service: 33 BlazePose-style keypoints laid
 * out around a located face, and the fixed pose used when no face is found.
 */
module PoseGeneration {
  import opened Types
  import opened RealMath
  import opened FaceDetection

  /** Every pose this service produces has this many keypoints. */
  const KeypointCount: nat := 33

  /**
   * Where a body keypoint sits relative to the face, in units of the face
   * size: its horizontal spread to either side and its drop below the face
   * centre; and the fraction of the face confidence it is scored with.
   */
  datatype BodyOffset = BodyOffset(spread: real, drop: real, scoreFactor: real)

  /** The body bands of keypoints 5-32. */
  function BodyOffsetOf(i: nat): BodyOffset
    requires 5 <= i < KeypointCount
  {
    if i <= 10 then BodyOffset(0.0, 0.0, 0.7)        // remaining face points: on the face centre
    else if i <= 14 then BodyOffset(0.4, 0.3, 0.6)   // shoulders
    else if i <= 18 then BodyOffset(0.6, 0.6, 0.5)   // elbows
    else if i <= 22 then BodyOffset(0.7, 0.8, 0.4)   // wrists
    else if i <= 26 then BodyOffset(0.3, 0.8, 0.5)   // hips
    else if i <= 30 then BodyOffset(0.4, 1.2, 0.4)   // knees
    else BodyOffset(0.5, 1.6, 0.3)                   // ankles
  }

  /** Even-numbered body keypoints go to the right of the face, odd ones to the left. */
  function Side(i: nat): real
  {
    if i % 2 == 0 then 1.0 else -1.0
  }

  /** Horizontal offset of eye keypoints 1-4, in units of the face size. */
  function EyeSpread(i: nat): real
    requires 1 <= i <= 4
  {
    if i == 1 then -0.2 else if i == 2 then -0.1 else if i == 3 then 0.0 else 0.1
  }

  /**
   * Keypoint i of the pose built around face f: the nose on the face centre,
   * four eye points just above it (neither clamped), and body points placed
   * by their band and side and clamped into [0, 1]. Head points sit at
   * most a tenth of the face size above the face centre; scores run from 0.3 to 0.9
   * of the face confidence.
   */
  function FaceKeypoint(f: FaceData, i: nat): (k: Keypoint)
    requires i < KeypointCount
    ensures 5 <= i ==> 0.0 <= k.x <= 1.0 && 0.0 <= k.y <= 1.0
    ensures i <= 4 && 0.0 <= f.size ==> f.y - 0.1 * f.size <= k.y <= f.y
    ensures 0.0 <= f.confidence ==> 0.3 * f.confidence <= k.score <= 0.9 * f.confidence
  {
    if i == 0 then Keypoint(f.x, f.y, f.confidence * 0.9)
    else if i <= 4 then Keypoint(f.x + EyeSpread(i) * f.size, f.y - 0.1 * f.size, f.confidence * 0.8)
    else
      var o := BodyOffsetOf(i);
      Keypoint(Clamp(0.0, 1.0, f.x + Side(i) * o.spread * f.size),
               Clamp(0.0, 1.0, f.y + o.drop * f.size),
               f.confidence * o.scoreFactor)
  }

  /**
   * The whole pose built around face f; its score is the face confidence, and
   * for a face with positive confidence every keypoint scores strictly less.
   */
  function FacePose(f: FaceData): (pose: PoseResult)
    ensures |pose.keypoints| == KeypointCount && pose.score == f.confidence
    ensures 0.0 < f.confidence ==>
      forall i :: 0 <= i < KeypointCount ==> 0.0 < pose.keypoints[i].score < pose.score
  {
    PoseResult(seq(KeypointCount, i requires 0 <= i < KeypointCount => FaceKeypoint(f, i)), f.confidence)
  }

  /** `generatePoseFromFace`: five head points, then a loop appending the 28 body points. */
  method GeneratePoseFromFace(face: FaceData) returns (pose: PoseResult)
    ensures |pose.keypoints| == KeypointCount && pose.score == face.confidence
    ensures forall i :: 0 <= i < KeypointCount ==> pose.keypoints[i] == FaceKeypoint(face, i)
    ensures pose == FacePose(face)
  {
    var faceX, faceY, size, confidence := face.x, face.y, face.size, face.confidence;
    var keypoints: seq<Keypoint> := [];
    keypoints := keypoints + [Keypoint(faceX, faceY, confidence * 0.9)];
    keypoints := keypoints + [Keypoint(faceX - size * 0.2, faceY - size * 0.1, confidence * 0.8)];
    keypoints := keypoints + [Keypoint(faceX - size * 0.1, faceY - size * 0.1, confidence * 0.8)];
    keypoints := keypoints + [Keypoint(faceX, faceY - size * 0.1, confidence * 0.8)];
    keypoints := keypoints + [Keypoint(faceX + size * 0.1, faceY - size * 0.1, confidence * 0.8)];
    var i := 5;
    while i < 33
      invariant 5 <= i <= KeypointCount && |keypoints| == i
      invariant forall j :: 0 <= j < i ==> keypoints[j] == FaceKeypoint(face, j)
    {
      var x, y, score := faceX, faceY, confidence * 0.7;
      if 11 <= i <= 14 {
        x := faceX + (if i % 2 == 0 then size * 0.4 else -size * 0.4);
        y := faceY + size * 0.3;
        score := confidence * 0.6;
      } else if 15 <= i <= 18 {
        x := faceX + (if i % 2 == 0 then size * 0.6 else -size * 0.6);
        y := faceY + size * 0.6;
        score := confidence * 0.5;
      } else if 19 <= i <= 22 {
        x := faceX + (if i % 2 == 0 then size * 0.7 else -size * 0.7);
        y := faceY + size * 0.8;
        score := confidence * 0.4;
      } else if 23 <= i <= 26 {
        x := faceX + (if i % 2 == 0 then size * 0.3 else -size * 0.3);
        y := faceY + size * 0.8;
        score := confidence * 0.5;
      } else if 27 <= i <= 30 {
        x := faceX + (if i % 2 == 0 then size * 0.4 else -size * 0.4);
        y := faceY + size * 1.2;
        score := confidence * 0.4;
      } else if 31 <= i <= 32 {
        x := faceX + (if i % 2 == 0 then size * 0.5 else -size * 0.5);
        y := faceY + size * 1.6;
        score := confidence * 0.3;
      }
      keypoints := keypoints + [Keypoint(Max(0.0, Min(1.0, x)), Max(0.0, Min(1.0, y)), score)];
      i := i + 1;
    }
    pose := PoseResult(keypoints, confidence);
  }

  /** Each keypoint's score is the face confidence times the factor of its band. */
  lemma PoseScoreTable(f: FaceData)
    ensures var k := FacePose(f).keypoints;
      k[0].score == 0.9 * f.confidence &&
      (forall i :: 1 <= i <= 4 ==> k[i].score == 0.8 * f.confidence) &&
      (forall i :: 5 <= i <= 10 ==> k[i].score == 0.7 * f.confidence) &&
      (forall i :: 11 <= i <= 14 ==> k[i].score == 0.6 * f.confidence) &&
      (forall i :: 15 <= i <= 18 ==> k[i].score == 0.5 * f.confidence) &&
      (forall i :: 19 <= i <= 22 ==> k[i].score == 0.4 * f.confidence) &&
      (forall i :: 23 <= i <= 26 ==> k[i].score == 0.5 * f.confidence) &&
      (forall i :: 27 <= i <= 30 ==> k[i].score == 0.4 * f.confidence) &&
      (forall i :: 31 <= i <= 32 ==> k[i].score == 0.3 * f.confidence)
  {
  }

  /** Body keypoints 5-32 lie in the unit square whatever the face. */
  lemma BodyKeypointsInFrame(f: FaceData)
    ensures forall i :: 5 <= i < KeypointCount ==>
      0.0 <= FacePose(f).keypoints[i].x <= 1.0 && 0.0 <= FacePose(f).keypoints[i].y <= 1.0
  {
  }

  /** The bands start at odd indices and have even length, so an odd index and the next share a band. */
  lemma PairSharesBand(i: nat)
    requires 11 <= i < KeypointCount - 1 && i % 2 == 1
    ensures BodyOffsetOf(i) == BodyOffsetOf(i + 1) && BodyOffsetOf(i).spread > 0.0
  {
    if i <= 13 {
      assert i + 1 <= 14;
    } else if i <= 17 {
      assert 15 <= i && i + 1 <= 18;
    } else if i <= 21 {
      assert 19 <= i && i + 1 <= 22;
    } else if i <= 25 {
      assert 23 <= i && i + 1 <= 26;
    } else if i <= 29 {
      assert 27 <= i && i + 1 <= 30;
    } else {
      assert 31 <= i && i + 1 <= 32;
    }
  }

  /**
   * Left and right body points come in pairs (odd index, next even index):
   * before clamping they sit mirrored about the face centre, at the same
   * height, and they carry the same score.
   */
  lemma MirroredBodyPairs(f: FaceData, i: nat)
    requires 11 <= i < KeypointCount - 1 && i % 2 == 1
    ensures var left, right, d := FacePose(f).keypoints[i], FacePose(f).keypoints[i + 1], BodyOffsetOf(i).spread;
      d > 0.0 && left.y == right.y && left.score == right.score &&
      left.x == Clamp(0.0, 1.0, f.x - d * f.size) && right.x == Clamp(0.0, 1.0, f.x + d * f.size)
  {
    PairSharesBand(i);
    assert Side(i) == -1.0 && Side(i + 1) == 1.0;
    assert FacePose(f).keypoints[i] == FaceKeypoint(f, i);
    assert FacePose(f).keypoints[i + 1] == FaceKeypoint(f, i + 1);
  }

  /** A face of the shape the detector produces (centre in [0.1, 0.9], size in [0.1, 0.5]). */
  predicate InDetectorRange(f: FaceData)
  {
    0.1 <= f.x <= 0.9 && 0.1 <= f.y <= 0.9 && 0.1 <= f.size <= 0.5 && 0.0 < f.confidence <= 1.0
  }

  /** Around such a face the unclamped head points 0-4 also stay in the unit square, and every score lies in [0, 1]. */
  lemma DetectorRangePoseInFrame(f: FaceData)
    requires InDetectorRange(f)
    ensures forall i :: 0 <= i < KeypointCount ==>
      var k := FacePose(f).keypoints[i];
      0.0 <= k.x <= 1.0 && 0.0 <= k.y <= 1.0 && 0.0 <= k.score <= 1.0
  {
    forall i | 0 <= i < KeypointCount
      ensures var k := FacePose(f).keypoints[i];
        0.0 <= k.x <= 1.0 && 0.0 <= k.y <= 1.0 && 0.0 <= k.score <= 1.0
    {
      var k := FaceKeypoint(f, i);
      if i == 0 {
      } else if i <= 4 {
        assert -0.2 <= EyeSpread(i) <= 0.1;
      } else {
        assert 0.3 <= BodyOffsetOf(i).scoreFactor <= 0.7;
      }
    }
  }

  /** Feeding the detector's output to the pose generator keeps all 33 keypoints in the unit square. */
  lemma DetectedPoseInFrame(c: Canvas, data: seq<Byte>, sqrt: real -> real)
    requires IsImageData(c, data)
    ensures DetectedFace(c, data, sqrt).Some? ==>
      var pose := FacePose(DetectedFace(c, data, sqrt).value);
      |pose.keypoints| == KeypointCount &&
      forall i :: 0 <= i < KeypointCount ==>
        0.0 <= pose.keypoints[i].x <= 1.0 && 0.0 <= pose.keypoints[i].y <= 1.0 && 0.0 <= pose.keypoints[i].score <= 1.0
  {
    if DetectedFace(c, data, sqrt).Some? {
      DetectorRangePoseInFrame(DetectedFace(c, data, sqrt).value);
    }
  }

  /**
   * `getFallbackPose`: a column of 33 points on the vertical centre line,
   * starting at the canvas centre and descending 0.02 per keypoint, all
   * scored 0.3.
   */
  function FallbackPose(): (pose: PoseResult)
    ensures |pose.keypoints| == KeypointCount && pose.score == 0.3
    ensures forall i :: 0 <= i < KeypointCount ==> pose.keypoints[i].x == 0.5 && pose.keypoints[i].score == 0.3
    ensures pose.keypoints[0].y == 0.5
    ensures forall i :: 0 < i < KeypointCount ==> pose.keypoints[i].y == pose.keypoints[i - 1].y + 0.02
  {
    PoseResult(seq(KeypointCount, i => Keypoint(0.5, 0.5 + i as real * 0.02, 0.3)), 0.3)
  }

  /** The fallback pose is not clamped: keypoints 26-32 fall below the bottom edge of the frame. */
  lemma FallbackLeavesFrame(i: nat)
    requires i < KeypointCount
    ensures FallbackPose().keypoints[i].y <= 1.0 <==> i <= 25
  {
  }
}
