/** The value types of types.ts that the modelled services consume or produce. */
module Types {
  import opened Wrappers

  datatype Affect = Positive | Neutral | Negative

  /** One behavioural sample taken during play. */
  datatype BehavioralFeature = BehavioralFeature(
    timestamp: real,
    gazeX: real,
    gazeY: real,
    frownIntensity: real,
    smileIntensity: real,
    vocalPitch: Option<real>,
    vocalVolume: Option<real>,
    affect: Affect,
    attentionLevel: real)

  /** A body landmark in canvas-relative coordinates, with a detection score. */
  datatype Keypoint = Keypoint(x: real, y: real, score: real)

  /** A whole-body pose: the keypoints and an overall score. */
  datatype PoseResult = PoseResult(keypoints: seq<Keypoint>, score: real)
}
