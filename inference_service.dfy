/**
 * The streaming score of the inference service: a window of behavioural
 * samples is scored by how much the horizontal gaze moves from one sample to
 * the next, scaled and capped.
 */
module InferenceService {
  import opened Types
  import opened RealMath

  /** Windows shorter than this score 0. */
  const MinWindow: nat := 10
  /** Factor applied to the mean gaze movement. */
  const Scale: real := 50.0
  /** Upper bound of the score. */
  const Cap: real := 100.0

  /**
   * Sum of |gazeX[i] - gazeX[i-1]| over consecutive pairs, accumulated from
   * the left as the `reduce` over the window does: the first sample starts
   * the sum at 0, every later sample adds its step from its predecessor.
   */
  function GazeVariability(window: seq<BehavioralFeature>): (v: real)
    ensures v >= 0.0
  {
    if |window| <= 1 then 0.0
    else GazeVariability(window[..|window| - 1]) + Abs(window[|window| - 1].gazeX - window[|window| - 2].gazeX)
  }

  /** `InferenceService.processStreamingData`: the score of one window. */
  function ProcessStreamingData(window: seq<BehavioralFeature>): (score: real)
    ensures |window| < MinWindow ==> score == 0.0
    ensures 0.0 <= score <= Cap
  {
    if |window| < MinWindow then 0.0
    else Min(Cap, (GazeVariability(window) / |window| as real) * Scale)
  }

  /** The uncapped score: mean step of gazeX times the scale. */
  function ScaledMeanStep(window: seq<BehavioralFeature>): real
    requires |window| > 0
  {
    (GazeVariability(window) / |window| as real) * Scale
  }

  /** The cap binds only when the scaled mean step exceeds it; below it the score is exact. */
  lemma ScoreIsCappedScaledMean(window: seq<BehavioralFeature>)
    requires |window| >= MinWindow
    ensures ScaledMeanStep(window) <= Cap ==> ProcessStreamingData(window) == ScaledMeanStep(window)
    ensures ScaledMeanStep(window) > Cap ==> ProcessStreamingData(window) == Cap
  {
  }

  /**
   * Read from the front, the sum has one term per consecutive pair: the first
   * sample enters only through its step to the second one.
   */
  lemma {:induction false} VariabilityFromFront(first: BehavioralFeature, rest: seq<BehavioralFeature>)
    ensures GazeVariability([first] + rest) ==
            (if rest == [] then 0.0 else Abs(rest[0].gazeX - first.gazeX)) + GazeVariability(rest)
  {
    var w := [first] + rest;
    if |rest| == 1 {
      assert w[..|w| - 1] == [first];
      assert rest[..|rest| - 1] == [];
    } else if |rest| >= 2 {
      var shorter := rest[..|rest| - 1];
      VariabilityFromFront(first, shorter);
      assert w[..|w| - 1] == [first] + shorter;
      assert shorter[0] == rest[0];
    }
  }

  /** Only gazeX matters: windows that agree on every gazeX score the same. */
  lemma {:induction false} OnlyGazeXMatters(w1: seq<BehavioralFeature>, w2: seq<BehavioralFeature>)
    requires |w1| == |w2|
    requires forall i :: 0 <= i < |w1| ==> w1[i].gazeX == w2[i].gazeX
    ensures GazeVariability(w1) == GazeVariability(w2)
    ensures ProcessStreamingData(w1) == ProcessStreamingData(w2)
  {
    if |w1| > 1 {
      OnlyGazeXMatters(w1[..|w1| - 1], w2[..|w2| - 1]);
    }
  }

  /** A window whose gaze never moves horizontally scores 0, however long it is. */
  lemma {:induction false} SteadyGazeScoresZero(window: seq<BehavioralFeature>)
    requires forall i :: 0 <= i < |window| ==> window[i].gazeX == window[0].gazeX
    ensures GazeVariability(window) == 0.0
    ensures ProcessStreamingData(window) == 0.0
  {
    if |window| > 1 {
      SteadyGazeScoresZero(window[..|window| - 1]);
    }
  }

  /** With gazeX in [0, 1] every step is at most 1, so the sum is at most the number of pairs. */
  lemma {:induction false} VariabilityAtMostPairCount(window: seq<BehavioralFeature>)
    requires forall i :: 0 <= i < |window| ==> 0.0 <= window[i].gazeX <= 1.0
    ensures |window| > 0 ==> GazeVariability(window) <= (|window| - 1) as real
  {
    if |window| > 1 {
      VariabilityAtMostPairCount(window[..|window| - 1]);
    }
  }

  /** For normalised gaze the score stays below 50, so the cap of 100 never binds. */
  lemma NormalisedGazeScoresBelowFifty(window: seq<BehavioralFeature>)
    requires forall i :: 0 <= i < |window| ==> 0.0 <= window[i].gazeX <= 1.0
    ensures ProcessStreamingData(window) < 50.0
    ensures |window| >= MinWindow ==> ProcessStreamingData(window) == ScaledMeanStep(window)
  {
    if |window| >= MinWindow {
      VariabilityAtMostPairCount(window);
      var n := |window| as real;
      var v := GazeVariability(window);
      var mean := v / n;
      assert mean * n == v;
      assert mean < 1.0;
    }
  }
}
