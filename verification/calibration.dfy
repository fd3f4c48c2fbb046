/**
 * The calibrator of the video detector: a baseline face width, empty until the first sample and then an
 * exponential moving average, plus a count of calibration calls.
 */
module Calibration {
  import opened Wrappers

  /** Calls needed before the detector starts classifying. */
  const MaxCalibrationFrames: nat := 30

  datatype Calibrator = Calibrator(baseline: Option<real>, frames: nat)

  /** The state of a new detector: no baseline, no frames. */
  const Fresh := Calibrator(None, 0)

  /** `calibrar_rostro`: folds one measured face width into the baseline; true once calibration is complete. */
  function Calibrate(c: Calibrator, faceWidth: real): (r: (Calibrator, bool))
    ensures r.0.frames == c.frames + 1
    ensures r.1 <==> r.0.frames >= MaxCalibrationFrames
    ensures r.0.baseline.Some?
    ensures c.baseline.None? ==> r.0.baseline.value == faceWidth
    ensures c.baseline.Some? ==>
      var prev := c.baseline.value;
      && (prev <= faceWidth ==> prev <= r.0.baseline.value <= faceWidth)
      && (faceWidth <= prev ==> faceWidth <= r.0.baseline.value <= prev)
  {
    var b := match c.baseline
      case None => faceWidth
      case Some(prev) => prev * 0.9 + faceWidth * 0.1;
    var next := Calibrator(Some(b), c.frames + 1);
    (next, next.frames >= MaxCalibrationFrames)
  }

  /** The calibrator after one call per width, in order. */
  function CalibrateAll(c: Calibrator, widths: seq<real>): Calibrator
    decreases |widths|
  {
    if widths == [] then c else CalibrateAll(Calibrate(c, widths[0]).0, widths[1..])
  }

  /** The counter goes up by exactly one per call. */
  lemma {:induction false} FramesCountCalls(c: Calibrator, widths: seq<real>)
    ensures CalibrateAll(c, widths).frames == c.frames + |widths|
    decreases |widths|
  {
    if widths != [] {
      FramesCountCalls(Calibrate(c, widths[0]).0, widths[1..]);
    }
  }

  /** If every width seen lies in [lo, hi], so does the baseline, however many samples were averaged. */
  lemma {:induction false} BaselineWithinRange(c: Calibrator, widths: seq<real>, lo: real, hi: real)
    requires c.baseline.None? ==> |widths| > 0
    requires c.baseline.Some? ==> lo <= c.baseline.value <= hi
    requires forall i :: 0 <= i < |widths| ==> lo <= widths[i] <= hi
    ensures CalibrateAll(c, widths).baseline.Some?
    ensures lo <= CalibrateAll(c, widths).baseline.value <= hi
    decreases |widths|
  {
    if widths != [] {
      BaselineWithinRange(Calibrate(c, widths[0]).0, widths[1..], lo, hi);
    }
  }

  /** The first sample becomes the baseline as it is; the second is averaged in with weight 0.1. */
  lemma FirstSamplesOfSession(w1: real, w2: real)
    ensures CalibrateAll(Fresh, [w1]).baseline == Some(w1)
    ensures CalibrateAll(Fresh, [w1, w2]).baseline == Some(0.9 * w1 + 0.1 * w2)
  {
    assert [w1][1..] == [];
    assert [w1, w2][1..] == [w2];
    assert [w2][1..] == [];
    var first := Calibrate(Fresh, w1).0;
    assert first.baseline == Some(w1);
    assert CalibrateAll(Fresh, [w1, w2]) == CalibrateAll(first, [w2]);
    assert CalibrateAll(first, [w2]) == Calibrate(first, w2).0;
  }
}
