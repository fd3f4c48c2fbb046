/** Landmark indices into the face mesh's output, one table per rule engine. */
module Landmarks {

  /** Number of points the face-mesh detector reports per face. */
  const MeshSize: nat := 468

  // The `FacialLandmarks` table of the video detector.
  const LeftEyeTop: nat := 159
  const LeftEyeBottom: nat := 145
  const LeftEyeLeft: nat := 33
  const LeftEyeRight: nat := 133
  const RightEyeTop: nat := 386
  const RightEyeBottom: nat := 374
  const RightEyeLeft: nat := 362
  const RightEyeRight: nat := 263
  const LeftEyebrowInner: nat := 70
  const LeftEyebrowOuter: nat := 107
  const LeftEyebrowTop: nat := 55
  const RightEyebrowInner: nat := 300
  const RightEyebrowOuter: nat := 336
  const RightEyebrowTop: nat := 285
  const MouthTop: nat := 13
  const MouthBottom: nat := 14
  const MouthLeft: nat := 78
  const MouthRight: nat := 308
  const MouthTopLip: nat := 12
  const MouthBottomLip: nat := 15
  const NoseTip: nat := 1
  const NoseBridge: nat := 6
  const LeftCheek: nat := 116
  const RightCheek: nat := 345

  /** The whole `FacialLandmarks` table, in declaration order. */
  const VideoTable: seq<nat> := [
    LeftEyeTop, LeftEyeBottom, LeftEyeLeft, LeftEyeRight,
    RightEyeTop, RightEyeBottom, RightEyeLeft, RightEyeRight,
    LeftEyebrowInner, LeftEyebrowOuter, LeftEyebrowTop,
    RightEyebrowInner, RightEyebrowOuter, RightEyebrowTop,
    MouthTop, MouthBottom, MouthLeft, MouthRight, MouthTopLip, MouthBottomLip,
    NoseTip, NoseBridge, LeftCheek, RightCheek]

  /** Largest index of the table; the video measurements need only this many points plus one. */
  const MaxVideoIndex: nat := 386

  /** Largest index the calibration step reads: of the two outer eye corners, the right one. */
  const MaxCalibrationIndex: nat := 263

  // The indices the static-image classifier reads, written as literals at each use in its source.
  const StaticMouthTop: nat := 13
  const StaticMouthBottom: nat := 14
  const StaticMouthLeft: nat := 78
  const StaticMouthRight: nat := 308
  const StaticLeftBrow: nat := 70
  const StaticLeftEyeInner: nat := 133
  const StaticLeftCorner: nat := 61
  const StaticRightCorner: nat := 291
  const StaticLeftLidTop: nat := 159
  const StaticLeftLidBottom: nat := 145
  const StaticRightBrow: nat := 300
  const StaticRightEyeInner: nat := 362
  const StaticUpperLipCenter: nat := 12
  const StaticLowerLipCenter: nat := 15
  const StaticNoseTip: nat := 1
  const StaticUpperLipLeft: nat := 37

  /** Every index the static-image classifier reads, in reading order. */
  const StaticReads: seq<nat> := [
    StaticMouthTop, StaticMouthBottom, StaticMouthLeft, StaticMouthRight,
    StaticLeftBrow, StaticLeftEyeInner, StaticLeftCorner, StaticRightCorner,
    StaticLeftLidTop, StaticLeftLidBottom, StaticRightBrow, StaticRightEyeInner,
    StaticUpperLipCenter, StaticLowerLipCenter, StaticNoseTip, StaticUpperLipLeft]

  /** Largest index the static-image classifier reads. */
  const MaxStaticIndex: nat := 362

  /** The video table addresses points the mesh actually reports, and its maximum is attained. */
  lemma VideoTableWithinMesh()
    ensures forall k :: 0 <= k < |VideoTable| ==> VideoTable[k] <= MaxVideoIndex < MeshSize
    ensures MaxVideoIndex in VideoTable
    ensures LeftEyeLeft <= MaxCalibrationIndex && RightEyeRight == MaxCalibrationIndex < MaxVideoIndex
  {
  }

  /** The static classifier reads only points the mesh actually reports, and its maximum is attained. */
  lemma StaticReadsWithinMesh()
    ensures forall k :: 0 <= k < |StaticReads| ==> StaticReads[k] <= MaxStaticIndex < MeshSize
    ensures MaxStaticIndex in StaticReads
  {
  }
}
