/**
 * The video detector `EmotionDetector`: per-frame distances between landmarks, normalised by the calibrated
 * face width, and a bank of six rules on a percent confidence scale. Unlike the static classifier it has no
 * fallback, so a frame may yield no label at all.
 */
module VideoClassifier {
  import opened Wrappers
  import opened Geometry
  import opened Landmarks
  import opened Results
  import opened Calibration

  /** The label vocabulary of the video detector. */
  datatype Label =
    | Sorpresa | FelicidadGenuina | SonrisaForzada | TensionEstres | Enojo | Tristeza | Concentracion
  {
    /** The label as the detector spells it. */
    function Text(): string
    {
      match this
      case Sorpresa => "Sorpresa"
      case FelicidadGenuina => "Felicidad genuina"
      case SonrisaForzada => "Sonrisa forzada"
      case TensionEstres => "Tensión/Estrés"
      case Enojo => "Enojo"
      case Tristeza => "Tristeza"
      case Concentracion => "Concentración"
    }

    /** The rule of the bank that emits the label, in evaluation order. */
    function Section(): nat
    {
      match this
      case Sorpresa => 1
      case FelicidadGenuina | SonrisaForzada => 2
      case TensionEstres => 3
      case Enojo => 4
      case Tristeza => 5
      case Concentracion => 6
    }
  }

  /** Raw measurements of one frame in pixels, before normalisation. */
  datatype FrameMeasures = FrameMeasures(
    faceWidth: real,         // outer eye corner to outer eye corner, fed to the calibrator
    mouthGap: real,          // mouth top to mouth bottom
    leftBrowLift: real,      // left brow top to left eye top
    rightBrowLift: real,     // right brow top to right eye top
    mouthWidth: real,        // left to right mouth corner
    curvatureOffset: real,   // (y of the top lip - mean y of the corners) * image height; y grows downward
    leftEyeHeight: real,     // left eye top to left eye bottom
    innerBrowGap: real,      // left inner brow to right inner brow
    leftCheekToNose: real,   // left cheek to nose tip
    rightCheekToNose: real)  // right cheek to nose tip

  /** The landmark at `i` in pixel space. */
  function At(lms: seq<Point>, i: nat, shape: Shape): Pixel
    requires i < |lms|
  {
    ToPixel(lms[i], shape)
  }

  /** The face width `calibrar_rostro` measures: the distance between the two outer eye corners. */
  function FaceWidth(lms: seq<Point>, shape: Shape, dist: (Pixel, Pixel) -> real): real
    requires |lms| > MaxCalibrationIndex
  {
    dist(At(lms, LeftEyeLeft, shape), At(lms, RightEyeRight, shape))
  }

  /** `curvatura_boca` before normalisation: how far the top lip lies below the mean of the two corners, in pixels. */
  function CurvatureOffset(lms: seq<Point>, shape: Shape): real
    requires |lms| > MaxVideoIndex
  {
    (lms[MouthTopLip].y - (lms[MouthLeft].y + lms[MouthRight].y) / 2.0) * shape.height as real
  }

  /** Every measurement of one frame; `dist` stands for the Euclidean distance between two pixels. */
  function Measure(lms: seq<Point>, shape: Shape, dist: (Pixel, Pixel) -> real): (m: FrameMeasures)
    requires |lms| > MaxVideoIndex
    ensures NonNegative(dist) ==>
      && m.faceWidth >= 0.0 && m.mouthGap >= 0.0 && m.leftBrowLift >= 0.0 && m.rightBrowLift >= 0.0
      && m.mouthWidth >= 0.0 && m.leftEyeHeight >= 0.0 && m.innerBrowGap >= 0.0
      && m.leftCheekToNose >= 0.0 && m.rightCheekToNose >= 0.0
  {
    FrameMeasures(
      FaceWidth(lms, shape, dist),
      dist(At(lms, MouthTop, shape), At(lms, MouthBottom, shape)),
      dist(At(lms, LeftEyebrowTop, shape), At(lms, LeftEyeTop, shape)),
      dist(At(lms, RightEyebrowTop, shape), At(lms, RightEyeTop, shape)),
      dist(At(lms, MouthLeft, shape), At(lms, MouthRight, shape)),
      CurvatureOffset(lms, shape),
      dist(At(lms, LeftEyeTop, shape), At(lms, LeftEyeBottom, shape)),
      dist(At(lms, LeftEyebrowInner, shape), At(lms, RightEyebrowInner, shape)),
      dist(At(lms, LeftCheek, shape), At(lms, NoseTip, shape)),
      dist(At(lms, RightCheek, shape), At(lms, NoseTip, shape)))
  }

  /** Corners higher in the image (smaller y) than the top lip give a positive curvature; lower ones a negative one. */
  lemma CurvatureSign(lms: seq<Point>, shape: Shape, dist: (Pixel, Pixel) -> real)
    requires |lms| > MaxVideoIndex && shape.height > 0
    ensures lms[MouthLeft].y < lms[MouthTopLip].y && lms[MouthRight].y < lms[MouthTopLip].y ==>
      Measure(lms, shape, dist).curvatureOffset > 0.0
    ensures lms[MouthLeft].y > lms[MouthTopLip].y && lms[MouthRight].y > lms[MouthTopLip].y ==>
      Measure(lms, shape, dist).curvatureOffset < 0.0
  {
    assert Measure(lms, shape, dist).curvatureOffset == CurvatureOffset(lms, shape);
    var lift := lms[MouthTopLip].y - (lms[MouthLeft].y + lms[MouthRight].y) / 2.0;
    assert CurvatureOffset(lms, shape) == lift * shape.height as real;
    ScaledSign(lift, shape.height as real);
  }

  /** Scaling by a positive factor keeps the sign. */
  lemma ScaledSign(x: real, k: real)
    requires k > 0.0
    ensures x > 0.0 ==> x * k > 0.0
    ensures x < 0.0 ==> x * k < 0.0
  {
  }

  /** `norm_factor`: a hundredth of the baseline, or 1.0 when the baseline is None or zero. */
  function NormFactor(baseline: Option<real>): (nf: real)
    ensures nf != 0.0
    ensures baseline.Some? && baseline.value >= 0.0 ==> nf > 0.0
    ensures baseline.Some? && baseline.value != 0.0 ==> nf * 100.0 == baseline.value
    ensures baseline.None? || baseline.value == 0.0 ==> nf == 1.0
  {
    if baseline.Some? && baseline.value != 0.0 then baseline.value / 100.0 else 1.0
  }

  /** The normalised features the rules test. */
  datatype Features = Features(
    mouthAperture: real,   // apertura_boca
    browElevation: real,   // elevacion_cejas: mean of the two brow lifts
    smileWidth: real,      // ancho_sonrisa
    curvature: real,       // curvatura_boca: positive when the corners sit higher in the image than the top lip
    eyeHeight: real,       // left_eye_height
    browGap: real,         // distancia_cejas
    asymmetry: real)       // asimetria

  /** Every measurement divided by the norm factor. */
  function Normalize(m: FrameMeasures, nf: real): (v: Features)
    requires nf != 0.0
    ensures v.mouthAperture * nf == m.mouthGap
    ensures v.browElevation * 2.0 * nf == m.leftBrowLift + m.rightBrowLift
    ensures v.smileWidth * nf == m.mouthWidth
    ensures v.curvature * nf == m.curvatureOffset
    ensures v.eyeHeight * nf == m.leftEyeHeight
    ensures v.browGap * nf == m.innerBrowGap
    ensures v.asymmetry * nf == Abs(m.leftCheekToNose - m.rightCheekToNose)
  {
    Features(
      m.mouthGap / nf,
      (m.leftBrowLift + m.rightBrowLift) / (2.0 * nf),
      m.mouthWidth / nf,
      m.curvatureOffset / nf,
      m.leftEyeHeight / nf,
      m.innerBrowGap / nf,
      Abs(m.leftCheekToNose - m.rightCheekToNose) / nf)
  }

  /** tension_score: 30, 25, 20 and 15 points for the four tension indicators present. */
  function TensionScore(v: Features): (score: nat)
    ensures score <= 90
  {
    (if v.browGap < 35.0 then 30 else 0)
    + (if v.mouthAperture < 3.0 && v.smileWidth < 35.0 then 25 else 0)
    + (if v.browElevation > 25.0 then 20 else 0)
    + (if v.asymmetry > 3.0 then 15 else 0)
  }

  /** Reference definition of the bank, one label at a time, with the if/else of the smile rule flattened. */
  predicate Fires(l: Label, v: Features)
  {
    match l
    case Sorpresa => v.mouthAperture > 15.0 && v.browElevation > 18.0
    case FelicidadGenuina => v.smileWidth > 45.0 && v.curvature < -2.0 && v.eyeHeight < 8.0
    case SonrisaForzada => v.smileWidth > 45.0 && v.curvature < -2.0 && v.eyeHeight >= 8.0
    case TensionEstres => TensionScore(v) > 40
    case Enojo => v.browElevation < 10.0 && v.browGap < 30.0 && v.mouthAperture < 5.0
    case Tristeza => v.curvature > 2.0 && v.smileWidth < 40.0
    case Concentracion => 30.0 < v.browGap < 38.0 && 3.0 < v.mouthAperture < 8.0 && 35.0 < v.smileWidth < 45.0
  }

  /** Reference definition of the percent confidence each rule stores under its label. */
  function RuleConfidence(l: Label, v: Features): real
  {
    match l
    case Sorpresa => Min(95.0, (v.mouthAperture + v.browElevation) * 2.0)
    case FelicidadGenuina => Min(90.0, v.smileWidth + Abs(v.curvature) * 10.0)
    case SonrisaForzada => Min(85.0, v.smileWidth)
    case TensionEstres => Min(95.0, TensionScore(v) as real)
    case Enojo => Min(90.0, (40.0 - v.browGap) * 2.0)
    case Tristeza => Min(85.0, v.curvature * 15.0)
    case Concentracion => 70.0
  }

  /** A partial result of the bank: well formed, confidences in (20, 95], labels from rules 1 to `upTo`. */
  predicate Stage(r: EmotionResult<Label>, upTo: nat)
  {
    && WellFormed(r)
    && ConfidencesWithin(r, 20.0, 95.0)
    && forall l :: l in r.labels ==> l.Section() <= upTo
  }

  /** Rule `k` adds exactly its firing labels, with their rule confidences, and keeps everything before it. */
  predicate Extends(r: EmotionResult<Label>, r': EmotionResult<Label>, k: nat, v: Features)
  {
    && (forall l :: l in r'.labels <==> l in r.labels || (l.Section() == k && Fires(l, v)))
    && (forall l :: l in r.confidence ==> l in r'.confidence && r'.confidence[l] == r.confidence[l])
    && (forall l: Label :: l.Section() == k && Fires(l, v) ==>
          l in r'.confidence && r'.confidence[l] == RuleConfidence(l, v))
  }

  /**
   * Recording `l` with confidence `conf` when `fires` holds turns a result of the rules before `k` into one of
   * the rules up to `k`, provided `l` is the label of rule `k` that fires exactly then and none fires otherwise.
   */
  lemma RecordExtends(r: EmotionResult<Label>, k: nat, v: Features, fires: bool, l: Label, conf: real)
    requires 1 <= k && Stage(r, k - 1) && l.Section() == k
    requires forall m: Label :: m.Section() == k ==> (Fires(m, v) <==> fires && m == l)
    requires fires ==> conf == RuleConfidence(l, v) && 20.0 < conf <= 95.0
    ensures Stage(AddIf(r, fires, l, conf), k) && Extends(r, AddIf(r, fires, l, conf), k, v)
  {
  }

  /** 1. Surprise: open mouth and raised brows. */
  function SurpriseRule(r: EmotionResult<Label>, v: Features): (r': EmotionResult<Label>)
    requires Stage(r, 0)
    ensures Stage(r', 1) && Extends(r, r', 1, v)
  {
    var fires := v.mouthAperture > 15.0 && v.browElevation > 18.0;
    var conf := Min(95.0, (v.mouthAperture + v.browElevation) * 2.0);
    RecordExtends(r, 1, v, fires, Sorpresa, conf);
    AddIf(r, fires, Sorpresa, conf)
  }

  /**
   * 2. Smile: a wide mouth with curvature below -2, that is, corners more than 2 units lower in the image than
   * the top lip; narrowed eyes make it genuine, open eyes forced.
   */
  function SmileRule(r: EmotionResult<Label>, v: Features): (r': EmotionResult<Label>)
    requires Stage(r, 1)
    ensures Stage(r', 2) && Extends(r, r', 2, v)
  {
    if !(v.smileWidth > 45.0 && v.curvature < -2.0) then
      RecordExtends(r, 2, v, false, FelicidadGenuina, 0.0);
      r
    else if v.eyeHeight < 8.0 then
      var conf := Min(90.0, v.smileWidth + Abs(v.curvature) * 10.0);
      RecordExtends(r, 2, v, true, FelicidadGenuina, conf);
      Add(r, FelicidadGenuina, conf)
    else
      var conf := Min(85.0, v.smileWidth);
      RecordExtends(r, 2, v, true, SonrisaForzada, conf);
      Add(r, SonrisaForzada, conf)
  }

  /** 3. Tension or stress: a score above 40 over the four indicators. */
  function TensionRule(r: EmotionResult<Label>, v: Features): (r': EmotionResult<Label>)
    requires Stage(r, 2)
    ensures Stage(r', 3) && Extends(r, r', 3, v)
  {
    var score := TensionScore(v);
    RecordExtends(r, 3, v, score > 40, TensionEstres, Min(95.0, score as real));
    AddIf(r, score > 40, TensionEstres, Min(95.0, score as real))
  }

  /** 4. Anger: low, drawn-together brows and a nearly closed mouth. */
  function AngerRule(r: EmotionResult<Label>, v: Features): (r': EmotionResult<Label>)
    requires Stage(r, 3)
    ensures Stage(r', 4) && Extends(r, r', 4, v)
  {
    var fires := v.browElevation < 10.0 && v.browGap < 30.0 && v.mouthAperture < 5.0;
    var conf := Min(90.0, (40.0 - v.browGap) * 2.0);
    RecordExtends(r, 4, v, fires, Enojo, conf);
    AddIf(r, fires, Enojo, conf)
  }

  /** 5. Sadness: curvature above 2, that is, corners more than 2 units higher in the image than the top lip, on a narrow mouth. */
  function SadnessRule(r: EmotionResult<Label>, v: Features): (r': EmotionResult<Label>)
    requires Stage(r, 4)
    ensures Stage(r', 5) && Extends(r, r', 5, v)
  {
    var fires := v.curvature > 2.0 && v.smileWidth < 40.0;
    var conf := Min(85.0, v.curvature * 15.0);
    RecordExtends(r, 5, v, fires, Tristeza, conf);
    AddIf(r, fires, Tristeza, conf)
  }

  /** 6. Concentration: slightly drawn brows, slightly open mouth, medium width. */
  function ConcentrationRule(r: EmotionResult<Label>, v: Features): (r': EmotionResult<Label>)
    requires Stage(r, 5)
    ensures Stage(r', 6) && Extends(r, r', 6, v)
  {
    var fires := 30.0 < v.browGap < 38.0 && 3.0 < v.mouthAperture < 8.0 && 35.0 < v.smileWidth < 45.0;
    RecordExtends(r, 6, v, fires, Concentracion, 70.0);
    AddIf(r, fires, Concentracion, 70.0)
  }

  /**
   * The rule part of `detectar_emociones`: exactly the firing labels, each once, each with its rule's
   * confidence, every confidence in (20, 95]; possibly none.
   */
  function RuleBank(v: Features): (r: EmotionResult<Label>)
    ensures WellFormed(r) && ConfidencesWithin(r, 20.0, 95.0)
    ensures forall l: Label :: l in r.labels <==> Fires(l, v)
    ensures forall l :: l in r.labels ==> r.confidence[l] == RuleConfidence(l, v)
  {
    var r1 := SurpriseRule(NoEmotions(), v);
    var r2 := SmileRule(r1, v);
    var r3 := TensionRule(r2, v);
    var r4 := AngerRule(r3, v);
    var r5 := SadnessRule(r4, v);
    ConcentrationRule(r5, v)
  }

  /** The tension indicators present, one for each score increment. */
  function TensionIndicators(v: Features): (n: nat)
    ensures n <= 4
  {
    (if v.browGap < 35.0 then 1 else 0)
    + (if v.mouthAperture < 3.0 && v.smileWidth < 35.0 then 1 else 0)
    + (if v.browElevation > 25.0 then 1 else 0)
    + (if v.asymmetry > 3.0 then 1 else 0)
  }

  /**
   * "Tensión/Estrés" needs at least two indicators; the jaw and asymmetry indicators alone (25 + 15) are not
   * enough, and the stored confidence is the score itself.
   */
  lemma TensionNeedsTwoIndicators(v: Features)
    ensures TensionEstres in RuleBank(v).labels ==> TensionIndicators(v) >= 2
    ensures TensionEstres in RuleBank(v).labels <==> TensionScore(v) > 40
    ensures !(v.browGap < 35.0) && !(v.browElevation > 25.0) ==> TensionEstres !in RuleBank(v).labels
    ensures TensionEstres in RuleBank(v).labels ==> RuleBank(v).confidence[TensionEstres] == TensionScore(v) as real
  {
    var r := RuleBank(v);
    assert TensionEstres in r.labels <==> Fires(TensionEstres, v);
    TensionScoreNeeds(v);
    assert TensionEstres in r.labels ==> r.confidence[TensionEstres] == RuleConfidence(TensionEstres, v);
  }

  /** A score above 40 needs two indicators, one of them the brow gap or the brow lift. */
  lemma TensionScoreNeeds(v: Features)
    ensures TensionScore(v) > 40 ==> TensionIndicators(v) >= 2
    ensures !(v.browGap < 35.0) && !(v.browElevation > 25.0) ==> TensionScore(v) <= 40
    ensures RuleConfidence(TensionEstres, v) == TensionScore(v) as real
  {
  }

  /** The exclusions of the bank, on the reference conditions. */
  lemma ExclusionsFire(v: Features)
    ensures !(Fires(FelicidadGenuina, v) && Fires(SonrisaForzada, v))
    ensures Fires(FelicidadGenuina, v) || Fires(SonrisaForzada, v) ==> !Fires(Tristeza, v)
    ensures Fires(Sorpresa, v) ==> !Fires(Enojo, v) && !Fires(Concentracion, v)
    ensures !(Fires(Enojo, v) && Fires(Concentracion, v))
  {
  }

  /**
   * Genuine and forced smiles exclude each other and sadness; surprise excludes anger and concentration;
   * anger excludes concentration.
   */
  lemma Exclusions(v: Features)
    ensures !(FelicidadGenuina in RuleBank(v).labels && SonrisaForzada in RuleBank(v).labels)
    ensures FelicidadGenuina in RuleBank(v).labels || SonrisaForzada in RuleBank(v).labels ==>
      Tristeza !in RuleBank(v).labels
    ensures Sorpresa in RuleBank(v).labels ==>
      Enojo !in RuleBank(v).labels && Concentracion !in RuleBank(v).labels
    ensures !(Enojo in RuleBank(v).labels && Concentracion in RuleBank(v).labels)
  {
    ExclusionsFire(v);
  }

  /** Different labels are spelled differently. */
  lemma TextInjective(a: Label, b: Label)
    requires a != b
    ensures a.Text() != b.Text()
  {
    assert a.Text()[0] != b.Text()[0] || a.Text()[1] != b.Text()[1] || |a.Text()| != |b.Text()|;
  }

  /** The text shown while calibrating. */
  const CalibratingText: string := "Calibrando..."

  /** What `detectar_emociones` returns: the one-element calibration list, or the labels with their confidences. */
  datatype Detection = Calibrating | Detected(emotions: EmotionResult<Label>)
  {
    /** The label list the main loop takes from the result, as text. */
    function LabelTexts(): (ts: seq<string>)
      ensures Calibrating? ==> ts == [CalibratingText]
      ensures Detected? ==> |ts| == |emotions.labels|
      ensures Detected? ==> forall i :: 0 <= i < |ts| ==> ts[i] == emotions.labels[i].Text()
    {
      match this
      case Calibrating => [CalibratingText]
      case Detected(e) => seq(|e.labels|, i requires 0 <= i < |e.labels| => e.labels[i].Text())
    }
  }

  /** The label list of a well-formed detection repeats no text, so each frame adds a label at most once. */
  lemma DetectedTextsDistinct(d: Detection)
    requires d.Detected? ==> WellFormed(d.emotions)
    ensures forall a, b :: 0 <= a < b < |d.LabelTexts()| ==> d.LabelTexts()[a] != d.LabelTexts()[b]
  {
    if d.Detected? {
      forall a, b | 0 <= a < b < |d.LabelTexts()|
        ensures d.LabelTexts()[a] != d.LabelTexts()[b]
      {
        TextInjective(d.emotions.labels[a], d.emotions.labels[b]);
      }
    }
  }

  /**
   * `detectar_emociones` on one frame's measurements: the calibrator is updated first, and the rules run,
   * normalised by the updated baseline, only once calibration is complete.
   */
  function Detect(c: Calibrator, m: FrameMeasures): (r: (Calibrator, Detection))
    ensures r.0 == Calibrate(c, m.faceWidth).0
    ensures r.1.Calibrating? <==> c.frames + 1 < MaxCalibrationFrames
    ensures r.1.Detected? ==>
      && WellFormed(r.1.emotions) && ConfidencesWithin(r.1.emotions, 20.0, 95.0)
      && (forall l: Label :: l in r.1.emotions.labels <==> Fires(l, Normalize(m, NormFactor(r.0.baseline))))
      && forall l :: l in r.1.emotions.labels ==>
           r.1.emotions.confidence[l] == RuleConfidence(l, Normalize(m, NormFactor(r.0.baseline)))
    ensures (c.baseline.Some? ==> c.baseline.value >= 0.0) && m.faceWidth >= 0.0 ==>
      r.0.baseline.value >= 0.0 && NormFactor(r.0.baseline) > 0.0
  {
    var (next, ready) := Calibrate(c, m.faceWidth);
    if !ready then (next, Calibrating)
    else (next, Detected(RuleBank(Normalize(m, NormFactor(next.baseline)))))
  }

  /** What a call of `detectar_emociones` ends in: an answer with the updated calibrator, or an IndexError. */
  datatype Step = Answered(calibrator: Calibrator, detection: Detection) | IndexOutOfRange

  /**
   * `detectar_emociones(landmarks, shape)`. Calibration reads only the two outer eye corners, so a short
   * landmark list fails only once a call goes on to classify.
   */
  function DetectEmotions(c: Calibrator, lms: seq<Point>, shape: Shape, dist: (Pixel, Pixel) -> real): (r: Step)
    ensures r.IndexOutOfRange? <==>
      |lms| <= MaxCalibrationIndex || (|lms| <= MaxVideoIndex && c.frames + 1 >= MaxCalibrationFrames)
    ensures r.Answered? ==> r.calibrator == Calibrate(c, FaceWidth(lms, shape, dist)).0
    ensures r.Answered? ==>
      && r.calibrator.frames == c.frames + 1
      && (r.detection.Calibrating? <==> c.frames + 1 < MaxCalibrationFrames)
    ensures r.Answered? && r.detection.Detected? ==>
      && |lms| > MaxVideoIndex
      && WellFormed(r.detection.emotions) && ConfidencesWithin(r.detection.emotions, 20.0, 95.0)
      && (forall l: Label :: l in r.detection.emotions.labels <==>
            Fires(l, Normalize(Measure(lms, shape, dist), NormFactor(r.calibrator.baseline))))
      && forall l :: l in r.detection.emotions.labels ==>
           r.detection.emotions.confidence[l] ==
             RuleConfidence(l, Normalize(Measure(lms, shape, dist), NormFactor(r.calibrator.baseline)))
    ensures r.Answered? && NonNegative(dist) && (c.baseline.Some? ==> c.baseline.value >= 0.0) ==>
      NormFactor(r.calibrator.baseline) > 0.0
  {
    if |lms| <= MaxCalibrationIndex then IndexOutOfRange
    else if |lms| <= MaxVideoIndex then
      var (next, ready) := Calibrate(c, FaceWidth(lms, shape, dist));
      if ready then IndexOutOfRange else Answered(next, Calibrating)
    else
      var (next, d) := Detect(c, Measure(lms, shape, dist));
      Answered(next, d)
  }

  /** The detector's results for a sequence of frames, threading the calibrator through. */
  function Run(c: Calibrator, frames: seq<FrameMeasures>): (ds: seq<Detection>)
    ensures |ds| == |frames|
    decreases |frames|
  {
    if frames == [] then []
    else
      var (next, d) := Detect(c, frames[0]);
      [d] + Run(next, frames[1..])
  }

  /** Call k (from 0) still calibrates exactly when the counter it produces is below the threshold. */
  lemma {:induction false} CalibratingWhileCounting(c: Calibrator, frames: seq<FrameMeasures>)
    ensures forall k :: 0 <= k < |frames| ==>
      (Run(c, frames)[k].Calibrating? <==> c.frames + k + 1 < MaxCalibrationFrames)
    decreases |frames|
  {
    if frames != [] {
      var (next, d) := Detect(c, frames[0]);
      assert next.frames == c.frames + 1;
      assert Run(c, frames) == [d] + Run(next, frames[1..]);
      CalibratingWhileCounting(next, frames[1..]);
      forall k | 0 <= k < |frames|
        ensures Run(c, frames)[k].Calibrating? <==> c.frames + k + 1 < MaxCalibrationFrames
      {
        if k > 0 {
          assert Run(c, frames)[k] == Run(next, frames[1..])[k - 1];
        }
      }
    }
  }

  /** A new detector answers "Calibrando..." on exactly its first 29 calls. */
  lemma CalibratingExactlyFirst29(frames: seq<FrameMeasures>)
    ensures forall k :: 0 <= k < |frames| ==> (Run(Fresh, frames)[k].Calibrating? <==> k < 29)
  {
    CalibratingWhileCounting(Fresh, frames);
  }
}
