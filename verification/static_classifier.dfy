/**
 * The static-image classifier `detectar_microexpresiones`: pixel-space features of one face,
 * an ordered bank of independent rules, and a neutrality score that replaces an empty result.
 */
module StaticClassifier {
  import opened Wrappers
  import opened Geometry
  import opened Landmarks
  import opened Results

  /** The label vocabulary of the static-image classifier. */
  datatype Label =
    | ErrorSinLandmarks | Asombro | Tension | AsombroIntenso | Feliz | Contento | Enojado
    | MuyNervioso | Nervioso | MuyTriste | Triste | Miedo | Disgusto | Concentrado
    | ExpresionNeutra | ExpresionAmbigua
  {
    /** The label as the classifier spells it. */
    function Text(): string
    {
      match this
      case ErrorSinLandmarks => "Error: Sin landmarks"
      case Asombro => "Asombro"
      case Tension => "Tension"
      case AsombroIntenso => "Asombro intenso"
      case Feliz => "Feliz"
      case Contento => "Contento"
      case Enojado => "Enojado"
      case MuyNervioso => "Muy nervioso"
      case Nervioso => "Nervioso"
      case MuyTriste => "Muy triste"
      case Triste => "Triste"
      case Miedo => "Miedo"
      case Disgusto => "Disgusto"
      case Concentrado => "Concentrado"
      case ExpresionNeutra => "Expresión neutra"
      case ExpresionAmbigua => "Expresión ambigua"
    }

    /** The rule of the bank that emits the label, in evaluation order (0 for labels no rule emits). */
    function Section(): nat
    {
      match this
      case Asombro => 1
      case Tension => 2
      case AsombroIntenso => 3
      case Feliz | Contento => 4
      case Enojado => 5
      case MuyNervioso | Nervioso => 6
      case MuyTriste | Triste => 7
      case Miedo => 8
      case Disgusto => 9
      case Concentrado => 10
      case ErrorSinLandmarks | ExpresionNeutra | ExpresionAmbigua => 0
    }
  }

  /** The two features assigned only inside the `anchura_boca > 35` branch. */
  datatype SmileFeatures = SmileFeatures(
    curvature: real,     // curvatura_boca: positive when the corners sit above the lip centre
    eyeAperture: real)   // apertura_ojo: left eyelid opening

  /** Every feature of one face, in pixels; `smile` is None when the branch that assigns it was skipped. */
  datatype StaticFeatures = StaticFeatures(
    mouthAperture: real,      // apertura_boca
    mouthWidth: real,         // anchura_boca
    browElevation: real,      // elevacion_cejas (left brow only)
    rightBrowDistance: real,  // distancia_ceja_der
    lipThickness: real,       // grosor_labios
    upperLipElevation: real,  // elevacion_labio_sup
    smile: Option<SmileFeatures>)

  /** The dict the classifier returns: labels with confidences, and the measured values (None for an empty dict). */
  datatype Report = Report(emotions: EmotionResult<Label>, values: Option<StaticFeatures>)

  /** The exception that escapes the classifier: a local variable read before any assignment. */
  datatype Fault = UnboundLocal(variable: string)

  datatype Outcome = Returned(report: Report) | Raised(fault: Fault)

  /** The report for a missing or incomplete landmark list: one error label, no values, no confidences. */
  const NoLandmarksReport := Report(EmotionResult([ErrorSinLandmarks], map[]), None)

  /** Threshold on the mouth width above which the smile features are computed. */
  const SmileWidth: real := 35.0

  /** Curvature and eye opening, computed only when the mouth is wider than `SmileWidth`. */
  function MeasureSmile(lms: seq<Point>, shape: Shape): (s: SmileFeatures)
    requires |lms| > MaxStaticIndex
    ensures s.eyeAperture >= 0.0
  {
    var h := shape.height as real;
    var cornersHeight := (lms[StaticLeftCorner].y + lms[StaticRightCorner].y) / 2.0;
    var centreHeight := (lms[StaticMouthTop].y + lms[StaticMouthBottom].y) / 2.0;
    SmileFeatures(
      (centreHeight - cornersHeight) * h,
      Abs((lms[StaticLeftLidTop].y - lms[StaticLeftLidBottom].y) * h))
  }

  /** Feature extraction; it reads no index above `MaxStaticIndex`. */
  function Measure(lms: seq<Point>, shape: Shape): (f: StaticFeatures)
    requires |lms| > MaxStaticIndex
    ensures f.mouthAperture >= 0.0 && f.mouthWidth >= 0.0 && f.browElevation >= 0.0
    ensures f.rightBrowDistance >= 0.0 && f.lipThickness >= 0.0 && f.upperLipElevation >= 0.0
    ensures f.smile.Some? <==> f.mouthWidth > SmileWidth
  {
    var h := shape.height as real;
    var w := shape.width as real;
    var width := Abs(lms[StaticMouthRight].x * w - lms[StaticMouthLeft].x * w);
    StaticFeatures(
      Abs(lms[StaticMouthBottom].y * h - lms[StaticMouthTop].y * h),
      width,
      Abs(lms[StaticLeftBrow].y * h - lms[StaticLeftEyeInner].y * h),
      Abs(lms[StaticRightBrow].y * h - lms[StaticRightEyeInner].y * h),
      Abs((lms[StaticUpperLipCenter].y - lms[StaticLowerLipCenter].y) * h),
      Abs((lms[StaticNoseTip].y - lms[StaticUpperLipLeft].y) * h),
      if width > SmileWidth then Some(MeasureSmile(lms, shape)) else None)
  }

  /** elevacion_cejas_promedio: mean of the left and right brow-to-eye distances. */
  function BrowAverage(f: StaticFeatures): real
  {
    (f.browElevation + f.rightBrowDistance) / 2.0
  }

  /** indicadores_nervios: how many of the four nervousness signs are present. */
  function NervousIndicators(f: StaticFeatures, s: SmileFeatures): (n: nat)
    ensures n <= 4
  {
    var avg := BrowAverage(f);
    (if 15.0 < avg < 25.0 then 1 else 0)
    + (if 3.0 < f.mouthAperture < 10.0 then 1 else 0)
    + (if s.eyeAperture > 9.0 then 1 else 0)
    + (if 2.0 < f.lipThickness < 5.0 then 1 else 0)
  }

  /**
   * Reference definition of the rule bank, one label at a time: the condition under which the label is
   * emitted, with the if/elif and nested branches of the source flattened into one test per label.
   */
  predicate Fires(l: Label, f: StaticFeatures, s: SmileFeatures)
  {
    var avg := BrowAverage(f);
    match l
    case Asombro => f.mouthAperture > 8.0
    case Tension => f.browElevation > 15.0
    case AsombroIntenso => f.browElevation > 20.0 && f.mouthAperture > 12.0
    case Feliz => s.curvature > 3.0 && s.eyeAperture < 8.0
    case Contento => !(s.curvature > 3.0 && s.eyeAperture < 8.0) && s.curvature > 1.0
    case Enojado => avg < 12.0 && f.lipThickness < 3.0 && s.curvature < 0.0
    case MuyNervioso => NervousIndicators(f, s) >= 3
    case Nervioso => NervousIndicators(f, s) == 2
    case MuyTriste => s.curvature < -3.0 && avg < 18.0
    case Triste => -3.0 <= s.curvature < -1.0 && avg < 18.0
    case Miedo => f.mouthAperture > 8.0 && avg > 25.0 && s.eyeAperture > 12.0
    case Disgusto => f.upperLipElevation < 15.0 && s.curvature < -1.0 && f.lipThickness < 4.0
    case Concentrado => 12.0 < avg < 18.0 && f.mouthAperture < 5.0 && 3.0 < f.lipThickness < 6.0
    case ErrorSinLandmarks | ExpresionNeutra | ExpresionAmbigua => false
  }

  /** Reference definition of the confidence each rule stores under its label. */
  function RuleConfidence(l: Label, f: StaticFeatures): real
  {
    match l
    case Asombro => Min(f.mouthAperture / 20.0, 1.0)
    case Tension => 0.6
    case AsombroIntenso => 0.8
    case Feliz => 0.85
    case Contento => 0.7
    case Enojado => 0.75
    case MuyNervioso => 0.8
    case Nervioso => 0.6
    case MuyTriste => 0.75
    case Triste => 0.65
    case Miedo => 0.7
    case Disgusto => 0.65
    case Concentrado => 0.6
    case ErrorSinLandmarks | ExpresionNeutra | ExpresionAmbigua => 0.0
  }

  /**
   * A partial result of the rule bank: well formed, confidences in (0, 1], labels from rules 1 to `upTo`,
   * listed in rule order.
   */
  predicate Stage(r: EmotionResult<Label>, upTo: nat)
  {
    && WellFormed(r)
    && ConfidencesWithin(r, 0.0, 1.0)
    && (forall l :: l in r.labels ==> 1 <= l.Section() <= upTo)
    && InRuleOrder(r.labels)
  }

  /** Labels listed in the order of the rules that add them, at most one per rule section. */
  predicate InRuleOrder(labels: seq<Label>)
  {
    forall i, j :: 0 <= i < j < |labels| ==> labels[i].Section() < labels[j].Section()
  }

  /** Section `k` adds exactly the labels of that section that fire, with their rule confidences, and keeps the rest. */
  predicate Extends(r: EmotionResult<Label>, r': EmotionResult<Label>, k: nat, f: StaticFeatures, s: SmileFeatures)
  {
    && (forall l :: l in r'.labels <==> l in r.labels || (l.Section() == k && Fires(l, f, s)))
    && (forall l :: l in r.confidence ==> l in r'.confidence && r'.confidence[l] == r.confidence[l])
    && (forall l: Label :: l.Section() == k && Fires(l, f, s) ==>
          l in r'.confidence && r'.confidence[l] == RuleConfidence(l, f))
  }

  /**
   * Recording `l` with confidence `conf` when `fires` holds turns a result of the rules before `k` into one of
   * the rules up to `k`, provided `l` is the label of rule `k` that fires exactly then and none fires otherwise.
   */
  lemma RecordExtends(r: EmotionResult<Label>, k: nat, f: StaticFeatures, s: SmileFeatures, fires: bool, l: Label, conf: real)
    requires 1 <= k && Stage(r, k - 1) && l.Section() == k
    requires forall m: Label :: m.Section() == k ==> (Fires(m, f, s) <==> fires && m == l)
    requires fires ==> conf == RuleConfidence(l, f) && 0.0 < conf <= 1.0
    ensures Stage(AddIf(r, fires, l, conf), k) && Extends(r, AddIf(r, fires, l, conf), k, f, s)
  {
  }

  /** Surprise: an open mouth. */
  function SurpriseRule(r: EmotionResult<Label>, f: StaticFeatures, s: SmileFeatures): (r': EmotionResult<Label>)
    requires Stage(r, 0)
    ensures Stage(r', 1) && Extends(r, r', 1, f, s)
  {
    var fires := f.mouthAperture > 8.0;
    RecordExtends(r, 1, f, s, fires, Asombro, Min(f.mouthAperture / 20.0, 1.0));
    AddIf(r, fires, Asombro, Min(f.mouthAperture / 20.0, 1.0))
  }

  /** Tension: raised brows. */
  function TensionRule(r: EmotionResult<Label>, f: StaticFeatures, s: SmileFeatures): (r': EmotionResult<Label>)
    requires Stage(r, 1)
    ensures Stage(r', 2) && Extends(r, r', 2, f, s)
  {
    var fires := f.browElevation > 15.0;
    RecordExtends(r, 2, f, s, fires, Tension, 0.6);
    AddIf(r, fires, Tension, 0.6)
  }

  /** Intense surprise: very raised brows and a wide-open mouth, recorded only if not already present. */
  function IntenseSurpriseRule(r: EmotionResult<Label>, f: StaticFeatures, s: SmileFeatures): (r': EmotionResult<Label>)
    requires Stage(r, 2)
    ensures Stage(r', 3) && Extends(r, r', 3, f, s)
  {
    assert AsombroIntenso !in r.labels;
    var fires := f.browElevation > 20.0 && f.mouthAperture > 12.0 && AsombroIntenso !in r.labels;
    RecordExtends(r, 3, f, s, fires, AsombroIntenso, 0.8);
    AddIf(r, fires, AsombroIntenso, 0.8)
  }

  /** Smile: corners well above the lip centre with narrowed eyes, else corners slightly above it. */
  function SmileRules(r: EmotionResult<Label>, f: StaticFeatures, s: SmileFeatures): (r': EmotionResult<Label>)
    requires Stage(r, 3)
    ensures Stage(r', 4) && Extends(r, r', 4, f, s)
  {
    if s.curvature > 3.0 && s.eyeAperture < 8.0 then
      RecordExtends(r, 4, f, s, true, Feliz, 0.85);
      Add(r, Feliz, 0.85)
    else
      var fires := s.curvature > 1.0;
      RecordExtends(r, 4, f, s, fires, Contento, 0.7);
      AddIf(r, fires, Contento, 0.7)
  }

  /** Anger: low brows, pressed lips and corners below the lip centre. */
  function AngerRule(r: EmotionResult<Label>, f: StaticFeatures, s: SmileFeatures): (r': EmotionResult<Label>)
    requires Stage(r, 4)
    ensures Stage(r', 5) && Extends(r, r', 5, f, s)
  {
    var fires := BrowAverage(f) < 12.0 && f.lipThickness < 3.0 && s.curvature < 0.0;
    RecordExtends(r, 5, f, s, fires, Enojado, 0.75);
    AddIf(r, fires, Enojado, 0.75)
  }

  /** Nervousness: two indicators give one label, three or more the stronger one. */
  function NervousnessRule(r: EmotionResult<Label>, f: StaticFeatures, s: SmileFeatures): (r': EmotionResult<Label>)
    requires Stage(r, 5)
    ensures Stage(r', 6) && Extends(r, r', 6, f, s)
  {
    var nervous := NervousIndicators(f, s);
    if nervous < 2 then
      RecordExtends(r, 6, f, s, false, Nervioso, 0.6);
      r
    else if nervous >= 3 then
      RecordExtends(r, 6, f, s, true, MuyNervioso, 0.8);
      Add(r, MuyNervioso, 0.8)
    else
      RecordExtends(r, 6, f, s, true, Nervioso, 0.6);
      Add(r, Nervioso, 0.6)
  }

  /** Sadness: corners below the lip centre and brows not raised; the deeper curve is the stronger label. */
  function SadnessRule(r: EmotionResult<Label>, f: StaticFeatures, s: SmileFeatures): (r': EmotionResult<Label>)
    requires Stage(r, 6)
    ensures Stage(r', 7) && Extends(r, r', 7, f, s)
  {
    if !(s.curvature < -1.0 && BrowAverage(f) < 18.0) then
      RecordExtends(r, 7, f, s, false, Triste, 0.65);
      r
    else if s.curvature < -3.0 then
      RecordExtends(r, 7, f, s, true, MuyTriste, 0.75);
      Add(r, MuyTriste, 0.75)
    else
      RecordExtends(r, 7, f, s, true, Triste, 0.65);
      Add(r, Triste, 0.65)
  }

  /** Fear: open mouth with very raised brows and wide eyes. */
  function FearRule(r: EmotionResult<Label>, f: StaticFeatures, s: SmileFeatures): (r': EmotionResult<Label>)
    requires Stage(r, 7)
    ensures Stage(r', 8) && Extends(r, r', 8, f, s)
  {
    var fires := f.mouthAperture > 8.0 && BrowAverage(f) > 25.0 && s.eyeAperture > 12.0;
    RecordExtends(r, 8, f, s, fires, Miedo, 0.7);
    AddIf(r, fires, Miedo, 0.7)
  }

  /** Disgust: upper lip close to the nose, corners down, thin lips. */
  function DisgustRule(r: EmotionResult<Label>, f: StaticFeatures, s: SmileFeatures): (r': EmotionResult<Label>)
    requires Stage(r, 8)
    ensures Stage(r', 9) && Extends(r, r', 9, f, s)
  {
    var fires := f.upperLipElevation < 15.0 && s.curvature < -1.0 && f.lipThickness < 4.0;
    RecordExtends(r, 9, f, s, fires, Disgusto, 0.65);
    AddIf(r, fires, Disgusto, 0.65)
  }

  /** Concentration: moderate brows, closed mouth, lips neither pressed nor relaxed. */
  function ConcentrationRule(r: EmotionResult<Label>, f: StaticFeatures, s: SmileFeatures): (r': EmotionResult<Label>)
    requires Stage(r, 9)
    ensures Stage(r', 10) && Extends(r, r', 10, f, s)
  {
    var avg := BrowAverage(f);
    var fires := 12.0 < avg < 18.0 && f.mouthAperture < 5.0 && 3.0 < f.lipThickness < 6.0;
    RecordExtends(r, 10, f, s, fires, Concentrado, 0.6);
    AddIf(r, fires, Concentrado, 0.6)
  }

  /**
   * The ordered rule bank; every section runs, whatever fired before it. Its result is the reference
   * definition: exactly the firing labels, each with its rule's confidence.
   */
  function RuleBank(f: StaticFeatures, s: SmileFeatures): (r: EmotionResult<Label>)
    ensures Stage(r, 10)
    ensures forall l: Label :: l in r.labels <==> 1 <= l.Section() && Fires(l, f, s)
    ensures forall l :: l in r.labels ==> r.confidence[l] == RuleConfidence(l, f)
  {
    var r1 := SurpriseRule(NoEmotions(), f, s);
    var r2 := TensionRule(r1, f, s);
    var r3 := IntenseSurpriseRule(r2, f, s);
    var r4 := SmileRules(r3, f, s);
    var r5 := AngerRule(r4, f, s);
    var r6 := NervousnessRule(r5, f, s);
    var r7 := SadnessRule(r6, f, s);
    var r8 := FearRule(r7, f, s);
    var r9 := DisgustRule(r8, f, s);
    ConcentrationRule(r9, f, s)
  }

  /** neutralidad: 25 points for each relaxed feature present among the measured values. */
  function NeutralityScore(f: StaticFeatures): (score: nat)
    ensures score % 25 == 0 && score <= 100
  {
    (if f.mouthAperture < 8.0 then 25 else 0)
    + (if 12.0 <= BrowAverage(f) <= 20.0 then 25 else 0)
    + (if f.smile.Some? && -1.0 <= f.smile.value.curvature <= 1.0 then 25 else 0)
    + (if f.lipThickness > 3.0 then 25 else 0)
  }

  /** The single label that replaces an empty result. */
  function Neutrality(f: StaticFeatures): (r: EmotionResult<Label>)
    ensures WellFormed(r) && |r.labels| == 1
    ensures ConfidencesWithin(r, 0.0, 1.0)
  {
    var score := NeutralityScore(f);
    if score >= 75 then EmotionResult([ExpresionNeutra], map[ExpresionNeutra := score as real / 100.0])
    else EmotionResult([ExpresionAmbigua], map[ExpresionAmbigua := 0.3])
  }

  /** Classification of a face whose smile features were assigned. */
  function Classify(f: StaticFeatures): (r: EmotionResult<Label>)
    requires f.smile.Some?
    ensures WellFormed(r) && |r.labels| >= 1
    ensures InRuleOrder(r.labels)
    ensures ConfidencesWithin(r, 0.0, 1.0)
  {
    var fired := RuleBank(f, f.smile.value);
    if fired.labels == [] then Neutrality(f) else fired
  }

  /** `detectar_microexpresiones(landmarks, shape)`. */
  function DetectMicroexpressions(lms: seq<Point>, shape: Shape): (o: Outcome)
    ensures |lms| < MeshSize ==> o == Returned(NoLandmarksReport)
    ensures |lms| >= MeshSize ==> (o.Raised? <==> Measure(lms, shape).mouthWidth <= SmileWidth)
    ensures o.Raised? ==>
      && (o.fault.variable == "curvatura" || o.fault.variable == "apertura_ojo")
      && (o.fault.variable == "curvatura" <==>
            BrowAverage(Measure(lms, shape)) < 12.0 && Measure(lms, shape).lipThickness < 3.0)
    ensures |lms| >= MeshSize && o.Returned? ==>
      && InRuleOrder(o.report.emotions.labels)
      && forall l :: l in o.report.emotions.labels ==>
           1 <= l.Section() || l == ExpresionNeutra || l == ExpresionAmbigua
    ensures |lms| >= MeshSize && o.Returned? ==>
      && o.report.values == Some(Measure(lms, shape))
      && WellFormed(o.report.emotions)
      && |o.report.emotions.labels| >= 1
      && ConfidencesWithin(o.report.emotions, 0.0, 1.0)
    ensures |lms| >= MeshSize && o.Returned? ==>
      && Measure(lms, shape).smile.Some?
      && Matches(o.report.emotions.labels, Measure(lms, shape), Measure(lms, shape).smile.value)
      && forall l: Label :: 1 <= l.Section() && l in o.report.emotions.labels ==>
           o.report.emotions.confidence[l] == RuleConfidence(l, Measure(lms, shape))
    ensures |lms| >= MeshSize && o.Returned? ==>
      && Measure(lms, shape).smile.Some?
      && FallbackFits(o.report.emotions, Measure(lms, shape), Measure(lms, shape).smile.value)
  {
    if |lms| < MeshSize then Returned(NoLandmarksReport)
    else
      var f := Measure(lms, shape);
      match f.smile
      case None =>
        // `curvatura` is read first only when the two conditions before it in the anger test hold.
        if BrowAverage(f) < 12.0 && f.lipThickness < 3.0 then Raised(UnboundLocal("curvatura"))
        else Raised(UnboundLocal("apertura_ojo"))
      case Some(_) =>
        ClassifyMatchesRules(f);
        FallbackIffNothingFired(f);
        Returned(Report(Classify(f), Some(f)))
  }

  /** The final labels are the fired ones whenever any rule fired; the neutrality label appears only otherwise. */
  lemma FallbackOnlyWhenNothingFired(f: StaticFeatures)
    requires f.smile.Some?
    ensures RuleBank(f, f.smile.value).labels != [] ==> Classify(f) == RuleBank(f, f.smile.value)
    ensures RuleBank(f, f.smile.value).labels == [] ==>
      || (Classify(f).labels == [ExpresionNeutra] && NeutralityScore(f) >= 75
          && Classify(f).confidence[ExpresionNeutra] in {0.75, 1.0})
      || (Classify(f).labels == [ExpresionAmbigua] && NeutralityScore(f) < 75
          && Classify(f).confidence[ExpresionAmbigua] == 0.3)
  {
  }

  /** Some rule label's reference condition holds. */
  predicate AnyRuleFires(f: StaticFeatures, s: SmileFeatures)
  {
    exists l: Label :: 1 <= l.Section() && Fires(l, f, s)
  }

  /**
   * The neutrality labels agree with the reference conditions: neither appears when a rule fired; otherwise
   * the single label is "Expresión neutra" with the score as a fraction when the score reaches 75, and
   * "Expresión ambigua" with 0.3 below.
   */
  predicate FallbackFits(r: EmotionResult<Label>, f: StaticFeatures, s: SmileFeatures)
  {
    && (AnyRuleFires(f, s) ==> ExpresionNeutra !in r.labels && ExpresionAmbigua !in r.labels)
    && (!AnyRuleFires(f, s) && NeutralityScore(f) >= 75 ==>
          r.labels == [ExpresionNeutra] && ExpresionNeutra in r.confidence
          && r.confidence[ExpresionNeutra] == NeutralityScore(f) as real / 100.0)
    && (!AnyRuleFires(f, s) && NeutralityScore(f) < 75 ==>
          r.labels == [ExpresionAmbigua] && ExpresionAmbigua in r.confidence
          && r.confidence[ExpresionAmbigua] == 0.3)
  }

  /** The fallback label is chosen by the reference conditions alone: it appears exactly when no rule fires. */
  lemma FallbackIffNothingFired(f: StaticFeatures)
    requires f.smile.Some?
    ensures FallbackFits(Classify(f), f, f.smile.value)
  {
    var fired := RuleBank(f, f.smile.value);
    FallbackFitsFrom(fired, Classify(f), f, f.smile.value);
  }

  /** `FallbackIffNothingFired` for any rule result that lists exactly the firing labels. */
  lemma FallbackFitsFrom(fired: EmotionResult<Label>, c: EmotionResult<Label>, f: StaticFeatures, s: SmileFeatures)
    requires forall l: Label :: l in fired.labels <==> 1 <= l.Section() && Fires(l, f, s)
    requires fired.labels != [] ==> c == fired
    requires fired.labels == [] ==> c == Neutrality(f)
    ensures FallbackFits(c, f, s)
  {
    if fired.labels != [] {
      var l := fired.labels[0];
      assert 1 <= l.Section() && Fires(l, f, s);
    } else {
      forall l: Label | 1 <= l.Section()
        ensures !Fires(l, f, s)
      {
        assert l !in fired.labels;
      }
    }
  }

  /** A label list agrees with the reference conditions: each rule label is listed exactly when it fires. */
  predicate Matches(labels: seq<Label>, f: StaticFeatures, s: SmileFeatures)
  {
    forall l: Label :: 1 <= l.Section() ==> (l in labels <==> Fires(l, f, s))
  }

  /** Replacing an empty rule result by a fallback label keeps the final labels in agreement with the rules. */
  lemma FallbackKeepsMatch(fired: EmotionResult<Label>, c: EmotionResult<Label>, f: StaticFeatures, s: SmileFeatures)
    requires WellFormed(fired) && WellFormed(c)
    requires forall l: Label :: l in fired.labels <==> 1 <= l.Section() && Fires(l, f, s)
    requires forall l :: l in fired.labels ==> fired.confidence[l] == RuleConfidence(l, f)
    requires fired.labels != [] ==> c == fired
    requires fired.labels == [] ==> c.labels == [ExpresionNeutra] || c.labels == [ExpresionAmbigua]
    ensures Matches(c.labels, f, s)
    ensures forall l: Label :: 1 <= l.Section() && l in c.labels ==> c.confidence[l] == RuleConfidence(l, f)
  {
    if fired.labels == [] {
      forall l: Label | 1 <= l.Section()
        ensures !Fires(l, f, s)
      {
        assert l !in fired.labels;
      }
    }
  }

  /** On the final labels, every rule label is present exactly when its reference condition holds. */
  lemma ClassifyMatchesRules(f: StaticFeatures)
    requires f.smile.Some?
    ensures Matches(Classify(f).labels, f, f.smile.value)
    ensures forall l: Label :: 1 <= l.Section() && l in Classify(f).labels ==>
      Classify(f).confidence[l] == RuleConfidence(l, f)
  {
    FallbackKeepsMatch(RuleBank(f, f.smile.value), Classify(f), f, f.smile.value);
  }

  /** "Asombro" is reported exactly when the mouth opens more than 8 px, with confidence min(opening / 20, 1). */
  lemma SurpriseIffMouthOpen(f: StaticFeatures)
    requires f.smile.Some?
    ensures Asombro in Classify(f).labels <==> f.mouthAperture > 8.0
    ensures Asombro in Classify(f).labels ==>
      && Classify(f).confidence[Asombro] == Min(f.mouthAperture / 20.0, 1.0)
      && 0.4 < Classify(f).confidence[Asombro] <= 1.0
  {
    ClassifyMatchesRules(f);
    SurpriseFromMatch(Classify(f), f);
  }

  /** `SurpriseIffMouthOpen` for any result that agrees with the reference conditions and confidences. */
  lemma SurpriseFromMatch(r: EmotionResult<Label>, f: StaticFeatures)
    requires f.smile.Some? && WellFormed(r)
    requires Matches(r.labels, f, f.smile.value)
    requires forall l: Label :: 1 <= l.Section() && l in r.labels ==> r.confidence[l] == RuleConfidence(l, f)
    ensures Asombro in r.labels <==> f.mouthAperture > 8.0
    ensures Asombro in r.labels ==>
      && r.confidence[Asombro] == Min(f.mouthAperture / 20.0, 1.0)
      && 0.4 < r.confidence[Asombro] <= 1.0
  {
    assert Asombro.Section() == 1;
  }

  /** The surprise-family implications, on any label list that agrees with the reference conditions. */
  lemma SurpriseFamilyMatches(labels: seq<Label>, f: StaticFeatures, s: SmileFeatures)
    requires Matches(labels, f, s)
    ensures AsombroIntenso in labels ==> Asombro in labels && Tension in labels
    ensures Miedo in labels ==> Asombro in labels
    ensures Concentrado in labels ==> Asombro !in labels && AsombroIntenso !in labels && Miedo !in labels
  {
    assert Asombro in labels <==> Fires(Asombro, f, s);
    assert Tension in labels <==> Fires(Tension, f, s);
    assert AsombroIntenso in labels <==> Fires(AsombroIntenso, f, s);
    assert Miedo in labels <==> Fires(Miedo, f, s);
    assert Concentrado in labels <==> Fires(Concentrado, f, s);
  }

  /** The strong surprise label brings the plain one and "Tension"; fear brings surprise; concentration excludes all three. */
  lemma SurpriseFamily(f: StaticFeatures)
    requires f.smile.Some?
    ensures AsombroIntenso in Classify(f).labels ==> Asombro in Classify(f).labels && Tension in Classify(f).labels
    ensures Miedo in Classify(f).labels ==> Asombro in Classify(f).labels
    ensures Concentrado in Classify(f).labels ==>
      Asombro !in Classify(f).labels && AsombroIntenso !in Classify(f).labels && Miedo !in Classify(f).labels
  {
    ClassifyMatchesRules(f);
    SurpriseFamilyMatches(Classify(f).labels, f, f.smile.value);
  }

  /** The smile exclusions, on any label list that agrees with the reference conditions. */
  lemma SmileExcludesFrownMatches(labels: seq<Label>, f: StaticFeatures, s: SmileFeatures)
    requires Matches(labels, f, s)
    ensures !(Feliz in labels && Contento in labels)
    ensures Feliz in labels || Contento in labels ==>
      Enojado !in labels && Triste !in labels && MuyTriste !in labels && Disgusto !in labels
  {
    assert Feliz in labels <==> Fires(Feliz, f, s);
    assert Contento in labels <==> Fires(Contento, f, s);
    assert Enojado in labels <==> Fires(Enojado, f, s);
    assert Triste in labels <==> Fires(Triste, f, s);
    assert MuyTriste in labels <==> Fires(MuyTriste, f, s);
    assert Disgusto in labels <==> Fires(Disgusto, f, s);
  }

  /** A smile label never appears beside anger, sadness or disgust, and the two smile labels exclude each other. */
  lemma SmileExcludesFrown(f: StaticFeatures)
    requires f.smile.Some?
    ensures !(Feliz in Classify(f).labels && Contento in Classify(f).labels)
    ensures Feliz in Classify(f).labels || Contento in Classify(f).labels ==>
      && Enojado !in Classify(f).labels
      && Triste !in Classify(f).labels && MuyTriste !in Classify(f).labels
      && Disgusto !in Classify(f).labels
  {
    ClassifyMatchesRules(f);
    SmileExcludesFrownMatches(Classify(f).labels, f, f.smile.value);
  }

  /** The nervousness labels by indicator count, on any label list that agrees with the reference conditions. */
  lemma NervousnessMatches(labels: seq<Label>, f: StaticFeatures, s: SmileFeatures)
    requires Matches(labels, f, s)
    ensures Nervioso in labels || MuyNervioso in labels <==> NervousIndicators(f, s) >= 2
    ensures MuyNervioso in labels <==> NervousIndicators(f, s) >= 3
    ensures !(Nervioso in labels && MuyNervioso in labels)
  {
    assert Nervioso in labels <==> Fires(Nervioso, f, s);
    assert MuyNervioso in labels <==> Fires(MuyNervioso, f, s);
  }

  /** A nervousness label appears iff two or more indicators hold; the stronger one iff three or more; never both. */
  lemma NervousnessByIndicators(f: StaticFeatures)
    requires f.smile.Some?
    ensures Nervioso in Classify(f).labels || MuyNervioso in Classify(f).labels
            <==> NervousIndicators(f, f.smile.value) >= 2
    ensures MuyNervioso in Classify(f).labels <==> NervousIndicators(f, f.smile.value) >= 3
    ensures !(Nervioso in Classify(f).labels && MuyNervioso in Classify(f).labels)
  {
    ClassifyMatchesRules(f);
    NervousnessMatches(Classify(f).labels, f, f.smile.value);
  }
}
