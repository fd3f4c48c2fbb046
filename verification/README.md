# Facial expression tracking: the classification core

This project models, in Dafny, the decision logic of a small facial-expression tracker. A face-mesh
detector yields 468 landmarks per face, each with coordinates normalised to the image. Two classifiers
turn a face into expression labels with confidences:

- **The static-image classifier** (`detectar_microexpresiones`, module `StaticClassifier`). It measures
  pixel distances between fixed landmarks. It then runs ten independent threshold rules in a fixed
  order. If no rule fired, it replaces the empty result by a neutrality score, which yields
  "Expresión neutra" or "Expresión ambigua".
- **The video classifier** (`EmotionDetector`, modules `Calibration` and `VideoClassifier`).
  - Every call folds the eye-corner distance into a baseline face width, an exponential moving average
    that keeps being updated for as long as the detector runs. The first 29 calls answer "Calibrando...".
  - It then normalises every measurement by a hundredth of that baseline.
  - Six rule sections follow (surprise, smile, tension, anger, sadness, concentration).

The video main loop smooths the labels over a window of the last five frames (module `Smoother`). A
label is stable when it occurs at least twice in the window; with none stable, the loop shows "Neutral".
Every ten seconds the loop records the stable labels joined into one text. It also records a state word
chosen from the blink frequency and that text (module `SessionState`).

Supporting modules:

- `Geometry`: points, shapes, `int()` truncation, and `normalizar_coordenadas`.
- `Landmarks`: the landmark index tables.
- `Results`: the label list together with its confidence map.
- `Resize`: the scale computation of `redimensionar_imagen`.

Design choices in the model:

- Every operation is a pure function. The mutable detector fields become a `Calibrator` value threaded
  through the calls.
- Each classifier has a reference definition, `Fires` and `RuleConfidence`, stating per label when it
  fires and with what confidence. The executable rule bank is proved to produce exactly those labels.
- Python's exceptions become result datatypes: `Outcome` for the static classifier and `Step` for the video
  classifier. Python's sets become Dafny sets, and the listing
  order of a set is left open (`Enumerates`).

## Model

| member | source | states |
|---|---|---|
| Geometry.Trunc | trackeo_facial/scripts/helpers.py:12-13 | `int()` on a float drops the fractional part toward zero: at most the value when it is non-negative, at least it when negative, within 1 |
| Geometry.ToPixels | trackeo_facial/scripts/helpers.py:8-15 | one pixel pair per landmark, in order, each coordinate the truncation toward zero of coordinate times image dimension |
| Geometry.PixelsWithinImage | trackeo_facial/scripts/helpers.py:8-15 | landmarks inside the unit square become pixels with 0 <= x <= width and 0 <= y <= height |
| Landmarks.VideoTableWithinMesh | trackeo_facial/scripts/detector_expresiones.py:12-47 | every index of the video detector's table is at most 386, below the 468 points of a full mesh; the two eye corners calibration reads are at most 263 |
| Landmarks.StaticReadsWithinMesh | trackeo_facial/scripts/helpers.py:78-271 | every literal index the static classifier reads is at most 362, below 468; what rules out an IndexError in the model is `StaticClassifier.Measure`'s requirement of more than 362 points, which every read is checked against and which the 468-point guard meets |
| Results.Add | trackeo_facial/scripts/helpers.py:93-95 | recording a label appends it after the earlier ones and stores its confidence; other confidences are unchanged; an absent label keeps the list free of duplicates and a confidence inside a range keeps every confidence inside it |
| StaticClassifier.MeasureSmile | trackeo_facial/scripts/helpers.py:145-160 | the eyelid opening is never negative |
| StaticClassifier.Measure | trackeo_facial/scripts/helpers.py:78-192 | all distances are non-negative; the smile features exist exactly when the mouth is wider than 35 px |
| StaticClassifier.NervousIndicators | trackeo_facial/scripts/helpers.py:205-221 | the nervousness count lies between 0 and 4 |
| StaticClassifier.SurpriseRule | trackeo_facial/scripts/helpers.py:92-95 | adds "Asombro" exactly when its reference condition holds, with the reference confidence, and keeps earlier labels and confidences |
| StaticClassifier.TensionRule | trackeo_facial/scripts/helpers.py:128-130 | adds "Tension" exactly when its reference condition holds, and nothing else changes |
| StaticClassifier.IntenseSurpriseRule | trackeo_facial/scripts/helpers.py:134-138 | adds "Asombro intenso" exactly when its reference condition holds; the not-already-present guard never blocks it |
| StaticClassifier.SmileRules | trackeo_facial/scripts/helpers.py:162-169 | adds at most one of "Feliz" and "Contento", each exactly under its reference condition |
| StaticClassifier.AngerRule | trackeo_facial/scripts/helpers.py:196-198 | adds "Enojado" exactly when its reference condition holds, and nothing else changes |
| StaticClassifier.NervousnessRule | trackeo_facial/scripts/helpers.py:225-231 | adds "Nervioso" for exactly two indicators and "Muy nervioso" for three or more, and nothing else changes |
| StaticClassifier.SadnessRule | trackeo_facial/scripts/helpers.py:239-249 | adds "Muy triste" or "Triste" exactly under the reference conditions, and nothing else changes |
| StaticClassifier.FearRule | trackeo_facial/scripts/helpers.py:257-261 | adds "Miedo" exactly when its reference condition holds, and nothing else changes |
| StaticClassifier.DisgustRule | trackeo_facial/scripts/helpers.py:274-276 | adds "Disgusto" exactly when its reference condition holds, and nothing else changes |
| StaticClassifier.ConcentrationRule | trackeo_facial/scripts/helpers.py:282-286 | adds "Concentrado" exactly when its reference condition holds, and nothing else changes |
| StaticClassifier.RuleBank | trackeo_facial/scripts/helpers.py:74-288 | the rule labels are exactly those whose reference condition holds, none repeated, each with its reference confidence in (0, 1], listed in rule order with at most one label per rule |
| StaticClassifier.NeutralityScore | trackeo_facial/scripts/helpers.py:298-319 | the neutrality score is a multiple of 25 between 0 and 100 |
| StaticClassifier.Neutrality | trackeo_facial/scripts/helpers.py:321-328 | the fallback is a single label whose confidence lies in (0, 1] |
| StaticClassifier.Classify | trackeo_facial/scripts/helpers.py:74-328 | a classified face always has at least one label, none repeated, with confidences in (0, 1], listed in rule order |
| StaticClassifier.DetectMicroexpressions | trackeo_facial/scripts/helpers.py:17-337 | fewer than 468 landmarks give the single error label; otherwise the call fails with an unbound local exactly when the mouth is at most 35 px wide (the unbound name is `curvatura` exactly when the brow average is below 12 and the lips are thinner than 3 px, else `apertura_ojo`), and else reports the measured values and at least one label with confidences in (0, 1], in which every rule label appears exactly when its condition holds on the measured values, with its rule's confidence; when no rule fires the single label is "Expresión neutra" with the score as a fraction at a score of 75 or more, else "Expresión ambigua" with 0.3, and neither appears when a rule fired; the labels are listed in rule order and are all rule labels or one neutrality label |
| StaticClassifier.FallbackOnlyWhenNothingFired | trackeo_facial/scripts/helpers.py:295-328 | the fired labels are kept whenever any fired; otherwise the single label is neutral (confidence 0.75 or 1.0) when the score reaches 75, and ambiguous (0.3) below |
| StaticClassifier.FallbackIffNothingFired | trackeo_facial/scripts/helpers.py:295-328 | neither neutrality label appears when some rule's condition holds; when none holds the single label is "Expresión neutra" with confidence score/100 at a score of 75 or more, and "Expresión ambigua" with 0.3 below |
| StaticClassifier.ClassifyMatchesRules | trackeo_facial/scripts/helpers.py:74-328 | on the final labels, every rule label is present exactly when its reference condition holds, with its reference confidence |
| StaticClassifier.SurpriseIffMouthOpen | trackeo_facial/scripts/helpers.py:92-95 | "Asombro" is reported iff the mouth opens more than 8 px, with confidence min(opening/20, 1) in (0.4, 1] |
| StaticClassifier.SurpriseFamily | trackeo_facial/scripts/helpers.py:92-286 | "Asombro intenso" implies "Asombro" and "Tension"; "Miedo" implies "Asombro"; "Concentrado" excludes all three surprise labels |
| StaticClassifier.SmileExcludesFrown | trackeo_facial/scripts/helpers.py:162-276 | "Feliz" and "Contento" never appear together, and neither appears beside "Enojado", "Triste", "Muy triste" or "Disgusto" |
| StaticClassifier.NervousnessByIndicators | trackeo_facial/scripts/helpers.py:205-231 | a nervousness label appears iff two or more indicators hold; "Muy nervioso" iff three or more; never both |
| Resize.ScaleFactor | trackeo_facial/scripts/helpers.py:345-348 | the factor is at most 1 and at most each box-to-image ratio, and equals one of the three |
| Resize.LargestFittingFactor | trackeo_facial/scripts/helpers.py:345-348 | the factor fits the image in the box, and every factor up to 1 that fits is no larger |
| Resize.Shrink | trackeo_facial/scripts/helpers.py:350-352 | each side of the resized copy is the old side times the factor, cut toward zero as `int()` does |
| Resize.FitImage | trackeo_facial/scripts/helpers.py:339-357 | the returned factor is the scale factor `min(ancho_max/ancho, alto_max/altura, 1)`; the image is kept as it is, with factor 1, exactly when it already fits the box; otherwise the copy is the one `Shrink` gives for that factor, fits the box and is no larger than the original |
| Resize.FitImageKeepsProportions | trackeo_facial/scripts/helpers.py:348-355 | each side of a resized copy is the old side times the returned factor, cut toward zero |
| Resize.DefaultBoxFits | trackeo_facial/scripts/helpers.py:339-357 | with the default 800 by 600 box, the image is kept as it is exactly when it is at most 800 wide and 600 high, and a resized copy fits inside that box |
| Calibration.Calibrate | trackeo_facial/scripts/detector_expresiones.py:66-86 | one more frame is counted; calibration is complete iff at least 30 were; the first sample becomes the baseline; later baselines lie between the old one and the new width |
| Calibration.FramesCountCalls | trackeo_facial/scripts/detector_expresiones.py:85-86 | the counter grows by exactly one per call |
| Calibration.BaselineWithinRange | trackeo_facial/scripts/detector_expresiones.py:79-83 | if every width seen lies in [lo, hi], so does the baseline |
| Calibration.FirstSamplesOfSession | trackeo_facial/scripts/detector_expresiones.py:79-83 | after one sample the baseline is that sample; after two it is 0.9 w1 + 0.1 w2 |
| VideoClassifier.Measure | trackeo_facial/scripts/detector_expresiones.py:101-177 | with a non-negative distance, every measured distance is non-negative |
| VideoClassifier.CurvatureSign | trackeo_facial/scripts/detector_expresiones.py:131-133 | the raw curvature is positive when both mouth corners sit higher in the image (smaller y) than the top lip, and negative when both sit lower |
| VideoClassifier.NormFactor | trackeo_facial/scripts/detector_expresiones.py:98 | the factor is never zero; it is a hundredth of a non-zero baseline and 1.0 for a missing or zero one |
| VideoClassifier.Normalize | trackeo_facial/scripts/detector_expresiones.py:103-177 | each feature times the norm factor gives back its raw measurement |
| VideoClassifier.TensionScore | trackeo_facial/scripts/detector_expresiones.py:150-180 | the tension score never exceeds 90, so the cap at 95 never applies |
| VideoClassifier.TensionIndicators | trackeo_facial/scripts/detector_expresiones.py:150-180 | at most four tension indicators are present |
| VideoClassifier.RuleBank | trackeo_facial/scripts/detector_expresiones.py:119-201 | the labels are exactly those whose reference condition holds, none repeated, each with its reference confidence in (20, 95] |
| VideoClassifier.TensionNeedsTwoIndicators | trackeo_facial/scripts/detector_expresiones.py:150-184 | "Tensión/Estrés" appears iff the score exceeds 40, which needs two indicators including the brow gap or the brow lift; its confidence is the score |
| VideoClassifier.Exclusions | trackeo_facial/scripts/detector_expresiones.py:119-197 | the two smile labels exclude each other and sadness; surprise excludes anger and concentration; anger excludes concentration |
| VideoClassifier.LabelTexts | trackeo_facial/scripts/detector_expresiones.py:256-262 | the list the main loop takes is the calibration marker alone, or the label texts in detection order |
| VideoClassifier.DetectedTextsDistinct | trackeo_facial/scripts/detector_expresiones.py:119-201 | no label text is repeated within one frame's list |
| VideoClassifier.Detect | trackeo_facial/scripts/detector_expresiones.py:88-201 | the calibrator is updated first; the call answers "Calibrando..." iff fewer than 30 frames are counted, and else gives exactly the firing labels on features normalised by the updated baseline, each with its rule's confidence |
| VideoClassifier.DetectEmotions | trackeo_facial/scripts/detector_expresiones.py:66-201 | an IndexError exactly when the list lacks an eye corner, or lacks a classified landmark on a call that classifies; otherwise the returned calibrator is `Calibrate` applied to this frame's eye-corner width, calibrating iff under 30 frames are counted, and the detected labels are exactly those whose condition holds on the frame's measurements normalised by the updated baseline, distinct, each with its rule's confidence in (20, 95] |
| VideoClassifier.Run | trackeo_facial/scripts/detector_expresiones.py:88-91 | one detection per frame |
| VideoClassifier.CalibratingWhileCounting | trackeo_facial/scripts/detector_expresiones.py:85-91 | call k calibrates iff the counter it produces is below 30 |
| VideoClassifier.CalibratingExactlyFirst29 | trackeo_facial/scripts/detector_expresiones.py:62-91 | a new detector answers "Calibrando..." on exactly its first 29 calls |
| Smoother.Push | trackeo_facial/scripts/detector_expresiones.py:265-267 | the window keeps the last five lists, with the newest last |
| Smoother.WindowIsSuffix | trackeo_facial/scripts/detector_expresiones.py:265-267 | after any pushes, the window is the last five of the old window followed by the pushed lists |
| Smoother.WindowHoldsLastPushes | trackeo_facial/scripts/detector_expresiones.py:265-267 | from empty, the window holds exactly the last min(n, 5) pushed lists, in push order |
| Smoother.Stable | trackeo_facial/scripts/detector_expresiones.py:270-274 | the stable set is never empty: it is the labels occurring at least twice when any does, else {"Neutral"} |
| Smoother.RecurringLabelIsStable | trackeo_facial/scripts/detector_expresiones.py:270-271 | a label present in two different frames is stable |
| Smoother.StableLabelRecurs | trackeo_facial/scripts/detector_expresiones.py:270-271 | when frames hold no repeated label, a label counted twice is in two different frames |
| Smoother.RepeatedLabelsScenario | trackeo_facial/scripts/detector_expresiones.py:264-274 | pushing A, A, A, B, B makes exactly {A, B} stable |
| Smoother.SingleOccurrencesScenario | trackeo_facial/scripts/detector_expresiones.py:264-274 | pushing five different labels leaves only "Neutral" |
| SessionState.BlinkFrequency | trackeo_facial/scripts/detector_expresiones.py:316 | the frequency times the 10 s period gives back the blink count |
| SessionState.Evaluate | trackeo_facial/scripts/detector_expresiones.py:320-328 | each state holds exactly when its own test passes and every higher test fails: "Nervioso" iff more than 25 blinks, then "Estresado" for "Tensión" or "Estrés", "Positivo" for "Felicidad", "Agitado" for "Enojo", and "Tranquilo" when none of them occurs |
| SessionState.JoinContainsEach | trackeo_facial/scripts/detector_expresiones.py:317 | every listed label occurs in the joined text |
| SessionState.MoreTextNeverLowersPriority | trackeo_facial/scripts/detector_expresiones.py:320-328 | adding text never lowers the state in the priority order |
| SessionState.BlinkingOverridesEmotions | trackeo_facial/scripts/detector_expresiones.py:321-322 | above 2.5 blinks per second the state is "Nervioso" whatever the text |
| SessionState.StableTensionMeansStress | trackeo_facial/scripts/detector_expresiones.py:317-324 | a stable "Tensión/Estrés" makes the record "Estresado", or "Nervioso" under frequent blinking |
| SessionState.NothingRecurringIsCalm | trackeo_facial/scripts/detector_expresiones.py:273-328 | with nothing stable, the record is "Tranquilo", or "Nervioso" under frequent blinking |

### Behaviour worth knowing

- **No "Neutral" from the detector.** The detector itself has no fallback: when no rule fires,
  `detectar_emociones` returns an empty label list. "Neutral" comes only from the smoothing step
  (detector_expresiones.py:273-274).
- **No "Error en análisis".** The static classifier's "analysis error" label (helpers.py:290-293)
  cannot occur here. After the 468-landmark guard every index read is in range, since
  `StaticClassifier.Measure` needs only more than 362 points, and the landmarks are typed points. The
  branch is therefore absent, and so is the matching test at line 296.
- **The curvature sign.** With y growing downward, the video detector's `curvatura_boca`
  (detector_expresiones.py:133) is positive when the corners sit higher than the top lip
  (`CurvatureSign`). Its smile test (line 141) therefore asks for corners lower than the top lip, and its
  sadness test (line 192) for corners higher. The model keeps the code's signs.
- **Lists, not sets.** The smoothing window holds each frame's label list as returned, including the
  one-element list `["Calibrando..."]`. It does not hold sets. That marker can therefore stay stable for
  a few frames after calibration completes.
- **The static classifier raises on narrow mouths.** `curvatura` and `apertura_ojo` are assigned only
  when the mouth is wider than 35 px (helpers.py:145-160). For a narrower mouth, the anger test
  (line 196) or the nervousness test (line 216) reads one of them unassigned, and the resulting
  exception is not among those caught at line 290. `DetectMicroexpressions` returns
  `Raised(UnboundLocal(...))` with the variable that is read first. It invents no default.

## Left out

- The camera, window, drawing, colours and on-screen text (detector_expresiones.py:203-312): I/O with no
  decision logic.
- The face-mesh detector itself: landmarks are an input sequence of points.
- The Euclidean distance (`np.linalg.norm`): a parameter `dist` of `VideoClassifier.Measure`, because
  square roots are outside Dafny's reals. Properties needing non-negativity assume it through
  `Geometry.NonNegative`.
- Blink detection: the blink count of a period is an input to `SessionState.Evaluate`.
- The wall clock, the ten-second buckets and the CSV file (detector_expresiones.py:314-363): time and
  file I/O. The record's content (joined text and state) is modelled.
- Floating point: all arithmetic is on exact reals. Rounding at the thresholds is not modelled.
- Console output: the debug printing of `mostrar_detalles` and the unconditional messages at
  helpers.py:43 and 291 have no effect on the result.
- The pixel resampling of `cv2.resize` in `redimensionar_imagen`: only the factor and the target size
  are modelled.
- Resize.FitImage: requires a non-zero height and width. The source divides by both and raises
  ZeroDivisionError for an empty image, and that error is not modelled.
- VideoClassifier.DetectEmotions: an IndexError is the result `IndexOutOfRange` and carries no
  calibrator. When the error comes from a classifying call, the source has already counted the frame
  and updated the baseline (detector_expresiones.py:79-86). The model does not return that state,
  because the exception ends the main loop.
- The order in which Python lists a set of stable labels: unspecified by the language. Lemmas quantify
  over every enumeration (`SessionState.Enumerates`).
- The main loop's unbound `ih` when no face has been seen yet: it happens outside the classification
  core.
