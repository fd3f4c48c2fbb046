/**
 * The result both rule engines build: an ordered list of emotion labels and a confidence per label.
 * The label type is a parameter, since each engine has its own vocabulary.
 */
module Results {

  datatype EmotionResult<L> = EmotionResult(labels: seq<L>, confidence: map<L, real>)

  /** The empty list and empty dict every analysis starts from. */
  function NoEmotions<L>(): EmotionResult<L>
  {
    EmotionResult([], map[])
  }

  predicate Distinct<L(==)>(labels: seq<L>)
  {
    forall i, j :: 0 <= i < j < |labels| ==> labels[i] != labels[j]
  }

  /** Each label appears once and carries exactly one confidence; no confidence lacks a label. */
  predicate WellFormed<L(==)>(r: EmotionResult<L>)
  {
    && Distinct(r.labels)
    && (forall l :: l in r.labels ==> l in r.confidence)
    && (forall l :: l in r.confidence ==> l in r.labels)
  }

  /** Every stored confidence lies in the half-open interval (lo, hi]. */
  predicate ConfidencesWithin<L>(r: EmotionResult<L>, lo: real, hi: real)
  {
    forall l :: l in r.confidence ==> lo < r.confidence[l] <= hi
  }

  /** One rule firing: `emociones.append(label)` followed by `confianza[label] = conf`. */
  function Add<L(==,!new)>(r: EmotionResult<L>, emotion: L, conf: real): (r': EmotionResult<L>)
    ensures forall l :: l in r'.labels <==> l in r.labels || l == emotion
    ensures |r'.labels| == |r.labels| + 1 && r'.labels[|r.labels|] == emotion && r'.labels[..|r.labels|] == r.labels
    ensures emotion in r'.confidence && r'.confidence[emotion] == conf
    ensures forall l :: l in r.confidence && l != emotion ==> l in r'.confidence && r'.confidence[l] == r.confidence[l]
    ensures WellFormed(r) && emotion !in r.labels ==> WellFormed(r')
    ensures forall lo, hi :: ConfidencesWithin(r, lo, hi) && lo < conf <= hi ==> ConfidencesWithin(r', lo, hi)
  {
    EmotionResult(r.labels + [emotion], r.confidence[emotion := conf])
  }

  /** A rule that records its emotion only when its condition holds. */
  function AddIf<L(==,!new)>(r: EmotionResult<L>, fires: bool, emotion: L, conf: real): EmotionResult<L>
  {
    if fires then Add(r, emotion, conf) else r
  }
}
