/**
 * The record the video main loop writes for each period: the stable labels joined into one text, and a
 * state word chosen from the blink frequency and that text in a fixed priority order.
 */
module SessionState {
  import opened Smoother
  import VideoClassifier

  /** Length in seconds of one recording period; blinks are counted per period. */
  const PeriodSeconds: real := 10.0

  /** Blinks per second above which the person is judged nervous whatever their expression. */
  const NervousFrequency: real := 2.5

  /** The state column of a record, highest priority first. */
  datatype State = Nervioso | Estresado | Positivo | Agitado | Tranquilo
  {
    /** The state as the record spells it. */
    function Text(): string
    {
      match this
      case Nervioso => "Nervioso"
      case Estresado => "Estresado"
      case Positivo => "Positivo"
      case Agitado => "Agitado"
      case Tranquilo => "Tranquilo"
    }

    /** Position in the priority order; the first test that holds decides the state. */
    function Rank(): nat
    {
      match this
      case Nervioso => 0
      case Estresado => 1
      case Positivo => 2
      case Agitado => 3
      case Tranquilo => 4
    }
  }

  /** `pat` occurs in `text` starting at position i. */
  predicate MatchAt(text: string, pat: string, i: int)
  {
    0 <= i <= |text| - |pat| && text[i..i + |pat|] == pat
  }

  /** Python's substring test `pat in text`. */
  predicate Contains(text: string, pat: string)
  {
    exists i :: 0 <= i <= |text| && MatchAt(text, pat, i)
  }

  /** `sep.join(xs)`. */
  function Join(xs: seq<string>, sep: string): string
    decreases |xs|
  {
    if xs == [] then ""
    else if |xs| == 1 then xs[0]
    else xs[0] + sep + Join(xs[1..], sep)
  }

  /** `texto_emociones`: the listed stable labels joined with ", ", or "Neutral" for an empty list. */
  function EmotionText(stable: seq<string>): string
  {
    if stable == [] then NeutralText else Join(stable, ", ")
  }

  /** `frecuencia_parpadeos`: blinks per second over one period. */
  function BlinkFrequency(blinks: nat): (f: real)
    ensures f >= 0.0
    ensures f * PeriodSeconds == blinks as real
  {
    blinks as real / PeriodSeconds
  }

  /** The state word: the blink frequency first, then tension, happiness and anger in the text. */
  function Evaluate(blinks: nat, text: string): (s: State)
    ensures s == Nervioso <==> blinks > 25
    ensures s == Estresado <==> blinks <= 25 && (Contains(text, "Tensión") || Contains(text, "Estrés"))
    ensures s == Positivo <==>
      blinks <= 25 && !Contains(text, "Tensión") && !Contains(text, "Estrés") && Contains(text, "Felicidad")
    ensures s == Agitado <==>
      blinks <= 25 && !Contains(text, "Tensión") && !Contains(text, "Estrés")
      && !Contains(text, "Felicidad") && Contains(text, "Enojo")
    ensures s == Tranquilo <==>
      blinks <= 25 && !Contains(text, "Tensión") && !Contains(text, "Estrés")
      && !Contains(text, "Felicidad") && !Contains(text, "Enojo")
  {
    if BlinkFrequency(blinks) > NervousFrequency then Nervioso
    else if Contains(text, "Tensión") || Contains(text, "Estrés") then Estresado
    else if Contains(text, "Felicidad") then Positivo
    else if Contains(text, "Enojo") then Agitado
    else Tranquilo
  }

  /** A substring of a substring is a substring. */
  lemma ContainsTransitive(text: string, mid: string, pat: string)
    requires Contains(text, mid) && Contains(mid, pat)
    ensures Contains(text, pat)
  {
    var i :| 0 <= i <= |text| && MatchAt(text, mid, i);
    var j :| 0 <= j <= |mid| && MatchAt(mid, pat, j);
    forall t | 0 <= t < |pat|
      ensures text[i + j + t] == pat[t]
    {
      assert text[i + j + t] == text[i..i + |mid|][j + t];
      assert pat[t] == mid[j..j + |pat|][t];
    }
    assert text[i + j..i + j + |pat|] == pat;
    assert MatchAt(text, pat, i + j);
  }

  /** Text around a match keeps the match. */
  lemma ContainsInContext(before: string, text: string, after: string, pat: string)
    requires Contains(text, pat)
    ensures Contains(before + text + after, pat)
  {
    var i :| 0 <= i <= |text| && MatchAt(text, pat, i);
    var whole := before + text + after;
    assert whole[|before| + i..|before| + i + |pat|] == text[i..i + |pat|];
    assert MatchAt(whole, pat, |before| + i);
  }

  /** Every listed label is part of the joined text. */
  lemma {:induction false} JoinContainsEach(xs: seq<string>, sep: string, k: nat)
    requires k < |xs|
    ensures Contains(Join(xs, sep), xs[k])
    decreases |xs|
  {
    if |xs| == 1 {
      assert MatchAt(Join(xs, sep), xs[0], 0);
    } else if k == 0 {
      ContainsInContext([], xs[0], sep + Join(xs[1..], sep), xs[0]) by {
        assert MatchAt(xs[0], xs[0], 0);
      }
      assert [] + xs[0] + (sep + Join(xs[1..], sep)) == Join(xs, sep);
    } else {
      JoinContainsEach(xs[1..], sep, k - 1);
      ContainsInContext(xs[0] + sep, Join(xs[1..], sep), [], xs[k]);
      assert xs[0] + sep + Join(xs[1..], sep) + [] == Join(xs, sep);
    }
  }

  /** More text can only raise the state in the priority order: a test that held keeps holding. */
  lemma MoreTextNeverLowersPriority(blinks: nat, text: string, more: string)
    ensures Evaluate(blinks, text + more).Rank() <= Evaluate(blinks, text).Rank()
  {
    forall pat: string | Contains(text, pat)
      ensures Contains(text + more, pat)
    {
      ContainsInContext([], text, more, pat);
      assert [] + text + more == text + more;
    }
  }

  /** A frequency above 2.5 blinks per second decides the state whatever the text. */
  lemma BlinkingOverridesEmotions(blinks: nat, text: string, other: string)
    requires blinks > 25
    ensures Evaluate(blinks, text) == Evaluate(blinks, other) == Nervioso
  {
  }

  /** The listed labels are the stable set, each once, in some order (Python leaves the order of a set open). */
  predicate Enumerates(xs: seq<string>, s: set<string>)
  {
    && (forall k :: 0 <= k < |xs| ==> xs[k] in s)
    && (forall x :: x in s ==> x in xs)
    && (forall a, b :: 0 <= a < b < |xs| ==> xs[a] != xs[b])
  }

  /** Once "Tensión/Estrés" is stable in the window, the record says stressed or, with frequent blinks, nervous. */
  lemma StableTensionMeansStress(w: Window, xs: seq<string>, blinks: nat)
    requires Enumerates(xs, Stable(w))
    requires VideoClassifier.Label.TensionEstres.Text() in Stable(w)
    ensures Evaluate(blinks, EmotionText(xs)) in {Nervioso, Estresado}
  {
    var tension := VideoClassifier.Label.TensionEstres.Text();
    var k :| 0 <= k < |xs| && xs[k] == tension;
    JoinContainsEach(xs, ", ", k);
    assert MatchAt(tension, "Tensión", 0);
    ContainsTransitive(EmotionText(xs), tension, "Tensión");
  }

  /** A pattern whose first character starts no candidate position of the text does not occur in it. */
  lemma FirstCharacterNeverMatches(text: string, pat: string)
    requires |pat| > 0
    requires forall i :: 0 <= i <= |text| - |pat| ==> text[i] != pat[0]
    ensures !Contains(text, pat)
  {
    forall i | 0 <= i <= |text| - |pat|
      ensures !MatchAt(text, pat, i)
    {
      assert text[i..i + |pat|][0] == text[i];
    }
  }

  /** "Neutral" contains none of the words the state tests look for. */
  lemma NeutralMatchesNoTest()
    ensures !Contains(NeutralText, "Tensión") && !Contains(NeutralText, "Estrés")
    ensures !Contains(NeutralText, "Felicidad") && !Contains(NeutralText, "Enojo")
  {
    FirstCharacterNeverMatches(NeutralText, "Tensión");
    FirstCharacterNeverMatches(NeutralText, "Estrés");
    FirstCharacterNeverMatches(NeutralText, "Felicidad");
    FirstCharacterNeverMatches(NeutralText, "Enojo");
  }

  /** A window with nothing recurring records "Tranquilo", unless blinking alone makes it "Nervioso". */
  lemma NothingRecurringIsCalm(w: Window, xs: seq<string>, blinks: nat)
    requires Enumerates(xs, Stable(w))
    requires Stable(w) == {NeutralText}
    ensures Evaluate(blinks, EmotionText(xs)) == if blinks > 25 then Nervioso else Tranquilo
  {
    assert xs[0] == NeutralText;
    assert xs[|xs| - 1] == NeutralText;
    assert |xs| == 1;
    assert EmotionText(xs) == NeutralText;
    NeutralMatchesNoTest();
  }
}
