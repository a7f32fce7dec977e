/** The three-way label both request handlers derive from a document sentiment. */
module Sentiment {

  datatype Label = Positive | Negative | Neutral

  /** The document sentiment the remote analysis service returns. */
  datatype DocumentSentiment = DocumentSentiment(score: real, magnitude: real)

  /** The label of a combined score `score * magnitude`: above 0.75, below -0.75, or neither. */
  function LabelOf(score: real, magnitude: real): Label {
    var combined := score * magnitude;
    if combined > 0.75 then Positive
    else if combined < -0.75 then Negative
    else Neutral
  }

  /** The text written into a sidecar for a label. */
  function LabelText(l: Label): string {
    match l
    case Positive => "POSITIVE"
    case Negative => "NEGATIVE"
    case Neutral => "NEUTRAL"
  }

  /** Each label in terms of the combined score alone; both bounds themselves are NEUTRAL. */
  lemma LabelExactlyOne(score: real, magnitude: real)
    ensures LabelOf(score, magnitude) == Positive <==> score * magnitude > 0.75
    ensures LabelOf(score, magnitude) == Negative <==> score * magnitude < -0.75
    ensures LabelOf(score, magnitude) == Neutral <==> -0.75 <= score * magnitude <= 0.75
  {
  }

  /** The label is a function of the combined score, and never falls as the combined score rises. */
  lemma LabelMonotone(s1: real, m1: real, s2: real, m2: real)
    requires s1 * m1 <= s2 * m2
    ensures LabelOf(s1, m1) == Positive ==> LabelOf(s2, m2) == Positive
    ensures LabelOf(s2, m2) == Negative ==> LabelOf(s1, m1) == Negative
    ensures s1 * m1 == s2 * m2 ==> LabelOf(s1, m1) == LabelOf(s2, m2)
  {
  }

  function Mirror(l: Label): Label {
    match l
    case Positive => Negative
    case Negative => Positive
    case Neutral => Neutral
  }

  /** The thresholds are symmetric: negating the score mirrors the label. */
  lemma LabelMirror(score: real, magnitude: real)
    ensures LabelOf(-score, magnitude) == Mirror(LabelOf(score, magnitude))
  {
    assert (-score) * magnitude == -(score * magnitude);
  }

  lemma LabelExamples()
    ensures LabelOf(0.9, 0.9) == Positive && LabelOf(-0.9, 0.9) == Negative
    ensures LabelOf(0.5, 0.5) == Neutral && LabelOf(0.75, 1.0) == Neutral && LabelOf(-1.0, 0.75) == Neutral
  {
  }

  /** Distinct labels are written as distinct texts, none empty and none holding a line break. */
  lemma LabelTextInjective(a: Label, b: Label)
    ensures LabelText(a) == LabelText(b) <==> a == b
    ensures |LabelText(a)| > 0 && '\n' !in LabelText(a)
  {
    if a != b {
      assert LabelText(a)[2] != LabelText(b)[2];
    }
  }
}
