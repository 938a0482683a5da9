/** The two sentiment engines as the comparison sees them, the local
    label thresholds, and the per-comment record (app.py:45-65). */
module Sentiment {

  /** The sentiment labels. The cloud classifier (Amazon Comprehend) answers
      with any of the four; the local labelling never yields MIXED. */
  datatype Label = POSITIVE | NEGATIVE | NEUTRAL | MIXED

  /** The string each label is written as in a record's column: Comprehend's
      `Sentiment` value and the literals of app.py:51-53, all upper-case
      ASCII letters, compared case-sensitively. */
  function Name(l: Label): (r: string)
    ensures r != [] && forall k :: 0 <= k < |r| ==> 'A' <= r[k] <= 'Z'
  {
    match l
    case POSITIVE => "POSITIVE"
    case NEGATIVE => "NEGATIVE"
    case NEUTRAL => "NEUTRAL"
    case MIXED => "MIXED"
  }

  /** Comparing label strings is comparing labels: no two labels share a name. */
  lemma NamesDistinct(a: Label, b: Label)
    ensures Name(a) == Name(b) <==> a == b
  {
  }

  /** VADER's compound polarity score, a number in [-1, 1]. */
  type Compound = r: real | -1.0 <= r <= 1.0 witness 0.0

  /** The four confidence scores Comprehend returns; copied through unexamined. */
  datatype SentimentScore = SentimentScore(positive: real, negative: real, neutral: real, mixed: real)

  /** The part of Comprehend's `detect_sentiment` answer the script reads. */
  datatype CloudResponse = CloudResponse(sentiment: Label, scores: SentimentScore)

  /** The threshold labelling of app.py:50-54. */
  const PositiveThreshold: real := 0.05
  const NegativeThreshold: real := -0.05

  /** The local label of a compound score: POSITIVE strictly above 0.05,
      NEGATIVE strictly below -0.05, NEUTRAL in between, both ends included. */
  function VaderLabel(score: real): (l: Label)
    ensures l == POSITIVE <==> score > PositiveThreshold
    ensures l == NEGATIVE <==> score < NegativeThreshold
    ensures l == NEUTRAL <==> NegativeThreshold <= score <= PositiveThreshold
    ensures l != MIXED
  {
    if score > PositiveThreshold then POSITIVE
    else if score < NegativeThreshold then NEGATIVE
    else NEUTRAL
  }

  /** Order of the local labels along the score axis. */
  function Rank(l: Label): int {
    match l
    case NEGATIVE => -1
    case NEUTRAL => 0
    case POSITIVE => 1
    case MIXED => 0
  }

  /** A higher score never gets a lower label. */
  lemma VaderLabelMonotone(a: real, b: real)
    requires a <= b
    ensures Rank(VaderLabel(a)) <= Rank(VaderLabel(b))
  {
  }

  /** The two boundary scores themselves are NEUTRAL. */
  lemma VaderLabelBoundaries()
    ensures VaderLabel(0.05) == NEUTRAL && VaderLabel(-0.05) == NEUTRAL
  {
  }

  /** One row of `results` (app.py:56-65). */
  datatype Record = Record(
    comment: string,
    comprehendSentiment: Label,
    scores: SentimentScore,
    vaderScore: Compound,
    vaderSentiment: Label)

  /** The record for one comment text (app.py:56-65): the text as fetched,
      untrimmed, both engines' answers for that same text, and a local label
      that is the threshold label of the stored score, hence never MIXED. */
  function MakeRecord(text: string, cloud: string -> CloudResponse, vader: string -> Compound): (r: Record)
    ensures r.comment == text
    ensures r.comprehendSentiment == cloud(text).sentiment && r.scores == cloud(text).scores
    ensures r.vaderScore == vader(text)
    ensures r.vaderSentiment == VaderLabel(r.vaderScore) && r.vaderSentiment != MIXED
  {
    var comp := cloud(text);
    var score := vader(text);
    Record(text, comp.sentiment, comp.scores, score, VaderLabel(score))
  }
}
