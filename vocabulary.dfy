/**
 * The closed vocabularies the engine reports in, and the record every
 * check-in analysis returns.
 */
module Vocabulary {
  import opened Optional
  import opened Numeric

  /** Final sentiment labels: the three base labels and six overrides. */
  datatype Label = Positive | Negative | Neutral | Stressed | Tired | Sad | Happy | Angry | Calm

  predicate IsBaseLabel(l: Label)
  {
    l == Positive || l == Negative || l == Neutral
  }

  /**
   * The label `analyze_sentiment_basic` derives from the polarity the
   * external scorer gives: POSITIVE from 0.3 up, NEGATIVE from -0.3 down.
   */
  function BaseLabel(polarity: real): (l: Label)
    ensures IsBaseLabel(l)
  {
    if polarity >= 0.3 then Positive
    else if polarity <= -0.3 then Negative
    else Neutral
  }

  function BaseRank(l: Label): int
  {
    if l == Negative then -1 else if l == Positive then 1 else 0
  }

  /**
   * The base label is monotone in the polarity, and the band strictly
   * between -0.3 and 0.3 is exactly the NEUTRAL one.
   */
  lemma BaseLabelBands(p: real, q: real)
    ensures p <= q ==> BaseRank(BaseLabel(p)) <= BaseRank(BaseLabel(q))
    ensures BaseLabel(p) == Neutral <==> -0.3 < p < 0.3
  {
  }

  /** Activity categories of the wellness-activity store. */
  datatype ActivityCategory = Breathing | Energy | Relaxation | Mindfulness

  /** A row of the external `wellness_activities` table. */
  datatype WellnessActivity = WellnessActivity(
    id: int, title: string, description: string, category: string,
    durationMinutes: int, instructions: string)

  /** The `numeric_analysis` entry of a result. */
  datatype NumericReport =
    | NoReport
    | Single(signal: Option<NumericSignal>)
    | PerTopic(energy: Option<NumericSignal>, stress: Option<NumericSignal>, sleep: Option<NumericSignal>)

  /** The record both analysis paths return. */
  datatype CheckinResult = CheckinResult(
    sentiment: Label,
    sentimentScore: real,
    confidence: real,
    emotions: seq<string>,
    recommendation: string,
    wellnessTip: string,
    suggestedActivity: Option<WellnessActivity>,
    numericAnalysis: NumericReport)

}
