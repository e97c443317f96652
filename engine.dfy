/**
 * The entry points: `analyze_sentiment_and_recommend`, which sends the
 * closing question of a check-in with its answers to the aggregator and
 * every other answer through the single-answer pipeline, and
 * `get_contextual_response`, the fixed acknowledgement per question.
 */
module Engine {
  import opened Optional
  import opened Numeric
  import opened Vocabulary
  import opened Recommendation
  import opened Resolver
  import opened Comprehensive
  import Emotions

  /** The tags of the detected emotions, in detection order. */
  function EmotionNames(es: seq<Emotions.Emotion>): (names: seq<string>)
    ensures |names| == |es|
    ensures forall i :: 0 <= i < |es| ==> names[i] == Emotions.Name(es[i])
  {
    if es == [] then [] else EmotionNames(es[..|es| - 1]) + [Emotions.Name(es[|es| - 1])]
  }

  function Abs(x: real): real
  {
    if x < 0.0 then -x else x
  }

  /** The closing question with at least one answer goes to the aggregator. */
  predicate IsComprehensive(questionIndex: int, allAnswers: seq<Answer>)
  {
    questionIndex == 4 && allAnswers != []
  }

  /**
   * `analyze_sentiment_and_recommend`. The polarity the external scorer
   * gives `text` and the activity store are parameters. On the
   * single-answer path the label is the override chain over the base label,
   * the detected emotions and the rating; the score is the polarity and the
   * confidence its magnitude; the recommendation is one sentence of the
   * pool the three signals fire, and the activity comes from that pool's
   * category.
   */
  method AnalyzeSentimentAndRecommend(text: string, questionIndex: int, allAnswers: seq<Answer>,
                                      polarity: real, lookup: ActivityCategory -> Option<WellnessActivity>)
    returns (result: CheckinResult)
    ensures IsComprehensive(questionIndex, allAnswers) ==> result == ComprehensiveResult(allAnswers, lookup)
    ensures !IsComprehensive(questionIndex, allAnswers) ==>
      var (base, emotions, numeric) := (BaseLabel(polarity), Emotions.Detected(text), AnalyzeNumeric(text, questionIndex));
      && result.sentiment == FinalLabel(base, emotions, numeric)
      && result.sentimentScore == polarity
      && result.confidence == Abs(polarity)
      && result.emotions == EmotionNames(emotions)
      && (exists k ::
            && 0 <= k < |Pool(base, emotions, numeric)|
            && result.recommendation == Wording(Pool(base, emotions, numeric)[k]))
      && result.wellnessTip in WellnessTips
      && result.suggestedActivity == lookup(PoolCategory(base, emotions, numeric))
      && result.numericAnalysis == Single(numeric)
  {
    if questionIndex == 4 && allAnswers != [] {
      result := AnalyzeComprehensive(allAnswers, lookup);
      return;
    }
    var sentiment := BaseLabel(polarity);
    var emotions := Emotions.DetectEmotions(text);
    var numericAnalysis := AnalyzeNumeric(text, questionIndex);
    var recommendation, activityCategory, wellnessTip :=
      GenerateRecommendation(sentiment, emotions, numericAnalysis, questionIndex);
    var activity := lookup(activityCategory);
    var finalSentiment := FinalLabel(sentiment, emotions, numericAnalysis);
    result := CheckinResult(finalSentiment, polarity, Abs(polarity), EmotionNames(emotions), recommendation,
                            wellnessTip, activity, Single(numericAnalysis));
  }

  /** The acknowledgement for each question of the check-in. */
  const Responses: map<int, string> := map[
    0 := "Thanks for starting your wellness check-in! Your self-awareness is the first step to better mental health.",
    1 := "I understand your energy level today. Let's work with where you're at right now.",
    2 := "Thank you for sharing your stress level. Remember, stress is manageable with the right techniques.",
    3 := "Sleep quality affects everything. Let's focus on what we can do to support your rest.",
    4 := "I hear you about your workload. Finding balance is key to sustainable productivity.",
    5 := "Thank you for completing your check-in. You've taken an important step for your wellness today."
  ]

  const DefaultResponse: string := "Thank you for sharing that with me."

  /**
   * `get_contextual_response`: the response ignores the answer text; the
   * six questions 0..5 each get their own acknowledgement and any other
   * index the default one.
   */
  function ContextualResponse(questionIndex: int, userResponse: string): (r: string)
    ensures r == DefaultResponse <==> !(0 <= questionIndex <= 5)
    ensures 0 <= questionIndex <= 5 ==> r == Responses[questionIndex]
  {
    if questionIndex in Responses then Responses[questionIndex] else DefaultResponse
  }

  /** Different questions of the check-in get different acknowledgements. */
  lemma ResponsesDistinct(i: int, j: int, a: string, b: string)
    requires 0 <= i <= 5 && 0 <= j <= 5 && i != j
    ensures ContextualResponse(i, a) != ContextualResponse(j, b)
  {
    var ri, rj := ContextualResponse(i, a), ContextualResponse(j, b);
    assert |ri| != |rj|;
  }

}
