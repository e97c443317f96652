/**
 * The final label of a single answer (the override chain of
 * `analyze_sentiment_and_recommend`): a fixed precedence over the detected
 * emotions and the numeric signal, falling back to the base label.
 */
module Resolver {
  import opened Optional
  import opened Text
  import opened Numeric
  import opened Vocabulary
  import Emotions
  import opened Recommendation

  /** A stress rating in the high band. */
  predicate HighStressSignal(numeric: Option<NumericSignal>)
  {
    numeric.Some? && numeric.value.category == StressCategory && numeric.value.level == High
  }

  /** An energy rating in the low band. */
  predicate LowEnergySignal(numeric: Option<NumericSignal>)
  {
    numeric.Some? && numeric.value.category == EnergyCategory && numeric.value.level == Low
  }

  /**
   * STRESSED, then TIRED (each from its emotion or its rating), then SAD,
   * HAPPY, ANGRY and CALM from the emotions alone; the base label when no
   * override applies.
   */
  function FinalLabel(base: Label, emotions: seq<Emotions.Emotion>, numeric: Option<NumericSignal>): (result: Label)
    requires IsBaseLabel(base)
    ensures result == Stressed <==> Emotions.Stress in emotions || HighStressSignal(numeric)
    ensures result == Tired <==>
      !(Emotions.Stress in emotions || HighStressSignal(numeric))
      && (Emotions.Tired in emotions || LowEnergySignal(numeric))
    ensures result == Sad <==> result != Stressed && result != Tired && Emotions.Sad in emotions
    ensures result == Happy <==> result !in {Stressed, Tired, Sad} && Emotions.Happy in emotions
    ensures result == Angry <==> result !in {Stressed, Tired, Sad, Happy} && Emotions.Angry in emotions
    ensures result == Calm <==> result !in {Stressed, Tired, Sad, Happy, Angry} && Emotions.Calm in emotions
    ensures IsBaseLabel(result) ==> result == base
  {
    if Emotions.Stress in emotions || HighStressSignal(numeric) then Stressed
    else if Emotions.Tired in emotions || LowEnergySignal(numeric) then Tired
    else if Emotions.Sad in emotions then Sad
    else if Emotions.Happy in emotions then Happy
    else if Emotions.Angry in emotions then Angry
    else if Emotions.Calm in emotions then Calm
    else base
  }

  /**
   * The label and the cascade agree: the answer is labelled STRESSED exactly
   * when a stress block (numeric or emotional) is in the pool; TIRED, SAD
   * and HAPPY answers have the matching block in their pool; and an answer
   * that keeps its base label had neither a stress nor a low-energy block.
   */
  lemma {:induction false} LabelAgreesWithPool(base: Label, emotions: seq<Emotions.Emotion>, numeric: Option<NumericSignal>)
    requires IsBaseLabel(base)
    ensures var final := FinalLabel(base, emotions, numeric);
      && (final == Stressed <==>
            NumericRule(numeric) == Some(StressHighBlock) || EmotionRule(emotions) == Some(StressEmotionBlock))
      && (final == Tired ==>
            NumericRule(numeric) == Some(EnergyLowBlock) || EmotionRule(emotions) == Some(TiredEmotionBlock))
      && (final == Sad ==> EmotionRule(emotions) == Some(SadEmotionBlock))
      && (final == Happy ==> EmotionRule(emotions) == Some(UpbeatEmotionBlock))
      && (IsBaseLabel(final) ==>
            NumericRule(numeric) !in {Some(StressHighBlock), Some(EnergyLowBlock)}
            && EmotionRule(emotions) in {None, Some(UpbeatEmotionBlock)})
  {
    if FinalLabel(base, emotions, numeric) == Stressed {
      if !HighStressSignal(numeric) {
        assert Emotions.Stress in emotions;
      }
    }
  }

  const StressedAnswer: string := "I'm so stressed, about an 8 out of 10"

  lemma StressedAnswerRating()
    ensures AnalyzeNumeric(StressedAnswer, 2) == Some(NumericSignal(StressCategory, High, 8))
  {
    var text := StressedAnswer;
    assert MatchAt(text, 26, 1);
    forall j | 0 <= j < 26 ensures !IsDigit(text[j]) {
    }
    NoMatchBeforeDigit(text, 26);
    assert FirstMatch(text, 26, 1);
    FirstNumberSpec(text);
    assert ValueAt(text, 26, 1) == 8;
    ScoredAnswer(text, 2, 8);
  }

  /** A stress answer whose first number is 8 is a high stress rating. */
  lemma ScoredAnswer(text: string, questionIndex: int, score: int)
    requires questionIndex == 2 && score == 8
    requires FirstNumber(text) == Some(score)
    ensures AnalyzeNumeric(text, questionIndex) == Some(NumericSignal(StressCategory, High, score))
  {
  }

  lemma StressedAnswerEmotion()
    ensures Emotions.Stress in Emotions.Detected(StressedAnswer)
  {
    var text := StressedAnswer;
    var lowered := Lower(text);
    assert text[7] == 's' && text[8] == 't' && text[9] == 'r' && text[10] == 'e' && text[11] == 's' && text[12] == 's';
    assert lowered[7..13] == "stress";
    assert OccursAt(lowered, "stress", 7);
    assert Emotions.Keywords(Emotions.Stress)[0] == "stress";
    Emotions.DetectedSpec(text);
  }

  /**
   * An answer that mentions stress and rates its stress level 8 is labelled
   * STRESSED by both the emotion and the rating, and both stress blocks are
   * in its pool.
   */
  lemma StressedExample(base: Label)
    requires IsBaseLabel(base)
    ensures var (emotions, numeric) := (Emotions.Detected(StressedAnswer), AnalyzeNumeric(StressedAnswer, 2));
      && FinalLabel(base, emotions, numeric) == Stressed
      && NumericRule(numeric) == Some(StressHighBlock)
      && EmotionRule(emotions) == Some(StressEmotionBlock)
  {
    StressedAnswerRating();
    StressedAnswerEmotion();
  }

}
