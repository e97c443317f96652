/**
 * The single-answer rule cascade `generate_recommendation`: a numeric rule,
 * an emotion rule and a closing rule each add a block of three sentences to
 * a candidate pool and set the activity category; one sentence of the pool
 * and one tip of a fixed catalog are then chosen at random.
 */
module Recommendation {
  import opened Optional
  import opened Numeric
  import Emotions
  import opened Vocabulary

  /** The blocks of three sentences the cascade can add to the pool. */
  datatype Block =
    // numeric rules
    | StressHighBlock | EnergyLowBlock | SleepPoorBlock
    // emotion rules
    | StressEmotionBlock | TiredEmotionBlock | SadEmotionBlock | UpbeatEmotionBlock
    // sentiment-based closing rules
    | NegativeBlock | PositiveBlock | CheckInBlock

  /** A sentence of the pool: sentence `index` (0, 1 or 2) of a block. */
  datatype Line = Line(block: Block, index: nat)

  /** The three sentences a rule adds. */
  function Lines(b: Block): (lines: seq<Line>)
    ensures |lines| == 3
  {
    [Line(b, 0), Line(b, 1), Line(b, 2)]
  }

  /** The wording of each sentence. */
  function Wording(line: Line): string
  {
    match line.block
    case StressHighBlock =>
      if line.index == 0 then "Your stress level seems high. Let's work on bringing it down with some quick relaxation techniques."
      else if line.index == 1 then "Take a few minutes for deep breathing - it can significantly reduce stress hormones."
      else "Consider stepping away from your current task for a 5-minute break."
    case EnergyLowBlock =>
      if line.index == 0 then "Your energy seems low. Let's find ways to naturally boost it without caffeine."
      else if line.index == 1 then "A quick movement break can help increase circulation and alertness."
      else "Make sure you're staying hydrated - dehydration is a common cause of fatigue."
    case SleepPoorBlock =>
      if line.index == 0 then "Poor sleep affects everything. Let's focus on relaxation techniques for better rest tonight."
      else if line.index == 1 then "Consider establishing a calming bedtime routine starting 30 minutes before sleep."
      else "Avoid screens for at least an hour before bed if possible."
    case StressEmotionBlock =>
      if line.index == 0 then "I notice you're feeling stressed. Remember, this feeling is temporary and manageable."
      else if line.index == 1 then "Try the 4-7-8 breathing technique - it activates your body's relaxation response."
      else "Ground yourself by naming 5 things you can see, 4 you can touch, 3 you can hear."
    case TiredEmotionBlock =>
      if line.index == 0 then "Feeling tired is your body's way of asking for care. Listen to those signals."
      else if line.index == 1 then "A few gentle stretches can help increase blood flow and energy."
      else "Natural light exposure can help boost alertness - try looking out a window."
    case SadEmotionBlock =>
      if line.index == 0 then "It's okay to feel sad sometimes. Acknowledging your feelings is the first step to healing."
      else if line.index == 1 then "Gentle movement and fresh air can help lift your mood naturally."
      else "Consider reaching out to a friend or doing something kind for yourself."
    case UpbeatEmotionBlock =>
      if line.index == 0 then "It's wonderful that you're feeling positive! Let's maintain this energy."
      else if line.index == 1 then "Use this good energy to tackle something you've been putting off."
      else "Consider sharing your positive mood with someone else - it's contagious!"
    case NegativeBlock =>
      if line.index == 0 then "I sense you're going through a challenging time. Remember, difficult feelings are temporary."
      else if line.index == 1 then "Be gentle with yourself today. Small acts of self-care can make a big difference."
      else "Focus on what you can control right now, even if it's just taking the next breath."
    case PositiveBlock =>
      if line.index == 0 then "Your positive energy is wonderful! Keep nurturing that mindset."
      else if line.index == 1 then "Gratitude practices can help maintain and amplify positive feelings."
      else "Consider setting a small, achievable goal while you're feeling motivated."
    case CheckInBlock =>
      if line.index == 0 then "Thank you for checking in. Regular self-awareness is a powerful wellness practice."
      else if line.index == 1 then "Even small moments of mindfulness throughout the day can improve your overall well-being."
      else "Consider taking a few deep breaths to center yourself."
  }

  /** The activity category a rule sets when it adds its block. */
  function BlockCategory(b: Block): ActivityCategory
  {
    match b
    case StressHighBlock => Breathing
    case EnergyLowBlock => Energy
    case SleepPoorBlock => Relaxation
    case StressEmotionBlock => Breathing
    case TiredEmotionBlock => Energy
    case SadEmotionBlock => Mindfulness
    case UpbeatEmotionBlock => Mindfulness
    case NegativeBlock => Breathing
    case PositiveBlock => Mindfulness
    case CheckInBlock => Breathing
  }

  /** Step 1: the rule table over the numeric signal. */
  function NumericRule(numeric: Option<NumericSignal>): Option<Block>
  {
    match numeric
    case None => None
    case Some(signal) =>
      if signal.category == StressCategory && signal.level == High then Some(StressHighBlock)
      else if signal.category == EnergyCategory && signal.level == Low then Some(EnergyLowBlock)
      else if signal.category == SleepCategory && signal.level == Poor then Some(SleepPoorBlock)
      else None
  }

  /** Step 2: the first emotion rule that applies, if any. */
  function EmotionRule(emotions: seq<Emotions.Emotion>): Option<Block>
  {
    if Emotions.Stress in emotions then Some(StressEmotionBlock)
    else if Emotions.Tired in emotions then Some(TiredEmotionBlock)
    else if Emotions.Sad in emotions then Some(SadEmotionBlock)
    else if Emotions.Happy in emotions || Emotions.Motivated in emotions then Some(UpbeatEmotionBlock)
    else None
  }

  /**
   * Step 3: NEGATIVE or POSITIVE give their own block only when nothing was
   * added before; every other case, a non-empty pool included, ends with the
   * check-in block.
   */
  function ClosingRule(base: Label, nothingBefore: bool): Block
  {
    if base == Negative && nothingBefore then NegativeBlock
    else if base == Positive && nothingBefore then PositiveBlock
    else CheckInBlock
  }

  function Blocks(b: Option<Block>): seq<Block>
  {
    if b.Some? then [b.value] else []
  }

  /** The rules that fire, in the order they add to the pool. */
  function Fired(base: Label, emotions: seq<Emotions.Emotion>, numeric: Option<NumericSignal>): (fired: seq<Block>)
    ensures 1 <= |fired| <= 3
  {
    var early := Blocks(NumericRule(numeric)) + Blocks(EmotionRule(emotions));
    early + [ClosingRule(base, early == [])]
  }

  function LinesOf(blocks: seq<Block>): seq<Line>
  {
    if blocks == [] then [] else Lines(blocks[0]) + LinesOf(blocks[1..])
  }

  /** The candidate pool: the sentences of the fired rules, in order. */
  function Pool(base: Label, emotions: seq<Emotions.Emotion>, numeric: Option<NumericSignal>): seq<Line>
  {
    LinesOf(Fired(base, emotions, numeric))
  }

  /** The activity category: the one set by the last rule that fired. */
  function PoolCategory(base: Label, emotions: seq<Emotions.Emotion>, numeric: Option<NumericSignal>): ActivityCategory
  {
    var fired := Fired(base, emotions, numeric);
    BlockCategory(fired[|fired| - 1])
  }

  lemma {:induction false} LinesOfLength(blocks: seq<Block>)
    ensures |LinesOf(blocks)| == 3 * |blocks|
  {
    if blocks != [] {
      LinesOfLength(blocks[1..]);
    }
  }

  /** The pool read block by block: the lines of each rule that fired, in order. */
  lemma PoolByRule(base: Label, emotions: seq<Emotions.Emotion>, numeric: Option<NumericSignal>)
    ensures Pool(base, emotions, numeric) ==
      LinesOf(Blocks(NumericRule(numeric))) + LinesOf(Blocks(EmotionRule(emotions)))
      + Lines(ClosingRule(base, NumericRule(numeric).None? && EmotionRule(emotions).None?))
  {
    var n := Blocks(NumericRule(numeric));
    var e := Blocks(EmotionRule(emotions));
    var c := ClosingRule(base, NumericRule(numeric).None? && EmotionRule(emotions).None?);
    assert Fired(base, emotions, numeric) == n + e + [c];
    LinesOfAppend(n + e, c);
    LinesOfConcat(n, e);
  }

  lemma {:induction false} LinesOfConcat(xs: seq<Block>, ys: seq<Block>)
    ensures LinesOf(xs + ys) == LinesOf(xs) + LinesOf(ys)
  {
    if xs == [] {
      assert xs + ys == ys;
    } else {
      assert (xs + ys)[1..] == xs[1..] + ys;
      LinesOfConcat(xs[1..], ys);
    }
  }

  function Count(b: bool): nat
  {
    if b then 1 else 0
  }

  /**
   * The pool is never empty: it holds three sentences per rule that fired,
   * one numeric rule at most, one emotion rule at most and always one closing
   * rule, so 3, 6 or 9 sentences.
   */
  lemma PoolSize(base: Label, emotions: seq<Emotions.Emotion>, numeric: Option<NumericSignal>)
    ensures |Pool(base, emotions, numeric)| ==
      3 * (1 + Count(NumericRule(numeric).Some?) + Count(EmotionRule(emotions).Some?))
    ensures |Pool(base, emotions, numeric)| in {3, 6, 9}
  {
    LinesOfLength(Fired(base, emotions, numeric));
  }

  /**
   * The closing rule always fires last, so the numeric and emotion rules'
   * categories never survive: the result is `mindfulness` exactly when
   * neither of them fired and the base label is POSITIVE, and `breathing`
   * otherwise.
   */
  lemma PoolCategoryOutcome(base: Label, emotions: seq<Emotions.Emotion>, numeric: Option<NumericSignal>)
    ensures PoolCategory(base, emotions, numeric) == Mindfulness <==>
      NumericRule(numeric).None? && EmotionRule(emotions).None? && base == Positive
    ensures PoolCategory(base, emotions, numeric) != Mindfulness ==>
      PoolCategory(base, emotions, numeric) == Breathing
  {
  }

  /**
   * The pool after a rule: its block appended and its category set when it
   * fires; pool and category unchanged otherwise.
   */
  function AfterRule(rule: Option<Block>, pool: seq<Line>, category: ActivityCategory): (seq<Line>, ActivityCategory)
  {
    if rule.Some? then (pool + Lines(rule.value), BlockCategory(rule.value)) else (pool, category)
  }

  /** `generate_recommendation` lines 119-146: the numeric rules. */
  method ApplyNumericRules(numeric: Option<NumericSignal>, pool: seq<Line>, category: ActivityCategory)
    returns (recommendations: seq<Line>, activityCategory: ActivityCategory)
    ensures (recommendations, activityCategory) == AfterRule(NumericRule(numeric), pool, category)
  {
    recommendations, activityCategory := pool, category;
    if numeric.Some? {
      var signalCategory := numeric.value.category;
      var level := numeric.value.level;
      if signalCategory == StressCategory && level == High {
        recommendations := recommendations + Lines(StressHighBlock);
        activityCategory := Breathing;
      } else if signalCategory == EnergyCategory && level == Low {
        recommendations := recommendations + Lines(EnergyLowBlock);
        activityCategory := Energy;
      } else if signalCategory == SleepCategory && level == Poor {
        recommendations := recommendations + Lines(SleepPoorBlock);
        activityCategory := Relaxation;
      }
    }
  }

  /**
   * `generate_recommendation` lines 148-179: the emotion rules. The source
   * also tests for an `anxious` tag, which the lexicon never produces.
   */
  method ApplyEmotionRules(emotions: seq<Emotions.Emotion>, pool: seq<Line>, category: ActivityCategory)
    returns (recommendations: seq<Line>, activityCategory: ActivityCategory)
    ensures (recommendations, activityCategory) == AfterRule(EmotionRule(emotions), pool, category)
  {
    recommendations, activityCategory := pool, category;
    if Emotions.Stress in emotions {
      recommendations := recommendations + Lines(StressEmotionBlock);
      activityCategory := Breathing;
    } else if Emotions.Tired in emotions {
      recommendations := recommendations + Lines(TiredEmotionBlock);
      activityCategory := Energy;
    } else if Emotions.Sad in emotions {
      recommendations := recommendations + Lines(SadEmotionBlock);
      activityCategory := Mindfulness;
    } else if Emotions.Happy in emotions || Emotions.Motivated in emotions {
      recommendations := recommendations + Lines(UpbeatEmotionBlock);
      activityCategory := Mindfulness;
    }
  }

  /** `generate_recommendation` lines 181-204: the sentiment-based closing rule. */
  method ApplyClosingRule(base: Label, pool: seq<Line>, category: ActivityCategory)
    returns (recommendations: seq<Line>, activityCategory: ActivityCategory)
    ensures (recommendations, activityCategory) == AfterRule(Some(ClosingRule(base, pool == [])), pool, category)
  {
    recommendations, activityCategory := pool, category;
    if base == Negative && recommendations == [] {
      recommendations := recommendations + Lines(NegativeBlock);
      activityCategory := Breathing;
    } else if base == Positive && recommendations == [] {
      recommendations := recommendations + Lines(PositiveBlock);
      activityCategory := Mindfulness;
    } else {
      recommendations := recommendations + Lines(CheckInBlock);
      activityCategory := Breathing;
    }
  }

  /**
   * `generate_recommendation` lines 115-204: starting from an empty pool and
   * `breathing`, the three steps build exactly the pool and category of the
   * rules that fire, 3, 6 or 9 sentences.
   */
  method BuildPool(base: Label, emotions: seq<Emotions.Emotion>, numeric: Option<NumericSignal>)
    returns (recommendations: seq<Line>, activityCategory: ActivityCategory)
    ensures recommendations == Pool(base, emotions, numeric)
    ensures activityCategory == PoolCategory(base, emotions, numeric)
    ensures |recommendations| in {3, 6, 9}
  {
    recommendations := [];
    activityCategory := Breathing;
    recommendations, activityCategory := ApplyNumericRules(numeric, recommendations, activityCategory);
    recommendations, activityCategory := ApplyEmotionRules(emotions, recommendations, activityCategory);
    assert recommendations == LinesOf(Blocks(NumericRule(numeric))) + LinesOf(Blocks(EmotionRule(emotions)));
    recommendations, activityCategory := ApplyClosingRule(base, recommendations, activityCategory);
    PoolByRule(base, emotions, numeric);
    PoolSize(base, emotions, numeric);
  }

  lemma {:induction false} LinesOfAppend(blocks: seq<Block>, b: Block)
    ensures LinesOf(blocks + [b]) == LinesOf(blocks) + Lines(b)
  {
    if blocks != [] {
      assert (blocks + [b])[1..] == blocks[1..] + [b];
      LinesOfAppend(blocks[1..], b);
    }
  }

  /** The fixed catalog of eight wellness tips. */
  const WellnessTips: seq<string> := [
    "\U{1F4A7} Stay hydrated - even mild dehydration affects mood and energy.",
    "\U{1F331} Take micro-breaks every hour, even just 30 seconds of stretching helps.",
    "\U{1F31E} Natural light exposure helps regulate your circadian rhythm.",
    "\U{1FAC2} Social connection is as important for health as diet and exercise.",
    "\U{1F3AF} Focus on progress, not perfection. Small steps lead to big changes.",
    "\U{1F9D8} Just 2 minutes of deep breathing can activate your relaxation response.",
    "\U{1F4F1} Consider a 'phone-free' meal today to practice mindful eating.",
    "\U{1F6B6} A 5-minute walk can boost creativity and reduce stress hormones."]

  /** The sentence used when the pool is empty; the pool never is. */
  const EmptyPoolRecommendation: string := "Take care of yourself today."

  /**
   * `generate_recommendation`: the random choices of a sentence from the
   * pool and of a tip from the catalog are left unconstrained.
   */
  method GenerateRecommendation(base: Label, emotions: seq<Emotions.Emotion>, numeric: Option<NumericSignal>, questionIndex: int)
    returns (recommendation: string, activityCategory: ActivityCategory, wellnessTip: string)
    ensures exists k ::
      && 0 <= k < |Pool(base, emotions, numeric)|
      && recommendation == Wording(Pool(base, emotions, numeric)[k])
    ensures activityCategory == PoolCategory(base, emotions, numeric)
    ensures wellnessTip in WellnessTips
  {
    var recommendations;
    recommendations, activityCategory := BuildPool(base, emotions, numeric);
    if recommendations != [] {
      var pick :| 0 <= pick < |recommendations|;
      recommendation := Wording(recommendations[pick]);
    } else {
      recommendation := EmptyPoolRecommendation;
    }
    var tip :| 0 <= tip < |WellnessTips|;
    wellnessTip := WellnessTips[tip];
  }

}
