# MindEase-AI check-in engine, modelled in Dafny

This project models the decision engine of MindEase-AI
(`sentiment_analysis.py`). The engine reads the answers of a wellness
check-in and produces:

- a sentiment label,
- the detected emotions,
- a recommendation sentence,
- a wellness tip,
- an activity category, and the activity looked up for it.

The model covers every part of that engine:

- the keyword table `EMOTION_KEYWORDS` and `detect_emotions`,
- the rating parser `analyze_numeric_response`,
- the single-answer cascade `generate_recommendation`,
- the label override chain of `analyze_sentiment_and_recommend`,
- the whole-check-in aggregator `analyze_comprehensive_checkin`,
- the routing between the two paths,
- `get_contextual_response`.

Modules, one per file:

| file | module | what it holds |
|---|---|---|
| `optional.dfy` | `Optional` | the `Option` type |
| `text.dfy` | `Text` | ASCII lower-casing, substring search, `" ".join` |
| `emotions.dfy` | `Emotions` | the keyword table and the nested detection loop |
| `numeric.dfy` | `Numeric` | the regular expression `\b(\d{1,2})\b` as a leftmost search, the range check and the level buckets |
| `vocabulary.dfy` | `Vocabulary` | the labels, activity categories and result record; the polarity thresholds |
| `recommendation.dfy` | `Recommendation` | the pool of candidate sentences, built rule by rule, and the random choices |
| `resolver.dfy` | `Resolver` | the final label of a single answer |
| `comprehensive.dfy` | `Comprehensive` | the answer scan, the concerns, and the joined recommendation, tip and activity |
| `engine.dfy` | `Engine` | `analyze_sentiment_and_recommend` and `get_contextual_response` |

Each imperative part of the source is a method with loops or step-by-step
updates, proved equal to a specification function:

- the nested loop of `detect_emotions`, including its `break`,
- the list building of `generate_recommendation`,
- the scan and the concern updates of `analyze_comprehensive_checkin`.

The properties are then proved about those functions. The pure parts are
functions: the parser, the label thresholds, the override chain and the
response lookup.

Some inputs are parameters of the model:

- The polarity computed by TextBlob is a `real` parameter.
- The activity store `get_wellness_activity_by_category` is a function
  parameter `lookup` from category to optional activity.
- The two `random.choice` calls are nondeterministic choices. Only
  membership in the pool or the catalog is stated about them.

A pool sentence is identified as `Line(block, index)`: sentence `index` of
the rule block that added it. `Recommendation.Wording` gives its exact text.
This keeps proofs about the pool's shape away from the sentence literals.

## Model

| member | source | states |
|---|---|---|
| Emotions.DetectEmotions | sentiment_analysis.py:51-62 | the detected list equals `Detected(text)`; an emotion is in it iff one of its keywords occurs in the lower-cased text; it is in table order |
| Emotions.DetectInTable | sentiment_analysis.py:56-61 | the outer loop over the table rows appends exactly the rows whose keywords match, in row order |
| Emotions.AnyKeywordOccurs | sentiment_analysis.py:57-60 | the inner loop with `break` reports true iff some keyword of the row is a substring of the text |
| Emotions.DetectedSpec | sentiment_analysis.py:7-15 | an emotion is detected iff one of its table keywords occurs in `text.lower()`; the result follows table order (stress, tired, sad, angry, happy, motivated, calm) and holds each tag at most once |
| Emotions.DetectInSpec | sentiment_analysis.py:56-61 | filtering any list of rows keeps exactly the matching rows, in order |
| Text.Contains | sentiment_analysis.py:58 | `keyword in text_lower` holds iff the keyword occurs at some index of the text |
| Text.ContainsAny | sentiment_analysis.py:344 | `any(word in s for word in words)` holds iff some word of the list is a substring |
| Text.Join | sentiment_analysis.py:356 | `" ".join` of one string is that string; the result starts with the first part and ends with the last |
| Text.JoinLength | sentiment_analysis.py:356 | the joined string is as long as the parts together plus one separator between each two |
| Text.JoinPrefix | sentiment_analysis.py:356 | joining the first `m` parts gives a prefix of joining them all |
| Text.JoinPlacement | sentiment_analysis.py:356 | every later part `k` sits right after the join of the parts before it and one separator |
| Numeric.MatchLength | sentiment_analysis.py:67 | the greedy `\d{1,2}` between word boundaries: no length matches iff the result is 0, otherwise a match of that length |
| Numeric.FirstNumberSpec | sentiment_analysis.py:67-75 | there is no number iff the pattern matches nowhere; a number found is the value of the leftmost match, and the leftmost match always gives the result whatever follows |
| Numeric.FirstNumberRange | sentiment_analysis.py:67-72 | a match has one or two digits, so its value is in 0..99 |
| Numeric.AnalyzeNumeric | sentiment_analysis.py:64-108 | None iff there is no match or the first match is outside 1..10; a result's score is that first value, in 1..10, and its category follows the question index |
| Numeric.LevelCutoffs | sentiment_analysis.py:78-108 | energy and stress use low/moderate/high, sleep and the default poor/moderate/good; the top level starts at 8 and moderate at 5 (7 and 4 for the default) |
| Numeric.LevelMonotone | sentiment_analysis.py:78-108 | a higher rating never gives a worse level |
| Numeric.NoDigitNoNumber | sentiment_analysis.py:67-70 | a text without digits gives no rating |
| Numeric.SingleDigitExamples | sentiment_analysis.py:78-92 | "8" is high energy, "3" is low stress, and "11" is refused |
| Numeric.NoNumberExample | sentiment_analysis.py:69-70 | a text without numbers gives None |
| Numeric.FirstNumberOnlyExample | sentiment_analysis.py:72-75 | "11, maybe 5" is refused: a later valid number does not rescue an out-of-range first one |
| Numeric.LongRunExample | sentiment_analysis.py:67-108 | "123 or 4" skips the three-digit run and reads the standalone 4 as general/moderate |
| Vocabulary.BaseLabel | sentiment_analysis.py:37-42 | the label derived from the polarity is always one of POSITIVE, NEGATIVE, NEUTRAL |
| Vocabulary.BaseLabelBands | sentiment_analysis.py:37-42 | the label is monotone in the polarity, and NEUTRAL is exactly the open band from -0.3 to 0.3 |
| Recommendation.Lines | sentiment_analysis.py:125-203 | every rule adds a block of exactly three sentences |
| Recommendation.Fired | sentiment_analysis.py:119-204 | between one and three rule blocks fire |
| Recommendation.ApplyNumericRules | sentiment_analysis.py:119-146 | the numeric step appends the block of the matching rule (stress/high, energy/low, sleep/poor) and sets its category, or changes nothing |
| Recommendation.ApplyEmotionRules | sentiment_analysis.py:148-179 | the emotion step applies the first of stress, tired, sad, happy-or-motivated present, or changes nothing |
| Recommendation.ApplyClosingRule | sentiment_analysis.py:181-204 | the closing step adds the NEGATIVE or POSITIVE block only to an empty pool, and the check-in block otherwise |
| Recommendation.BuildPool | sentiment_analysis.py:115-204 | the list built step by step equals `Pool` and the category equals `PoolCategory`; it holds 3, 6 or 9 sentences |
| Recommendation.PoolByRule | sentiment_analysis.py:119-204 | the pool is the numeric block, then the emotion block, then the closing block |
| Recommendation.PoolSize | sentiment_analysis.py:119-204 | the pool holds three sentences per fired rule, so it is never empty and has 3, 6 or 9 entries |
| Recommendation.PoolCategoryOutcome | sentiment_analysis.py:182-204 | the category is `mindfulness` iff neither the numeric nor the emotion rule fired and the base label is POSITIVE, and `breathing` otherwise |
| Recommendation.LinesOfLength | sentiment_analysis.py:125-203 | n blocks give 3n sentences |
| Recommendation.GenerateRecommendation | sentiment_analysis.py:206-224 | the recommendation is the wording of some sentence of the pool, the category is the pool's, and the tip is one of the eight catalog tips |
| Resolver.FinalLabel | sentiment_analysis.py:252-266 | STRESSED iff stress is detected or the rating is stress/high; otherwise TIRED iff tired or energy/low; then SAD, HAPPY, ANGRY, CALM in that order; otherwise the base label |
| Resolver.LabelAgreesWithPool | sentiment_analysis.py:119-179 | STRESSED iff a stress block is in the pool; TIRED, SAD and HAPPY answers have their block in the pool; an answer keeping its base label had no stress or low-energy block |
| Resolver.StressedAnswerRating | sentiment_analysis.py:67-100 | "I'm so stressed, about an 8 out of 10" as a stress answer is stress/high with score 8 |
| Resolver.StressedAnswerEmotion | sentiment_analysis.py:51-62 | the same answer is detected as stress |
| Resolver.StressedExample | sentiment_analysis.py:252-254 | that answer is labelled STRESSED, and both stress blocks fire |
| Comprehensive.ScanAnswers | sentiment_analysis.py:302-313 | the loop over the answers leaves exactly the readings `Collect(answers)` |
| Comprehensive.RecordEntry | sentiment_analysis.py:306-313 | one answer overwrites its own topic's entry and no other |
| Comprehensive.LastAnswerWins | sentiment_analysis.py:302-313 | the last answer on a topic decides that topic's entry, even if it carries no valid rating |
| Comprehensive.UnaskedTopicKept | sentiment_analysis.py:297-300 | a topic no question is on keeps its initial value (None, or "" for the workload) |
| Comprehensive.FirstTopicWins | sentiment_analysis.py:306-313 | a question that mentions both "sleep" and "energized" is filed as an energy question |
| Comprehensive.ConcernsOfSpec | sentiment_analysis.py:321-346 | a concern is listed iff its condition holds, at most once, in the order low energy, high stress, poor sleep, workload overwhelm; the workload is the only concern iff only its condition holds |
| Comprehensive.ReportedConcerns | sentiment_analysis.py:321-348 | the record's emotion list names a concern ("low energy", "high stress", ...) iff that concern's condition holds |
| Comprehensive.RecommendationStarts | sentiment_analysis.py:321-356 | when a concern is raised, the recommendation starts with the first concern's sentence |
| Comprehensive.RecommendationLists | sentiment_analysis.py:321-356 | each later concern's sentence follows the recommendation for the concerns before it and one space, so the sentences appear in concern order |
| Comprehensive.AdviceOfAppend | sentiment_analysis.py:321-346 | appending a concern appends exactly its sentence to the list to be joined |
| Comprehensive.DrowningIsNotOverwhelm | sentiment_analysis.py:344 | a workload answer "drowning" raises no concern: the word is not in the overwhelm list |
| Comprehensive.AddConcern | sentiment_analysis.py:324-346 | appending a concern and its sentence keeps the sentences in step with the concerns |
| Comprehensive.CheckRatings | sentiment_analysis.py:315-339 | after the three rating checks the concerns, label and category are the closed forms of the three conditions |
| Comprehensive.CheckWorkload | sentiment_analysis.py:341-348 | an overwhelming workload is appended, and selects mindfulness only when it is the sole concern |
| Comprehensive.RaiseConcerns | sentiment_analysis.py:315-348 | the concerns equal `ConcernsOf`, the sentences match them, and the category equals `ActivityFor` |
| Comprehensive.AnalyzeComprehensive | sentiment_analysis.py:293-384 | the returned record equals `ComprehensiveResult(answers, lookup)` |
| Comprehensive.LabelOutcome | sentiment_analysis.py:316-373 | POSITIVE (positive score) iff no concern is raised; STRESSED (negative score) iff high stress is; NEUTRAL otherwise |
| Comprehensive.TipOutcome | sentiment_analysis.py:359-366 | the tip follows the priority high stress, low energy, poor sleep, then the generic tip |
| Comprehensive.ActivityOutcome | sentiment_analysis.py:319-348 | `mindfulness` iff the workload is the only concern; `relaxation` iff sleep is poor and stress is high or energy is not low; `energy` iff energy is low and stress is not high; otherwise `breathing` |
| Engine.AnalyzeSentimentAndRecommend | sentiment_analysis.py:227-277 | question 4 with a non-empty answer list returns the aggregator's record; otherwise the label is the override chain, the score is the polarity, the confidence its magnitude, the recommendation a sentence of the pool, the tip from the catalog, and the activity the lookup of the pool's category |
| Engine.EmotionNames | sentiment_analysis.py:56-62 | the reported emotions are the tags of the detected emotions, in order |
| Engine.ContextualResponse | sentiment_analysis.py:399-410 | the default response is returned iff the question index is outside 0..5; inside it, that question's own response |
| Engine.ResponsesDistinct | sentiment_analysis.py:402-407 | different questions get different responses |

## Left out

- TextBlob's polarity and subjectivity scoring is an external library working in floating point. The polarity is a `real` parameter, and subjectivity is not modelled.
- The `round(..., 2)` of the score and the confidence is not modelled: the model reports the polarity and its magnitude unrounded.
- `random.choice` over the pool and over the tip catalog is a nondeterministic choice. Only membership is stated, not a distribution.
- The fallback string "Take care of yourself today." is kept in `Recommendation.GenerateRecommendation`. `Recommendation.PoolSize` shows that it is unreachable.
- `get_wellness_activity_by_category` is a database query that orders rows at random. It is the `lookup` parameter, an opaque function from category to optional activity.
- The `try/except` fallback records and the `print` calls are not modelled. The modelled paths raise nothing on well-typed inputs.
- Text handling is ASCII only. This covers `str.lower()`, the regular expression's `\d`, `\w` and `\b`, and substring search. Unicode case folding and Unicode digits are not modelled.
- `SLEEP_INDICATORS` and `WORKLOAD_INDICATORS` are never read by the source, so they are not modelled.
- The `'anxious' in emotions` test can never hold, because `detect_emotions` never yields that tag. It is dropped from `Recommendation.EmotionRule`.
- In the aggregator, the test `not primary_concerns` sits right after an append, so it can never hold. It is kept in `Comprehensive.CheckWorkload` but has no effect.
- `all_answers` is a sequence of question/answer pairs. A missing list (`None`) and a missing `question` or `answer` key are modelled as the empty sequence and the empty string.
- The `__main__` demo only prints, so it is not modelled.
- `app.py` and `db.py` (routing, sessions, SQL, the wellness score and the daily tip) are not part of this model.
- Engine.AnalyzeSentimentAndRecommend: the single-answer record's recommendation and tip are stated by membership only, because the source picks them at random.
