/**
 * The whole-check-in aggregator `analyze_comprehensive_checkin`: the answers
 * are read into one rating per topic (the last matching answer wins), the
 * ratings raise concerns in a fixed order, and the concerns decide the
 * label, score, recommendation text, tip and activity category without any
 * randomness.
 */
module Comprehensive {
  import opened Optional
  import opened Text
  import opened Numeric
  import opened Vocabulary

  /** One question/answer pair of a check-in (a missing key reads as ""). */
  datatype Answer = Answer(question: string, answer: string)

  datatype Topic = EnergyTopic | StressTopic | SleepTopic | WorkloadTopic | OtherTopic

  /** The first of the four phrases the lower-cased question contains. */
  function TopicOf(question: string): Topic
  {
    var q := Lower(question);
    if Contains(q, "energized") then EnergyTopic
    else if Contains(q, "stress level") then StressTopic
    else if Contains(q, "sleep") then SleepTopic
    else if Contains(q, "workload") then WorkloadTopic
    else OtherTopic
  }

  /** The four variables the scan over the answers fills in. */
  datatype Readings = Readings(
    energy: Option<NumericSignal>, stress: Option<NumericSignal>, sleep: Option<NumericSignal>,
    workload: string)

  const NoReadings: Readings := Readings(None, None, None, "")

  /** The question index under which a topic's answer is parsed. */
  function TopicIndex(t: Topic): int
  {
    match t
    case EnergyTopic => 1
    case StressTopic => 2
    case SleepTopic => 3
    case _ => 0
  }

  /** What one answer does to the readings: it overwrites its topic's entry. */
  function Record(r: Readings, a: Answer): Readings
  {
    match TopicOf(a.question)
    case EnergyTopic => r.(energy := AnalyzeNumeric(a.answer, 1))
    case StressTopic => r.(stress := AnalyzeNumeric(a.answer, 2))
    case SleepTopic => r.(sleep := AnalyzeNumeric(a.answer, 3))
    case WorkloadTopic => r.(workload := a.answer)
    case OtherTopic => r
  }

  /** The readings after scanning `answers` in order. */
  function Collect(answers: seq<Answer>): Readings
  {
    if answers == [] then NoReadings
    else Record(Collect(answers[..|answers| - 1]), answers[|answers| - 1])
  }

  /** The value a topic's entry can hold. */
  datatype Entry = Rating(signal: Option<NumericSignal>) | Verbatim(text: string)

  function EntryOf(r: Readings, t: Topic): Entry
  {
    match t
    case EnergyTopic => Rating(r.energy)
    case StressTopic => Rating(r.stress)
    case SleepTopic => Rating(r.sleep)
    case _ => Verbatim(r.workload)
  }

  /** What an answer on topic `t` is read as. */
  function Parse(t: Topic, answer: string): Entry
  {
    if t == WorkloadTopic then Verbatim(answer) else Rating(AnalyzeNumeric(answer, TopicIndex(t)))
  }

  /** One answer overwrites its own topic's entry and no other. */
  lemma RecordEntry(r: Readings, a: Answer, t: Topic)
    requires t != OtherTopic
    ensures EntryOf(Record(r, a), t) ==
      if TopicOf(a.question) == t then Parse(t, a.answer) else EntryOf(r, t)
  {
  }

  /** A topic no question is on keeps its initial entry. */
  lemma {:induction false} UnaskedTopicKept(answers: seq<Answer>, t: Topic)
    requires t != OtherTopic
    requires forall i :: 0 <= i < |answers| ==> TopicOf(answers[i].question) != t
    ensures EntryOf(Collect(answers), t) == EntryOf(NoReadings, t)
  {
    if answers != [] {
      var init := answers[..|answers| - 1];
      assert forall i :: 0 <= i < |init| ==> init[i] == answers[i];
      UnaskedTopicKept(init, t);
      RecordEntry(Collect(init), answers[|answers| - 1], t);
    }
  }

  /**
   * The last answer whose question is on topic `t` decides its entry, even
   * when that answer carries no valid rating.
   */
  lemma {:induction false} LastAnswerWins(answers: seq<Answer>, t: Topic, i: int)
    requires t != OtherTopic
    requires 0 <= i < |answers| && TopicOf(answers[i].question) == t
    requires forall j :: i < j < |answers| ==> TopicOf(answers[j].question) != t
    ensures EntryOf(Collect(answers), t) == Parse(t, answers[i].answer)
    decreases |answers|
  {
    var init := answers[..|answers| - 1];
    assert forall j :: 0 <= j < |init| ==> init[j] == answers[j];
    RecordEntry(Collect(init), answers[|answers| - 1], t);
    if i < |answers| - 1 {
      LastAnswerWins(init, t, i);
    }
  }

  datatype Concern = LowEnergy | HighStress | PoorSleep | WorkloadOverwhelm

  /** The words that mark a workload answer as overwhelming. */
  const OverwhelmWords: seq<string> := ["overwhelming", "too much", "crazy", "insane", "impossible"]

  /** The condition under which each concern is raised. */
  predicate Raised(r: Readings, c: Concern)
  {
    match c
    case LowEnergy => r.energy.Some? && r.energy.value.level == Low
    case HighStress => r.stress.Some? && r.stress.value.level == High
    case PoorSleep => r.sleep.Some? && r.sleep.value.level == Poor
    case WorkloadOverwhelm => Overwhelmed(r.workload)
  }

  /** A non-empty workload answer that contains one of the overwhelm words. */
  predicate Overwhelmed(workload: string)
  {
    workload != "" && ContainsAny(Lower(workload), OverwhelmWords)
  }

  function ConcernRank(c: Concern): nat
  {
    match c
    case LowEnergy => 0
    case HighStress => 1
    case PoorSleep => 2
    case WorkloadOverwhelm => 3
  }

  /** The concern `c` alone when `b` holds, nothing otherwise. */
  function Flagged(b: bool, c: Concern): seq<Concern>
  {
    if b then [c] else []
  }

  /** The concerns raised by the readings, in the order they are examined. */
  function ConcernsOf(r: Readings): seq<Concern>
  {
    Flagged(Raised(r, LowEnergy), LowEnergy) + Flagged(Raised(r, HighStress), HighStress)
    + Flagged(Raised(r, PoorSleep), PoorSleep) + Flagged(Raised(r, WorkloadOverwhelm), WorkloadOverwhelm)
  }

  /**
   * A concern is listed exactly when its condition holds, each at most
   * once, in the order low energy, high stress, poor sleep, workload.
   */
  lemma ConcernsOfSpec(r: Readings)
    ensures forall c :: c in ConcernsOf(r) <==> Raised(r, c)
    ensures forall i, j :: 0 <= i < j < |ConcernsOf(r)| ==>
      ConcernRank(ConcernsOf(r)[i]) < ConcernRank(ConcernsOf(r)[j])
    ensures ConcernsOf(r) == [WorkloadOverwhelm] <==>
      Raised(r, WorkloadOverwhelm) && !Raised(r, LowEnergy) && !Raised(r, HighStress) && !Raised(r, PoorSleep)
  {
  }

  function ConcernName(c: Concern): string
  {
    match c
    case LowEnergy => "low energy"
    case HighStress => "high stress"
    case PoorSleep => "poor sleep"
    case WorkloadOverwhelm => "workload overwhelm"
  }

  /** The concern names the record reports, one per concern. */
  function ConcernNames(cs: seq<Concern>): seq<string>
  {
    seq(|cs|, i requires 0 <= i < |cs| => ConcernName(cs[i]))
  }

  /** The one sentence each concern contributes. */
  function Advice(c: Concern): string
  {
    match c
    case LowEnergy => "Your energy seems low. Consider a quick movement break or some natural light exposure."
    case HighStress => "Your stress level is elevated. Let's focus on relaxation techniques."
    case PoorSleep => "Poor sleep affects everything. Consider establishing a calming bedtime routine."
    case WorkloadOverwhelm => "Your workload seems overwhelming. Consider breaking tasks into smaller chunks."
  }

  const BalancedAdvice: string := "Thank you for your check-in. You seem to be in a balanced state today."

  /** The sentences to join, one per concern. */
  function AdviceOf(cs: seq<Concern>): seq<string>
  {
    seq(|cs|, i requires 0 <= i < |cs| => Advice(cs[i]))
  }

  /** The recommendation: the concerns' sentences joined by spaces. */
  function RecommendationFor(cs: seq<Concern>): string
  {
    if cs == [] then BalancedAdvice else Join(" ", AdviceOf(cs))
  }

  /** POSITIVE with no concern, STRESSED with high stress, NEUTRAL otherwise. */
  function LabelFor(cs: seq<Concern>): Label
  {
    if cs == [] then Positive else if HighStress in cs then Stressed else Neutral
  }

  function ScoreFor(l: Label): real
  {
    if l == Positive then 0.5 else if l == Stressed then -0.3 else 0.0
  }

  const StressTip: string := "\U{1F9D8} Try the 4-7-8 breathing technique: Inhale for 4, hold for 7, exhale for 8."
  const EnergyTip: string := "\U{26A1} A 5-minute walk or some gentle stretching can boost your energy naturally."
  const SleepTip: string := "\U{1F319} Create a relaxing bedtime routine and avoid screens 1 hour before sleep."
  const GenericTip: string := "\U{1F49A} Keep up the great work! Regular check-ins like this are powerful for maintaining wellness."

  /** The tip of the most pressing concern: stress, then energy, then sleep. */
  function TipFor(cs: seq<Concern>): string
  {
    if HighStress in cs then StressTip
    else if LowEnergy in cs then EnergyTip
    else if PoorSleep in cs then SleepTip
    else GenericTip
  }

  /**
   * The activity category in closed form: `mindfulness` when the workload is
   * the only concern; `relaxation` for poor sleep unless low energy is raised
   * without high stress; `energy` for low energy without high stress;
   * `breathing` otherwise.
   */
  function ActivityFor(cs: seq<Concern>): ActivityCategory
  {
    if cs == [WorkloadOverwhelm] then Mindfulness
    else if PoorSleep in cs && (HighStress in cs || LowEnergy !in cs) then Relaxation
    else if LowEnergy in cs && HighStress !in cs then Energy
    else Breathing
  }

  /** The record the aggregator returns for `answers`. */
  function ComprehensiveResult(answers: seq<Answer>, lookup: ActivityCategory -> Option<WellnessActivity>): CheckinResult
  {
    var r := Collect(answers);
    var cs := ConcernsOf(r);
    var l := LabelFor(cs);
    CheckinResult(l, ScoreFor(l), 0.8, ConcernNames(cs), RecommendationFor(cs), TipFor(cs),
                  lookup(ActivityFor(cs)), PerTopic(r.energy, r.stress, r.sleep))
  }

  /** `analyze_comprehensive_checkin` lines 302-313: scan the answers in order. */
  method ScanAnswers(answers: seq<Answer>) returns (readings: Readings)
    ensures readings == Collect(answers)
  {
    var energyScore: Option<NumericSignal> := None;
    var stressScore: Option<NumericSignal> := None;
    var sleepScore: Option<NumericSignal> := None;
    var workloadText := "";
    for k := 0 to |answers|
      invariant Readings(energyScore, stressScore, sleepScore, workloadText) == Collect(answers[..k])
    {
      var question := answers[k].question;
      var answerText := answers[k].answer;
      if Contains(Lower(question), "energized") {
        energyScore := AnalyzeNumeric(answerText, 1);
      } else if Contains(Lower(question), "stress level") {
        stressScore := AnalyzeNumeric(answerText, 2);
      } else if Contains(Lower(question), "sleep") {
        sleepScore := AnalyzeNumeric(answerText, 3);
      } else if Contains(Lower(question), "workload") {
        workloadText := answerText;
      }
      assert answers[..k + 1][..k] == answers[..k];
    }
    assert answers[..|answers|] == answers;
    readings := Readings(energyScore, stressScore, sleepScore, workloadText);
  }

  /** Records a raised concern together with its sentence. */
  method AddConcern(concerns: seq<Concern>, recommendations: seq<string>, c: Concern)
    returns (grown: seq<Concern>, sentences: seq<string>)
    requires recommendations == AdviceOf(concerns)
    ensures grown == concerns + [c]
    ensures sentences == AdviceOf(grown)
  {
    grown := concerns + [c];
    sentences := recommendations + [Advice(c)];
    AdviceOfAppend(concerns, c);
  }

  /** One more concern adds its sentence at the end. */
  lemma AdviceOfAppend(cs: seq<Concern>, c: Concern)
    ensures AdviceOf(cs + [c]) == AdviceOf(cs) + [Advice(c)]
  {
    var longer, wanted := AdviceOf(cs + [c]), AdviceOf(cs) + [Advice(c)];
    forall i | 0 <= i < |cs| + 1 ensures longer[i] == wanted[i] {
      if i < |cs| {
        assert (cs + [c])[i] == cs[i];
      }
    }
    assert |longer| == |wanted|;
  }

  /** The label the concern phase leaves before the balanced case is checked. */
  function InterimLabel(cs: seq<Concern>): Label
  {
    if HighStress in cs then Stressed else Neutral
  }

  /**
   * `analyze_comprehensive_checkin` lines 315-348: examine the four
   * readings in order, recording each raised concern and its sentence and
   * updating the label and the activity category as each one demands.
   */
  method RaiseConcerns(readings: Readings)
    returns (primaryConcerns: seq<Concern>, recommendations: seq<string>,
             activityCategory: ActivityCategory, overallSentiment: Label)
    ensures primaryConcerns == ConcernsOf(readings)
    ensures recommendations == AdviceOf(primaryConcerns)
    ensures activityCategory == ActivityFor(primaryConcerns)
    ensures overallSentiment == InterimLabel(primaryConcerns)
  {
    ghost var e, s, p, w := Raised(readings, LowEnergy), Raised(readings, HighStress),
                            Raised(readings, PoorSleep), Raised(readings, WorkloadOverwhelm);
    assert w == Overwhelmed(readings.workload);
    assert ConcernsOf(readings) == Flagged(e, LowEnergy) + Flagged(s, HighStress) + Flagged(p, PoorSleep) + Flagged(w, WorkloadOverwhelm);
    ConcernsOfSpec(readings);
    ActivityOutcome(readings);
    primaryConcerns, recommendations, activityCategory, overallSentiment := CheckRatings(readings);
    assert primaryConcerns == [] <==> !e && !s && !p;
    primaryConcerns, recommendations, activityCategory :=
      CheckWorkload(readings.workload, primaryConcerns, recommendations, activityCategory);
  }

  /**
   * `analyze_comprehensive_checkin` lines 315-339: the three rating
   * checks; high stress resets the category to breathing, and poor sleep
   * chooses relaxation only when the category is still breathing.
   */
  method CheckRatings(readings: Readings)
    returns (primaryConcerns: seq<Concern>, recommendations: seq<string>,
             activityCategory: ActivityCategory, overallSentiment: Label)
    ensures var (e, s, p) := (Raised(readings, LowEnergy), Raised(readings, HighStress), Raised(readings, PoorSleep));
      && primaryConcerns == Flagged(e, LowEnergy) + Flagged(s, HighStress) + Flagged(p, PoorSleep)
      && recommendations == AdviceOf(primaryConcerns)
      && overallSentiment == (if s then Stressed else Neutral)
      && activityCategory == (if p && (s || !e) then Relaxation else if e && !s then Energy else Breathing)
  {
    ghost var lowEnergy, highStress := Raised(readings, LowEnergy), Raised(readings, HighStress);
    overallSentiment := Neutral;
    primaryConcerns := [];
    recommendations := [];
    activityCategory := Breathing;

    if readings.energy.Some? && readings.energy.value.level == Low {
      primaryConcerns, recommendations := AddConcern(primaryConcerns, recommendations, LowEnergy);
      activityCategory := Energy;
    }
    if readings.stress.Some? && readings.stress.value.level == High {
      primaryConcerns, recommendations := AddConcern(primaryConcerns, recommendations, HighStress);
      activityCategory := Breathing;
      overallSentiment := Stressed;
    }
    assert primaryConcerns == Flagged(lowEnergy, LowEnergy) + Flagged(highStress, HighStress);
    assert activityCategory == if lowEnergy && !highStress then Energy else Breathing;
    if readings.sleep.Some? && readings.sleep.value.level == Poor {
      primaryConcerns, recommendations := AddConcern(primaryConcerns, recommendations, PoorSleep);
      if activityCategory == Breathing {
        activityCategory := Relaxation;
      }
    }
  }

  /**
   * `analyze_comprehensive_checkin` lines 341-348: an overwhelming workload
   * is recorded, and chooses mindfulness when it is the only concern.
   */
  method CheckWorkload(workloadText: string, concerns: seq<Concern>, recommendations: seq<string>,
                       activityCategory: ActivityCategory)
    returns (grown: seq<Concern>, sentences: seq<string>, activity: ActivityCategory)
    requires recommendations == AdviceOf(concerns)
    ensures var overwhelmed := Overwhelmed(workloadText);
      && grown == concerns + Flagged(overwhelmed, WorkloadOverwhelm)
      && sentences == AdviceOf(grown)
      && activity == (if overwhelmed && concerns == [] then Mindfulness else activityCategory)
  {
    grown, sentences, activity := concerns, recommendations, activityCategory;
    if workloadText != "" {
      var workloadLower := Lower(workloadText);
      if ContainsAny(workloadLower, OverwhelmWords) {
        grown, sentences := AddConcern(grown, sentences, WorkloadOverwhelm);
        if grown == [] || grown == [WorkloadOverwhelm] {
          activity := Mindfulness;
        }
      }
    }
  }

  /**
   * `analyze_comprehensive_checkin` lines 296-384: scan the answers, raise
   * the concerns, fall back to the balanced sentence, join the sentences
   * and pick the tip by priority.
   */
  method AnalyzeComprehensive(answers: seq<Answer>, lookup: ActivityCategory -> Option<WellnessActivity>)
    returns (result: CheckinResult)
    ensures result == ComprehensiveResult(answers, lookup)
  {
    var readings := ScanAnswers(answers);
    var primaryConcerns, recommendations, activityCategory, overallSentiment := RaiseConcerns(readings);

    if recommendations == [] {
      recommendations := recommendations + [BalancedAdvice];
      overallSentiment := Positive;
    }
    var mainRecommendation := Join(" ", recommendations);

    var wellnessTip;
    if HighStress in primaryConcerns {
      wellnessTip := StressTip;
    } else if LowEnergy in primaryConcerns {
      wellnessTip := EnergyTip;
    } else if PoorSleep in primaryConcerns {
      wellnessTip := SleepTip;
    } else {
      wellnessTip := GenericTip;
    }

    var activity := lookup(activityCategory);
    var score := if overallSentiment == Positive then 0.5 else if overallSentiment == Stressed then -0.3 else 0.0;
    result := CheckinResult(overallSentiment, score, 0.8, ConcernNames(primaryConcerns), mainRecommendation,
                            wellnessTip, activity, PerTopic(readings.energy, readings.stress, readings.sleep));
  }

  /**
   * The label and score follow the concerns: POSITIVE, with a positive
   * score, exactly when no concern is raised; STRESSED, with a negative
   * score, exactly when high stress is; NEUTRAL, scored 0, otherwise.
   */
  lemma LabelOutcome(r: Readings)
    ensures var l := LabelFor(ConcernsOf(r));
      && (l == Positive <==> forall c :: !Raised(r, c))
      && (l == Stressed <==> Raised(r, HighStress))
      && (l != Positive && l != Stressed ==> l == Neutral)
      && (ScoreFor(l) > 0.0 <==> l == Positive)
      && (ScoreFor(l) < 0.0 <==> l == Stressed)
  {
    ConcernsOfSpec(r);
    if ConcernsOf(r) != [] {
      assert Raised(r, ConcernsOf(r)[0]);
    }
  }

  /**
   * The tip goes by priority: high stress, then low energy, then poor
   * sleep, then the generic tip.
   */
  lemma TipOutcome(r: Readings)
    ensures var tip := TipFor(ConcernsOf(r));
      && (Raised(r, HighStress) ==> tip == StressTip)
      && (!Raised(r, HighStress) && Raised(r, LowEnergy) ==> tip == EnergyTip)
      && (!Raised(r, HighStress) && !Raised(r, LowEnergy) && Raised(r, PoorSleep) ==> tip == SleepTip)
      && (!Raised(r, HighStress) && !Raised(r, LowEnergy) && !Raised(r, PoorSleep) ==> tip == GenericTip)
  {
    ConcernsOfSpec(r);
  }

  /**
   * The activity category: `mindfulness` exactly when the workload is the
   * only concern; `relaxation` exactly when sleep is poor and either stress
   * is high or energy is not low; `energy` exactly when energy is low and
   * stress is not high; `breathing` in every other case.
   */
  lemma ActivityOutcome(r: Readings)
    ensures var (a, e, s, p, w) := (ActivityFor(ConcernsOf(r)), Raised(r, LowEnergy), Raised(r, HighStress),
                                    Raised(r, PoorSleep), Raised(r, WorkloadOverwhelm));
      && (a == Mindfulness <==> w && !e && !s && !p)
      && (a == Relaxation <==> p && (s || !e))
      && (a == Energy <==> e && !s)
      && (a == Breathing <==> !(w && !e && !s && !p) && !(p && (s || !e)) && !(e && !s))
  {
    ConcernsOfSpec(r);
  }

  /**
   * "drowning" is not one of the overwhelm words: a workload answer that
   * says only that raises no concern.
   */
  lemma DrowningIsNotOverwhelm()
    ensures !Overwhelmed("drowning")
  {
    var t := Lower("drowning");
    assert t == "drowning";
    forall k, i | 0 <= k < |OverwhelmWords| ensures !OccursAt(t, OverwhelmWords[k], i) {
      var w := OverwhelmWords[k];
      if 0 <= i && i + |w| <= |t| {
        assert t[i] != w[0];
        assert t[i..i + |w|][0] != w[0];
      }
    }
  }

  const MixedQuestion: string := "Did sleep leave you energized?"

  /**
   * A question is filed under the first phrase it contains: one that
   * mentions sleep and "energized" is an energy question.
   */
  lemma FirstTopicWins()
    ensures Contains(Lower(MixedQuestion), "sleep")
    ensures TopicOf(MixedQuestion) == EnergyTopic
  {
    MixedMentionsSleep();
    MixedMentionsEnergized();
  }

  lemma MixedMentionsSleep()
    ensures OccursAt(Lower(MixedQuestion), "sleep", 4)
  {
    var q := Lower(MixedQuestion);
    assert q[4] == 's' && q[5] == 'l' && q[6] == 'e' && q[7] == 'e' && q[8] == 'p';
    assert q[4..9] == "sleep";
  }

  lemma MixedMentionsEnergized()
    ensures OccursAt(Lower(MixedQuestion), "energized", 20)
  {
    var q := Lower(MixedQuestion);
    assert q[20] == 'e' && q[21] == 'n' && q[22] == 'e' && q[23] == 'r' && q[24] == 'g';
    assert q[25] == 'i' && q[26] == 'z' && q[27] == 'e' && q[28] == 'd';
    assert q[20..29] == "energized";
  }

  /**
   * The reported emotions name exactly the raised concerns: a concern's
   * name is listed iff its condition holds.
   */
  lemma ReportedConcerns(r: Readings)
    ensures forall c :: ConcernName(c) in ConcernNames(ConcernsOf(r)) <==> Raised(r, c)
  {
    ConcernsOfSpec(r);
    var cs := ConcernsOf(r);
    forall c | ConcernName(c) in ConcernNames(cs) ensures Raised(r, c) {
      var i :| 0 <= i < |cs| && ConcernNames(cs)[i] == ConcernName(c);
      if cs[i] != c {
        ConcernNamesDiffer(cs[i], c);
      }
    }
    forall c | Raised(r, c) ensures ConcernName(c) in ConcernNames(cs) {
      var i :| 0 <= i < |cs| && cs[i] == c;
      assert ConcernNames(cs)[i] == ConcernName(c);
    }
  }

  /** No two concerns share a name: the names differ in their first letter. */
  lemma ConcernNamesDiffer(c: Concern, d: Concern)
    requires c != d
    ensures ConcernName(c) != ConcernName(d)
  {
    assert ConcernName(c)[0] != ConcernName(d)[0];
  }

  /** The sentences of the first `k` concerns, and the sentence of concern `k`. */
  lemma AdviceOfPrefix(cs: seq<Concern>, k: int)
    requires 0 <= k < |cs|
    ensures AdviceOf(cs)[..k] == AdviceOf(cs[..k])
    ensures AdviceOf(cs)[k] == Advice(cs[k])
  {
  }

  /** The first concern's sentence starts the recommendation. */
  lemma RecommendationStarts(cs: seq<Concern>)
    requires cs != []
    ensures Advice(cs[0]) <= RecommendationFor(cs)
  {
    assert AdviceOf(cs)[0] == Advice(cs[0]);
  }

  /**
   * Every later concern's sentence is in the recommendation, in concern
   * order: the sentence of concern `k` follows the recommendation for the
   * concerns before it and one space.
   */
  lemma RecommendationLists(cs: seq<Concern>, k: int)
    requires 0 < k < |cs|
    ensures OccursAt(RecommendationFor(cs), " ", |RecommendationFor(cs[..k])|)
    ensures OccursAt(RecommendationFor(cs), Advice(cs[k]), |RecommendationFor(cs[..k])| + 1)
  {
    AdviceOfPrefix(cs, k);
    JoinPlacement(" ", AdviceOf(cs), k);
  }

}
