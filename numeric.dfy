/**
 * The numeric rating parser `analyze_numeric_response`: the first match of
 * the pattern `\b(\d{1,2})\b` is read as an integer, refused outside 1..10,
 * and bucketed into a level according to the question index.
 */
module Numeric {
  import opened Optional
  import opened Text

  datatype Category = EnergyCategory | StressCategory | SleepCategory | GeneralCategory

  datatype Level = Low | Moderate | High | Poor | Good

  datatype NumericSignal = NumericSignal(category: Category, level: Level, score: int)

  /**
   * The pattern `\b(\d{1,2})\b` matches at index `i` with `len` digits:
   * one or two digits, and no word character right before or right after.
   */
  predicate MatchAt(t: string, i: int, len: int)
  {
    && (len == 1 || len == 2)
    && 0 <= i && i + len <= |t|
    && (forall k :: i <= k < i + len ==> IsDigit(t[k]))
    && (i == 0 || !IsWordChar(t[i - 1]))
    && (i + len == |t| || !IsWordChar(t[i + len]))
  }

  /** At one index the pattern can match with one length only. */
  lemma MatchLengthUnique(t: string, i: int)
    ensures !(MatchAt(t, i, 1) && MatchAt(t, i, 2))
  {
    if MatchAt(t, i, 2) {
      assert IsDigit(t[i + 1]) && IsWordChar(t[i + 1]);
    }
  }

  /** The greedy `\d{1,2}`: two digits when they match, else one, else none. */
  function MatchLength(t: string, i: int): (len: nat)
    ensures len == 0 <==> forall l :: !MatchAt(t, i, l)
    ensures len > 0 ==> MatchAt(t, i, len)
  {
    if MatchAt(t, i, 2) then 2 else if MatchAt(t, i, 1) then 1 else 0
  }

  function DigitValue(c: char): int
  {
    c as int - '0' as int
  }

  /** `int(...)` of the `len` digits at `i`. */
  function ValueAt(t: string, i: int, len: int): int
    requires 0 <= i && i + len <= |t| && (len == 1 || len == 2)
  {
    if len == 1 then DigitValue(t[i]) else 10 * DigitValue(t[i]) + DigitValue(t[i + 1])
  }

  /** The regular-expression search from index `i` on. */
  function FirstNumberFrom(t: string, i: nat): Option<int>
    decreases |t| - i
  {
    if i >= |t| then None
    else
      var len := MatchLength(t, i);
      if len > 0 then Some(ValueAt(t, i, len)) else FirstNumberFrom(t, i + 1)
  }

  /** `numbers[0]` of `re.findall(r'\b(\d{1,2})\b', t)`, or None when there is none. */
  function FirstNumber(t: string): Option<int>
  {
    FirstNumberFrom(t, 0)
  }

  /** `i` is the leftmost index where the pattern matches with `len` digits. */
  ghost predicate FirstMatch(t: string, i: int, len: int)
  {
    MatchAt(t, i, len) && forall j, l :: 0 <= j < i ==> !MatchAt(t, j, l)
  }

  /** No number starts before the first digit. */
  lemma NoMatchBeforeDigit(t: string, p: int)
    requires p <= |t|
    requires forall j :: 0 <= j < p ==> !IsDigit(t[j])
    ensures forall j, l :: 0 <= j < p ==> !MatchAt(t, j, l)
  {
    forall j, l | 0 <= j < p ensures !MatchAt(t, j, l) {
      assert !IsDigit(t[j]);
    }
  }

  lemma {:induction false} FirstNumberFromSpec(t: string, i: nat)
    requires forall j, l :: 0 <= j < i ==> !MatchAt(t, j, l)
    ensures FirstNumberFrom(t, i).None? <==> forall j, l :: !MatchAt(t, j, l)
    ensures forall v :: FirstNumberFrom(t, i) == Some(v) ==>
      exists j, l :: FirstMatch(t, j, l) && v == ValueAt(t, j, l)
    ensures forall j, l :: FirstMatch(t, j, l) ==> FirstNumberFrom(t, i) == Some(ValueAt(t, j, l))
    decreases |t| - i
  {
    if i < |t| {
      var len := MatchLength(t, i);
      if len > 0 {
        assert FirstMatch(t, i, len);
        forall j, l | FirstMatch(t, j, l) ensures j == i && l == len {
          MatchLengthUnique(t, i);
        }
      } else {
        FirstNumberFromSpec(t, i + 1);
      }
    }
  }

  /**
   * The parser looks only at the leftmost match: there is no number exactly
   * when the pattern matches nowhere, and a number found is the value of the
   * leftmost match, whichever numbers follow it.
   */
  lemma FirstNumberSpec(t: string)
    ensures FirstNumber(t).None? <==> forall j, l :: !MatchAt(t, j, l)
    ensures forall v :: FirstNumber(t) == Some(v) ==>
      exists j, l :: FirstMatch(t, j, l) && v == ValueAt(t, j, l)
    ensures forall j, l :: FirstMatch(t, j, l) ==> FirstNumber(t) == Some(ValueAt(t, j, l))
  {
    FirstNumberFromSpec(t, 0);
  }

  /** A match is one or two decimal digits, so its value is at most 99. */
  lemma FirstNumberRange(t: string)
    ensures FirstNumber(t).Some? ==> 0 <= FirstNumber(t).value <= 99
  {
    FirstNumberSpec(t);
    if FirstNumber(t).Some? {
      var j, l :| FirstMatch(t, j, l) && FirstNumber(t).value == ValueAt(t, j, l);
      assert IsDigit(t[j]);
      if l == 2 {
        assert IsDigit(t[j + 1]);
      }
    }
  }

  /** The question index selects the interpretation of the rating. */
  function CategoryFor(questionIndex: int): Category
  {
    if questionIndex == 1 then EnergyCategory
    else if questionIndex == 2 then StressCategory
    else if questionIndex == 3 then SleepCategory
    else GeneralCategory
  }

  /** Cut-offs 8 and 5 for energy, stress and sleep; 7 and 4 otherwise. */
  function LevelFor(category: Category, score: int): Level
  {
    match category
    case EnergyCategory => if score >= 8 then High else if score >= 5 then Moderate else Low
    case StressCategory => if score >= 8 then High else if score >= 5 then Moderate else Low
    case SleepCategory => if score >= 8 then Good else if score >= 5 then Moderate else Poor
    case GeneralCategory => if score >= 7 then Good else if score >= 4 then Moderate else Poor
  }

  /** `analyze_numeric_response(text, question_index)`. */
  function AnalyzeNumeric(text: string, questionIndex: int): (r: Option<NumericSignal>)
    ensures r.None? <==> (FirstNumber(text).None? || !(1 <= FirstNumber(text).value <= 10))
    ensures r.Some? ==> 1 <= r.value.score <= 10 && Some(r.value.score) == FirstNumber(text)
    ensures r.Some? ==> r.value.category == CategoryFor(questionIndex)
  {
    match FirstNumber(text)
    case None => None
    case Some(score) =>
      if score < 1 || score > 10 then None
      else
        var category := CategoryFor(questionIndex);
        Some(NumericSignal(category, LevelFor(category, score), score))
  }

  /** The order of levels from worst to best, within each vocabulary. */
  function LevelRank(level: Level): nat
  {
    match level
    case Low => 0
    case Poor => 0
    case Moderate => 1
    case High => 2
    case Good => 2
  }

  /**
   * Level vocabularies and cut-offs: energy and stress use low/moderate/high
   * and sleep and the default use poor/moderate/good; the top level starts at
   * 8 (at 7 for the default) and moderate at 5 (at 4 for the default).
   */
  lemma LevelCutoffs(text: string, questionIndex: int)
    ensures var r := AnalyzeNumeric(text, questionIndex);
      r.Some? ==>
        var (c, lv, s) := (r.value.category, r.value.level, r.value.score);
        && (c == EnergyCategory || c == StressCategory ==> lv in {Low, Moderate, High})
        && (c == SleepCategory || c == GeneralCategory ==> lv in {Poor, Moderate, Good})
        && (c != GeneralCategory ==> (LevelRank(lv) == 2 <==> s >= 8) && (LevelRank(lv) == 0 <==> s < 5))
        && (c == GeneralCategory ==> (LevelRank(lv) == 2 <==> s >= 7) && (LevelRank(lv) == 0 <==> s < 4))
  {
  }

  /** A higher rating never gives a worse level. */
  lemma LevelMonotone(category: Category, s1: int, s2: int)
    requires s1 <= s2
    ensures LevelRank(LevelFor(category, s1)) <= LevelRank(LevelFor(category, s2))
  {
  }

  /** A text without digits carries no rating. */
  lemma NoDigitNoNumber(t: string)
    requires forall k :: 0 <= k < |t| ==> !IsDigit(t[k])
    ensures FirstNumber(t) == None
  {
    FirstNumberSpec(t);
    forall j, l ensures !MatchAt(t, j, l) {
      if 0 <= j < |t| {
        assert !IsDigit(t[j]);
      }
    }
  }

  /** Examples of the parser's behaviour. */
  lemma SingleDigitExamples()
    ensures AnalyzeNumeric("8", 1) == Some(NumericSignal(EnergyCategory, High, 8))
    ensures AnalyzeNumeric("3", 2) == Some(NumericSignal(StressCategory, Low, 3))
    ensures AnalyzeNumeric("11", 2) == None
  {
    assert MatchAt("8", 0, 1);
    assert MatchAt("3", 0, 1);
    assert MatchAt("11", 0, 2);
  }

  lemma NoNumberExample()
    ensures AnalyzeNumeric("no idea", 0) == None
  {
    NoDigitNoNumber("no idea");
  }

  /** A later valid number does not rescue an out-of-range first one. */
  lemma FirstNumberOnlyExample()
    ensures AnalyzeNumeric("11, maybe 5", 2) == None
  {
    var t := "11, maybe 5";
    assert FirstMatch(t, 0, 2);
    FirstNumberSpec(t);
  }

  /** A run of three digits is not a rating; the next standalone number is. */
  lemma LongRunExample()
    ensures AnalyzeNumeric("123 or 4", 0) == Some(NumericSignal(GeneralCategory, Moderate, 4))
  {
    var t := "123 or 4";
    assert MatchAt(t, 7, 1);
    assert t[0] == '1' && t[1] == '2' && t[2] == '3';
    forall j, l | 0 <= j < 7 ensures !MatchAt(t, j, l) {
      if j == 0 {
        assert IsWordChar(t[1]) && IsWordChar(t[2]);
      } else if j < 3 {
        assert IsWordChar(t[j - 1]);
      } else {
        assert !IsDigit(t[j]);
      }
    }
    assert FirstMatch(t, 7, 1);
    FirstNumberSpec(t);
  }

}
