/**
 * The emotion lexicon and the keyword matcher `detect_emotions`: the
 * lower-cased text is searched for each emotion's keywords in the fixed
 * table order, and an emotion is reported once, as soon as one of its
 * keywords occurs in the text.
 */
module Emotions {
  import opened Text

  datatype Emotion = Stress | Tired | Sad | Angry | Happy | Motivated | Calm

  /** The iteration order of the keyword table. */
  const AllEmotions: seq<Emotion> := [Stress, Tired, Sad, Angry, Happy, Motivated, Calm]

  /** Position of an emotion in the keyword table. */
  function Rank(e: Emotion): nat
  {
    match e
    case Stress => 0
    case Tired => 1
    case Sad => 2
    case Angry => 3
    case Happy => 4
    case Motivated => 5
    case Calm => 6
  }

  /** The tag the engine reports for an emotion. */
  function Name(e: Emotion): string
  {
    match e
    case Stress => "stress"
    case Tired => "tired"
    case Sad => "sad"
    case Angry => "angry"
    case Happy => "happy"
    case Motivated => "motivated"
    case Calm => "calm"
  }

  /** The keyword table, in its own order (all entries are lower case). */
  function Keywords(e: Emotion): seq<string>
  {
    match e
    case Stress => ["stress", "stressed", "pressure", "overwhelm", "burden", "anxiety", "anxious", "worry", "tense"]
    case Tired => ["tired", "exhausted", "fatigue", "sleepy", "drained", "worn out", "low energy"]
    case Sad => ["sad", "depressed", "down", "upset", "disappointed", "lonely", "empty", "hopeless"]
    case Angry => ["angry", "frustrated", "mad", "irritated", "annoyed", "furious", "rage"]
    case Happy => ["happy", "joy", "excited", "great", "amazing", "wonderful", "fantastic", "awesome", "good"]
    case Motivated => ["motivated", "energetic", "productive", "focused", "determined", "inspired"]
    case Calm => ["calm", "peaceful", "relaxed", "serene", "content", "balanced", "centered"]
  }

  /** Some keyword of `e` occurs in the (already lower-cased) text. */
  predicate Matches(lowered: string, e: Emotion)
  {
    ContainsAny(lowered, Keywords(e))
  }

  /** The emotions of `es` that match, kept in the order of `es`. */
  function DetectIn(es: seq<Emotion>, lowered: string): seq<Emotion>
  {
    if es == [] then []
    else
      var last := es[|es| - 1];
      DetectIn(es[..|es| - 1], lowered) + (if Matches(lowered, last) then [last] else [])
  }

  /** What `detect_emotions(text)` returns. */
  function Detected(text: string): seq<Emotion>
  {
    DetectIn(AllEmotions, Lower(text))
  }

  /** Tags in strictly increasing table position: table order, no repeats. */
  predicate InTableOrder(es: seq<Emotion>)
  {
    forall i, j :: 0 <= i < j < |es| ==> Rank(es[i]) < Rank(es[j])
  }

  lemma {:induction false} DetectInSpec(es: seq<Emotion>, lowered: string)
    requires InTableOrder(es)
    ensures forall e :: e in DetectIn(es, lowered) <==> e in es && Matches(lowered, e)
    ensures InTableOrder(DetectIn(es, lowered))
  {
    if es != [] {
      var init := es[..|es| - 1];
      var last := es[|es| - 1];
      assert es == init + [last];
      DetectInSpec(init, lowered);
      assert forall e :: e in init ==> Rank(e) < Rank(last);
      InTableOrderAppend(DetectIn(init, lowered), last);
    }
  }

  /** Appending an emotion ranked after every listed one keeps table order. */
  lemma InTableOrderAppend(es: seq<Emotion>, e: Emotion)
    requires InTableOrder(es)
    requires forall x :: x in es ==> Rank(x) < Rank(e)
    ensures InTableOrder(es + [e])
  {
  }

  /**
   * An emotion is detected exactly when one of its keywords is a substring
   * of the lower-cased text, and the result lists each emotion at most once,
   * in table order.
   */
  lemma DetectedSpec(text: string)
    ensures forall e :: e in Detected(text) <==>
      exists k :: 0 <= k < |Keywords(e)| && Contains(Lower(text), Keywords(e)[k])
    ensures InTableOrder(Detected(text))
    ensures forall i, j :: 0 <= i < j < |Detected(text)| ==> Detected(text)[i] != Detected(text)[j]
  {
    DetectInSpec(AllEmotions, Lower(text));
    forall e ensures e in AllEmotions {
      assert AllEmotions[Rank(e)] == e;
    }
  }

  /**
   * The inner loop of `detect_emotions`: scan the keywords of one emotion
   * and stop at the first one that occurs in the text.
   */
  method AnyKeywordOccurs(lowered: string, keywords: seq<string>) returns (found: bool)
    ensures found <==> exists k :: 0 <= k < |keywords| && Contains(lowered, keywords[k])
  {
    found := false;
    var k := 0;
    while k < |keywords|
      invariant 0 <= k <= |keywords|
      invariant forall m :: 0 <= m < k ==> !Contains(lowered, keywords[m])
      invariant !found
    {
      if Contains(lowered, keywords[k]) {
        found := true;
        break;
      }
      k := k + 1;
    }
  }

  /**
   * The outer loop of `detect_emotions` over the rows `es` of the table,
   * appending each emotion one of whose keywords occurs.
   */
  method DetectInTable(es: seq<Emotion>, lowered: string) returns (detected: seq<Emotion>)
    ensures detected == DetectIn(es, lowered)
  {
    detected := [];
    var n := 0;
    while n < |es|
      invariant 0 <= n <= |es|
      invariant detected == DetectIn(es[..n], lowered)
    {
      var emotion := es[n];
      var found := AnyKeywordOccurs(lowered, Keywords(emotion));
      if found {
        detected := detected + [emotion];
      }
      assert es[..n + 1][..n] == es[..n];
      n := n + 1;
    }
    assert es[..n] == es;
  }

  /** `detect_emotions`: every emotion of the table whose keywords occur, in table order. */
  method DetectEmotions(text: string) returns (detected: seq<Emotion>)
    ensures detected == Detected(text)
    ensures forall e :: e in detected <==>
      exists k :: 0 <= k < |Keywords(e)| && Contains(Lower(text), Keywords(e)[k])
    ensures InTableOrder(detected)
  {
    var lowered := Lower(text);
    detected := DetectInTable(AllEmotions, lowered);
    DetectedSpec(text);
  }

}
