/**
 * The string operations the engine relies on: ASCII lower-casing,
 * substring containment (Python's `pat in text`), "any of these words",
 * the regular-expression word characters and `sep.join(xs)`.
 */
module Text {

  /** ASCII lower-casing of one character (`str.lower` restricted to ASCII). */
  function LowerChar(c: char): char
  {
    if 'A' <= c <= 'Z' then (c as int + 32) as char else c
  }

  function Lower(s: string): string
  {
    seq(|s|, i requires 0 <= i < |s| => LowerChar(s[i]))
  }

  /** `\w` of a regular expression, restricted to ASCII. */
  predicate IsWordChar(c: char)
  {
    ('a' <= c <= 'z') || ('A' <= c <= 'Z') || ('0' <= c <= '9') || c == '_'
  }

  predicate IsDigit(c: char)
  {
    '0' <= c <= '9'
  }

  /** `pat` occurs in `text` starting at index `i`. */
  predicate OccursAt(text: string, pat: string, i: int)
  {
    0 <= i && i + |pat| <= |text| && text[i..i + |pat|] == pat
  }

  lemma OccursShift(text: string, pat: string, i: int)
    requires |text| > 0 && i >= 0
    ensures OccursAt(text[1..], pat, i) <==> OccursAt(text, pat, i + 1)
  {
    if 0 <= i && i + |pat| <= |text[1..]| {
      assert text[1..][i..i + |pat|] == text[i + 1..i + 1 + |pat|];
    }
  }

  /** Python's `pat in text`: a left-to-right search. */
  function Contains(text: string, pat: string): (b: bool)
    ensures b <==> exists i :: OccursAt(text, pat, i)
    decreases |text|
  {
    if |pat| > |text| then
      false
    else if text[..|pat|] == pat then
      assert OccursAt(text, pat, 0);
      true
    else
      assert !OccursAt(text, pat, 0);
      var rest := Contains(text[1..], pat);
      assert rest ==> exists i :: OccursAt(text, pat, i) by {
        if rest {
          var i :| OccursAt(text[1..], pat, i);
          OccursShift(text, pat, i);
        }
      }
      assert (exists i :: OccursAt(text, pat, i)) ==> rest by {
        if exists i :: OccursAt(text, pat, i) {
          var i :| OccursAt(text, pat, i);
          assert i >= 1;
          OccursShift(text, pat, i - 1);
        }
      }
      rest
  }

  /** Python's `any(w in text for w in words)`. */
  function ContainsAny(text: string, words: seq<string>): (b: bool)
    ensures b <==> exists k :: 0 <= k < |words| && Contains(text, words[k])
  {
    if words == [] then
      false
    else if Contains(text, words[0]) then
      true
    else
      var rest := ContainsAny(text, words[1..]);
      assert forall k :: 1 <= k < |words| ==> words[k] == words[1..][k - 1];
      rest
  }

  /** Python's `sep.join(xs)`. */
  function Join(sep: string, xs: seq<string>): (r: string)
    ensures |xs| == 1 ==> r == xs[0]
    ensures |xs| > 0 ==> xs[0] <= r
    ensures |xs| > 0 ==> |xs[|xs| - 1]| <= |r| && r[|r| - |xs[|xs| - 1]|..] == xs[|xs| - 1]
  {
    if xs == [] then ""
    else if |xs| == 1 then xs[0]
    else Join(sep, xs[..|xs| - 1]) + sep + xs[|xs| - 1]
  }

  function TotalLength(xs: seq<string>): nat
  {
    if xs == [] then 0 else TotalLength(xs[..|xs| - 1]) + |xs[|xs| - 1]|
  }

  /** The join is as long as its parts plus one separator between each two. */
  lemma {:induction false} JoinLength(sep: string, xs: seq<string>)
    requires |xs| > 0
    ensures |Join(sep, xs)| == TotalLength(xs) + |sep| * (|xs| - 1)
  {
    if |xs| > 1 {
      JoinLength(sep, xs[..|xs| - 1]);
    }
  }

  /** The join of the first `m` parts is a prefix of the join of all of them. */
  lemma {:induction false} JoinPrefix(sep: string, xs: seq<string>, m: int)
    requires 1 <= m <= |xs|
    ensures Join(sep, xs[..m]) <= Join(sep, xs)
    decreases |xs|
  {
    var n := |xs|;
    if m == n {
      assert xs[..m] == xs;
    } else {
      var init := xs[..n - 1];
      assert init[..m] == xs[..m];
      JoinPrefix(sep, init, m);
      JoinUnfold(sep, xs);
      PrefixExtends(Join(sep, xs[..m]), Join(sep, init), sep + xs[n - 1]);
    }
  }

  /** A join of two or more parts ends with a separator and the last part. */
  lemma JoinUnfold(sep: string, xs: seq<string>)
    requires |xs| > 1
    ensures Join(sep, xs) == Join(sep, xs[..|xs| - 1]) + (sep + xs[|xs| - 1])
  {
    var front := Join(sep, xs[..|xs| - 1]);
    assert front + sep + xs[|xs| - 1] == front + (sep + xs[|xs| - 1]);
  }

  /** A prefix of `b` is a prefix of anything `b` starts. */
  lemma PrefixExtends(a: string, b: string, c: string)
    requires a <= b
    ensures a <= b + c
  {
    assert (b + c)[..|b|] == b;
  }

  /**
   * Where each later part lands in `sep.join(xs)`: part `k` comes right
   * after the join of the parts before it and one separator (the first
   * part starts the result, by `Join`'s own contract).
   */
  lemma JoinPlacement(sep: string, xs: seq<string>, k: int)
    requires 0 < k < |xs|
    ensures OccursAt(Join(sep, xs), sep, |Join(sep, xs[..k])|)
    ensures OccursAt(Join(sep, xs), xs[k], |Join(sep, xs[..k])| + |sep|)
  {
    JoinStep(sep, xs, k);
    JoinPrefix(sep, xs, k + 1);
    PlacedInPrefix(Join(sep, xs[..k]), sep, xs[k], Join(sep, xs));
  }

  /** When `a + b + c` starts `r`, `b` is in `r` at `|a|` and `c` right after it. */
  lemma PlacedInPrefix(a: string, b: string, c: string, r: string)
    requires a + b + c <= r
    ensures OccursAt(r, b, |a|)
    ensures OccursAt(r, c, |a| + |b|)
  {
    OccursAfter(a, b, c);
    OccursInLonger(a + b + c, r, b, |a|);
    OccursInLonger(a + b + c, r, c, |a| + |b|);
  }

  /** Joining one more part appends a separator and that part. */
  lemma JoinStep(sep: string, xs: seq<string>, k: int)
    requires 0 < k < |xs|
    ensures Join(sep, xs[..k + 1]) == Join(sep, xs[..k]) + sep + xs[k]
  {
    var front := xs[..k + 1];
    assert front[..k] == xs[..k] && front[k] == xs[k];
  }

  /** An occurrence in a prefix is an occurrence in the whole. */
  lemma OccursInLonger(a: string, r: string, pat: string, i: int)
    requires a <= r && OccursAt(a, pat, i)
    ensures OccursAt(r, pat, i)
  {
    assert r[i..i + |pat|] == a[i..i + |pat|];
  }

  /** In `a + b + c`, `b` starts at `|a|` and `c` right after it. */
  lemma OccursAfter(a: string, b: string, c: string)
    ensures OccursAt(a + b + c, b, |a|)
    ensures OccursAt(a + b + c, c, |a| + |b|)
  {
    assert (a + b + c)[|a|..|a| + |b|] == b;
    assert (a + b + c)[|a| + |b|..|a| + |b| + |c|] == c;
  }

}
