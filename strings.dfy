/** The string primitives the script relies on: Python's `str.strip()`,
    `str.lower()` (restricted to ASCII) and `str.replace(old, new)`. */
module Strings {
  import opened Lists

  /** The characters for which Python's `str.isspace()` holds; `str.strip()`
      with no argument removes exactly these from both ends. */
  predicate IsWhitespace(c: char) {
    ('\t' <= c <= '\r') || ('\U{1C}' <= c <= '\U{1F}') || c == ' '
    || c == '\U{85}' || c == '\U{A0}' || c == '\U{1680}'
    || ('\U{2000}' <= c <= '\U{200A}') || c == '\U{2028}' || c == '\U{2029}'
    || c == '\U{202F}' || c == '\U{205F}' || c == '\U{3000}'
  }

  predicate AllWhitespace(s: string) {
    forall k :: 0 <= k < |s| ==> IsWhitespace(s[k])
  }

  /** Number of whitespace characters at the start of `s`. */
  function LeadingSpace(s: string): (n: nat)
    ensures n <= |s|
    ensures AllWhitespace(s[..n])
    ensures n < |s| ==> !IsWhitespace(s[n])
  {
    if |s| > 0 && IsWhitespace(s[0]) then
      var m := LeadingSpace(s[1..]);
      assert s[..m + 1] == [s[0]] + s[1..][..m];
      m + 1
    else 0
  }

  /** Number of whitespace characters at the end of `s`. */
  function TrailingSpace(s: string): (n: nat)
    ensures n <= |s|
    ensures AllWhitespace(s[|s| - n..])
    ensures n < |s| ==> !IsWhitespace(s[|s| - 1 - n])
  {
    if |s| > 0 && IsWhitespace(s[|s| - 1]) then
      var t := s[..|s| - 1];
      var m := TrailingSpace(t);
      assert s[|s| - (m + 1)..] == t[|t| - m..] + [s[|s| - 1]];
      m + 1
    else 0
  }

  /** Python's `s.strip()`: the infix of `s` left after removing the
      surrounding whitespace; it neither starts nor ends with whitespace. */
  function Strip(s: string): (r: string)
    ensures |r| <= |s|
    ensures exists i :: 0 <= i <= |s| - |r| && r == s[i..i + |r|]
                        && AllWhitespace(s[..i]) && AllWhitespace(s[i + |r|..])
    ensures r != [] ==> !IsWhitespace(r[0]) && !IsWhitespace(r[|r| - 1])
  {
    var i := LeadingSpace(s);
    var t := s[i..];
    var j := TrailingSpace(t);
    TakeOfDrop(s, i, |t| - j);
    DropDrop(s, i, |t| - j);
    t[..|t| - j]
  }

  predicate IsUpper(c: char) { 'A' <= c <= 'Z' }

  /** ASCII upper-case counterpart of a lower-case letter. */
  function UpperChar(c: char): char {
    if 'a' <= c <= 'z' then (c as int - 32) as char else c
  }

  function LowerChar(c: char): (d: char)
    ensures !IsUpper(d)
    ensures !IsUpper(c) ==> d == c
    ensures IsUpper(c) ==> 'a' <= d <= 'z' && UpperChar(d) == c
  {
    if IsUpper(c) then (c as int + 32) as char else c
  }

  /** Python's `s.lower()` on ASCII letters; every other character stays. */
  function Lower(s: string): (r: string)
    ensures |r| == |s|
    ensures forall k :: 0 <= k < |s| ==> r[k] == LowerChar(s[k])
  {
    if s == [] then [] else [LowerChar(s[0])] + Lower(s[1..])
  }

  /** `s` spells the lower-case word `w`, each letter in either case. */
  predicate EqualsIgnoringCase(s: string, w: string) {
    |s| == |w| && forall k :: 0 <= k < |s| ==> s[k] == w[k] || s[k] == UpperChar(w[k])
  }

  predicate IsLowerWord(w: string) {
    forall k :: 0 <= k < |w| ==> !IsUpper(w[k])
  }

  /** Lower-casing yields a lower-case word exactly when the input spells it
      in any mixture of cases. */
  lemma LowerEqualsIff(s: string, w: string)
    requires IsLowerWord(w)
    ensures Lower(s) == w <==> EqualsIgnoringCase(s, w)
  {
    if Lower(s) == w {
      forall k | 0 <= k < |s| ensures s[k] == w[k] || s[k] == UpperChar(w[k]) {
        assert LowerChar(s[k]) == w[k];
      }
    }
    if EqualsIgnoringCase(s, w) {
      forall k | 0 <= k < |s| ensures Lower(s)[k] == w[k] {
        if s[k] != w[k] {
          assert w[k] != UpperChar(w[k]);
          assert 'a' <= w[k] <= 'z';
        }
      }
    }
  }

  /** `pat` occurs in `s` starting at index `i`. */
  predicate OccursAt(s: string, pat: string, i: int) {
    0 <= i && i + |pat| <= |s| && s[i..i + |pat|] == pat
  }

  predicate Contains(s: string, pat: string) {
    exists i :: 0 <= i <= |s| && OccursAt(s, pat, i)
  }

  /** Python's `s.replace(pat, val)`: every occurrence of `pat`, found left to
      right and never overlapping, is replaced by `val`; scanning resumes
      after the replaced occurrence. With an empty `pat`, `val` is inserted
      before every character and at the end. */
  function Replace(s: string, pat: string, val: string): string
    decreases |s|
  {
    if |pat| == 0 then
      if |s| == 0 then val else val + [s[0]] + Replace(s[1..], pat, val)
    else if |s| < |pat| then s
    else if s[..|pat|] == pat then val + Replace(s[|pat|..], pat, val)
    else [s[0]] + Replace(s[1..], pat, val)
  }

  lemma OccursAtShift(s: string, pat: string, i: int, d: nat)
    requires 0 <= i && d <= |s|
    ensures OccursAt(s[d..], pat, i) <==> OccursAt(s, pat, i + d)
  {
    if 0 <= i && i + |pat| <= |s| - d {
      assert s[d..][i..i + |pat|] == s[i + d..i + d + |pat|];
    }
  }

  /** One step of Replace where no occurrence starts at index 0. */
  lemma ReplaceNoMatchStep(s: string, pat: string, val: string)
    requires |pat| > 0 && |s| >= |pat| && !OccursAt(s, pat, 0)
    ensures Replace(s, pat, val) == [s[0]] + Replace(s[1..], pat, val)
  {
  }

  /** One step of Replace where an occurrence starts at index 0. */
  lemma ReplaceAtStart(s: string, pat: string, val: string)
    requires |pat| > 0 && OccursAt(s, pat, 0)
    ensures Replace(s, pat, val) == val + Replace(s[|pat|..], pat, val)
  {
    assert s[..|pat|] == pat;
  }

  /** A string shorter than the pattern is left unchanged. */
  lemma ReplaceWithoutShort(s: string, pat: string, val: string)
    requires 0 < |pat| && |s| < |pat|
    ensures Replace(s, pat, val) == s
  {
  }

  /** A string with no occurrence of the pattern is left unchanged. */
  lemma {:induction false} ReplaceWithoutOccurrence(s: string, pat: string, val: string)
    requires |pat| > 0 && !Contains(s, pat)
    ensures Replace(s, pat, val) == s
    decreases |s|
  {
    if |s| >= |pat| {
      assert !OccursAt(s, pat, 0);
      forall i | 0 <= i <= |s[1..]| ensures !OccursAt(s[1..], pat, i) {
        OccursAtShift(s, pat, i, 1);
      }
      ReplaceWithoutOccurrence(s[1..], pat, val);
      ReplaceNoMatchStep(s, pat, val);
      ConsAppend(s, []);
    } else {
      ReplaceWithoutShort(s, pat, val);
    }
  }

  /** Replace copies the first `i` characters when no occurrence of `pat`
      starts among them. */
  lemma {:induction false} ReplaceCopiesPrefix(s: string, pat: string, val: string, i: nat)
    requires |pat| > 0 && i <= |s|
    requires forall j :: 0 <= j < i ==> !OccursAt(s, pat, j)
    ensures Replace(s, pat, val) == s[..i] + Replace(s[i..], pat, val)
  {
    if i == 0 {
      EmptyAppend(s[..0], Replace(s, pat, val));
    } else {
      forall j | 0 <= j < i - 1 ensures !OccursAt(s[1..], pat, j) {
        OccursAtShift(s, pat, j, 1);
      }
      ReplaceCopiesPrefix(s[1..], pat, val, i - 1);
      DropDrop(s, 1, i - 1);
      TakeOfDrop(s, 1, i - 1);
      if |s| >= |pat| {
        ReplaceNoMatchStep(s, pat, val);
      } else {
        ReplaceWithoutShort(s, pat, val);
        ReplaceWithoutShort(s[1..], pat, val);
      }
      ConsSlice(s, i, Replace(s[i..], pat, val));
    }
  }

  lemma ConsSlice(s: string, i: nat, x: string)
    requires 0 < i <= |s|
    ensures [s[0]] + (s[1..i] + x) == s[..i] + x
  {
  }

  /** Replace copies a prefix in which no occurrence of `pat` starts. */
  lemma ReplaceSkip(a: string, b: string, pat: string, val: string)
    requires |pat| > 0
    requires forall i :: 0 <= i < |a| ==> !OccursAt(a + b, pat, i)
    ensures Replace(a + b, pat, val) == a + Replace(b, pat, val)
  {
    ReplaceCopiesPrefix(a + b, pat, val, |a|);
    AppendParts(a, b);
  }

  /** The leftmost occurrence of the pattern is replaced and scanning resumes
      after it. */
  lemma ReplaceAtFirstOccurrence(s: string, pat: string, val: string, i: nat)
    requires |pat| > 0 && OccursAt(s, pat, i)
    requires forall j :: 0 <= j < i ==> !OccursAt(s, pat, j)
    ensures Replace(s, pat, val) == s[..i] + val + Replace(s[i + |pat|..], pat, val)
  {
    ReplaceCopiesPrefix(s, pat, val, i);
    OccursAtShift(s, pat, 0, i);
    ReplaceAtStart(s[i..], pat, val);
    DropDrop(s, i, |pat|);
    AppendAssoc(s[..i], val, Replace(s[i + |pat|..], pat, val));
  }

  /** Replacing by a longer value never shortens the string, and lengthens
      it whenever the pattern occurs. */
  lemma {:induction false} ReplaceLonger(s: string, pat: string, val: string)
    requires 0 < |pat| < |val|
    ensures |Replace(s, pat, val)| >= |s|
    ensures Contains(s, pat) ==> |Replace(s, pat, val)| > |s|
    decreases |s|
  {
    if |s| < |pat| {
      ReplaceWithoutShort(s, pat, val);
    } else if s[..|pat|] == pat {
      ReplaceLonger(s[|pat|..], pat, val);
    } else {
      ReplaceLonger(s[1..], pat, val);
      if Contains(s, pat) {
        var i :| 0 <= i <= |s| && OccursAt(s, pat, i);
        assert i != 0;
        OccursAtShift(s, pat, i - 1, 1);
      }
    }
  }

  /** A pattern-free replacement value does NOT guarantee that no occurrence
      remains: in `{{{{k}}k}}`, removing the inner `{{k}}` joins the text
      around it into a new `{{k}}`. */
  lemma ReplaceCanLeavePattern(k: string)
    requires '{' !in k
    ensures !Contains("", "{{" + k + "}}")
    ensures Replace("{{" + ("{{" + k + "}}") + k + "}}", "{{" + k + "}}", "") == "{{" + k + "}}"
  {
    var pat := "{{" + k + "}}";
    var s := "{{" + pat + k + "}}";
    assert s[2] == '{' && s[3] == '{';
    assert pat[2] != '{';
    assert s[0..|pat|][2] != pat[2];
    assert s[1..1 + |pat|][2] != pat[2];
    assert s[2..2 + |pat|] == pat;
    ReplaceAtFirstOccurrence(s, pat, "", 2);
    assert s[2 + |pat|..] == k + "}}";
    ReplaceWithoutShort(k + "}}", pat, "");
  }
}
