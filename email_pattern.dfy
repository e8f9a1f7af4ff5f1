/**
 * The e-mail shape every form and handler of the site checks:
 * one or more characters that are neither whitespace nor `@`, an `@`, one or
 * more such characters, a literal `.`, and one or more such characters, with
 * nothing before or after. `MatchesPattern` is that grammar; `IsValidEmail`
 * decides it by locating the `@`.
 */
module EmailPattern {
  import opened Wrappers
  import opened JsText

  /** A character the pattern's `[^\s@]` class accepts. */
  predicate PatternChar(c: char) {
    !IsSpace(c) && c != '@'
  }

  /** One `[^\s@]+` run. */
  predicate Run(s: string) {
    |s| > 0 && forall k | 0 <= k < |s| :: PatternChar(s[k])
  }

  /** The pattern matches `s` with the `@` at `a` and the separating `.` at `d`. */
  predicate MatchAt(s: string, a: int, d: int) {
    0 <= a < d < |s| && s[a] == '@' && s[d] == '.'
    && Run(s[..a]) && Run(s[a + 1..d]) && Run(s[d + 1..])
  }

  /** The whole-string regular expression matches `s`. */
  ghost predicate MatchesPattern(s: string) {
    exists a, d :: MatchAt(s, a, d)
  }

  /** The first index of `c` in `s`, if any. */
  function IndexOf(s: string, c: char): (r: Option<nat>)
    ensures r.None? <==> c !in s
    ensures r.Some? ==> r.value < |s| && s[r.value] == c && c !in s[..r.value]
  {
    if s == [] then None
    else if s[0] == c then Some(0)
    else
      var r := IndexOf(s[1..], c);
      if r.None? then None
      else
        assert s[..r.value + 1] == [s[0]] + s[1..][..r.value];
        Some(r.value + 1)
  }

  /**
   * `isValidEmail`: no whitespace, exactly one `@` with at least one character
   * before it, and a `.` after the `@` with at least one character on each side.
   */
  function IsValidEmail(s: string): (b: bool)
    ensures b <==> MatchesPattern(s)
  {
    var at := IndexOf(s, '@');
    var ok := at.Some? && 0 < at.value && at.value + 2 <= |s| - 1
      && NoSpace(s) && '@' !in s[at.value + 1..] && '.' in s[at.value + 2..|s| - 1];
    ValidEmailIffPattern(s);
    ok
  }

  /** The scan in `IsValidEmail` decides exactly the pattern. */
  lemma ValidEmailIffPattern(s: string)
    ensures var at := IndexOf(s, '@');
      (at.Some? && 0 < at.value && at.value + 2 <= |s| - 1
        && NoSpace(s) && '@' !in s[at.value + 1..] && '.' in s[at.value + 2..|s| - 1])
      <==> MatchesPattern(s)
  {
    var at := IndexOf(s, '@');
    if at.Some? && 0 < at.value && at.value + 2 <= |s| - 1
      && NoSpace(s) && '@' !in s[at.value + 1..] && '.' in s[at.value + 2..|s| - 1]
    {
      var a := at.value;
      var j :| 0 <= j < |s[a + 2..|s| - 1]| && s[a + 2..|s| - 1][j] == '.';
      var d := a + 2 + j;
      ScanGivesMatch(s, a, d);
    }
    if MatchesPattern(s) {
      var a, d :| MatchAt(s, a, d);
      MatchFacts(s, a, d);
    }
  }

  /** The `@` found by the scan and a `.` found after it delimit a match. */
  lemma ScanGivesMatch(s: string, a: nat, d: nat)
    requires 0 < a && a + 2 <= d <= |s| - 2 && s[a] == '@' && s[d] == '.'
    requires NoSpace(s) && '@' !in s[..a] && '@' !in s[a + 1..]
    ensures MatchAt(s, a, d)
  {
    forall k | 0 <= k < |s| && k != a ensures PatternChar(s[k]) {
      if k < a { assert s[..a][k] == s[k]; }
      else { assert s[a + 1..][k - a - 1] == s[k]; }
    }
    RunOf(s, 0, a);
    RunOf(s, a + 1, d);
    RunOf(s, d + 1, |s|);
  }

  /** A non-empty stretch of pattern characters is a run. */
  lemma RunOf(s: string, i: nat, j: nat)
    requires i < j <= |s|
    requires forall k | i <= k < j :: PatternChar(s[k])
    ensures Run(s[i..j])
  {
    forall k | 0 <= k < j - i ensures PatternChar(s[i..j][k]) {
      assert s[i..j][k] == s[i + k];
    }
  }

  /** Every character of a run is a pattern character. */
  lemma RunChar(s: string, i: nat, j: nat, k: nat)
    requires i <= k < j <= |s| && Run(s[i..j])
    ensures PatternChar(s[k])
  {
    assert s[i..j][k - i] == s[k];
  }

  /** The first occurrence is the one with no earlier occurrence. */
  lemma IndexOfIsFirst(s: string, c: char, a: nat)
    requires a < |s| && s[a] == c && c !in s[..a]
    ensures IndexOf(s, c) == Some(a)
  {
    assert c in s;
  }

  /** A match has no whitespace anywhere. */
  lemma MatchNoSpace(s: string, a: int, d: int)
    requires MatchAt(s, a, d)
    ensures forall k | 0 <= k < |s| && k != a && k != d :: PatternChar(s[k])
    ensures NoSpace(s)
  {
    forall k | 0 <= k < |s| && k != a && k != d ensures PatternChar(s[k]) {
      if k < a { RunChar(s, 0, a, k); }
      else if k < d { RunChar(s, a + 1, d, k); }
      else { RunChar(s, d + 1, |s|, k); }
    }
  }

  /** What a match at `(a, d)` says about the `@` scan. */
  lemma MatchFacts(s: string, a: int, d: int)
    requires MatchAt(s, a, d)
    ensures IndexOf(s, '@') == Some(a)
    ensures 0 < a && a + 2 <= d <= |s| - 2
    ensures NoSpace(s) && '@' !in s[a + 1..] && '.' in s[a + 2..|s| - 1]
  {
    MatchNoSpace(s, a, d);
    MatchFindsAt(s, a, d);
    MatchTail(s, a, d);
  }

  /** The scan for `@` stops at the match's `@`. */
  lemma MatchFindsAt(s: string, a: int, d: int)
    requires MatchAt(s, a, d)
    ensures IndexOf(s, '@') == Some(a)
  {
    var head := s[..a];
    forall k | 0 <= k < |head| ensures head[k] != '@' {
      RunChar(s, 0, a, k);
    }
    IndexOfIsFirst(s, '@', a);
  }

  /** After the match's `@` there is no other `@`, and the `.` lies strictly inside. */
  lemma MatchTail(s: string, a: int, d: int)
    requires MatchAt(s, a, d)
    ensures '@' !in s[a + 1..] && '.' in s[a + 2..|s| - 1]
  {
    var tail := s[a + 1..];
    forall k | 0 <= k < |tail| ensures tail[k] != '@' {
      assert tail[k] == s[a + 1 + k];
      if a + 1 + k < d { RunChar(s, a + 1, d, a + 1 + k); }
      else if a + 1 + k > d { RunChar(s, d + 1, |s|, a + 1 + k); }
    }
    assert s[a + 2..|s| - 1][d - a - 2] == '.';
  }
}
