/**
 * The JavaScript string built-ins the site's code relies on, stated over
 * `string` (a sequence of Unicode scalar values): the `\s` character class,
 * `trim`, `includes`, `toLowerCase`/`toUpperCase`, `replace` with a global
 * pattern, `slice`, `substring`, `split`/`join` and the decimal rendering of a
 * non-negative integer. Truthiness of an optional string (`x || default`)
 * lives here too.
 */
module JsText {
  import opened Wrappers

  /** The characters JavaScript's `\s` matches, which are also those `trim` removes. */
  predicate IsSpace(c: char) {
    || c == ' ' || c == '\t' || c == '\n' || c == '\r' || c == '\U{000B}' || c == '\U{000C}'
    || c == '\U{00A0}' || c == '\U{1680}' || ('\U{2000}' <= c <= '\U{200A}')
    || c == '\U{2028}' || c == '\U{2029}' || c == '\U{202F}' || c == '\U{205F}'
    || c == '\U{3000}' || c == '\U{FEFF}'
  }

  /** Every character of `s` is whitespace (so `s.trim() === ''`). */
  predicate IsBlank(s: string) {
    forall k | 0 <= k < |s| :: IsSpace(s[k])
  }

  /** No character of `s` is whitespace. */
  predicate NoSpace(s: string) {
    forall k | 0 <= k < |s| :: !IsSpace(s[k])
  }

  /** JavaScript truthiness of a string that may be absent: present and non-empty. */
  predicate Truthy(o: Option<string>) {
    o.Some? && o.value != ""
  }

  /** How a template literal renders an optional string: an absent value prints as `undefined`. */
  function Show(o: Option<string>): (r: string)
    ensures o.Some? ==> r == o.value
  {
    if o.Some? then o.value else "undefined"
  }

  /** `process.env[key]`: the variable's value, if it is set. */
  function EnvVar(env: map<string, string>, key: string): (r: Option<string>)
    ensures r.Some? <==> key in env
    ensures r.Some? ==> r.value == env[key]
  {
    if key in env then Some(env[key]) else None
  }

  /** `o || fallback` for an optional string. */
  function OrElse(o: Option<string>, fallback: string): string {
    if Truthy(o) then o.value else fallback
  }

  /** Drops the leading whitespace. */
  function TrimStart(s: string): string {
    if s != [] && IsSpace(s[0]) then TrimStart(s[1..]) else s
  }

  /** What `TrimStart` leaves is a suffix that does not start with whitespace, and only whitespace went. */
  lemma {:induction false} TrimStartFacts(s: string)
    ensures var r := TrimStart(s);
      && |r| <= |s| && r == s[|s| - |r|..]
      && (forall k | 0 <= k < |s| - |r| :: IsSpace(s[k]))
      && (r == "" || !IsSpace(r[0]))
  {
    if s != [] && IsSpace(s[0]) {
      TrimStartFacts(s[1..]);
      var r := TrimStart(s);
      assert s[1..][|s| - 1 - |r|..] == s[|s| - |r|..];
      forall k | 0 < k < |s| - |r| ensures IsSpace(s[k]) {
        assert s[1..][k - 1] == s[k];
      }
    }
  }

  /** Drops the trailing whitespace. */
  function TrimEnd(s: string): string {
    if s != [] && IsSpace(s[|s| - 1]) then TrimEnd(s[..|s| - 1]) else s
  }

  /** What `TrimEnd` leaves is a prefix that does not end with whitespace, and only whitespace went. */
  lemma {:induction false} TrimEndFacts(s: string)
    ensures var r := TrimEnd(s);
      && |r| <= |s| && r == s[..|r|]
      && (forall k | |r| <= k < |s| :: IsSpace(s[k]))
      && (r == "" || !IsSpace(r[|r| - 1]))
  {
    if s != [] && IsSpace(s[|s| - 1]) {
      TrimEndFacts(s[..|s| - 1]);
      var r := TrimEnd(s);
      assert s[..|s| - 1][..|r|] == s[..|r|];
      forall k | |r| <= k < |s| - 1 ensures IsSpace(s[k]) {
        assert s[..|s| - 1][k] == s[k];
      }
    }
  }

  /** `s.trim()`: the slice of `s` between its leading and trailing whitespace. */
  function Trim(s: string): (r: string)
    ensures |r| <= |s|
  {
    TrimStartFacts(s);
    TrimEndFacts(TrimStart(s));
    TrimEnd(TrimStart(s))
  }

  /** The trimmed string occurs in `s`, neither end of it is whitespace, and it is empty exactly for a blank `s`. */
  lemma TrimFacts(s: string)
    ensures var r := Trim(s);
      && Contains(s, r)
      && (r == "" <==> IsBlank(s))
      && (r != "" ==> !IsSpace(r[0]) && !IsSpace(r[|r| - 1]))
  {
    var t := TrimStart(s);
    var r := TrimEnd(t);
    TrimStartFacts(s);
    TrimEndFacts(t);
    var a := |s| - |t|;
    assert r == s[a..a + |r|] by {
      forall k | 0 <= k < |r| ensures r[k] == s[a + k] {
        assert r[k] == t[k] && t[k] == s[a + k];
      }
    }
    ContainsAt(s, r, a);
    if r == "" {
      assert t == "";
    }
    if IsBlank(s) {
      assert t == "";
    }
    if r != "" {
      assert r[0] == t[0];
    }
  }

  /** `s.includes(sub)`. */
  predicate Contains(s: string, sub: string) {
    exists i | 0 <= i <= |s| - |sub| :: OccursAt(s, sub, i)
  }

  /** `sub` occurs in `s` starting at index `i`. */
  predicate OccursAt(s: string, sub: string, i: int) {
    0 <= i && i + |sub| <= |s| && s[i..i + |sub|] == sub
  }

  /** A witness position proves `includes`. */
  lemma ContainsAt(s: string, sub: string, i: nat)
    requires i + |sub| <= |s| && s[i..i + |sub|] == sub
    ensures Contains(s, sub)
  {
    assert OccursAt(s, sub, i);
  }

  /** `toLowerCase` on one character, for the ASCII and Latin-1 letters. */
  function LowerChar(c: char): char {
    if 'A' <= c <= 'Z' || ('\U{00C0}' <= c <= '\U{00DE}' && c != '\U{00D7}') then
      (c as int + 32) as char
    else c
  }

  /**
   * `toUpperCase` on one character other than `ß`, for the ASCII and Latin-1
   * letters: `ÿ` leaves Latin-1 for `Ÿ`, and the micro sign becomes Greek `Μ`.
   */
  function UpperChar(c: char): char {
    if 'a' <= c <= 'z' || ('\U{00E0}' <= c <= '\U{00FE}' && c != '\U{00F7}') then
      (c as int - 32) as char
    else if c == '\U{00FF}' then '\U{0178}'
    else if c == '\U{00B5}' then '\U{039C}'
    else c
  }

  /** The sharp s, whose upper-case form is two letters. */
  const SharpS: char := '\U{00DF}'

  /** `toUpperCase` on one character: `ß` becomes "SS", every other character one character. */
  function UpperText(c: char): (t: string)
    ensures c == SharpS ==> t == "SS"
    ensures c != SharpS ==> t == [UpperChar(c)]
  {
    if c == SharpS then "SS" else [UpperChar(c)]
  }

  /** `s.toLowerCase()`. */
  function ToLower(s: string): (r: string)
    ensures |r| == |s|
    ensures forall k | 0 <= k < |s| :: r[k] == LowerChar(s[k])
  {
    seq(|s|, k requires 0 <= k < |s| => LowerChar(s[k]))
  }

  /**
   * `s.toUpperCase()`: each character's upper-case text in turn, so the
   * result is one character longer for each `ß`.
   */
  function ToUpper(s: string): (r: string)
    ensures |r| == |s| + multiset(s)[SharpS]
    ensures SharpS !in s ==> forall k | 0 <= k < |s| :: r[k] == UpperChar(s[k])
  {
    if s == [] then []
    else
      assert s == [s[0]] + s[1..];
      assert multiset(s) == multiset{s[0]} + multiset(s[1..]);
      var rest := ToUpper(s[1..]);
      var r := UpperText(s[0]) + rest;
      assert SharpS !in s ==> forall k | 1 <= k < |s| :: r[k] == rest[k - 1] && s[k] == s[1..][k - 1];
      r
  }

  /** Upper-casing a concatenation upper-cases each part. */
  lemma {:induction false} ToUpperAppend(a: string, b: string)
    ensures ToUpper(a + b) == ToUpper(a) + ToUpper(b)
  {
    if a != [] {
      assert (a + b)[1..] == a[1..] + b;
      ToUpperAppend(a[1..], b);
    } else {
      assert a + b == b;
    }
  }

  /** A string without upper-case letters is its own lower-case form. */
  lemma ToLowerOfLower(s: string)
    requires forall k | 0 <= k < |s| :: LowerChar(s[k]) == s[k]
    ensures ToLower(s) == s
  {
  }

  /** `s.replace(/c/g, t)` for a one-character pattern. */
  function ReplaceChar(s: string, c: char, t: string): (r: string)
    ensures c !in s ==> r == s
    ensures c !in t ==> c !in r
    ensures forall x | x != c && x !in t :: x in r <==> x in s
  {
    if s == [] then []
    else (if s[0] == c then t else [s[0]]) + ReplaceChar(s[1..], c, t)
  }

  /** `s.replace(/\s+/g, '_')`: every maximal run of whitespace becomes one underscore. */
  function CollapseSpaceRuns(s: string): (r: string)
    ensures |r| <= |s|
    ensures NoSpace(r)
    ensures NoSpace(s) ==> r == s
    ensures r == "" <==> s == ""
    decreases |s|
  {
    if s == [] then []
    else if IsSpace(s[0]) then
      TrimStartFacts(s[1..]);
      ['_'] + CollapseSpaceRuns(TrimStart(s[1..]))
    else [s[0]] + CollapseSpaceRuns(s[1..])
  }

  /** Appending is associative; a loop that extends a sequence by parts needs this step. */
  lemma AppendAssoc<T>(a: seq<T>, b: seq<T>, c: seq<T>)
    ensures a + (b + c) == a + b + c
  {
  }

  /** A part of a concatenation can be sliced back out of it. */
  lemma PartOf<T>(p: seq<T>, x: seq<T>, q: seq<T>)
    ensures (p + x + q)[|p|..|p| + |x|] == x
    ensures (p + x + q)[|p| + |x|..] == q
  {
    assert (p + x + q)[|p|..|p| + |x|] == (p + x)[|p|..];
  }

  /** The last `n` elements of `s` (all of it when it is shorter): `s.slice(-n)`. */
  function TakeLast<T>(s: seq<T>, n: nat): (r: seq<T>)
    ensures |r| == if |s| <= n then |s| else n
    ensures r == s[|s| - |r|..]
  {
    if |s| <= n then s else s[|s| - n..]
  }

  /** The index `slice` uses for an argument: negatives count from the end, clamped to the length. */
  function SliceIndex(i: int, len: nat): (r: nat)
    ensures r <= len
    ensures 0 <= i <= len ==> r == i
    ensures i > len ==> r == len
    ensures i < 0 ==> r == if len + i < 0 then 0 else len + i
  {
    if i < 0 then (if len + i < 0 then 0 else len + i)
    else if i > len then len
    else i
  }

  /** `s.slice(start, end)`. */
  function JsSlice<T>(s: seq<T>, start: int, end: int): seq<T> {
    var a := SliceIndex(start, |s|);
    var b := SliceIndex(end, |s|);
    if a < b then s[a..b] else []
  }

  /** `s.slice(-n)` is the same as keeping the last `n` elements. */
  lemma SliceFromEndIsTakeLast<T>(s: seq<T>, n: nat)
    requires n > 0
    ensures JsSlice(s, -(n as int), |s|) == TakeLast(s, n)
  {
  }

  /** `s.substring(0, n)`: the first `n` characters, `n` clamped to `[0, |s|]`. */
  function Prefix(s: string, n: int): (r: string)
    ensures r <= s
    ensures |r| == if n < 0 then 0 else if n > |s| then |s| else n
  {
    if n <= 0 then "" else if n >= |s| then s else s[..n]
  }

  /** The character of one decimal digit. */
  function DigitChar(d: nat): (c: char)
    requires d < 10
    ensures '0' <= c <= '9'
  {
    ('0' as int + d) as char
  }

  /** JavaScript's decimal rendering of a non-negative integer (`${n}`). */
  function NatToString(n: nat): (r: string)
    ensures |r| >= 1
    ensures forall k | 0 <= k < |r| :: '0' <= r[k] <= '9'
    ensures r[0] == '0' ==> n == 0
  {
    if n < 10 then [DigitChar(n)] else NatToString(n / 10) + [DigitChar(n % 10)]
  }

  /** A whole number as JavaScript prints it, with a leading minus sign when negative. */
  function IntToString(i: int): (r: string)
    ensures |r| >= 1
    ensures r[0] == '-' <==> i < 0
  {
    if i < 0 then "-" + NatToString(-i) else NatToString(i)
  }

  /** A digit of base 16, or of base 10 when `hex` is false. */
  predicate IsDigitOf(c: char, hex: bool) {
    || '0' <= c <= '9'
    || (hex && ('a' <= c <= 'f' || 'A' <= c <= 'F'))
  }

  /** The value of one digit. */
  function DigitValue(c: char): (v: nat)
    requires IsDigitOf(c, true)
    ensures v < 16
    ensures '0' <= c <= '9' ==> v < 10
  {
    if '0' <= c <= '9' then c as int - '0' as int
    else if 'a' <= c <= 'f' then c as int - 'a' as int + 10
    else c as int - 'A' as int + 10
  }

  /** Reads a string of digits back as a number in the given base. */
  function DigitsValue(s: string, hex: bool): nat
    requires forall k | 0 <= k < |s| :: IsDigitOf(s[k], hex)
  {
    if s == [] then 0
    else
      var last := s[|s| - 1];
      assert IsDigitOf(last, hex);
      DigitsValue(s[..|s| - 1], hex) * (if hex then 16 else 10) + DigitValue(last)
  }

  /** Rendering a number in decimal loses nothing: reading it back gives the number. */
  lemma {:induction false} NatToStringRoundTrip(n: nat)
    ensures DigitsValue(NatToString(n), false) == n
  {
    if n >= 10 {
      NatToStringRoundTrip(n / 10);
      var s := NatToString(n);
      assert s[..|s| - 1] == NatToString(n / 10);
    }
  }

  /** The longest prefix of `s` made of digits. */
  function LeadingDigits(s: string, hex: bool): (r: string)
    ensures r <= s
    ensures forall k | 0 <= k < |r| :: IsDigitOf(r[k], hex)
    ensures |r| < |s| ==> !IsDigitOf(s[|r|], hex)
  {
    if s != [] && IsDigitOf(s[0], hex) then [s[0]] + LeadingDigits(s[1..], hex) else []
  }

  /** A string made only of digits is its own leading run. */
  lemma {:induction false} LeadingDigitsAll(s: string, hex: bool)
    requires forall k | 0 <= k < |s| :: IsDigitOf(s[k], hex)
    ensures LeadingDigits(s, hex) == s
  {
    if s != [] {
      LeadingDigitsAll(s[1..], hex);
      assert [s[0]] + s[1..] == s;
    }
  }

  /**
   * The unsigned part of `parseInt`: a `0x` or `0X` prefix switches to base
   * 16, then the longest run of digits is read; `None` when that run is empty.
   */
  function ParseDigits(u: string): (r: Option<nat>)
    ensures u == [] || !('0' <= u[0] <= '9') ==> r.None?
  {
    var hex := |u| >= 2 && u[0] == '0' && (u[1] == 'x' || u[1] == 'X');
    var digits := LeadingDigits(if hex then u[2..] else u, hex);
    if digits == [] then None else Some(DigitsValue(digits, hex))
  }

  /**
   * `parseInt(s)` without a radix: leading whitespace is skipped and one sign
   * is read before the digits; `None` stands for `NaN`.
   */
  function ParseInt(s: string): (r: Option<int>)
    ensures TrimStart(s) == [] ==> r.None?
    ensures s != [] && !IsSpace(s[0]) && !('0' <= s[0] <= '9') && s[0] != '-' && s[0] != '+' ==> r.None?
    ensures r.Some? && r.value < 0 ==> TrimStart(s)[0] == '-'
  {
    var t := TrimStart(s);
    if t == [] then None
    else if t[0] == '-' then
      match ParseDigits(t[1..])
      case None => None
      case Some(v) => Some(-(v as int))
    else ParseDigits(if t[0] == '+' then t[1..] else t)
  }

  /** The digits of a decimal rendering read back as the number. */
  lemma ParseDigitsRoundTrip(n: nat)
    ensures ParseDigits(NatToString(n)) == Some(n)
  {
    var u := NatToString(n);
    assert !(|u| >= 2 && u[1] == 'x');
    assert !(|u| >= 2 && u[1] == 'X');
    LeadingDigitsAll(u, false);
    NatToStringRoundTrip(n);
  }

  /** A negative number reads back as itself: the minus sign, then its digits. */
  lemma {:induction false} ParseNegative(i: int)
    requires i < 0
    ensures ParseInt(IntToString(i)) == Some(i)
  {
    var s := IntToString(i);
    assert s == "-" + NatToString(-i);
    assert !IsSpace(s[0]);
    assert TrimStart(s) == s;
    assert s[1..] == NatToString(-i);
    ParseDigitsRoundTrip(-i);
    assert ParseDigits(s[1..]) == Some(-i);
    assert ParseInt(s) == Some(-((-i) as int));
  }

  /** A number that is not negative reads back as itself. */
  lemma {:induction false} ParseUnsigned(i: int)
    requires i >= 0
    ensures ParseInt(IntToString(i)) == Some(i)
  {
    var s := IntToString(i);
    assert s == NatToString(i);
    assert !IsSpace(s[0]);
    assert TrimStart(s) == s;
    ParseDigitsRoundTrip(i);
  }

  /** `parseInt` reads back what `${i}` prints. */
  lemma {:induction false} ParseIntRoundTrip(i: int)
    ensures ParseInt(IntToString(i)) == Some(i)
  {
    if i < 0 {
      ParseNegative(i);
    } else {
      ParseUnsigned(i);
    }
  }

  /** `s.split(sep)` for a one-character separator. */
  function Split(s: string, sep: char): (parts: seq<string>)
    ensures |parts| >= 1 && parts[0] <= s
    ensures forall k | 0 <= k < |parts| :: sep !in parts[k]
  {
    if s == [] then [""]
    else
      var rest := Split(s[1..], sep);
      if s[0] == sep then [""] + rest else [[s[0]] + rest[0]] + rest[1..]
  }

  /** `parts.join(sep)`. */
  function Join(parts: seq<string>, sep: char): string
    requires |parts| >= 1
  {
    if |parts| == 1 then parts[0] else parts[0] + [sep] + Join(parts[1..], sep)
  }

  /** Joining the pieces of a split with the same separator gives back the string. */
  lemma {:induction false} JoinSplit(s: string, sep: char)
    ensures Join(Split(s, sep), sep) == s
  {
    if s != [] {
      var rest := Split(s[1..], sep);
      JoinSplit(s[1..], sep);
      if s[0] != sep {
        var parts := Split(s, sep);
        assert parts[0] == [s[0]] + rest[0] && parts[1..] == rest[1..];
        if |rest| == 1 {
          assert parts == [[s[0]] + rest[0]];
        } else {
          assert Join(rest, sep) == rest[0] + [sep] + Join(rest[1..], sep);
        }
      }
    }
  }
}
