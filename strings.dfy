/**
 * String operations shared by the JavaScript and Python parts of the model:
 * trimming, searching, splitting and joining, replacing, lower-casing and
 * decimal rendering.  Strings are sequences of Unicode scalar values.
 */
module Strings {

  // ---------------------------------------------------------------------------
  // Character classes
  // ---------------------------------------------------------------------------

  /** Characters removed by JavaScript's String.prototype.trim (WhiteSpace and LineTerminator). */
  predicate IsJsSpace(c: char) {
    c == '\t' || c == '\n' || c == '\U{000B}' || c == '\U{000C}' || c == '\r' || c == ' ' ||
    c == '\U{00A0}' || c == '\U{1680}' || ('\U{2000}' <= c <= '\U{200A}') ||
    c == '\U{2028}' || c == '\U{2029}' || c == '\U{202F}' || c == '\U{205F}' ||
    c == '\U{3000}' || c == '\U{FEFF}'
  }

  /** Characters for which Python's str.isspace holds; str.strip() removes these. */
  predicate IsPySpace(c: char) {
    ('\t' <= c <= '\r') || ('\U{001C}' <= c <= '\U{001F}') || c == ' ' ||
    c == '\U{0085}' || c == '\U{00A0}' || c == '\U{1680}' || ('\U{2000}' <= c <= '\U{200A}') ||
    c == '\U{2028}' || c == '\U{2029}' || c == '\U{202F}' || c == '\U{205F}' || c == '\U{3000}'
  }

  /** Line terminators, which the regular-expression `.` does not match in JavaScript. */
  predicate IsLineTerminator(c: char) {
    c == '\n' || c == '\r' || c == '\U{2028}' || c == '\U{2029}'
  }

  predicate IsDigit(c: char) {
    '0' <= c <= '9'
  }

  predicate IsAsciiLetter(c: char) {
    ('a' <= c <= 'z') || ('A' <= c <= 'Z')
  }

  predicate IsAsciiAlnum(c: char) {
    IsDigit(c) || IsAsciiLetter(c)
  }

  predicate AllDigits(s: string) {
    forall k :: 0 <= k < |s| ==> IsDigit(s[k])
  }

  // ---------------------------------------------------------------------------
  // Trimming
  // ---------------------------------------------------------------------------

  /** Length of the longest prefix of s whose characters all satisfy p. */
  function LeadingCount(s: string, p: char -> bool): (n: nat)
    ensures n <= |s|
    ensures forall k :: 0 <= k < n ==> p(s[k])
    ensures n < |s| ==> !p(s[n])
    decreases |s|
  {
    if |s| == 0 || !p(s[0]) then 0 else 1 + LeadingCount(s[1..], p)
  }

  /** Length of the longest suffix of s whose characters all satisfy p. */
  function TrailingCount(s: string, p: char -> bool): (n: nat)
    ensures n <= |s|
    ensures forall k :: |s| - n <= k < |s| ==> p(s[k])
    ensures n < |s| ==> !p(s[|s| - 1 - n])
    decreases |s|
  {
    if |s| == 0 || !p(s[|s| - 1]) then 0 else 1 + TrailingCount(s[..|s| - 1], p)
  }

  /** Removes the longest prefix and the longest suffix made of characters satisfying p. */
  function StripWhere(s: string, p: char -> bool): (r: string)
    ensures |r| <= |s|
  {
    var i := LeadingCount(s, p);
    var t := s[i..];
    var j := TrailingCount(t, p);
    t[..|t| - j]
  }

  /**
   * What stripping removes: the longest prefix and the longest suffix made of
   * characters satisfying p.  The result is the slice of s that starts at the
   * first and ends at the last character outside p.
   */
  lemma {:induction false} StripWhereSpec(s: string, p: char -> bool)
    ensures var r := StripWhere(s, p);
            LeadingCount(s, p) + |r| <= |s| &&
            r == s[LeadingCount(s, p)..LeadingCount(s, p) + |r|] &&
            (forall k :: LeadingCount(s, p) + |r| <= k < |s| ==> p(s[k])) &&
            (|r| > 0 ==> !p(r[0]) && !p(r[|r| - 1])) &&
            (|r| == 0 <==> forall k :: 0 <= k < |s| ==> p(s[k]))
  {
    var i := LeadingCount(s, p);
    var t := s[i..];
    var j := TrailingCount(t, p);
    var r := t[..|t| - j];
    assert StripWhere(s, p) == r;
    assert r == s[i..i + |r|];
    forall k | i + |r| <= k < |s| ensures p(s[k]) {
      assert s[k] == t[k - i];
    }
    if |r| > 0 {
      assert r[0] == s[i];
      assert r[|r| - 1] == t[|t| - 1 - j];
    }
  }

  /** JavaScript `s.trim()`. */
  function JsTrim(s: string): string {
    StripWhere(s, IsJsSpace)
  }

  /** Python `s.strip()`. */
  function PyStrip(s: string): string {
    StripWhere(s, IsPySpace)
  }

  /** Python `s.strip(c)` for a one-character argument. */
  function PyStripChar(s: string, c: char): string {
    StripWhere(s, x => x == c)
  }

  /** Stripping a string that already starts and ends outside p changes nothing. */
  lemma {:induction false} StripClean(s: string, p: char -> bool)
    requires |s| > 0 ==> !p(s[0]) && !p(s[|s| - 1])
    ensures StripWhere(s, p) == s
  {
    StripWhereSpec(s, p);
    if |s| > 0 {
      assert LeadingCount(s, p) == 0;
      assert !p(s[|s| - 1]);
    }
  }

  /** Stripping is idempotent. */
  lemma {:induction false} StripIdempotent(s: string, p: char -> bool)
    ensures StripWhere(StripWhere(s, p), p) == StripWhere(s, p)
  {
    StripWhereSpec(s, p);
    StripClean(StripWhere(s, p), p);
  }

  // ---------------------------------------------------------------------------
  // Searching
  // ---------------------------------------------------------------------------

  /** Index of the first occurrence of c in s, or -1 (JavaScript indexOf, Python find). */
  function IndexOfChar(s: string, c: char): (r: int)
    ensures -1 <= r < |s|
    ensures r == -1 <==> c !in s
    ensures r >= 0 ==> s[r] == c && forall k :: 0 <= k < r ==> s[k] != c
    decreases |s|
  {
    if |s| == 0 then -1
    else if s[0] == c then 0
    else
      var k := IndexOfChar(s[1..], c);
      if k == -1 then -1 else k + 1
  }

  /** Index of the last occurrence of c in s, or -1 (JavaScript lastIndexOf, Python rfind). */
  function LastIndexOfChar(s: string, c: char): (r: int)
    ensures -1 <= r < |s|
    ensures r == -1 <==> c !in s
    ensures r >= 0 ==> s[r] == c && forall k :: r < k < |s| ==> s[k] != c
    decreases |s|
  {
    if |s| == 0 then -1
    else if s[|s| - 1] == c then |s| - 1
    else LastIndexOfChar(s[..|s| - 1], c)
  }

  /** A c with no c after it is the last one. */
  lemma {:induction false} LastIndexOfCharAt(s: string, c: char, i: nat)
    requires i < |s| && s[i] == c
    requires forall k :: i < k < |s| ==> s[k] != c
    ensures LastIndexOfChar(s, c) == i
  {
    assert c in s;
  }

  /** t occurs in s starting at position k. */
  predicate OccursAt(s: string, t: string, k: nat) {
    k + |t| <= |s| && s[k..k + |t|] == t
  }

  /** A slice inside a of a + b is a slice of a. */
  lemma {:induction false} SliceOfAppend(a: string, b: string, i: nat, j: nat)
    requires i <= j <= |a|
    ensures (a + b)[i..j] == a[i..j]
  {
  }

  /** A three-character t occurs at k when the three characters there match it. */
  lemma {:induction false} OccursAtThree(s: string, t: string, k: nat)
    requires |t| == 3 && k + 3 <= |s|
    ensures s[k] == t[0] && s[k + 1] == t[1] && s[k + 2] == t[2] ==> OccursAt(s, t, k)
  {
    if s[k] == t[0] && s[k + 1] == t[1] && s[k + 2] == t[2] {
      assert s[k..k + 3] == t;
    }
  }

  predicate StartsWith(s: string, t: string) {
    OccursAt(s, t, 0)
  }

  predicate EndsWith(s: string, t: string) {
    |t| <= |s| && s[|s| - |t|..] == t
  }

  /** The first position at or after i where t occurs in s, or -1. */
  function FindFrom(s: string, t: string, i: nat): (r: int)
    requires i <= |s|
    ensures r == -1 || (i <= r && OccursAt(s, t, r))
    ensures r == -1 ==> forall k: nat :: i <= k ==> !OccursAt(s, t, k)
    ensures r >= 0 ==> forall k: nat :: i <= k < r ==> !OccursAt(s, t, k)
    decreases |s| - i
  {
    if i + |t| > |s| then -1
    else if s[i..i + |t|] == t then i
    else FindFrom(s, t, i + 1)
  }

  /** The first position where t occurs in s, or -1. */
  function Find(s: string, t: string): (r: int)
    ensures r == -1 || (r >= 0 && OccursAt(s, t, r))
    ensures r == -1 ==> forall k: nat :: !OccursAt(s, t, k)
    ensures r >= 0 ==> forall k: nat :: k < r ==> !OccursAt(s, t, k)
  {
    FindFrom(s, t, 0)
  }

  /** Substring test: JavaScript `s.includes(t)`, Python `t in s`. */
  predicate Contains(s: string, t: string) {
    Find(s, t) >= 0
  }

  /** Contains holds exactly when t occurs somewhere in s. */
  lemma {:induction false} ContainsIff(s: string, t: string)
    ensures Contains(s, t) <==> exists k: nat :: OccursAt(s, t, k)
  {
    if Contains(s, t) {
      assert OccursAt(s, t, Find(s, t));
    }
  }

  /** An occurrence inside a prefix of s is an occurrence in s. */
  lemma {:induction false} OccursInPrefix(s: string, n: nat, t: string, k: nat)
    requires n <= |s|
    requires OccursAt(s[..n], t, k)
    ensures OccursAt(s, t, k)
  {
    assert s[..n][k..k + |t|] == s[k..k + |t|];
  }

  /** Occurrences in a suffix of s are occurrences in s, shifted. */
  lemma {:induction false} OccursInSuffix(s: string, n: nat, t: string, k: nat)
    requires n <= |s|
    ensures OccursAt(s[n..], t, k) <==> OccursAt(s, t, n + k)
  {
    if k + |t| <= |s| - n {
      assert s[n..][k..k + |t|] == s[n + k..n + k + |t|];
    }
  }

  /** When u sits inside t at offset i, every string containing t contains u. */
  lemma {:induction false} ContainsInner(s: string, t: string, u: string, i: nat)
    requires i + |u| <= |t| && t[i..i + |u|] == u
    requires Contains(s, t)
    ensures Contains(s, u)
  {
    var k := Find(s, t);
    assert s[k..k + |t|] == t;
    assert s[k + i..k + i + |u|] == s[k..k + |t|][i..i + |u|];
    assert OccursAt(s, u, k + i);
    ContainsIff(s, u);
  }

  /** An occurrence in a string is an occurrence in any extension of it. */
  lemma {:induction false} OccursInExtension(s: string, u: string, t: string, k: nat)
    requires OccursAt(s, t, k)
    ensures OccursAt(s + u, t, k)
  {
    assert (s + u)[k..k + |t|] == s[k..k + |t|];
  }

  /** Occurrences of t in u are occurrences in s + u, shifted by |s|. */
  lemma {:induction false} OccursInAppended(s: string, u: string, t: string, k: nat)
    ensures OccursAt(u, t, k) <==> OccursAt(s + u, t, |s| + k)
  {
    assert (s + u)[|s|..] == u;
    OccursInSuffix(s + u, |s|, t, k);
  }

  /** A text found in the lowered middle of a + b + c is found in the lowered whole. */
  lemma {:induction false} ContainsLowered(a: string, b: string, c: string, t: string)
    requires Contains(LowerAscii(b), t)
    ensures Contains(LowerAscii(a + b + c), t)
  {
    var s := a + b + c;
    var low, lb := LowerAscii(s), LowerAscii(b);
    var k := Find(lb, t);
    forall j | 0 <= j < |t| ensures low[|a| + k + j] == t[j] {
      assert s[|a| + k + j] == b[k + j];
      assert lb[k..k + |t|][j] == lb[k + j];
    }
    assert low[|a| + k..|a| + k + |t|] == t;
    assert OccursAt(low, t, |a| + k);
    ContainsIff(low, t);
  }

  // ---------------------------------------------------------------------------
  // Splitting and joining (Python str.split / str.join with a non-empty separator)
  // ---------------------------------------------------------------------------

  /** `sep.join(parts)`. */
  function Join(parts: seq<string>, sep: string): string
    decreases |parts|
  {
    if |parts| == 0 then ""
    else if |parts| == 1 then parts[0]
    else parts[0] + sep + Join(parts[1..], sep)
  }

  /** `s.split(sep)`: cut at every occurrence of sep, scanning left to right. */
  function Split(s: string, sep: string): (parts: seq<string>)
    requires |sep| > 0
    ensures |parts| >= 1
    decreases |s|
  {
    var k := Find(s, sep);
    if k < 0 then [s] else [s[..k]] + Split(s[k + |sep|..], sep)
  }

  /** The text before the first occurrence of sep (all of s if there is none). */
  function Before(s: string, sep: string): (r: string)
    ensures Find(s, sep) < 0 ==> r == s
    ensures Find(s, sep) >= 0 ==> r == s[..Find(s, sep)]
  {
    var k := Find(s, sep);
    if k < 0 then s else s[..k]
  }

  /** The text after the first occurrence of sep. */
  function After(s: string, sep: string): (r: string)
    requires Contains(s, sep)
    ensures s == Before(s, sep) + sep + r
  {
    var k := Find(s, sep);
    assert s == s[..k] + s[k..k + |sep|] + s[k + |sep|..];
    s[k + |sep|..]
  }

  /** Joining a non-empty tail after a head puts one separator between them. */
  lemma {:induction false} JoinCons(head: string, tail: seq<string>, sep: string)
    requires |tail| >= 1
    ensures Join([head] + tail, sep) == head + sep + Join(tail, sep)
  {
    assert ([head] + tail)[1..] == tail;
  }

  /** A split has one piece exactly when the separator does not occur. */
  lemma {:induction false} SplitSingle(s: string, sep: string)
    requires |sep| > 0
    ensures |Split(s, sep)| == 1 <==> !Contains(s, sep)
  {
    if Contains(s, sep) {
      SplitAt(s, sep, Find(s, sep));
    }
  }

  /** A split that finds the separator at k: the text before it, then the split of the rest. */
  lemma {:induction false} SplitAt(s: string, sep: string, k: int)
    requires |sep| > 0
    requires k == Find(s, sep) && k >= 0
    ensures Split(s, sep) == [s[..k]] + Split(s[k + |sep|..], sep)
  {
  }

  /** Joining the pieces of a split with the same separator gives back the string. */
  lemma {:induction false} JoinSplit(s: string, sep: string)
    requires |sep| > 0
    ensures Join(Split(s, sep), sep) == s
    decreases |s|
  {
    var k := Find(s, sep);
    if k >= 0 {
      var rest := s[k + |sep|..];
      JoinSplit(rest, sep);
      SplitAt(s, sep, k);
      JoinCons(s[..k], Split(rest, sep), sep);
      assert s[k..k + |sep|] == sep;
      assert s == s[..k] + s[k..k + |sep|] + rest;
    }
  }

  /** No piece of a split contains the separator. */
  lemma {:induction false} SplitPartsFree(s: string, sep: string, i: nat)
    requires |sep| > 0
    requires i < |Split(s, sep)|
    ensures !Contains(Split(s, sep)[i], sep)
    decreases |s|
  {
    var k := Find(s, sep);
    if k >= 0 {
      if i == 0 {
        if Contains(s[..k], sep) {
          var j := Find(s[..k], sep);
          OccursInPrefix(s, k, sep, j);
          assert false;
        }
      } else {
        SplitPartsFree(s[k + |sep|..], sep, i - 1);
      }
    }
  }

  /** Unfolds one step of a split that finds the separator. */
  lemma {:induction false} SplitStep(s: string, sep: string)
    requires |sep| > 0
    requires Contains(s, sep)
    ensures Split(s, sep) == [Before(s, sep)] + Split(After(s, sep), sep)
  {
  }

  /** The first piece of a split is the text before the first separator, the rest re-joined is the text after it. */
  lemma {:induction false} SplitHeadTail(s: string, sep: string)
    requires |sep| > 0
    ensures Split(s, sep)[0] == Before(s, sep)
    ensures Contains(s, sep) ==> Join(Split(s, sep)[1..], sep) == After(s, sep)
  {
    if Contains(s, sep) {
      SplitStep(s, sep);
      assert Split(s, sep)[1..] == Split(After(s, sep), sep);
      JoinSplit(After(s, sep), sep);
    }
  }

  /** The second piece of a split is the text between the first and second separators. */
  lemma {:induction false} SplitSecond(s: string, sep: string)
    requires |sep| > 0
    requires Contains(s, sep)
    ensures |Split(s, sep)| >= 2
    ensures Split(s, sep)[1] == Before(After(s, sep), sep)
  {
    var k := Find(s, sep);
    var rest := s[k + |sep|..];
    SplitAt(s, sep, k);
    assert After(s, sep) == rest;
    assert Split(rest, sep)[0] == Before(rest, sep);
  }

  /** `s.replace(target, replacement)` in Python (every non-overlapping occurrence, left to right). */
  function ReplaceAll(s: string, target: string, replacement: string): (r: string)
    requires |target| > 0
    ensures !Contains(s, target) ==> r == s
    ensures target == replacement ==> r == s
  {
    JoinSplit(s, target);
    Join(Split(s, target), replacement)
  }

  // ---------------------------------------------------------------------------
  // Character-wise rewriting
  // ---------------------------------------------------------------------------

  /** Replaces every character satisfying p by c and leaves the others alone. */
  function ReplaceWhere(s: string, p: char -> bool, c: char): (r: string)
    ensures |r| == |s|
    ensures forall k :: 0 <= k < |s| ==> r[k] == (if p(s[k]) then c else s[k])
    decreases |s|
  {
    if |s| == 0 then "" else [if p(s[0]) then c else s[0]] + ReplaceWhere(s[1..], p, c)
  }

  /** Before the first occurrence of [c], no character is c. */
  lemma {:induction false} NoCharBefore(s: string, c: char, k: int)
    requires k == Find(s, [c])
    ensures forall i :: 0 <= i < |s| && (k < 0 || i < k) ==> s[i] != c
  {
    forall i | 0 <= i < |s| && (k < 0 || i < k) ensures s[i] != c {
      assert !OccursAt(s, [c], i);
      assert s[i..i + 1] == [s[i]];
    }
  }

  /** Rewriting where no character satisfies p changes nothing. */
  lemma {:induction false} ReplaceWhereAbsent(s: string, p: char -> bool, d: char)
    requires forall i :: 0 <= i < |s| ==> !p(s[i])
    ensures ReplaceWhere(s, p, d) == s
  {
  }

  /** Python's replace at the first occurrence of [c]: the text before it, [d], then the replaced rest. */
  lemma {:induction false} ReplaceAllAt(s: string, c: char, d: char, k: int)
    requires k == Find(s, [c]) && k >= 0
    ensures ReplaceAll(s, [c], [d]) == s[..k] + [d] + ReplaceAll(s[k + 1..], [c], [d])
  {
    SplitAt(s, [c], k);
    JoinCons(s[..k], Split(s[k + 1..], [c]), [d]);
  }

  /** Rewriting s whose first character in p sits at k: the head is kept, that character becomes d, the rest is rewritten. */
  lemma {:induction false} ReplaceWhereAt(s: string, k: nat, p: char -> bool, d: char)
    requires k < |s| && p(s[k])
    requires forall i :: 0 <= i < k ==> !p(s[i])
    ensures ReplaceWhere(s, p, d) == s[..k] + [d] + ReplaceWhere(s[k + 1..], p, d)
  {
    var l, r := ReplaceWhere(s, p, d), s[..k] + [d] + ReplaceWhere(s[k + 1..], p, d);
    assert |l| == |r|;
    forall i | 0 <= i < |l| ensures l[i] == r[i] {
      if i < k {
        assert r[i] == s[i];
      } else if i > k {
        assert r[i] == ReplaceWhere(s[k + 1..], p, d)[i - k - 1];
        assert s[k + 1..][i - k - 1] == s[i];
      }
    }
  }

  /** One step of the induction below: the first [c] is rewritten and the rest is rewritten alike. */
  lemma {:induction false} ReplaceCharStep(s: string, c: char, d: char, k: int)
    requires k == Find(s, [c]) && k >= 0
    requires ReplaceAll(s[k + 1..], [c], [d]) == ReplaceWhere(s[k + 1..], x => x == c, d)
    ensures ReplaceAll(s, [c], [d]) == ReplaceWhere(s, x => x == c, d)
  {
    var p := x => x == c;
    assert forall i :: 0 <= i < k ==> !p(s[i]) by { NoCharBefore(s, c, k); }
    assert p(s[k]) by { assert s[k..k + 1] == [c]; }
    ReplaceAllAt(s, c, d, k);
    ReplaceWhereAt(s, k, p, d);
  }

  /** Replacing a one-character string by a one-character string rewrites character by character. */
  lemma {:induction false} ReplaceCharIsCharwise(s: string, c: char, d: char)
    ensures ReplaceAll(s, [c], [d]) == ReplaceWhere(s, x => x == c, d)
    decreases |s|
  {
    var k := Find(s, [c]);
    if k < 0 {
      NoCharBefore(s, c, k);
      ReplaceWhereAbsent(s, x => x == c, d);
    } else {
      ReplaceCharIsCharwise(s[k + 1..], c, d);
      ReplaceCharStep(s, c, d, k);
    }
  }

  function AsciiLower(c: char): char {
    if 'A' <= c <= 'Z' then (c as int + 32) as char else c
  }

  /** ASCII lower-casing; see README for why this is exact where the model uses it. */
  function LowerAscii(s: string): (r: string)
    ensures |r| == |s|
    ensures forall k :: 0 <= k < |s| ==> r[k] == AsciiLower(s[k])
    decreases |s|
  {
    if |s| == 0 then "" else [AsciiLower(s[0])] + LowerAscii(s[1..])
  }

  /** Number of UTF-16 code units of s, which JavaScript's `length` counts. */
  function Utf16Length(s: string): (n: nat)
    ensures |s| <= n <= 2 * |s|
    decreases |s|
  {
    if |s| == 0 then 0 else (if s[0] as int > 0xFFFF then 2 else 1) + Utf16Length(s[1..])
  }

  /** A string of n copies of c. */
  function Repeat(c: char, n: nat): (r: string)
    ensures |r| == n
    ensures forall k :: 0 <= k < n ==> r[k] == c
  {
    if n == 0 then "" else [c] + Repeat(c, n - 1)
  }

  // ---------------------------------------------------------------------------
  // Decimal numbers
  // ---------------------------------------------------------------------------

  function DigitChar(d: nat): (c: char)
    requires d < 10
    ensures IsDigit(c)
  {
    ('0' as int + d) as char
  }

  function DigitValue(c: char): (d: nat)
    requires IsDigit(c)
    ensures d < 10
  {
    c as int - '0' as int
  }

  /** The value of a string of decimal digits. */
  function ParseDigits(s: string): nat
    requires AllDigits(s)
    decreases |s|
  {
    if |s| == 0 then 0 else 10 * ParseDigits(s[..|s| - 1]) + DigitValue(s[|s| - 1])
  }

  /** Decimal rendering of n without leading zeros (JavaScript String(n), Python str(n)). */
  function NatToString(n: nat): (s: string)
    ensures |s| >= 1 && AllDigits(s)
    ensures |s| > 1 ==> s[0] != '0'
    decreases n
  {
    if n < 10 then [DigitChar(n)] else NatToString(n / 10) + [DigitChar(n % 10)]
  }

  /** Decimal rendering of an integer with a leading '-' when negative. */
  function IntToString(n: int): string {
    if n < 0 then "-" + NatToString(-n) else NatToString(n)
  }

  /** Reading back the decimal rendering gives the number. */
  lemma {:induction false} ParseNatToString(n: nat)
    ensures ParseDigits(NatToString(n)) == n
    decreases n
  {
    if n >= 10 {
      ParseNatToString(n / 10);
      var s := NatToString(n);
      assert s[..|s| - 1] == NatToString(n / 10);
    }
  }

  /** Distinct numbers have distinct renderings. */
  lemma {:induction false} NatToStringInjective(m: nat, n: nat)
    requires NatToString(m) == NatToString(n)
    ensures m == n
  {
    ParseNatToString(m);
    ParseNatToString(n);
  }

  /** JavaScript `s.padStart(width, fill)`: left-pad with fill up to width characters. */
  function PadStart(s: string, width: nat, fill: char): (r: string)
    ensures |r| == if |s| >= width then |s| else width
    ensures EndsWith(r, s)
    ensures forall k :: 0 <= k < |r| - |s| ==> r[k] == fill
  {
    if |s| >= width then s else Repeat(fill, width - |s|) + s
  }

  /** Python `s.zfill(width)`: left-pad with '0' after an optional leading sign. */
  function ZFill(s: string, width: nat): (r: string)
    ensures |r| == if |s| >= width then |s| else width
    ensures |s| > 0 && s[0] != '+' && s[0] != '-' ==> r == PadStart(s, width, '0')
  {
    if |s| >= width then s
    else if |s| > 0 && (s[0] == '+' || s[0] == '-') then [s[0]] + Repeat('0', width - |s|) + s[1..]
    else Repeat('0', width - |s|) + s
  }
}
