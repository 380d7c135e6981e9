/**
 * Locating the JSON object in a collaborator's mixed standard output.
 *
 * Two rules are in use.  The brace-depth rule (models/SpotifyModel.js) takes
 * the text from the first '{' up to the point where the count of '{' minus
 * the count of '}' first returns to zero.  The first/last rule (the download
 * service and src/models/SpotifyMetadata.js) takes the text from the first
 * '{' to the last '}', and hands the whole text to the parser when there is
 * no such pair.  Braces inside string literals count like any others.
 */
module JsonSpan {
  import opened Wrappers
  import opened Strings

  function BraceStep(c: char): int {
    if c == '{' then 1 else if c == '}' then -1 else 0
  }

  /** The brace balance of s[i..j]: the number of '{' minus the number of '}'. */
  function Depth(s: string, i: nat, j: nat): int
    requires i <= j <= |s|
    decreases j - i
  {
    if i == j then 0 else Depth(s, i, j - 1) + BraceStep(s[j - 1])
  }

  lemma {:induction false} DepthCounts(s: string, i: nat, j: nat)
    requires i <= j <= |s|
    ensures Depth(s, i, j) == multiset(s[i..j])['{'] as int - multiset(s[i..j])['}'] as int
    decreases j - i
  {
    if i < j {
      DepthCounts(s, i, j - 1);
      assert s[i..j] == s[i..j - 1] + [s[j - 1]];
    }
  }

  // ---------------------------------------------------------------------------
  // Brace-depth rule
  // ---------------------------------------------------------------------------

  datatype SpanError = NoJsonFound | InvalidStructure

  function SpanErrorMessage(e: SpanError): string {
    match e
    case NoJsonFound => "No JSON found in output"
    case InvalidStructure => "Invalid JSON structure"
  }

  /** The inclusive bounds of the extracted object: s[start..end + 1]. */
  datatype Span = Span(start: nat, end: nat)

  /**
   * The scan from index i with `open` braces outstanding: the index of the
   * '}' that brings the count back to zero, or -1 when the text ends first.
   */
  function CloseIndex(s: string, i: nat, open: int): (r: int)
    requires i <= |s|
    ensures r == -1 || i <= r < |s|
    decreases |s| - i
  {
    if i == |s| then -1
    else if s[i] == '{' then CloseIndex(s, i + 1, open + 1)
    else if s[i] == '}' then (if open - 1 == 0 then i else CloseIndex(s, i + 1, open - 1))
    else CloseIndex(s, i + 1, open)
  }

  lemma {:induction false} CloseIndexSpec(s: string, start: nat, i: nat, open: int)
    requires start < i <= |s|
    requires open == Depth(s, start, i)
    requires forall k :: start < k <= i ==> Depth(s, start, k) > 0
    ensures CloseIndex(s, i, open) < 0 ==>
              forall k :: start < k <= |s| ==> Depth(s, start, k) > 0
    ensures CloseIndex(s, i, open) >= 0 ==>
              var e := CloseIndex(s, i, open);
              i <= e < |s| && s[e] == '}' && Depth(s, start, e + 1) == 0 &&
              forall k :: start < k <= e ==> Depth(s, start, k) > 0
    decreases |s| - i
  {
    if i < |s| {
      assert Depth(s, start, i + 1) == open + BraceStep(s[i]);
      if s[i] == '}' && open - 1 == 0 {
      } else {
        CloseIndexSpec(s, start, i + 1, open + BraceStep(s[i]));
      }
    }
  }

  lemma {:induction false} CloseIndexOfPrefix(s: string, t: string, i: nat, open: int)
    requires i <= |s|
    requires CloseIndex(s, i, open) >= 0
    ensures CloseIndex(s + t, i, open) == CloseIndex(s, i, open)
    decreases |s| - i
  {
    assert (s + t)[i] == s[i];
    if s[i] == '{' {
      CloseIndexOfPrefix(s, t, i + 1, open + 1);
    } else if s[i] == '}' {
      if open - 1 != 0 {
        CloseIndexOfPrefix(s, t, i + 1, open - 1);
      }
    } else {
      CloseIndexOfPrefix(s, t, i + 1, open);
    }
  }

  /** The brace-depth rule over the trimmed output; DepthSpanSpec says what it selects. */
  function DepthSpan(s: string): (r: Result<Span, SpanError>)
    ensures r.Success? ==> r.value.start <= r.value.end < |s|
  {
    var start := IndexOfChar(s, '{');
    if start < 0 then Failure(NoJsonFound)
    else
      var e := CloseIndex(s, start, 0);
      if e < 0 then Failure(InvalidStructure) else Success(Span(start, e))
  }

  /**
   * The brace-depth rule fails with NoJsonFound exactly when there is no '{'.
   * On success the span starts at the first '{' and ends at the first '}'
   * that brings the balance back to zero; the balance is positive everywhere
   * in between.  It fails with InvalidStructure exactly when the balance
   * stays positive to the end of the text.
   */
  lemma DepthSpanSpec(s: string)
    ensures var r := DepthSpan(s);
            (r == Failure(NoJsonFound) <==> IndexOfChar(s, '{') < 0) &&
            (r.Success? ==>
              r.value.start == IndexOfChar(s, '{') && r.value.start < r.value.end < |s| &&
              s[r.value.end] == '}' && Depth(s, r.value.start, r.value.end + 1) == 0 &&
              forall k :: r.value.start < k <= r.value.end ==> Depth(s, r.value.start, k) > 0) &&
            (r == Failure(InvalidStructure) <==>
              0 <= IndexOfChar(s, '{') &&
              forall k :: IndexOfChar(s, '{') < k <= |s| ==> Depth(s, IndexOfChar(s, '{'), k) > 0)
  {
    var start := IndexOfChar(s, '{');
    if start >= 0 {
      assert Depth(s, start, start + 1) == 1;
      CloseIndexSpec(s, start, start + 1, 1);
    }
  }

  /** The loop of models/SpotifyModel.js:54-76 over the trimmed output. */
  method ScanDepthSpan(s: string) returns (r: Result<Span, SpanError>)
    ensures r == DepthSpan(s)
  {
    var jsonStart := IndexOfChar(s, '{');
    if jsonStart == -1 {
      return Failure(NoJsonFound);
    }
    var openBraces := 0;
    var jsonEnd := -1;
    var i := jsonStart;
    while i < |s|
      invariant jsonStart <= i <= |s|
      invariant CloseIndex(s, jsonStart, 0) == CloseIndex(s, i, openBraces)
      decreases |s| - i
    {
      if s[i] == '{' {
        openBraces := openBraces + 1;
      } else if s[i] == '}' {
        openBraces := openBraces - 1;
        if openBraces == 0 {
          jsonEnd := i;
          break;
        }
      }
      i := i + 1;
    }
    if jsonEnd == -1 {
      return Failure(InvalidStructure);
    }
    return Success(Span(jsonStart, jsonEnd));
  }

  /** The extracted object starts with '{', ends with '}' and holds as many of one as of the other. */
  lemma DepthSpanBalanced(s: string)
    requires DepthSpan(s).Success?
    ensures var sp := DepthSpan(s).value;
            s[sp.start] == '{' && s[sp.end] == '}' &&
            multiset(s[sp.start..sp.end + 1])['{'] == multiset(s[sp.start..sp.end + 1])['}']
  {
    DepthSpanSpec(s);
    var sp := DepthSpan(s).value;
    DepthCounts(s, sp.start, sp.end + 1);
  }

  /** Text after the first balanced object does not change what is extracted. */
  lemma DepthSpanIgnoresSuffix(s: string, t: string)
    requires DepthSpan(s).Success?
    ensures DepthSpan(s + t) == DepthSpan(s)
  {
    DepthSpanSpec(s);
    var start := IndexOfChar(s, '{');
    assert (s + t)[start] == '{';
    assert forall k :: 0 <= k < start ==> (s + t)[k] == s[k];
    assert IndexOfChar(s + t, '{') == start;
    CloseIndexOfPrefix(s, t, start, 0);
  }

  // ---------------------------------------------------------------------------
  // First/last rule
  // ---------------------------------------------------------------------------

  /** There is a '{' at or before some '}'. */
  ghost predicate HasBracePair(t: string) {
    exists a, b :: 0 <= a <= b < |t| && t[a] == '{' && t[b] == '}'
  }

  /** The first '{' and the last '}', when both exist and the '}' is not before the '{'. */
  function FirstLastBounds(t: string): (r: Option<Span>)
    ensures r.Some? <==> HasBracePair(t)
    ensures r.Some? ==>
              r.value.start <= r.value.end < |t| &&
              t[r.value.start] == '{' && t[r.value.end] == '}' &&
              (forall k :: 0 <= k < r.value.start ==> t[k] != '{') &&
              (forall k :: r.value.end < k < |t| ==> t[k] != '}')
  {
    var a := IndexOfChar(t, '{');
    var b := LastIndexOfChar(t, '}');
    if a != -1 && b != -1 && b >= a then Some(Span(a, b)) else None
  }

  /** The text the first/last rule hands to the parser. */
  function FirstLastText(t: string): (r: string)
    ensures HasBracePair(t) ==>
              |r| >= 1 && r[0] == '{' && r[|r| - 1] == '}' && Contains(t, r)
    ensures !HasBracePair(t) ==> r == t
  {
    match FirstLastBounds(t)
    case Some(sp) =>
      assert OccursAt(t, t[sp.start..sp.end + 1], sp.start);
      assert FindFrom(t, t[sp.start..sp.end + 1], 0) >= 0;
      t[sp.start..sp.end + 1]
    case None => t
  }

  /** Applying the first/last rule to its own result changes nothing. */
  lemma FirstLastIdempotent(t: string)
    ensures FirstLastText(FirstLastText(t)) == FirstLastText(t)
  {
    if FirstLastBounds(t).Some? {
      var sp := FirstLastBounds(t).value;
      var r := t[sp.start..sp.end + 1];
      assert FirstLastText(t) == r;
      assert r[0] == '{' && r[|r| - 1] == '}';
      FirstLastOfObject(r);
    }
  }

  /**
   * Text around the object that holds no '{' before it and no '}' after it
   * is cut away: the rule selects exactly the object.
   */
  lemma FirstLastOfWrapped(pre: string, body: string, post: string)
    requires |body| >= 1 && body[0] == '{' && body[|body| - 1] == '}'
    requires '{' !in pre && '}' !in post
    ensures FirstLastBounds(pre + body + post).Some?
    ensures FirstLastText(pre + body + post) == body
  {
    var t := pre + body + post;
    assert t[|pre|] == '{' && t[|pre| + |body| - 1] == '}';
    assert HasBracePair(t);
    var sp := FirstLastBounds(t).value;
    assert sp.start == |pre|;
    assert sp.end == |pre| + |body| - 1;
    assert t[sp.start..sp.end + 1] == body;
  }

  /** A text that starts with '{' and ends with '}' is selected whole. */
  lemma FirstLastOfObject(body: string)
    requires |body| >= 1 && body[0] == '{' && body[|body| - 1] == '}'
    ensures FirstLastBounds(body) == Some(Span(0, |body| - 1))
    ensures FirstLastText(body) == body
  {
    assert HasBracePair(body);
    assert body[0..|body|] == body;
  }

  /** A depth-rule span runs from the first '{' to a '}'. */
  lemma DepthSpanEnds(t: string)
    requires DepthSpan(t).Success?
    ensures var sp := DepthSpan(t).value;
            sp.start == IndexOfChar(t, '{') && sp.start < sp.end < |t| && t[sp.end] == '}'
  {
    DepthSpanSpec(t);
  }

  /**
   * When nothing after the first balanced object is a '}', the two rules
   * select the same text.
   */
  lemma RulesAgree(t: string)
    requires DepthSpan(t).Success?
    requires forall k :: DepthSpan(t).value.end < k < |t| ==> t[k] != '}'
    ensures var sp := DepthSpan(t).value;
            FirstLastText(t) == t[sp.start..sp.end + 1]
  {
    var sp := DepthSpan(t).value;
    DepthSpanEnds(t);
    LastIndexOfCharAt(t, '}', sp.end);
    assert LastIndexOfChar(t, '}') == sp.end;
    assert FirstLastBounds(t) == Some(Span(sp.start, sp.end));
    assert FirstLastText(t) == t[sp.start..sp.end + 1];
  }

  /** With two objects in the output the rules differ: the depth rule keeps the first only. */
  lemma RulesDiffer()
    ensures DepthSpan("{}{}") == Success(Span(0, 1))
    ensures FirstLastText("{}{}") == "{}{}"
  {
    var s := "{}{}";
    assert Depth(s, 0, 2) == 0;
    assert FirstLastBounds(s) == Some(Span(0, 3));
  }
}
