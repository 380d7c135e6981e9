/**
 * src/utils/validation.js: the four validators.  Each takes the value as the
 * request delivered it (None is `undefined`) and answers with
 * `{ isValid: true }` or `{ isValid: false, error }`.  `new URL` is a
 * parameter.
 */
module Validation {
  import opened Wrappers
  import opened Strings
  import opened Json
  import opened Process

  /** `{ isValid: true }` or `{ isValid: false, error }`. */
  datatype Verdict = Valid | Invalid(error: string)

  /** `!v || typeof v !== 'string'`: the value is a string other than "". */
  predicate IsNonEmptyString(v: Option<Json>) {
    JsTruthy(v) && v.value.JStr?
  }

  /** `needles.some(n => s.includes(n))` */
  function IncludesAny(s: string, needles: seq<string>): (b: bool)
    ensures b <==> exists i :: 0 <= i < |needles| && Contains(s, needles[i])
    decreases |needles|
  {
    if |needles| == 0 then false
    else if Contains(s, needles[0]) then true
    else
      var b := IncludesAny(s, needles[1..]);
      assert forall i :: 1 <= i < |needles| ==> needles[i] == needles[1..][i - 1];
      b
  }

  const NotAString := "URL must be a non-empty string"
  const BadUrl := "Invalid URL format"
  const NotSpotify := "URL must be a valid Spotify URL"
  const NotAResource := "URL must point to a track, playlist, album, episode, or show"

  /** The path fragments `validateSpotifyUrl` accepts, in the order it tries them. */
  const ValidPaths := ["/track/", "/playlist/", "/album/", "/episode/", "/show/"]

  /**
   * `validateSpotifyUrl`: the value must be a non-empty string, `new URL`
   * must accept it, its hostname must contain "spotify.com" (the test for
   * "open.spotify.com" adds nothing) and its pathname one of ValidPaths.
   * The first check that fails names the error.
   */
  function ValidateSpotifyUrl(url: Option<Json>, parseUrl: UrlParser): (v: Verdict)
    ensures v.Valid? <==>
              IsNonEmptyString(url) && parseUrl(url.value.s).Some? &&
              Contains(parseUrl(url.value.s).value.hostname, "spotify.com") &&
              IncludesAny(parseUrl(url.value.s).value.pathname, ValidPaths)
    ensures !IsNonEmptyString(url) ==> v == Invalid(NotAString)
    ensures IsNonEmptyString(url) && parseUrl(url.value.s).None? ==> v == Invalid(BadUrl)
    ensures (IsNonEmptyString(url) && parseUrl(url.value.s).Some? &&
             !Contains(parseUrl(url.value.s).value.hostname, "spotify.com")) ==> v == Invalid(NotSpotify)
    ensures (IsNonEmptyString(url) && parseUrl(url.value.s).Some? &&
             Contains(parseUrl(url.value.s).value.hostname, "spotify.com") &&
             !IncludesAny(parseUrl(url.value.s).value.pathname, ValidPaths)) ==> v == Invalid(NotAResource)
  {
    if !JsTruthy(url) || !url.value.JStr? then Invalid(NotAString)
    else
      match parseUrl(url.value.s)
      case None => Invalid(BadUrl)
      case Some(u) =>
        if !Contains(u.hostname, "spotify.com") && !Contains(u.hostname, "open.spotify.com") then Invalid(NotSpotify)
        else
          assert Contains(u.hostname, "spotify.com") by {
            if Contains(u.hostname, "open.spotify.com") {
              OpenSpotifyHost(u.hostname);
            }
          }
          if !IncludesAny(u.pathname, ValidPaths) then Invalid(NotAResource)
          else Valid
  }

  /** Any parsed URL whose host and path contain the required fragments is valid; the fragments may sit anywhere. */
  lemma SpotifyUrlFragmentsAnywhere(url: string, parseUrl: UrlParser, host: string, path: string)
    requires url != ""
    requires parseUrl(url) == Some(UrlParts(host, path))
    requires Contains(host, "spotify.com")
    requires Contains(path, "/playlist/")
    ensures ValidateSpotifyUrl(Some(JStr(url)), parseUrl) == Valid
  {
    assert ValidPaths[1] == "/playlist/";
  }

  const NotYouTube := "URL must be a valid YouTube URL"

  /** `validateYouTubeUrl`: a non-empty string whose hostname contains "youtube.com" or "youtu.be". */
  function ValidateYouTubeUrl(url: Option<Json>, parseUrl: UrlParser): (v: Verdict)
    ensures v.Valid? <==>
              IsNonEmptyString(url) && parseUrl(url.value.s).Some? &&
              (Contains(parseUrl(url.value.s).value.hostname, "youtube.com") ||
               Contains(parseUrl(url.value.s).value.hostname, "youtu.be"))
    ensures !IsNonEmptyString(url) ==> v == Invalid(NotAString)
    ensures IsNonEmptyString(url) && parseUrl(url.value.s).None? ==> v == Invalid(BadUrl)
    ensures IsNonEmptyString(url) && v.Invalid? && parseUrl(url.value.s).Some? ==> v == Invalid(NotYouTube)
  {
    if !JsTruthy(url) || !url.value.JStr? then Invalid(NotAString)
    else
      match parseUrl(url.value.s)
      case None => Invalid(BadUrl)
      case Some(u) =>
        var isYouTube := Contains(u.hostname, "youtube.com") || Contains(u.hostname, "youtu.be");
        if !isYouTube then Invalid(NotYouTube) else Valid
  }

  const EmptyQuery := "Search query must be a non-empty string"
  const LongQuery := "Search query is too long (max 200 characters)"
  const MaxQueryLength := 200

  /**
   * `validateSearchQuery`: a string whose trimmed length, in UTF-16 code
   * units, is between 1 and 200.
   */
  function ValidateSearchQuery(query: Option<Json>): (v: Verdict)
    ensures v.Valid? <==>
              query.Some? && query.value.JStr? && 1 <= Utf16Length(JsTrim(query.value.s)) <= MaxQueryLength
    ensures v.Invalid? ==> v.error == EmptyQuery || v.error == LongQuery
    ensures v == Invalid(LongQuery) <==>
              query.Some? && query.value.JStr? && Utf16Length(JsTrim(query.value.s)) > MaxQueryLength
  {
    if !JsTruthy(query) || !query.value.JStr? || Utf16Length(JsTrim(query.value.s)) == 0 then
      assert query.Some? && query.value.JStr? && query.value.s == "" ==> |JsTrim(query.value.s)| == 0;
      Invalid(EmptyQuery)
    else if Utf16Length(JsTrim(query.value.s)) > MaxQueryLength then Invalid(LongQuery)
    else Valid
  }

  /** A query made only of whitespace is empty. */
  lemma BlankQueryRejected(s: string)
    requires forall k :: 0 <= k < |s| ==> IsJsSpace(s[k])
    ensures ValidateSearchQuery(Some(JStr(s))) == Invalid(EmptyQuery)
  {
    StripWhereSpec(s, IsJsSpace);
  }

  const EmptyPath := "Path must be a non-empty string"
  const Traversal := "Path traversal is not allowed"

  /** `validatePath`: a string, not blank, containing neither "../" nor "..\". */
  function ValidatePath(path: Option<Json>): (v: Verdict)
    ensures v.Valid? <==>
              path.Some? && path.value.JStr? && JsTrim(path.value.s) != "" &&
              !Contains(path.value.s, "../") && !Contains(path.value.s, "..\\")
    ensures v.Invalid? ==> v.error == EmptyPath || v.error == Traversal
    ensures v == Invalid(EmptyPath) <==> !(path.Some? && path.value.JStr? && JsTrim(path.value.s) != "")
  {
    if !JsTruthy(path) || !path.value.JStr? || Utf16Length(JsTrim(path.value.s)) == 0 then
      Invalid(EmptyPath)
    else if Contains(path.value.s, "../") || Contains(path.value.s, "..\\") then Invalid(Traversal)
    else Valid
  }

  /** In an accepted path no ".." is followed by a slash or a backslash. */
  lemma AcceptedPathHasNoParentStep(s: string)
    requires ValidatePath(Some(JStr(s))).Valid?
    ensures forall k :: 0 <= k && k + 2 < |s| && s[k] == '.' && s[k + 1] == '.' ==> s[k + 2] != '/' && s[k + 2] != '\\'
  {
    assert Find(s, "../") == -1 && Find(s, "..\\") == -1;
    forall k | 0 <= k && k + 2 < |s| && s[k] == '.' && s[k + 1] == '.'
      ensures s[k + 2] != '/' && s[k + 2] != '\\'
    {
      OccursAtThree(s, "../", k);
      OccursAtThree(s, "..\\", k);
    }
  }

  /** A ".." that ends the path, or the path "..", is accepted: only ".." followed by a separator is caught. */
  lemma TrailingParentAccepted()
    ensures ValidatePath(Some(JStr(".."))) == Valid
    ensures ValidatePath(Some(JStr("a/.."))) == Valid
  {
    StripClean("..", IsJsSpace);
    StripClean("a/..", IsJsSpace);
    ContainsIff("..", "../");
    ContainsIff("..", "..\\");
    ContainsIff("a/..", "../");
    ContainsIff("a/..", "..\\");
  }
}
