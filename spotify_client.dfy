/**
 * spotify/spotify_client.py, `SpotifyClient.get_track_info` on the path
 * without API credentials: the track ID is taken from the URL, the public
 * track page is fetched, and the track is read from the page's JSON-LD
 * block or, failing that, from its `<title>`.  `urlparse`/`parse_qs`, the
 * HTTP request and `json.loads` are parameters.
 */
module SpotifyClient {
  import opened Wrappers
  import opened Strings
  import opened Json

  // ---------------------------------------------------------------------------
  // Track ID (lines 53-76)
  // ---------------------------------------------------------------------------

  const NoTrackId := "Could not extract track ID from URL"
  const TrackUriPrefix := "spotify:track:"

  /** What `urlparse` and `parse_qs` deliver: the path and the `uri` query values. */
  datatype ParsedUrl = ParsedUrl(path: string, uris: seq<string>)

  /**
   * A character whose Python lower case is one character of [0-9a-z]: the ASCII
   * digits and letters, and KELVIN SIGN, which lowers to 'k'.
   */
  predicate LowersToBase36(c: char) {
    IsDigit(c) || IsAsciiLetter(c) || c == '\U{212A}'
  }

  /** A path part the scan accepts: 22 characters, each lowering into [0-9a-z]. */
  predicate IsIdCandidate(part: string) {
    |part| == 22 && forall k :: 0 <= k < |part| ==> LowersToBase36(part[k])
  }

  /** `path.strip('/').split('/')` */
  function PathParts(path: string): seq<string> {
    Split(PyStripChar(path, '/'), "/")
  }

  /** The index of the first candidate part, or |parts| when there is none. */
  function FirstCandidate(parts: seq<string>): (r: nat)
    ensures r <= |parts|
    ensures r < |parts| ==> IsIdCandidate(parts[r])
    ensures forall j :: 0 <= j < r ==> !IsIdCandidate(parts[j])
    decreases |parts|
  {
    if |parts| == 0 then 0
    else if IsIdCandidate(parts[0]) then 0
    else
      var r := 1 + FirstCandidate(parts[1..]);
      assert forall j :: 1 <= j < r ==> parts[j] == parts[1..][j - 1];
      r
  }

  /** The ID the path yields before the query fallback; None is the Python `None`. */
  function PathId(parts: seq<string>): Option<string> {
    if |parts| >= 2 && parts[0] == "track" then Some(parts[1])
    else if FirstCandidate(parts) < |parts| then Some(parts[FirstCandidate(parts)])
    else None
  }

  /** The last `:`-segment of a `spotify:track:` URI. */
  function UriId(uri: string): (r: string)
    ensures !Contains(r, ":")
  {
    var segments := Split(uri, ":");
    SplitPartsFree(uri, ":", |segments| - 1);
    segments[|segments| - 1]
  }

  /**
   * The three rules in order: `track/<id>`, the first candidate part, then the
   * first `uri` query value.  An ID that is "" counts as not found, so an empty
   * segment after `track` falls through to the query without the scan.
   */
  function TrackId(url: ParsedUrl): (r: Result<string, string>)
    ensures r.Success? ==> r.value != ""
    ensures r.Failure? ==> r.error == NoTrackId
    ensures PathId(PathParts(url.path)).Some? && PathId(PathParts(url.path)).value != "" ==>
              r == Success(PathId(PathParts(url.path)).value)
    ensures r.Success? && r.value != PathId(PathParts(url.path)).GetOr("") ==>
              |url.uris| > 0 && StartsWith(url.uris[0], TrackUriPrefix) &&
              r.value == UriId(url.uris[0]) && !Contains(r.value, ":")
    ensures PathId(PathParts(url.path)).GetOr("") == "" &&
            |url.uris| > 0 && StartsWith(url.uris[0], TrackUriPrefix) && UriId(url.uris[0]) != "" ==>
              r == Success(UriId(url.uris[0]))
    ensures r.Failure? <==>
              PathId(PathParts(url.path)).GetOr("") == "" &&
              !(|url.uris| > 0 && StartsWith(url.uris[0], TrackUriPrefix) && UriId(url.uris[0]) != "")
  {
    var fromPath := PathId(PathParts(url.path));
    if fromPath.Some? && fromPath.value != "" then Success(fromPath.value)
    else if |url.uris| > 0 && StartsWith(url.uris[0], TrackUriPrefix) && UriId(url.uris[0]) != "" then
      Success(UriId(url.uris[0]))
    else Failure(NoTrackId)
  }

  /** The `for part in path_parts` scan with its `break`. */
  method ScanForId(parts: seq<string>) returns (trackId: Option<string>)
    ensures trackId.Some? <==> FirstCandidate(parts) < |parts|
    ensures trackId.Some? ==> trackId.value == parts[FirstCandidate(parts)] && IsIdCandidate(trackId.value)
  {
    trackId := None;
    var i := 0;
    while i < |parts|
      invariant 0 <= i <= |parts|
      invariant forall j :: 0 <= j < i ==> !IsIdCandidate(parts[j])
    {
      var part := parts[i];
      var allBase36 := true;
      var k := 0;
      while k < |part|
        invariant 0 <= k <= |part|
        invariant allBase36 <==> forall m :: 0 <= m < k ==> LowersToBase36(part[m])
      {
        allBase36 := allBase36 && LowersToBase36(part[k]);
        k := k + 1;
      }
      if |part| == 22 && allBase36 {
        trackId := Some(part);
        return;
      }
      i := i + 1;
    }
  }

  /** Lines 53-76: the ID rules written as the source runs them. */
  method ExtractTrackId(url: ParsedUrl) returns (r: Result<string, string>)
    ensures r == TrackId(url)
  {
    var parts := PathParts(url.path);
    var trackId: Option<string> := None;
    if |parts| >= 2 && parts[0] == "track" {
      trackId := Some(parts[1]);
    } else {
      trackId := ScanForId(parts);
    }
    if trackId.None? || trackId.value == "" {
      if |url.uris| > 0 && StartsWith(url.uris[0], TrackUriPrefix) {
        trackId := Some(UriId(url.uris[0]));
      }
    }
    if trackId.None? || trackId.value == "" {
      return Failure(NoTrackId);
    }
    return Success(trackId.value);
  }

  // ---------------------------------------------------------------------------
  // JSON-LD duration (lines 132-139)
  // ---------------------------------------------------------------------------

  /** The length of the run of ASCII digits starting at p. */
  function DigitRun(s: string, p: nat): nat
    requires p <= |s|
  {
    LeadingCount(s[p..], IsDigit)
  }

  /** `(\d+)S` matches at p: a digit run starts there and the character after all of it is 'S'. */
  predicate SecondsAt(s: string, p: nat) {
    p < |s| && IsDigit(s[p]) && p + DigitRun(s, p) < |s| && s[p + DigitRun(s, p)] == 'S'
  }

  /** Inside a digit run, the run left from q is the rest of it. */
  lemma {:induction false} RunRest(s: string, i: nat)
    requires i <= |s|
    ensures forall q :: i <= q <= i + DigitRun(s, i) ==> DigitRun(s, q) == i + DigitRun(s, i) - q
    decreases |s| - i
  {
    if i < |s| && IsDigit(s[i]) {
      assert s[i..][1..] == s[i + 1..];
      RunRest(s, i + 1);
    }
  }

  /**
   * The leftmost match of `(\d+)S` at or after i.  The greedy run can only be
   * followed by 'S' at its end, so a run that fails is skipped whole.
   */
  function SecondsFrom(s: string, i: nat): (r: Option<nat>)
    requires i <= |s|
    ensures r.Some? ==> i <= r.value && SecondsAt(s, r.value)
    ensures r.Some? ==> forall q :: i <= q < r.value ==> !SecondsAt(s, q)
    ensures r.None? ==> forall q :: i <= q < |s| ==> !SecondsAt(s, q)
    decreases |s| - i
  {
    if i == |s| then None
    else if !IsDigit(s[i]) then SecondsFrom(s, i + 1)
    else
      var n := DigitRun(s, i);
      if i + n < |s| && s[i + n] == 'S' then Some(i)
      else
        RunRest(s, i);
        assert forall q :: i <= q < i + n ==> !SecondsAt(s, q);
        SecondsFrom(s, i + n)
  }

  /** The digits `re.search(r'(\d+)S', s)` captures, if it matches. */
  function SecondsDigits(s: string): (r: Option<string>)
    ensures r.Some? ==> |r.value| > 0 && AllDigits(r.value)
    ensures r.Some? <==> exists p :: 0 <= p < |s| && SecondsAt(s, p)
  {
    match SecondsFrom(s, 0)
    case None => None
    case Some(p) => Some(s[p..p + DigitRun(s, p)])
  }

  /** Python `key in v` for a decoded value. */
  function PyContains(v: Json, key: string): (r: Result<bool, string>)
    ensures r.Success? <==> v.JStr? || v.JArr? || v.JObj?
    ensures v.JStr? ==> r == Success(Contains(v.s, key))
  {
    match v
    case JStr(s) => Success(Contains(s, key))
    case JArr(a) => Success(JStr(key) in a)
    case JObj(m) => Success(key in m)
    case _ => Failure("argument of type '" + PyTypeName(v) + "' is not iterable")
  }

  /**
   * CPython's default limit on the digits `int()` converts from a string
   * (`sys.get_int_max_str_digits()`); a longer string raises ValueError.
   */
  const IntMaxStrDigits := 4300

  /**
   * Why reading a duration raised: a TypeError that escapes the JSON-LD
   * branch, or the ValueError of `int()` on too many digits, which line 150
   * catches.
   */
  datatype DurationError = Refused(msg: string) | TooManyDigits(count: nat)

  /**
   * The seconds-only reading of an ISO 8601 duration: 0 unless both "PT" and
   * "S" occur, then the first number before an 'S' times 1000.  A list or dict
   * holding both keys reaches `re.search`, which refuses it; a number of more
   * than IntMaxStrDigits digits makes `int()` raise.
   */
  function DurationMs(duration: Json): (r: Result<nat, DurationError>)
    ensures r.Success? ==> r.value % 1000 == 0
    ensures duration.JStr? ==> r.Success? || r.error.TooManyDigits?
    ensures (duration.JStr? && (!Contains(duration.s, "PT") || !Contains(duration.s, "S"))) ==>
              r == Success(0)
    ensures (duration.JStr? && Contains(duration.s, "PT") && Contains(duration.s, "S") &&
             SecondsDigits(duration.s).Some? && |SecondsDigits(duration.s).value| <= IntMaxStrDigits) ==>
              r == Success(ParseDigits(SecondsDigits(duration.s).value) * 1000)
    ensures (r.Failure? && r.error.TooManyDigits?) <==>
              duration.JStr? && Contains(duration.s, "PT") && Contains(duration.s, "S") &&
              SecondsDigits(duration.s).Some? && |SecondsDigits(duration.s).value| > IntMaxStrDigits
    ensures r.Failure? && r.error.TooManyDigits? ==> r.error.count == |SecondsDigits(duration.s).value|
    ensures !(duration.JStr? || duration.JArr? || duration.JObj?) ==> r.Failure? && r.error.Refused?
  {
    match PyContains(duration, "PT")
    case Failure(e) => Failure(Refused(e))
    case Success(hasPT) =>
      if !hasPT || !PyContains(duration, "S").value then Success(0)
      else if !duration.JStr? then
        var refused: Result<nat, DurationError> :=
          Failure(Refused("expected string or bytes-like object, got '" + PyTypeName(duration) + "'"));
        refused
      else
        match SecondsDigits(duration.s)
        case None => Success(0)
        case Some(d) =>
          if |d| > IntMaxStrDigits then Failure(TooManyDigits(|d|))
          else Success(ParseDigits(d) * 1000)
  }

  /** In "PT3M5S" the first digits followed by 'S' are "5": the minutes' "3" is followed by 'M'. */
  lemma SecondsAfterMinutes()
    ensures SecondsDigits("PT3M5S") == Some("5")
  {
    var s := "PT3M5S";
    assert s[2..] == "3M5S" && s[4..] == "5S" && s[5..] == "S";
    assert DigitRun(s, 2) == 1;
    assert DigitRun(s, 4) == 1;
    assert SecondsFrom(s, 4) == Some(4);
    assert SecondsFrom(s, 3) == Some(4);
    assert SecondsFrom(s, 2) == Some(4);
    assert SecondsFrom(s, 0) == Some(4);
    assert s[4..5] == "5";
  }

  /** Minutes are ignored: "PT3M5S" is five seconds. */
  lemma MinutesIgnored()
    ensures DurationMs(JStr("PT3M5S")) == Success(5000)
  {
    var s := "PT3M5S";
    assert Contains(s, "PT") by {
      assert OccursAt(s, "PT", 0);
      ContainsIff(s, "PT");
    }
    assert Contains(s, "S") by {
      assert OccursAt(s, "S", 5);
      ContainsIff(s, "S");
    }
    SecondsAfterMinutes();
    assert ParseDigits("5") == 5 by { assert "5"[..0] == ""; }
  }

  // ---------------------------------------------------------------------------
  // JSON-LD record (lines 116-149)
  // ---------------------------------------------------------------------------

  const UnknownTrack := "Unknown Track"
  const UnknownArtist := "Unknown Artist"
  const UnknownAlbum := "Unknown Album"
  const MusicRecording := "MusicRecording"

  /**
   * The record `get_track_info` returns: `artists` holds the `name` of each
   * `{'name': ...}` entry, `album` the album's `name`, `spotifyUrl` the
   * `external_urls.spotify` value; `preview_url` is always None.
   */
  datatype TrackInfo = TrackInfo(id: string, name: Json, artists: seq<Json>, album: Json,
                                 durationMs: nat, spotifyUrl: string)

  /** An artist's name, `artist.get('name', 'Unknown Artist')`. */
  function ArtistName(artist: Json): Result<Json, string> {
    PyGet(artist, "name", JStr(UnknownArtist))
  }

  /** The list comprehension over a `byArtist` list: every element must be a dict. */
  function ListArtists(a: seq<Json>): (r: Result<seq<Json>, string>)
    ensures r.Success? <==> forall i :: 0 <= i < |a| ==> a[i].JObj?
    ensures r.Success? ==> |r.value| == |a|
    ensures r.Success? ==> forall i :: 0 <= i < |a| ==> r.value[i] == ArtistName(a[i]).value
    ensures r.Failure? ==>
              (exists k :: 0 <= k < |a| && !a[k].JObj? && (forall j :: 0 <= j < k ==> a[j].JObj?) &&
                           r.error == ArtistName(a[k]).error)
    decreases |a|
  {
    if |a| == 0 then Success([])
    else
      match ArtistName(a[0])
      case Failure(e) => Failure(e)
      case Success(n) =>
        assert forall i :: 1 <= i < |a| ==> a[i] == a[1..][i - 1];
        match ListArtists(a[1..])
        case Failure(e) =>
          ghost var k :| 0 <= k < |a| - 1 && !a[1..][k].JObj? &&
                         (forall j :: 0 <= j < k ==> a[1..][j].JObj?) && e == ArtistName(a[1..][k]).error;
          assert forall j :: 0 <= j < k + 1 ==> a[j].JObj? by {
            forall j | 0 <= j < k + 1 ensures a[j].JObj? {
              if j > 0 { assert a[j] == a[1..][j - 1]; }
            }
          }
          Failure(e)
        case Success(rest) => Success([n] + rest)
  }

  /**
   * The artist names for a `byArtist` value: a list gives one per element, a
   * dict exactly one, anything else its `str()`.
   */
  function Artists(structured: map<string, Json>): (r: Result<seq<Json>, string>)
    ensures var d := if "byArtist" in structured then structured["byArtist"] else JObj(map[]);
            (d.JArr? ==> r == ListArtists(d.items)) &&
            (d.JObj? ==> r == Success([ArtistName(d).value])) &&
            (!d.JArr? && !d.JObj? ==> r == Success([JStr(PyStr(d))]))
    ensures r.Success? ==> |r.value| >= 1 || ("byArtist" in structured && structured["byArtist"] == JArr([]))
  {
    var artistData := PyGet(JObj(structured), "byArtist", JObj(map[])).value;
    if artistData.JArr? then ListArtists(artistData.items)
    else if artistData.JObj? then Success([ArtistName(artistData).value])
    else
      var artistName := PyGet(JObj(structured), "byArtist", JStr(UnknownArtist)).value;
      Success([JStr(PyStr(artistName))])
  }

  /** `album_data.get('name', 'Unknown Album') if album_data else 'Unknown Album'` */
  function AlbumName(structured: map<string, Json>): (r: Result<Json, string>)
    ensures !("inAlbum" in structured) || !PyTruthy(structured["inAlbum"]) ==> r == Success(JStr(UnknownAlbum))
    ensures r.Failure? <==> "inAlbum" in structured && PyTruthy(structured["inAlbum"]) && !structured["inAlbum"].JObj?
  {
    var albumData := PyGet(JObj(structured), "inAlbum", JObj(map[])).value;
    if PyTruthy(albumData) then PyGet(albumData, "name", JStr(UnknownAlbum)) else Success(JStr(UnknownAlbum))
  }

  /** The record's `@type` is "MusicRecording". */
  predicate IsRecording(m: map<string, Json>) {
    "@type" in m && m["@type"] == JStr(MusicRecording)
  }

  /** `structured_data.get('duration', 'PT0S')` */
  function DurationOf(m: map<string, Json>): Json {
    if "duration" in m then m["duration"] else JStr("PT0S")
  }

  /**
   * The JSON-LD branch: Success(None) when the title fallback runs, that is
   * when the value is a dict whose `@type` is not "MusicRecording" or whose
   * duration has too many digits for `int()`; a record when it is a
   * complete MusicRecording; and the error that escapes otherwise: `get` on a
   * non-dict, a non-dict artist or album, a duration that is not iterable.
   */
  function StructuredTrack(id: string, trackUrl: string, data: Json): (r: Result<Option<TrackInfo>, string>)
    ensures r.Success? ==> data.JObj?
    ensures r == Success(None) <==>
              data.JObj? &&
              (!IsRecording(data.fields) ||
               (Artists(data.fields).Success? && AlbumName(data.fields).Success? &&
                DurationMs(DurationOf(data.fields)).Failure? && DurationMs(DurationOf(data.fields)).error.TooManyDigits?))
    ensures r.Success? && r.value.Some? ==>
              var t := r.value.value;
              var m := data.fields;
              t.id == id && t.spotifyUrl == trackUrl && t.durationMs % 1000 == 0 &&
              t.name == (if "name" in m then m["name"] else JStr(UnknownTrack)) &&
              Success(t.artists) == Artists(m) && Success(t.album) == AlbumName(m) &&
              Success(t.durationMs) == DurationMs(DurationOf(m))
  {
    match PyGet(data, "@type", JNull)
    case Failure(e) => Failure(e)
    case Success(kind) =>
      if kind != JStr(MusicRecording) then Success(None)
      else
        var m := data.fields;
        var name := PyGet(data, "name", JStr(UnknownTrack)).value;
        match Artists(m)
        case Failure(e) => Failure(e)
        case Success(artists) =>
          match AlbumName(m)
          case Failure(e) => Failure(e)
          case Success(album) =>
            match DurationMs(PyGet(data, "duration", JStr("PT0S")).value)
            case Failure(TooManyDigits(_)) => Success(None)
            case Failure(Refused(e)) => Failure(e)
            case Success(ms) => Success(Some(TrackInfo(id, name, artists, album, ms, trackUrl)))
  }

  // ---------------------------------------------------------------------------
  // The two page regular expressions (lines 112 and 154)
  // ---------------------------------------------------------------------------

  const LdOpen := "<script type=\"application/ld+json\">"
  const LdClose := "</script>"
  const TitleOpen := "<title"

  /** The length of the run of characters other than '<' starting at q: what `[^<]*` takes. */
  function NonLtRun(s: string, q: nat): nat
    requires q <= |s|
  {
    LeadingCount(s[q..], x => x != '<')
  }

  /**
   * The JSON-LD pattern matches at p: the opening tag is there and the greedy
   * `[^<]*` after it stops at a closing tag.  Backing off the run never helps,
   * since the closing tag starts with '<'.
   */
  predicate LdAt(s: string, p: nat) {
    OccursAt(s, LdOpen, p) && OccursAt(s, LdClose, p + |LdOpen| + NonLtRun(s, p + |LdOpen|))
  }

  /** No match starts before the first opening tag at or after i. */
  lemma NoLdBeforeOpen(s: string, i: nat, p: int)
    requires i <= |s| && p == FindFrom(s, LdOpen, i)
    ensures p >= 0 ==> forall q: nat :: i <= q < p ==> !LdAt(s, q)
  {
  }

  /** The leftmost JSON-LD match at or after i. */
  function LdFrom(s: string, i: nat): (r: Option<nat>)
    requires i <= |s|
    ensures r.Some? ==> i <= r.value && LdAt(s, r.value)
    ensures r.Some? ==> forall q: nat :: i <= q < r.value ==> !LdAt(s, q)
    ensures r.None? ==> forall q: nat :: i <= q ==> !LdAt(s, q)
    decreases |s| - i
  {
    var p := FindFrom(s, LdOpen, i);
    NoLdBeforeOpen(s, i, p);
    if p < 0 then None
    else if LdAt(s, p) then Some(p)
    else
      assert forall q: nat :: i <= q <= p ==> !LdAt(s, q);
      LdFrom(s, p + 1)
  }

  /** The text `re.search(r'<script type="application/ld\+json">([^<]*)</script>', s)` captures. */
  function JsonLdText(s: string): (r: Option<string>)
    ensures r.Some? <==> exists p: nat :: LdAt(s, p)
    ensures r.Some? ==> '<' !in r.value
  {
    match LdFrom(s, 0)
    case None => None
    case Some(p) =>
      var q := p + |LdOpen|;
      Some(s[q..q + NonLtRun(s, q)])
  }

  /** `<title[^>]*>` matches at p: the tag name is there and some '>' follows it. */
  predicate TitleAt(s: string, p: nat) {
    OccursAt(s, TitleOpen, p) && FindFrom(s, ">", p + |TitleOpen|) >= 0
  }

  /**
   * The text `re.search(r'<title[^>]*>([^<]*)', s)` captures: `[^>]*` ends
   * at the first '>' after the first "<title", and the capture runs to the
   * next '<'.  When no '>' follows the first "<title", none follows a later one.
   */
  function TitleText(s: string): (r: Option<string>)
    ensures r.Some? <==> exists p: nat :: TitleAt(s, p)
    ensures r.Some? ==> '<' !in r.value
    ensures r.Some? ==> TitleAt(s, Find(s, TitleOpen)) && forall q: nat :: q < Find(s, TitleOpen) ==> !TitleAt(s, q)
  {
    var p := Find(s, TitleOpen);
    if p < 0 then None
    else
      var gt := FindFrom(s, ">", p + |TitleOpen|);
      if gt < 0 then
        assert forall q: nat :: !TitleAt(s, q) by {
          forall q: nat ensures !TitleAt(s, q) {
            if OccursAt(s, TitleOpen, q) {
              assert p <= q;
            }
          }
        }
        None
      else
        assert TitleAt(s, p);
        Some(s[gt + 1..gt + 1 + NonLtRun(s, gt + 1)])
  }

  // ---------------------------------------------------------------------------
  // Title parsing (lines 154-204)
  // ---------------------------------------------------------------------------

  const SpotifySuffix := " - Spotify"

  datatype TitleParts = TitleParts(song: string, artist: string)

  /** `full_title.replace(' - Spotify', '').strip()` */
  function CleanTitle(full: string): string {
    PyStrip(ReplaceAll(full, SpotifySuffix, ""))
  }

  /** `t.split(' · ')` with at least two parts: artist first, song second. */
  function DotParts(t: string): (r: TitleParts)
    requires Contains(t, " · ")
    ensures r == TitleParts(PyStrip(Before(After(t, " · "), " · ")), PyStrip(Before(t, " · ")))
  {
    var parts := Split(t, " · ");
    SplitHeadTail(t, " · ");
    SplitSecond(t, " · ");
    TitleParts(PyStrip(parts[1]), PyStrip(parts[0]))
  }

  /** Lines 170-181: the part before " | " split on " by ", else on " · ". */
  function ByParts(clean: string): (r: TitleParts)
    ensures var main := Before(clean, " | ");
            Contains(main, " by ") ==>
              r == TitleParts(PyStrip(Before(main, " by ")), PyStrip(Before(After(main, " by "), " by ")))
    ensures var main := Before(clean, " | ");
            !Contains(main, " by ") && Contains(main, " · ") ==> r == DotParts(main)
    ensures var main := Before(clean, " | ");
            !Contains(main, " by ") && !Contains(main, " · ") ==> r == TitleParts(clean, UnknownArtist)
  {
    var main := Split(clean, " | ")[0];
    SplitHeadTail(clean, " | ");
    var byParts := Split(main, " by ");
    if |byParts| >= 2 then
      SplitHeadTail(main, " by ");
      SplitSecond(main, " by ");
      TitleParts(PyStrip(byParts[0]), PyStrip(byParts[1]))
    else if |Split(main, " · ")| >= 2 then DotParts(main)
    else TitleParts(clean, UnknownArtist)
  }

  /** Lines 193-197: artist before the first " - ", the song the rest re-joined. */
  function DashParts(t: string): (r: TitleParts)
    requires Contains(t, " - ")
    ensures r == TitleParts(PyStrip(After(t, " - ")), PyStrip(Before(t, " - ")))
  {
    var parts := Split(t, " - ");
    SplitHeadTail(t, " - ");
    TitleParts(PyStrip(Join(parts[1..], " - ")), PyStrip(parts[0]))
  }

  /** Lines 158-201: song and artist from the cleaned title, by the first separator rule that fires. */
  function ParseTitle(full: string): (r: TitleParts)
    ensures var clean := CleanTitle(full);
            Contains(clean, " by ") && Contains(clean, " | ") ==> r == ByParts(clean)
    ensures var clean := CleanTitle(full);
            !(Contains(clean, " by ") && Contains(clean, " | ")) && Contains(clean, " · ") ==> r == DotParts(clean)
    ensures var clean := CleanTitle(full);
            (!(Contains(clean, " by ") && Contains(clean, " | ")) && !Contains(clean, " · ") && Contains(clean, " - ")) ==>
              r == DashParts(clean)
    ensures var clean := CleanTitle(full);
            (!(Contains(clean, " by ") && Contains(clean, " | ")) && !Contains(clean, " · ") && !Contains(clean, " - ")) ==>
              r == TitleParts(clean, UnknownArtist)
  {
    var clean := CleanTitle(full);
    if Contains(clean, " by ") && Contains(clean, " | ") then ByParts(clean)
    else if Contains(clean, " · ") then DotParts(clean)
    else if Contains(clean, " - ") then DashParts(clean)
    else TitleParts(clean, UnknownArtist)
  }

  /** Both names of DotParts are stripped. */
  lemma DotPartsStripped(t: string)
    requires Contains(t, " · ")
    ensures PyStrip(DotParts(t).song) == DotParts(t).song && PyStrip(DotParts(t).artist) == DotParts(t).artist
  {
    StripIdempotent(Before(After(t, " · "), " · "), IsPySpace);
    StripIdempotent(Before(t, " · "), IsPySpace);
  }

  /** Both names of DashParts are stripped. */
  lemma DashPartsStripped(t: string)
    requires Contains(t, " - ")
    ensures PyStrip(DashParts(t).song) == DashParts(t).song && PyStrip(DashParts(t).artist) == DashParts(t).artist
  {
    StripIdempotent(After(t, " - "), IsPySpace);
    StripIdempotent(Before(t, " - "), IsPySpace);
  }

  /** Both names of ByParts are stripped when the title they start from is. */
  lemma ByPartsStripped(clean: string)
    requires PyStrip(clean) == clean
    ensures PyStrip(ByParts(clean).song) == ByParts(clean).song && PyStrip(ByParts(clean).artist) == ByParts(clean).artist
  {
    var main := Before(clean, " | ");
    if Contains(main, " by ") {
      StripIdempotent(Before(main, " by "), IsPySpace);
      StripIdempotent(Before(After(main, " by "), " by "), IsPySpace);
    } else if Contains(main, " · ") {
      DotPartsStripped(main);
    } else {
      StripClean(UnknownArtist, IsPySpace);
    }
  }

  /** Neither name the title fallback produces has surrounding whitespace. */
  lemma TitlePartsStripped(full: string)
    ensures PyStrip(ParseTitle(full).song) == ParseTitle(full).song
    ensures PyStrip(ParseTitle(full).artist) == ParseTitle(full).artist
  {
    var clean := CleanTitle(full);
    assert PyStrip(clean) == clean by {
      StripIdempotent(ReplaceAll(full, SpotifySuffix, ""), IsPySpace);
    }
    if Contains(clean, " by ") && Contains(clean, " | ") {
      ByPartsStripped(clean);
    } else if Contains(clean, " · ") {
      DotPartsStripped(clean);
    } else if Contains(clean, " - ") {
      DashPartsStripped(clean);
    } else {
      StripClean(UnknownArtist, IsPySpace);
    }
  }

  // ---------------------------------------------------------------------------
  // The page fetch and get_track_info (lines 47-221, without the API branch)
  // ---------------------------------------------------------------------------

  const TrackPagePrefix := "https://open.spotify.com/track/"

  /** The HTTP response: status code and text. */
  datatype Page = Page(status: int, text: string)

  /** `json.loads`: the value, or the JSONDecodeError/ValueError that the code swallows. */
  type Loader = string -> Result<Json, string>

  function NotRetrieved(id: string): string {
    "Could not retrieve track info for ID: " + id
  }

  /** Lines 153-214: the record built from the page title, or from the defaults when there is none. */
  function TitleTrack(id: string, trackUrl: string, title: Option<string>): (t: TrackInfo)
    ensures t.id == id && t.spotifyUrl == trackUrl
    ensures |t.artists| == 1 && t.album == JStr(UnknownAlbum) && t.durationMs == 0
    ensures title.None? ==> t.name == JStr(UnknownTrack) && t.artists == [JStr(UnknownArtist)]
    ensures title.Some? ==>
              t.name == JStr(ParseTitle(title.value).song) && t.artists == [JStr(ParseTitle(title.value).artist)]
  {
    var parts := if title.None? then TitleParts(UnknownTrack, UnknownArtist) else ParseTitle(title.value);
    TrackInfo(id, JStr(parts.song), [JStr(parts.artist)], JStr(UnknownAlbum), 0, trackUrl)
  }

  /**
   * Lines 102-217: a status other than 200 is an error; otherwise the JSON-LD
   * record when the block is there, decodes, and is a MusicRecording;
   * the title fallback when any of the three fails, or when the duration
   * makes `int()` raise ValueError; another error raised while reading the
   * record escapes.
   */
  function WebTrack(id: string, trackUrl: string, page: Page, loads: Loader): (r: Result<TrackInfo, string>)
    ensures page.status != 200 ==> r == Failure(NotRetrieved(id))
    ensures r.Success? ==> r.value.id == id && r.value.spotifyUrl == trackUrl && r.value.durationMs % 1000 == 0
    ensures (page.status == 200 &&
             (JsonLdText(page.text).None? || loads(JsonLdText(page.text).value).Failure?)) ==>
              r == Success(TitleTrack(id, trackUrl, TitleText(page.text)))
    ensures (page.status == 200 && JsonLdText(page.text).Some? && loads(JsonLdText(page.text).value).Success?) ==>
              var st := StructuredTrack(id, trackUrl, loads(JsonLdText(page.text).value).value);
              (st == Success(None) ==> r == Success(TitleTrack(id, trackUrl, TitleText(page.text)))) &&
              (st.Success? && st.value.Some? ==> r == Success(st.value.value)) &&
              (st.Failure? ==> r == Failure(st.error))
  {
    if page.status != 200 then Failure(NotRetrieved(id))
    else
      var fromLd: Result<Option<TrackInfo>, string> :=
        match JsonLdText(page.text)
        case None => Success(None)
        case Some(block) =>
          match loads(block)
          case Failure(_) => Success(None)
          case Success(data) => StructuredTrack(id, trackUrl, data);
      match fromLd
      case Failure(e) => Failure(e)
      case Success(Some(t)) => Success(t)
      case Success(None) => Success(TitleTrack(id, trackUrl, TitleText(page.text)))
  }

  /**
   * A MusicRecording whose seconds have more digits than `int()` converts is
   * dropped like a block that does not decode: the title fallback runs.
   */
  lemma LongDurationFallsBackToTitle(id: string, trackUrl: string, page: Page, loads: Loader)
    requires page.status == 200 && JsonLdText(page.text).Some?
    requires loads(JsonLdText(page.text).value).Success?
    requires var data := loads(JsonLdText(page.text).value).value;
             data.JObj? && IsRecording(data.fields) &&
             Artists(data.fields).Success? && AlbumName(data.fields).Success? &&
             DurationMs(DurationOf(data.fields)).Failure? && DurationMs(DurationOf(data.fields)).error.TooManyDigits?
    ensures WebTrack(id, trackUrl, page, loads) == Success(TitleTrack(id, trackUrl, TitleText(page.text)))
  {
  }

  /**
   * `get_track_info` without API credentials: the ID, then one request for
   * the track page, then WebTrack.  `urlparse` and the request are parameters.
   */
  method GetTrackInfo(trackUrl: string, parseUrl: string -> ParsedUrl, fetch: string -> Page, loads: Loader)
    returns (r: Result<TrackInfo, string>)
    ensures TrackId(parseUrl(trackUrl)).Failure? ==> r == Failure(NoTrackId)
    ensures TrackId(parseUrl(trackUrl)).Success? ==>
              var id := TrackId(parseUrl(trackUrl)).value;
              r == WebTrack(id, trackUrl, fetch(TrackPagePrefix + id), loads)
    ensures r.Success? ==> r.value.id != "" && r.value.id == TrackId(parseUrl(trackUrl)).value
    ensures r.Success? ==> r.value.spotifyUrl == trackUrl
  {
    var id := ExtractTrackId(parseUrl(trackUrl));
    if id.Failure? {
      return Failure(id.error);
    }
    var page := fetch(TrackPagePrefix + id.value);
    r := WebTrack(id.value, trackUrl, page, loads);
  }
}
