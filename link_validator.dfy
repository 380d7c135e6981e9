/**
 * spotify/link_validator.js: the anchored pattern
 * `^https?://open\.spotify\.com/(track|album|playlist)/[A-Za-z0-9]+(\?.*)?$`
 * written as a matcher over the raw string, and the guard that starts
 * `getSpotifyMetadata`.  The browser session is a parameter that yields the
 * captured GraphQL payload, if any.
 */
module LinkValidator {
  import opened Wrappers
  import opened Strings
  import opened Json
  import opened Process

  /** The alternatives of the first path segment. */
  datatype Kind = Track | Album | Playlist

  function KindName(k: Kind): string {
    match k
    case Track => "track"
    case Album => "album"
    case Playlist => "playlist"
  }

  /** An accepted URL, split the way the pattern reads it. */
  datatype Link = Link(secure: bool, kind: Kind, id: string, query: string)

  /** `https?://open.spotify.com/` */
  function Origin(secure: bool): string {
    (if secure then "https" else "http") + "://open.spotify.com/"
  }

  predicate AllAlnum(s: string) {
    forall k :: 0 <= k < |s| ==> IsAsciiAlnum(s[k])
  }

  /** `(\?.*)?` followed by the end: nothing, or '?' and then no line terminator. */
  predicate QueryOk(q: string) {
    q == "" || (q[0] == '?' && forall k :: 1 <= k < |q| ==> !IsLineTerminator(q[k]))
  }

  predicate WellFormed(l: Link) {
    |l.id| >= 1 && AllAlnum(l.id) && QueryOk(l.query)
  }

  /** The text after the origin. */
  function PathText(l: Link): string {
    KindName(l.kind) + "/" + l.id + l.query
  }

  /** The text of a link. */
  function LinkText(l: Link): string {
    Origin(l.secure) + PathText(l)
  }

  /** The `(track|album|playlist)/` alternative that rest starts with. */
  function MatchKind(rest: string): (r: Option<Kind>)
    ensures r.Some? ==> StartsWith(rest, KindName(r.value) + "/")
  {
    if StartsWith(rest, "track/") then Some(Track)
    else if StartsWith(rest, "album/") then Some(Album)
    else if StartsWith(rest, "playlist/") then Some(Playlist)
    else None
  }

  /**
   * The pattern after the origin.  The identifier is the longest run of ASCII
   * letters and digits: what may follow it, '?' or the end, is neither, so the
   * greedy `+` is the only way the pattern can match.
   */
  function MatchPath(secure: bool, rest: string): (r: Option<Link>)
    ensures r.Some? ==> WellFormed(r.value) && r.value.secure == secure && PathText(r.value) == rest
  {
    match MatchKind(rest)
    case None => None
    case Some(kind) =>
      var tail := rest[|KindName(kind)| + 1..];
      assert rest == KindName(kind) + "/" + tail;
      var n := LeadingCount(tail, IsAsciiAlnum);
      var q := tail[n..];
      if n >= 1 && QueryOk(q) then
        assert tail == tail[..n] + q;
        Some(Link(secure, kind, tail[..n], q))
      else None
  }

  /** The pattern as a matcher: the origin, then the rest. */
  function MatchLink(s: string): (r: Option<Link>)
    ensures r.Some? ==> WellFormed(r.value) && LinkText(r.value) == s
  {
    var secure := StartsWith(s, Origin(true));
    if !secure && !StartsWith(s, Origin(false)) then None
    else
      var rest := s[|Origin(secure)|..];
      assert s == s[..|Origin(secure)|] + rest;
      MatchPath(secure, rest)
  }

  /** `validateSpotifyUrl`: `regex.test(url)`. */
  predicate ValidateSpotifyUrl(url: string) {
    MatchLink(url).Some?
  }

  /** The longest alphanumeric prefix of id + q is id when q does not continue it. */
  lemma {:induction false} LeadingAlnum(id: string, q: string)
    requires AllAlnum(id)
    requires q == "" || !IsAsciiAlnum(q[0])
    ensures LeadingCount(id + q, IsAsciiAlnum) == |id|
    decreases |id|
  {
    if |id| > 0 {
      assert (id + q)[1..] == id[1..] + q;
      LeadingAlnum(id[1..], q);
    }
  }

  /** Which origin a text starts with is decided by the character after "http". */
  lemma OriginOf(secure: bool, rest: string)
    ensures StartsWith(Origin(secure) + rest, Origin(true)) == secure
    ensures StartsWith(Origin(secure) + rest, Origin(secure))
    ensures (Origin(secure) + rest)[|Origin(secure)|..] == rest
  {
    var s := Origin(secure) + rest;
    assert s[..|Origin(secure)|] == Origin(secure);
    if !secure {
      assert s[4] == ':';
      assert Origin(true)[4] == 's';
    }
  }

  /** The alternative a text starts with is the one it names. */
  lemma KindOf(k: Kind, rest: string)
    ensures MatchKind(KindName(k) + "/" + rest) == Some(k)
  {
    var s := KindName(k) + "/" + rest;
    assert s[..|KindName(k)| + 1] == KindName(k) + "/";
    match k
    case Track =>
    case Album => assert s[0] == 'a';
    case Playlist => assert s[0] == 'p';
  }

  /**
   * On a text of the pattern's outline, with an identifier that nothing
   * alphanumeric follows, the matcher accepts exactly when the rest is a
   * valid query.
   */
  lemma MatchOnOutline(secure: bool, kind: Kind, id: string, q: string)
    requires |id| >= 1 && AllAlnum(id)
    requires q == "" || !IsAsciiAlnum(q[0])
    ensures MatchLink(Origin(secure) + KindName(kind) + "/" + id + q) ==
              if QueryOk(q) then Some(Link(secure, kind, id, q)) else None
  {
    var rest := KindName(kind) + "/" + id + q;
    var s := Origin(secure) + KindName(kind) + "/" + id + q;
    assert s == LinkText(Link(secure, kind, id, q)) == Origin(secure) + rest;
    OriginOf(secure, rest);
    assert rest == KindName(kind) + "/" + (id + q);
    KindOf(kind, id + q);
    assert rest[|KindName(kind)| + 1..] == id + q;
    LeadingAlnum(id, q);
    assert (id + q)[..|id|] == id && (id + q)[|id|..] == q;
  }

  /** Every well-formed link is accepted and read back as itself. */
  lemma MatchLinkComplete(l: Link)
    requires WellFormed(l)
    ensures MatchLink(LinkText(l)) == Some(l)
  {
    MatchOnOutline(l.secure, l.kind, l.id, l.query);
  }

  /** The pattern accepts exactly the texts of well-formed links. */
  lemma AcceptedIff(url: string)
    ensures ValidateSpotifyUrl(url) <==> exists l :: WellFormed(l) && LinkText(l) == url
  {
    if exists l :: WellFormed(l) && LinkText(l) == url {
      var l :| WellFormed(l) && LinkText(l) == url;
      MatchLinkComplete(l);
    }
  }

  /** The end anchor: an extra path segment after the identifier is rejected. */
  lemma ExtraSegmentRejected(secure: bool, kind: Kind, id: string, extra: string)
    requires |id| >= 1 && AllAlnum(id)
    ensures !ValidateSpotifyUrl(Origin(secure) + KindName(kind) + "/" + id + "/" + extra)
  {
    assert Origin(secure) + KindName(kind) + "/" + id + "/" + extra ==
           Origin(secure) + KindName(kind) + "/" + id + ("/" + extra);
    MatchOnOutline(secure, kind, id, "/" + extra);
  }

  /** The query may not run over a line break, which `.` does not match. */
  lemma LineBreakInQueryRejected(l: Link, before: string, after: string)
    requires |l.id| >= 1 && AllAlnum(l.id)
    requires l.query == "?" + before + "\n" + after
    ensures !ValidateSpotifyUrl(LinkText(l))
  {
    assert LinkText(l) == Origin(l.secure) + KindName(l.kind) + "/" + l.id + l.query;
    MatchOnOutline(l.secure, l.kind, l.id, l.query);
    assert !QueryOk(l.query) by {
      assert l.query[1 + |before|] == '\n';
    }
  }

  // ---------------------------------------------------------------------------
  // getSpotifyMetadata
  // ---------------------------------------------------------------------------

  const InvalidFormat := "Invalid Spotify URL format"
  const NotCaptured := "No metadata found (GraphQL data not captured)"
  const NoTrackData := "No track data in GraphQL payload"

  /** The arguments `puppeteer.launch` receives. */
  const BrowserArgs := ["--no-sandbox", "--disable-setuid-sandbox"]

  /** The record `getSpotifyMetadata` resolves with; JNull stands for `null`. */
  datatype TrackMetadata = TrackMetadata(title: Json, artist: Json, album: Json, coverUrl: Json, durationMs: Json)

  /** JavaScript `v?.key`: undefined when v is undefined or null. */
  function OptField(v: Option<Json>, key: string): (r: Option<Json>)
    ensures v.None? || v == Some(JNull) ==> r.None?
  {
    if v.None? || v == Some(JNull) then None else JsField(v.value, key)
  }

  /** JavaScript `v?.[0]`. */
  function OptFirst(v: Option<Json>): Option<Json> {
    match v
    case Some(JArr(a)) => if |a| > 0 then Some(a[0]) else None
    case Some(JObj(m)) => if "0" in m then Some(m["0"]) else None
    case Some(JStr(s)) => if |s| > 0 then Some(JStr([s[0]])) else None
    case _ => None
  }

  /** `x || null` */
  function OrNull(v: Option<Json>): (r: Json)
    ensures JsTruthy(v) ==> r == v.value
    ensures !JsTruthy(v) ==> r == JNull
  {
    JsOr(v, JNull)
  }

  /** The fields read from the captured payload (lines 53-68). */
  function ReadTrackUnion(trackData: Json): (r: Result<TrackMetadata, string>)
    ensures r.Failure? <==>
              !JsTruthy(OptField(JsField(trackData, "data"), "trackUnion")) &&
              !JsTruthy(OptField(JsField(trackData, "data"), "track"))
    ensures r.Failure? ==> r.error == NoTrackData
    ensures r.Success? ==>
              var u := JsOr(OptField(JsField(trackData, "data"), "trackUnion"),
                            JsOr(OptField(JsField(trackData, "data"), "track"), JNull));
              r.value.title == OrNull(JsField(u, "name")) &&
              r.value.album == OrNull(OptField(JsField(u, "albumOfTrack"), "name"))
  {
    var data := JsField(trackData, "data");
    var u := JsOr(OptField(data, "trackUnion"), JsOr(OptField(data, "track"), JNull));
    if !JsTruthy(Some(u)) then Failure(NoTrackData)
    else
      var ms := OptField(JsField(u, "duration"), "totalMilliseconds");
      Success(TrackMetadata(
        OrNull(JsField(u, "name")),
        OrNull(OptField(OptField(OptFirst(OptField(JsField(u, "artists"), "items")), "profile"), "name")),
        OrNull(OptField(JsField(u, "albumOfTrack"), "name")),
        OrNull(OptField(OptFirst(OptField(OptField(JsField(u, "albumOfTrack"), "coverArt"), "sources")), "url")),
        if JsTruthy(ms) then ms.value else JNull))
  }

  /**
   * `getSpotifyMetadata`: the URL is checked before the browser starts; the
   * session yields the GraphQL payload it captured for the URL, if any.
   * The result comes with the effects performed.
   */
  function GetSpotifyMetadata(url: string, session: string -> Option<Json>): (r: (Result<TrackMetadata, string>, seq<Effect>))
    ensures !ValidateSpotifyUrl(url) <==> r == (Failure(InvalidFormat), [])
    ensures ValidateSpotifyUrl(url) ==> r.1 == [LaunchBrowser(BrowserArgs)]
    ensures ValidateSpotifyUrl(url) && !JsTruthy(session(url)) ==> r.0 == Failure(NotCaptured)
    ensures ValidateSpotifyUrl(url) && JsTruthy(session(url)) ==> r.0 == ReadTrackUnion(session(url).value)
  {
    if !ValidateSpotifyUrl(url) then (Failure(InvalidFormat), [])
    else
      var launched := [LaunchBrowser(BrowserArgs)];
      var trackData := session(url);
      if !JsTruthy(trackData) then (Failure(NotCaptured), launched)
      else (ReadTrackUnion(trackData.value), launched)
  }
}
