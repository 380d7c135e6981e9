/**
 * spotify/spotify_scraper.py: the placeholder client.  It finds a track ID
 * with a looser rule than spotify/spotify_client.py and returns fixed
 * metadata around it.  `urlparse`/`parse_qs` are a parameter.
 */
module SpotifyScraper {
  import opened Wrappers
  import opened Strings
  import opened Json
  import SpotifyClient

  type ParsedUrl = SpotifyClient.ParsedUrl

  /** `part.startswith(('0', ..., '9', 'a', ..., 'f'))`: a lower-case hexadecimal first character. */
  predicate HexLed(part: string) {
    |part| > 0 && (IsDigit(part[0]) || 'a' <= part[0] <= 'f')
  }

  /** A path part the scan accepts: 22 characters and a hexadecimal first one; the rest is not looked at. */
  predicate IsIdCandidate(part: string) {
    |part| == 22 && HexLed(part)
  }

  /** The index of the first candidate part, or |parts| when there is none. */
  function FirstCandidate(parts: seq<string>): (r: nat)
    ensures r <= |parts|
    ensures r < |parts| ==> IsIdCandidate(parts[r])
    ensures forall j :: 0 <= j < r ==> !IsIdCandidate(parts[j])
    decreases |parts|
  {
    if |parts| == 0 then 0
    else if IsIdCandidate(parts[0]) then 0
    else
      var r := 1 + FirstCandidate(parts[1..]);
      assert forall j :: 1 <= j < r ==> parts[j] == parts[1..][j - 1];
      r
  }

  /**
   * The ID rules in order: the first candidate path part, then the last
   * `:`-segment of a first `uri` query value that starts with "spotify:track:".
   */
  function TrackId(url: ParsedUrl): (r: Result<string, string>)
    ensures r.Success? ==> r.value != ""
    ensures r.Failure? ==> r.error == SpotifyClient.NoTrackId
    ensures var parts := SpotifyClient.PathParts(url.path);
            FirstCandidate(parts) < |parts| ==> r == Success(parts[FirstCandidate(parts)])
    ensures var parts := SpotifyClient.PathParts(url.path);
            (FirstCandidate(parts) == |parts| && r.Success?) ==>
              |url.uris| > 0 && StartsWith(url.uris[0], SpotifyClient.TrackUriPrefix) &&
              r.value == SpotifyClient.UriId(url.uris[0])
    ensures var parts := SpotifyClient.PathParts(url.path);
            (FirstCandidate(parts) == |parts| && |url.uris| > 0 &&
             StartsWith(url.uris[0], SpotifyClient.TrackUriPrefix) && SpotifyClient.UriId(url.uris[0]) != "") ==>
              r == Success(SpotifyClient.UriId(url.uris[0]))
    ensures var parts := SpotifyClient.PathParts(url.path);
            r.Failure? <==>
              FirstCandidate(parts) == |parts| &&
              !(|url.uris| > 0 && StartsWith(url.uris[0], SpotifyClient.TrackUriPrefix) &&
                SpotifyClient.UriId(url.uris[0]) != "")
  {
    var parts := SpotifyClient.PathParts(url.path);
    if FirstCandidate(parts) < |parts| then Success(parts[FirstCandidate(parts)])
    else if |url.uris| > 0 && StartsWith(url.uris[0], SpotifyClient.TrackUriPrefix) &&
            SpotifyClient.UriId(url.uris[0]) != "" then
      Success(SpotifyClient.UriId(url.uris[0]))
    else Failure(SpotifyClient.NoTrackId)
  }

  /** The `for part in path_parts` scan with its `break`. */
  method ScanForId(parts: seq<string>) returns (trackId: Option<string>)
    ensures trackId.Some? <==> FirstCandidate(parts) < |parts|
    ensures trackId.Some? ==> trackId.value == parts[FirstCandidate(parts)]
  {
    trackId := None;
    var i := 0;
    while i < |parts|
      invariant 0 <= i <= |parts|
      invariant forall j :: 0 <= j < i ==> !IsIdCandidate(parts[j])
    {
      var part := parts[i];
      if |part| == 22 && HexLed(part) {
        trackId := Some(part);
        return;
      }
      i := i + 1;
    }
  }

  /** Lines 20-38 as the source runs them. */
  method ExtractTrackId(url: ParsedUrl) returns (r: Result<string, string>)
    ensures r == TrackId(url)
  {
    var parts := SpotifyClient.PathParts(url.path);
    var trackId := ScanForId(parts);
    if trackId.None? {
      if |url.uris| > 0 && StartsWith(url.uris[0], SpotifyClient.TrackUriPrefix) {
        trackId := Some(SpotifyClient.UriId(url.uris[0]));
      }
    }
    if trackId.None? || trackId.value == "" {
      return Failure(SpotifyClient.NoTrackId);
    }
    return Success(trackId.value);
  }

  /** A one-part path whose single part is 22 characters after a hexadecimal digit is taken whole. */
  lemma OnlyFirstCharacterChecked(part: string, uris: seq<string>)
    requires |part| == 22 && HexLed(part)
    requires forall k :: 0 <= k < |part| ==> part[k] != '/'
    ensures TrackId(SpotifyClient.ParsedUrl("/" + part, uris)) == Success(part)
  {
    var path := "/" + part;
    assert LeadingCount(path, x => x == '/') == 1 by {
      assert path[1..] == part;
      assert path[1..][0] == part[0];
    }
    assert path[1..] == part;
    assert TrailingCount(part, x => x == '/') == 0 by {
      assert part[|part| - 1] != '/';
    }
    assert part[..|part| - 0] == part;
    assert PyStripChar(path, '/') == part;
    assert !Contains(part, "/") by {
      forall k: nat ensures !OccursAt(part, "/", k) {
        if k < |part| { assert part[k..k + 1][0] == part[k]; }
      }
      ContainsIff(part, "/");
    }
    assert SpotifyClient.PathParts(path) == [part];
  }

  // ---------------------------------------------------------------------------
  // The returned record (lines 42-55)
  // ---------------------------------------------------------------------------

  const MockTitle := "Mock Track Title"
  const MockArtist := "Mock Artist Name"
  const MockAlbum := "Mock Album Name"
  const MockReleaseDate := "2023-01-01"
  const MockDurationMs := 213000

  /** The record: `external_urls.spotify` is `spotifyUrl`; `preview_url` is always None. */
  datatype TrackRecord = TrackRecord(id: string, name: string, artists: seq<string>, albumName: string,
                                     releaseDate: string, durationMs: nat, spotifyUrl: string)

  /** `get_track_info`: the ID found in the URL and fixed values around it. */
  method GetTrackInfo(trackUrl: string, parseUrl: string -> ParsedUrl) returns (r: Result<TrackRecord, string>)
    ensures r.Failure? <==> TrackId(parseUrl(trackUrl)).Failure?
    ensures r.Failure? ==> r.error == SpotifyClient.NoTrackId
    ensures r.Success? ==> r.value.id == TrackId(parseUrl(trackUrl)).value && r.value.spotifyUrl == trackUrl
    ensures r.Success? ==>
              (r.value.name == MockTitle && r.value.artists == [MockArtist] &&
               r.value.albumName == MockAlbum && r.value.releaseDate == MockReleaseDate &&
               r.value.durationMs == MockDurationMs)
  {
    var id := ExtractTrackId(parseUrl(trackUrl));
    if id.Failure? {
      return Failure(id.error);
    }
    r := Success(TrackRecord(id.value, MockTitle, [MockArtist], MockAlbum, MockReleaseDate, MockDurationMs, trackUrl));
  }
}
