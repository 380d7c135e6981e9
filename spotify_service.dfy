/**
 * src/services/spotifyService.js: the guards around the two script calls.
 * `executePythonScript` is a parameter from the argument vector to the
 * parsed output or the error it rejects with; the trace records the launch.
 */
module SpotifyService {
  import opened Wrappers
  import opened Strings
  import opened Json
  import opened Process
  import Validation

  const MetadataScript := "spotify/spotify_metadata.py"
  const PlaylistScript := "spotify/spotify_playlist.py"

  const NoMetadata := "No metadata received from Python script"
  const NotAPlaylist := "URL must point to a Spotify playlist or album"
  const BadPlaylistData := "Invalid playlist data received from Python script"

  /** `executePythonScript(script, args)`: the parsed output, or the error the promise rejects with. */
  type Runner = seq<string> -> Result<Json, string>

  /** A service call's settled promise and the effects it performed. */
  datatype Outcome = Outcome(result: Result<Json, string>, effects: seq<Effect>)

  /** `isPlaylistOrAlbumUrl`: a test on the whole URL text, query included. */
  predicate IsPlaylistOrAlbumUrl(url: string) {
    Contains(url, "/playlist/") || Contains(url, "/album/")
  }

  /**
   * `extractMetadata`: validation comes first and throws its own error;
   * then the script runs, and a falsy result is an error.
   */
  function ExtractMetadata(url: Option<Json>, parseUrl: UrlParser, run: Runner): (r: Outcome)
    ensures Validation.ValidateSpotifyUrl(url, parseUrl).Invalid? ==>
              r == Outcome(Failure(Validation.ValidateSpotifyUrl(url, parseUrl).error), [])
    ensures Validation.ValidateSpotifyUrl(url, parseUrl).Valid? ==>
              r.effects == [Spawn([MetadataScript, url.value.s])]
    ensures r.result.Success? ==>
              Validation.ValidateSpotifyUrl(url, parseUrl).Valid? &&
              r.result == run([MetadataScript, url.value.s]) && JsTruthy(Some(r.result.value))
    ensures (Validation.ValidateSpotifyUrl(url, parseUrl).Valid? && run([MetadataScript, url.value.s]).Success? &&
             !JsTruthy(Some(run([MetadataScript, url.value.s]).value))) ==> r.result == Failure(NoMetadata)
  {
    match Validation.ValidateSpotifyUrl(url, parseUrl)
    case Invalid(e) => Outcome(Failure(e), [])
    case Valid =>
      var argv := [MetadataScript, url.value.s];
      var launched := [Spawn(argv)];
      match run(argv)
      case Failure(e) => Outcome(Failure(e), launched)
      case Success(v) => if !JsTruthy(Some(v)) then Outcome(Failure(NoMetadata), launched) else Outcome(Success(v), launched)
  }

  /**
   * `getPlaylistTracks`: validation, then the playlist-or-album test, both
   * before the script runs; the result must be an array.
   */
  function GetPlaylistTracks(url: Option<Json>, parseUrl: UrlParser, run: Runner): (r: Outcome)
    ensures Validation.ValidateSpotifyUrl(url, parseUrl).Invalid? ==>
              r == Outcome(Failure(Validation.ValidateSpotifyUrl(url, parseUrl).error), [])
    ensures Validation.ValidateSpotifyUrl(url, parseUrl).Valid? && !IsPlaylistOrAlbumUrl(url.value.s) ==>
              r == Outcome(Failure(NotAPlaylist), [])
    ensures r.effects != [] <==>
              Validation.ValidateSpotifyUrl(url, parseUrl).Valid? && IsPlaylistOrAlbumUrl(url.value.s)
    ensures r.effects != [] ==> r.effects == [Spawn([PlaylistScript, url.value.s])]
    ensures r.result.Success? <==>
              r.effects != [] && run([PlaylistScript, url.value.s]).Success? &&
              run([PlaylistScript, url.value.s]).value.JArr?
    ensures r.result.Success? ==> r.result == run([PlaylistScript, url.value.s])
    ensures (r.effects != [] && run([PlaylistScript, url.value.s]).Success? &&
             !run([PlaylistScript, url.value.s]).value.JArr?) ==> r.result == Failure(BadPlaylistData)
  {
    match Validation.ValidateSpotifyUrl(url, parseUrl)
    case Invalid(e) => Outcome(Failure(e), [])
    case Valid =>
      if !IsPlaylistOrAlbumUrl(url.value.s) then Outcome(Failure(NotAPlaylist), [])
      else
        var argv := [PlaylistScript, url.value.s];
        var launched := [Spawn(argv)];
        match run(argv)
        case Failure(e) => Outcome(Failure(e), launched)
        case Success(v) =>
          if !JsTruthy(Some(v)) || !v.JArr? then Outcome(Failure(BadPlaylistData), launched)
          else Outcome(Success(v), launched)
  }

  /** A track URL whose query string mentions an album. */
  const TrackUrlNamingAlbum := "https://open.spotify.com/track/x?from=/album/"

  /** "open.spotify.com" contains "spotify.com". */
  lemma OpenSpotifyIsSpotify()
    ensures Contains("open.spotify.com", "spotify.com")
  {
    assert OccursAt("open.spotify.com", "spotify.com", 5);
    ContainsIff("open.spotify.com", "spotify.com");
  }

  /** A path under "/track/" is a resource path. */
  lemma TrackPathIsResource()
    ensures Validation.IncludesAny("/track/x", Validation.ValidPaths)
  {
    assert OccursAt("/track/x", "/track/", 0);
    ContainsIff("/track/x", "/track/");
    assert Validation.ValidPaths[0] == "/track/";
  }

  /** Validation accepts that URL: its host and its path are a track's. */
  lemma TrackUrlNamingAlbumValid(parseUrl: UrlParser)
    requires parseUrl(TrackUrlNamingAlbum) == Some(UrlParts("open.spotify.com", "/track/x"))
    ensures Validation.ValidateSpotifyUrl(Some(JStr(TrackUrlNamingAlbum)), parseUrl).Valid?
  {
    OpenSpotifyIsSpotify();
    TrackPathIsResource();
  }

  /** The raw text of that URL passes the playlist-or-album test. */
  lemma TrackUrlNamingAlbumMentionsAlbum()
    ensures IsPlaylistOrAlbumUrl(TrackUrlNamingAlbum)
  {
    var url := TrackUrlNamingAlbum;
    assert url[|url| - 7..] == "/album/";
    assert OccursAt(url, "/album/", |url| - 7);
    ContainsIff(url, "/album/");
  }

  /**
   * The playlist test reads the raw text while validation reads the path: a
   * track URL whose query mentions "/album/" reaches the script.
   */
  lemma QueryMentionPassesPlaylistTest(parseUrl: UrlParser, run: Runner)
    requires parseUrl(TrackUrlNamingAlbum) == Some(UrlParts("open.spotify.com", "/track/x"))
    ensures GetPlaylistTracks(Some(JStr(TrackUrlNamingAlbum)), parseUrl, run).effects ==
              [Spawn([PlaylistScript, TrackUrlNamingAlbum])]
  {
    TrackUrlNamingAlbumValid(parseUrl);
    TrackUrlNamingAlbumMentionsAlbum();
  }
}
