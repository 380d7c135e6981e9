/**
 * src/models/SpotifyMetadata.js: the exec callbacks of `extractMetadata`,
 * `extractPlaylistMetadata` and `fetchYoutubeUrl`, and the two URL
 * predicates.  Each callback receives the finished command (exec error,
 * stdout, stderr) and the JSON parser; `new URL` is a parameter that yields
 * the hostname and pathname, or None where the constructor throws.
 */
module SpotifyMetadataJs {
  import opened Wrappers
  import opened Strings
  import opened Json
  import opened Process
  import opened JsonSpan
  import DownloadServiceJs
  import SpotifyPlaylist

  type Parser = string -> Result<Json, string>

  const MetadataScript := "spotify/spotify_metadata.py"
  const PlaylistScript := "spotify/spotify_playlist.py"
  const SearchScript := "spotify/fetch_youtube_url.py"

  /** The command `extractMetadata` hands to exec. */
  function MetadataCommand(cfg: DownloadServiceJs.Config, spotifyUrl: string): string {
    DownloadServiceJs.Command(cfg, MetadataScript, [spotifyUrl])
  }

  /** The command `extractPlaylistMetadata` hands to exec. */
  function PlaylistCommand(cfg: DownloadServiceJs.Config, spotifyUrl: string): string {
    DownloadServiceJs.Command(cfg, PlaylistScript, [spotifyUrl])
  }

  /** The command `fetchYoutubeUrl` hands to exec. */
  function SearchCommand(cfg: DownloadServiceJs.Config, trackName: string, artistName: string): string {
    DownloadServiceJs.Command(cfg, SearchScript, [trackName, artistName])
  }

  /** The URL is passed last, between double quotes and unescaped. */
  lemma MetadataCommandQuotesUrl(cfg: DownloadServiceJs.Config, spotifyUrl: string)
    ensures EndsWith(MetadataCommand(cfg, spotifyUrl), " \"" + spotifyUrl + "\"")
    ensures StartsWith(MetadataCommand(cfg, spotifyUrl), cfg.python + " \"")
  {
    var c := MetadataCommand(cfg, spotifyUrl);
    assert DownloadServiceJs.QuotedArgs([spotifyUrl]) == " \"" + spotifyUrl + "\"" + DownloadServiceJs.QuotedArgs([]);
    assert c[|c| - |spotifyUrl| - 3..] == " \"" + spotifyUrl + "\"";
    assert c[..|cfg.python| + 2] == cfg.python + " \"";
  }

  // ---------------------------------------------------------------------------
  // The stderr branch
  // ---------------------------------------------------------------------------

  /**
   * The rejection message when stderr is not empty: the `error` of the
   * trimmed stderr parsed as JSON, or `fallback` where that is falsy.
   * When the parse throws, or reading `error` of a null payload throws
   * inside the same `try`, the message is `nonJson`.
   */
  function StderrRejection(stderr: string, parse: Parser, fallback: string, nonJson: string): (m: string)
    ensures parse(JsTrim(stderr)).Failure? ==> m == nonJson
    ensures parse(JsTrim(stderr)) == Success(JNull) ==> m == nonJson
    ensures parse(JsTrim(stderr)).Success? && parse(JsTrim(stderr)).value != JNull ==>
              m == JsStringOf(JsOr(JsField(parse(JsTrim(stderr)).value, "error"), JStr(fallback)))
  {
    match parse(JsTrim(stderr))
    case Failure(_) => nonJson
    case Success(v) =>
      match JsGet(Some(v), "error")
      case Failure(_) => nonJson
      case Success(e) => JsStringOf(JsOr(e, JStr(fallback)))
  }

  /** A stderr object naming its error gives that error, whatever the fallback. */
  lemma StderrErrorWins(stderr: string, parse: Parser, fallback: string, nonJson: string, msg: string)
    requires msg != ""
    requires parse(JsTrim(stderr)).Success?
    requires parse(JsTrim(stderr)).value.JObj?
    requires parse(JsTrim(stderr)).value.fields.Keys == {"error"}
    requires parse(JsTrim(stderr)).value.fields["error"] == JStr(msg)
    ensures StderrRejection(stderr, parse, fallback, nonJson) == msg
  {
    assert "error" in parse(JsTrim(stderr)).value.fields;
  }

  // ---------------------------------------------------------------------------
  // The stdout branch
  // ---------------------------------------------------------------------------

  /**
   * What the code after `JSON.parse` does with the payload: resolve, reject
   * with a message, or throw a TypeError.  The two branches of the first/last
   * rule report a thrown TypeError differently.
   */
  datatype Read<T> = Resolved(value: T) | Rejected(message: string) | Threw(typeError: string)

  /** The messages of one callback. */
  datatype Messages = Messages(execFailed: string, stderrFailed: string, stderrNonJson: string,
                               parseFailed: string, notFound: string)

  predicate Clean(r: ExecResult) {
    r.error.None? && r.stderr == ""
  }

  /** The text the callbacks parse: the first/last rule applied to the trimmed output. */
  function Payload(r: ExecResult, parse: Parser): Result<Json, string> {
    parse(FirstLastText(JsTrim(r.stdout)))
  }

  /**
   * The `try` block of the shared callback on the trimmed output.  When the
   * output holds a '{' at or before a '}', the text between the first '{' and
   * the last '}' is parsed, and a parse error or a TypeError is reported under
   * `parseFailed`; otherwise the whole output is parsed, and either is
   * reported under `notFound` with the output.  A rejection by `read` keeps
   * its own message in both branches.
   */
  function SettleOutput<T>(output: string, m: Messages, parse: Parser, read: Json -> Read<T>): (res: Result<T, string>)
    ensures res.Success? <==> parse(FirstLastText(output)).Success? && read(parse(FirstLastText(output)).value).Resolved?
    ensures res.Success? ==> res.value == read(parse(FirstLastText(output)).value).value
    ensures parse(FirstLastText(output)).Success? && read(parse(FirstLastText(output)).value).Rejected? ==>
              res == Failure(read(parse(FirstLastText(output)).value).message)
    ensures HasBracePair(output) && parse(FirstLastText(output)).Failure? ==>
              res == Failure(m.parseFailed + parse(FirstLastText(output)).error)
    ensures HasBracePair(output) && parse(FirstLastText(output)).Success? && read(parse(FirstLastText(output)).value).Threw? ==>
              res == Failure(m.parseFailed + read(parse(FirstLastText(output)).value).typeError)
    ensures !HasBracePair(output) && (parse(output).Failure? || read(parse(output).value).Threw?) ==>
              res == Failure(m.notFound + output)
  {
    if FirstLastBounds(output).Some? then
      match parse(FirstLastText(output))
      case Failure(e) => Failure(m.parseFailed + e)
      case Success(v) =>
        match read(v)
        case Threw(e) => Failure(m.parseFailed + e)
        case Rejected(msg) => Failure(msg)
        case Resolved(x) => Success(x)
    else
      match parse(output)
      case Failure(_) => Failure(m.notFound + output)
      case Success(v) =>
        match read(v)
        case Threw(_) => Failure(m.notFound + output)
        case Rejected(msg) => Failure(msg)
        case Resolved(x) => Success(x)
  }

  /**
   * The callback shared by `extractMetadata` and `extractPlaylistMetadata`,
   * with `read` the code that inspects the parsed payload: an exec error
   * rejects, then a non-empty stderr, and only then is stdout read.
   */
  function Settle<T>(r: ExecResult, m: Messages, parse: Parser, read: Json -> Read<T>): (res: Result<T, string>)
    ensures r.error.Some? ==> res == Failure(m.execFailed + r.error.value)
    ensures r.error.None? && r.stderr != "" ==>
              res == Failure(StderrRejection(r.stderr, parse, m.stderrFailed + r.stderr, m.stderrNonJson + r.stderr))
    ensures res.Success? <==> Clean(r) && Payload(r, parse).Success? && read(Payload(r, parse).value).Resolved?
    ensures res.Success? ==> res.value == read(Payload(r, parse).value).value
    ensures Clean(r) ==> res == SettleOutput(JsTrim(r.stdout), m, parse, read)
  {
    if r.error.Some? then Failure(m.execFailed + r.error.value)
    else if r.stderr != "" then
      Failure(StderrRejection(r.stderr, parse, m.stderrFailed + r.stderr, m.stderrNonJson + r.stderr))
    else SettleOutput(JsTrim(r.stdout), m, parse, read)
  }

  /** Two outputs that both hold a brace pair and select the same text settle alike. */
  lemma SameSelectionSettlesAlike<T>(o1: string, o2: string, m: Messages, parse: Parser, read: Json -> Read<T>)
    requires FirstLastBounds(o1).Some? && FirstLastBounds(o2).Some?
    requires FirstLastText(o1) == FirstLastText(o2)
    ensures SettleOutput(o1, m, parse, read) == SettleOutput(o2, m, parse, read)
  {
  }

  /**
   * Text before the first '{' and after the last '}' of the output does not
   * change the outcome: the callback settles as it would on the object alone.
   */
  lemma SurroundingOutputIgnored<T>(pre: string, body: string, post: string,
                                    m: Messages, parse: Parser, read: Json -> Read<T>)
    requires |body| >= 1 && body[0] == '{' && body[|body| - 1] == '}'
    requires '{' !in pre && '}' !in post
    ensures SettleOutput(pre + body + post, m, parse, read) == SettleOutput(body, m, parse, read)
  {
    FirstLastOfWrapped(pre, body, post);
    FirstLastOfObject(body);
    var t := pre + body + post;
    SameSelectionSettlesAlike(t, body, m, parse, read);
  }

  /** A trimmed output that already starts with '{' and ends with '}' is read as it stands. */
  lemma ObjectOutputTrimmed(stdout: string)
    requires |stdout| >= 1 && stdout[0] == '{' && stdout[|stdout| - 1] == '}'
    ensures JsTrim(stdout) == stdout
  {
    StripClean(stdout, IsJsSpace);
  }

  // ---------------------------------------------------------------------------
  // extractMetadata
  // ---------------------------------------------------------------------------

  /** The object `extractMetadata` resolves with. */
  datatype TrackInfo = TrackInfo(trackName: Json, artistName: Json)

  const MissingNames := "Extracted metadata missing title or artist"

  /** `result.metadata.title` and `result.metadata.artist`, both required to be truthy. */
  function ReadTrack(result: Json): (r: Read<TrackInfo>)
    ensures r.Resolved? <==> DownloadServiceJs.TrackNames(result).Success? && DownloadServiceJs.TrackNames(result).value.Some?
    ensures r.Resolved? ==>
              result.JObj? && "metadata" in result.fields &&
              Some(r.value.trackName) == JsField(result.fields["metadata"], "title") &&
              Some(r.value.artistName) == JsField(result.fields["metadata"], "artist") &&
              JsTruthy(Some(r.value.trackName)) && JsTruthy(Some(r.value.artistName))
    ensures r.Rejected? ==> r.message == MissingNames
    ensures r.Threw? <==> JsField(result, "metadata").None? || JsField(result, "metadata") == Some(JNull) || result == JNull
  {
    match DownloadServiceJs.TrackNames(result)
    case Failure(e) => Threw(e)
    case Success(None) => Rejected(MissingNames)
    case Success(Some(names)) => Resolved(TrackInfo(names.0, names.1))
  }

  const MetadataMessages := Messages("Failed to execute metadata script: ", "Metadata script error: ",
                                     "Non-JSON metadata script error: ", "Failed to parse metadata: ",
                                     "Could not find valid JSON in metadata script output: ")

  /** The callback of `extractMetadata`. */
  function ExtractMetadata(r: ExecResult, parse: Parser): (res: Result<TrackInfo, string>)
    ensures res.Success? ==>
              Clean(r) && Payload(r, parse).Success? && Payload(r, parse).value.JObj? &&
              "metadata" in Payload(r, parse).value.fields &&
              JsField(Payload(r, parse).value.fields["metadata"], "title") == Some(res.value.trackName) &&
              JsField(Payload(r, parse).value.fields["metadata"], "artist") == Some(res.value.artistName) &&
              JsTruthy(Some(res.value.trackName)) && JsTruthy(Some(res.value.artistName))
    ensures r.error.None? && r.stderr != "" ==> res.Failure?
  {
    Settle(r, MetadataMessages, parse, ReadTrack)
  }

  /** Reading `metadata.title` from an empty object throws the TypeError for undefined. */
  lemma EmptyObjectThrows()
    ensures ReadTrack(JObj(map[])) == Threw(TypeErrorReading("undefined", "title"))
  {
    assert JsGet(Some(JObj(map[])), "metadata") == Success(None);
    assert JsGet(None, "title") == Failure(TypeErrorReading("undefined", "title"));
    assert DownloadServiceJs.TrackNames(JObj(map[])) == Failure(TypeErrorReading("undefined", "title"));
  }

  /** Output that holds an object without `metadata` is reported by the TypeError. */
  lemma MissingMetadataInObject(parse: Parser)
    requires parse("{}") == Success(JObj(map[]))
    ensures SettleOutput("{}", MetadataMessages, parse, ReadTrack) ==
              Failure(MetadataMessages.parseFailed + TypeErrorReading("undefined", "title"))
  {
    FirstLastOfObject("{}");
    assert HasBracePair("{}") by { assert "{}"[0] == '{' && "{}"[1] == '}'; }
    EmptyObjectThrows();
  }

  /** Output without an object whose payload has no `metadata` is reported as output without JSON. */
  lemma MissingMetadataWithoutObject(parse: Parser)
    requires parse("null") == Success(JNull)
    ensures SettleOutput("null", MetadataMessages, parse, ReadTrack) == Failure(MetadataMessages.notFound + "null")
  {
    assert '{' !in "null";
    assert FirstLastBounds("null").None?;
    assert ReadTrack(JNull).Threw?;
  }

  // ---------------------------------------------------------------------------
  // extractPlaylistMetadata
  // ---------------------------------------------------------------------------

  /** The object `extractPlaylistMetadata` resolves with; None is `undefined`. */
  datatype PlaylistInfo = PlaylistInfo(playlistName: Option<Json>, playlistOwner: Option<Json>,
                                       trackCount: Option<Json>, tracks: Option<Json>)

  const PlaylistExtractionFailed := "Playlist metadata extraction failed"

  /**
   * A falsy `result.success` rejects with `result.error` or the default;
   * otherwise the four fields of `result.playlist` are copied.
   */
  function ReadPlaylist(result: Json): (r: Read<PlaylistInfo>)
    ensures r.Threw? <==>
              result == JNull ||
              (JsTruthy(JsField(result, "success")) &&
               (JsField(result, "playlist").None? || JsField(result, "playlist") == Some(JNull)))
    ensures r.Rejected? <==> result != JNull && !JsTruthy(JsField(result, "success"))
    ensures r.Rejected? ==> r.message == JsStringOf(JsOr(JsField(result, "error"), JStr(PlaylistExtractionFailed)))
    ensures r.Resolved? ==>
              var pl := JsField(result, "playlist").value;
              r.value == PlaylistInfo(JsField(pl, "name"), JsField(pl, "owner"),
                                      JsField(pl, "track_count"), JsField(pl, "tracks"))
  {
    match JsGet(Some(result), "success")
    case Failure(e) => Threw(e)
    case Success(ok) =>
      if !JsTruthy(ok) then Rejected(JsStringOf(JsOr(JsField(result, "error"), JStr(PlaylistExtractionFailed))))
      else
        var pl := JsField(result, "playlist");
        match JsGet(pl, "name")
        case Failure(e) => Threw(e)
        case Success(name) =>
          Resolved(PlaylistInfo(name, JsField(pl.value, "owner"), JsField(pl.value, "track_count"), JsField(pl.value, "tracks")))
  }

  const PlaylistMessages := Messages("Failed to execute playlist metadata script: ", "Playlist metadata script error: ",
                                     "Non-JSON playlist metadata script error: ", "Failed to parse playlist metadata: ",
                                     "Could not find valid JSON in playlist metadata script output: ")

  /** The callback of `extractPlaylistMetadata`. */
  function ExtractPlaylistMetadata(r: ExecResult, parse: Parser): (res: Result<PlaylistInfo, string>)
    ensures res.Success? ==>
              Clean(r) && Payload(r, parse).Success? && JsTruthy(JsField(Payload(r, parse).value, "success")) &&
              JsField(Payload(r, parse).value, "playlist").Some? && JsField(Payload(r, parse).value, "playlist") != Some(JNull) &&
              res.value.tracks == JsField(JsField(Payload(r, parse).value, "playlist").value, "tracks")
    ensures Clean(r) && Payload(r, parse).Success? && Payload(r, parse).value != JNull &&
            !JsTruthy(JsField(Payload(r, parse).value, "success")) ==>
              res == Failure(JsStringOf(JsOr(JsField(Payload(r, parse).value, "error"), JStr(PlaylistExtractionFailed))))
  {
    Settle(r, PlaylistMessages, parse, ReadPlaylist)
  }

  /**
   * No run of the playlist script as written resolves this callback: every
   * refusal exits with 1 and every run that exits with 0 has written its
   * DEBUG lines to stderr.
   */
  lemma PlaylistScriptNeverResolves(cfg: DownloadServiceJs.Config, url: string, r: ExecResult, parse: Parser,
                                    source: SpotifyPlaylist.PlaylistSource, showKeys: SpotifyPlaylist.KeyRenderer)
    requires var run := SpotifyPlaylist.ScriptRun([DownloadServiceJs.ScriptPath(cfg, PlaylistScript), url], source, showKeys);
             r.stderr == run.stderr && (r.error.None? <==> SpotifyPlaylist.ExitStatus(run.output) == 0)
    ensures ExtractPlaylistMetadata(r, parse).Failure?
  {
  }

  // ---------------------------------------------------------------------------
  // fetchYoutubeUrl
  // ---------------------------------------------------------------------------

  const SearchFailed := "Failed to fetch YouTube URL"
  const SearchStderr := "Error occurred during YouTube URL fetching"
  const SearchUnparsable := "Failed to parse YouTube URL"

  /**
   * The callback of `fetchYoutubeUrl`: the whole trimmed output is parsed and
   * its `youtube_url` resolved, which may be undefined or null.  The exec
   * error's own text is not part of the rejection.
   */
  function FetchYoutubeUrl(r: ExecResult, parse: Parser): (res: Result<Option<Json>, string>)
    ensures r.error.Some? ==> res == Failure(SearchFailed)
    ensures r.error.None? && r.stderr != "" ==> res == Failure(StderrRejection(r.stderr, parse, SearchStderr, SearchStderr))
    ensures res.Success? <==>
              Clean(r) && parse(JsTrim(r.stdout)).Success? && parse(JsTrim(r.stdout)).value != JNull
    ensures res.Success? ==> res.value == JsField(parse(JsTrim(r.stdout)).value, "youtube_url")
    ensures Clean(r) && res.Failure? ==> res.error == SearchUnparsable
  {
    if r.error.Some? then Failure(SearchFailed)
    else if r.stderr != "" then Failure(StderrRejection(r.stderr, parse, SearchStderr, SearchStderr))
    else
      match parse(JsTrim(r.stdout))
      case Failure(_) => Failure(SearchUnparsable)
      case Success(v) =>
        match JsGet(Some(v), "youtube_url")
        case Failure(_) => Failure(SearchUnparsable)
        case Success(u) => Success(u)
  }

  /** Whatever stderr holds, the search rejects with a message that is a stderr `error` or the fixed text. */
  lemma SearchStderrMessage(r: ExecResult, parse: Parser)
    requires r.error.None? && r.stderr != ""
    ensures FetchYoutubeUrl(r, parse).Failure?
    ensures FetchYoutubeUrl(r, parse).error == SearchStderr ||
            (parse(JsTrim(r.stderr)).Success? &&
             JsTruthy(JsField(parse(JsTrim(r.stderr)).value, "error")) &&
             FetchYoutubeUrl(r, parse).error == JsString(JsField(parse(JsTrim(r.stderr)).value, "error")))
  {
  }

  // ---------------------------------------------------------------------------
  // URL predicates
  // ---------------------------------------------------------------------------

  /**
   * `isValidSpotifyUrl`: the hostname contains "spotify.com" or
   * "open.spotify.com"; the second test adds nothing, since the first
   * string occurs inside the second.
   */
  function IsValidSpotifyUrl(url: string, parseUrl: UrlParser): (b: bool)
    ensures b <==> parseUrl(url).Some? && Contains(parseUrl(url).value.hostname, "spotify.com")
  {
    match parseUrl(url)
    case None => false
    case Some(u) =>
      if Contains(u.hostname, "open.spotify.com") then
        OpenSpotifyHost(u.hostname);
        true
      else Contains(u.hostname, "spotify.com")
  }

  /** `isValidSpotifyPlaylistUrl`: a Spotify URL whose path contains "playlist". */
  function IsValidSpotifyPlaylistUrl(url: string, parseUrl: UrlParser): (b: bool)
    ensures b <==> IsValidSpotifyUrl(url, parseUrl) && Contains(parseUrl(url).value.pathname, "playlist")
  {
    match parseUrl(url)
    case None => false
    case Some(u) =>
      var isSpotifyUrl := Contains(u.hostname, "spotify.com") || Contains(u.hostname, "open.spotify.com");
      assert isSpotifyUrl == Contains(u.hostname, "spotify.com") by {
        if Contains(u.hostname, "open.spotify.com") {
          OpenSpotifyHost(u.hostname);
        }
      }
      isSpotifyUrl && Contains(u.pathname, "playlist")
  }

  /** The test is on substrings: a look-alike host passes. */
  lemma LookAlikeHostAccepted(parseUrl: UrlParser)
    requires parseUrl("https://notspotify.com.evil/playlist/x") == Some(UrlParts("notspotify.com.evil", "/playlist/x"))
    ensures IsValidSpotifyPlaylistUrl("https://notspotify.com.evil/playlist/x", parseUrl)
  {
    assert OccursAt("notspotify.com.evil", "spotify.com", 3);
    ContainsIff("notspotify.com.evil", "spotify.com");
    assert OccursAt("/playlist/x", "playlist", 1);
    ContainsIff("/playlist/x", "playlist");
  }
}
