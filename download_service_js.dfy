/**
 * microservices/download-service/server.js: the `/download-track` and
 * `/download-playlist` handlers.  Every `exec` is given its command line
 * and returns the callback's (error, stdout, stderr); `parse` is
 * `JSON.parse`.  A handler yields its response and the effects it
 * performed (commands run, directory created, manifest written).
 */
module DownloadServiceJs {
  import opened Wrappers
  import opened Strings
  import opened Json
  import opened Process
  import opened JsonSpan
  import opened Naming
  import SpotifyPlaylist

  /** PYTHON_PATH and the repository root the scripts are resolved against. */
  datatype Config = Config(python: string, root: string)

  const MetadataScript := "spotify/spotify_metadata.py"
  const SearchScript := "spotify/fetch_youtube_url.py"
  const DownloadScript := "youtube/youtube_downloader.py"
  const PlaylistScript := "spotify/spotify_playlist.py"

  function ScriptPath(cfg: Config, script: string): string {
    cfg.root + "/" + script
  }

  /** Each argument wrapped in double quotes, without escaping. */
  function QuotedArgs(args: seq<string>): string
    decreases |args|
  {
    if |args| == 0 then "" else " \"" + args[0] + "\"" + QuotedArgs(args[1..])
  }

  /** `${PYTHON_PATH} "${script}" "${arg}"…` */
  function Command(cfg: Config, script: string, args: seq<string>): string {
    cfg.python + " \"" + ScriptPath(cfg, script) + "\"" + QuotedArgs(args)
  }

  type Parser = string -> Result<Json, string>

  // ---------------------------------------------------------------------------
  // Exec callbacks
  // ---------------------------------------------------------------------------

  /** The three messages a callback rejects with: exec error, stderr, parse failure. */
  datatype StageMessages = StageMessages(execFailed: string, stderrFailed: string, parseFailed: string)

  /**
   * A callback that parses its output: an exec error rejects, then any
   * stderr at all, then a parse failure; `firstLast` selects the first/last
   * brace rule over the trimmed output instead of the whole trimmed output.
   */
  function ParseStage(r: ExecResult, msgs: StageMessages, firstLast: bool, parse: Parser): (res: Result<Json, string>)
    ensures r.error.Some? ==> res == Failure(msgs.execFailed + r.error.value)
    ensures r.error.None? && r.stderr != "" ==> res == Failure(msgs.stderrFailed + r.stderr)
    ensures r.error.None? && r.stderr == "" ==>
              var text := if firstLast then FirstLastText(JsTrim(r.stdout)) else JsTrim(r.stdout);
              res == (match parse(text)
                      case Success(v) => Success(v)
                      case Failure(e) => Failure(msgs.parseFailed + e))
  {
    if r.error.Some? then Failure(msgs.execFailed + r.error.value)
    else if r.stderr != "" then Failure(msgs.stderrFailed + r.stderr)
    else
      var text := if firstLast then FirstLastText(JsTrim(r.stdout)) else JsTrim(r.stdout);
      match parse(text)
      case Success(v) => Success(v)
      case Failure(e) => Failure(msgs.parseFailed + e)
  }

  /** A callback that only checks for failure. */
  function RunStage(r: ExecResult, execFailed: string, stderrFailed: string): (res: Result<(), string>)
    ensures res.Success? <==> r.error.None? && r.stderr == ""
  {
    if r.error.Some? then Failure(execFailed + r.error.value)
    else if r.stderr != "" then Failure(stderrFailed + r.stderr)
    else Success(())
  }

  const MetadataMessages := StageMessages("Failed to extract metadata: ", "Metadata script error: ", "Failed to parse metadata: ")
  const SearchMessages := StageMessages("Failed to fetch YouTube URL: ", "YouTube search script error: ", "Failed to parse YouTube URL: ")
  const PlaylistMessages := StageMessages("Failed to extract playlist metadata: ", "Playlist script error: ", "Failed to parse playlist metadata: ")

  /**
   * The playlist callback: after the parse, a null payload throws inside the
   * `try` and a falsy `success` rejects with `error` or the default message.
   */
  function PlaylistStage(r: ExecResult, parse: Parser): (res: Result<Json, string>)
    ensures res.Success? ==> res.value != JNull && JsTruthy(JsField(res.value, "success"))
    ensures res.Success? <==>
              ParseStage(r, PlaylistMessages, true, parse).Success? &&
              ParseStage(r, PlaylistMessages, true, parse).value != JNull &&
              JsTruthy(JsField(ParseStage(r, PlaylistMessages, true, parse).value, "success"))
  {
    var v :- ParseStage(r, PlaylistMessages, true, parse);
    if v == JNull then Failure(PlaylistMessages.parseFailed + TypeErrorReading("null", "success"))
    else if !JsTruthy(JsField(v, "success")) then
      Failure(JsStringOf(JsOr(JsField(v, "error"), JStr("Playlist metadata extraction failed"))))
    else Success(v)
  }

  // ---------------------------------------------------------------------------
  // /download-track
  // ---------------------------------------------------------------------------

  function TrackFailure(details: string): Response {
    Response(500, ErrorDetailsBody("Failed to download track", details))
  }

  /**
   * `!metadataResult.metadata.title || !metadataResult.metadata.artist`:
   * a TypeError when `metadata` is absent or null, None when either name
   * is falsy, and both names otherwise.
   */
  function TrackNames(result: Json): (r: Result<Option<(Json, Json)>, string>)
    ensures r.Failure? <==> result == JNull || JsField(result, "metadata").None? || JsField(result, "metadata") == Some(JNull)
    ensures result == JNull ==> r == Failure(TypeErrorReading("null", "metadata"))
    ensures result != JNull && JsField(result, "metadata").None? ==> r == Failure(TypeErrorReading("undefined", "title"))
    ensures result != JNull && JsField(result, "metadata") == Some(JNull) ==> r == Failure(TypeErrorReading("null", "title"))
    ensures r.Success? ==>
              var md := JsField(result, "metadata").value;
              (r.value.Some? <==> JsTruthy(JsField(md, "title")) && JsTruthy(JsField(md, "artist")))
    ensures r.Success? && r.value.Some? ==>
              result.JObj? && "metadata" in result.fields &&
              JsTruthy(JsField(result.fields["metadata"], "title")) && JsTruthy(JsField(result.fields["metadata"], "artist")) &&
              r.value.value == (JsField(result.fields["metadata"], "title").value, JsField(result.fields["metadata"], "artist").value)
    ensures result.JObj? && "metadata" in result.fields && result.fields["metadata"] != JNull &&
            JsTruthy(JsField(result.fields["metadata"], "title")) && JsTruthy(JsField(result.fields["metadata"], "artist")) ==>
              r == Success(Some((JsField(result.fields["metadata"], "title").value, JsField(result.fields["metadata"], "artist").value)))
  {
    var md :- JsGet(Some(result), "metadata");
    var title :- JsGet(md, "title");
    if !JsTruthy(title) then Success(None)
    else
      var artist := JsField(md.value, "artist");
      if !JsTruthy(artist) then Success(None) else Success(Some((title.value, artist.value)))
  }

  /** `downloads/${title} - ${artist}.mp3` */
  function TrackOutputPath(title: Json, artist: Json): string {
    "downloads/" + JsStringOf(title) + " - " + JsStringOf(artist) + ".mp3"
  }

  /** The handler once the metadata has given both names. */
  function SearchAndDownload(cfg: Config, title: Json, artist: Json, exec: string -> ExecResult, parse: Parser,
                             done: seq<Effect>): (h: Handled)
    ensures |done| < |h.effects| <= |done| + 2 && h.effects[..|done|] == done
    ensures h.response.status == 200 || h.response.status == 500
    ensures h.response.status == 200 ==> |h.effects| == |done| + 2
    ensures var search := Command(cfg, SearchScript, [JsStringOf(title), JsStringOf(artist)]);
            h.effects[|done|] == Exec(search) &&
            var found := ParseStage(exec(search), SearchMessages, false, parse);
            (found.Failure? ==> h == Handled(TrackFailure(found.error), done + [Exec(search)])) &&
            (found.Success? && found.value == JNull ==>
               h == Handled(TrackFailure(TypeErrorReading("null", "youtube_url")), done + [Exec(search)])) &&
            (found.Success? && found.value != JNull && !JsTruthy(JsField(found.value, "youtube_url")) ==>
               h == Handled(Response(500, ErrorBody("Could not find YouTube URL for the track")), done + [Exec(search)]))
    ensures var search := Command(cfg, SearchScript, [JsStringOf(title), JsStringOf(artist)]);
            var found := ParseStage(exec(search), SearchMessages, false, parse);
            found.Success? && found.value != JNull && JsTruthy(JsField(found.value, "youtube_url")) ==>
              var out := TrackOutputPath(title, artist);
              var download := Command(cfg, DownloadScript, [JsStringOf(JsField(found.value, "youtube_url").value), out]);
              var ran := RunStage(exec(download), "Failed to download track: ", "Download script error: ");
              h.effects == done + [Exec(search), Exec(download)] &&
              (h.response.status == 200 <==> ran.Success?) &&
              (ran.Failure? ==> h.response == TrackFailure(ran.error)) &&
              (ran.Success? ==> h.response.body == JObj(map["message" := JStr("Track downloaded successfully"), "path" := JStr(out)]))
  {
    var search := Command(cfg, SearchScript, [JsStringOf(title), JsStringOf(artist)]);
    var e2 := done + [Exec(search)];
    match ParseStage(exec(search), SearchMessages, false, parse)
    case Failure(m) => Handled(TrackFailure(m), e2)
    case Success(found) =>
      match JsGet(Some(found), "youtube_url")
      case Failure(typeError) => Handled(TrackFailure(typeError), e2)
      case Success(url) =>
        if !JsTruthy(url) then Handled(Response(500, ErrorBody("Could not find YouTube URL for the track")), e2)
        else
          var out := TrackOutputPath(title, artist);
          var download := Command(cfg, DownloadScript, [JsStringOf(url.value), out]);
          var e3 := e2 + [Exec(download)];
          match RunStage(exec(download), "Failed to download track: ", "Download script error: ")
          case Failure(m) => Handled(TrackFailure(m), e3)
          case Success(_) =>
            Handled(Response(200, JObj(map["message" := JStr("Track downloaded successfully"), "path" := JStr(out)])), e3)
  }

  /** `POST /download-track` with the body's `spotifyUrl` (None when absent). */
  function DownloadTrack(cfg: Config, spotifyUrl: Option<Json>, exec: string -> ExecResult, parse: Parser): (h: Handled)
    ensures !JsTruthy(spotifyUrl) <==> h.response.status == 400
    ensures !JsTruthy(spotifyUrl) ==> h.effects == [] && h.response.body == ErrorBody("Spotify URL is required")
    ensures JsTruthy(spotifyUrl) ==>
              1 <= |h.effects| <= 3 && h.effects[0] == Exec(Command(cfg, MetadataScript, [JsString(spotifyUrl)]))
    ensures h.response.status == 200 ==> |h.effects| == 3
    ensures JsTruthy(spotifyUrl) ==>
              var metadata := Command(cfg, MetadataScript, [JsString(spotifyUrl)]);
              var result := ParseStage(exec(metadata), MetadataMessages, true, parse);
              (result.Failure? ==> h == Handled(TrackFailure(result.error), [Exec(metadata)])) &&
              (result.Success? && TrackNames(result.value).Failure? ==>
                 h == Handled(TrackFailure(TrackNames(result.value).error), [Exec(metadata)])) &&
              (result.Success? && TrackNames(result.value) == Success(None) ==>
                 h == Handled(Response(500, ErrorBody("Failed to extract track and artist name from metadata")), [Exec(metadata)])) &&
              (result.Success? && TrackNames(result.value).Success? && TrackNames(result.value).value.Some? ==>
                 h == SearchAndDownload(cfg, TrackNames(result.value).value.value.0, TrackNames(result.value).value.value.1,
                                        exec, parse, [Exec(metadata)]))
  {
    if !JsTruthy(spotifyUrl) then Handled(Response(400, ErrorBody("Spotify URL is required")), [])
    else
      var metadata := Command(cfg, MetadataScript, [JsString(spotifyUrl)]);
      var e1 := [Exec(metadata)];
      match ParseStage(exec(metadata), MetadataMessages, true, parse)
      case Failure(m) => Handled(TrackFailure(m), e1)
      case Success(result) =>
        match TrackNames(result)
        case Failure(typeError) => Handled(TrackFailure(typeError), e1)
        case Success(None) => Handled(Response(500, ErrorBody("Failed to extract track and artist name from metadata")), e1)
        case Success(Some(names)) => SearchAndDownload(cfg, names.0, names.1, exec, parse, e1)
  }

  /**
   * Any stderr from the metadata script fails the request with that text,
   * and nothing further runs.
   */
  lemma MetadataStderrFails(cfg: Config, spotifyUrl: Option<Json>, exec: string -> ExecResult, parse: Parser)
    requires JsTruthy(spotifyUrl)
    requires var r := exec(Command(cfg, MetadataScript, [JsString(spotifyUrl)])); r.error.None? && r.stderr != ""
    ensures var h := DownloadTrack(cfg, spotifyUrl, exec, parse);
            var r := exec(Command(cfg, MetadataScript, [JsString(spotifyUrl)]));
            h.response == TrackFailure("Metadata script error: " + r.stderr) && |h.effects| == 1
  {
  }

  /**
   * A successful download ran the metadata command, the search on the
   * metadata's names and the download of the `youtube_url` the search found
   * to `downloads/<title> - <artist>.mp3`, in that order, and reports that path.
   */
  lemma DownloadTrackSucceeded(cfg: Config, spotifyUrl: Option<Json>, exec: string -> ExecResult, parse: Parser)
    requires DownloadTrack(cfg, spotifyUrl, exec, parse).response.status == 200
    ensures var metadata := Command(cfg, MetadataScript, [JsString(spotifyUrl)]);
            var result := ParseStage(exec(metadata), MetadataMessages, true, parse);
            var h := DownloadTrack(cfg, spotifyUrl, exec, parse);
            result.Success? && TrackNames(result.value).Success? && TrackNames(result.value).value.Some? &&
            var names := TrackNames(result.value).value.value;
            var search := Command(cfg, SearchScript, [JsStringOf(names.0), JsStringOf(names.1)]);
            var found := ParseStage(exec(search), SearchMessages, false, parse);
            h.effects[0] == Exec(metadata) &&
            h.effects[1] == Exec(search) &&
            found.Success? && JsGet(Some(found.value), "youtube_url").Success? &&
            JsTruthy(JsGet(Some(found.value), "youtube_url").value) &&
            h.effects[2] == Exec(Command(cfg, DownloadScript, [JsStringOf(JsGet(Some(found.value), "youtube_url").value.value),
                                                               TrackOutputPath(names.0, names.1)])) &&
            h.response.body == JObj(map["message" := JStr("Track downloaded successfully"),
                                        "path" := JStr(TrackOutputPath(names.0, names.1))])
  {
  }

  // ---------------------------------------------------------------------------
  // /download-playlist: everything before the fan-out
  // ---------------------------------------------------------------------------

  function PlaylistFailure(details: string): Response {
    Response(500, ErrorDetailsBody("Failed to download playlist", details))
  }

  /** The guard of server.js:183-184 on a payload whose `success` is truthy. */
  predicate PlaylistUsable(result: Json) {
    JsTruthy(JsField(result, "success")) &&
    JsTruthy(JsField(result, "playlist")) &&
    JsTruthy(JsField(JsField(result, "playlist").value, "name")) &&
    JsTruthy(JsField(JsField(result, "playlist").value, "tracks")) &&
    JsField(JsField(JsField(result, "playlist").value, "tracks").value, "length") != Some(JNum(0))
  }

  /** `path.join(root, 'downloads', sanitized)` */
  function PlaylistDir(cfg: Config, name: string): string {
    cfg.root + "/downloads/" + SanitizeName(name)
  }

  /** An object literal as JSON.stringify writes it: properties that are undefined are dropped. */
  function Defined(key: string, v: Option<Json>): map<string, Json> {
    if v.Some? then map[key := v.value] else map[]
  }

  /**
   * `to` holds what `src` has under `from`, and is absent exactly when that
   * property is undefined (JSON.stringify drops it).
   */
  predicate Copied(m: map<string, Json>, to: string, src: Json, from: string) {
    (to in m <==> JsField(src, from).Some?) && (to in m ==> m[to] == JsField(src, from).value)
  }

  /** The manifest entry of one track; a null track throws. */
  function ManifestTrack(t: Json): (r: Result<Json, string>)
    ensures r.Success? <==> t != JNull
    ensures t == JNull ==> r == Failure(TypeErrorReading("null", "title"))
    ensures r.Success? ==>
              r.value.JObj? && r.value.fields.Keys <= {"title", "artist", "album", "duration_ms"} &&
              Copied(r.value.fields, "title", t, "title") && Copied(r.value.fields, "artist", t, "artist") &&
              Copied(r.value.fields, "album", t, "album") && Copied(r.value.fields, "duration_ms", t, "duration_ms")
  {
    if t == JNull then Failure(TypeErrorReading("null", "title"))
    else Success(JObj(Defined("title", JsField(t, "title")) + Defined("artist", JsField(t, "artist")) +
                      Defined("album", JsField(t, "album")) + Defined("duration_ms", JsField(t, "duration_ms"))))
  }

  /** `tracks.map(...)`: one entry per track, in order. */
  function ManifestTracks(tracks: seq<Json>): (r: Result<seq<Json>, string>)
    ensures r.Success? <==> forall k :: 0 <= k < |tracks| ==> tracks[k] != JNull
    ensures r.Success? ==> (|r.value| == |tracks| &&
              forall k :: 0 <= k < |tracks| ==> ManifestTrack(tracks[k]) == Success(r.value[k]))
    decreases |tracks|
  {
    if |tracks| == 0 then Success([])
    else
      var head :- ManifestTrack(tracks[0]);
      var rest :- ManifestTracks(tracks[1..]);
      assert forall k :: 1 <= k < |tracks| ==> tracks[k] == tracks[1..][k - 1];
      Success([head] + rest)
  }

  /** What the fan-out starts from: the directory, the tracks and the effects so far. */
  datatype Setup = Setup(name: Json, trackCount: Option<Json>, dir: string, tracks: seq<Json>, effects: seq<Effect>)

  /** The manifest written to `playlist_info.json`. */
  function Manifest(url: Json, name: Json, playlist: Json, entries: seq<Json>): (m: Json)
    ensures m.JObj? && m.fields.Keys <= {"name", "owner", "trackCount", "url", "tracks"}
    ensures "name" in m.fields && m.fields["name"] == name
    ensures "url" in m.fields && m.fields["url"] == url
    ensures "tracks" in m.fields && m.fields["tracks"] == JArr(entries)
    ensures Copied(m.fields, "owner", playlist, "owner") && Copied(m.fields, "trackCount", playlist, "track_count")
  {
    JObj(map["name" := name, "url" := url, "tracks" := JArr(entries)] +
         Defined("owner", JsField(playlist, "owner")) +
         Defined("trackCount", JsField(playlist, "track_count")))
  }

  /**
   * The manifest lists every track of the playlist, in order, each entry
   * holding exactly the track's defined title, artist, album and duration.
   */
  lemma ManifestListsEveryTrack(url: Json, name: Json, playlist: Json, tracks: seq<Json>)
    requires ManifestTracks(tracks).Success?
    ensures var m := Manifest(url, name, playlist, ManifestTracks(tracks).value);
            var es := m.fields["tracks"].items;
            |es| == |tracks| &&
            forall k :: 0 <= k < |tracks| ==>
              es[k].JObj? && es[k].fields.Keys <= {"title", "artist", "album", "duration_ms"} &&
              Copied(es[k].fields, "title", tracks[k], "title") && Copied(es[k].fields, "artist", tracks[k], "artist") &&
              Copied(es[k].fields, "album", tracks[k], "album") && Copied(es[k].fields, "duration_ms", tracks[k], "duration_ms")
  {
  }

  /** The TypeErrors of `name.replace` on a non-string and `tracks.map` on a non-array. */
  const NameNotString := "playlistResult.playlist.name.replace is not a function"
  const TracksNotArray := "playlistResult.playlist.tracks.map is not a function"

  /**
   * The handler after the guard: the name must be a string, `fs.mkdir` must
   * succeed, the tracks must be an array of non-null values and
   * `fs.writeFile` must succeed; each failure rejects into the `catch`.
   */
  function SetupFrom(cfg: Config, url: Json, playlist: Json, fs: FileSystem, e1: seq<Effect>): (r: Result<Setup, Handled>)
    requires JsTruthy(JsField(playlist, "name")) && JsTruthy(JsField(playlist, "tracks"))
    ensures r.Success? ==> (r.value.name == JsField(playlist, "name").value && r.value.name.JStr? &&
              r.value.dir == PlaylistDir(cfg, r.value.name.s) &&
              (forall k :: 0 <= k < |r.value.tracks| ==> r.value.tracks[k] != JNull) &&
              |r.value.effects| == |e1| + 2 && r.value.effects[..|e1|] == e1 &&
              r.value.effects[|e1|] == MakeDir(r.value.dir) &&
              r.value.effects[|e1| + 1].WriteFile? &&
              r.value.effects[|e1| + 1].path == r.value.dir + "/playlist_info.json" &&
              fs(r.value.effects[|e1|]).None? && fs(r.value.effects[|e1| + 1]).None?)
    ensures r.Success? ==>
              var tracks := JsField(playlist, "tracks").value;
              tracks.JArr? && r.value.tracks == tracks.items && r.value.trackCount == JsField(playlist, "track_count") &&
              ManifestTracks(tracks.items).Success? && |r.value.effects| == |e1| + 2 &&
              r.value.effects[|e1| + 1].content == Manifest(url, r.value.name, playlist, ManifestTracks(tracks.items).value)
    ensures r.Failure? ==> r.error.response.status == 500 && |e1| <= |r.error.effects| && r.error.effects[..|e1|] == e1
    ensures var name := JsField(playlist, "name").value;
            name.JStr? && fs(MakeDir(PlaylistDir(cfg, name.s))).Some? ==>
              r == Failure(Handled(PlaylistFailure(fs(MakeDir(PlaylistDir(cfg, name.s))).value),
                                   e1 + [MakeDir(PlaylistDir(cfg, name.s))]))
    ensures r.Failure? && |r.error.effects| == |e1| + 2 ==>
              r.error.effects[|e1| + 1].WriteFile? && fs(r.error.effects[|e1| + 1]).Some? &&
              r.error.response == PlaylistFailure(fs(r.error.effects[|e1| + 1]).value)
    ensures !JsField(playlist, "name").value.JStr? ==> r == Failure(Handled(PlaylistFailure(NameNotString), e1))
    ensures var name := JsField(playlist, "name").value;
            var tracks := JsField(playlist, "tracks").value;
            name.JStr? && fs(MakeDir(PlaylistDir(cfg, name.s))).None? ==>
              var e2 := e1 + [MakeDir(PlaylistDir(cfg, name.s))];
              (!tracks.JArr? ==> r == Failure(Handled(PlaylistFailure(TracksNotArray), e2))) &&
              (tracks.JArr? && ManifestTracks(tracks.items).Failure? ==>
                 r == Failure(Handled(PlaylistFailure(ManifestTracks(tracks.items).error), e2))) &&
              (tracks.JArr? && ManifestTracks(tracks.items).Success? ==>
                 var file := WriteFile(PlaylistDir(cfg, name.s) + "/playlist_info.json",
                                       Manifest(url, name, playlist, ManifestTracks(tracks.items).value));
                 (r.Success? <==> fs(file).None?) &&
                 (fs(file).Some? ==> r == Failure(Handled(PlaylistFailure(fs(file).value), e2 + [file]))))
  {
    var name := JsField(playlist, "name").value;
    var tracks := JsField(playlist, "tracks").value;
    if !name.JStr? then
      Failure(Handled(PlaylistFailure(NameNotString), e1))
    else
      var dir := PlaylistDir(cfg, name.s);
      var e2 := e1 + [MakeDir(dir)];
      if fs(MakeDir(dir)).Some? then Failure(Handled(PlaylistFailure(fs(MakeDir(dir)).value), e2))
      else if !tracks.JArr? then
        Failure(Handled(PlaylistFailure(TracksNotArray), e2))
      else
        match ManifestTracks(tracks.items)
        case Failure(typeError) => Failure(Handled(PlaylistFailure(typeError), e2))
        case Success(entries) =>
          var file := WriteFile(dir + "/playlist_info.json", Manifest(url, name, playlist, entries));
          if fs(file).Some? then Failure(Handled(PlaylistFailure(fs(file).value), e2 + [file]))
          else Success(Setup(name, JsField(playlist, "track_count"), dir, tracks.items, e2 + [file]))
  }

  /** The handler up to the fan-out; Failure carries the finished response. */
  function PlaylistSetup(cfg: Config, spotifyUrl: Option<Json>, exec: string -> ExecResult, parse: Parser, fs: FileSystem): (r: Result<Setup, Handled>)
    ensures !JsTruthy(spotifyUrl) ==> r == Failure(Handled(Response(400, ErrorBody("Spotify URL is required")), []))
    ensures r.Success? ==> (JsTruthy(spotifyUrl) && r.value.name.JStr? &&
              r.value.dir == PlaylistDir(cfg, r.value.name.s) &&
              (forall k :: 0 <= k < |r.value.tracks| ==> r.value.tracks[k] != JNull) &&
              |r.value.effects| == 3 &&
              r.value.effects[0] == Exec(Command(cfg, PlaylistScript, [JsString(spotifyUrl)])) &&
              r.value.effects[1] == MakeDir(r.value.dir) &&
              r.value.effects[2].WriteFile? && r.value.effects[2].path == r.value.dir + "/playlist_info.json" &&
              fs(r.value.effects[1]).None? && fs(r.value.effects[2]).None?)
    ensures r.Success? ==>
              var result := PlaylistStage(exec(Command(cfg, PlaylistScript, [JsString(spotifyUrl)])), parse);
              JsTruthy(spotifyUrl) && result.Success? && PlaylistUsable(result.value) &&
              var playlist := JsField(result.value, "playlist").value;
              JsField(playlist, "tracks").value.JArr? && r.value.tracks == JsField(playlist, "tracks").value.items &&
              ManifestTracks(r.value.tracks).Success? && |r.value.effects| == 3 &&
              r.value.effects[2].content == Manifest(spotifyUrl.value, r.value.name, playlist, ManifestTracks(r.value.tracks).value)
    ensures JsTruthy(spotifyUrl) && r.Failure? ==>
              r.error.response.status == 500 && 1 <= |r.error.effects| <= 3 &&
              r.error.effects[0] == Exec(Command(cfg, PlaylistScript, [JsString(spotifyUrl)]))
    ensures JsTruthy(spotifyUrl) ==>
              var cmd := Command(cfg, PlaylistScript, [JsString(spotifyUrl)]);
              var result := PlaylistStage(exec(cmd), parse);
              (result.Failure? ==> r == Failure(Handled(PlaylistFailure(result.error), [Exec(cmd)]))) &&
              (result.Success? && !PlaylistUsable(result.value) ==>
                 r == Failure(Handled(Response(500, ErrorBody("Failed to extract playlist data or playlist is empty")), [Exec(cmd)]))) &&
              (result.Success? && PlaylistUsable(result.value) ==>
                 r == SetupFrom(cfg, spotifyUrl.value, JsField(result.value, "playlist").value, fs, [Exec(cmd)]))
  {
    if !JsTruthy(spotifyUrl) then Failure(Handled(Response(400, ErrorBody("Spotify URL is required")), []))
    else
      var cmd := Command(cfg, PlaylistScript, [JsString(spotifyUrl)]);
      var e1 := [Exec(cmd)];
      match PlaylistStage(exec(cmd), parse)
      case Failure(m) => Failure(Handled(PlaylistFailure(m), e1))
      case Success(result) =>
        if !PlaylistUsable(result) then
          Failure(Handled(Response(500, ErrorBody("Failed to extract playlist data or playlist is empty")), e1))
        else SetupFrom(cfg, spotifyUrl.value, JsField(result, "playlist").value, fs, e1)
  }

  /**
   * A usable payload whose name is a string and whose tracks are an array
   * of non-null values is set up when no file call fails: the directory is
   * created and the manifest written, in that order, after the script.
   */
  lemma UsablePlaylistSetUp(cfg: Config, spotifyUrl: Option<Json>, exec: string -> ExecResult, parse: Parser, fs: FileSystem)
    requires JsTruthy(spotifyUrl)
    requires var r := PlaylistStage(exec(Command(cfg, PlaylistScript, [JsString(spotifyUrl)])), parse);
             r.Success? && PlaylistUsable(r.value) &&
             var playlist := JsField(r.value, "playlist").value;
             JsField(playlist, "name").value.JStr? && JsField(playlist, "tracks").value.JArr? &&
             forall k :: 0 <= k < |JsField(playlist, "tracks").value.items| ==> JsField(playlist, "tracks").value.items[k] != JNull
    requires forall e :: fs(e).None?
    ensures var s := PlaylistSetup(cfg, spotifyUrl, exec, parse, fs);
            s.Success? && |s.value.effects| == 3 && s.value.effects[1] == MakeDir(s.value.dir)
  {
    var r := PlaylistStage(exec(Command(cfg, PlaylistScript, [JsString(spotifyUrl)])), parse);
    var playlist := JsField(r.value, "playlist").value;
    assert ManifestTracks(JsField(playlist, "tracks").value.items).Success?;
  }

  /** A payload the guard rejects creates no directory and writes no manifest. */
  lemma RejectedPlaylistTouchesNothing(cfg: Config, spotifyUrl: Option<Json>, exec: string -> ExecResult, parse: Parser, fs: FileSystem)
    requires JsTruthy(spotifyUrl)
    requires var r := PlaylistStage(exec(Command(cfg, PlaylistScript, [JsString(spotifyUrl)])), parse);
             r.Success? && !PlaylistUsable(r.value)
    ensures var s := PlaylistSetup(cfg, spotifyUrl, exec, parse, fs);
            s.Failure? && s.error.response.status == 500 &&
            s.error.effects == [Exec(Command(cfg, PlaylistScript, [JsString(spotifyUrl)]))]
  {
  }

  /**
   * A playlist script run that wrote to stderr rejects the callback,
   * whatever its exit status: the handler answers 500 before the directory
   * is created.
   */
  lemma PlaylistStderrRejected(cfg: Config, spotifyUrl: Option<Json>, exec: string -> ExecResult, parse: Parser, fs: FileSystem)
    requires JsTruthy(spotifyUrl)
    requires exec(Command(cfg, PlaylistScript, [JsString(spotifyUrl)])).stderr != ""
    ensures var s := PlaylistSetup(cfg, spotifyUrl, exec, parse, fs);
            s.Failure? && s.error.response.status == 500 &&
            s.error.effects == [Exec(Command(cfg, PlaylistScript, [JsString(spotifyUrl)]))]
  {
  }

  /**
   * The playlist script as written cannot satisfy this handler: it exits
   * with 1 on every refusal, and a run that exits with 0 has written its
   * DEBUG lines to stderr, so a request with a URL is answered with 500.
   */
  lemma PlaylistScriptNeverAccepted(cfg: Config, url: string, exec: string -> ExecResult, parse: Parser, fs: FileSystem,
                                    source: SpotifyPlaylist.PlaylistSource, showKeys: SpotifyPlaylist.KeyRenderer)
    requires var run := SpotifyPlaylist.ScriptRun([ScriptPath(cfg, PlaylistScript), url], source, showKeys);
             var res := exec(Command(cfg, PlaylistScript, [url]));
             res.stderr == run.stderr && (res.error.None? <==> SpotifyPlaylist.ExitStatus(run.output) == 0)
    ensures DownloadPlaylist(cfg, Some(JStr(url)), exec, parse, fs).response.status == (if url == "" then 400 else 500)
  {
  }

  // ---------------------------------------------------------------------------
  // /download-playlist: the fan-out
  // ---------------------------------------------------------------------------

  /** `track.title && track.artist` */
  predicate Eligible(t: Json) {
    JsTruthy(JsField(t, "title")) && JsTruthy(JsField(t, "artist"))
  }

  /** The search result's `youtube_url`, when the search ran cleanly, parsed, and named a truthy one. */
  function FoundUrl(found: ExecResult, parse: Parser): Option<Json> {
    if found.error.Some? || found.stderr != "" then None
    else match parse(JsTrim(found.stdout))
      case Failure(_) => None
      case Success(v) =>
        match JsGet(Some(v), "youtube_url")
        case Failure(_) => None
        case Success(url) => if JsTruthy(url) then url else None
  }

  /**
   * The pipeline of the track at index i: its outcome and the commands it
   * runs.  Its detail is labelled `<title> by <artist>`; it succeeds exactly
   * when the search ran without error or stderr and gave a truthy
   * `youtube_url`, and the download of that URL to the track's file ran
   * without error or stderr.  An exec error, then stderr, then the parse
   * error, the TypeError of a null result or "Could not find YouTube URL"
   * is reported as the failure's text.
   */
  function TrackPipeline(cfg: Config, dir: string, i: nat, t: Json, exec: string -> ExecResult, parse: Parser): (r: (Detail, seq<Effect>))
    requires Eligible(t)
    ensures 1 <= |r.1| <= 2 && forall k :: 0 <= k < |r.1| ==> r.1[k].Exec?
    ensures r.0.success ==> |r.1| == 2
    ensures var title := JsStringOf(JsField(t, "title").value);
            var artist := JsStringOf(JsField(t, "artist").value);
            var search := Command(cfg, SearchScript, [title, artist]);
            var out := dir + "/" + TrackFileName(i, title, artist);
            r.0.track == TrackLabel(title, artist) && r.1[0] == Exec(search) &&
            (exec(search).error.Some? ==> r.0 == Detail(TrackLabel(title, artist), false, exec(search).error.value) && |r.1| == 1) &&
            (exec(search).error.None? && exec(search).stderr != "" ==>
               r.0 == Detail(TrackLabel(title, artist), false, exec(search).stderr) && |r.1| == 1) &&
            (FoundUrl(exec(search), parse).None? ==> !r.0.success && |r.1| == 1) &&
            (exec(search).error.None? && exec(search).stderr == "" ==>
               var parsed := parse(JsTrim(exec(search).stdout));
               (parsed.Failure? ==> r.0.info == parsed.error) &&
               (parsed == Success(JNull) ==> r.0.info == TypeErrorReading("null", "youtube_url")) &&
               (parsed.Success? && parsed.value != JNull && !JsTruthy(JsGet(Some(parsed.value), "youtube_url").value) ==>
                  r.0 == Detail(TrackLabel(title, artist), false, "Could not find YouTube URL"))) &&
            (FoundUrl(exec(search), parse).Some? ==>
               var download := Command(cfg, DownloadScript, [JsStringOf(FoundUrl(exec(search), parse).value), out]);
               r.1 == [Exec(search), Exec(download)] &&
               (r.0.success <==> exec(download).error.None? && exec(download).stderr == "") &&
               (r.0.success ==> r.0.info == out) &&
               (exec(download).error.Some? ==> r.0.info == exec(download).error.value) &&
               (exec(download).error.None? && exec(download).stderr != "" ==> r.0.info == exec(download).stderr))
  {
    var title := JsStringOf(JsField(t, "title").value);
    var artist := JsStringOf(JsField(t, "artist").value);
    var shown := TrackLabel(title, artist);
    var search := Command(cfg, SearchScript, [title, artist]);
    var found := exec(search);
    if found.error.Some? then (Detail(shown, false, found.error.value), [Exec(search)])
    else if found.stderr != "" then (Detail(shown, false, found.stderr), [Exec(search)])
    else
      match parse(JsTrim(found.stdout))
      case Failure(e) => (Detail(shown, false, e), [Exec(search)])
      case Success(v) =>
        match JsGet(Some(v), "youtube_url")
        case Failure(typeError) => (Detail(shown, false, typeError), [Exec(search)])
        case Success(url) =>
          if !JsTruthy(url) then (Detail(shown, false, "Could not find YouTube URL"), [Exec(search)])
          else
            var out := dir + "/" + TrackFileName(i, title, artist);
            var download := Command(cfg, DownloadScript, [JsStringOf(url.value), out]);
            var done := exec(download);
            if done.error.Some? then (Detail(shown, false, done.error.value), [Exec(search), Exec(download)])
            else if done.stderr != "" then (Detail(shown, false, done.stderr), [Exec(search), Exec(download)])
            else (Detail(shown, true, out), [Exec(search), Exec(download)])
  }

  /** The outcomes of the pipelines for the first n tracks, in index order, and their commands. */
  function FanOutSpec(cfg: Config, dir: string, tracks: seq<Json>, n: nat, exec: string -> ExecResult, parse: Parser): (r: (seq<Detail>, seq<Effect>))
    requires n <= |tracks|
    decreases n
  {
    if n == 0 then ([], [])
    else
      var prev := FanOutSpec(cfg, dir, tracks, n - 1, exec, parse);
      if Eligible(tracks[n - 1]) then
        var p := TrackPipeline(cfg, dir, n - 1, tracks[n - 1], exec, parse);
        (prev.0 + [p.0], prev.1 + p.1)
      else prev
  }

  /** The `for` loop of server.js:211-270 followed by `Promise.all`. */
  method FanOut(cfg: Config, dir: string, tracks: seq<Json>, exec: string -> ExecResult, parse: Parser)
    returns (details: seq<Detail>, effects: seq<Effect>)
    ensures (details, effects) == FanOutSpec(cfg, dir, tracks, |tracks|, exec, parse)
  {
    details, effects := [], [];
    for i := 0 to |tracks|
      invariant (details, effects) == FanOutSpec(cfg, dir, tracks, i, exec, parse)
    {
      var track := tracks[i];
      if Eligible(track) {
        var outcome := TrackPipeline(cfg, dir, i, track, exec, parse);
        details := details + [outcome.0];
        effects := effects + outcome.1;
      }
    }
  }

  /**
   * Exactly one outcome per eligible track, in index order: the k-th
   * detail is the outcome of the k-th eligible track.
   */
  lemma {:induction false} FanOutFollowsIndices(cfg: Config, dir: string, tracks: seq<Json>, n: nat,
                                                exec: string -> ExecResult, parse: Parser)
    requires n <= |tracks|
    ensures var ds := FanOutSpec(cfg, dir, tracks, n, exec, parse).0;
            var idx := IndicesWhere(tracks, n, Eligible);
            |ds| == |idx| &&
            forall k :: 0 <= k < |idx| ==>
              Eligible(tracks[idx[k]]) && ds[k] == TrackPipeline(cfg, dir, idx[k], tracks[idx[k]], exec, parse).0
    decreases n
  {
    if n > 0 {
      FanOutFollowsIndices(cfg, dir, tracks, n - 1, exec, parse);
      var ds0 := FanOutSpec(cfg, dir, tracks, n - 1, exec, parse).0;
      var idx0 := IndicesWhere(tracks, n - 1, Eligible);
      var ds := FanOutSpec(cfg, dir, tracks, n, exec, parse).0;
      var idx := IndicesWhere(tracks, n, Eligible);
      if Eligible(tracks[n - 1]) {
        assert ds == ds0 + [TrackPipeline(cfg, dir, n - 1, tracks[n - 1], exec, parse).0];
        assert idx == idx0 + [n - 1];
        forall k | 0 <= k < |idx|
          ensures Eligible(tracks[idx[k]]) && ds[k] == TrackPipeline(cfg, dir, idx[k], tracks[idx[k]], exec, parse).0
        {
          if k < |idx0| {
            assert idx[k] == idx0[k] && ds[k] == ds0[k];
          }
        }
      } else {
        assert ds == ds0 && idx == idx0;
      }
    }
  }

  /** The response of a playlist that reached the fan-out. */
  function PlaylistResponse(s: Setup, details: seq<Detail>): Response {
    var ok := CountStatus(details, true);
    var failed := CountStatus(details, false);
    Response(200, JObj(map["message" := JStr(PlaylistMessage(ok, failed)),
                           "playlistName" := s.name,
                           "successfulDownloads" := JNum(ok),
                           "failedDownloads" := JNum(failed),
                           "directory" := JStr(s.dir),
                           "details" := DetailsJson(details)] +
                       Defined("totalTracks", s.trackCount)))
  }

  /** `POST /download-playlist` with the body's `spotifyUrl` (None when absent). */
  function DownloadPlaylist(cfg: Config, spotifyUrl: Option<Json>, exec: string -> ExecResult, parse: Parser, fs: FileSystem): (h: Handled)
    ensures !JsTruthy(spotifyUrl) ==> h == Handled(Response(400, ErrorBody("Spotify URL is required")), [])
    ensures h.response.status == 200 <==> PlaylistSetup(cfg, spotifyUrl, exec, parse, fs).Success?
  {
    match PlaylistSetup(cfg, spotifyUrl, exec, parse, fs)
    case Failure(h) =>
      assert h.response.status != 200;
      h
    case Success(s) =>
      var run := FanOutSpec(cfg, s.dir, s.tracks, |s.tracks|, exec, parse);
      Handled(PlaylistResponse(s, run.0), s.effects + run.1)
  }

  /**
   * A playlist that reached the fan-out: the playlist script ran first, the
   * directory and the manifest came next, before any track command; the
   * details list one outcome per eligible track in index order, and the two
   * counts add up to their number.
   */
  lemma DownloadPlaylistSucceeded(cfg: Config, spotifyUrl: Option<Json>, exec: string -> ExecResult, parse: Parser, fs: FileSystem)
    requires PlaylistSetup(cfg, spotifyUrl, exec, parse, fs).Success?
    ensures var s := PlaylistSetup(cfg, spotifyUrl, exec, parse, fs).value;
            var h := DownloadPlaylist(cfg, spotifyUrl, exec, parse, fs);
            var ds := FanOutSpec(cfg, s.dir, s.tracks, |s.tracks|, exec, parse).0;
            h.effects[..3] == s.effects && h.effects[1] == MakeDir(s.dir) && h.effects[2].WriteFile? &&
            (forall k :: 3 <= k < |h.effects| ==> h.effects[k].Exec?) &&
            |ds| == |IndicesWhere(s.tracks, |s.tracks|, Eligible)| &&
            CountStatus(ds, true) + CountStatus(ds, false) == |ds| &&
            h.response.body.fields["details"] == DetailsJson(ds)
  {
    var s := PlaylistSetup(cfg, spotifyUrl, exec, parse, fs).value;
    FanOutFollowsIndices(cfg, s.dir, s.tracks, |s.tracks|, exec, parse);
    FanOutCommands(cfg, s.dir, s.tracks, |s.tracks|, exec, parse);
    CountsCover(FanOutSpec(cfg, s.dir, s.tracks, |s.tracks|, exec, parse).0);
  }

  /** A 200 response means that every file-system call of the request succeeded. */
  lemma AcceptedPlaylistFileCalls(cfg: Config, spotifyUrl: Option<Json>, exec: string -> ExecResult, parse: Parser, fs: FileSystem)
    requires DownloadPlaylist(cfg, spotifyUrl, exec, parse, fs).response.status == 200
    ensures FileCallsSucceeded(DownloadPlaylist(cfg, spotifyUrl, exec, parse, fs).effects, fs)
  {
    DownloadPlaylistSucceeded(cfg, spotifyUrl, exec, parse, fs);
    SetupThenCommands(PlaylistSetup(cfg, spotifyUrl, exec, parse, fs).value.effects,
                      DownloadPlaylist(cfg, spotifyUrl, exec, parse, fs).effects, fs);
  }

  /** A trace that is a setup with successful file calls followed by commands only. */
  lemma SetupThenCommands(setup: seq<Effect>, h: seq<Effect>, fs: FileSystem)
    requires |setup| == 3 && setup[0].Exec? && fs(setup[1]).None? && fs(setup[2]).None?
    requires |h| >= 3 && h[..3] == setup
    requires forall k :: 3 <= k < |h| ==> h[k].Exec?
    ensures FileCallsSucceeded(h, fs)
  {
    forall k | 0 <= k < |h| && (h[k].MakeDir? || h[k].WriteFile?)
      ensures fs(h[k]).None?
    {
      assert h[k] == setup[k];
    }
  }

  /** The fan-out only runs commands. */
  lemma {:induction false} FanOutCommands(cfg: Config, dir: string, tracks: seq<Json>, n: nat,
                                          exec: string -> ExecResult, parse: Parser)
    requires n <= |tracks|
    ensures forall k :: 0 <= k < |FanOutSpec(cfg, dir, tracks, n, exec, parse).1| ==>
              FanOutSpec(cfg, dir, tracks, n, exec, parse).1[k].Exec?
    decreases n
  {
    if n > 0 {
      FanOutCommands(cfg, dir, tracks, n - 1, exec, parse);
      if Eligible(tracks[n - 1]) {
        var es0 := FanOutSpec(cfg, dir, tracks, n - 1, exec, parse).1;
        var p := TrackPipeline(cfg, dir, n - 1, tracks[n - 1], exec, parse).1;
        var es := FanOutSpec(cfg, dir, tracks, n, exec, parse).1;
        assert es == es0 + p;
        forall k | 0 <= k < |es| ensures es[k].Exec? {
          if k < |es0| {
            assert es[k] == es0[k];
          } else {
            assert es[k] == p[k - |es0|];
            assert p[k - |es0|].Exec?;
          }
        }
      } else {
        assert FanOutSpec(cfg, dir, tracks, n, exec, parse) == FanOutSpec(cfg, dir, tracks, n - 1, exec, parse);
      }
    }
  }
}
