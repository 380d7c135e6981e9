/**
 * microservices/download-service/app.py: the Flask `/download-track` and
 * `/download-playlist` handlers.  `run` is `subprocess.run` on an argument
 * vector, `parse` is `json.loads` (Failure is a JSONDecodeError) and
 * `hostname` is what `urlparse` reports for a URL string.  Every other
 * exception ends in the handler's `except` clause, modelled as a Failure
 * carrying `str(e)`.
 */
module DownloadServicePy {
  import opened Wrappers
  import opened Strings
  import opened Json
  import opened Process
  import opened JsonSpan
  import opened Naming
  import PosixPath
  import SpotifyPlaylist

  /** PYTHON_PATH and the repository root the scripts are resolved against. */
  datatype Config = Config(python: string, root: string)

  /** `os.path.join(root, dir, file)` */
  function ScriptPath(cfg: Config, dir: string, file: string): string {
    PosixPath.Join(PosixPath.Join(cfg.root, dir), file)
  }

  type Parser = string -> Result<Json, string>
  type Runner = seq<string> -> Completed
  type HostOf = string -> Option<string>

  /** `is_valid_spotify_url`: urlparse fails on a non-string and `in` fails on a missing hostname; both give False. */
  function IsValidSpotifyUrl(url: Json, hostname: HostOf): (b: bool)
    ensures b <==> url.JStr? && hostname(url.s).Some? && Contains(hostname(url.s).value, "spotify.com")
  {
    if !url.JStr? then false
    else
      match hostname(url.s)
      case None => false
      case Some(h) =>
        if Contains(h, "open.spotify.com") then
          OpenSpotifyHost(h);
          true
        else Contains(h, "spotify.com")
  }

  /** `stderr and 'error' in stderr.lower()` */
  predicate ReportsError(stderr: string) {
    stderr != "" && Contains(LowerAscii(stderr), "error")
  }

  /** A subprocess argument: anything but a string makes `subprocess.run` raise a TypeError. */
  function PyArg(v: Json): (r: Result<string, string>)
    ensures r.Success? <==> v.JStr?
    ensures v.JStr? ==> r.value == v.s
  {
    if v.JStr? then Success(v.s) else Failure("expected str, bytes or os.PathLike object, not " + PyTypeName(v))
  }

  /** The `except Exception` response. */
  function InternalError(details: string): Response {
    Response(500, ErrorDetailsBody("Internal server error", details))
  }

  function Fail500(message: string): Response {
    Response(500, ErrorBody(message))
  }

  /** `data.get('spotifyUrl')` and the two 400 guards; Success carries the URL string. */
  function RequestUrl(data: Json, hostname: HostOf): (r: Result<string, Response>)
    ensures r.Success? <==>
              data.JObj? && "spotifyUrl" in data.fields &&
              PyTruthy(data.fields["spotifyUrl"]) && IsValidSpotifyUrl(data.fields["spotifyUrl"], hostname)
    ensures r.Success? ==> JStr(r.value) == data.fields["spotifyUrl"]
    ensures data.JObj? && !PyTruthy(PyGet(data, "spotifyUrl", JNull).value) ==>
              r == Failure(Response(400, ErrorBody("Spotify URL is required")))
    ensures data.JObj? && PyTruthy(PyGet(data, "spotifyUrl", JNull).value) && r.Failure? ==>
              r == Failure(Response(400, ErrorBody("Invalid Spotify URL format")))
  {
    match PyGet(data, "spotifyUrl", JNull)
    case Failure(e) => Failure(InternalError(e))
    case Success(url) =>
      if !PyTruthy(url) then Failure(Response(400, ErrorBody("Spotify URL is required")))
      else if !IsValidSpotifyUrl(url, hostname) then Failure(Response(400, ErrorBody("Invalid Spotify URL format")))
      else Success(url.s)
  }

  // ---------------------------------------------------------------------------
  // One script run
  // ---------------------------------------------------------------------------

  /** The three messages of a stage: non-zero exit, an "error" on stderr, unparsable stdout. */
  datatype StageMessages = StageMessages(failed: string, scriptError: string, unparsable: string)

  const MetadataMessages := StageMessages("Failed to extract metadata: ", "Metadata script error: ", "Failed to parse metadata: ")
  const SearchMessages := StageMessages("Failed to fetch YouTube URL: ", "YouTube search script error: ", "Failed to parse YouTube URL: ")
  const PlaylistMessages := StageMessages("Failed to extract playlist metadata: ", "Playlist script error: ", "Failed to parse playlist metadata: ")

  /** The text handed to `json.loads`: the stripped output, narrowed by the first/last brace rule when asked. */
  function StageText(stdout: string, firstLast: bool): string {
    if firstLast then FirstLastText(PyStrip(stdout)) else PyStrip(stdout)
  }

  /** The return-code check, the stderr check and the parse that follow each `subprocess.run`. */
  function Stage(p: Completed, msgs: StageMessages, firstLast: bool, parse: Parser): (r: Result<Json, string>)
    ensures p.code != 0 ==> r == Failure(msgs.failed + p.stderr)
    ensures p.code == 0 && ReportsError(p.stderr) ==> r == Failure(msgs.scriptError + p.stderr)
    ensures p.code == 0 && !ReportsError(p.stderr) ==>
              r == (if parse(StageText(p.stdout, firstLast)).Success? then parse(StageText(p.stdout, firstLast))
                    else Failure(msgs.unparsable + p.stdout))
  {
    if p.code != 0 then Failure(msgs.failed + p.stderr)
    else if ReportsError(p.stderr) then Failure(msgs.scriptError + p.stderr)
    else
      match parse(StageText(p.stdout, firstLast))
      case Failure(_) => Failure(msgs.unparsable + p.stdout)
      case Success(v) => Success(v)
  }

  /**
   * A stderr that does not mention "error" in any letter case is ignored:
   * the stage ends as if the script had written nothing there.
   */
  lemma QuietStderrIgnored(code: int, stdout: string, stderr: string, msgs: StageMessages, firstLast: bool, parse: Parser)
    requires !ReportsError(stderr)
    ensures Stage(Completed(code, stdout, stderr), msgs, firstLast, parse) ==
            (if code != 0 then Failure(msgs.failed + stderr) else Stage(Completed(code, stdout, ""), msgs, firstLast, parse))
  {
  }

  /** Any stderr text containing "Error" fails a stage that exited with 0, whatever its output. */
  lemma ErrorInStderrFails(stdout: string, prefix: string, suffix: string, msgs: StageMessages, firstLast: bool, parse: Parser)
    ensures var stderr := prefix + "Error" + suffix;
            Stage(Completed(0, stdout, stderr), msgs, firstLast, parse) == Failure(msgs.scriptError + stderr)
  {
    var stderr := prefix + "Error" + suffix;
    var low := LowerAscii(stderr);
    var n := |prefix|;
    forall j | 0 <= j < 5 ensures low[n + j] == "error"[j] {
      assert stderr[n + j] == "Error"[j];
    }
    assert low[n..n + 5] == "error";
    assert OccursAt(low, "error", n);
    ContainsIff(low, "error");
  }

  /**
   * The playlist script prints its dict's keys on stderr: when they mention
   * "error" in any letter case, a run that exited with 0 fails the stage.
   */
  lemma ErrorKeyFailsPlaylistStage(stdout: string, p: map<string, Json>, showKeys: SpotifyPlaylist.KeyRenderer, parse: Parser)
    requires Contains(LowerAscii(showKeys(p)), "error")
    ensures var stderr := SpotifyPlaylist.DebugLines(JObj(p), showKeys);
            Stage(Completed(0, stdout, stderr), PlaylistMessages, true, parse) == Failure(PlaylistMessages.scriptError + stderr)
  {
    var pre := SpotifyPlaylist.TypeLine(JObj(p)) + "DEBUG: Playlist is a dict with keys: ";
    assert SpotifyPlaylist.DebugLines(JObj(p), showKeys) == pre + showKeys(p) + "\n";
    ContainsLowered(pre, showKeys(p), "\n", "error");
  }

  /** The download run: any stderr at all is a failure. */
  function DownloadStage(p: Completed): (r: Result<(), string>)
    ensures r.Success? <==> p.code == 0 && p.stderr == ""
    ensures p.code != 0 ==> r == Failure("Failed to download track: " + p.stderr)
    ensures p.code == 0 && p.stderr != "" ==> r == Failure("Download script error: " + p.stderr)
  {
    if p.code != 0 then Failure("Failed to download track: " + p.stderr)
    else if p.stderr != "" then Failure("Download script error: " + p.stderr)
    else Success(())
  }

  // ---------------------------------------------------------------------------
  // /download-track
  // ---------------------------------------------------------------------------

  /**
   * `metadata_data.get('metadata', {}).get('title')` and the same for the
   * artist: None when either is falsy, both otherwise; `get` on a non-dict raises.
   */
  function TrackNames(md: Json): (r: Result<Option<(Json, Json)>, string>)
    ensures r.Failure? <==> !md.JObj? || !PyGet(md, "metadata", JObj(map[])).value.JObj?
    ensures r.Success? ==>
              var m := PyGet(md, "metadata", JObj(map[])).value.fields;
              (r.value.Some? <==> "title" in m && "artist" in m && PyTruthy(m["title"]) && PyTruthy(m["artist"]))
    ensures r.Success? && r.value.Some? ==>
              md.JObj? && "metadata" in md.fields && md.fields["metadata"].JObj? &&
              var m := md.fields["metadata"].fields;
              "title" in m && "artist" in m && PyTruthy(m["title"]) && PyTruthy(m["artist"]) &&
              r.value.value == (m["title"], m["artist"])
    ensures md.JObj? && "metadata" in md.fields && md.fields["metadata"].JObj? ==>
              var m := md.fields["metadata"].fields;
              "title" in m && "artist" in m && PyTruthy(m["title"]) && PyTruthy(m["artist"]) ==>
                r == Success(Some((m["title"], m["artist"])))
  {
    var m :- PyGet(md, "metadata", JObj(map[]));
    var title :- PyGet(m, "title", JNull);
    if !PyTruthy(title) then Success(None)
    else
      var artist := PyGet(m, "artist", JNull).value;
      if !PyTruthy(artist) then Success(None) else Success(Some((title, artist)))
  }

  function MetadataArgv(cfg: Config, url: string): seq<string> {
    [cfg.python, ScriptPath(cfg, "spotify", "spotify_metadata.py"), url]
  }

  function SearchArgv(cfg: Config, title: string, artist: string): seq<string> {
    [cfg.python, ScriptPath(cfg, "spotify", "fetch_youtube_url.py"), title, artist]
  }

  function DownloadArgv(cfg: Config, url: string, out: string): seq<string> {
    [cfg.python, ScriptPath(cfg, "youtube", "youtube_downloader.py"), url, out]
  }

  /** `f"downloads/{title} - {artist}.mp3"` */
  function TrackOutputPath(title: string, artist: string): string {
    "downloads/" + title + " - " + artist + ".mp3"
  }

  /** `{'message': 'Track downloaded successfully', 'path': output_path}` */
  function DownloadedBody(out: string): Json {
    JObj(map["message" := JStr("Track downloaded successfully"), "path" := JStr(out)])
  }

  /** The download step once the YouTube URL is known; the effects are the ones it adds. */
  function FetchTrack(cfg: Config, url: Json, out: string, run: Runner): (h: Handled)
    ensures |h.effects| <= 1
    ensures h.response.status == 200 <==> url.JStr? && DownloadStage(run(DownloadArgv(cfg, url.s, out))).Success?
    ensures h.response.status == 200 ==>
              h.effects == [Spawn(DownloadArgv(cfg, url.s, out))] && h.response.body == DownloadedBody(out)
  {
    match PyArg(url)
    case Failure(e) => Handled(InternalError(e), [])
    case Success(u) =>
      var argv := DownloadArgv(cfg, u, out);
      match DownloadStage(run(argv))
      case Failure(m) => Handled(Fail500(m), [Spawn(argv)])
      case Success(_) => Handled(Response(200, DownloadedBody(out)), [Spawn(argv)])
  }

  /** What follows the search run: the `youtube_url` checks and the download. */
  function AfterSearch(cfg: Config, out: string, found: Result<Json, string>, run: Runner): (h: Handled)
    ensures |h.effects| <= 1
    ensures h.response.status == 200 ==> |h.effects| == 1 && h.response.body == DownloadedBody(out)
    ensures found.Failure? ==> h == Handled(Fail500(found.error), [])
    ensures found.Success? && !found.value.JObj? ==>
              h == Handled(InternalError(PyGet(found.value, "youtube_url", JNull).error), [])
    ensures found.Success? && found.value.JObj? ==>
              var url := PyGet(found.value, "youtube_url", JNull).value;
              (!PyTruthy(url) ==> h == Handled(Fail500("Could not find YouTube URL for the track"), [])) &&
              (PyTruthy(url) ==> h == FetchTrack(cfg, url, out, run))
  {
    match found
    case Failure(m) => Handled(Fail500(m), [])
    case Success(sd) =>
      match PyGet(sd, "youtube_url", JNull)
      case Failure(e) => Handled(InternalError(e), [])
      case Success(url) =>
        if !PyTruthy(url) then Handled(Fail500("Could not find YouTube URL for the track"), [])
        else FetchTrack(cfg, url, out, run)
  }

  /** The search and download steps once the metadata has given both names. */
  function SearchAndDownload(cfg: Config, title: Json, artist: Json, run: Runner, parse: Parser): (h: Handled)
    ensures |h.effects| <= 2
    ensures h.response.status == 200 ==>
              title.JStr? && artist.JStr? && |h.effects| == 2 &&
              h.effects[0] == Spawn(SearchArgv(cfg, title.s, artist.s)) &&
              h.response.body == DownloadedBody(TrackOutputPath(title.s, artist.s))
    ensures !title.JStr? ==> h == Handled(InternalError(PyArg(title).error), [])
    ensures title.JStr? && !artist.JStr? ==> h == Handled(InternalError(PyArg(artist).error), [])
    ensures title.JStr? && artist.JStr? ==>
              var argv := SearchArgv(cfg, title.s, artist.s);
              var after := AfterSearch(cfg, TrackOutputPath(title.s, artist.s), Stage(run(argv), SearchMessages, false, parse), run);
              h == Handled(after.response, [Spawn(argv)] + after.effects)
  {
    match PyArg(title)
    case Failure(e) => Handled(InternalError(e), [])
    case Success(t) =>
      match PyArg(artist)
      case Failure(e) => Handled(InternalError(e), [])
      case Success(a) =>
        var argv := SearchArgv(cfg, t, a);
        var h := AfterSearch(cfg, TrackOutputPath(t, a), Stage(run(argv), SearchMessages, false, parse), run);
        Handled(h.response, [Spawn(argv)] + h.effects)
  }

  /** What follows the metadata run: the name checks, then search and download. */
  function AfterMetadata(cfg: Config, md: Result<Json, string>, run: Runner, parse: Parser): (h: Handled)
    ensures |h.effects| <= 2
    ensures h.response.status == 200 ==>
              |h.effects| == 2 && md.Success? && TrackNames(md.value).Success? && TrackNames(md.value).value.Some? &&
              h == SearchAndDownload(cfg, TrackNames(md.value).value.value.0, TrackNames(md.value).value.value.1, run, parse)
    ensures md.Failure? ==> h == Handled(Fail500(md.error), [])
    ensures md.Success? && TrackNames(md.value).Failure? ==> h == Handled(InternalError(TrackNames(md.value).error), [])
    ensures md.Success? && TrackNames(md.value) == Success(None) ==>
              h == Handled(Fail500("Failed to extract track and artist name from metadata"), [])
    ensures md.Success? && TrackNames(md.value).Success? && TrackNames(md.value).value.Some? ==>
              h == SearchAndDownload(cfg, TrackNames(md.value).value.value.0, TrackNames(md.value).value.value.1, run, parse)
  {
    match md
    case Failure(m) => Handled(Fail500(m), [])
    case Success(v) =>
      match TrackNames(v)
      case Failure(e) => Handled(InternalError(e), [])
      case Success(None) => Handled(Fail500("Failed to extract track and artist name from metadata"), [])
      case Success(Some(names)) => SearchAndDownload(cfg, names.0, names.1, run, parse)
  }

  /** `POST /download-track` with the decoded request body. */
  function DownloadTrack(cfg: Config, data: Json, hostname: HostOf, run: Runner, parse: Parser): (h: Handled)
    ensures RequestUrl(data, hostname).Failure? ==> h == Handled(RequestUrl(data, hostname).error, [])
    ensures RequestUrl(data, hostname).Success? ==>
              1 <= |h.effects| <= 3 && h.effects[0] == Spawn(MetadataArgv(cfg, RequestUrl(data, hostname).value))
    ensures h.response.status == 200 ==> |h.effects| == 3
  {
    match RequestUrl(data, hostname)
    case Failure(resp) => Handled(resp, [])
    case Success(url) =>
      var argv := MetadataArgv(cfg, url);
      var h := AfterMetadata(cfg, Stage(run(argv), MetadataMessages, true, parse), run, parse);
      Handled(h.response, [Spawn(argv)] + h.effects)
  }

  /**
   * A successful download ran the metadata and search scripts on the names
   * the metadata gave and reports `downloads/<title> - <artist>.mp3`.
   */
  lemma DownloadTrackSucceeded(cfg: Config, data: Json, hostname: HostOf, run: Runner, parse: Parser)
    requires DownloadTrack(cfg, data, hostname, run, parse).response.status == 200
    ensures RequestUrl(data, hostname).Success?
    ensures var md := Stage(run(MetadataArgv(cfg, RequestUrl(data, hostname).value)), MetadataMessages, true, parse);
            md.Success? && TrackNames(md.value).Success? && TrackNames(md.value).value.Some? &&
            var names := TrackNames(md.value).value.value;
            var h := DownloadTrack(cfg, data, hostname, run, parse);
            names.0.JStr? && names.1.JStr? &&
            h.effects[1] == Spawn(SearchArgv(cfg, names.0.s, names.1.s)) &&
            h.response.body.fields["path"] == JStr(TrackOutputPath(names.0.s, names.1.s))
  {
    var url := RequestUrl(data, hostname).value;
    var argv := MetadataArgv(cfg, url);
    var h := AfterMetadata(cfg, Stage(run(argv), MetadataMessages, true, parse), run, parse);
    assert DownloadTrack(cfg, data, hostname, run, parse) == Handled(h.response, [Spawn(argv)] + h.effects);
  }

  // ---------------------------------------------------------------------------
  // /download-playlist: everything before the loop
  // ---------------------------------------------------------------------------

  const EmptyPlaylist := "Failed to extract playlist data or playlist is empty"

  /**
   * A payload the guard and `re.sub` let through: a truthy dict `playlist`
   * with a truthy string `name` and truthy `tracks` that have a length.
   */
  predicate RecordPasses(pd: Json)
    requires pd.JObj?
  {
    var pl := PyGet(pd, "playlist", JNull).value;
    pl.JObj? && PyTruthy(pl) &&
    var name := PyGet(pl, "name", JNull).value;
    var tracks := PyGet(pl, "tracks", JNull).value;
    name.JStr? && name.s != "" && PyTruthy(tracks) && !tracks.JNum? && !tracks.JBool?
  }

  /** The guard of app.py:158-161 and the `re.sub` type check, on the parsed payload. */
  function PlaylistRecord(pd: Json): (r: Result<(Json, string, Json), Response>)
    requires pd.JObj?
    ensures r.Success? ==>
              var (pl, name, tracks) := r.value;
              pl.JObj? && "name" in pl.fields && "tracks" in pl.fields &&
              pl.fields["name"] == JStr(name) && name != "" &&
              pl.fields["tracks"] == tracks && PyTruthy(tracks) && !tracks.JNum? && !tracks.JBool?
    ensures r.Success? <==> RecordPasses(pd)
    ensures var pl := PyGet(pd, "playlist", JNull).value;
            (!PyTruthy(pl) ==> r == Failure(Fail500(EmptyPlaylist))) &&
            (PyTruthy(pl) && !pl.JObj? ==> r == Failure(InternalError(PyGet(pl, "name", JNull).error)))
    ensures var pl := PyGet(pd, "playlist", JNull).value;
            pl.JObj? && PyTruthy(pl) ==>
              var name := PyGet(pl, "name", JNull).value;
              var tracks := PyGet(pl, "tracks", JNull).value;
              (!PyTruthy(name) || !PyTruthy(tracks) ==> r == Failure(Fail500(EmptyPlaylist))) &&
              (PyTruthy(name) && PyTruthy(tracks) && (tracks.JNum? || tracks.JBool?) ==>
                 r == Failure(InternalError("object of type '" + PyTypeName(tracks) + "' has no len()"))) &&
              (PyTruthy(name) && PyTruthy(tracks) && !tracks.JNum? && !tracks.JBool? && !name.JStr? ==>
                 r == Failure(InternalError("expected string or bytes-like object, got '" + PyTypeName(name) + "'")))
  {
    var pl := PyGet(pd, "playlist", JNull).value;
    if !PyTruthy(pl) then Failure(Fail500(EmptyPlaylist))
    else
      match PyGet(pl, "name", JNull)
      case Failure(e) => Failure(InternalError(e))
      case Success(name) =>
        if !PyTruthy(name) then Failure(Fail500(EmptyPlaylist))
        else
          var tracks := PyGet(pl, "tracks", JNull).value;
          if !PyTruthy(tracks) then Failure(Fail500(EmptyPlaylist))
          else if tracks.JNum? || tracks.JBool? then Failure(InternalError("object of type '" + PyTypeName(tracks) + "' has no len()"))
          else if !name.JStr? then Failure(InternalError("expected string or bytes-like object, got '" + PyTypeName(name) + "'"))
          else Success((pl, name.s, tracks))
  }

  /** The payload checks of app.py:151-168: `success`, then the record guard. */
  function PlaylistPayload(pd: Json): (r: Result<(Json, string, Json), Response>)
    ensures !pd.JObj? ==> r == Failure(InternalError("'" + PyTypeName(pd) + "' object has no attribute 'get'"))
    ensures pd.JObj? && !PyTruthy(PyGet(pd, "success", JNull).value) ==>
              r == Failure(Response(500, JObj(map["error" := PyGet(pd, "error", JStr("Playlist metadata extraction failed")).value])))
    ensures pd.JObj? && PyTruthy(PyGet(pd, "success", JNull).value) ==> r == PlaylistRecord(pd)
  {
    match PyGet(pd, "success", JNull)
    case Failure(e) => Failure(InternalError(e))
    case Success(ok) =>
      if !PyTruthy(ok) then Failure(Response(500, JObj(map["error" := PyGet(pd, "error", JStr("Playlist metadata extraction failed")).value])))
      else PlaylistRecord(pd)
  }

  /** One manifest entry: `track['title']` and so on, raising on the first missing key. */
  function ManifestTrack(t: Json): (r: Result<Json, string>)
    ensures r.Success? <==> t.JObj? && "title" in t.fields && "artist" in t.fields && "album" in t.fields && "duration_ms" in t.fields
    ensures r.Success? ==>
              r.value.JObj? && r.value.fields.Keys == {"title", "artist", "album", "duration_ms"} &&
              r.value.fields["title"] == t.fields["title"] && r.value.fields["artist"] == t.fields["artist"] &&
              r.value.fields["album"] == t.fields["album"] && r.value.fields["duration_ms"] == t.fields["duration_ms"]
    ensures !t.JObj? ==> r == Failure(PyIndex(t, "title").error)
    ensures t.JObj? && "title" !in t.fields ==> r == Failure(KeyErrorText("title"))
    ensures t.JObj? && "title" in t.fields && "artist" !in t.fields ==> r == Failure(KeyErrorText("artist"))
    ensures t.JObj? && "title" in t.fields && "artist" in t.fields && "album" !in t.fields ==> r == Failure(KeyErrorText("album"))
    ensures t.JObj? && "title" in t.fields && "artist" in t.fields && "album" in t.fields && "duration_ms" !in t.fields ==>
              r == Failure(KeyErrorText("duration_ms"))
  {
    var title :- PyIndex(t, "title");
    var artist :- PyIndex(t, "artist");
    var album :- PyIndex(t, "album");
    var duration :- PyIndex(t, "duration_ms");
    Success(JObj(map["title" := title, "artist" := artist, "album" := album, "duration_ms" := duration]))
  }

  /** The list comprehension over the tracks, in order. */
  function ManifestTracks(tracks: seq<Json>): (r: Result<seq<Json>, string>)
    ensures r.Success? <==> forall k :: 0 <= k < |tracks| ==> ManifestTrack(tracks[k]).Success?
    ensures r.Success? ==> (|r.value| == |tracks| &&
              forall k :: 0 <= k < |tracks| ==> ManifestTrack(tracks[k]) == Success(r.value[k]))
    decreases |tracks|
  {
    if |tracks| == 0 then Success([])
    else
      var head :- ManifestTrack(tracks[0]);
      var rest :- ManifestTracks(tracks[1..]);
      assert forall k :: 1 <= k < |tracks| ==> tracks[k] == tracks[1..][k - 1];
      Success([head] + rest)
  }

  /** The `playlist_info` dictionary written to `playlist_info.json`. */
  function ManifestJson(name: string, owner: Json, count: Json, url: string, entries: seq<Json>): (r: Json)
    ensures r.JObj? && r.fields.Keys == {"name", "owner", "trackCount", "url", "tracks"}
    ensures r.fields["name"] == JStr(name) && r.fields["url"] == JStr(url) && r.fields["tracks"] == JArr(entries)
    ensures r.fields["owner"] == owner && r.fields["trackCount"] == count
  {
    JObj(map["name" := JStr(name), "owner" := owner, "trackCount" := count, "url" := JStr(url), "tracks" := JArr(entries)])
  }

  /** The `playlist_info` dictionary of app.py:176-190, with `track_count` and the track list. */
  function Manifest(pl: Json, name: string, tracks: Json, url: string): (r: Result<(Json, seq<Json>, Json), string>)
    requires pl.JObj?
    ensures r.Success? ==>
              "owner" in pl.fields && "track_count" in pl.fields && tracks.JArr? &&
              r.value.0 == pl.fields["track_count"] && r.value.1 == tracks.items &&
              forall k :: 0 <= k < |tracks.items| ==> ManifestTrack(tracks.items[k]).Success?
    ensures r.Success? ==>
              ManifestTracks(tracks.items).Success? &&
              r.value.2 == ManifestJson(name, pl.fields["owner"], pl.fields["track_count"], url, ManifestTracks(tracks.items).value)
    ensures "owner" !in pl.fields ==> r == Failure(KeyErrorText("owner"))
    ensures "owner" in pl.fields && "track_count" !in pl.fields ==> r == Failure(KeyErrorText("track_count"))
    ensures "owner" in pl.fields && "track_count" in pl.fields ==>
              (tracks.JStr? || tracks.JObj? ==> r == Failure("string indices must be integers, not 'str'")) &&
              (tracks.JNull? || tracks.JBool? || tracks.JNum? ==> r == Failure("'" + PyTypeName(tracks) + "' object is not iterable")) &&
              (tracks.JArr? && ManifestTracks(tracks.items).Failure? ==> r == Failure(ManifestTracks(tracks.items).error))
    ensures r.Success? <==>
              "owner" in pl.fields && "track_count" in pl.fields && tracks.JArr? && ManifestTracks(tracks.items).Success?
  {
    var owner :- PyIndex(pl, "owner");
    var count :- PyIndex(pl, "track_count");
    if tracks.JStr? || tracks.JObj? then Failure("string indices must be integers, not 'str'")
    else if !tracks.JArr? then Failure("'" + PyTypeName(tracks) + "' object is not iterable")
    else
      var entries :- ManifestTracks(tracks.items);
      Success((count, tracks.items, ManifestJson(name, owner, count, url, entries)))
  }

  /** `os.path.join(root, 'downloads', sanitized_name)` */
  function PlaylistDir(cfg: Config, name: string): string {
    PosixPath.Join(PosixPath.Join(cfg.root, "downloads"), SanitizeName(name))
  }

  function PlaylistArgv(cfg: Config, url: string): seq<string> {
    [cfg.python, ScriptPath(cfg, "spotify", "spotify_playlist.py"), url]
  }

  /**
   * What the loop starts from: the playlist's name, its record
   * (`playlist_data['playlist']`), `track_count`, directory, tracks and
   * manifest, and the effects so far.
   */
  datatype Setup = Setup(name: string, record: Json, trackCount: Json, dir: string, tracks: seq<Json>, manifest: Json, effects: seq<Effect>)

  /**
   * The manifest of a setup is the `playlist_info` dictionary of its record:
   * the name, `owner`, `track_count`, the URL and one entry per track.
   */
  predicate ManifestOf(s: Setup, url: string) {
    s.record.JObj? && "owner" in s.record.fields && "track_count" in s.record.fields &&
    "tracks" in s.record.fields && s.record.fields["tracks"] == JArr(s.tracks) &&
    s.trackCount == s.record.fields["track_count"] && ManifestTracks(s.tracks).Success? &&
    s.manifest == ManifestJson(s.name, s.record.fields["owner"], s.trackCount, url, ManifestTracks(s.tracks).value)
  }

  /**
   * The manifest lists every track of the playlist, in order, each entry
   * holding exactly that track's title, artist, album and duration.
   */
  lemma ManifestListsEveryTrack(s: Setup, url: string)
    requires ManifestOf(s, url)
    ensures s.manifest.JObj? && "tracks" in s.manifest.fields && s.manifest.fields["tracks"].JArr?
    ensures var es := s.manifest.fields["tracks"].items;
            |es| == |s.tracks| &&
            forall k :: 0 <= k < |es| ==>
              s.tracks[k].JObj? && es[k].JObj? && es[k].fields.Keys == {"title", "artist", "album", "duration_ms"} &&
              forall key :: key in es[k].fields ==> key in s.tracks[k].fields && es[k].fields[key] == s.tracks[k].fields[key]
  {
    var es := ManifestTracks(s.tracks).value;
    forall k | 0 <= k < |es|
      ensures s.tracks[k].JObj? && es[k].JObj? && es[k].fields.Keys == {"title", "artist", "album", "duration_ms"} &&
              forall key :: key in es[k].fields ==> key in s.tracks[k].fields && es[k].fields[key] == s.tracks[k].fields[key]
    {
      assert ManifestTrack(s.tracks[k]) == Success(es[k]);
    }
  }

  /** The manifest does not depend on the effects recorded so far. */
  lemma ManifestOfEffects(s: Setup, effects: seq<Effect>, url: string)
    requires ManifestOf(s, url)
    ensures ManifestOf(s.(effects := effects), url)
  {
  }

  /** The path of the manifest file. */
  function ManifestPath(dir: string): string {
    PosixPath.Join(dir, "playlist_info.json")
  }

  /**
   * The directory, the manifest and the file it is written to, for a
   * playlist that passed the payload checks: `os.makedirs`, then the
   * `playlist_info` dictionary, then `open` and `json.dump`.  A raising
   * file-system call ends in the handler's `except`.
   */
  function PlaylistFiles(cfg: Config, url: string, found: (Json, string, Json), fs: FileSystem): (r: Result<Setup, Handled>)
    requires found.0.JObj?
    requires "tracks" in found.0.fields && found.0.fields["tracks"] == found.2
    ensures r.Success? ==> r.value.record == found.0 && ManifestOf(r.value, url)
    ensures r.Success? ==>
              r.value.name == found.1 && r.value.dir == PlaylistDir(cfg, found.1) &&
              (forall k :: 0 <= k < |r.value.tracks| ==> ManifestTrack(r.value.tracks[k]).Success?) &&
              r.value.effects == [MakeDir(r.value.dir), WriteFile(ManifestPath(r.value.dir), r.value.manifest)] &&
              FileCallsSucceeded(r.value.effects, fs)
    ensures fs(MakeDir(PlaylistDir(cfg, found.1))).Some? ==>
              r == Failure(Handled(InternalError(fs(MakeDir(PlaylistDir(cfg, found.1))).value), [MakeDir(PlaylistDir(cfg, found.1))]))
    ensures fs(MakeDir(PlaylistDir(cfg, found.1))).None? && Manifest(found.0, found.1, found.2, url).Failure? ==>
              r == Failure(Handled(InternalError(Manifest(found.0, found.1, found.2, url).error), [MakeDir(PlaylistDir(cfg, found.1))]))
    ensures r.Failure? ==>
              r.error.response.status == 500 && 1 <= |r.error.effects| <= 2 &&
              r.error.effects[0] == MakeDir(PlaylistDir(cfg, found.1)) &&
              (|r.error.effects| == 2 ==>
                 fs(r.error.effects[1]).Some? && r.error.response == InternalError(fs(r.error.effects[1]).value))
    ensures var dir := PlaylistDir(cfg, found.1);
            var m := Manifest(found.0, found.1, found.2, url);
            fs(MakeDir(dir)).None? && m.Success? ==>
              var file := WriteFile(ManifestPath(dir), m.value.2);
              (r.Success? <==> fs(file).None?) &&
              (fs(file).Some? ==> r == Failure(Handled(InternalError(fs(file).value), [MakeDir(dir), file])))
  {
    var (pl, name, tracks) := found;
    var dir := PlaylistDir(cfg, name);
    if fs(MakeDir(dir)).Some? then Failure(Handled(InternalError(fs(MakeDir(dir)).value), [MakeDir(dir)]))
    else
      match Manifest(pl, name, tracks, url)
      case Failure(e) => Failure(Handled(InternalError(e), [MakeDir(dir)]))
      case Success(m) =>
        var file := WriteFile(ManifestPath(dir), m.2);
        if fs(file).Some? then Failure(Handled(InternalError(fs(file).value), [MakeDir(dir), file]))
        else
          FileCallsOfTwo(MakeDir(dir), file, fs);
          Success(Setup(name, pl, m.0, dir, m.1, m.2, [MakeDir(dir), file]))
  }

  /** What follows the playlist script run. */
  function AfterPlaylistScript(cfg: Config, url: string, pd: Result<Json, string>, fs: FileSystem): (r: Result<Setup, Handled>)
    ensures r.Success? ==>
              pd.Success? && PlaylistPayload(pd.value).Success? && r.value.record == PlaylistPayload(pd.value).value.0 &&
              "name" in r.value.record.fields && r.value.record.fields["name"] == JStr(r.value.name) &&
              ManifestOf(r.value, url)
    ensures r.Success? ==>
              r.value.dir == PlaylistDir(cfg, r.value.name) &&
              (forall k :: 0 <= k < |r.value.tracks| ==> ManifestTrack(r.value.tracks[k]).Success?) &&
              r.value.effects == [MakeDir(r.value.dir), WriteFile(ManifestPath(r.value.dir), r.value.manifest)] &&
              FileCallsSucceeded(r.value.effects, fs)
    ensures r.Failure? ==> r.error.response.status == 500 && |r.error.effects| <= 2
    ensures pd.Failure? ==> r == Failure(Handled(Fail500(pd.error), []))
    ensures pd.Success? && PlaylistPayload(pd.value).Failure? ==> r == Failure(Handled(PlaylistPayload(pd.value).error, []))
    ensures pd.Success? && PlaylistPayload(pd.value).Success? ==>
              pd.value.JObj? && PlaylistPayload(pd.value) == PlaylistRecord(pd.value) &&
              r == PlaylistFiles(cfg, url, PlaylistPayload(pd.value).value, fs)
  {
    match pd
    case Failure(m) => Failure(Handled(Fail500(m), []))
    case Success(v) =>
      match PlaylistPayload(v)
      case Failure(resp) => Failure(Handled(resp, []))
      case Success(found) => PlaylistFiles(cfg, url, found, fs)
  }

  /** Recording the script's spawn in front of a setup keeps its manifest and its file calls. */
  lemma SpawnedSetup(s: Setup, argv: seq<string>, url: string)
    requires ManifestOf(s, url)
    requires s.effects == [MakeDir(s.dir), WriteFile(ManifestPath(s.dir), s.manifest)]
    ensures ManifestOf(s.(effects := [Spawn(argv)] + s.effects), url)
    ensures [Spawn(argv)] + s.effects == [Spawn(argv), MakeDir(s.dir), WriteFile(ManifestPath(s.dir), s.manifest)]
  {
    ManifestOfEffects(s, [Spawn(argv)] + s.effects, url);
  }

  /** The playlist script run and what follows it, for a URL the request check accepted. */
  function ScriptThenFiles(cfg: Config, url: string, run: Runner, parse: Parser, fs: FileSystem): (r: Result<Setup, Handled>)
    ensures r.Success? ==>
              ManifestOf(r.value, url) && r.value.record.JObj? &&
              "name" in r.value.record.fields && r.value.record.fields["name"] == JStr(r.value.name)
    ensures r.Success? ==>
              r.value.dir == PlaylistDir(cfg, r.value.name) &&
              (forall k :: 0 <= k < |r.value.tracks| ==> ManifestTrack(r.value.tracks[k]).Success?) &&
              r.value.effects == [Spawn(PlaylistArgv(cfg, url)), MakeDir(r.value.dir),
                                  WriteFile(ManifestPath(r.value.dir), r.value.manifest)] &&
              FileCallsSucceeded(r.value.effects, fs)
    ensures r.Failure? ==>
              r.error.response.status == 500 && 1 <= |r.error.effects| <= 3 &&
              r.error.effects[0] == Spawn(PlaylistArgv(cfg, url))
    ensures var a := AfterPlaylistScript(cfg, url, Stage(run(PlaylistArgv(cfg, url)), PlaylistMessages, true, parse), fs);
            (r.Success? <==> a.Success?) &&
            (a.Failure? ==> r == Failure(Handled(a.error.response, [Spawn(PlaylistArgv(cfg, url))] + a.error.effects))) &&
            (a.Success? ==> r.value == a.value.(effects := [Spawn(PlaylistArgv(cfg, url))] + a.value.effects))
  {
    var argv := PlaylistArgv(cfg, url);
    match AfterPlaylistScript(cfg, url, Stage(run(argv), PlaylistMessages, true, parse), fs)
    case Failure(h) => Failure(Handled(h.response, [Spawn(argv)] + h.effects))
    case Success(s) =>
      FileCallsAfterCommand(Spawn(argv), s.effects, fs);
      SpawnedSetup(s, argv, url);
      Success(s.(effects := [Spawn(argv)] + s.effects))
  }

  /** The handler up to the loop; Failure carries the finished response and its effects. */
  function PlaylistSetup(cfg: Config, data: Json, hostname: HostOf, run: Runner, parse: Parser, fs: FileSystem): (r: Result<Setup, Handled>)
    ensures RequestUrl(data, hostname).Failure? ==> r == Failure(Handled(RequestUrl(data, hostname).error, []))
    ensures r.Success? ==> (RequestUrl(data, hostname).Success? &&
              r.value.dir == PlaylistDir(cfg, r.value.name) &&
              (forall k :: 0 <= k < |r.value.tracks| ==> ManifestTrack(r.value.tracks[k]).Success?) &&
              r.value.effects == [Spawn(PlaylistArgv(cfg, RequestUrl(data, hostname).value)), MakeDir(r.value.dir),
                                  WriteFile(ManifestPath(r.value.dir), r.value.manifest)] &&
              FileCallsSucceeded(r.value.effects, fs))
    ensures r.Success? ==>
              RequestUrl(data, hostname).Success? && ManifestOf(r.value, RequestUrl(data, hostname).value) &&
              r.value.record.JObj? && "name" in r.value.record.fields && r.value.record.fields["name"] == JStr(r.value.name)
    ensures r.Failure? ==> r.error.response.status != 200 && |r.error.effects| <= 3
    ensures RequestUrl(data, hostname).Success? ==> r == ScriptThenFiles(cfg, RequestUrl(data, hostname).value, run, parse, fs)
  {
    match RequestUrl(data, hostname)
    case Failure(resp) => Failure(Handled(resp, []))
    case Success(url) => ScriptThenFiles(cfg, url, run, parse, fs)
  }

  /**
   * An accepted request whose script output parses to a passing payload with
   * a buildable manifest is set up when no file call raises.
   */
  lemma UsablePlaylistSetUp(cfg: Config, data: Json, hostname: HostOf, run: Runner, parse: Parser, fs: FileSystem)
    requires RequestUrl(data, hostname).Success?
    requires var url := RequestUrl(data, hostname).value;
             var pd := Stage(run(PlaylistArgv(cfg, url)), PlaylistMessages, true, parse);
             pd.Success? && pd.value.JObj? && PyTruthy(PyGet(pd.value, "success", JNull).value) && RecordPasses(pd.value) &&
             var pl := PyGet(pd.value, "playlist", JNull).value;
             Manifest(pl, PyGet(pl, "name", JNull).value.s, PyGet(pl, "tracks", JNull).value, url).Success?
    requires forall e :: fs(e).None?
    ensures PlaylistSetup(cfg, data, hostname, run, parse, fs).Success?
  {
    var url := RequestUrl(data, hostname).value;
    var pd := Stage(run(PlaylistArgv(cfg, url)), PlaylistMessages, true, parse);
    var found := PlaylistRecord(pd.value);
    assert PlaylistPayload(pd.value) == found;
    assert PlaylistFiles(cfg, url, found.value, fs).Success?;
  }

  /** The playlist directory is a single component under `downloads`: the sanitised name. */
  lemma PlaylistDirIsChild(cfg: Config, name: string)
    requires name != ""
    ensures PosixPath.Basename(PlaylistDir(cfg, name)) == SanitizeName(name)
  {
    SanitizeNameSpec(name);
    var s := SanitizeName(name);
    assert '/' !in s by {
      forall k | 0 <= k < |s| ensures s[k] != '/' {
        assert !IsReservedChar(s[k]);
      }
    }
    var parent := PosixPath.Join(cfg.root, "downloads");
    assert parent != "" && parent[|parent| - 1] != '/' by {
      assert EndsWith(parent, "downloads");
      assert parent[|parent| - 1] == "downloads"[8];
    }
    PosixPath.SplitJoined(parent, s);
  }

  // ---------------------------------------------------------------------------
  // /download-playlist: the loop
  // ---------------------------------------------------------------------------

  /** `track.get('title') and track.get('artist')` on a manifest-checked track. */
  predicate Eligible(t: Json) {
    t.JObj? && "title" in t.fields && "artist" in t.fields && PyTruthy(t.fields["title"]) && PyTruthy(t.fields["artist"])
  }

  /** What one iteration does. */
  datatype Step =
    | Skipped
    | Finished(detail: Detail, effects: seq<Effect>)
    | Raised(error: string, effects: seq<Effect>)

  /** `os.path.join(playlist_dir, f"{track_number} - {title} - {artist}.mp3")` */
  function TrackPath(dir: string, i: nat, title: string, artist: string): string {
    PosixPath.Join(dir, PyOrdinal(i + 1) + " - " + title + " - " + artist + ".mp3")
  }

  /** The download of one playlist track once its YouTube URL is known; the effects are the ones it adds. */
  function TrackDownload(cfg: Config, out: string, shown: string, url: Json, run: Runner): (r: Step)
    ensures !r.Skipped?
    ensures r.Finished? ==> url.JStr? && r.effects == [Spawn(DownloadArgv(cfg, url.s, out))]
    ensures r.Finished? && r.detail.success ==> r.detail == Detail(shown, true, out)
    ensures r.Raised? ==> r.effects == []
    ensures !url.JStr? ==> r == Raised(PyArg(url).error, [])
    ensures url.JStr? ==>
              var p := run(DownloadArgv(cfg, url.s, out));
              r.Finished? && (r.detail.success <==> p.code == 0 && p.stderr == "") &&
              (!r.detail.success ==> r.detail == Detail(shown, false, p.stderr))
  {
    match PyArg(url)
    case Failure(e) => Raised(e, [])
    case Success(u) =>
      var argv := DownloadArgv(cfg, u, out);
      var p := run(argv);
      if p.code != 0 || p.stderr != "" then Finished(Detail(shown, false, p.stderr), [Spawn(argv)])
      else Finished(Detail(shown, true, out), [Spawn(argv)])
  }

  /**
   * A track succeeds when its search ran clean, printed an object with a
   * string `youtube_url`, and the download of that URL ran clean.
   */
  predicate SearchThenDownloadClean(cfg: Config, title: string, artist: string, dir: string, i: nat, run: Runner, parse: Parser) {
    var p := run(SearchArgv(cfg, title, artist));
    p.code == 0 && p.stderr == "" && parse(PyStrip(p.stdout)).Success? &&
    var sd := parse(PyStrip(p.stdout)).value;
    sd.JObj? && "youtube_url" in sd.fields && sd.fields["youtube_url"].JStr? && sd.fields["youtube_url"].s != "" &&
    var q := run(DownloadArgv(cfg, sd.fields["youtube_url"].s, TrackPath(dir, i, title, artist)));
    q.code == 0 && q.stderr == ""
  }

  /** The body of the `if` in the loop, for string names. */
  function TrackSearch(cfg: Config, dir: string, i: nat, title: string, artist: string, run: Runner, parse: Parser): (r: Step)
    ensures !r.Skipped?
    ensures 1 <= |r.effects| <= 2 && r.effects[0] == Spawn(SearchArgv(cfg, title, artist))
    ensures r.Finished? && r.detail.success ==>
              r.detail == Detail(TrackLabel(title, artist), true, TrackPath(dir, i, title, artist)) && |r.effects| == 2
    ensures var shown := TrackLabel(title, artist);
            var e1 := [Spawn(SearchArgv(cfg, title, artist))];
            var p := run(SearchArgv(cfg, title, artist));
            ((p.code != 0 || p.stderr != "") ==> r == Finished(Detail(shown, false, p.stderr), e1)) &&
            (p.code == 0 && p.stderr == "" && parse(PyStrip(p.stdout)).Failure? ==>
               r == Finished(Detail(shown, false, "Failed to parse YouTube URL: " + p.stdout), e1))
    ensures var shown := TrackLabel(title, artist);
            var e1 := [Spawn(SearchArgv(cfg, title, artist))];
            var p := run(SearchArgv(cfg, title, artist));
            p.code == 0 && p.stderr == "" && parse(PyStrip(p.stdout)).Success? ==>
              var sd := parse(PyStrip(p.stdout)).value;
              (!sd.JObj? ==> r == Raised(PyGet(sd, "youtube_url", JNull).error, e1)) &&
              (sd.JObj? && !PyTruthy(PyGet(sd, "youtube_url", JNull).value) ==>
                 r == Finished(Detail(shown, false, "Could not find YouTube URL"), e1)) &&
              (sd.JObj? && PyTruthy(PyGet(sd, "youtube_url", JNull).value) ==>
                 var d := TrackDownload(cfg, TrackPath(dir, i, title, artist), shown, PyGet(sd, "youtube_url", JNull).value, run);
                 r == d.(effects := e1 + d.effects))
    ensures r.Finished? && r.detail.success <==> SearchThenDownloadClean(cfg, title, artist, dir, i, run, parse)
  {
    var shown := TrackLabel(title, artist);
    var argv := SearchArgv(cfg, title, artist);
    var p := run(argv);
    var e1 := [Spawn(argv)];
    if p.code != 0 || p.stderr != "" then Finished(Detail(shown, false, p.stderr), e1)
    else
      match parse(PyStrip(p.stdout))
      case Failure(_) => Finished(Detail(shown, false, "Failed to parse YouTube URL: " + p.stdout), e1)
      case Success(sd) =>
        match PyGet(sd, "youtube_url", JNull)
        case Failure(e) => Raised(e, e1)
        case Success(url) =>
          if !PyTruthy(url) then Finished(Detail(shown, false, "Could not find YouTube URL"), e1)
          else
            var r := TrackDownload(cfg, TrackPath(dir, i, title, artist), shown, url, run);
            r.(effects := e1 + r.effects)
  }

  /** The iteration for the track at index i, which the manifest has already checked. */
  function TrackStep(cfg: Config, dir: string, i: nat, t: Json, run: Runner, parse: Parser): (r: Step)
    requires ManifestTrack(t).Success?
    ensures r.Skipped? <==> !Eligible(t)
    ensures !r.Skipped? ==> |r.effects| <= 2
    ensures Eligible(t) && !t.fields["title"].JStr? ==> r == Raised(PyArg(t.fields["title"]).error, [])
    ensures Eligible(t) && t.fields["title"].JStr? && !t.fields["artist"].JStr? ==> r == Raised(PyArg(t.fields["artist"]).error, [])
    ensures Eligible(t) && t.fields["title"].JStr? && t.fields["artist"].JStr? ==>
              r == TrackSearch(cfg, dir, i, t.fields["title"].s, t.fields["artist"].s, run, parse)
  {
    var title := t.fields["title"];
    var artist := t.fields["artist"];
    if !PyTruthy(title) || !PyTruthy(artist) then Skipped
    else
      match PyArg(title)
      case Failure(e) => Raised(e, [])
      case Success(ts) =>
        match PyArg(artist)
        case Failure(e) => Raised(e, [])
        case Success(as_) => TrackSearch(cfg, dir, i, ts, as_, run, parse)
  }

  predicate AllManifested(tracks: seq<Json>) {
    forall k :: 0 <= k < |tracks| ==> ManifestTrack(tracks[k]).Success?
  }

  /** The two lists, the effects, and the exception that ended the loop, if any. */
  datatype Loop = Loop(successful: seq<Detail>, failed: seq<Detail>, effects: seq<Effect>, raised: Option<string>)

  /** The loop state after one more iteration. */
  function Absorb(l: Loop, s: Step): Loop {
    match s
    case Skipped => l
    case Finished(d, e) =>
      if d.success then Loop(l.successful + [d], l.failed, l.effects + e, None)
      else Loop(l.successful, l.failed + [d], l.effects + e, None)
    case Raised(msg, e) => Loop(l.successful, l.failed, l.effects + e, Some(msg))
  }

  /** What iteration i would do, for every track. */
  function Steps(cfg: Config, dir: string, tracks: seq<Json>, run: Runner, parse: Parser): (r: seq<Step>)
    requires AllManifested(tracks)
    ensures |r| == |tracks|
    ensures forall k :: 0 <= k < |tracks| ==> r[k] == TrackStep(cfg, dir, k, tracks[k], run, parse)
    ensures forall k :: 0 <= k < |tracks| ==> (r[k].Skipped? <==> !Eligible(tracks[k]))
  {
    seq(|tracks|, k requires 0 <= k < |tracks| => TrackStep(cfg, dir, k, tracks[k], run, parse))
  }

  /** The first n iterations; an exception stops the loop. */
  function Fold(steps: seq<Step>, n: nat): Loop
    requires n <= |steps|
    decreases n
  {
    if n == 0 then Loop([], [], [], None)
    else
      var prev := Fold(steps, n - 1);
      if prev.raised.Some? then prev else Absorb(prev, steps[n - 1])
  }

  /** The whole loop over the playlist's tracks. */
  function LoopSpec(cfg: Config, dir: string, tracks: seq<Json>, run: Runner, parse: Parser): Loop
    requires AllManifested(tracks)
  {
    Fold(Steps(cfg, dir, tracks, run, parse), |tracks|)
  }

  /** Once raised, the exception ends the loop: later iterations change nothing. */
  lemma {:induction false} RaisedStops(steps: seq<Step>, m: nat, n: nat)
    requires m <= n <= |steps|
    requires Fold(steps, m).raised.Some?
    ensures Fold(steps, n) == Fold(steps, m)
    decreases n - m
  {
    if m < n {
      RaisedStops(steps, m, n - 1);
    }
  }

  /** The loop of app.py:199-274, appending to `successful_downloads` and `failed_downloads`. */
  method PlaylistLoop(cfg: Config, dir: string, tracks: seq<Json>, run: Runner, parse: Parser)
    returns (successful: seq<Detail>, failed: seq<Detail>, effects: seq<Effect>, raised: Option<string>)
    requires AllManifested(tracks)
    ensures Loop(successful, failed, effects, raised) == LoopSpec(cfg, dir, tracks, run, parse)
  {
    ghost var steps := Steps(cfg, dir, tracks, run, parse);
    successful, failed, effects, raised := [], [], [], None;
    for i := 0 to |tracks|
      invariant Loop(successful, failed, effects, raised) == Fold(steps, i)
      invariant raised.None?
    {
      var step := TrackStep(cfg, dir, i, tracks[i], run, parse);
      assert step == steps[i];
      ghost var next := Absorb(Loop(successful, failed, effects, raised), step);
      assert Fold(steps, i + 1) == next;
      match step
      case Skipped =>
      case Finished(d, e) =>
        if d.success {
          successful := successful + [d];
        } else {
          failed := failed + [d];
        }
        effects := effects + e;
      case Raised(msg, e) =>
        effects := effects + e;
        raised := Some(msg);
        RaisedStops(steps, i + 1, |tracks|);
        return;
    }
  }

  /** The details of the first n iterations that finished, in index order. */
  function Outcomes(steps: seq<Step>, n: nat): seq<Detail>
    requires n <= |steps|
    decreases n
  {
    if n == 0 then [] else Outcomes(steps, n - 1) + (if steps[n - 1].Finished? then [steps[n - 1].detail] else [])
  }

  /** The number of the first n iterations that did something. */
  function Worked(steps: seq<Step>, n: nat): nat
    requires n <= |steps|
    decreases n
  {
    if n == 0 then 0 else Worked(steps, n - 1) + (if steps[n - 1].Skipped? then 0 else 1)
  }

  /** The details with the given status, in order. */
  function WithStatus(ds: seq<Detail>, success: bool): (r: seq<Detail>)
    ensures |r| == CountStatus(ds, success)
    ensures forall k :: 0 <= k < |r| ==> r[k].success == success && r[k] in ds
    decreases |ds|
  {
    if |ds| == 0 then []
    else WithStatus(ds[..|ds| - 1], success) + (if ds[|ds| - 1].success == success then [ds[|ds| - 1]] else [])
  }

  /**
   * Without an exception, every iteration that is not skipped adds exactly
   * one entry, `successful_downloads` holds the successes and
   * `failed_downloads` the failures, each in iteration order.
   */
  lemma {:induction false} LoopPartitions(steps: seq<Step>, n: nat)
    requires n <= |steps|
    requires Fold(steps, n).raised.None?
    ensures Fold(steps, n).successful == WithStatus(Outcomes(steps, n), true)
    ensures Fold(steps, n).failed == WithStatus(Outcomes(steps, n), false)
    ensures |Outcomes(steps, n)| == Worked(steps, n)
    decreases n
  {
    if n > 0 {
      var prev := Fold(steps, n - 1);
      assert prev.raised.None?;
      LoopPartitions(steps, n - 1);
      var all0 := Outcomes(steps, n - 1);
      var all := Outcomes(steps, n);
      match steps[n - 1]
      case Skipped =>
        assert all == all0;
      case Raised(_, _) =>
      case Finished(d, _) =>
        assert all == all0 + [d];
        assert all[..|all| - 1] == all0;
        assert all[|all| - 1] == d;
    }
  }

  /** The iterations that do something are exactly those of the eligible tracks. */
  lemma {:induction false} WorkedEligible(steps: seq<Step>, tracks: seq<Json>, n: nat)
    requires |steps| == |tracks| && n <= |tracks|
    requires forall k :: 0 <= k < |tracks| ==> (steps[k].Skipped? <==> !Eligible(tracks[k]))
    ensures Worked(steps, n) == |IndicesWhere(tracks, n, Eligible)|
    decreases n
  {
    if n > 0 {
      WorkedEligible(steps, tracks, n - 1);
    }
  }

  /** In `successful_downloads + failed_downloads` every success comes before every failure. */
  lemma SuccessesFirst(successful: seq<Detail>, failed: seq<Detail>)
    requires forall k :: 0 <= k < |successful| ==> successful[k].success
    requires forall k :: 0 <= k < |failed| ==> !failed[k].success
    ensures var ds := successful + failed;
            forall a, b :: 0 <= a < b < |ds| && ds[b].success ==> ds[a].success
  {
  }

  /** The response of a playlist whose loop ran to the end. */
  function PlaylistResponse(s: Setup, l: Loop): Response {
    Response(200, JObj(map["message" := JStr(PlaylistMessage(|l.successful|, |l.failed|)),
                           "playlistName" := JStr(s.name),
                           "totalTracks" := s.trackCount,
                           "successfulDownloads" := JNum(|l.successful|),
                           "failedDownloads" := JNum(|l.failed|),
                           "directory" := JStr(s.dir),
                           "details" := DetailsJson(l.successful + l.failed)]))
  }

  /** `POST /download-playlist` with the decoded request body. */
  function DownloadPlaylist(cfg: Config, data: Json, hostname: HostOf, run: Runner, parse: Parser, fs: FileSystem): (h: Handled)
    ensures RequestUrl(data, hostname).Failure? ==> h == Handled(RequestUrl(data, hostname).error, [])
    ensures h.response.status == 200 <==>
              PlaylistSetup(cfg, data, hostname, run, parse, fs).Success? &&
              LoopSpec(cfg, PlaylistSetup(cfg, data, hostname, run, parse, fs).value.dir,
                       PlaylistSetup(cfg, data, hostname, run, parse, fs).value.tracks, run, parse).raised.None?
  {
    match PlaylistSetup(cfg, data, hostname, run, parse, fs)
    case Failure(h) => h
    case Success(s) =>
      var l := LoopSpec(cfg, s.dir, s.tracks, run, parse);
      if l.raised.Some? then Handled(InternalError(l.raised.value), s.effects + l.effects)
      else Handled(PlaylistResponse(s, l), s.effects + l.effects)
  }

  /**
   * A playlist whose loop ran to the end reports `track_count` unchanged as
   * `totalTracks`, counts that are the lengths of the two lists and add up
   * to the number of eligible tracks, and lists the successes before the failures.
   */
  lemma DownloadPlaylistReport(cfg: Config, data: Json, hostname: HostOf, run: Runner, parse: Parser, fs: FileSystem)
    requires DownloadPlaylist(cfg, data, hostname, run, parse, fs).response.status == 200
    ensures PlaylistSetup(cfg, data, hostname, run, parse, fs).Success?
    ensures var s := PlaylistSetup(cfg, data, hostname, run, parse, fs).value;
            var l := LoopSpec(cfg, s.dir, s.tracks, run, parse);
            DownloadPlaylist(cfg, data, hostname, run, parse, fs).response == PlaylistResponse(s, l) &&
            |l.successful| + |l.failed| == |IndicesWhere(s.tracks, |s.tracks|, Eligible)| &&
            (forall k :: 0 <= k < |l.successful| ==> l.successful[k].success) &&
            (forall k :: 0 <= k < |l.failed| ==> !l.failed[k].success)
  {
    var s := PlaylistSetup(cfg, data, hostname, run, parse, fs).value;
    var steps := Steps(cfg, s.dir, s.tracks, run, parse);
    LoopPartitions(steps, |steps|);
    WorkedEligible(steps, s.tracks, |steps|);
    CountsCover(Outcomes(steps, |steps|));
  }
}
