/**
 * models/SpotifyModel.js: running the metadata and audio-info scripts and
 * turning their output into a result.  Each operation receives the finished
 * process (exit code, stdout, stderr) and the JSON parser as parameters.
 */
module SpotifyModel {
  import opened Wrappers
  import opened Strings
  import opened Json
  import opened Process
  import opened JsonSpan
  import YtDlpDownloader

  const MetadataScript := "spotify/metadata_extractor.py"
  const DownloaderScript := "yt-dlp/downloader.py"

  /** The JSON object in the output under the brace-depth rule, parsed. */
  function ParseFirstObject(stdout: string, parse: string -> Result<Json, string>): (r: Result<Json, string>)
    ensures IndexOfChar(JsTrim(stdout), '{') < 0 ==> r == Failure("No JSON found in output")
    ensures DepthSpan(JsTrim(stdout)) == Failure(InvalidStructure) ==> r == Failure("Invalid JSON structure")
    ensures DepthSpan(JsTrim(stdout)).Success? ==>
              var t := JsTrim(stdout);
              var sp := DepthSpan(t).value;
              r == parse(t[sp.start..sp.end + 1])
  {
    var cleaned := JsTrim(stdout);
    match DepthSpan(cleaned)
    case Failure(e) => Failure(SpanErrorMessage(e))
    case Success(sp) => parse(cleaned[sp.start..sp.end + 1])
  }

  /** The arguments `extractSpotifyMetadata` passes to the interpreter. */
  function MetadataArgv(spotifyUrl: string): seq<string> {
    [MetadataScript, spotifyUrl]
  }

  function ScriptFailed(p: Completed): string {
    "Python script failed with code " + IntToString(p.code) + ": " + p.stderr
  }

  /**
   * `extractSpotifyMetadata` once the script has closed: the promise
   * resolves with the parsed payload or rejects with a message.
   */
  function ExtractSpotifyMetadata(p: Completed, parse: string -> Result<Json, string>): (r: Result<Json, string>)
    ensures p.code != 0 ==> r == Failure(ScriptFailed(p))
    ensures p.code == 0 && ParseFirstObject(p.stdout, parse).Failure? ==>
              r == Failure("Failed to parse metadata from Python script: " + ParseFirstObject(p.stdout, parse).error)
    ensures p.code == 0 && ParseFirstObject(p.stdout, parse).Success? ==>
              var m := ParseFirstObject(p.stdout, parse).value;
              if m == JNull then
                r == Failure("Failed to parse metadata from Python script: " + TypeErrorReading("null", "error"))
              else if JsTruthy(JsField(m, "error")) then r == Failure(JsString(JsField(m, "error")))
              else r == Success(m)
    ensures r.Success? ==> p.code == 0 && r == ParseFirstObject(p.stdout, parse)
  {
    if p.code == 0 then
      match ParseFirstObject(p.stdout, parse)
      case Failure(msg) => Failure("Failed to parse metadata from Python script: " + msg)
      case Success(metadata) =>
        match JsGet(Some(metadata), "error")
        case Failure(typeError) => Failure("Failed to parse metadata from Python script: " + typeError)
        case Success(err) => if JsTruthy(err) then Failure(JsString(err)) else Success(metadata)
    else
      Failure(ScriptFailed(p))
  }

  /** A non-zero exit code rejects without consulting the parser. */
  lemma ParserUnusedOnFailure(p: Completed, parse1: string -> Result<Json, string>, parse2: string -> Result<Json, string>)
    requires p.code != 0
    ensures ExtractSpotifyMetadata(p, parse1) == ExtractSpotifyMetadata(p, parse2)
  {
  }

  /**
   * Output after the first balanced object does not affect what is parsed:
   * the trimmed text in `longer` is that in `stdout` followed by arbitrary text u.
   */
  lemma FirstObjectIgnoresTrailingOutput(stdout: string, longer: string, u: string, parse: string -> Result<Json, string>)
    requires DepthSpan(JsTrim(stdout)).Success?
    requires JsTrim(longer) == JsTrim(stdout) + u
    ensures ParseFirstObject(longer, parse) == ParseFirstObject(stdout, parse)
  {
    var t := JsTrim(stdout);
    var sp := DepthSpan(t).value;
    assert DepthSpan(JsTrim(longer)) == DepthSpan(t) by {
      DepthSpanIgnoresSuffix(t, u);
    }
    assert JsTrim(longer)[sp.start..sp.end + 1] == t[sp.start..sp.end + 1] by {
      assert sp.start <= sp.end < |t| by { DepthSpanSpec(t); }
      SliceOfAppend(t, u, sp.start, sp.end + 1);
    }
    assert ParseFirstObject(stdout, parse) == parse(t[sp.start..sp.end + 1]);
    assert ParseFirstObject(longer, parse) == parse(JsTrim(longer)[sp.start..sp.end + 1]);
  }

  /** What `getAudioInfoFrom…` resolves with; the close handler never rejects. */
  datatype AudioInfo =
    | AudioFound(title: Option<Json>, audioUrl: Option<Json>, webpageUrl: Option<Json>,
                 duration: Option<Json>, uploader: Option<Json>, formats: Option<Json>)
    | AudioMissing(error: Json)

  function AudioInfoJson(a: AudioInfo): Json {
    match a
    case AudioFound(title, audioUrl, webpageUrl, duration, uploader, formats) =>
      JObj(map["success" := JBool(true)]
           + (if title.Some? then map["title" := title.value] else map[])
           + (if audioUrl.Some? then map["audioUrl" := audioUrl.value] else map[])
           + (if webpageUrl.Some? then map["webpageUrl" := webpageUrl.value] else map[])
           + (if duration.Some? then map["duration" := duration.value] else map[])
           + (if uploader.Some? then map["uploader" := uploader.value] else map[])
           + (if formats.Some? then map["formats" := formats.value] else map[]))
    case AudioMissing(error) => JObj(map["success" := JBool(false), "error" := error])
  }

  /** The close handler shared by both audio-info operations; `fallback` is the default error message. */
  function AudioInfoFromOutput(p: Completed, parse: string -> Result<Json, string>, fallback: string): (r: AudioInfo)
    ensures p.code != 0 ==> r == AudioMissing(JStr(ScriptFailed(p)))
    ensures p.code == 0 && ParseFirstObject(p.stdout, parse).Failure? ==>
              r == AudioMissing(JStr("Failed to parse audio info from Python script: " + ParseFirstObject(p.stdout, parse).error))
    ensures r.AudioFound? <==>
              p.code == 0 && ParseFirstObject(p.stdout, parse).Success? &&
              JsTruthy(JsField(ParseFirstObject(p.stdout, parse).value, "success")) &&
              ParseFirstObject(p.stdout, parse).value != JNull
    ensures r.AudioFound? ==>
              var info := ParseFirstObject(p.stdout, parse).value;
              r.title == JsField(info, "title") && r.audioUrl == JsField(info, "url") &&
              r.webpageUrl == JsField(info, "webpage_url") && r.duration == JsField(info, "duration") &&
              r.uploader == JsField(info, "uploader") && r.formats == JsField(info, "formats")
    ensures p.code == 0 && ParseFirstObject(p.stdout, parse) == Success(JNull) ==>
              r == AudioMissing(JStr("Failed to parse audio info from Python script: " + TypeErrorReading("null", "success")))
    ensures p.code == 0 && ParseFirstObject(p.stdout, parse).Success? &&
            ParseFirstObject(p.stdout, parse).value != JNull && r.AudioMissing? ==>
              r.error == JsOr(JsField(ParseFirstObject(p.stdout, parse).value, "error"), JStr(fallback))
  {
    if p.code == 0 then
      match ParseFirstObject(p.stdout, parse)
      case Failure(msg) => AudioMissing(JStr("Failed to parse audio info from Python script: " + msg))
      case Success(info) =>
        if info == JNull then
          AudioMissing(JStr("Failed to parse audio info from Python script: " + TypeErrorReading("null", "success")))
        else if JsTruthy(JsField(info, "success")) then
          AudioFound(JsField(info, "title"), JsField(info, "url"), JsField(info, "webpage_url"),
                     JsField(info, "duration"), JsField(info, "uploader"), JsField(info, "formats"))
        else
          AudioMissing(JsOr(JsField(info, "error"), JStr(fallback)))
    else
      AudioMissing(JStr(ScriptFailed(p)))
  }

  /** The arguments `getAudioInfoFromSpotifyMetadata` passes to the interpreter. */
  function AudioInfoFromMetadataArgv(title: string, artist: string): seq<string> {
    [DownloaderScript, title, artist]
  }

  /** The arguments `getAudioInfoFromSpotifyUrl` passes to the interpreter. */
  function AudioInfoFromUrlArgv(spotifyUrl: string): seq<string> {
    [DownloaderScript, spotifyUrl]
  }

  function GetAudioInfoFromSpotifyMetadata(p: Completed, parse: string -> Result<Json, string>): (r: AudioInfo)
    ensures r.AudioMissing? && p.code == 0 && ParseFirstObject(p.stdout, parse).Success? &&
            ParseFirstObject(p.stdout, parse).value != JNull &&
            !JsTruthy(JsField(ParseFirstObject(p.stdout, parse).value, "error")) ==>
              r.error == JStr("Could not find audio for the given track")
  {
    AudioInfoFromOutput(p, parse, "Could not find audio for the given track")
  }

  function GetAudioInfoFromSpotifyUrl(p: Completed, parse: string -> Result<Json, string>): (r: AudioInfo)
    ensures r.AudioMissing? && p.code == 0 && ParseFirstObject(p.stdout, parse).Success? &&
            ParseFirstObject(p.stdout, parse).value != JNull &&
            !JsTruthy(JsField(ParseFirstObject(p.stdout, parse).value, "error")) ==>
              r.error == JStr("Could not extract audio info from the given URL")
  {
    AudioInfoFromOutput(p, parse, "Could not extract audio info from the given URL")
  }

  /**
   * The script started by `getAudioInfoFromSpotifyMetadata` receives two
   * arguments, which downloader.py reads as a direct download of the URL
   * `title` into the directory `artist`, not as a search.
   */
  lemma MetadataAudioArgvSelectsDirectMode(title: string, artist: string)
    ensures YtDlpDownloader.Dispatch(AudioInfoFromMetadataArgv(title, artist)) == YtDlpDownloader.DirectMode(title, artist)
  {
  }

  /** The script started by `getAudioInfoFromSpotifyUrl` receives one argument, so downloader.py prints its usage and exits with status 1. */
  lemma UrlAudioArgvSelectsUsage(spotifyUrl: string)
    ensures YtDlpDownloader.Dispatch(AudioInfoFromUrlArgv(spotifyUrl)) == YtDlpDownloader.Usage
    ensures YtDlpDownloader.ExitCode(YtDlpDownloader.Dispatch(AudioInfoFromUrlArgv(spotifyUrl))) == 1
  {
  }
}
