/**
 * yt-dlp/downloader.py: the search query and output template of
 * `search_and_download_track`, and the mode the script selects from its
 * argument vector.  yt-dlp itself is a parameter.
 */
module YtDlpDownloader {
  import opened Wrappers
  import opened Strings
  import opened Json
  import PosixPath

  /** `f"{track_name} {artist_name} audio official"` */
  function SearchQuery(trackName: string, artistName: string): string {
    trackName + " " + artistName + " audio official"
  }

  /** The yt-dlp search string: one result for the query. */
  function SearchString(trackName: string, artistName: string): (r: string)
    ensures StartsWith(r, "ytsearch1:")
    ensures r[10..] == SearchQuery(trackName, artistName)
    ensures EndsWith(r, " audio official")
  {
    var r := "ytsearch1:" + SearchQuery(trackName, artistName);
    assert r[..10] == "ytsearch1:";
    assert r[|r| - 15..] == " audio official";
    r
  }

  /** The chained `.replace('/', '_').replace(':', '_')` on a name. */
  function SafeName(s: string): string {
    ReplaceAll(ReplaceAll(s, "/", "_"), ":", "_")
  }

  predicate IsPathUnsafe(c: char) {
    c == '/' || c == ':'
  }

  /**
   * The chained replacement rewrites exactly the '/' and ':' characters to
   * '_': the length is kept and every other character is unchanged.
   */
  lemma SafeNameSpec(s: string)
    ensures |SafeName(s)| == |s|
    ensures forall k :: 0 <= k < |s| ==> SafeName(s)[k] == (if IsPathUnsafe(s[k]) then '_' else s[k])
    ensures '/' !in SafeName(s) && ':' !in SafeName(s)
  {
    ReplaceCharIsCharwise(s, '/', '_');
    var t := ReplaceAll(s, "/", "_");
    ReplaceCharIsCharwise(t, ':', '_');
  }

  /** The output template: `<output_path>/<track> - <artist>.%(ext)s` with both names made safe. */
  function OutputTemplate(outputPath: string, trackName: string, artistName: string): string {
    PosixPath.Join(outputPath, SafeName(trackName) + " - " + SafeName(artistName) + ".%(ext)s")
  }

  /** The file part of the template holds no '/' whatever the names contain. */
  lemma OutputTemplateFileName(outputPath: string, trackName: string, artistName: string)
    ensures var file := SafeName(trackName) + " - " + SafeName(artistName) + ".%(ext)s";
            EndsWith(OutputTemplate(outputPath, trackName, artistName), file) && '/' !in file
  {
    var a, b := SafeName(trackName), SafeName(artistName);
    assert '/' !in a && '/' !in b by {
      SafeNameSpec(trackName);
      SafeNameSpec(artistName);
    }
    assert '/' !in " - " && '/' !in ".%(ext)s";
    var file := a + " - " + b + ".%(ext)s";
    assert '/' !in file;
    assert EndsWith(PosixPath.Join(outputPath, file), file);
  }

  /**
   * `search_and_download_track`: `extract` is yt-dlp's `extract_info` given
   * the search string and the output template; anything it raises yields None.
   */
  function SearchAndDownloadTrack(trackName: string, artistName: string, outputPath: string,
                                  extract: (string, string) -> Result<Json, string>): (r: Option<Json>)
    ensures r.None? <==> extract(SearchString(trackName, artistName), OutputTemplate(outputPath, trackName, artistName)).Failure?
    ensures r.Some? ==> r.value == extract(SearchString(trackName, artistName), OutputTemplate(outputPath, trackName, artistName)).value
  {
    match extract(SearchString(trackName, artistName), OutputTemplate(outputPath, trackName, artistName))
    case Success(info) => Some(info)
    case Failure(_) => None
  }

  /** What the script does for a given `sys.argv` (argv[0] is the script). */
  datatype Mode =
    | Usage
    | SearchMode(trackName: string, artistName: string, outputPath: string)
    | DirectMode(url: string, outputPath: string)
    | NoAction

  /** The if/elif dispatch of the `__main__` block. */
  function Dispatch(argv: seq<string>): (m: Mode)
    ensures m == Usage <==> |argv| < 3
    ensures m.SearchMode? <==> |argv| == 4
    ensures m.DirectMode? <==> |argv| == 3
    ensures m == NoAction <==> |argv| > 4
    ensures m.SearchMode? ==> [m.trackName, m.artistName, m.outputPath] == argv[1..]
    ensures m.DirectMode? ==> [m.url, m.outputPath] == argv[1..]
  {
    if |argv| < 3 then Usage
    else if |argv| == 4 then SearchMode(argv[1], argv[2], argv[3])
    else if |argv| == 3 then DirectMode(argv[1], argv[2])
    else NoAction
  }

  /**
   * The exit status the dispatch itself sets: 1 after the usage message, 0
   * otherwise.  A download that raises in direct mode (which has no `except`)
   * still ends the process with 1; those failures are not part of this function.
   */
  function ExitCode(m: Mode): int {
    if m == Usage then 1 else 0
  }

  /** The dispatch sets exit status 1 exactly when there are fewer than two arguments, and 0 otherwise. */
  lemma ExitCodeOfArgv(argv: seq<string>)
    ensures ExitCode(Dispatch(argv)) == 1 <==> |argv| < 3
    ensures |argv| >= 3 ==> ExitCode(Dispatch(argv)) == 0
  {
  }
}
