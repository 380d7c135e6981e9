# Spotify-to-YouTube downloader: a verified model of its core logic

The system takes a Spotify track or playlist link and produces MP3 files.
It reads the track's title and artist from Spotify, finds a matching video
on YouTube and downloads and transcodes its audio. Almost all of the code is
glue between HTTP handlers (Express and Flask) and Python helper scripts run
as child processes. This project models the deterministic logic inside that
glue and proves what it does:

- the two rules that pull a JSON object out of a script's mixed stdout: the
  brace-depth scan of `models/SpotifyModel.js`, and the first-`{`/last-`}`
  rule with whole-output fallback used by both download services and by
  `src/models/SpotifyMetadata.js`;
- the two download services (`server.js`, `app.py`): their guards, the
  order of the stages, the playlist directory and manifest, the per-track
  pipelines and how their outcomes are reported;
- the URL, query and path validators and the anchored link pattern;
- track-ID extraction, the JSON-LD reading and the page-title fallback of
  the Spotify clients, and the playlist script's track normalisation;
- the sponsor-segment complement and the ffmpeg filter string, the yt-dlp
  search string, output template and argument dispatch.

Every collaborator is a parameter:
- child processes are a function from the command (or argument vector) to
  their result;
- `JSON.parse`/`json.loads` is a partial function from text to a value;
- `new URL`/`urlparse` yields host and path (or the URL's parts);
- yt-dlp, ffprobe, ffmpeg, the SponsorBlock request, the Spotify library
  and the puppeteer session are functions supplied by the caller.

A request handler returns its response together with a trace of the
effects it performed (process launches, directory creation, file writes,
browser launch). "Nothing runs before the guard" and "the manifest is
written before any track command" are then statements about that trace.

Modules follow the source files:

| module | source |
|---|---|
| `JsonSpan` | both brace rules (`models/SpotifyModel.js`, `microservices/download-service/server.js`) |
| `SpotifyModel` | `models/SpotifyModel.js` |
| `DownloadServiceJs` | `microservices/download-service/server.js` |
| `DownloadServicePy` | `microservices/download-service/app.py` |
| `Naming` | directory sanitisation, `NN - title - artist.mp3`, outcome counts (both services) |
| `SpotifyMetadataJs` | `src/models/SpotifyMetadata.js` |
| `Validation` | `src/utils/validation.js` |
| `LinkValidator` | `spotify/link_validator.js` |
| `SpotifyService` | `src/services/spotifyService.js` |
| `SpotifyClient` | `spotify/spotify_client.py` |
| `SpotifyScraper` | `spotify/spotify_scraper.py` |
| `SpotifyPlaylist` | `spotify/spotify_playlist.py` |
| `YoutubeDownloader` | `youtube/youtube_downloader.py` |
| `YtDlpDownloader` | `yt-dlp/downloader.py` |
| `Strings`, `Json`, `Process`, `PosixPath`, `Wrappers` | JavaScript and Python built-ins the code relies on |

Where the code loops and updates state, the model does too; each such
method is proved equal to a specification function:
- the brace scan (`JsonSpan.ScanDepthSpan`);
- the track-ID scans (`SpotifyClient.ScanForId`, `SpotifyScraper.ScanForId`);
- the playlist loops (`SpotifyPlaylist.CollectTracks`,
  `DownloadServicePy.PlaylistLoop`, `DownloadServiceJs.FanOut`);
- the keep-range and `parts` loops (`YoutubeDownloader.ComplementRanges`,
  `YoutubeDownloader.BuildParts`).

The properties are then lemmas about those specification functions.

## Behaviour worth knowing

- **JSON extraction.** Only `models/SpotifyModel.js` tracks the brace
  depth. The download services and `SpotifyMetadata.js` take the first `{`
  and the last `}`. `JsonSpan.RulesDiffer` shows that the two rules select
  different text when the output holds two objects. `JsonSpan.RulesAgree`
  shows that they select the same text when no `}` follows the first
  balanced object.
- **Stderr.** In `server.js` and `SpotifyMetadata.js` any stderr text
  fails the stage. In `app.py` it fails the metadata, search and playlist
  stages only when it contains "error" in any letter case; it fails the
  download stage and the playlist loop's steps whenever it is non-empty.
  `spotify_playlist.py` writes DEBUG lines to stderr on every run in which
  the client returned (lines 30-48), so the two JavaScript callers reject
  every run of it (`DownloadServiceJs.PlaylistScriptNeverAccepted`,
  `SpotifyMetadataJs.PlaylistScriptNeverResolves`). `app.py` rejects it
  only when the printed keys mention "error"
  (`DownloadServicePy.ErrorKeyFailsPlaylistStage`).
- **Names.** Track file names are not sanitised; only the playlist
  directory name is.
- **Existing files.** Neither service skips an existing file or checks
  that a download is non-empty.
- **Result order.** `app.py` reports all successes before all failures,
  not in playlist order. `server.js` reports outcomes in index order.
- **Tracks without names.** Both services skip tracks without a title or
  artist and report nothing for them. `totalTracks` is the payload's
  `track_count`, copied as it is.

## Model

| member | source | states |
|---|---|---|
| JsonSpan.DepthCounts | models/SpotifyModel.js:62-72 | the running `openBraces` counter equals the number of `{` minus the number of `}` in the text scanned so far |
| JsonSpan.CloseIndex | models/SpotifyModel.js:62-72 | the scan's stop index is -1 or an index at or after its starting point inside the text |
| JsonSpan.CloseIndexSpec | models/SpotifyModel.js:62-72 | the scan stops exactly at the first `}` that brings the depth back to 0, the depth being positive before it; when it returns -1 the depth never reaches 0 |
| JsonSpan.CloseIndexOfPrefix | models/SpotifyModel.js:67-70 | once the scan has stopped inside a text, appending more text does not move the stop |
| JsonSpan.DepthSpan | models/SpotifyModel.js:54-78 | a selected span lies inside the trimmed output |
| JsonSpan.DepthSpanSpec | models/SpotifyModel.js:54-76 | fails with "no JSON" exactly when there is no `{`; otherwise the span starts at the first `{` and ends at the first `}` that returns the depth to 0, with positive depth in between; fails with "invalid structure" exactly when the depth never returns to 0 |
| JsonSpan.ScanDepthSpan | models/SpotifyModel.js:54-76 | the `for` loop with its early `break` computes `DepthSpan` |
| JsonSpan.DepthSpanBalanced | models/SpotifyModel.js:67-78 | the extracted text starts with `{`, ends with `}` and holds as many `{` as `}` (braces inside string literals count too) |
| JsonSpan.DepthSpanIgnoresSuffix | models/SpotifyModel.js:67-70 | text after the first balanced object does not change the span |
| JsonSpan.FirstLastBounds | microservices/download-service/server.js:46-50 | present exactly when a `{` occurs at or before a `}`; then it is the first `{` and the last `}` |
| JsonSpan.FirstLastText | microservices/download-service/server.js:46-57 | with a brace pair, the parsed text is a substring of the output that starts with `{` and ends with `}`; without one, the whole trimmed output |
| JsonSpan.FirstLastIdempotent | microservices/download-service/server.js:46-57 | applying the first/last rule to its own result changes nothing |
| JsonSpan.FirstLastOfWrapped | microservices/download-service/server.js:46-51 | log text before the object without `{` and after it without `}` is cut away exactly |
| JsonSpan.FirstLastOfObject | microservices/download-service/server.js:46-51 | output that is an object from first to last character is parsed whole |
| JsonSpan.RulesAgree | models/SpotifyModel.js:54-78 | when no `}` follows the first balanced object, the first/last rule selects the same text as the depth rule |
| JsonSpan.RulesDiffer | models/SpotifyModel.js:54-78 | on `{}{}` the depth rule keeps `{}` while the first/last rule keeps `{}{}` |
| SpotifyModel.ParseFirstObject | models/SpotifyModel.js:51-79 | "No JSON found in output" without a `{`, "Invalid JSON structure" when the depth never closes, otherwise the parse of exactly the depth span |
| SpotifyModel.ExtractSpotifyMetadata | models/SpotifyModel.js:47-93 | a non-zero exit rejects with the code and stderr; a parse failure rejects with the parse prefix; a payload with a truthy `error` rejects with it; a null payload throws; otherwise it resolves with the parsed payload unchanged |
| SpotifyModel.ParserUnusedOnFailure | models/SpotifyModel.js:90-93 | with a non-zero exit the result does not depend on the parser: parsing is never attempted |
| SpotifyModel.FirstObjectIgnoresTrailingOutput | models/SpotifyModel.js:60-79 | output after the first balanced object does not change what is parsed |
| SpotifyModel.AudioInfoFromOutput | models/SpotifyModel.js:120-183 | never rejects: a non-zero exit, a parse failure or a falsy `success` give `{success:false, error}`; a truthy `success` copies title, url, webpage_url, duration, uploader and formats; the error is the payload's `error` or the default |
| SpotifyModel.GetAudioInfoFromSpotifyMetadata | models/SpotifyModel.js:99-185 | the default error is "Could not find audio for the given track" |
| SpotifyModel.GetAudioInfoFromSpotifyUrl | models/SpotifyModel.js:188-271 | the default error is "Could not extract audio info from the given URL" |
| SpotifyModel.MetadataAudioArgvSelectsDirectMode | models/SpotifyModel.js:103-107 | `downloader.py` given title and artist dispatches to its direct mode, reading the title as a URL and the artist as the output directory |
| SpotifyModel.UrlAudioArgvSelectsUsage | models/SpotifyModel.js:190-193 | `downloader.py` given only the URL prints its usage and exits with status 1 |
| DownloadServiceJs.ParseStage | microservices/download-service/server.js:31-63 | an exec error rejects first, then any stderr, then a parse failure, each with its own prefix; otherwise the parse of the first/last text (metadata) or of the whole trimmed output (search) |
| DownloadServiceJs.RunStage | microservices/download-service/server.js:104-121 | the download stage succeeds exactly when there is no exec error and stderr is empty |
| DownloadServiceJs.PlaylistStage | microservices/download-service/server.js:141-181 | resolves exactly when the parse succeeds, the payload is not null and `success` is truthy |
| DownloadServiceJs.TrackNames | microservices/download-service/server.js:65-67 | throws exactly when the result is null or its `metadata` is undefined or null, with the TypeError of the property read; otherwise both names are returned exactly when `metadata` holds a truthy title and artist, and they are those values |
| DownloadServiceJs.SearchAndDownload | microservices/download-service/server.js:69-127 | the search on the two names runs first; a search failure, a null result or a falsy `youtube_url` is a 500 with the search as the only command ("Could not find YouTube URL for the track" for the falsy URL); a truthy URL runs the download to `downloads/<title> - <artist>.mp3`, and the answer is 200 with that path exactly when the download had no error and no stderr, otherwise a 500 with its text |
| DownloadServiceJs.DownloadTrack | microservices/download-service/server.js:17-128 | status 400, with no command run, exactly when `spotifyUrl` is falsy; otherwise the metadata command runs first and at most three run; 200 only after all three |
| DownloadServiceJs.MetadataStderrFails | microservices/download-service/server.js:39-43 | any metadata stderr fails the request with that text and nothing further runs |
| DownloadServiceJs.DownloadTrackSucceeded | microservices/download-service/server.js:65-123 | a success ran exactly three commands: the metadata command, the search on the metadata's names, and the download of the truthy `youtube_url` it found to `downloads/<title> - <artist>`; it reports that path with `.mp3` |
| DownloadServiceJs.ManifestTrack | microservices/download-service/server.js:199-204 | a manifest entry exists exactly for a non-null track, and a null track throws the TypeError of reading `title`; the entry holds exactly the track's defined `title`, `artist`, `album` and `duration_ms`, with their values (an undefined property is dropped by `JSON.stringify`) |
| DownloadServiceJs.ManifestTracks | microservices/download-service/server.js:199-204 | the manifest has one entry per track, in order, and fails exactly when some track is null |
| DownloadServiceJs.Manifest | microservices/download-service/server.js:194-205 | the manifest holds exactly the name, the URL, the track entries and the playlist's defined `owner` and `track_count` (as `trackCount`), and nothing else |
| DownloadServiceJs.ManifestListsEveryTrack | microservices/download-service/server.js:199-204 | the manifest lists every track of the playlist in input order, each entry holding exactly that track's defined title, artist, album and duration |
| DownloadServiceJs.SetupFrom | microservices/download-service/server.js:183-205 | after the guard: a non-string name throws the TypeError of `replace` with no effect; otherwise the directory is the sanitised name under `downloads` and is created first, a failing `mkdir` being a 500 with its message and nothing written; then non-array tracks throw the TypeError of `map` and a null track the TypeError of its entry; otherwise `playlist_info.json` is written in the directory with the `Manifest` of the URL, the name, the playlist and the entries of all its tracks, and the setup succeeds exactly when that write succeeds (a failing write is a 500 with its message) |
| DownloadServiceJs.PlaylistSetup | microservices/download-service/server.js:131-205 | a falsy URL is a 400 with no effects; otherwise the playlist script runs first, a failing playlist stage is a 500 with its message, a payload the guard rejects is the 500 "Failed to extract playlist data or playlist is empty", and a usable payload continues as `SetupFrom`; a setup that succeeds ran exactly the script, the `mkdir` and the manifest write, in that order, with the `Manifest` of the request URL and the reported playlist |
| DownloadServiceJs.UsablePlaylistSetUp | microservices/download-service/server.js:183-205 | a usable payload with a string name and an array of non-null tracks is set up, creating the directory after the script, when no file call fails |
| DownloadServiceJs.RejectedPlaylistTouchesNothing | microservices/download-service/server.js:183-190 | a payload the guard rejects (no name, no or empty tracks) ends in 500 with no directory and no manifest |
| DownloadServiceJs.PlaylistStderrRejected | microservices/download-service/server.js:149-153 | a playlist run that wrote to stderr ends in 500, whatever it printed, with no directory and no manifest |
| DownloadServiceJs.PlaylistScriptNeverAccepted | microservices/download-service/server.js:142-153 | fed the runs of `spotify_playlist.py` as written, the endpoint answers 500 for every non-empty URL: refusals exit with 1 and every run that exits with 0 wrote DEBUG lines to stderr |
| DownloadServiceJs.TrackPipeline | microservices/download-service/server.js:213-266 | the search runs first; a search exec error, any search stderr, an unparsable output or a falsy `youtube_url` fails with only the search run; otherwise the download of that URL runs, and the track succeeds exactly when it had no exec error and no stderr, reporting `<dir>/<NN> - <title> - <artist>.mp3` with the 1-based index padded to two digits; a failure detail is the exec error or stderr text, the parse error, the TypeError of reading `youtube_url` from a null result, or "Could not find YouTube URL" for a falsy URL |
| DownloadServiceJs.FanOut | microservices/download-service/server.js:208-273 | the `for` loop with `Promise.all` equals the index-ordered fold `FanOutSpec` |
| Process.IndicesWhere | microservices/download-service/server.js:211-213 | the indices a playlist loop works on are below the track count (server.js with `track.title && track.artist`, app.py:199-200 with Python truthiness) |
| Process.IndicesWhereSpec | microservices/download-service/server.js:211-213 | an index is listed exactly when its track passes the loop's test; the list is strictly ascending |
| DownloadServiceJs.FanOutFollowsIndices | microservices/download-service/server.js:211-273 | exactly one outcome per eligible track, and the k-th outcome is that of the k-th eligible track |
| DownloadServiceJs.FanOutCommands | microservices/download-service/server.js:211-270 | the fan-out performs only command runs |
| DownloadServiceJs.DownloadPlaylist | microservices/download-service/server.js:131-290 | a falsy URL is a 400 with no effects; 200 exactly when the setup succeeded |
| DownloadServiceJs.DownloadPlaylistSucceeded | microservices/download-service/server.js:188-285 | the playlist script, the directory and the manifest come before any track command; `details` lists one outcome per eligible track in index order, and the successful and failed counts add up to its length |
| DownloadServiceJs.AcceptedPlaylistFileCalls | microservices/download-service/server.js:190-194 | a 200 response means that every `mkdir` and file write of the request succeeded |
| DownloadServiceJs.SetupThenCommands | microservices/download-service/server.js:190-194 | a trace made of a setup whose `mkdir` and write succeeded, followed by commands only, has every file call succeed |
| DownloadServicePy.IsValidSpotifyUrl | microservices/download-service/app.py:15-20 | true exactly when the URL is a string, has a hostname and the hostname contains "spotify.com"; every exception gives False |
| DownloadServicePy.PyArg | microservices/download-service/app.py:68-71 | a `subprocess.run` argument must be a string: anything else raises |
| DownloadServicePy.RequestUrl | microservices/download-service/app.py:25-32 | accepts exactly a body whose truthy `spotifyUrl` passes `is_valid_spotify_url`; a missing or falsy one gives 400 "Spotify URL is required", an invalid one 400 "Invalid Spotify URL format" |
| DownloadServicePy.Stage | microservices/download-service/app.py:40-60 | a non-zero exit fails first, then a stderr mentioning "error" in any case, then a parse failure; otherwise the parsed payload |
| DownloadServicePy.QuietStderrIgnored | microservices/download-service/app.py:44-46 | a stderr without "error" in any case is ignored: the stage ends as with an empty stderr |
| DownloadServicePy.ErrorInStderrFails | microservices/download-service/app.py:44-46 | a stderr containing "Error" fails a stage that exited with 0, whatever stdout holds |
| DownloadServicePy.ErrorKeyFailsPlaylistStage | microservices/download-service/app.py:136-138 | when the keys `spotify_playlist.py` prints on stderr mention "error" in any case, the playlist stage fails even though the script exited with 0 |
| DownloadServicePy.DownloadStage | microservices/download-service/app.py:98-104 | the download succeeds exactly when it exits with 0 and stderr is empty |
| DownloadServicePy.TrackNames | microservices/download-service/app.py:62-63 | fails exactly when the payload or its `metadata` is not a dict; otherwise both names are returned exactly when `metadata` has a truthy `title` and `artist`, and they are those values |
| DownloadServicePy.FetchTrack | microservices/download-service/app.py:91-108 | 200 exactly when the URL is a string and the download stage succeeds; the response then names the output path |
| DownloadServicePy.AfterSearch | microservices/download-service/app.py:81-108 | a failed search stage is a 500 with its message; a non-dict result raises into the `except`; a falsy `youtube_url` is a 500 "Could not find YouTube URL for the track" with nothing run; a truthy one goes on to the download (`FetchTrack`); 200 only after the download ran |
| DownloadServicePy.SearchAndDownload | microservices/download-service/app.py:65-108 | a non-string title or artist raises into the `except` before anything runs; otherwise the search on the two names runs first and the rest is `AfterSearch` on its stage; 200 only for string names, after the search and the download; the path is `downloads/<title> - <artist>.mp3` |
| DownloadServicePy.AfterMetadata | microservices/download-service/app.py:62-108 | a failed metadata stage is a 500 with its message; a `get` that raises goes to the `except`; missing names give the 500 "Failed to extract track and artist name from metadata"; both names lead to the search and download on them; 200 only in that last case |
| DownloadServicePy.DownloadTrack | microservices/download-service/app.py:23-112 | a rejected request runs nothing; otherwise the metadata script runs first and at most three scripts run; 200 only after all three |
| DownloadServicePy.DownloadTrackSucceeded | microservices/download-service/app.py:62-108 | a success searched on the metadata's own title and artist and reports the path built from them |
| DownloadServicePy.PlaylistRecord | microservices/download-service/app.py:158-168 | succeeds exactly when `playlist` is a truthy dict with a non-empty string `name` and truthy `tracks` that have a length (`RecordPasses`); a falsy `playlist`, `name` or `tracks` is the 500 "Failed to extract playlist data or playlist is empty"; a non-dict `playlist`, number or boolean tracks and a non-string name raise their TypeErrors into the `except` |
| DownloadServicePy.PlaylistPayload | microservices/download-service/app.py:151-162 | a non-dict payload raises; a falsy `success` is a 500 with `error` or the default; otherwise the record guard |
| DownloadServicePy.ManifestTrack | microservices/download-service/app.py:182-187 | an entry exists exactly when the track is a dict with `title`, `artist`, `album` and `duration_ms`, and holds exactly those four values; otherwise the KeyError (or TypeError) of the first key missing, in that order |
| DownloadServicePy.ManifestTracks | microservices/download-service/app.py:181-189 | one entry per track, in order, failing exactly when some entry fails |
| DownloadServicePy.ManifestJson | microservices/download-service/app.py:176-190 | the `playlist_info` dictionary has exactly the keys `name`, `owner`, `trackCount`, `url` and `tracks`, holding the given values |
| DownloadServicePy.ManifestListsEveryTrack | microservices/download-service/app.py:181-189 | the manifest of a setup lists every track of the playlist in input order, each entry holding exactly that track's title, artist, album and duration |
| DownloadServicePy.SpawnedSetup | microservices/download-service/app.py:126-193 | recording the playlist script's spawn in front of a setup keeps its manifest (`ManifestOf`, via `ManifestOfEffects`) and gives the three effects in order |
| DownloadServicePy.Manifest | microservices/download-service/app.py:176-190 | succeeds exactly when `owner` and `track_count` are present and the tracks are a list of complete tracks; the manifest is then the `ManifestJson` of the name, `owner`, `track_count`, URL and the entries of all tracks; a missing `owner` or `track_count` is its KeyError; string or dict tracks raise "string indices must be integers", a null, boolean or number raises "object is not iterable", and an incomplete track its own error; it copies `track_count` and keeps the track list |
| DownloadServicePy.PlaylistFiles | microservices/download-service/app.py:164-193 | the directory is created and then the manifest written to it, and the setup's manifest is the manifest of its record (`ManifestOf`); a failing `makedirs` is a 500 with its message; a manifest that raises leaves only the directory; once the directory exists and the manifest builds, the setup succeeds exactly when the write succeeds, and a failing write is a 500 with its message |
| DownloadServicePy.AfterPlaylistScript | microservices/download-service/app.py:132-193 | a failed stage is a 500 with its message and a refused payload its own response, both with nothing done; a passing payload continues as `PlaylistFiles` on its record; a setup that succeeds made the directory and wrote the manifest of that record (`ManifestOf`) |
| DownloadServicePy.ScriptThenFiles | microservices/download-service/app.py:126-193 | the playlist script runs first, and the setup succeeds exactly when `AfterPlaylistScript` does on its stage, with the spawn recorded in front of what follows; a success created the directory and wrote the manifest of the reported playlist (`ManifestOf`), and every file call succeeded |
| DownloadServicePy.PlaylistSetup | microservices/download-service/app.py:115-193 | a rejected request runs nothing; an accepted one is `ScriptThenFiles` on its URL; a setup that succeeds ran exactly the playlist script, `makedirs` and the manifest write, in that order, and every file call succeeded; the manifest is that of the reported playlist and the request URL (`ManifestOf`) |
| DownloadServicePy.UsablePlaylistSetUp | microservices/download-service/app.py:115-193 | an accepted request whose script output passes the checks and whose manifest builds is set up when no file call raises |
| DownloadServicePy.PlaylistDirIsChild | microservices/download-service/app.py:168-169 | the playlist directory's last component is the sanitised name |
| DownloadServicePy.TrackDownload | microservices/download-service/app.py:229-261 | a non-string URL raises before anything runs; otherwise the download runs once and the track succeeds exactly when it exits with 0 and an empty stderr, recording `<title> by <artist>` and the output path; a failure records that stderr |
| DownloadServicePy.TrackSearch | microservices/download-service/app.py:202-274 | the search runs first; a non-zero exit or any stderr fails the track with that stderr; an unparsable output fails with "Failed to parse YouTube URL: " and the output; a non-dict result raises; a falsy `youtube_url` fails with "Could not find YouTube URL"; a truthy one goes on to `TrackDownload` at the `NN - title - artist.mp3` path; the track succeeds exactly when the search ran clean, found a string URL and its download ran clean |
| DownloadServicePy.TrackStep | microservices/download-service/app.py:199-274 | an iteration is skipped exactly when the track lacks a truthy title or artist; a non-string name raises the TypeError of the search call; string names run `TrackSearch` |
| DownloadServicePy.Steps | microservices/download-service/app.py:199-274 | one step per track, in order, skipped exactly for the ineligible tracks |
| DownloadServicePy.RaisedStops | microservices/download-service/app.py:286-288 | once an exception is raised, later iterations change nothing |
| DownloadServicePy.PlaylistLoop | microservices/download-service/app.py:196-274 | the loop that appends to `successful_downloads` and `failed_downloads` equals the fold `LoopSpec` |
| DownloadServicePy.WithStatus | microservices/download-service/app.py:196-274 | the details with one status, in order; their number is the status count |
| DownloadServicePy.LoopPartitions | microservices/download-service/app.py:199-274 | without an exception every iteration that is not skipped adds exactly one entry; `successful_downloads` holds the successes and `failed_downloads` the failures, each in iteration order |
| DownloadServicePy.WorkedEligible | microservices/download-service/app.py:199-200 | the iterations that add an entry are exactly those of the eligible tracks |
| DownloadServicePy.SuccessesFirst | microservices/download-service/app.py:283 | in `details` every success comes before every failure |
| DownloadServicePy.DownloadPlaylist | microservices/download-service/app.py:115-288 | a rejected request runs nothing; 200 exactly when the setup succeeded and the loop raised nothing |
| DownloadServicePy.DownloadPlaylistReport | microservices/download-service/app.py:276-284 | the response reports `track_count` unchanged as `totalTracks`; the two lists hold only successes and only failures; their lengths add up to the number of eligible tracks |
| Naming.SanitizeNameSpec | microservices/download-service/server.js:189 | sanitising keeps the length, turns exactly `< > : " / \ \| ? *` into `_`, keeps every other character in place, and leaves none of them |
| Naming.SanitizeIdempotent | microservices/download-service/server.js:189 | sanitising twice is sanitising once |
| Naming.SanitizeKeepsCleanName | microservices/download-service/app.py:168 | a name without reserved characters is kept unchanged |
| Naming.OrdinalsAgree | microservices/download-service/app.py:231 | `str(n).zfill(2)` and `String(n).padStart(2, '0')` give the same text |
| Naming.NatToStringLength | microservices/download-service/server.js:236 | a number has one digit exactly when it is below 10 |
| Naming.OrdinalSpec | microservices/download-service/server.js:236 | the ordinal has at least two digits: `0` and the digit below 10, the plain decimal otherwise |
| Naming.OrdinalInjective | microservices/download-service/server.js:236 | distinct numbers have distinct ordinals |
| Naming.DigitPrefixUnique | microservices/download-service/server.js:237 | two digit strings followed by a space and any text are equal only if the digits are |
| Naming.FirstSpace | microservices/download-service/server.js:237 | the first space of a file name comes right after the ordinal |
| Naming.FileNamesDistinct | microservices/download-service/server.js:236-237 | tracks at different positions get different file names, whatever their titles and artists |
| Naming.CountStatus | microservices/download-service/server.js:274-275 | a status count is at most the number of details |
| Naming.CountsCover | microservices/download-service/server.js:274-281 | successes plus failures is the number of details |
| Naming.CountStatusAppend | microservices/download-service/server.js:274-275 | counting distributes over concatenation |
| Naming.CountUniform | microservices/download-service/app.py:280-281 | a list of one status counts fully for it and not at all for the other |
| SpotifyMetadataJs.MetadataCommandQuotesUrl | src/models/SpotifyMetadata.js:11 | the command starts with the interpreter and ends with the URL in double quotes, unescaped |
| SpotifyMetadataJs.StderrRejection | src/models/SpotifyMetadata.js:21-31 | stderr that does not parse, or parses to null, gives the "Non-JSON" message; otherwise its `error`, or the fallback where that is falsy |
| SpotifyMetadataJs.StderrErrorWins | src/models/SpotifyMetadata.js:24-25 | a stderr object naming its error rejects with exactly that error |
| SpotifyMetadataJs.SettleOutput | src/models/SpotifyMetadata.js:33-70 | with a brace pair the first/last text is parsed, and a parse error or a TypeError is a "Failed to parse" rejection; without one the whole output is parsed, and a failure is "Could not find valid JSON"; otherwise the reader's verdict |
| SpotifyMetadataJs.Settle | src/models/SpotifyMetadata.js:11-71 | an exec error rejects first, then non-empty stderr, and only then is stdout read |
| SpotifyMetadataJs.SameSelectionSettlesAlike | src/models/SpotifyMetadata.js:34-40 | two outputs that select the same text settle alike |
| SpotifyMetadataJs.SurroundingOutputIgnored | src/models/SpotifyMetadata.js:34-40 | text before the first `{` and after the last `}` does not change the outcome |
| SpotifyMetadataJs.ObjectOutputTrimmed | src/models/SpotifyMetadata.js:34 | output that starts with `{` and ends with `}` is left unchanged by trimming |
| SpotifyMetadataJs.ReadTrack | src/models/SpotifyMetadata.js:42-50 | resolves exactly with `{TrackName, ArtistName}` from a truthy `metadata.title` and `metadata.artist`; a falsy one rejects with "Extracted metadata missing title or artist"; a missing or null `metadata` throws |
| SpotifyMetadataJs.ExtractMetadata | src/models/SpotifyMetadata.js:6-73 | a resolved result is the payload's truthy title and artist; any stderr rejects |
| SpotifyMetadataJs.EmptyObjectThrows | src/models/SpotifyMetadata.js:42 | reading `metadata.title` from `{}` throws the TypeError for undefined |
| SpotifyMetadataJs.MissingMetadataInObject | src/models/SpotifyMetadata.js:38-45 | output `{}` rejects with "Failed to parse metadata" and the TypeError, not with the missing-names message |
| SpotifyMetadataJs.MissingMetadataWithoutObject | src/models/SpotifyMetadata.js:52-64 | output `null` rejects with "Could not find valid JSON" |
| SpotifyMetadataJs.ReadPlaylist | src/models/SpotifyMetadata.js:111-121 | a falsy `success` rejects with `error` or "Playlist metadata extraction failed"; a missing `playlist` throws; otherwise name, owner, track count and tracks are copied |
| SpotifyMetadataJs.ExtractPlaylistMetadata | src/models/SpotifyMetadata.js:75-146 | a resolved result carries the payload's `playlist.tracks`; a falsy `success` rejects with `error` or the default |
| SpotifyMetadataJs.PlaylistScriptNeverResolves | src/models/SpotifyMetadata.js:84-100 | no run of `spotify_playlist.py` as written resolves the callback: refusals exit with 1 and every run that exits with 0 wrote DEBUG lines to stderr |
| SpotifyMetadataJs.FetchYoutubeUrl | src/models/SpotifyMetadata.js:170-204 | resolves with `youtube_url`, even undefined or null, exactly when there is no exec error, no stderr and the output parses to a non-null value |
| SpotifyMetadataJs.SearchStderrMessage | src/models/SpotifyMetadata.js:181-192 | any stderr rejects, with the stderr's `error` or the fixed message |
| SpotifyMetadataJs.IsValidSpotifyUrl | src/models/SpotifyMetadata.js:148-156 | true exactly when the URL parses and its hostname contains "spotify.com" |
| SpotifyMetadataJs.IsValidSpotifyPlaylistUrl | src/models/SpotifyMetadata.js:158-168 | true exactly when `isValidSpotifyUrl` holds and the pathname contains "playlist" |
| SpotifyMetadataJs.LookAlikeHostAccepted | src/models/SpotifyMetadata.js:161-163 | the host test is on substrings: `notspotify.com.evil` passes |
| Validation.IncludesAny | src/utils/validation.js:18 | `some(includes)`: true exactly when one of the needles occurs |
| Validation.ValidateSpotifyUrl | src/utils/validation.js:5-28 | valid exactly when the value is a non-empty string, parses, its host contains "spotify.com" and its path one of the five resource paths; the error comes from the first failing check in source order |
| Validation.SpotifyUrlFragmentsAnywhere | src/utils/validation.js:12-18 | the fragments may sit anywhere in host and path |
| Validation.ValidateYouTubeUrl | src/utils/validation.js:31-48 | valid exactly when the value is a non-empty string, parses and its host contains "youtube.com" or "youtu.be"; errors in source order |
| Validation.ValidateSearchQuery | src/utils/validation.js:51-61 | valid exactly for a string whose trimmed length in UTF-16 units is from 1 to 200; "too long" exactly above 200 |
| Validation.BlankQueryRejected | src/utils/validation.js:52-53 | a whitespace-only query is empty |
| Validation.ValidatePath | src/utils/validation.js:64-75 | valid exactly for a string that is not blank and contains neither `../` nor `..\`; blank gives the first error |
| Validation.AcceptedPathHasNoParentStep | src/utils/validation.js:70-72 | in an accepted path no `..` is followed by `/` or `\` |
| Validation.TrailingParentAccepted | src/utils/validation.js:70 | `..` and `a/..` are accepted: only `..` followed by a separator is caught |
| LinkValidator.MatchKind | spotify/link_validator.js:7 | the matched alternative is the one the text starts with, followed by `/` |
| LinkValidator.MatchPath | spotify/link_validator.js:7 | a match after the origin is a well-formed link whose text is the rest |
| LinkValidator.MatchLink | spotify/link_validator.js:7 | a match is a well-formed link whose text is the input |
| LinkValidator.LeadingAlnum | spotify/link_validator.js:7 | the greedy `[A-Za-z0-9]+` stops exactly at the end of the identifier when no letter or digit follows |
| LinkValidator.OriginOf | spotify/link_validator.js:7 | the origin, `http` or `https`, is decided by the character after "http" |
| LinkValidator.KindOf | spotify/link_validator.js:7 | a text naming `track`, `album` or `playlist` followed by `/` matches that alternative |
| LinkValidator.MatchOnOutline | spotify/link_validator.js:7 | on text of the pattern's outline the matcher accepts exactly when the rest is `?` and no line break, or empty |
| LinkValidator.MatchLinkComplete | spotify/link_validator.js:7 | every well-formed link is accepted and read back as itself |
| LinkValidator.AcceptedIff | spotify/link_validator.js:6-9 | the pattern accepts exactly the texts of well-formed links: `http(s)://open.spotify.com/`, a kind, `/`, one or more ASCII letters or digits, an optional query |
| LinkValidator.ExtraSegmentRejected | spotify/link_validator.js:7 | the end anchor rejects an extra path segment |
| LinkValidator.LineBreakInQueryRejected | spotify/link_validator.js:7 | `.` does not match a line break, so such a query is rejected |
| LinkValidator.OptField | spotify/link_validator.js:54 | `v?.key` is undefined on undefined or null |
| LinkValidator.OrNull | spotify/link_validator.js:59 | `x \|\| null` keeps a truthy value and is null otherwise |
| LinkValidator.ReadTrackUnion | spotify/link_validator.js:53-68 | fails with "No track data" exactly when neither `data.trackUnion` nor `data.track` is truthy; otherwise title and album are read with the `\|\| null` defaults |
| LinkValidator.GetSpotifyMetadata | spotify/link_validator.js:15-72 | an invalid URL throws "Invalid Spotify URL format" with no browser launched; otherwise the browser is launched once, no captured payload throws "No metadata found", and a payload is read by `ReadTrackUnion` |
| SpotifyService.ExtractMetadata | src/services/spotifyService.js:12-41 | validation fails first, with no script run; then the script runs, its falsy result is "No metadata received", a truthy result is returned |
| SpotifyService.GetPlaylistTracks | src/services/spotifyService.js:48-82 | validation fails first, then a URL that is not a playlist or album, both before the script; the script runs exactly when both pass; success exactly for an array result |
| SpotifyService.TrackUrlNamingAlbumMentionsAlbum | src/services/spotifyService.js:89-91 | the playlist-or-album test reads the whole URL: a query naming `/album/` passes |
| SpotifyService.QueryMentionPassesPlaylistTest | src/services/spotifyService.js:56-65 | a track URL whose query mentions `/album/` passes both guards and reaches the playlist script |
| SpotifyClient.FirstCandidate | spotify/spotify_client.py:63-66 | the first path part of 22 characters that all lower-case into `[0-9a-z]`, with none before it |
| SpotifyClient.UriId | spotify/spotify_client.py:72-73 | the last `:`-segment of the URI, holding no `:` |
| SpotifyClient.TrackId | spotify/spotify_client.py:53-76 | a non-empty `track/<id>` or first candidate part wins; without one, a first `uri` value starting `spotify:track:` with a non-empty last `:`-segment gives that segment; it raises "Could not extract track ID from URL" exactly when neither rule yields a non-empty ID |
| SpotifyClient.ScanForId | spotify/spotify_client.py:63-66 | the `for`/`break` scan finds exactly the first candidate |
| SpotifyClient.ExtractTrackId | spotify/spotify_client.py:53-76 | the statements as written compute `TrackId` |
| SpotifyClient.RunRest | spotify/spotify_client.py:137 | inside a digit run, the run from any later point is the rest of it |
| SpotifyClient.SecondsFrom | spotify/spotify_client.py:137 | the leftmost position at or after i where `(\d+)S` matches, or none |
| SpotifyClient.SecondsDigits | spotify/spotify_client.py:137 | `re.search(r'(\d+)S')`, with ASCII digits, matches exactly when some digit run ends in `S`; the capture is that run's digits |
| SpotifyClient.PyContains | spotify/spotify_client.py:135 | `in` works on strings, lists and dicts and raises otherwise; on a string it is substring containment |
| SpotifyClient.DurationMs | spotify/spotify_client.py:132-139 | always a multiple of 1000; 0 unless both "PT" and "S" occur; then the first number before an `S`, times 1000; exactly when that number has more than 4300 digits, the ValueError of `int()`; a value that is not a string, list or dict is a TypeError |
| SpotifyClient.SecondsAfterMinutes | spotify/spotify_client.py:137 | in `PT3M5S` the capture is `5` |
| SpotifyClient.MinutesIgnored | spotify/spotify_client.py:132-139 | `PT3M5S` gives 5000 ms, not 185000: minutes are ignored |
| SpotifyClient.ListArtists | spotify/spotify_client.py:121-122 | one artist per list element when all are dicts; otherwise the error of the first element that is not |
| SpotifyClient.Artists | spotify/spotify_client.py:120-127 | a `byArtist` list gives one artist per element, a dict exactly one, anything else one artist named by its `str()` |
| SpotifyClient.AlbumName | spotify/spotify_client.py:129-130 | a missing or falsy `inAlbum` gives "Unknown Album"; a truthy non-dict raises |
| SpotifyClient.StructuredTrack | spotify/spotify_client.py:116-151 | the title fallback runs exactly for a dict that is not a MusicRecording, or one whose duration makes `int()` raise the caught ValueError; a MusicRecording gives the record with the URL's ID, the input URL, the name or its default, the artists, the album and the seconds-only duration |
| SpotifyClient.NoLdBeforeOpen | spotify/spotify_client.py:112 | no JSON-LD match starts before the next opening tag |
| SpotifyClient.LdFrom | spotify/spotify_client.py:112 | the leftmost JSON-LD match at or after a position, or none |
| SpotifyClient.JsonLdText | spotify/spotify_client.py:112 | present exactly when the JSON-LD pattern matches; the capture holds no `<` |
| SpotifyClient.TitleText | spotify/spotify_client.py:154 | present exactly when `<title[^>]*>` matches, at the first `<title`; the capture holds no `<` |
| SpotifyClient.DotParts | spotify/spotify_client.py:183-187 | split on ` · `: artist is the first part and song the second, both stripped |
| SpotifyClient.ByParts | spotify/spotify_client.py:169-181 | the part before ` \| ` split on ` by ` gives song then artist; failing that, on ` · `; failing both, the title and "Unknown Artist" |
| SpotifyClient.DashParts | spotify/spotify_client.py:191-197 | artist before the first ` - `, song the rest re-joined, both stripped |
| SpotifyClient.ParseTitle | spotify/spotify_client.py:158-201 | after removing ` - Spotify` and stripping, the first rule that fires (by-and-bar, dot, dash) decides; with none, the cleaned title and "Unknown Artist" |
| SpotifyClient.DotPartsStripped | spotify/spotify_client.py:186-187 | both names of the dot rule are stripped |
| SpotifyClient.DashPartsStripped | spotify/spotify_client.py:196-197 | both names of the dash rule are stripped |
| SpotifyClient.ByPartsStripped | spotify/spotify_client.py:169-181 | both names of the by rule are stripped when the title is |
| SpotifyClient.TitlePartsStripped | spotify/spotify_client.py:158-201 | neither name from the title fallback has surrounding whitespace |
| SpotifyClient.TitleTrack | spotify/spotify_client.py:153-214 | without a title, "Unknown Track" and "Unknown Artist"; with one, the parsed song and artist; always one artist, "Unknown Album" and 0 ms |
| SpotifyClient.WebTrack | spotify/spotify_client.py:102-217 | a status other than 200 raises "Could not retrieve track info"; the JSON-LD record when it is found, decodes and is a MusicRecording; otherwise, and when the duration raised the caught ValueError, the title fallback; an error that escapes the JSON-LD branch propagates |
| SpotifyClient.LongDurationFallsBackToTitle | spotify/spotify_client.py:139-153 | a MusicRecording whose seconds have more digits than `int()` converts gives the title fallback, as a block that does not decode does |
| SpotifyClient.GetTrackInfo | spotify/spotify_client.py:47-221 | no track ID raises before any request; otherwise the page for that ID is read as `WebTrack` says |
| SpotifyScraper.FirstCandidate | spotify/spotify_scraper.py:25-28 | the first path part of 22 characters whose first character is a digit or `a`-`f`, with none before it |
| SpotifyScraper.TrackId | spotify/spotify_scraper.py:20-38 | the first candidate part wins; without one, a first `uri` value starting `spotify:track:` with a non-empty last `:`-segment gives that segment; it raises "Could not extract track ID from URL" exactly when neither rule yields an ID |
| SpotifyScraper.ScanForId | spotify/spotify_scraper.py:25-28 | the `for`/`break` scan finds exactly the first candidate |
| SpotifyScraper.ExtractTrackId | spotify/spotify_scraper.py:20-38 | the statements as written compute `TrackId` |
| SpotifyScraper.OnlyFirstCharacterChecked | spotify/spotify_scraper.py:26 | any 22-character part with a hexadecimal first character is taken whole, whatever follows |
| SpotifyScraper.GetTrackInfo | spotify/spotify_scraper.py:18-55 | fails exactly when no ID is found; otherwise the record has that ID, the input URL and the fixed mock values |
| SpotifyPlaylist.NameList | spotify/spotify_playlist.py:80 | the artists' names, one per artist, in order |
| SpotifyPlaylist.Subscripts | spotify/spotify_playlist.py:80 | `artist['name']` for every artist; fails exactly when one of them cannot be subscripted |
| SpotifyPlaylist.FirstNonString | spotify/spotify_playlist.py:80 | the first name that is not a string, which `join` rejects |
| SpotifyPlaylist.JoinArtists | spotify/spotify_playlist.py:80 | for a list, succeeds exactly when every artist has a string name, and then gives the names joined by ", "; any non-list fails |
| SpotifyPlaylist.ArtistText | spotify/spotify_playlist.py:80 | falsy `artists` gives "Unknown Artist"; otherwise the joined names |
| SpotifyPlaylist.Entry | spotify/spotify_playlist.py:77-93 | a record is built exactly when the artist text succeeds, `album` and `external_ids` are dicts, `duration_ms / 1000` does not raise (`DivisionError`) and the wrapper's `added_by` reads; it holds `id`, `name` or "Unknown Title", the artist text, the album's `name` or "Unknown Album", `duration_ms`, `track_number`, `disc_number`, `explicit`, `preview_url`, `external_urls`, `available_markets` and `isrc` with their defaults, and `added_at`/`added_by` from the wrapper |
| SpotifyPlaylist.BareWrappedTrackKept | spotify/spotify_playlist.py:73-93 | a wrapper whose track has a truthy `id` and no `artists`, `album`, `external_ids`, `duration_ms` or `added_by` is kept, with every default filled in |
| SpotifyPlaylist.DivisionError | spotify/spotify_playlist.py:83 | `duration_ms / 1000` raises exactly for a truthy value that is neither a number nor a boolean, and for an integer of magnitude at least 1000 * (2^1024 - 2^970), whose quotient is too large for a float |
| SpotifyPlaylist.HugeDurationRaises | spotify/spotify_playlist.py:79-83 | a track whose `duration_ms` is that bound fails with the OverflowError text once its artist and album have been read |
| SpotifyPlaylist.WrappedStep | spotify/spotify_playlist.py:74-94 | a wrapper item yields a track exactly when its `track` is truthy and has a truthy `id`; a non-dict item raises |
| SpotifyPlaylist.ListStep | spotify/spotify_playlist.py:97-139 | a non-dict item is skipped, a dict with an `id` key is the track itself, any other dict is a wrapper |
| SpotifyPlaylist.EmptyIdKeptInListShape | spotify/spotify_playlist.py:100-118 | a list item whose `id` is empty is kept, with that empty ID |
| SpotifyPlaylist.Steps | spotify/spotify_playlist.py:72-139 | one outcome per item, in item order |
| SpotifyPlaylist.GatherFailureSticks | spotify/spotify_playlist.py:72-139 | an error raised on a prefix is the loop's error |
| SpotifyPlaylist.GatherSnoc | spotify/spotify_playlist.py:94 | one more pass appends its track, if any, or stops with its error |
| SpotifyPlaylist.CollectTracks | spotify/spotify_playlist.py:72-139 | the loops that append to the track list compute `Collect` |
| SpotifyPlaylist.KeptIndicesIncrease | spotify/spotify_playlist.py:72-139 | the kept positions are in range and strictly increasing |
| SpotifyPlaylist.GatherAtKept | spotify/spotify_playlist.py:72-139 | the k-th gathered track is the one of the k-th kept position |
| SpotifyPlaylist.CollectKeepsOrder | spotify/spotify_playlist.py:72-139 | output tracks are the records of the kept items in input order, and there are at most as many as items |
| SpotifyPlaylist.GatherKeepsEvery | spotify/spotify_playlist.py:72-139 | every pass that yields a track has it in the output |
| SpotifyPlaylist.CollectKeepsEveryTrack | spotify/spotify_playlist.py:72-139 | no item whose pass yields a track is dropped |
| SpotifyPlaylist.ItemsOf | spotify/spotify_playlist.py:73-74 | a list of items is walked; iterating a dict or a string only succeeds when it is empty |
| SpotifyPlaylist.HeaderOf | spotify/spotify_playlist.py:53-69 | the header copies `track_count` (default 0), `name` (default "Unknown Playlist"), `id` and the URL; it raises exactly when `owner` or `followers` is not a dict |
| SpotifyPlaylist.ExitStatus | spotify/spotify_playlist.py:141-159 | exit status 1 exactly for a failure, 0 exactly for an extraction |
| SpotifyPlaylist.Caught | spotify/spotify_playlist.py:144-157 | the list-`get` error gets its hint; any other error is prefixed "Error extracting playlist info: " |
| SpotifyPlaylist.FromDict | spotify/spotify_playlist.py:51-142 | a dict payload gives its header and tracks, or the caught error of whichever raised first |
| SpotifyPlaylist.Extraction | spotify/spotify_playlist.py:23-159 | a client error is caught; a list gives "Unexpected response type: list instead of dict" with its first two items; another non-dict its type; otherwise header and tracks |
| SpotifyPlaylist.TrackCountNotDerived | spotify/spotify_playlist.py:59 | `track_count` is copied, not counted: a count of 5 with no tracks stays 5 |
| SpotifyPlaylist.DebugLines | spotify/spotify_playlist.py:30-48 | the type line first; then, for a dict, the keys line; for a list, its length and first item's type (or "N/A"); for anything else, its type |
| SpotifyPlaylist.Stderr | spotify/spotify_playlist.py:27-48 | stderr is empty exactly when the client raised |
| SpotifyPlaylist.ExtractedWritesStderr | spotify/spotify_playlist.py:30-48 | a printed extraction came from a dict and wrote the type line and the keys line to stderr |
| SpotifyPlaylist.ExtractPlaylistMetadata | spotify/spotify_playlist.py:13-159 | the statements as written compute `Extraction` and write `Stderr` |
| SpotifyPlaylist.ScriptRun | spotify/spotify_playlist.py:169-189 | no argument gives "No Spotify playlist URL provided"; a URL without "playlist" in any case is refused before the client is asked; both write nothing to stderr; otherwise the extraction and its stderr; a run that exits with 0 has written to stderr |
| SpotifyPlaylist.RunScript | spotify/spotify_playlist.py:169-189 | the `__main__` block as written computes `ScriptRun` |
| YoutubeDownloader.KeepWanted | youtube/youtube_downloader.py:19 | keeps exactly the segments whose `category` or `segmentType` is listed |
| YoutubeDownloader.KeepWantedAppend | youtube/youtube_downloader.py:19 | the filter keeps the order of the segments it keeps |
| YoutubeDownloader.FetchSponsorSegments | youtube/youtube_downloader.py:13-22 | a failed request gives `[]`; no categories returns the body as it is; otherwise the filtered list, and a body the filter cannot read gives `[]` |
| YoutubeDownloader.InsertMultiset | youtube/youtube_downloader.py:29 | insertion adds exactly the inserted range |
| YoutubeDownloader.InsertSorted | youtube/youtube_downloader.py:29 | insertion keeps a sorted list sorted |
| YoutubeDownloader.Sort | youtube/youtube_downloader.py:29 | `sorted` gives an ascending permutation of the segments |
| YoutubeDownloader.SortMembers | youtube/youtube_downloader.py:29 | sorting keeps exactly the same segments |
| YoutubeDownloader.Reach | youtube/youtube_downloader.py:31-35 | `cur` after the scan is at least 0 and at least every segment's end |
| YoutubeDownloader.ComplementRanges | youtube/youtube_downloader.py:30-35 | the loop that updates `cur` and appends to `keep` yields `Gaps` and `Reach` |
| YoutubeDownloader.GapsNonEmpty | youtube/youtube_downloader.py:33-34 | every gap is non-empty and starts at or after 0 |
| YoutubeDownloader.GapsEndBelow | youtube/youtube_downloader.py:33-34 | every gap ends at some segment's start |
| YoutubeDownloader.GapsAscending | youtube/youtube_downloader.py:32-35 | with well-formed segments the gaps are ascending and pairwise disjoint |
| YoutubeDownloader.GapsAvoidSegments | youtube/youtube_downloader.py:29-35 | with sorted, well-formed segments no gap overlaps a segment |
| YoutubeDownloader.IllFormedGapsOverlap | youtube/youtube_downloader.py:32-35 | segments `(5, 1)` and `(6, 7)` give the overlapping gaps `(0, 5)` and `(1, 6)`: the disjointness needs start ≤ end |
| YoutubeDownloader.KeepRanges | youtube/youtube_downloader.py:44-47 | an unknown or zero duration always appends `(cur, 9999999)`; a known one appends `(cur, duration)` only when `cur` is below it |
| YoutubeDownloader.NoAudioLeft | youtube/youtube_downloader.py:44-50 | nothing is left exactly when no gap was found and a known non-zero duration ends at or before `cur` |
| YoutubeDownloader.LabelsDistinct | youtube/youtube_downloader.py:54 | the labels `a0`, `a1`, … are pairwise distinct |
| YoutubeDownloader.AtrimPart | youtube/youtube_downloader.py:54 | each `atrim` part ends with its own label |
| YoutubeDownloader.BuildParts | youtube/youtube_downloader.py:52-54 | the `parts` loop yields one part per keep range, in order |
| YoutubeDownloader.ConcatInputsHoldLabels | youtube/youtube_downloader.py:55 | every label below n is among the concat inputs |
| YoutubeDownloader.FilterComplex | youtube/youtube_downloader.py:56 | the filter ends with the concat inputs and `concat=n=<number of parts>:v=0:a=1[outa]` |
| YoutubeDownloader.RemoveSegmentsFromContainer | youtube/youtube_downloader.py:24-67 | no segments gives `(False, "no segments")`; success returns the output file; the result is `RemoveSegmentsResult`, where a `CalledProcessError` from ffmpeg gives `(False, its text)` |
| YoutubeDownloader.KeepRangesShape | youtube/youtube_downloader.py:44-47 | the tail range keeps the ranges ascending, non-empty and clear of every segment |
| YoutubeDownloader.KeepRangesAvoidSegments | youtube/youtube_downloader.py:29-47 | with segments whose start is not after their end, the keep ranges are ascending, non-empty (but for the sentinel end) and overlap no removed segment |
| YoutubeDownloader.OutputLocation | youtube/youtube_downloader.py:71-76 | a directory gives itself and `output_audio`; otherwise the path's `Dirname`, or `.` when that is empty, and the `SplitextRoot` of its `Basename`, or `output_audio` when that is empty; that base name holds no `/` and is a prefix of the basename |
| YoutubeDownloader.OutputLocationOfFile | youtube/youtube_downloader.py:75-76 | `dir/name.ext` with a plain name gives `dir` and `name` |
| YoutubeDownloader.AudioTemplate | youtube/youtube_downloader.py:79 | the output template `os.path.join(output_dir, base_name + ".%(ext)s")` ends in the base name and `.%(ext)s` |
| YoutubeDownloader.AudioTemplateInDir | youtube/youtube_downloader.py:75-79 | for a plain base name and a directory not ending in `/`, the template's directory is that directory and its file is `<base name>.%(ext)s` |
| YtDlpDownloader.SearchString | yt-dlp/downloader.py:31-32 | `ytsearch1:` followed by the query (`SearchQuery`: the track, a space, the artist and " audio official"), which ends in " audio official" |
| YtDlpDownloader.SafeNameSpec | yt-dlp/downloader.py:48 | `SafeName`, the chained replace, turns exactly `/` and `:` into `_`, keeps the length and every other character, and leaves neither |
| YtDlpDownloader.OutputTemplateFileName | yt-dlp/downloader.py:48 | the template `OutputTemplate` builds ends in its file part, which is `track - artist.%(ext)s` on the safe names and holds no `/` |
| YtDlpDownloader.SearchAndDownloadTrack | yt-dlp/downloader.py:55-62 | None exactly when yt-dlp raises; otherwise what `extract_info` returned |
| YtDlpDownloader.Dispatch | yt-dlp/downloader.py:93-106 | fewer than 3 arguments prints usage, exactly 4 searches, exactly 3 downloads directly, more than 4 does nothing; each mode takes the arguments in order |
| YtDlpDownloader.ExitCodeOfArgv | yt-dlp/downloader.py:93-106 | `ExitCode`, the status the dispatch sets, is 1 exactly with fewer than two arguments after the script name and 0 otherwise |
| PosixPath.Join | youtube/youtube_downloader.py:79 | an absolute second part replaces the first; an empty first part or one ending in `/` is followed directly by the second; otherwise a single `/` separates them |
| PosixPath.Basename | youtube/youtube_downloader.py:76 | a suffix of the path holding no `/` and preceded by a `/` unless it is the whole path: the text after the last `/` |
| PosixPath.Dirname | youtube/youtube_downloader.py:75 | empty without a `/`; a prefix of the path; when everything up to the last `/` is slashes, exactly that; otherwise a non-empty prefix not ending in `/` and followed only by slashes up to the last `/` |
| PosixPath.SplitextRoot | youtube/youtube_downloader.py:76 | a prefix of the path; when shorter, it stops at a `.` with no `/` or `.` after it and a non-dot character between the last `/` and that dot; it is the whole path exactly when no dot of the last component has such a character before it |
| PosixPath.ExtensionDot | youtube/youtube_downloader.py:76 | where `splitext` cuts: a `.` with no `/` or `.` after it and a non-dot between the last `/` and it, or -1 when every dot of the last component has only dots before it |
| PosixPath.SplitextPlainName | youtube/youtube_downloader.py:76 | a name with one inner dot loses what follows it |
| PosixPath.SplitextLeadingDot | youtube/youtube_downloader.py:76 | a leading dot does not start an extension |
| PosixPath.SplitJoined | youtube/youtube_downloader.py:75-76 | `dir/file` splits back into `dir` and `file` |
| Process.OpenSpotifyHost | microservices/download-service/app.py:18 | a host containing "open.spotify.com" contains "spotify.com", so the second test adds nothing |
| Json.JsGet | microservices/download-service/server.js:65 | reading a property of undefined or null throws |
| Json.PyGet | microservices/download-service/app.py:62 | `get` exists only on dicts |
| Json.PyIndex | microservices/download-service/app.py:69 | `v[key]` succeeds exactly on a dict holding the key |
| Strings.StripWhereSpec | microservices/download-service/app.py:49 | stripping removes exactly the longest whitespace prefix and suffix |
| Strings.StripIdempotent | microservices/download-service/app.py:49 | stripping twice is stripping once |
| Strings.IndexOfChar | microservices/download-service/server.js:47 | `indexOf('{')`: the first occurrence, or -1 when there is none |
| Strings.LastIndexOfChar | microservices/download-service/server.js:48 | `lastIndexOf('}')`: the last occurrence, or -1 when there is none |
| Strings.Find | src/utils/validation.js:70 | the first position where the text occurs, or -1 when it does not |
| Strings.ContainsIff | src/utils/validation.js:70 | `includes` holds exactly when the text occurs at some position |
| Strings.JoinSplit | spotify/spotify_client.py:193-197 | joining the pieces of a split with the same separator gives back the string |
| Strings.SplitPartsFree | spotify/spotify_client.py:54 | no piece of a split contains the separator |
| Strings.SplitHeadTail | spotify/spotify_client.py:193-197 | the first piece is the text before the separator; the rest, re-joined, is the text after it |
| Strings.SplitSecond | spotify/spotify_client.py:184-187 | the second piece is the text between the first and second separators |
| Strings.ReplaceCharIsCharwise | yt-dlp/downloader.py:48 | replacing one character by another rewrites the string character by character |
| Strings.LowerAscii | microservices/download-service/app.py:44 | lower-casing keeps the length and lowers each ASCII letter |
| Strings.Utf16Length | src/utils/validation.js:56 | JavaScript's `length` counts between one and two units per character |
| Strings.ParseNatToString | microservices/download-service/app.py:231 | reading back `str(n)` gives n |
| Strings.NatToStringInjective | microservices/download-service/app.py:231 | distinct numbers have distinct decimal renderings |
| Strings.PadStart | microservices/download-service/server.js:236 | `padStart` keeps the text and adds leading fill up to the width |
| Strings.ZFill | microservices/download-service/app.py:231 | `zfill` pads with leading zeros up to the width |

## Left out

- Process I/O is not modelled. Spawning, stream accumulation, timeouts and the HTTP framework are left out. Each collaborator's result is a parameter. A process ended by a signal (null exit code) is not modelled, so the "failed with code null" messages of models/SpotifyModel.js are not produced.
- Concurrency is not modelled. `Promise.all` in server.js is modelled by its observable result: one outcome per eligible track, collected by index. The order in which pipelines finish is not modelled.
- The network and external tools are parameters: the Spotify library and web requests, puppeteer, yt-dlp, ffprobe, ffmpeg and SponsorBlock. So are JSON parsing and URL parsing.
- The Spotify Web API path of `spotify_client.py` is left out: the access token (lines 19-45), the API request (78-96) and `close`. The model is the path without credentials.
- `download_youtube_audio` is modelled only for its output-path split (youtube_downloader.py:71-76). The rest (lines 78-171) is filesystem probing, yt-dlp, SponsorBlock parsing and cleanup. So are the script's `__main__` (173-185) and the direct-download functions of `yt-dlp/downloader.py` (5-27, 64-87).
- `duration_s` (spotify_playlist.py:83, 107, 128) is float division and its value is not kept in the track record. Only whether the division raises is modelled (`SpotifyPlaylist.DivisionError`): a value that is not a number, or an integer whose quotient is too large for a float.
- LinkValidator.ReadTrackUnion: the `duration` field holds `totalMilliseconds` without the float division by 1000. Its contract states `title` and `album` and the failure case. It does not state the artist and cover URL read through optional chains.
- Segment times are reals. `float()` conversion and the text Python prints for a float are a rendering parameter (`show`).
- Shell quoting of the exec commands in server.js and SpotifyMetadata.js is modelled as plain concatenation. The commands are compared as text, not run.
- `path.join` normalisation of `..` in server.js is not modelled; the script directory is a configuration value.
- `json.dumps` and `JSON.stringify` formatting are not modelled. The manifest and responses are JSON values.
- Python `repr` of a dict elides its contents (the list-payload message of spotify_playlist.py:35 shows at most two items). `Json.PyRepr` always quotes a string with `'` and escapes nothing; Python switches to `"` for a string containing `'` and escapes `\n` and `\\`.
- Strings are sequences of Unicode scalar values. UTF-16 matters for `length` in the search-query limit, which `Utf16Length` counts. It also matters for `s?.[0]` on a string: `LinkValidator.OptFirst` takes the first scalar value, where JavaScript takes the first UTF-16 unit, which differs for a character outside the Basic Multilingual Plane.
- `str.lower()` is modelled as ASCII lower-casing. That is exact for the uses here, the tests for "error" and "playlist": the only non-ASCII characters whose lower case holds an ASCII letter are U+212A (to `k`) and U+0130 (to `i` plus a combining dot). Neither can complete either word. The base-36 ID test of spotify_client.py:64 admits U+212A explicitly.
- The exact texts of Python `TypeError` and `AttributeError` messages follow CPython 3.11 wording. Other versions are not modelled.
- SpotifyClient.IntMaxStrDigits: the 4300-digit limit on `int()` is CPython's default since 3.11; an interpreter without it, or one started with another `sys.set_int_max_str_digits` value, is not modelled.
- SpotifyMetadataJs.MetadataCommand, SpotifyMetadataJs.PlaylistCommand, SpotifyMetadataJs.SearchCommand, LinkValidator.GetSpotifyMetadata: these take a `string`, so the coercion of a non-string argument (the template literal in SpotifyMetadata.js, `regex.test(url)` in link_validator.js) is not modelled. The download services' members take the request field as a JSON value and coerce it.
- SpotifyClient.SecondsDigits, SpotifyClient.SecondsFrom, SpotifyClient.DurationMs: `\d` is read as the ASCII digits 0-9. Python's `\d` on a `str` also matches every other Unicode decimal digit (category Nd), and `int()` accepts those; a duration written with such digits is not modelled.
- SpotifyPlaylist.DebugLines: the text of `list(playlist.keys())` is a parameter, because a map keeps no insertion order.
- JSON numbers are integers (`Json.JNum`). A float in a payload, such as a fractional `duration_ms`, `track_count` or `trackCount`, is not modelled.
- SpotifyScraper.GetTrackInfo: `album.release_date` is modelled as a field of the record; `preview_url`, always None, is not.
- YoutubeDownloader.RemoveSegmentsFromContainer: the `ffmpeg` parameter's Failure stands only for `subprocess.CalledProcessError`, which line 66 catches; another exception from `subprocess.run` (an `OSError` when `ffmpeg` cannot be started) leaves the function and is not modelled.
