/**
 * youtube/youtube_downloader.py: the SponsorBlock category filter, the
 * complement of the removed segments with the ffmpeg filter string built
 * from it, and where the downloaded audio is written.  Times are reals;
 * ffprobe, ffmpeg and the SponsorBlock request are parameters.
 */
module YoutubeDownloader {
  import opened Wrappers
  import opened Strings
  import opened Json
  import PosixPath

  // ---------------------------------------------------------------------------
  // fetch_sponsor_segments
  // ---------------------------------------------------------------------------

  predicate InCategories(v: Json, categories: seq<string>) {
    v.JStr? && v.s in categories
  }

  /** A segment record the filter keeps: its category or its segment type is listed. */
  predicate Wanted(seg: map<string, Json>, categories: seq<string>) {
    ("category" in seg && InCategories(seg["category"], categories)) ||
    ("segmentType" in seg && InCategories(seg["segmentType"], categories))
  }

  predicate AllRecords(items: seq<Json>) {
    forall k :: 0 <= k < |items| ==> items[k].JObj?
  }

  /** The list comprehension over records. */
  function KeepWanted(items: seq<Json>, categories: seq<string>): (r: seq<Json>)
    requires AllRecords(items)
    ensures |r| <= |items|
    ensures forall x :: x in r <==> x in items && Wanted(x.fields, categories)
    decreases |items|
  {
    if |items| == 0 then []
    else
      assert forall x :: x in items <==> x == items[0] || x in items[1..];
      (if Wanted(items[0].fields, categories) then [items[0]] else []) + KeepWanted(items[1..], categories)
  }

  /** The filter keeps the order of the records it keeps. */
  lemma {:induction false} KeepWantedAppend(a: seq<Json>, b: seq<Json>, categories: seq<string>)
    requires AllRecords(a) && AllRecords(b)
    ensures AllRecords(a + b)
    ensures KeepWanted(a + b, categories) == KeepWanted(a, categories) + KeepWanted(b, categories)
    decreases |a|
  {
    if |a| > 0 {
      assert (a + b)[1..] == a[1..] + b;
      KeepWantedAppend(a[1..], b, categories);
      assert (a + b)[0] == a[0];
    } else {
      assert a + b == b;
    }
  }

  /**
   * `fetch_sponsor_segments` after the request: `response` is the decoded body
   * or the failure of the request.  Every exception yields an empty list; an
   * empty category list returns the body unfiltered.
   */
  function FetchSponsorSegments(response: Result<Json, string>, categories: seq<string>): (r: Json)
    ensures response.Failure? ==> r == JArr([])
    ensures response.Success? && categories == [] ==> r == response.value
    ensures response.Success? && categories != [] && response.value.JArr? && AllRecords(response.value.items) ==>
              r == JArr(KeepWanted(response.value.items, categories))
    ensures response.Success? && categories != [] && !(response.value.JArr? && AllRecords(response.value.items)) ==>
              r == JArr([])
  {
    match response
    case Failure(_) => JArr([])
    case Success(data) =>
      if categories == [] then data
      else if data.JArr? && AllRecords(data.items) then JArr(KeepWanted(data.items, categories))
      else JArr([])
  }

  // ---------------------------------------------------------------------------
  // ffmpeg_remove_segments_from_container: sorting
  // ---------------------------------------------------------------------------

  /** A time interval in seconds, as a (start, end) tuple. */
  datatype Range = Range(start: real, end: real)

  /** Python's ordering of (start, end) tuples. */
  predicate RangeLe(a: Range, b: Range) {
    a.start < b.start || (a.start == b.start && a.end <= b.end)
  }

  predicate SortedRanges(s: seq<Range>) {
    forall i, j :: 0 <= i < j < |s| ==> RangeLe(s[i], s[j])
  }

  function Insert(x: Range, s: seq<Range>): seq<Range>
    decreases |s|
  {
    if |s| == 0 then [x]
    else if RangeLe(x, s[0]) then [x] + s
    else [s[0]] + Insert(x, s[1..])
  }

  /** Insertion adds exactly x. */
  lemma {:induction false} InsertMultiset(x: Range, s: seq<Range>)
    ensures multiset(Insert(x, s)) == multiset(s) + multiset{x}
    decreases |s|
  {
    if |s| > 0 && !RangeLe(x, s[0]) {
      InsertMultiset(x, s[1..]);
      assert s == [s[0]] + s[1..];
    }
  }

  /** Inserting into a sorted sequence keeps it sorted. */
  lemma {:induction false} InsertSorted(x: Range, s: seq<Range>)
    requires SortedRanges(s)
    ensures SortedRanges(Insert(x, s))
    decreases |s|
  {
    if |s| > 0 && !RangeLe(x, s[0]) {
      var t := s[1..];
      InsertSorted(x, t);
      InsertMultiset(x, t);
      var tail := Insert(x, t);
      forall k | 0 <= k < |tail| ensures RangeLe(s[0], tail[k]) {
        assert tail[k] in multiset(tail);
        if tail[k] != x {
          assert tail[k] in multiset(t);
          var j :| 0 <= j < |t| && t[j] == tail[k];
          assert s[j + 1] == tail[k];
        }
      }
    }
  }

  /** `sorted(...)`: an ascending permutation of the segments. */
  function Sort(s: seq<Range>): (r: seq<Range>)
    ensures SortedRanges(r)
    ensures multiset(r) == multiset(s)
    decreases |s|
  {
    if |s| == 0 then []
    else
      assert s == [s[0]] + s[1..];
      InsertSorted(s[0], Sort(s[1..]));
      InsertMultiset(s[0], Sort(s[1..]));
      Insert(s[0], Sort(s[1..]))
  }

  /** Sorting keeps exactly the same members. */
  lemma SortMembers(s: seq<Range>)
    ensures forall x :: x in Sort(s) <==> x in s
  {
    forall x ensures x in Sort(s) <==> x in s {
      assert x in Sort(s) <==> x in multiset(Sort(s));
      assert x in s <==> x in multiset(s);
    }
  }

  // ---------------------------------------------------------------------------
  // Keep ranges
  // ---------------------------------------------------------------------------

  function Max(a: real, b: real): real {
    if a >= b then a else b
  }

  /** `cur` after the scan: the largest end seen, and never below 0. */
  function Reach(segs: seq<Range>): (c: real)
    ensures c >= 0.0
    ensures forall k :: 0 <= k < |segs| ==> segs[k].end <= c
    decreases |segs|
  {
    if |segs| == 0 then 0.0
    else Max(Reach(segs[..|segs| - 1]), segs[|segs| - 1].end)
  }

  /** The gaps emitted by the scan: a range from `cur` to each start that lies beyond it. */
  function Gaps(segs: seq<Range>): seq<Range>
    decreases |segs|
  {
    if |segs| == 0 then []
    else
      var prefix := segs[..|segs| - 1];
      var s := segs[|segs| - 1];
      Gaps(prefix) + (if s.start > Reach(prefix) then [Range(Reach(prefix), s.start)] else [])
  }

  /** The keep-range loop of youtube/youtube_downloader.py:29-35. */
  method ComplementRanges(segs: seq<Range>) returns (keep: seq<Range>, cur: real)
    ensures keep == Gaps(segs)
    ensures cur == Reach(segs)
  {
    keep := [];
    cur := 0.0;
    for i := 0 to |segs|
      invariant keep == Gaps(segs[..i])
      invariant cur == Reach(segs[..i])
    {
      assert segs[..i + 1][..i] == segs[..i];
      var s, e := segs[i].start, segs[i].end;
      if s > cur {
        keep := keep + [Range(cur, s)];
      }
      cur := Max(cur, e);
    }
    assert segs[..|segs|] == segs;
  }

  predicate WellFormed(segs: seq<Range>) {
    forall k :: 0 <= k < |segs| ==> segs[k].start <= segs[k].end
  }

  /** Every gap is non-empty and starts at or after 0. */
  lemma {:induction false} GapsNonEmpty(segs: seq<Range>)
    ensures forall k :: 0 <= k < |Gaps(segs)| ==> 0.0 <= Gaps(segs)[k].start < Gaps(segs)[k].end
    decreases |segs|
  {
    if |segs| > 0 {
      GapsNonEmpty(segs[..|segs| - 1]);
    }
  }

  /** Every gap ends at some segment's start, so at or below any bound on the starts. */
  lemma {:induction false} GapsEndBelow(segs: seq<Range>, bound: real)
    requires forall k :: 0 <= k < |segs| ==> segs[k].start <= bound
    ensures forall k :: 0 <= k < |Gaps(segs)| ==> Gaps(segs)[k].end <= bound
    decreases |segs|
  {
    if |segs| > 0 {
      GapsEndBelow(segs[..|segs| - 1], bound);
    }
  }

  /** With well-formed segments the gaps are ascending and pairwise disjoint. */
  lemma {:induction false} GapsAscending(segs: seq<Range>)
    requires WellFormed(segs)
    ensures forall i, j :: 0 <= i < j < |Gaps(segs)| ==> Gaps(segs)[i].end <= Gaps(segs)[j].start
    decreases |segs|
  {
    if |segs| > 0 {
      var prefix := segs[..|segs| - 1];
      GapsAscending(prefix);
      GapsEndBelow(prefix, Reach(prefix));
    }
  }

  /** With sorted, well-formed segments no gap overlaps any segment. */
  lemma {:induction false} GapsAvoidSegments(segs: seq<Range>)
    requires SortedRanges(segs) && WellFormed(segs)
    ensures forall g, k :: 0 <= g < |Gaps(segs)| && 0 <= k < |segs| ==>
              Gaps(segs)[g].end <= segs[k].start || segs[k].end <= Gaps(segs)[g].start
    decreases |segs|
  {
    if |segs| > 0 {
      var n := |segs| - 1;
      var prefix := segs[..n];
      GapsAvoidSegments(prefix);
      GapsEndBelow(prefix, segs[n].start);
    }
  }

  /** Without the well-formedness hypothesis the gaps can overlap: the segments (5, 1) and (6, 7) give (0, 5) and (1, 6). */
  lemma IllFormedGapsOverlap()
    ensures Gaps([Range(5.0, 1.0), Range(6.0, 7.0)]) == [Range(0.0, 5.0), Range(1.0, 6.0)]
  {
    var segs := [Range(5.0, 1.0), Range(6.0, 7.0)];
    assert segs[..1] == [Range(5.0, 1.0)];
    assert segs[..1][..0] == [];
  }

  /** The end of the last range when the duration is unknown or zero: the integer 9999999. */
  const SentinelEnd: int := 9999999

  /** The keep ranges; `sentinelEnd` says that the last one ends at SentinelEnd. */
  datatype Keep = Keep(ranges: seq<Range>, sentinelEnd: bool)

  /** The tail rule: `duration` is the probed length, None when probing failed. */
  function KeepRanges(gaps: seq<Range>, cur: real, duration: Option<real>): (k: Keep)
    ensures k.sentinelEnd <==> duration.None? || duration.value == 0.0
    ensures k.sentinelEnd ==> k.ranges == gaps + [Range(cur, SentinelEnd as real)]
    ensures !k.sentinelEnd && cur < duration.value ==> k.ranges == gaps + [Range(cur, duration.value)]
    ensures !k.sentinelEnd && cur >= duration.value ==> k.ranges == gaps
  {
    if duration.Some? && duration.value != 0.0 && cur < duration.value then
      Keep(gaps + [Range(cur, duration.value)], false)
    else if duration.None? || duration.value == 0.0 then
      Keep(gaps + [Range(cur, SentinelEnd as real)], true)
    else
      Keep(gaps, false)
  }

  /** Nothing is left exactly when no gap was found and a known, non-zero duration ends at or before `cur`. */
  lemma NoAudioLeft(gaps: seq<Range>, cur: real, duration: Option<real>)
    ensures KeepRanges(gaps, cur, duration).ranges == [] <==>
              gaps == [] && duration.Some? && duration.value != 0.0 && cur >= duration.value
  {
  }

  // ---------------------------------------------------------------------------
  // The filter string
  // ---------------------------------------------------------------------------

  /** `[a<i>]`, the label of the i-th trimmed stream. */
  function Label(i: nat): string {
    "[a" + NatToString(i) + "]"
  }

  lemma LabelsDistinct(i: nat, j: nat)
    requires i != j
    ensures Label(i) != Label(j)
  {
    if Label(i) == Label(j) {
      assert Label(i)[2..|Label(i)| - 1] == NatToString(i);
      assert Label(j)[2..|Label(j)| - 1] == NatToString(j);
      NatToStringInjective(i, j);
    }
  }

  /** One `atrim` part; start and end are the rendered times. */
  function AtrimPart(i: nat, start: string, end: string): (r: string)
    ensures EndsWith(r, Label(i))
  {
    var r := "[0:a]atrim=start=" + start + ":end=" + end + ",asetpts=PTS-STARTPTS" + Label(i);
    assert r[|r| - |Label(i)|..] == Label(i);
    r
  }

  /** The rendered end of range i; `show` renders a float as Python's f-string does. */
  function EndText(keep: Keep, i: nat, show: real -> string): string
    requires i < |keep.ranges|
  {
    if keep.sentinelEnd && i == |keep.ranges| - 1 then NatToString(SentinelEnd) else show(keep.ranges[i].end)
  }

  /** The parts the loop builds, one per keep range. */
  function Parts(keep: Keep, show: real -> string): seq<string> {
    seq(|keep.ranges|, i requires 0 <= i < |keep.ranges| =>
      AtrimPart(i, show(keep.ranges[i].start), EndText(keep, i, show)))
  }

  /** The `parts` loop of youtube/youtube_downloader.py:52-54. */
  method BuildParts(keep: Keep, show: real -> string) returns (parts: seq<string>)
    ensures parts == Parts(keep, show)
  {
    parts := [];
    for i := 0 to |keep.ranges|
      invariant |parts| == i
      invariant forall k :: 0 <= k < i ==> parts[k] == Parts(keep, show)[k]
    {
      var r := keep.ranges[i];
      parts := parts + [AtrimPart(i, show(r.start), EndText(keep, i, show))];
    }
  }

  /** `"".join(f"[a{i}]" for i in range(n))` */
  function ConcatInputs(n: nat): string
    decreases n
  {
    if n == 0 then "" else ConcatInputs(n - 1) + Label(n - 1)
  }

  /** Every label below n is among the concat inputs. */
  lemma {:induction false} ConcatInputsHoldLabels(n: nat, i: nat)
    requires i < n
    ensures Contains(ConcatInputs(n), Label(i))
    decreases n
  {
    var prev := ConcatInputs(n - 1);
    if i == n - 1 {
      assert OccursAt(prev + Label(i), Label(i), |prev|);
      ContainsIff(ConcatInputs(n), Label(i));
    } else {
      ConcatInputsHoldLabels(n - 1, i);
      ContainsIff(prev, Label(i));
      var k: nat :| OccursAt(prev, Label(i), k);
      OccursInExtension(prev, Label(n - 1), Label(i), k);
      ContainsIff(ConcatInputs(n), Label(i));
    }
  }

  function ConcatTail(n: nat): string {
    "concat=n=" + NatToString(n) + ":v=0:a=1[outa]"
  }

  /** The `filter_complex` argument. */
  function FilterComplex(parts: seq<string>): (r: string)
    ensures EndsWith(r, ConcatInputs(|parts|) + ConcatTail(|parts|))
  {
    var tail := ConcatInputs(|parts|) + ConcatTail(|parts|);
    var r := Join(parts, ";") + ";" + tail;
    assert r[|r| - |tail|..] == tail;
    r
  }

  function FfmpegArgv(inputFile: string, filter: string, outputFile: string): seq<string> {
    ["ffmpeg", "-y", "-hide_banner", "-loglevel", "info", "-i", inputFile,
     "-filter_complex", filter, "-map", "[outa]", "-c:a", "libmp3lame", "-b:a", "128k", outputFile]
  }

  /** The outcome of `ffmpeg_remove_segments_from_container` as a function of its inputs. */
  function RemoveSegmentsResult(inputFile: string, outputFile: string, segments: seq<Range>,
                                duration: Option<real>, show: real -> string,
                                ffmpeg: seq<string> -> Result<(), string>): (bool, string)
  {
    if segments == [] then (false, "no segments")
    else
      var segs := Sort(segments);
      var keep := KeepRanges(Gaps(segs), Reach(segs), duration);
      if keep.ranges == [] then (false, "no audio left after removal")
      else
        match ffmpeg(FfmpegArgv(inputFile, FilterComplex(Parts(keep, show)), outputFile))
        case Success(_) => (true, outputFile)
        case Failure(e) => (false, e)
  }

  /**
   * `ffmpeg_remove_segments_from_container`: `duration` is what ffprobe
   * reported (None when it failed) and `ffmpeg` runs the command.  Its
   * Failure is the `subprocess.CalledProcessError` of a non-zero exit, with
   * that error's text; any other exception propagates out of the function
   * and is not modelled here.
   */
  method RemoveSegmentsFromContainer(inputFile: string, outputFile: string, segments: seq<Range>,
                                     duration: Option<real>, show: real -> string,
                                     ffmpeg: seq<string> -> Result<(), string>)
    returns (ok: bool, info: string)
    ensures (ok, info) == RemoveSegmentsResult(inputFile, outputFile, segments, duration, show, ffmpeg)
    ensures segments == [] ==> !ok && info == "no segments"
    ensures ok ==> info == outputFile
  {
    if segments == [] {
      return false, "no segments";
    }
    var segs := Sort(segments);
    var gaps, cur := ComplementRanges(segs);
    var keep := KeepRanges(gaps, cur, duration);
    if keep.ranges == [] {
      return false, "no audio left after removal";
    }
    var parts := BuildParts(keep, show);
    var filter := FilterComplex(parts);
    match ffmpeg(FfmpegArgv(inputFile, filter, outputFile))
    case Success(_) =>
      return true, outputFile;
    case Failure(e) =>
      return false, e;
  }

  /** Each range ends at or before the next one starts. */
  predicate Ascending(rs: seq<Range>) {
    forall i, j :: 0 <= i < j < |rs| ==> rs[i].end <= rs[j].start
  }

  /** No range overlaps any of the segments. */
  predicate Avoids(rs: seq<Range>, segs: seq<Range>) {
    forall g, k :: 0 <= g < |rs| && 0 <= k < |segs| ==> rs[g].end <= segs[k].start || segs[k].end <= rs[g].start
  }

  /** The tail range keeps the gaps' shape when it starts after every gap and segment. */
  lemma KeepRangesShape(gaps: seq<Range>, cur: real, duration: Option<real>, segs: seq<Range>)
    requires Ascending(gaps) && Avoids(gaps, segs)
    requires forall g :: 0 <= g < |gaps| ==> gaps[g].start < gaps[g].end <= cur
    requires forall k :: 0 <= k < |segs| ==> segs[k].end <= cur
    ensures var rs := KeepRanges(gaps, cur, duration).ranges;
            Ascending(rs) && Avoids(rs, segs) &&
            forall g :: 0 <= g < |rs| ==> rs[g].start < rs[g].end || rs[g].end == SentinelEnd as real
  {
  }

  /**
   * The keep ranges of a removal are ascending and non-empty (but for a
   * sentinel end), and none of them overlaps a removed segment, provided
   * each segment starts no later than it ends.
   */
  lemma KeepRangesAvoidSegments(segments: seq<Range>, duration: Option<real>)
    requires WellFormed(segments)
    ensures var segs := Sort(segments);
            var rs := KeepRanges(Gaps(segs), Reach(segs), duration).ranges;
            Ascending(rs) && Avoids(rs, segments) &&
            forall g :: 0 <= g < |rs| ==> rs[g].start < rs[g].end || rs[g].end == SentinelEnd as real
  {
    var segs := Sort(segments);
    SortMembers(segments);
    assert WellFormed(segs) by {
      forall k | 0 <= k < |segs| ensures segs[k].start <= segs[k].end {
        assert segs[k] in segments;
      }
    }
    var gaps := Gaps(segs);
    var cur := Reach(segs);
    GapsNonEmpty(segs);
    GapsAscending(segs);
    GapsAvoidSegments(segs);
    GapsEndBelow(segs, cur);
    assert Avoids(gaps, segments) by {
      forall g, k | 0 <= g < |gaps| && 0 <= k < |segments|
        ensures gaps[g].end <= segments[k].start || segments[k].end <= gaps[g].start
      {
        assert segments[k] in segs;
        var j :| 0 <= j < |segs| && segs[j] == segments[k];
      }
    }
    forall k | 0 <= k < |segments| ensures segments[k].end <= cur {
      assert segments[k] in segs;
      var j :| 0 <= j < |segs| && segs[j] == segments[k];
    }
    KeepRangesShape(gaps, cur, duration, segments);
  }

  // ---------------------------------------------------------------------------
  // download_youtube_audio: where the audio goes
  // ---------------------------------------------------------------------------

  /** The output directory and base name; `isDir` is what `os.path.isdir` reports. */
  function OutputLocation(outputPath: string, isDir: bool): (r: (string, string))
    ensures r.1 != "" && '/' !in r.1
    ensures isDir ==> r == (outputPath, "output_audio")
    ensures !isDir && '/' !in outputPath ==> r.0 == "."
    ensures !isDir ==> r.0 != "" && (r.1 == "output_audio" || StartsWith(PosixPath.Basename(outputPath), r.1))
    ensures !isDir ==>
              r.0 == (if PosixPath.Dirname(outputPath) == "" then "." else PosixPath.Dirname(outputPath)) &&
              r.1 == (if PosixPath.SplitextRoot(PosixPath.Basename(outputPath)) == "" then "output_audio"
                      else PosixPath.SplitextRoot(PosixPath.Basename(outputPath)))
  {
    if isDir then (outputPath, "output_audio")
    else
      var d := PosixPath.Dirname(outputPath);
      var root := PosixPath.SplitextRoot(PosixPath.Basename(outputPath));
      assert '/' !in root by {
        assert root == PosixPath.Basename(outputPath)[..|root|];
      }
      (if d == "" then "." else d, if root == "" then "output_audio" else root)
  }

  /** A path `dir/name.ext` with a plain name is written as `dir/name.<ext chosen by yt-dlp>`. */
  lemma OutputLocationOfFile(dir: string, name: string, ext: string)
    requires dir != "" && dir[|dir| - 1] != '/'
    requires '/' !in name && '.' !in name && name != ""
    requires '/' !in ext && '.' !in ext
    ensures OutputLocation(dir + "/" + name + "." + ext, false) == (dir, name)
  {
    var file := name + "." + ext;
    assert dir + "/" + name + "." + ext == dir + "/" + file;
    PosixPath.SplitJoined(dir, file);
    PosixPath.SplitextPlainName(name, ext);
  }

  /** The yt-dlp output template for a location: it ends in `<base name>.%(ext)s`. */
  function AudioTemplate(dir: string, baseName: string): (r: string)
    ensures EndsWith(r, baseName + ".%(ext)s")
  {
    PosixPath.Join(dir, baseName + ".%(ext)s")
  }

  /** For a plain base name under a directory not ending in '/', the template is a file of that directory. */
  lemma AudioTemplateInDir(dir: string, baseName: string)
    requires dir != "" && dir[|dir| - 1] != '/' && '/' !in baseName
    ensures PosixPath.Dirname(AudioTemplate(dir, baseName)) == dir
    ensures PosixPath.Basename(AudioTemplate(dir, baseName)) == baseName + ".%(ext)s"
  {
    var file := baseName + ".%(ext)s";
    assert '/' !in file by {
      assert forall k :: 0 <= k < |baseName| ==> file[k] == baseName[k];
      assert forall k :: |baseName| <= k < |file| ==> file[k] == ".%(ext)s"[k - |baseName|];
    }
    assert file[0] != '/';
    PosixPath.SplitJoined(dir, file);
  }
}
