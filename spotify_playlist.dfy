/**
 * spotify/spotify_playlist.py: the script behind playlist downloads.  It
 * reads the playlist from the client library (a parameter here), copies the
 * header fields with their defaults, and normalises the track list, which
 * comes either as a dict with `items` or as a plain list.  The printed JSON
 * is modelled as the value it renders; the exit status goes with it.
 */
module SpotifyPlaylist {
  import opened Wrappers
  import opened Strings
  import opened Json

  /** `d.get(key, default)` on a dict. */
  function Get(m: map<string, Json>, key: string, default: Json): Json {
    if key in m then m[key] else default
  }

  // ---------------------------------------------------------------------------
  // The artist field (lines 80, 104, 125)
  // ---------------------------------------------------------------------------

  const UnknownArtist := "Unknown Artist"
  const UnknownTitle := "Unknown Title"
  const UnknownAlbum := "Unknown Album"

  /** Every artist is a dict whose `name` is a string. */
  predicate AllNamed(a: seq<Json>) {
    forall i :: 0 <= i < |a| ==> a[i].JObj? && "name" in a[i].fields && a[i].fields["name"].JStr?
  }

  /** The artists' names, in order. */
  function NameList(a: seq<Json>): (names: seq<string>)
    requires AllNamed(a)
    ensures |names| == |a|
    ensures forall i :: 0 <= i < |a| ==> names[i] == a[i].fields["name"].s
  {
    seq(|a|, i requires 0 <= i < |a| => a[i].fields["name"].s)
  }

  /** `[artist['name'] for artist in a]`: the first subscript that fails raises. */
  function Subscripts(a: seq<Json>): (r: Result<seq<Json>, string>)
    ensures r.Success? <==> forall i :: 0 <= i < |a| ==> PyIndex(a[i], "name").Success?
    ensures r.Success? ==> |r.value| == |a|
    ensures r.Success? ==> forall i :: 0 <= i < |a| ==> r.value[i] == a[i].fields["name"]
    decreases |a|
  {
    if |a| == 0 then Success([])
    else
      match PyIndex(a[0], "name")
      case Failure(e) => Failure(e)
      case Success(n) =>
        assert forall i :: 1 <= i < |a| ==> a[i] == a[1..][i - 1];
        match Subscripts(a[1..])
        case Failure(e) => Failure(e)
        case Success(rest) => Success([n] + rest)
  }

  /** The index of the first value that is not a string, or |vs|. */
  function FirstNonString(vs: seq<Json>): (k: nat)
    ensures k <= |vs|
    ensures k < |vs| ==> !vs[k].JStr?
    ensures forall j :: 0 <= j < k ==> vs[j].JStr?
    decreases |vs|
  {
    if |vs| == 0 || !vs[0].JStr? then 0
    else
      var k := 1 + FirstNonString(vs[1..]);
      assert forall j :: 1 <= j < k ==> vs[j] == vs[1..][j - 1];
      k
  }

  /**
   * `', '.join([artist['name'] for artist in artists])` on a truthy value:
   * a list of dicts with string names joins; iterating a string or a dict
   * yields strings, which cannot be subscripted by 'name'; a number is not
   * iterable.
   */
  function JoinArtists(artists: Json): (r: Result<string, string>)
    ensures artists.JArr? ==> (r.Success? <==> AllNamed(artists.items))
    ensures artists.JArr? && r.Success? ==> r.value == Join(NameList(artists.items), ", ")
    ensures !artists.JArr? ==> r.Failure?
  {
    match artists
    case JArr(a) =>
      (match Subscripts(a)
       case Failure(e) => Failure(e)
       case Success(names) =>
         var k := FirstNonString(names);
         if k < |names| then
           Failure("sequence item " + NatToString(k) + ": expected str instance, " + PyTypeName(names[k]) + " found")
         else
           assert AllNamed(a);
           Success(Join(NameList(a), ", ")))
    case JStr(_) => Failure("string indices must be integers, not 'str'")
    case JObj(_) => Failure("string indices must be integers, not 'str'")
    case _ => Failure("'" + PyTypeName(artists) + "' object is not iterable")
  }

  /** The `artist` field: the joined names when `artists` is truthy, else "Unknown Artist". */
  function ArtistText(t: map<string, Json>): (r: Result<string, string>)
    ensures !PyTruthy(Get(t, "artists", JNull)) ==> r == Success(UnknownArtist)
    ensures PyTruthy(Get(t, "artists", JNull)) ==> r == JoinArtists(t["artists"])
  {
    if PyTruthy(Get(t, "artists", JNull)) then JoinArtists(Get(t, "artists", JArr([]))) else Success(UnknownArtist)
  }

  /** A non-empty list of named artists gives their names joined by ", ". */
  lemma NamedArtistsJoined(t: map<string, Json>, a: seq<Json>)
    requires "artists" in t && t["artists"] == JArr(a) && a != []
    requires AllNamed(a)
    ensures ArtistText(t) == Success(Join(NameList(a), ", "))
  {
  }

  // ---------------------------------------------------------------------------
  // One track record (lines 77-93, 101-117, 122-138)
  // ---------------------------------------------------------------------------

  /** The normalised track; `duration_s`, a float, is not kept. */
  datatype TrackEntry = TrackEntry(
    id: Json, title: Json, artist: string, album: Json, durationMs: Json,
    trackNumber: Json, discNumber: Json, explicit: Json, previewUrl: Json,
    externalUrls: Json, availableMarkets: Json, isrc: Json, addedAt: Json, addedBy: Json)

  /**
   * The smallest magnitude n for which `n / 1000` overflows: 1000 * (2^1024 - 2^970).
   * CPython's int true division rounds half to even, and the quotient
   * 2^1024 - 2^970 lies halfway between the largest double, whose last
   * mantissa bit is 1, and 2^1024, so it rounds up and overflows.
   */
  const QuotientOverflow: nat := 0x3e7fffffffffff06000000000000000000000000000000000000000000000000000000000000000000000000000000000000000000000000000000000000000000000000000000000000000000000000000000000000000000000000000000000000000000000000000000000000000000000000000000000000000000000000000

  const OverflowText := "integer division result too large for a float"

  function Abs(n: int): nat {
    if n < 0 then -n else n
  }

  /**
   * `duration_ms / 1000` is evaluated only for a truthy value; it refuses
   * anything but a number or a bool, and an integer whose quotient does not
   * fit a double.
   */
  function DivisionError(t: map<string, Json>): (r: Option<string>)
    ensures var d := Get(t, "duration_ms", JNull);
            r.None? <==> !PyTruthy(d) || d.JBool? || (d.JNum? && Abs(d.n) < QuotientOverflow)
    ensures var d := Get(t, "duration_ms", JNull);
            d.JNum? && Abs(d.n) >= QuotientOverflow ==> r == Some(OverflowText)
  {
    var d := Get(t, "duration_ms", JNull);
    if PyTruthy(d) && !d.JNum? && !d.JBool? then
      Some("unsupported operand type(s) for /: '" + PyTypeName(d) + "' and 'int'")
    else if d.JNum? && Abs(d.n) >= QuotientOverflow then Some(OverflowText)
    else None
  }

  /** A track whose `duration_ms` is too large for the float division is not kept: the run fails. */
  lemma HugeDurationRaises(t: map<string, Json>, w: Option<map<string, Json>>)
    requires "duration_ms" in t && t["duration_ms"] == JNum(QuotientOverflow)
    ensures ArtistText(t).Success? ==>
              (Get(t, "album", JObj(map[])).JObj? ==> Entry(t, w) == Failure(OverflowText))
  {
  }

  /** `added_by`: the adder's display name when `added_by` is truthy. */
  function AddedBy(w: map<string, Json>): Result<Json, string> {
    var ab := Get(w, "added_by", JNull);
    if PyTruthy(ab) then PyGet(ab, "display_name", JStr("")) else Success(JStr(""))
  }

  /**
   * The dict literal built from track data t and, for wrapped items, the
   * wrapper w; its fields are evaluated in order and the first that raises
   * is the error.
   */
  function Entry(t: map<string, Json>, w: Option<map<string, Json>>): (r: Result<TrackEntry, string>)
    ensures r.Success? ==>
              (r.value.id == Get(t, "id", JStr("")) && r.value.title == Get(t, "name", JStr(UnknownTitle)) &&
               Success(r.value.artist) == ArtistText(t) && r.value.durationMs == Get(t, "duration_ms", JNum(0)) &&
               r.value.trackNumber == Get(t, "track_number", JNum(0)) && r.value.discNumber == Get(t, "disc_number", JNum(1)) &&
               r.value.explicit == Get(t, "explicit", JBool(false)))
    ensures r.Success? ==> (w.None? ==> r.value.addedAt == JStr("") && r.value.addedBy == JStr(""))
    ensures r.Success? ==> (w.Some? ==> r.value.addedAt == Get(w.value, "added_at", JStr("")))
    ensures ArtistText(t).Failure? ==> r == Failure(ArtistText(t).error)
    ensures Get(t, "album", JObj(map[])).JObj? ==> (r.Success? ==>
              r.value.album == Get(Get(t, "album", JObj(map[])).fields, "name", JStr(UnknownAlbum)))
    ensures !Get(t, "album", JObj(map[])).JObj? ==> r.Failure?
    ensures DivisionError(t).Some? ==> r.Failure?
    ensures r.Success? <==>
              ArtistText(t).Success? && Get(t, "album", JObj(map[])).JObj? && DivisionError(t).None? &&
              Get(t, "external_ids", JObj(map[])).JObj? && (w.Some? ==> AddedBy(w.value).Success?)
    ensures r.Success? ==>
              r.value.previewUrl == Get(t, "preview_url", JStr("")) &&
              r.value.externalUrls == Get(t, "external_urls", JObj(map[])) &&
              r.value.availableMarkets == Get(t, "available_markets", JArr([])) &&
              r.value.isrc == Get(Get(t, "external_ids", JObj(map[])).fields, "isrc", JStr(""))
    ensures r.Success? && w.Some? ==> Success(r.value.addedBy) == AddedBy(w.value)
  {
    match ArtistText(t)
    case Failure(e) => Failure(e)
    case Success(artist) =>
      match PyGet(Get(t, "album", JObj(map[])), "name", JStr(UnknownAlbum))
      case Failure(e) => Failure(e)
      case Success(album) =>
        match DivisionError(t)
        case Some(e) => Failure(e)
        case None =>
          match PyGet(Get(t, "external_ids", JObj(map[])), "isrc", JStr(""))
          case Failure(e) => Failure(e)
          case Success(isrc) =>
            var addedBy := if w.None? then Success(JStr("")) else AddedBy(w.value);
            match addedBy
            case Failure(e) => Failure(e)
            case Success(adder) =>
              var addedAt := if w.None? then JStr("") else Get(w.value, "added_at", JStr(""));
              Success(TrackEntry(
                Get(t, "id", JStr("")), Get(t, "name", JStr(UnknownTitle)), artist, album,
                Get(t, "duration_ms", JNum(0)), Get(t, "track_number", JNum(0)), Get(t, "disc_number", JNum(1)),
                Get(t, "explicit", JBool(false)), Get(t, "preview_url", JStr("")), Get(t, "external_urls", JObj(map[])),
                Get(t, "available_markets", JArr([])), isrc, addedAt, adder))
  }

  // ---------------------------------------------------------------------------
  // One item of either shape
  // ---------------------------------------------------------------------------

  /** `item.get('track', {})` for a dict item. */
  function TrackOf(item: map<string, Json>): Json {
    Get(item, "track", JObj(map[]))
  }

  /** `track_data and track_data.get('id')`, for track data that is a dict. */
  predicate HasTrackId(item: map<string, Json>) {
    PyTruthy(TrackOf(item)) && TrackOf(item).JObj? && PyTruthy(Get(TrackOf(item).fields, "id", JNull))
  }

  /** Lines 75-94 (and 120-139): a wrapper item contributes a track iff its track data has a truthy `id`. */
  function WrappedStep(item: Json): (r: Result<Option<TrackEntry>, string>)
    ensures !item.JObj? ==> r.Failure?
    ensures item.JObj? && !PyTruthy(TrackOf(item.fields)) ==> r == Success(None)
    ensures item.JObj? && PyTruthy(TrackOf(item.fields)) && !TrackOf(item.fields).JObj? ==> r.Failure?
    ensures (item.JObj? && TrackOf(item.fields).JObj? && PyTruthy(TrackOf(item.fields)) &&
             !HasTrackId(item.fields)) ==> r == Success(None)
    ensures item.JObj? && HasTrackId(item.fields) ==>
              var e := Entry(TrackOf(item.fields).fields, Some(item.fields));
              (r.Success? <==> e.Success?) && (r.Success? ==> r.value == Some(e.value))
  {
    match PyGet(item, "track", JObj(map[]))
    case Failure(e) => Failure(e)
    case Success(track) =>
      if !PyTruthy(track) then Success(None)
      else
        match PyGet(track, "id", JNull)
        case Failure(e) => Failure(e)
        case Success(id) =>
          if !PyTruthy(id) then Success(None)
          else
            match Entry(track.fields, Some(item.fields))
            case Failure(e) => Failure(e)
            case Success(entry) => Success(Some(entry))
  }

  /**
   * Lines 97-139: a non-dict item is skipped, a dict with an `id` key is the
   * track itself (whatever the ID), any other dict is a wrapper.
   */
  function ListStep(item: Json): (r: Result<Option<TrackEntry>, string>)
    ensures !item.JObj? ==> r == Success(None)
    ensures item.JObj? && "id" in item.fields ==>
              var e := Entry(item.fields, None);
              (r.Success? <==> e.Success?) && (r.Success? ==> r.value == Some(e.value))
    ensures item.JObj? && "id" !in item.fields ==> r == WrappedStep(item)
  {
    if !item.JObj? then Success(None)
    else if "id" in item.fields then
      match Entry(item.fields, None)
      case Failure(e) => Failure(e)
      case Success(entry) => Success(Some(entry))
    else WrappedStep(item)
  }

  /**
   * A wrapper whose track data has a truthy `id` and none of the optional
   * fields that can raise is kept, with every default filled in.
   */
  lemma BareWrappedTrackKept(item: map<string, Json>, track: map<string, Json>)
    requires "track" in item && item["track"] == JObj(track)
    requires "id" in track && PyTruthy(track["id"])
    requires "artists" !in track && "album" !in track && "external_ids" !in track && "duration_ms" !in track
    requires "added_by" !in item
    ensures WrappedStep(JObj(item)) == Success(Some(TrackEntry(
              track["id"], Get(track, "name", JStr(UnknownTitle)), UnknownArtist, JStr(UnknownAlbum),
              JNum(0), Get(track, "track_number", JNum(0)), Get(track, "disc_number", JNum(1)),
              Get(track, "explicit", JBool(false)), Get(track, "preview_url", JStr("")),
              Get(track, "external_urls", JObj(map[])), Get(track, "available_markets", JArr([])),
              JStr(""), Get(item, "added_at", JStr("")), JStr(""))))
  {
    assert PyTruthy(JObj(track)) by { assert "id" in track; }
  }

  /** A dict item with an `id` key is kept even when the ID is empty. */
  lemma EmptyIdKeptInListShape(item: map<string, Json>)
    requires "id" in item && item["id"] == JStr("")
    requires Entry(item, None).Success?
    ensures ListStep(JObj(item)) == Success(Some(Entry(item, None).value))
    ensures Entry(item, None).value.id == JStr("")
  {
  }

  // ---------------------------------------------------------------------------
  // The track loops (lines 72-139)
  // ---------------------------------------------------------------------------

  /** Which loop runs: over `tracks['items']` or over a `tracks` list. */
  datatype Shape = Wrapped | Listed

  function Step(shape: Shape, item: Json): Result<Option<TrackEntry>, string> {
    match shape
    case Wrapped => WrappedStep(item)
    case Listed => ListStep(item)
  }

  /** What one pass of the loop body does: raise, skip the item, or append a track. */
  type StepResult = Result<Option<TrackEntry>, string>

  /** The per-item outcomes, in item order. */
  function Steps(shape: Shape, items: seq<Json>): (steps: seq<StepResult>)
    ensures |steps| == |items|
    ensures forall i :: 0 <= i < |items| ==> steps[i] == Step(shape, items[i])
  {
    seq(|items|, i requires 0 <= i < |items| => Step(shape, items[i]))
  }

  /** The tracks the passes append, or the error of the first pass that raises. */
  function Gather(steps: seq<StepResult>): Result<seq<TrackEntry>, string>
    decreases |steps|
  {
    if |steps| == 0 then Success([])
    else
      match Gather(steps[..|steps| - 1])
      case Failure(e) => Failure(e)
      case Success(kept) =>
        match steps[|steps| - 1]
        case Failure(e) => Failure(e)
        case Success(None) => Success(kept)
        case Success(Some(t)) => Success(kept + [t])
  }

  /** The tracks appended by the loop over items, or the first error it raises. */
  function Collect(shape: Shape, items: seq<Json>): Result<seq<TrackEntry>, string> {
    Gather(Steps(shape, items))
  }

  /** An error raised on a prefix ends the loop with that error. */
  lemma {:induction false} GatherFailureSticks(steps: seq<StepResult>, n: nat)
    requires n <= |steps|
    requires Gather(steps[..n]).Failure?
    ensures Gather(steps) == Gather(steps[..n])
    decreases |steps| - n
  {
    if n < |steps| {
      assert steps[..n + 1][..n] == steps[..n];
      assert Gather(steps[..n + 1]).Failure?;
      GatherFailureSticks(steps, n + 1);
    } else {
      assert steps[..n] == steps;
    }
  }

  /** One more pass: its error, or the tracks so far with its track, if any, appended. */
  lemma {:induction false} GatherSnoc(steps: seq<StepResult>, i: nat, tracks: seq<TrackEntry>)
    requires i < |steps| && Gather(steps[..i]) == Success(tracks)
    ensures steps[i].Failure? ==> Gather(steps[..i + 1]) == Failure(steps[i].error)
    ensures steps[i] == Success(None) ==> Gather(steps[..i + 1]) == Success(tracks)
    ensures steps[i].Success? && steps[i].value.Some? ==>
              Gather(steps[..i + 1]) == Success(tracks + [steps[i].value.value])
  {
    assert steps[..i + 1][..i] == steps[..i];
    assert steps[..i + 1][i] == steps[i];
  }

  /** The loop itself, appending to the track list in place of `result['playlist']['tracks']`. */
  method CollectTracks(shape: Shape, items: seq<Json>) returns (r: Result<seq<TrackEntry>, string>)
    ensures r == Collect(shape, items)
  {
    ghost var steps := Steps(shape, items);
    var tracks: seq<TrackEntry> := [];
    var i := 0;
    while i < |items|
      invariant 0 <= i <= |items|
      invariant Gather(steps[..i]) == Success(tracks)
    {
      var step := Step(shape, items[i]);
      GatherSnoc(steps, i, tracks);
      if step.Failure? {
        GatherFailureSticks(steps, i + 1);
        return Failure(step.error);
      }
      if step.value.Some? {
        tracks := tracks + [step.value.value];
      }
      i := i + 1;
    }
    assert steps[..|items|] == steps;
    return Success(tracks);
  }

  /** The positions whose passes append a track, in order. */
  function KeptIndices(steps: seq<StepResult>): seq<nat>
    decreases |steps|
  {
    if |steps| == 0 then []
    else
      var before := KeptIndices(steps[..|steps| - 1]);
      var last := steps[|steps| - 1];
      if last.Success? && last.value.Some? then before + [|steps| - 1] else before
  }

  /** The kept positions are in range and strictly increasing. */
  lemma {:induction false} KeptIndicesIncrease(steps: seq<StepResult>)
    ensures var idx := KeptIndices(steps);
            |idx| <= |steps| && (forall k :: 0 <= k < |idx| ==> idx[k] < |steps|) &&
            (forall k, l :: 0 <= k < l < |idx| ==> idx[k] < idx[l])
    decreases |steps|
  {
    if |steps| > 0 {
      KeptIndicesIncrease(steps[..|steps| - 1]);
    }
  }

  /** The k-th gathered track is the one appended at the k-th kept position. */
  lemma {:induction false} GatherAtKept(steps: seq<StepResult>)
    requires Gather(steps).Success?
    ensures var out := Gather(steps).value;
            var idx := KeptIndices(steps);
            |out| == |idx| &&
            forall k :: 0 <= k < |idx| ==> idx[k] < |steps| && steps[idx[k]] == Success(Some(out[k]))
    decreases |steps|
  {
    if |steps| > 0 {
      var n := |steps|;
      var init := steps[..n - 1];
      assert Gather(init).Success?;
      GatherAtKept(init);
      assert forall k :: 0 <= k < |init| ==> init[k] == steps[k];
    }
  }

  /**
   * The k-th output track is the record of the item at the k-th kept
   * position, and those positions increase: input order is preserved and
   * there are at most as many tracks as items.
   */
  lemma CollectKeepsOrder(shape: Shape, items: seq<Json>)
    requires Collect(shape, items).Success?
    ensures var out := Collect(shape, items).value;
            var idx := KeptIndices(Steps(shape, items));
            |out| == |idx| <= |items| &&
            (forall k, l :: 0 <= k < l < |idx| ==> idx[k] < idx[l]) &&
            forall k :: 0 <= k < |idx| ==> idx[k] < |items| && Step(shape, items[idx[k]]) == Success(Some(out[k]))
  {
    KeptIndicesIncrease(Steps(shape, items));
    GatherAtKept(Steps(shape, items));
  }

  /** Every pass that appends a track has it in the output: nothing valid is dropped. */
  lemma {:induction false} GatherKeepsEvery(steps: seq<StepResult>, j: nat)
    requires Gather(steps).Success?
    requires j < |steps| && steps[j].Success? && steps[j].value.Some?
    ensures steps[j].value.value in Gather(steps).value
    decreases |steps|
  {
    var init := steps[..|steps| - 1];
    assert Gather(init).Success?;
    if j < |steps| - 1 {
      assert init[j] == steps[j];
      GatherKeepsEvery(init, j);
    }
  }

  /** Every item whose pass yields a track has that track in the output. */
  lemma CollectKeepsEveryTrack(shape: Shape, items: seq<Json>, j: nat)
    requires Collect(shape, items).Success?
    requires j < |items| && Step(shape, items[j]).Success? && Step(shape, items[j]).value.Some?
    ensures Step(shape, items[j]).value.value in Collect(shape, items).value
  {
    GatherKeepsEvery(Steps(shape, items), j);
  }

  /**
   * `for item in tracks['items']`: a list is walked; iterating a dict or a
   * string yields strings, on which `item.get` raises; other values are not
   * iterable.
   */
  function ItemsOf(v: Json): (r: Result<seq<Json>, string>)
    ensures v.JArr? ==> r == Success(v.items)
    ensures r.Success? ==> (v.JArr? || v == JObj(map[]) || v == JStr(""))
  {
    match v
    case JArr(a) => Success(a)
    case JObj(m) => if m == map[] then Success([]) else Failure("'str' object has no attribute 'get'")
    case JStr(s) => if s == "" then Success([]) else Failure("'str' object has no attribute 'get'")
    case _ => Failure("'" + PyTypeName(v) + "' object is not iterable")
  }

  // ---------------------------------------------------------------------------
  // The whole script (lines 13-189)
  // ---------------------------------------------------------------------------

  /** The `playlist` fields other than `tracks`. */
  datatype Header = Header(
    name: Json, owner: Json, description: Json, trackCount: Json, id: Json, url: string,
    externalUrls: Json, followers: Json, images: Json, public: Json, collaborative: Json)

  /** Lines 53-69: the header with its defaults; `owner` and `followers` must be dicts for `get`. */
  function HeaderOf(p: map<string, Json>, url: string): (r: Result<Header, string>)
    ensures r.Success? ==>
              (r.value.trackCount == Get(p, "track_count", JNum(0)) && r.value.url == url &&
               r.value.name == Get(p, "name", JStr("Unknown Playlist")) && r.value.id == Get(p, "id", JStr("")))
    ensures r.Success? <==> Get(p, "owner", JObj(map[])).JObj? && Get(p, "followers", JObj(map[])).JObj?
  {
    match PyGet(Get(p, "owner", JObj(map[])), "display_name", JStr("Unknown Owner"))
    case Failure(e) => Failure(e)
    case Success(owner) =>
      match PyGet(Get(p, "followers", JObj(map[])), "total", JNum(0))
      case Failure(e) => Failure(e)
      case Success(followers) =>
        Success(Header(
          Get(p, "name", JStr("Unknown Playlist")), owner, Get(p, "description", JStr("")),
          Get(p, "track_count", JNum(0)), Get(p, "id", JStr("")), url, Get(p, "external_urls", JObj(map[])),
          followers, Get(p, "images", JArr([])), Get(p, "public", JNull), Get(p, "collaborative", JBool(false))))
  }

  /** What the script prints: `{success: false, error}` or `{success: true, playlist}`. */
  datatype Output = Failed(error: string) | Extracted(header: Header, tracks: seq<TrackEntry>)

  /** The exit status that goes with the output. */
  function ExitStatus(o: Output): (code: int)
    ensures code == 1 <==> o.Failed?
    ensures code == 0 <==> o.Extracted?
  {
    if o.Failed? then 1 else 0
  }

  const ListGetText := "'list' object has no attribute 'get'"
  const ListGetHint := "'list' object has no attribute 'get'. This suggests the API returned an unexpected format. Please check if the playlist URL is valid and the spotify_scraper library is working correctly."

  /** Lines 144-157: a caught exception's message, with the hint when it is the list-`get` error. */
  function Caught(message: string): (r: string)
    ensures Contains(message, ListGetText) ==> r == ListGetHint
    ensures !Contains(message, ListGetText) ==> r == "Error extracting playlist info: " + message
  {
    if Contains(message, ListGetText) then ListGetHint else "Error extracting playlist info: " + message
  }

  /** The tracks of a dict payload: the `items` loop, the list loop, or none. */
  function TracksOf(p: map<string, Json>): Result<seq<TrackEntry>, string> {
    var tracks := Get(p, "tracks", JObj(map[]));
    if tracks.JObj? && "items" in tracks.fields then
      match ItemsOf(tracks.fields["items"])
      case Failure(e) => Failure(e)
      case Success(items) => Collect(Wrapped, items)
    else if tracks.JArr? then Collect(Listed, tracks.items)
    else Success([])
  }

  /** `client.get_playlist_info(url)`: the playlist value, or the message of the exception it raises. */
  type PlaylistSource = string -> Result<Json, string>

  /** The header, then the tracks, of a dict payload; an error raised by either is caught. */
  function FromDict(p: map<string, Json>, url: string): (o: Output)
    ensures o.Extracted? <==> HeaderOf(p, url).Success? && TracksOf(p).Success?
    ensures o.Extracted? ==> o == Extracted(HeaderOf(p, url).value, TracksOf(p).value)
    ensures HeaderOf(p, url).Failure? ==> o == Failed(Caught(HeaderOf(p, url).error))
    ensures HeaderOf(p, url).Success? && TracksOf(p).Failure? ==> o == Failed(Caught(TracksOf(p).error))
  {
    match HeaderOf(p, url)
    case Failure(e) => Failed(Caught(e))
    case Success(header) =>
      match TracksOf(p)
      case Failure(e) => Failed(Caught(e))
      case Success(tracks) => Extracted(header, tracks)
  }

  /**
   * `extract_playlist_metadata`: a list or a non-dict payload is refused
   * with its own message (its `sys.exit` is not caught), any exception is
   * caught into an error, and otherwise the header and tracks are printed.
   */
  function Extraction(url: string, source: PlaylistSource): (o: Output)
    ensures source(url).Failure? ==> o == Failed(Caught(source(url).error))
    ensures source(url).Success? && source(url).value.JArr? ==>
              var a := source(url).value.items;
              o == Failed("Unexpected response type: list instead of dict. First few items: " +
                          PyRepr(JArr(a[..if |a| < 2 then |a| else 2])))
    ensures source(url).Success? && !source(url).value.JArr? && !source(url).value.JObj? ==>
              o == Failed("Unexpected response type: <class '" + PyTypeName(source(url).value) + "'>. Expected dict.")
    ensures o.Extracted? ==>
              (source(url).Success? && source(url).value.JObj? &&
               Success(o.header) == HeaderOf(source(url).value.fields, url) &&
               Success(o.tracks) == TracksOf(source(url).value.fields))
  {
    match source(url)
    case Failure(e) => Failed(Caught(e))
    case Success(payload) =>
      match payload
      case JArr(a) =>
        Failed("Unexpected response type: list instead of dict. First few items: " +
               PyRepr(JArr(a[..if |a| < 2 then |a| else 2])))
      case JObj(p) => FromDict(p, url)
      case _ => Failed("Unexpected response type: <class '" + PyTypeName(payload) + "'>. Expected dict.")
  }

  /** `track_count` is copied from the payload, not counted: a payload with a count and no tracks keeps both. */
  lemma TrackCountNotDerived(url: string, source: PlaylistSource)
    requires source(url) == Success(JObj(map["track_count" := JNum(5)]))
    ensures Extraction(url, source).Extracted?
    ensures Extraction(url, source).header.trackCount == JNum(5)
    ensures Extraction(url, source).tracks == []
  {
    var p := map["track_count" := JNum(5)];
    assert "owner" !in p && "followers" !in p && "tracks" !in p;
    assert HeaderOf(p, url).Success?;
    assert TracksOf(p) == Success([]);
  }

  // ---------------------------------------------------------------------------
  // What the script writes to stderr (lines 30, 32, 40, 48)
  // ---------------------------------------------------------------------------

  /**
   * `list(playlist.keys())` as printed: key order is insertion order in
   * Python, which a map does not keep, so the rendering is a parameter.
   */
  type KeyRenderer = map<string, Json> -> string

  /** `type(v)` in an f-string. */
  function ClassText(v: Json): string {
    "<class '" + PyTypeName(v) + "'>"
  }

  /** Line 30, printed whatever the client returned. */
  function TypeLine(v: Json): string {
    "DEBUG: Type of playlist object: " + ClassText(v) + "\n"
  }

  /** Line 32, for a list. */
  function ListLine(a: seq<Json>): string {
    "DEBUG: Playlist is a list with " + NatToString(|a|) + " items. First item type: " +
    (if |a| > 0 then ClassText(a[0]) else "N/A") + "\n"
  }

  /** Line 40, for a value that is neither a list nor a dict. */
  function OtherLine(v: Json): string {
    "DEBUG: Playlist is " + ClassText(v) + " type instead of dict\n"
  }

  /** Line 48, for a dict, with its rendered keys. */
  function DictLine(keys: string): string {
    "DEBUG: Playlist is a dict with keys: " + keys + "\n"
  }

  /**
   * The DEBUG lines printed once the client returned `v`: its type, then
   * the line for a list, for a non-dict or for a dict with its keys.
   */
  function DebugLines(v: Json, showKeys: KeyRenderer): (s: string)
    ensures StartsWith(s, TypeLine(v))
    ensures v.JObj? ==> s == TypeLine(v) + DictLine(showKeys(v.fields))
    ensures v.JArr? ==> s == TypeLine(v) + ListLine(v.items)
    ensures !v.JObj? && !v.JArr? ==> s == TypeLine(v) + OtherLine(v)
  {
    var second := match v
      case JArr(a) => ListLine(a)
      case JObj(p) => DictLine(showKeys(p))
      case _ => OtherLine(v);
    assert (TypeLine(v) + second)[..|TypeLine(v)|] == TypeLine(v);
    TypeLine(v) + second
  }

  /** Everything the extraction writes to stderr: nothing when the client raised, otherwise its DEBUG lines. */
  function Stderr(url: string, source: PlaylistSource, showKeys: KeyRenderer): (s: string)
    ensures s == "" <==> source(url).Failure?
  {
    match source(url)
    case Failure(_) => ""
    case Success(v) => DebugLines(v, showKeys)
  }

  /** A printed extraction comes with the DEBUG lines of a dict on stderr. */
  lemma ExtractedWritesStderr(url: string, source: PlaylistSource, showKeys: KeyRenderer)
    requires Extraction(url, source).Extracted?
    ensures source(url).Success? && source(url).value.JObj?
    ensures Stderr(url, source, showKeys) ==
              TypeLine(source(url).value) + DictLine(showKeys(source(url).value.fields))
  {
  }

  /** The loops of lines 72-139, run as the script runs them, with the stderr lines of 30-48. */
  method ExtractPlaylistMetadata(url: string, source: PlaylistSource, showKeys: KeyRenderer) returns (o: Output, stderr: string)
    ensures o == Extraction(url, source)
    ensures stderr == Stderr(url, source, showKeys)
  {
    var fetched := source(url);
    if fetched.Failure? {
      return Failed(Caught(fetched.error)), "";
    }
    var payload := fetched.value;
    stderr := TypeLine(payload);
    if payload.JArr? {
      stderr := stderr + ListLine(payload.items);
      return Extraction(url, source), stderr;
    } else if !payload.JObj? {
      stderr := stderr + OtherLine(payload);
      return Extraction(url, source), stderr;
    }
    var p := payload.fields;
    stderr := stderr + DictLine(showKeys(p));
    assert Extraction(url, source) == FromDict(p, url);
    var header := HeaderOf(p, url);
    if header.Failure? {
      return Failed(Caught(header.error)), stderr;
    }
    var tracksValue := Get(p, "tracks", JObj(map[]));
    var tracks: Result<seq<TrackEntry>, string> := Success([]);
    if tracksValue.JObj? && "items" in tracksValue.fields {
      var items := ItemsOf(tracksValue.fields["items"]);
      if items.Failure? {
        assert TracksOf(p) == Failure(items.error);
        return Failed(Caught(items.error)), stderr;
      }
      tracks := CollectTracks(Wrapped, items.value);
    } else if tracksValue.JArr? {
      tracks := CollectTracks(Listed, tracksValue.items);
    }
    assert tracks == TracksOf(p);
    if tracks.Failure? {
      return Failed(Caught(tracks.error)), stderr;
    }
    o := Extracted(header.value, tracks.value);
  }

  const NoUrl := "No Spotify playlist URL provided"
  const NotAPlaylist := "URL does not appear to be a Spotify playlist"

  /** One run of the script: what it prints on stdout (and its exit status with it) and what it writes to stderr. */
  datatype Run = Run(output: Output, stderr: string)

  /**
   * Lines 169-189: without an argument, or with a URL that does not contain
   * "playlist" in any letter case, the script fails before the client is
   * asked and writes nothing to stderr; otherwise it extracts.  A run that
   * exits with 0 has always written to stderr.
   */
  function ScriptRun(argv: seq<string>, source: PlaylistSource, showKeys: KeyRenderer): (r: Run)
    ensures |argv| < 2 ==> r == Run(Failed(NoUrl), "")
    ensures |argv| >= 2 && !Contains(LowerAscii(argv[1]), "playlist") ==> r == Run(Failed(NotAPlaylist), "")
    ensures |argv| >= 2 && Contains(LowerAscii(argv[1]), "playlist") ==>
              r.output == Extraction(argv[1], source) && r.stderr == Stderr(argv[1], source, showKeys)
    ensures ExitStatus(r.output) == 0 ==> r.stderr != ""
  {
    if |argv| < 2 then Run(Failed(NoUrl), "")
    else if !Contains(LowerAscii(argv[1]), "playlist") then Run(Failed(NotAPlaylist), "")
    else
      var url := argv[1];
      Run(Extraction(url, source), Stderr(url, source, showKeys))
  }

  /** The `__main__` block. */
  method RunScript(argv: seq<string>, source: PlaylistSource, showKeys: KeyRenderer) returns (r: Run)
    ensures r == ScriptRun(argv, source, showKeys)
  {
    if |argv| < 2 {
      return Run(Failed(NoUrl), "");
    }
    var url := argv[1];
    if !Contains(LowerAscii(url), "playlist") {
      return Run(Failed(NotAPlaylist), "");
    }
    var o, stderr := ExtractPlaylistMetadata(url, source, showKeys);
    r := Run(o, stderr);
  }
}
