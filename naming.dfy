/**
 * The naming policy and bookkeeping the two download services share:
 * the sanitised playlist directory, the numbered track file name, the
 * tracks that get a pipeline and the per-track outcome records.
 */
module Naming {
  import opened Strings
  import opened Json

  // ---------------------------------------------------------------------------
  // Directory name
  // ---------------------------------------------------------------------------

  /** The characters of the class `[<>:"/\\|?*]`. */
  predicate IsReservedChar(c: char) {
    c == '<' || c == '>' || c == ':' || c == '"' || c == '/' || c == '\\' || c == '|' || c == '?' || c == '*'
  }

  /** Every reserved character of the playlist name becomes '_'. */
  function SanitizeName(name: string): string {
    ReplaceWhere(name, IsReservedChar, '_')
  }

  /**
   * Sanitisation keeps the length, rewrites exactly the reserved characters
   * to '_', leaves every other character where it was, and leaves no
   * reserved character behind.
   */
  lemma SanitizeNameSpec(name: string)
    ensures |SanitizeName(name)| == |name|
    ensures forall k :: 0 <= k < |name| ==>
              SanitizeName(name)[k] == if IsReservedChar(name[k]) then '_' else name[k]
    ensures forall k :: 0 <= k < |name| ==> !IsReservedChar(SanitizeName(name)[k])
  {
  }

  /** A sanitised name is left as it is by a second sanitisation. */
  lemma SanitizeIdempotent(name: string)
    ensures SanitizeName(SanitizeName(name)) == SanitizeName(name)
  {
    SanitizeNameSpec(name);
    SanitizeNameSpec(SanitizeName(name));
  }

  /** A name with no reserved character is kept unchanged. */
  lemma SanitizeKeepsCleanName(name: string)
    requires forall k :: 0 <= k < |name| ==> !IsReservedChar(name[k])
    ensures SanitizeName(name) == name
  {
  }

  // ---------------------------------------------------------------------------
  // Track file names
  // ---------------------------------------------------------------------------

  /** `String(n).padStart(2, '0')` */
  function Ordinal(n: nat): string {
    PadStart(NatToString(n), 2, '0')
  }

  /** `str(n).zfill(2)` */
  function PyOrdinal(n: nat): string {
    ZFill(NatToString(n), 2)
  }

  /** Both services number tracks the same way. */
  lemma OrdinalsAgree(n: nat)
    ensures PyOrdinal(n) == Ordinal(n)
  {
    var s := NatToString(n);
    assert IsDigit(s[0]);
  }

  lemma NatToStringLength(n: nat)
    ensures n < 10 <==> |NatToString(n)| == 1
  {
  }

  /** The ordinal has at least two digits, and reading it back gives n. */
  lemma OrdinalSpec(n: nat)
    ensures |Ordinal(n)| >= 2 && AllDigits(Ordinal(n))
    ensures n < 10 ==> Ordinal(n) == ['0', DigitChar(n)]
    ensures n >= 10 ==> Ordinal(n) == NatToString(n)
  {
    NatToStringLength(n);
    var s := NatToString(n);
    if n < 10 {
      assert Ordinal(n) == ['0'] + s;
    }
  }

  /** Distinct numbers have distinct ordinals. */
  lemma OrdinalInjective(m: nat, n: nat)
    requires Ordinal(m) == Ordinal(n)
    ensures m == n
  {
    OrdinalSpec(m);
    OrdinalSpec(n);
    NatToStringLength(m);
    NatToStringLength(n);
    if m < 10 && n < 10 {
      assert DigitChar(m) == DigitChar(n);
    } else if m >= 10 && n >= 10 {
      NatToStringInjective(m, n);
    }
  }

  /** `${NN} - ${title} - ${artist}.mp3` for the track at index i. */
  function TrackFileName(i: nat, title: string, artist: string): string {
    Ordinal(i + 1) + " " + FileNameRest(title, artist)
  }

  function FileNameRest(title: string, artist: string): string {
    "- " + title + " - " + artist + ".mp3"
  }

  /** Two digit strings followed by a space can only be equal text if the digits are. */
  lemma DigitPrefixUnique(a: string, b: string, x: string, y: string)
    requires AllDigits(a) && AllDigits(b)
    requires a + " " + x == b + " " + y
    ensures a == b
  {
    FirstSpace(a, x);
    FirstSpace(b, y);
    assert a == (a + " " + x)[..|a|];
    assert b == (b + " " + y)[..|b|];
  }

  lemma FirstSpace(a: string, x: string)
    requires AllDigits(a)
    ensures IndexOfChar(a + " " + x, ' ') == |a|
  {
    var l := a + " " + x;
    forall k | 0 <= k < |a| ensures l[k] != ' ' {
      assert l[k] == a[k];
    }
    assert l[|a|] == ' ';
  }

  /**
   * Tracks at different positions get different file names, whatever their
   * titles and artists: the leading ordinal tells them apart.
   */
  lemma FileNamesDistinct(i: nat, j: nat, t1: string, a1: string, t2: string, a2: string)
    requires i != j
    ensures TrackFileName(i, t1, a1) != TrackFileName(j, t2, a2)
  {
    if TrackFileName(i, t1, a1) == TrackFileName(j, t2, a2) {
      OrdinalSpec(i + 1);
      OrdinalSpec(j + 1);
      DigitPrefixUnique(Ordinal(i + 1), Ordinal(j + 1), FileNameRest(t1, a1), FileNameRest(t2, a2));
      OrdinalInjective(i + 1, j + 1);
    }
  }

  // ---------------------------------------------------------------------------
  // Outcomes
  // ---------------------------------------------------------------------------

  /** One entry of `details`: `info` is the output path on success and the error text on failure. */
  datatype Detail = Detail(track: string, success: bool, info: string)

  function DetailJson(d: Detail): Json {
    if d.success then JObj(map["track" := JStr(d.track), "status" := JStr("success"), "path" := JStr(d.info)])
    else JObj(map["track" := JStr(d.track), "status" := JStr("failed"), "error" := JStr(d.info)])
  }

  function DetailsJson(ds: seq<Detail>): Json {
    JArr(seq(|ds|, k requires 0 <= k < |ds| => DetailJson(ds[k])))
  }

  /** `${title} by ${artist}` */
  function TrackLabel(title: string, artist: string): string {
    title + " by " + artist
  }

  /** The number of details with the given status. */
  function CountStatus(ds: seq<Detail>, success: bool): (n: nat)
    ensures n <= |ds|
    decreases |ds|
  {
    if |ds| == 0 then 0
    else CountStatus(ds[..|ds| - 1], success) + (if ds[|ds| - 1].success == success then 1 else 0)
  }

  /** Every detail is counted once: successes plus failures is the number of details. */
  lemma {:induction false} CountsCover(ds: seq<Detail>)
    ensures CountStatus(ds, true) + CountStatus(ds, false) == |ds|
    decreases |ds|
  {
    if |ds| > 0 {
      CountsCover(ds[..|ds| - 1]);
    }
  }

  lemma {:induction false} CountStatusAppend(a: seq<Detail>, b: seq<Detail>, success: bool)
    ensures CountStatus(a + b, success) == CountStatus(a, success) + CountStatus(b, success)
    decreases |b|
  {
    if |b| == 0 {
      assert a + b == a;
    } else {
      assert (a + b)[..|a + b| - 1] == a + b[..|b| - 1];
      CountStatusAppend(a, b[..|b| - 1], success);
    }
  }

  /** A sequence all of one status counts fully for it and not at all for the other. */
  lemma {:induction false} CountUniform(ds: seq<Detail>, success: bool)
    requires forall k :: 0 <= k < |ds| ==> ds[k].success == success
    ensures CountStatus(ds, success) == |ds|
    ensures CountStatus(ds, !success) == 0
    decreases |ds|
  {
    if |ds| > 0 {
      CountUniform(ds[..|ds| - 1], success);
    }
  }

  /** The summary line of the playlist response. */
  function PlaylistMessage(successes: nat, failures: nat): string {
    "Playlist download completed. " + NatToString(successes) + " tracks downloaded successfully, " +
    NatToString(failures) + " tracks failed."
  }
}
