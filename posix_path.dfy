/**
 * The POSIX path helpers the Python code calls: os.path.join with two
 * arguments, basename, dirname and the root half of splitext.
 */
module PosixPath {
  import opened Strings

  predicate IsSlash(c: char) {
    c == '/'
  }

  /** `os.path.join(a, b)`: an absolute b replaces a; otherwise one '/' separates them. */
  function Join(a: string, b: string): (r: string)
    ensures |b| > 0 && b[0] == '/' ==> r == b
    ensures EndsWith(r, b)
    ensures !(|b| > 0 && b[0] == '/') && a != "" && a[|a| - 1] != '/' ==> r == a + "/" + b
    ensures !(|b| > 0 && b[0] == '/') && (a == "" || a[|a| - 1] == '/') ==> r == a + b
  {
    if |b| > 0 && b[0] == '/' then b
    else if a == "" || a[|a| - 1] == '/' then a + b
    else a + "/" + b
  }

  /** `os.path.basename(p)`: the text after the last '/'. */
  function Basename(p: string): (r: string)
    ensures '/' !in r
    ensures EndsWith(p, r)
    ensures |r| < |p| ==> p[|p| - |r| - 1] == '/'
    ensures '/' !in p ==> r == p
  {
    var i := LastIndexOfChar(p, '/');
    assert p[|p| - |p[i + 1..]|..] == p[i + 1..];
    p[i + 1..]
  }

  /**
   * `os.path.dirname(p)`: the text up to the last '/', with trailing slashes
   * removed unless it consists of slashes only.
   */
  function Dirname(p: string): (r: string)
    ensures '/' !in p ==> r == ""
    ensures StartsWith(p, r)
    ensures var i := LastIndexOfChar(p, '/');
            (forall k :: 0 <= k <= i ==> p[k] == '/') ==> r == p[..i + 1]
    ensures var i := LastIndexOfChar(p, '/');
            (exists k :: 0 <= k <= i && p[k] != '/') ==>
              0 < |r| <= i && r[|r| - 1] != '/' && forall k :: |r| <= k <= i ==> p[k] == '/'
  {
    var i := LastIndexOfChar(p, '/');
    var head := p[..i + 1];
    var n := TrailingCount(head, IsSlash);
    var r := if head != "" && n < |head| then head[..|head| - n] else head;
    assert p[..|r|] == r;
    r
  }

  /**
   * Where the extension of p starts, or -1: the last '.' of the last
   * component, provided some character before it in that component is not a
   * '.'.
   */
  function ExtensionDot(p: string): (d: int)
    ensures -1 <= d < |p|
    ensures d >= 0 ==>
              p[d] == '.' && (forall k :: d < k < |p| ==> p[k] != '/' && p[k] != '.') &&
              exists k :: LastIndexOfChar(p, '/') < k < d && p[k] != '.'
    ensures d < 0 ==>
              forall e :: LastIndexOfChar(p, '/') < e < |p| && p[e] == '.' ==>
                forall k :: LastIndexOfChar(p, '/') < k < e ==> p[k] == '.'
  {
    var sep := LastIndexOfChar(p, '/');
    var dot := LastIndexOfChar(p, '.');
    if dot <= sep then
      NoExtension(p, sep, dot);
      -1
    else
      var k := FirstNonDot(p, sep + 1, dot);
      if k < dot then
        ExtensionAfter(p, sep, dot, k);
        dot
      else
        NoExtension(p, sep, dot);
        -1
  }

  /** The first index in [lo, hi) whose character is not a '.', or hi. */
  function FirstNonDot(p: string, lo: nat, hi: nat): (k: nat)
    requires lo <= hi <= |p|
    ensures lo <= k <= hi
    ensures forall j :: lo <= j < k ==> p[j] == '.'
    ensures k < hi ==> p[k] != '.'
    decreases hi - lo
  {
    if lo == hi || p[lo] != '.' then lo else FirstNonDot(p, lo + 1, hi)
  }

  /**
   * The first half of `os.path.splitext(p)`: p without its extension.  The
   * extension starts at the last '.' of the last component, provided some
   * character before it in that component is not a '.'; leading dots do not
   * start an extension.
   */
  function SplitextRoot(p: string): (r: string)
    ensures StartsWith(p, r)
    ensures '.' !in p ==> r == p
    ensures r != p ==>
              |r| < |p| && p[|r|] == '.' && (forall k :: |r| < k < |p| ==> p[k] != '/' && p[k] != '.') &&
              exists k :: LastIndexOfChar(p, '/') < k < |r| && p[k] != '.'
    ensures r == p ==>
              forall d :: LastIndexOfChar(p, '/') < d < |p| && p[d] == '.' ==>
                forall k :: LastIndexOfChar(p, '/') < k < d ==> p[k] == '.'
  {
    var d := ExtensionDot(p);
    if d >= 0 then
      assert p[..|p[..d]|] == p[..d];
      p[..d]
    else p
  }

  /** A last dot after the last '/' with a non-dot before it in that component starts the extension. */
  lemma ExtensionAfter(p: string, sep: int, dot: int, k: int)
    requires sep == LastIndexOfChar(p, '/') && dot == LastIndexOfChar(p, '.')
    requires sep < k < dot && p[k] != '.'
    ensures p[dot] == '.' && forall j :: dot < j < |p| ==> p[j] != '/' && p[j] != '.'
    ensures exists j :: sep < j < dot && p[j] != '.'
  {
  }

  /** With only dots before the last dot of the last component, no dot there starts an extension. */
  lemma NoExtension(p: string, sep: int, dot: int)
    requires sep == LastIndexOfChar(p, '/') && dot == LastIndexOfChar(p, '.')
    requires forall k :: sep < k < dot ==> p[k] == '.'
    ensures forall d :: sep < d < |p| && p[d] == '.' ==> forall k :: sep < k < d ==> p[k] == '.'
  {
  }

  lemma SplitextPlainName(name: string, ext: string)
    requires '/' !in name && '.' !in name && name != ""
    requires '/' !in ext && '.' !in ext
    ensures SplitextRoot(name + "." + ext) == name
  {
    var p := name + "." + ext;
    var i := |name|;
    assert p[i] == '.';
    forall k | 0 <= k < |p| && k != i ensures p[k] != '.' && p[k] != '/' {
      if k < i { assert p[k] == name[k]; } else { assert p[k] == ext[k - i - 1]; }
    }
    var r := SplitextRoot(p);
    assert r != p by {
      assert p[0] == name[0];
    }
    assert |r| == i;
    assert p[..i] == name;
  }

  /** A name made of a leading dot and no other dot has no extension. */
  lemma SplitextLeadingDot(name: string)
    requires '/' !in name && '.' !in name
    ensures SplitextRoot("." + name) == "." + name
  {
    var p := "." + name;
    assert forall k :: 0 < k < |p| ==> p[k] == name[k - 1];
    assert LastIndexOfChar(p, '.') == 0;
  }

  /** A path built as `dir/file`, with a plain file name, splits back into dir and file. */
  lemma SplitJoined(dir: string, file: string)
    requires dir != "" && dir[|dir| - 1] != '/'
    requires '/' !in file
    ensures Basename(dir + "/" + file) == file
    ensures Dirname(dir + "/" + file) == dir
  {
    var p := dir + "/" + file;
    var i := |dir|;
    assert p[i] == '/';
    forall k | i < k < |p| ensures p[k] != '/' {
      assert p[k] == file[k - i - 1];
    }
    assert LastIndexOfChar(p, '/') == i;
    assert p[i + 1..] == file;
    var head := p[..i + 1];
    assert head == dir + "/";
    var n := TrailingCount(head, IsSlash);
    assert head[|head| - 1] == '/';
    assert head[|head| - 2] == dir[|dir| - 1];
    assert n == 1;
    assert head[..|head| - 1] == dir;
  }
}
