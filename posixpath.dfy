/**
 * The parts of Python's `posixpath` the agents use: `join` of two
 * components, `dirname`, `basename` and `normpath`.
 */
module PosixPath {
  import opened Text

  type Path = string

  /** posixpath.join(a, b): b replaces a when b is absolute; otherwise one '/' separates them. */
  function Join(a: Path, b: Path): (p: Path)
    ensures |p| >= |b| && p[|p| - |b|..] == b
    ensures (|b| > 0 && b[0] == '/') ==> p == b
  {
    if |b| > 0 && b[0] == '/' then b
    else if a == [] || a[|a| - 1] == '/' then a + b
    else a + "/" + b
  }

  /** Index just past the last '/' of p, as `p.rfind('/') + 1`; 0 when p has no '/'. */
  function AfterLastSlash(p: Path): (i: nat)
    ensures i <= |p|
    ensures i > 0 ==> p[i - 1] == '/'
    ensures forall k :: i <= k < |p| ==> p[k] != '/'
    decreases |p|
  {
    if p == [] then 0
    else if p[|p| - 1] == '/' then |p|
    else AfterLastSlash(p[..|p| - 1])
  }

  predicate AllSlashes(s: string) {
    forall k :: 0 <= k < |s| ==> s[k] == '/'
  }

  function StripTrailingSlashes(s: string): (r: string)
    ensures |r| <= |s| && r == s[..|r|]
    decreases |s|
  {
    if s != [] && s[|s| - 1] == '/' then StripTrailingSlashes(s[..|s| - 1]) else s
  }

  /** posixpath.basename: everything after the last '/'. */
  function Basename(p: Path): (b: Path)
    ensures '/' !in b
    ensures |b| <= |p| && p[|p| - |b|..] == b
  {
    p[AfterLastSlash(p)..]
  }

  /** posixpath.dirname: everything up to the last '/', trailing slashes removed unless it is all slashes. */
  function Dirname(p: Path): (d: Path)
    ensures |d| <= |p| && d == p[..|d|]
  {
    var head := p[..AfterLastSlash(p)];
    if head != [] && !AllSlashes(head) then StripTrailingSlashes(head) else head
  }

  /** A path written as a directory, one '/' and a last component splits back into the two. */
  lemma {:induction false} SplitAtLastSlash(d: Path, b: Path)
    requires d != [] && d[|d| - 1] != '/'
    requires '/' !in b
    ensures Dirname(d + "/" + b) == d
    ensures Basename(d + "/" + b) == b
    ensures Join(Dirname(d + "/" + b), Basename(d + "/" + b)) == d + "/" + b
  {
    var p := d + "/" + b;
    var i := AfterLastSlash(p);
    assert p[|d|] == '/';
    assert forall k :: |d| < k < |p| ==> p[k] == b[k - |d| - 1];
    assert i == |d| + 1;
    var head := p[..i];
    assert head == d + "/";
    assert head[|d| - 1] != '/';
    assert StripTrailingSlashes(head) == StripTrailingSlashes(d);
    assert p[i..] == b;
  }

  /** The '.'/'..'/empty-component folding of posixpath.normpath, one component at a time. */
  function NormComponents(comps: seq<string>, absolute: bool): (r: seq<string>)
    ensures forall k :: 0 <= k < |r| ==> r[k] != "" && r[k] != "."
    decreases |comps|
  {
    if comps == [] then []
    else
      var acc := NormComponents(comps[..|comps| - 1], absolute);
      var c := comps[|comps| - 1];
      if c == "" || c == "." then acc
      else if c != ".." || (!absolute && acc == []) || (acc != [] && acc[|acc| - 1] == "..") then acc + [c]
      else if acc != [] then acc[..|acc| - 1]
      else acc
  }

  function Slashes(n: nat): (s: string)
    ensures |s| == n && AllSlashes(s)
  {
    seq(n, _ => '/')
  }

  /**
   * posixpath.normpath: collapses repeated separators and '.' components,
   * resolves '..' lexically, keeps one leading '/' (two when the path starts
   * with exactly two); never returns the empty path.
   */
  function NormPath(p: Path): (r: Path)
    ensures r != ""
  {
    if p == "" then "."
    else
      var lead: nat := if p[0] != '/' then 0 else if |p| >= 2 && p[1] == '/' && (|p| == 2 || p[2] != '/') then 2 else 1;
      var comps := NormComponents(Split(p, '/'), lead > 0);
      var r := Slashes(lead) + (if comps == [] then "" else JoinWith(comps, '/'));
      if r == "" then "." else r
  }
}
