/** POSIX path text as `os.path` and `pathlib` read it: the base name, the
    directory part, joining, and the suffix of the final component. */
module Paths {
  import opened Text

  /** The index of the last `c` in `s`, or -1. */
  function LastIndex(s: string, c: char): (r: int)
    ensures -1 <= r < |s|
    ensures r >= 0 ==> s[r] == c
    ensures forall j :: r < j < |s| ==> s[j] != c
    decreases |s|
  {
    if s == [] then -1
    else if s[|s| - 1] == c then |s| - 1
    else LastIndex(s[..|s| - 1], c)
  }

  /** `os.path.basename`: what follows the last '/'. */
  function BaseName(p: string): (r: string)
    ensures |r| <= |p| && r == p[|p| - |r|..]
    ensures forall j :: 0 <= j < |r| ==> r[j] != '/'
  {
    p[LastIndex(p, '/') + 1..]
  }

  predicate AllSlashes(s: string) {
    forall j :: 0 <= j < |s| ==> s[j] == '/'
  }

  /** `s.rstrip('/')`. */
  function TrimSlashes(s: string): (r: string)
    ensures |r| <= |s| && r == s[..|r|]
    ensures r == [] || r[|r| - 1] != '/'
    ensures AllSlashes(s[|r|..])
    decreases |s|
  {
    if s != [] && s[|s| - 1] == '/' then TrimSlashes(s[..|s| - 1]) else s
  }

  /** `os.path.dirname`: up to the last '/', with trailing slashes dropped
      unless there is nothing but slashes. */
  function DirName(p: string): (r: string)
    ensures |r| <= |p| && r == p[..|r|]
  {
    var head := p[..LastIndex(p, '/') + 1];
    if head != [] && !AllSlashes(head) then TrimSlashes(head) else head
  }

  /** `os.path.join(a, b)` for a relative `b`. */
  function PathJoin(a: string, b: string): (r: string)
    ensures EndsWith(r, b)
  {
    if a == [] || a[|a| - 1] == '/' then a + b else a + "/" + b
  }

  /** `PurePath(p).name`: the last component, trailing slashes ignored. */
  function Name(p: string): string {
    BaseName(TrimSlashes(p))
  }

  /** `PurePath(p).suffix`: from the last '.' of the name, provided that dot
      neither starts nor ends the name. */
  function Suffix(p: string): string {
    var n := Name(p);
    var i := LastIndex(n, '.');
    if 0 < i < |n| - 1 then n[i..] else ""
  }

  /** A non-empty suffix is a dot and at least one character that is neither
      a dot nor a slash, and it ends the name without being all of it. */
  lemma SuffixShape(p: string)
    ensures var s := Suffix(p);
      s != [] ==>
        2 <= |s| < |Name(p)| && s[0] == '.' && EndsWith(Name(p), s) &&
        forall j :: 1 <= j < |s| ==> s[j] != '.' && s[j] != '/'
  {
    var n := Name(p);
    var i := LastIndex(n, '.');
    if 0 < i < |n| - 1 {
      assert n[i..][0] == '.';
      forall j | 1 <= j < |n[i..]|
        ensures n[i..][j] != '.' && n[i..][j] != '/'
      {
        assert n[i..][j] == n[i + j];
      }
    }
  }

  /** A file named `stem + ext` in a directory has the suffix `ext` when
      `ext` is a dot and a dot-free extension and the stem is not empty. */
  lemma SuffixOf(dir: string, stem: string, ext: string)
    requires dir == [] || dir[|dir| - 1] == '/'
    requires stem != [] && forall j :: 0 <= j < |stem| ==> stem[j] != '/'
    requires |ext| >= 2 && ext[0] == '.' && forall j :: 1 <= j < |ext| ==> ext[j] != '.' && ext[j] != '/'
    ensures Suffix(dir + stem + ext) == ext
  {
    var name := stem + ext;
    assert dir + stem + ext == dir + name;
    NameOf(dir, name);
    LastDot(stem, ext);
    assert name[|stem|..] == ext;
  }

  /** The name of a path is what follows the last '/'. */
  lemma NameOf(dir: string, name: string)
    requires dir == [] || dir[|dir| - 1] == '/'
    requires name != [] && forall j :: 0 <= j < |name| ==> name[j] != '/'
    ensures Name(dir + name) == name
  {
    assert TrimSlashes(dir + name) == dir + name;
    LastSlash(dir, name);
  }

  lemma LastSlash(dir: string, name: string)
    requires dir == [] || dir[|dir| - 1] == '/'
    requires forall j :: 0 <= j < |name| ==> name[j] != '/'
    ensures LastIndex(dir + name, '/') == |dir| - 1
  {
    if dir != [] {
      assert (dir + name)[|dir| - 1] == '/';
    }
  }

  lemma LastDot(stem: string, ext: string)
    requires |ext| >= 1 && ext[0] == '.' && forall j :: 1 <= j < |ext| ==> ext[j] != '.'
    ensures LastIndex(stem + ext, '.') == |stem|
  {
    assert (stem + ext)[|stem|] == '.';
  }

  /** The base name and the directory part split a path at its last '/'. */
  lemma BaseNameJoin(dir: string, name: string)
    requires dir != [] && dir[|dir| - 1] != '/' && !AllSlashes(dir)
    requires forall j :: 0 <= j < |name| ==> name[j] != '/'
    ensures BaseName(PathJoin(dir, name)) == name
    ensures DirName(PathJoin(dir, name)) == dir
  {
    var p := dir + "/" + name;
    LastSlash(dir + "/", name);
    assert p == (dir + "/") + name;
    assert p[..|dir| + 1] == dir + "/";
    assert !AllSlashes(dir + "/") by {
      var j :| 0 <= j < |dir| && dir[j] != '/';
      assert (dir + "/")[j] == dir[j];
    }
    assert (dir + "/")[..|dir|] == dir;
  }
}
