/**
 * POSIX path handling and the scratch file system that the change-set
 * materialisation writes to. `Join` and `DirName` follow Python's
 * `posixpath.join` (two arguments) and `posixpath.dirname`; `MakeDirs`
 * follows `os.makedirs`. Paths are plain strings and the file system compares
 * them as strings: "a//b" and "a/b" are different keys here.
 */
module Paths {

  /** `os.path.join(a, b)`: an absolute `b` replaces `a`; otherwise a single
      separator is inserted unless `a` is empty or already ends with one. */
  function Join(a: string, b: string): string {
    if |b| > 0 && b[0] == '/' then b
    else if a == [] || a[|a| - 1] == '/' then a + b
    else a + "/" + b
  }

  /** The part of `a` that `Join(a, b)` puts in front of a relative `b`. */
  function JoinPrefix(a: string): string {
    if a == [] || a[|a| - 1] == '/' then a else a + "/"
  }

  predicate Relative(p: string) {
    p == [] || p[0] != '/'
  }

  /** Joining a relative name appends it after the directory's prefix. */
  lemma JoinRelative(a: string, b: string)
    requires Relative(b)
    ensures Join(a, b) == JoinPrefix(a) + b
  {
  }

  /** Two relative names joined to the same directory give the same path only
      when they are the same name. */
  lemma JoinInjective(a: string, b1: string, b2: string)
    requires Relative(b1) && Relative(b2)
    requires Join(a, b1) == Join(a, b2)
    ensures b1 == b2
  {
    JoinRelative(a, b1);
    JoinRelative(a, b2);
    var n := |JoinPrefix(a)|;
    assert b1 == Join(a, b1)[n..];
    assert b2 == Join(a, b2)[n..];
  }

  /** Index just past the last '/', 0 when there is none (`p.rfind('/') + 1`). */
  function HeadLength(p: string): (i: nat)
    ensures i <= |p|
    ensures i > 0 ==> p[i - 1] == '/'
    ensures forall j :: i <= j < |p| ==> p[j] != '/'
  {
    if p == [] then 0
    else if p[|p| - 1] == '/' then |p|
    else HeadLength(p[..|p| - 1])
  }

  predicate AllSlashes(s: string) {
    forall i :: 0 <= i < |s| ==> s[i] == '/'
  }

  /** `s.rstrip('/')` */
  function RStripSlashes(s: string): (r: string)
    ensures |r| <= |s| && r == s[..|r|]
    ensures r == [] || r[|r| - 1] != '/'
    ensures AllSlashes(s[|r|..])
  {
    if s != [] && s[|s| - 1] == '/' then
      var r := RStripSlashes(s[..|s| - 1]);
      assert s[|r|..] == s[..|s| - 1][|r|..] + [s[|s| - 1]];
      r
    else s
  }

  /** `os.path.dirname(p)`: everything up to the last separator, with
      trailing separators removed unless the head is separators only. */
  function DirName(p: string): (d: string)
    ensures |d| <= HeadLength(p)
    ensures d == p[..|d|]
  {
    var head := p[..HeadLength(p)];
    if head != [] && !AllSlashes(head) then RStripSlashes(head) else head
  }

  /** `os.path.split(p)[1]`: the part after the last separator. */
  function BaseName(p: string): string {
    p[HeadLength(p)..]
  }

  /** A name without a separator has no directory part, and a name with one
      has a directory part strictly shorter than the name. */
  lemma DirNameShape(p: string)
    ensures (forall i :: 0 <= i < |p| ==> p[i] != '/') ==> DirName(p) == []
    ensures BaseName(p) != [] ==> |DirName(p)| < |p|
  {
  }

  /** The scratch file system: file contents by path, and the directories. */
  datatype FileSystem = FileSystem(files: map<string, string>, dirs: set<string>)

  /** `os.path.exists(p)` */
  predicate Exists(fs: FileSystem, p: string) {
    p in fs.files || p in fs.dirs
  }

  /** `fs'` holds everything `fs` holds. */
  predicate Extends(fs': FileSystem, fs: FileSystem) {
    fs.dirs <= fs'.dirs && forall p :: p in fs.files ==> p in fs'.files
  }

  /** `os.mkdir(p)`: refused when something already exists at `p`. */
  function Mkdir(fs: FileSystem, p: string): (r: (FileSystem, bool))
    ensures r.1 <==> !Exists(fs, p)
    ensures r.1 ==> r.0 == fs.(dirs := fs.dirs + {p})
    ensures !r.1 ==> r.0 == fs
  {
    if Exists(fs, p) then (fs, false) else (fs.(dirs := fs.dirs + {p}), true)
  }

  /** `os.makedirs(name)`: first the missing ancestors, then `name` itself. */
  function MakeDirs(fs: FileSystem, name: string): (fs': FileSystem)
    ensures Exists(fs', name)
    ensures fs'.files == fs.files && fs.dirs <= fs'.dirs
    decreases |name|
  {
    var head0, tail0 := DirName(name), BaseName(name);
    var head := if tail0 == [] then DirName(head0) else head0;
    var tail := if tail0 == [] then BaseName(head0) else tail0;
    var fs1 :=
      if head != [] && tail != [] && !Exists(fs, head) then
        DirNameShape(name);
        DirNameShape(head0);
        MakeDirs(fs, head)
      else fs;
    fs1.(dirs := fs1.dirs + {name})
  }

  /** Creating directories never removes or changes a file. */
  lemma MakeDirsExtends(fs: FileSystem, name: string)
    ensures Extends(MakeDirs(fs, name), fs)
  {
  }
}
