/**
 * The parts of Rust's `std::path` that the tool family relies on, with Unix
 * rules. A directory or file location is a `Path`: the components of an
 * absolute path, outermost first (`/home/me` is `["home", "me"]`, the root is
 * `[]`). Text that is handled as a path only on the way to `file_stem` stays a
 * string and is decomposed by `FileName` and `FileStem` below.
 */
module RustPath {
  import opened Wrappers
  import opened RustStr

  type Path = seq<string>

  /** `Path::parent`: every path but the root has one, one component shorter. */
  function Parent(p: Path): (r: Option<Path>)
    ensures r.None? <==> p == []
    ensures r.Some? ==> |r.value| + 1 == |p| && r.value == p[..|r.value|]
  {
    if p == [] then None else Some(p[..|p| - 1])
  }

  /** The displayed form of an absolute path, as `to_str` gives it. */
  function PathString(p: Path): string {
    "/" + Join(p, '/')
  }

  /** A `PathBuf`: text taken as it was given (`PathBuf::from`), or an absolute location
      built by pushing onto a directory. */
  datatype PathBuf = FromText(text: string) | Located(path: Path)

  /** `PathBuf::to_str`. */
  function PathBufText(b: PathBuf): string {
    match b
    case FromText(t) => t
    case Located(p) => PathString(p)
  }

  /** `PathBuf::file_name`. */
  function PathBufFileName(b: PathBuf): Option<string> {
    FileName(PathBufText(b))
  }

  /** The last piece that `Path::components` keeps: empty pieces and `.` are dropped. */
  function LastKept(pieces: seq<string>): (r: Option<string>)
    ensures r.Some? ==> r.value in pieces && r.value != "" && r.value != "."
    ensures r.None? ==> forall k :: 0 <= k < |pieces| ==> pieces[k] == "" || pieces[k] == "."
    decreases |pieces|
  {
    if |pieces| == 0 then None
    else
      var last := pieces[|pieces| - 1];
      if last == "" || last == "." then LastKept(pieces[..|pieces| - 1]) else Some(last)
  }

  /** `Path::file_name` on Unix: the last normal component, if any. */
  function FileName(s: string): (r: Option<string>)
    ensures r.Some? ==> r.value != "" && r.value != "." && r.value != ".." && '/' !in r.value
  {
    match LastKept(Split(s, '/'))
    case Some(n) => if n == ".." then None else Some(n)
    case None => None
  }

  /** The stem of a file name: the text before its last `.`, unless that is empty or absent. */
  function NameStem(n: string): (r: string)
    ensures |r| <= |n| && r == n[..|r|]
    ensures r == n || (|r| > 0 && n[|r|] == '.' && '.' !in n[|r| + 1..])
  {
    match RFind(n, '.')
    case None => n
    case Some(i) => if i == 0 then n else n[..i]
  }

  /** `Path::file_stem` on Unix. */
  function FileStem(s: string): (r: Option<string>)
    ensures r.Some? <==> FileName(s).Some?
    ensures r.Some? ==> r.value != "" && '/' !in r.value
  {
    match FileName(s)
    case None => None
    case Some(n) => Some(NameStem(n))
  }

  /** `Path::file_stem` of a component path. */
  function PathFileStem(p: Path): Option<string> {
    if p == [] then None else FileStem(p[|p| - 1])
  }

  lemma {:induction false} SplitAppend(a: string, b: string, sep: char)
    ensures Split(a + [sep] + b, sep) == Split(a, sep) + Split(b, sep)
    decreases |a|
  {
    if |a| == 0 {
      assert a + [sep] + b == [sep] + b;
      assert ([sep] + b)[1..] == b;
    } else {
      var w := a + [sep] + b;
      assert w[1..] == a[1..] + [sep] + b;
      SplitAppend(a[1..], b, sep);
    }
  }

  lemma {:induction false} SplitNoSep(n: string, sep: char)
    requires sep !in n
    ensures Split(n, sep) == [n]
    decreases |n|
  {
    if |n| > 0 {
      assert forall c :: c in n[1..] ==> c in n;
      SplitNoSep(n[1..], sep);
      assert [n[0]] + n[1..] == n;
    }
  }

  /** The file name of `dir/n` is `n` whenever `n` is a normal component. */
  lemma FileNameAfterSlash(dir: string, n: string)
    requires n != "" && n != "." && n != ".." && '/' !in n
    ensures FileName(dir + "/" + n) == Some(n)
  {
    SplitAppend(dir, n, '/');
    SplitNoSep(n, '/');
    var pieces := Split(dir, '/') + [n];
    assert pieces[..|pieces| - 1] == Split(dir, '/');
    assert LastKept(pieces) == Some(n);
  }

  /** Pushing a normal component onto a directory makes it the file name. */
  lemma PushedFileName(dir: Path, n: string)
    requires n != "" && n != "." && n != ".." && '/' !in n
    ensures PathBufFileName(Located(dir + [n])) == Some(n)
  {
    var parts := dir + [n];
    if dir == [] {
      assert parts == [n];
      assert PathString(parts) == "" + "/" + n;
      FileNameAfterSlash("", n);
    } else {
      JoinPrefix(parts, |dir|, '/');
      assert parts[..|dir|] == dir && parts[|dir|..] == [n];
      assert PathString(parts) == PathString(dir) + "/" + n;
      FileNameAfterSlash(PathString(dir), n);
    }
  }

  /** A bare normal component is its own file name. */
  lemma FileNameOfComponent(n: string)
    requires n != "" && n != "." && n != ".." && '/' !in n
    ensures FileName(n) == Some(n)
  {
    SplitNoSep(n, '/');
  }

  /** `repo.git` has stem `repo`, so does `repo`, and `.git` keeps its whole name. */
  lemma NameStemSamples()
    ensures NameStem("repo.git") == "repo"
    ensures NameStem("repo") == "repo"
    ensures NameStem(".git") == ".git"
  {
    assert RFind("repo.git", '.') == Some(4);
    assert RFind(".git", '.') == Some(0);
  }
}
