/**
 * The upward directory walk shared by both configuration loaders
 * (`inc-lib/src/core/config.rs` and `lib/core/src/core/config.rs`): starting in the
 * working directory and moving to the parent until there is none, each directory
 * contributes the configuration file it holds, if any.
 *
 * What a directory holds is given by `probe`, which stands for the loader's own
 * `config_file` over the filesystem.
 */
module ConfigWalk {
  import opened Wrappers
  import opened RustPath

  /** The file one directory contributes to the walk. */
  function Here(dir: Path, probe: Path -> Option<Path>): seq<Path> {
    match probe(dir)
    case Some(f) => [f]
    case None => []
  }

  /** The files the walk finds from `dir`: this directory's, then its ancestors'. */
  function SearchUp(dir: Path, probe: Path -> Option<Path>): seq<Path>
    decreases |dir|
  {
    var here := Here(dir, probe);
    if dir == [] then here
    else here + SearchUp(dir[..|dir| - 1], probe)
  }

  /** A probe answers with a file directly inside the directory it was asked about. */
  ghost predicate ProbesChildren(probe: Path -> Option<Path>) {
    forall d :: probe(d).Some? ==> Parent(probe(d).value) == Some(d)
  }

  /** The walk yields files of `dir` and of its ancestors only, at most one per directory,
      ordered from the closest directory to the root. */
  lemma {:induction false} SearchUpIsAncestors(dir: Path, probe: Path -> Option<Path>)
    requires ProbesChildren(probe)
    ensures forall k :: 0 <= k < |SearchUp(dir, probe)| ==>
              var f := SearchUp(dir, probe)[k];
              1 <= |f| <= |dir| + 1 && f[..|f| - 1] == dir[..|f| - 1]
    ensures forall j, k :: 0 <= j < k < |SearchUp(dir, probe)| ==>
              |SearchUp(dir, probe)[j]| > |SearchUp(dir, probe)[k]|
    decreases |dir|
  {
    var here := Here(dir, probe);
    if probe(dir).Some? {
      assert Parent(probe(dir).value) == Some(dir);
    }
    assert forall k :: 0 <= k < |here| ==> |here[k]| == |dir| + 1 && here[k][..|dir|] == dir;
    if dir != [] {
      var up := dir[..|dir| - 1];
      SearchUpIsAncestors(up, probe);
      var u := SearchUp(up, probe);
      assert SearchUp(dir, probe) == here + u;
      forall k | 0 <= k < |u|
        ensures 1 <= |u[k]| <= |dir| && u[k][..|u[k]| - 1] == dir[..|u[k]| - 1]
      {
        assert dir[..|u[k]| - 1] == up[..|u[k]| - 1];
      }
    }
  }

  /** Every directory from `dir` up to the root contributes its file, if it has one. */
  lemma {:induction false} SearchUpFindsEveryLevel(dir: Path, probe: Path -> Option<Path>, n: nat)
    requires n <= |dir| && probe(dir[..n]).Some?
    ensures probe(dir[..n]).value in SearchUp(dir, probe)
    decreases |dir|
  {
    if n < |dir| {
      var up := dir[..|dir| - 1];
      assert up[..n] == dir[..n];
      SearchUpFindsEveryLevel(up, probe, n);
    } else {
      assert dir[..n] == dir;
    }
  }

  /** One step of the walk: this directory's file, then the parent's walk, or nothing more
      at the root. */
  lemma WalkStep(dir: Path, probe: Path -> Option<Path>)
    ensures match Parent(dir)
            case Some(up) => SearchUp(dir, probe) == Here(dir, probe) + SearchUp(up, probe)
            case None => SearchUp(dir, probe) == Here(dir, probe)
  {
  }

  lemma Regroup(before: seq<Path>, here: seq<Path>, rest: seq<Path>)
    ensures before + here + rest == before + (here + rest)
  {
  }
}
