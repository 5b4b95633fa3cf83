/**
 * `inc-lib/src/libs/scm/util.rs`: where a checkout goes. A destination given by the
 * user is taken as it is; otherwise the provider's suggestion, or failing that a
 * random name, is turned into a directory of the working directory named after the
 * name's file stem.
 *
 * The working directory (`current_dir`) is an input, `None` when it cannot be
 * determined, and so is the random name.
 */
module ScmUtil {
  import opened Wrappers
  import opened RustPath

  /** `extract_directory`: with a working directory, that directory with the file stem of
      the chunk pushed onto it (a chunk without a file name panics); without one, the
      chunk itself. */
  function ExtractDirectory(chunk: string, cwd: Option<Path>): (r: Fallible<PathBuf>)
    ensures cwd.None? ==> r == Done(FromText(chunk))
    ensures cwd.Some? ==> (r.Done? <==> FileName(chunk).Some?)
    ensures cwd.Some? && r.Done? ==>
              r.value.Located? && Parent(r.value.path) == Some(cwd.value)
              && r.value.path[|cwd.value|] == FileStem(chunk).value
  {
    match cwd
    case None => Done(FromText(chunk))
    case Some(dir) =>
      match FileStem(chunk)
      case None => Panic("called `Option::unwrap()` on a `None` value")
      case Some(stem) =>
        assert (dir + [stem])[..|dir|] == dir;
        Done(Located(dir + [stem]))
  }

  /** Inside a working directory the checkout's own name is the stem of the chunk (a
      stem of `.` or `..`, as `..x` and `...` have, names no new directory). */
  lemma ExtractedNameIsStem(chunk: string, cwd: Path)
    requires FileStem(chunk).Some? && FileStem(chunk).value != "." && FileStem(chunk).value != ".."
    ensures ExtractDirectory(chunk, Some(cwd)).Done?
    ensures PathBufFileName(ExtractDirectory(chunk, Some(cwd)).value) == FileStem(chunk)
  {
    var stem := FileStem(chunk).value;
    PushedFileName(cwd, stem);
  }

  /** `compute_destination`: the destination as given; else the suggestion; else a random
      name. */
  function ComputeDestination(destination: Option<string>, suggestedName: Option<string>,
                              cwd: Option<Path>, randomName: string): (r: Fallible<PathBuf>)
    ensures destination.Some? ==> r == Done(FromText(destination.value))
    ensures destination.None? && suggestedName.Some? ==> r == ExtractDirectory(suggestedName.value, cwd)
    ensures destination.None? && suggestedName.None? ==> r == ExtractDirectory(randomName, cwd)
  {
    if destination.Some? then Done(FromText(destination.value))
    else match suggestedName
      case Some(suggestion) => ExtractDirectory(suggestion, cwd)
      case None => ExtractDirectory(randomName, cwd)
  }

  /** A destination given by the user wins over any suggestion and any random name. */
  lemma GivenDestinationWins(destination: string, s1: Option<string>, s2: Option<string>,
                             cwd: Option<Path>, n1: string, n2: string)
    ensures ComputeDestination(Some(destination), s1, cwd, n1)
            == ComputeDestination(Some(destination), s2, cwd, n2)
            == Done(FromText(destination))
  {
  }

  /** The random name matters only when there is neither a destination nor a suggestion. */
  lemma RandomNameLastResort(destination: Option<string>, suggestedName: Option<string>,
                             cwd: Option<Path>, n1: string, n2: string)
    requires destination.Some? || suggestedName.Some?
    ensures ComputeDestination(destination, suggestedName, cwd, n1)
            == ComputeDestination(destination, suggestedName, cwd, n2)
  {
  }
}
