/**
 * Sub-command discovery: which directory entries become `SystemBinary`s. The
 * listing itself (walking `PATH`, `read_dir`, reading metadata) is an input; only
 * the per-entry filter and the accumulation into a set are modelled.
 */
module Discovery {
  import opened Wrappers
  import opened RustStr
  import opened RustPath

  /** `BASE_APPLICATION_NAME` followed by a dash. */
  const AppPrefix: string := "inc-"

  /** An executable found on disk: where it is and its file name. */
  datatype SystemBinary = SystemBinary(path: Path, name: string)

  datatype FileKind = RegularFile | Directory | Symlink | OtherKind

  /** What `read_dir` tells about one entry: the name (None when it is not UTF-8),
      the file type (None when it cannot be read), the entry's path and its
      permission bits. */
  datatype DirEntry = DirEntry(fileName: Option<string>, fileType: Option<FileKind>, path: Path, mode: bv32)

  /** `file_is_executable` on Unix: some execute bit (0o111) is set. */
  predicate IsExecutable(mode: bv32) {
    mode & 0x49 != 0
  }

  /** `process_dir_entry`'s filter: a UTF-8 name, a regular file whenever the type is
      known, the `inc-` prefix and an execute bit. */
  predicate Recorded(e: DirEntry) {
    && e.fileName.Some?
    && (e.fileType.Some? ==> e.fileType.value == RegularFile)
    && StartsWith(e.fileName.value, AppPrefix)
    && IsExecutable(e.mode)
  }

  function BinaryOf(e: DirEntry): SystemBinary
    requires e.fileName.Some?
  {
    SystemBinary(e.path, e.fileName.value)
  }

  /** The binaries recorded from a listing; `None` stands for an entry `read_dir` failed on. */
  function RecordedFrom(entries: seq<Option<DirEntry>>): (r: set<SystemBinary>)
    ensures forall b :: b in r ==> StartsWith(b.name, AppPrefix)
    ensures forall k :: 0 <= k < |entries| && entries[k].Some? && Recorded(entries[k].value)
                        ==> BinaryOf(entries[k].value) in r
    decreases |entries|
  {
    if |entries| == 0 then {}
    else
      var rest := RecordedFrom(entries[..|entries| - 1]);
      var e := entries[|entries| - 1];
      if e.Some? && Recorded(e.value) then rest + {BinaryOf(e.value)} else rest
  }

  /** `process_dir_entry`: inserts the entry's binary into the set when the filter accepts it. */
  method ProcessDirEntry(found: set<SystemBinary>, e: DirEntry) returns (found': set<SystemBinary>)
    ensures Recorded(e) ==> found' == found + {BinaryOf(e)}
    ensures !Recorded(e) ==> found' == found
  {
    found' := found;
    if e.fileName.None? {
      return;
    }
    if e.fileType.Some? && e.fileType.value != RegularFile {
      return;
    }
    var fileName := e.fileName.value;
    if StartsWith(fileName, AppPrefix) {
      if IsExecutable(e.mode) {
        found' := found' + {SystemBinary(e.path, fileName)};
      }
    }
  }

  /** `process_dir_read`: every readable entry of one directory goes through the filter. */
  method ProcessDirRead(found: set<SystemBinary>, entries: seq<Option<DirEntry>>) returns (found': set<SystemBinary>)
    ensures found' == found + RecordedFrom(entries)
    ensures forall b :: b in found' && b !in found ==> StartsWith(b.name, AppPrefix)
  {
    found' := found;
    var i := 0;
    while i < |entries|
      invariant 0 <= i <= |entries|
      invariant found' == found + RecordedFrom(entries[..i])
    {
      assert entries[..i + 1][..i] == entries[..i];
      match entries[i] {
        case Some(e) =>
          found' := ProcessDirEntry(found', e);
        case None =>
      }
      i := i + 1;
    }
    assert entries[..|entries|] == entries;
  }
}
