/**
 * `lib/core/src/cli.rs`: the string-keyed generation of sub-command grouping.
 * Discovered names are stored with the application prefix cut off, and grouped
 * into a map from each root name to the names attached to it.
 */
module StringCli {
  import opened Wrappers
  import opened RustStr
  import opened Sorting
  import opened Discovery
  import opened Hierarchy

  /** The number of characters `process_dir_entry` cuts off a discovered file name. */
  const StrippedAsWritten: nat := 7

  /** The stored name as the code computes it: the first seven characters are cut, and a
      shorter name makes the slice panic. */
  function StoredNameAsWritten(fileName: string): (r: Fallible<string>)
    ensures r.Panic? <==> |fileName| < StrippedAsWritten
    ensures r.Done? ==> |r.value| + StrippedAsWritten == |fileName|
  {
    if |fileName| < StrippedAsWritten then Panic("byte index out of range")
    else Done(fileName[StrippedAsWritten..])
  }

  /** The stored name as intended: the file name without the `inc-` it was checked to
      start with. */
  function StoredName(fileName: string): (r: string)
    requires StartsWith(fileName, AppPrefix)
    ensures AppPrefix + r == fileName
  {
    fileName[|AppPrefix|..]
  }

  /** Cutting seven characters loses the first three of the command name (`inc-checkout`
      is stored as `ckout`) and panics on a short name such as `inc-ls`. */
  lemma StoredNameAsWrittenLosesText()
    ensures StoredNameAsWritten("inc-checkout") == Done("ckout")
    ensures StoredName("inc-checkout") == "checkout"
    ensures StoredNameAsWritten("inc-ls").Panic?
  {
    assert "inc-checkout"[7..] == "ckout";
    assert "inc-checkout"[4..] == "checkout";
  }

  /** Prefixing the stored name again gives back the file name, so distinct files give
      distinct stored names. */
  lemma StoredNameInjective(f1: string, f2: string)
    requires StartsWith(f1, AppPrefix) && StartsWith(f2, AppPrefix)
    requires StoredName(f1) == StoredName(f2)
    ensures f1 == f2
  {
    assert AppPrefix + StoredName(f1) == f1;
    assert AppPrefix + StoredName(f2) == f2;
  }

  /** This generation's filter: a UTF-8 name with the `inc-` prefix and an execute bit;
      the file type is not looked at. */
  predicate Stored(e: DirEntry) {
    && e.fileName.Some?
    && StartsWith(e.fileName.value, AppPrefix)
    && IsExecutable(e.mode)
  }

  /** The names stored from a listing; `None` stands for an entry `read_dir` failed on. */
  function StoredFrom(entries: seq<Option<DirEntry>>): (r: set<string>)
    ensures forall k :: 0 <= k < |entries| && entries[k].Some? && Stored(entries[k].value)
                        ==> StoredName(entries[k].value.fileName.value) in r
    ensures forall n :: n in r ==> exists k :: 0 <= k < |entries| && entries[k].Some? && Stored(entries[k].value)
                                              && StoredName(entries[k].value.fileName.value) == n
    decreases |entries|
  {
    if |entries| == 0 then {}
    else
      var rest := StoredFrom(entries[..|entries| - 1]);
      var e := entries[|entries| - 1];
      if e.Some? && Stored(e.value) then rest + {StoredName(e.value.fileName.value)} else rest
  }

  /** `process_dir_entry`, with the prefix cut as intended. */
  method ProcessDirEntry(found: set<string>, e: DirEntry) returns (found': set<string>)
    ensures Stored(e) ==> found' == found + {StoredName(e.fileName.value)}
    ensures !Stored(e) ==> found' == found
  {
    found' := found;
    if e.fileName.None? {
      return;
    }
    var fileName := e.fileName.value;
    if StartsWith(fileName, AppPrefix) {
      if IsExecutable(e.mode) {
        found' := found' + {fileName[|AppPrefix|..]};
      }
    }
  }

  /** `process_dir_read`: every readable entry goes through `process_dir_entry`. */
  method ProcessDirRead(found: set<string>, entries: seq<Option<DirEntry>>) returns (found': set<string>)
    ensures found' == found + StoredFrom(entries)
  {
    found' := found;
    var i := 0;
    while i < |entries|
      invariant 0 <= i <= |entries|
      invariant found' == found + StoredFrom(entries[..i])
    {
      assert entries[..i + 1][..i] == entries[..i];
      match entries[i] {
        case Some(e) =>
          found' := ProcessDirEntry(found', e);
        case None =>
      }
      i := i + 1;
    }
    assert entries[..|entries|] == entries;
  }

  function Len(s: string): nat {
    |s|
  }

  /** Every name listed under a key is attached to that key. */
  predicate SubsSound(m: map<string, seq<string>>) {
    forall k, x :: k in m && x in m[k] ==> Attach(x, m.Keys) == Some(k)
  }

  /** The map `convert_command_set_to_map` produces: the keys are the one consistent set
      of roots among the names, and each key lists exactly the names attached to it,
      each once. */
  predicate Grouped(names: set<string>, m: map<string, seq<string>>) {
    && ValidRoots(names, m.Keys)
    && (forall k :: k in m ==> Distinct(m[k]))
    && (forall k, x :: k in m && x in m[k] ==> x in names)
    && SubsSound(m)
    && (forall n :: n in names && Attach(n, m.Keys).Some? ==>
          Attach(n, m.Keys).value in m && n in m[Attach(n, m.Keys).value])
  }

  /** `find_key_from_command`: the first dash-prefix of the name that is a key. */
  method FindKeyFromCommand(command: string, m: map<string, seq<string>>) returns (r: Option<string>)
    ensures r == FindKey(command, m.Keys)
  {
    var parts := Split(command, '-');
    ghost var cands := Candidates(command);
    CandidatesAreSplitPrefixes(command);
    var i := 0;
    while i < |parts|
      invariant 0 <= i <= |parts|
      invariant forall j :: 0 <= j < i ==> cands[j] !in m
    {
      var joint := Join(parts[..i], '-');
      if joint in m {
        assert cands[i] == joint;
        return Some(joint);
      }
      i := i + 1;
    }
    return None;
  }

  // What the grouping loop keeps true of the names `done` processed so far.

  predicate KeysMatch(done: seq<string>, m: map<string, seq<string>>) {
    forall n :: n in done ==> (n in m <==> Attach(n, m.Keys).None?)
  }

  predicate EntriesFrom(done: seq<string>, m: map<string, seq<string>>) {
    && (forall k :: k in m ==> k in done && Distinct(m[k]))
    && (forall k, x :: k in m && x in m[k] ==> x in done)
  }

  predicate SubsComplete(done: seq<string>, m: map<string, seq<string>>) {
    forall n :: n in done && Attach(n, m.Keys).Some? ==>
      Attach(n, m.Keys).value in m && n in m[Attach(n, m.Keys).value]
  }

  predicate Progress(done: seq<string>, m: map<string, seq<string>>) {
    KeysMatch(done, m) && EntriesFrom(done, m) && SubsSound(m) && SubsComplete(done, m)
  }

  lemma AttachKeepsProgress(done: seq<string>, m: map<string, seq<string>>, n: string, k: string)
    requires Progress(done, m)
    requires n !in done && k in m && Attach(n, m.Keys) == Some(k)
    ensures Progress(done + [n], m[k := m[k] + [n]])
  {
    var m' := m[k := m[k] + [n]];
    assert m'.Keys == m.Keys;
    assert n !in m;
    forall x | x in done + [n] ensures (x in m' <==> Attach(x, m'.Keys).None?) {
      if x != n {
        assert x in done;
      }
    }
    assert n !in m[k];
    forall j | j in m' ensures j in done + [n] && Distinct(m'[j]) {
      assert j in done && Distinct(m[j]);
    }
    forall j, x | j in m' && x in m'[j] ensures x in done + [n] && Attach(x, m'.Keys) == Some(j) {
      if x != n || j != k {
        assert x in m[j];
      }
    }
    forall x | x in done + [n] && Attach(x, m'.Keys).Some?
      ensures Attach(x, m'.Keys).value in m' && x in m'[Attach(x, m'.Keys).value]
    {
      if x != n {
        assert x in done;
      }
    }
  }

  lemma NewRootKeepsProgress(done: seq<string>, m: map<string, seq<string>>, n: string)
    requires Progress(done, m)
    requires n !in done && Attach(n, m.Keys).None?
    requires forall x :: x in done ==> |x| <= |n|
    ensures Progress(done + [n], m[n := []])
  {
    var m' := m[n := []];
    assert m'.Keys == m.Keys + {n};
    AttachIgnoresLongerKey(n, m.Keys, n);
    forall x | x in done + [n] ensures (x in m' <==> Attach(x, m'.Keys).None?) {
      AttachIgnoresLongerKey(x, m.Keys, n);
      if x != n {
        assert x in done;
      }
    }
    forall j | j in m' ensures j in done + [n] && Distinct(m'[j]) {
      if j != n {
        assert j in done && Distinct(m[j]);
      }
    }
    forall j, x | j in m' && x in m'[j] ensures x in done + [n] && Attach(x, m'.Keys) == Some(j) {
      assert j != n && x in m[j] && x in done;
      AttachIgnoresLongerKey(x, m.Keys, n);
    }
    forall x | x in done + [n] && Attach(x, m'.Keys).Some?
      ensures Attach(x, m'.Keys).value in m' && x in m'[Attach(x, m'.Keys).value]
    {
      AttachIgnoresLongerKey(x, m.Keys, n);
      assert x in done;
      var k := Attach(x, m.Keys).value;
      if k == n {
        AttachedToShortestRoot(x, m.Keys);
        assert false;
      }
      assert x in m[k];
    }
  }

  /** What the sort gives the loop at step i. */
  lemma SortedPrefix(names: set<string>, sorted: seq<string>, i: nat)
    requires forall x :: x in sorted <==> x in names
    requires Distinct(sorted) && AscendingBy(sorted, Len)
    requires i < |sorted|
    ensures sorted[..i + 1] == sorted[..i] + [sorted[i]]
    ensures sorted[i] !in sorted[..i]
    ensures forall x :: x in sorted[..i] ==> |x| <= |sorted[i]|
  {
    forall x | x in sorted[..i] ensures |x| <= |sorted[i]| && x != sorted[i] {
      var j :| 0 <= j < i && sorted[j] == x;
      assert Len(sorted[j]) <= Len(sorted[i]);
    }
  }

  /** `convert_command_set_to_map`: sort by length, then push each name onto the vector of
      the first key among its dash-prefixes, or insert it with an empty vector. */
  method ConvertCommandSetToMap(names: set<string>) returns (m: map<string, seq<string>>)
    ensures Grouped(names, m)
  {
    var sorted := SortByKey(names, Len);
    m := map[];
    var i := 0;
    while i < |sorted|
      invariant 0 <= i <= |sorted|
      invariant Progress(sorted[..i], m)
    {
      var command := sorted[i];
      ghost var done := sorted[..i];
      SortedPrefix(names, sorted, i);
      var key := FindKeyFromCommand(command, m);
      assert forall k :: k in m ==> k in done && |k| <= |command|;
      assert Attach(command, m.Keys) == key;
      if key.Some? {
        AttachKeepsProgress(done, m, command, key.value);
        m := m[key.value := m[key.value] + [command]];
      } else {
        NewRootKeepsProgress(done, m, command);
        m := m[command := []];
      }
      i := i + 1;
    }
    assert sorted[..|sorted|] == sorted;
    ProgressIsGrouped(names, sorted, m);
  }

  lemma ProgressIsGrouped(names: set<string>, done: seq<string>, m: map<string, seq<string>>)
    requires Progress(done, m)
    requires forall x :: x in done <==> x in names
    ensures Grouped(names, m)
  {
    forall n | n in names ensures n in m.Keys <==> Attach(n, m.Keys).None? {
      assert n in done;
    }
  }

  /** Every name appears exactly once: as a key and in no vector, or in exactly one
      key's vector. */
  lemma Partition(names: set<string>, m: map<string, seq<string>>, n: string)
    requires Grouped(names, m)
    requires n in names
    ensures n in m ==> forall k :: k in m ==> n !in m[k]
    ensures n !in m ==> exists k :: k in m && n in m[k]
    ensures forall k1, k2 :: k1 in m && k2 in m && n in m[k1] && n in m[k2] ==> k1 == k2
  {
    var a := Attach(n, m.Keys);
    assert n in m <==> a.None?;
    if n in m {
      forall k | k in m ensures n !in m[k] {
        assert n in m[k] ==> Attach(n, m.Keys) == Some(k);
      }
    } else {
      assert a.value in m && n in m[a.value];
      forall k1, k2 | k1 in m && k2 in m && n in m[k1] && n in m[k2] ensures k1 == k2 {
        assert a == Some(k1) && a == Some(k2);
      }
    }
  }

  /** A name without a dash is never listed under a key, unless the empty name was
      discovered. */
  lemma NoDashNameIsNeverListed(names: set<string>, m: map<string, seq<string>>, n: string)
    requires Grouped(names, m)
    requires n in names && '-' !in n && "" !in names
    ensures n in m
    ensures forall k :: k in m ==> n !in m[k]
  {
    NoDashNameIsRoot(n, m.Keys);
    Partition(names, m, n);
  }

  /** `{a-b, a-b-c-d, a-b-c}` in any order: one key `a-b`, and both longer names are
      attached to it. */
  lemma ThreeNamesOneKey(m: map<string, seq<string>>)
    requires Grouped({"a-b", "a-b-c-d", "a-b-c"}, m)
    ensures m.Keys == {"a-b"}
    ensures "a-b-c" in m["a-b"] && "a-b-c-d" in m["a-b"] && |m["a-b"]| == 2
  {
    var names := {"a-b", "a-b-c-d", "a-b-c"};
    CandidateSamples();
    assert ValidRoots(names, {"a-b"});
    RootsAreUnique(names, m.Keys, {"a-b"});
    assert Attach("a-b-c", m.Keys) == Some("a-b");
    assert Attach("a-b-c-d", m.Keys) == Some("a-b");
    var v := m["a-b"];
    forall x | x in v ensures x == "a-b-c" || x == "a-b-c-d" {
      assert x in names && Attach(x, m.Keys) == Some("a-b");
    }
    DistinctOfTwo(v, "a-b-c", "a-b-c-d");
  }

  /** A sequence without repetition that holds two different values and nothing else has
      length two. */
  lemma DistinctOfTwo(v: seq<string>, x: string, y: string)
    requires Distinct(v) && x != y && x in v && y in v
    requires forall z :: z in v ==> z == x || z == y
    ensures |v| == 2
  {
    var i :| 0 <= i < |v| && v[i] == x;
    var j :| 0 <= j < |v| && v[j] == y;
    assert i != j;
    if |v| >= 3 {
      ThreeOfTwoRepeat(v, x, y);
    }
  }

  /** Three entries drawn from two values repeat one of them. */
  lemma ThreeOfTwoRepeat(v: seq<string>, x: string, y: string)
    requires |v| >= 3
    requires forall z :: z in v ==> z == x || z == y
    ensures exists a, b :: 0 <= a < b < 3 && v[a] == v[b]
  {
    assert v[0] in v && v[1] in v && v[2] in v;
    if v[0] == v[1] {
      assert v[0] == v[1];
    } else if v[0] == v[2] {
      assert v[0] == v[2];
    } else {
      assert v[1] == v[2];
    }
  }

  lemma CandidateSamples()
    ensures Candidates("a-b") == ["", "a"]
    ensures Candidates("a-b-c") == ["", "a", "a-b"]
    ensures Candidates("a-b-c-d") == ["", "a", "a-b", "a-b-c"]
  {
    NoDashOnlyEmptyCandidate("a");
    CandidatesAppendDash("a");
    assert "a" + "-" == "a-";
    CandidatesAppendNoDash("a-", "b");
    assert "a-" + "b" == "a-b";
    CandidatesAppendDash("a-b");
    assert "a-b" + "-" == "a-b-";
    CandidatesAppendNoDash("a-b-", "c");
    assert "a-b-" + "c" == "a-b-c";
    CandidatesAppendDash("a-b-c");
    assert "a-b-c" + "-" == "a-b-c-";
    CandidatesAppendNoDash("a-b-c-", "d");
    assert "a-b-c-" + "d" == "a-b-c-d";
  }
}
