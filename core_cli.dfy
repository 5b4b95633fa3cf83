/**
 * `lib/core/src/core/cli.rs`: grouping discovered `inc-*` binaries into root
 * commands, each carrying the binaries that extend its name as sub-commands.
 */
module CoreCli {
  import opened Wrappers
  import opened RustStr
  import opened Sorting
  import opened Discovery
  import opened Hierarchy

  /** A root command: its binary, its name without `inc-`, and its sub-commands. */
  datatype SystemCommand = SystemCommand(binary: SystemBinary, alias: string, subCommands: seq<SystemBinary>)

  function NameOf(b: SystemBinary): nat {
    |b.name|
  }

  function Names(commands: set<SystemBinary>): set<string> {
    set b | b in commands :: b.name
  }

  /** One entry of the result: a binary of the key's name, the alias, and sub-commands
      without repetition. */
  predicate EntryShape(k: string, e: SystemCommand) {
    && e.binary.name == k
    && |k| >= |AppPrefix| && e.alias == k[|AppPrefix|..]
    && Distinct(e.subCommands)
  }

  /** Every sub-command is attached to the root it is listed under. */
  predicate SubsSound(m: map<string, SystemCommand>) {
    forall k, x :: k in m && x in m[k].subCommands ==> Attach(x.name, m.Keys) == Some(k)
  }

  /** The shape `convert_command_set_to_map` produces: the keys are the one consistent
      set of root names; each entry holds a binary of that name and the alias; its
      sub-commands are exactly the binaries attached to it, each once. */
  predicate Grouped(commands: set<SystemBinary>, m: map<string, SystemCommand>) {
    && ValidRoots(Names(commands), m.Keys)
    && (forall k :: k in m ==> EntryShape(k, m[k]) && m[k].binary in commands)
    && (forall k, x :: k in m && x in m[k].subCommands ==> x in commands)
    && SubsSound(m)
    && (forall b :: b in commands && Attach(b.name, m.Keys).Some? ==>
          Attach(b.name, m.Keys).value in m && b in m[Attach(b.name, m.Keys).value].subCommands)
  }

  /** `find_key_from_command`: the first dash-prefix of the name that is a key of the map. */
  method FindKeyFromCommand(command: SystemBinary, m: map<string, SystemCommand>) returns (r: Option<string>)
    ensures r == FindKey(command.name, m.Keys)
  {
    var parts := Split(command.name, '-');
    ghost var cands := Candidates(command.name);
    CandidatesAreSplitPrefixes(command.name);
    var i := 0;
    while i < |parts|
      invariant 0 <= i <= |parts|
      invariant forall j :: 0 <= j < i ==> cands[j] !in m
    {
      var joint := Join(parts[..i], '-');
      if joint in m {
        assert cands[i] == joint;
        return Some(joint);
      }
      i := i + 1;
    }
    return None;
  }

  // What the grouping loop keeps true of the binaries `done` processed so far.

  /** A processed binary's name is a key exactly when no key claims it. */
  predicate KeysMatch(done: seq<SystemBinary>, m: map<string, SystemCommand>) {
    forall b :: b in done ==> (b.name in m <==> Attach(b.name, m.Keys).None?)
  }

  /** Entries are well formed and hold only processed binaries. */
  predicate EntriesFrom(done: seq<SystemBinary>, m: map<string, SystemCommand>) {
    && (forall k :: k in m ==> EntryShape(k, m[k]) && m[k].binary in done)
    && (forall k, x :: k in m && x in m[k].subCommands ==> x in done)
  }

  /** Every processed binary that a key claims is listed under that key. */
  predicate SubsComplete(done: seq<SystemBinary>, m: map<string, SystemCommand>) {
    forall b :: b in done && Attach(b.name, m.Keys).Some? ==>
      Attach(b.name, m.Keys).value in m && b in m[Attach(b.name, m.Keys).value].subCommands
  }

  function AttachTo(m: map<string, SystemCommand>, k: string, b: SystemBinary): map<string, SystemCommand>
    requires k in m
  {
    m[k := m[k].(subCommands := m[k].subCommands + [b])]
  }

  function NewRoot(m: map<string, SystemCommand>, b: SystemBinary): map<string, SystemCommand>
    requires |b.name| >= |AppPrefix|
  {
    m[b.name := SystemCommand(b, b.name[|AppPrefix|..], [])]
  }

  /** Everything the grouping loop keeps true of the binaries `done` processed so far. */
  predicate Progress(done: seq<SystemBinary>, m: map<string, SystemCommand>) {
    KeysMatch(done, m) && EntriesFrom(done, m) && SubsSound(m) && SubsComplete(done, m)
  }

  /** One step of the loop: attach the next, no shorter binary to the root that claims it,
      or make it a new root when none does. */
  lemma StepKeepsProgress(done: seq<SystemBinary>, m: map<string, SystemCommand>, b: SystemBinary, key: Option<string>)
    requires Progress(done, m)
    requires b !in done && |b.name| >= |AppPrefix|
    requires forall x :: x in done ==> |x.name| <= |b.name|
    requires key == Attach(b.name, m.Keys)
    ensures key.Some? ==> key.value in m && Progress(done + [b], AttachTo(m, key.value, b))
    ensures key.None? ==> Progress(done + [b], NewRoot(m, b))
  {
    if key.Some? {
      var k := key.value;
      AttachedToShortestRoot(b.name, m.Keys);
      AttachKeepsKeysMatch(done, m, b, k);
      AttachKeepsEntries(done, m, b, k);
      AttachKeepsSubs(done, m, b, k);
    } else {
      NewRootKeepsKeysMatch(done, m, b);
      NewRootKeepsEntries(done, m, b);
      NewRootKeepsSubs(done, m, b);
    }
  }

  lemma AttachKeepsKeysMatch(done: seq<SystemBinary>, m: map<string, SystemCommand>, b: SystemBinary, k: string)
    requires KeysMatch(done, m) && EntriesFrom(done, m)
    requires k in m && Attach(b.name, m.Keys) == Some(k)
    ensures KeysMatch(done + [b], AttachTo(m, k, b))
  {
    var m' := AttachTo(m, k, b);
    assert m'.Keys == m.Keys;
    assert b.name !in m;
    forall x | x in done + [b] ensures (x.name in m' <==> Attach(x.name, m'.Keys).None?) {
      if x != b {
        assert x in done;
      }
    }
  }

  lemma AttachKeepsEntries(done: seq<SystemBinary>, m: map<string, SystemCommand>, b: SystemBinary, k: string)
    requires EntriesFrom(done, m)
    requires b !in done && k in m
    ensures EntriesFrom(done + [b], AttachTo(m, k, b))
  {
    var m' := AttachTo(m, k, b);
    assert b !in m[k].subCommands;
    forall j | j in m' ensures EntryShape(j, m'[j]) && m'[j].binary in done + [b] {
      assert EntryShape(j, m[j]);
    }
  }

  lemma AttachKeepsSubs(done: seq<SystemBinary>, m: map<string, SystemCommand>, b: SystemBinary, k: string)
    requires SubsSound(m) && SubsComplete(done, m)
    requires k in m && Attach(b.name, m.Keys) == Some(k)
    ensures SubsSound(AttachTo(m, k, b)) && SubsComplete(done + [b], AttachTo(m, k, b))
  {
    var m' := AttachTo(m, k, b);
    assert m'.Keys == m.Keys;
    forall j, x | j in m' && x in m'[j].subCommands ensures Attach(x.name, m'.Keys) == Some(j) {
      if x != b || j != k {
        assert x in m[j].subCommands;
      }
    }
    forall x | x in done + [b] && Attach(x.name, m'.Keys).Some?
      ensures Attach(x.name, m'.Keys).value in m' && x in m'[Attach(x.name, m'.Keys).value].subCommands
    {
      if x != b {
        assert x in done;
      }
    }
  }

  lemma NewRootKeepsKeysMatch(done: seq<SystemBinary>, m: map<string, SystemCommand>, b: SystemBinary)
    requires KeysMatch(done, m)
    requires |b.name| >= |AppPrefix| && Attach(b.name, m.Keys).None?
    requires forall x :: x in done ==> |x.name| <= |b.name|
    ensures KeysMatch(done + [b], NewRoot(m, b))
  {
    var m' := NewRoot(m, b);
    assert m'.Keys == m.Keys + {b.name};
    forall x | x in done + [b] ensures (x.name in m' <==> Attach(x.name, m'.Keys).None?) {
      AttachIgnoresLongerKey(x.name, m.Keys, b.name);
      if x != b && x.name != b.name {
        assert x in done;
      }
    }
  }

  lemma NewRootKeepsEntries(done: seq<SystemBinary>, m: map<string, SystemCommand>, b: SystemBinary)
    requires EntriesFrom(done, m)
    requires |b.name| >= |AppPrefix|
    ensures EntriesFrom(done + [b], NewRoot(m, b))
  {
    var m' := NewRoot(m, b);
    forall j | j in m' ensures EntryShape(j, m'[j]) && m'[j].binary in done + [b] {
      if j != b.name {
        assert EntryShape(j, m[j]);
      }
    }
  }

  lemma NewRootKeepsSubs(done: seq<SystemBinary>, m: map<string, SystemCommand>, b: SystemBinary)
    requires SubsSound(m) && SubsComplete(done, m) && EntriesFrom(done, m)
    requires |b.name| >= |AppPrefix| && Attach(b.name, m.Keys).None?
    requires forall x :: x in done ==> |x.name| <= |b.name|
    ensures SubsSound(NewRoot(m, b)) && SubsComplete(done + [b], NewRoot(m, b))
  {
    var n := b.name;
    var m' := NewRoot(m, b);
    assert m'.Keys == m.Keys + {n};
    forall j, x | j in m' && x in m'[j].subCommands ensures Attach(x.name, m'.Keys) == Some(j) {
      assert j != n && x in m[j].subCommands && x in done;
      AttachIgnoresLongerKey(x.name, m.Keys, n);
    }
    forall x | x in done + [b] && Attach(x.name, m'.Keys).Some?
      ensures Attach(x.name, m'.Keys).value in m' && x in m'[Attach(x.name, m'.Keys).value].subCommands
    {
      AttachIgnoresLongerKey(x.name, m.Keys, n);
      assert x in done;
      var k := Attach(x.name, m.Keys).value;
      if k == n {
        AttachedToShortestRoot(x.name, m.Keys);
        assert false;
      }
      assert x in m[k].subCommands;
    }
  }

  /** `convert_command_set_to_map`: sort by name length, then attach each binary to the
      first root key among its dash-prefixes, or make it a new root. */
  method ConvertCommandSetToMap(commands: set<SystemBinary>) returns (m: map<string, SystemCommand>)
    requires forall b :: b in commands ==> |b.name| >= |AppPrefix|
    ensures Grouped(commands, m)
  {
    var sorted := SortByKey(commands, NameOf);
    m := map[];
    var i := 0;
    while i < |sorted|
      invariant 0 <= i <= |sorted|
      invariant Progress(sorted[..i], m)
    {
      var command := sorted[i];
      ghost var done := sorted[..i];
      SortedPrefix(commands, sorted, i);
      var key := FindKeyFromCommand(command, m);
      assert Attach(command.name, m.Keys) == key;
      StepKeepsProgress(done, m, command, key);
      if key.Some? {
        m := AttachTo(m, key.value, command);
      } else {
        m := NewRoot(m, command);
      }
      i := i + 1;
    }
    assert sorted[..|sorted|] == sorted;
    ProgressIsGrouped(commands, sorted, m);
  }

  /** What the sort gives the loop at step i: the next binary is new, long enough for the
      prefix to be cut, and no shorter than any binary before it. */
  lemma SortedPrefix(commands: set<SystemBinary>, sorted: seq<SystemBinary>, i: nat)
    requires forall b :: b in commands ==> |b.name| >= |AppPrefix|
    requires forall x :: x in sorted <==> x in commands
    requires Distinct(sorted) && AscendingBy(sorted, NameOf)
    requires i < |sorted|
    ensures sorted[..i + 1] == sorted[..i] + [sorted[i]]
    ensures sorted[i] !in sorted[..i] && |sorted[i].name| >= |AppPrefix|
    ensures forall x :: x in sorted[..i] ==> |x.name| <= |sorted[i].name|
  {
    assert sorted[i] in sorted;
    forall x | x in sorted[..i] ensures |x.name| <= |sorted[i].name| && x != sorted[i] {
      var j :| 0 <= j < i && sorted[j] == x;
      assert NameOf(sorted[j]) <= NameOf(sorted[i]);
    }
  }

  lemma ProgressIsGrouped(commands: set<SystemBinary>, done: seq<SystemBinary>, m: map<string, SystemCommand>)
    requires Progress(done, m)
    requires forall x :: x in done <==> x in commands
    ensures Grouped(commands, m)
  {
    forall k | k in m ensures k in Names(commands) {
      assert EntryShape(k, m[k]) && m[k].binary in commands;
    }
    forall n | n in Names(commands) ensures n in m.Keys <==> Attach(n, m.Keys).None? {
      var b :| b in commands && b.name == n;
      assert b in done;
    }
  }

  /** With distinct names, every binary is either the value of its own root entry and in
      no sub-command list, or in exactly one root's sub-commands. */
  lemma Partition(commands: set<SystemBinary>, m: map<string, SystemCommand>, b: SystemBinary)
    requires forall x, y :: x in commands && y in commands && x.name == y.name ==> x == y
    requires Grouped(commands, m)
    requires b in commands
    ensures b.name in m ==> m[b.name].binary == b && forall k :: k in m ==> b !in m[k].subCommands
    ensures b.name !in m ==> exists k :: k in m && b in m[k].subCommands
    ensures forall k1, k2 :: k1 in m && k2 in m && b in m[k1].subCommands && b in m[k2].subCommands ==> k1 == k2
  {
    assert b.name in Names(commands);
    var a := Attach(b.name, m.Keys);
    assert b.name in m <==> a.None?;
    if b.name in m {
      var e := m[b.name];
      assert EntryShape(b.name, e) && e.binary in commands;
      forall k | k in m ensures b !in m[k].subCommands {
        assert b in m[k].subCommands ==> Attach(b.name, m.Keys) == Some(k);
      }
    } else {
      assert a.value in m && b in m[a.value].subCommands;
      forall k1, k2 | k1 in m && k2 in m && b in m[k1].subCommands && b in m[k2].subCommands
        ensures k1 == k2
      {
        assert a == Some(k1) && a == Some(k2);
      }
    }
  }

  /** Two binaries of the same name, found in two directories, share one fate: a single
      key holding one binary of that name, or the same root's sub-commands. */
  lemma SameNameOneKey(commands: set<SystemBinary>, m: map<string, SystemCommand>, b1: SystemBinary, b2: SystemBinary)
    requires Grouped(commands, m)
    requires b1 in commands && b2 in commands && b1.name == b2.name
    ensures b1.name in m ==> m[b1.name].binary.name == b1.name && m[b1.name].binary in commands
    ensures b1.name in m ==> forall k :: k in m ==> b1 !in m[k].subCommands && b2 !in m[k].subCommands
    ensures b1.name !in m ==> exists k :: k in m && b1 in m[k].subCommands && b2 in m[k].subCommands
  {
    assert b1.name in Names(commands);
    var a := Attach(b1.name, m.Keys);
    if b1.name in m {
      assert EntryShape(b1.name, m[b1.name]);
      forall k | k in m ensures b1 !in m[k].subCommands && b2 !in m[k].subCommands {
        assert b1 in m[k].subCommands || b2 in m[k].subCommands ==> a == Some(k);
      }
    } else {
      assert a.value in m && b1 in m[a.value].subCommands && b2 in m[a.value].subCommands;
    }
  }

  /** A satellite's root name is strictly shorter than the satellite's own name, and a
      dash-prefix of it. */
  lemma SatelliteRootIsShorter(commands: set<SystemBinary>, m: map<string, SystemCommand>, k: string, b: SystemBinary)
    requires Grouped(commands, m)
    requires k in m && b in m[k].subCommands
    ensures |k| < |b.name| && StartsWith(b.name, k + "-")
  {
    assert Attach(b.name, m.Keys) == Some(k);
    AttachedToShortestRoot(b.name, m.Keys);
    assert EntryShape(k, m[k]);
  }

  /** `{inc-a-b, inc-a-b-c, inc-a-b-c-d}`, whatever the paths: the only consistent root
      set is `{inc-a-b}`, and both longer names are attached to it. */
  lemma ThreeNamesOneRoot(roots: set<string>)
    requires ValidRoots({"inc-a-b", "inc-a-b-c", "inc-a-b-c-d"}, roots)
    ensures roots == {"inc-a-b"}
    ensures Attach("inc-a-b-c", roots) == Some("inc-a-b")
    ensures Attach("inc-a-b-c-d", roots) == Some("inc-a-b")
  {
    var names := {"inc-a-b", "inc-a-b-c", "inc-a-b-c-d"};
    CandidateSamples();
    assert ValidRoots(names, {"inc-a-b"});
    RootsAreUnique(names, roots, {"inc-a-b"});
  }

  lemma CandidateSamples()
    ensures Candidates("inc-a-b") == ["", "inc", "inc-a"]
    ensures Candidates("inc-a-b-c") == ["", "inc", "inc-a", "inc-a-b"]
    ensures Candidates("inc-a-b-c-d") == ["", "inc", "inc-a", "inc-a-b", "inc-a-b-c"]
  {
    NoDashOnlyEmptyCandidate("inc");
    CandidatesAppendDash("inc");
    assert "inc" + "-" == "inc-";
    CandidatesAppendNoDash("inc-", "a");
    assert "inc-" + "a" == "inc-a";
    CandidatesAppendDash("inc-a");
    assert "inc-a" + "-" == "inc-a-";
    CandidatesAppendNoDash("inc-a-", "b");
    assert "inc-a-" + "b" == "inc-a-b";
    CandidatesAppendDash("inc-a-b");
    assert "inc-a-b" + "-" == "inc-a-b-";
    CandidatesAppendNoDash("inc-a-b-", "c");
    assert "inc-a-b-" + "c" == "inc-a-b-c";
    CandidatesAppendDash("inc-a-b-c");
    assert "inc-a-b-c" + "-" == "inc-a-b-c-";
    CandidatesAppendNoDash("inc-a-b-c-", "d");
    assert "inc-a-b-c-" + "d" == "inc-a-b-c-d";
  }
}
