/**
 * `inc-lib/src/core/command.rs`: each discovered binary becomes a `CommandEntry`
 * whose file stem is split at its last dash into a parent command and a name
 * (`inc-checkout-service-foobar` is the `foobar` child of `inc-checkout-service`).
 * The list of entries can be filtered by parent and searched by full name.
 * The binaries themselves come from the filter in `Discovery`.
 */
module Command {
  import opened Wrappers
  import opened RustStr
  import opened RustPath
  import opened Discovery

  datatype CommandEntry = CommandEntry(name: string, parentCommand: string, binary: SystemBinary)

  /** `AvaliableCommands`: the entries in the order they were built. */
  datatype AvailableCommands = AvailableCommands(commands: seq<CommandEntry>)

  /** The text `find_command` compares against: parent, dash, name. */
  function FullName(e: CommandEntry): string {
    e.parentCommand + "-" + e.name
  }

  /** `CommandEntry::new`: the stem is split on dashes; the last piece is the name and the
      others, joined again, the parent. A path without a file stem panics. */
  function NewEntry(b: SystemBinary): (r: Fallible<CommandEntry>)
    ensures r.Done? <==> PathFileStem(b.path).Some?
    ensures r.Done? ==> r.value.binary == b && '-' !in r.value.name
  {
    match PathFileStem(b.path)
    case None => Panic("called `Option::unwrap()` on a `None` value")
    case Some(stem) =>
      var parts := Split(stem, '-');
      Done(CommandEntry(parts[|parts| - 1], Join(parts[..|parts| - 1], '-'), b))
  }

  /** The split loses nothing: with a dash in the stem, parent, dash and name give the stem
      back; without one, the parent is empty and the name is the whole stem. */
  lemma NewEntryRebuildsStem(b: SystemBinary)
    requires PathFileStem(b.path).Some?
    ensures var stem := PathFileStem(b.path).value;
            var e := NewEntry(b).value;
            if '-' in stem then FullName(e) == stem && |e.parentCommand| < |stem|
            else e.parentCommand == "" && e.name == stem
  {
    LastDashSplit(PathFileStem(b.path).value);
  }

  lemma LastDashSplit(stem: string)
    ensures var parts := Split(stem, '-');
            var parent := Join(parts[..|parts| - 1], '-');
            var name := parts[|parts| - 1];
            if '-' in stem then parent + "-" + name == stem && |parent| < |stem|
            else parent == "" && name == stem
  {
    var parts := Split(stem, '-');
    var n := |parts|;
    JoinSplit(stem, '-');
    if '-' in stem {
      JoinPrefix(parts, n - 1, '-');
      assert parts[n - 1..] == [parts[n - 1]];
    } else {
      SplitNoSep(stem, '-');
      assert parts[..0] == [];
    }
  }

  /** `find_commands_avalible`: one entry per binary, in the order the set is iterated
      (given here as `found`); a binary without a file stem panics the whole listing. */
  method FindCommandsAvailable(found: seq<SystemBinary>) returns (r: Fallible<AvailableCommands>)
    ensures r.Done? <==> forall k :: 0 <= k < |found| ==> NewEntry(found[k]).Done?
    ensures r.Done? ==> |r.value.commands| == |found|
                        && forall k :: 0 <= k < |found| ==> NewEntry(found[k]) == Done(r.value.commands[k])
  {
    var commands: seq<CommandEntry> := [];
    var i := 0;
    while i < |found|
      invariant 0 <= i <= |found| && |commands| == i
      invariant forall k :: 0 <= k < i ==> NewEntry(found[k]) == Done(commands[k])
    {
      var entry := NewEntry(found[i]);
      if entry.Panic? {
        return Panic(entry.reason);
      }
      commands := commands + [entry.value];
      i := i + 1;
    }
    return Done(AvailableCommands(commands));
  }

  /** `find_commands_with_parent`: the entries with that parent, in their original order. */
  function WithParent(commands: seq<CommandEntry>, parent: string): (r: seq<CommandEntry>)
    ensures forall e :: e in r <==> e in commands && e.parentCommand == parent
    ensures |r| <= |commands|
    decreases |commands|
  {
    if |commands| == 0 then []
    else
      var rest := WithParent(commands[..|commands| - 1], parent);
      var last := commands[|commands| - 1];
      assert forall e :: e in commands <==> e in commands[..|commands| - 1] || e == last;
      if last.parentCommand == parent then rest + [last] else rest
  }

  function FindCommandsWithParent(ac: AvailableCommands, parent: string): seq<CommandEntry> {
    WithParent(ac.commands, parent)
  }

  /** Filtering a concatenation filters each part, so the order of the entries is kept. */
  lemma {:induction false} WithParentAppend(a: seq<CommandEntry>, b: seq<CommandEntry>, parent: string)
    ensures WithParent(a + b, parent) == WithParent(a, parent) + WithParent(b, parent)
    decreases |b|
  {
    if |b| == 0 {
      assert a + b == a;
    } else {
      var b' := b[..|b| - 1];
      assert (a + b)[..|a + b| - 1] == a + b';
      WithParentAppend(a, b', parent);
    }
  }

  /** The index of the first entry whose full name is `name`. */
  function FirstNamed(commands: seq<CommandEntry>, name: string): (r: Option<nat>)
    ensures r.Some? ==> r.value < |commands| && FullName(commands[r.value]) == name
                        && forall j :: 0 <= j < r.value ==> FullName(commands[j]) != name
    ensures r.None? ==> forall j :: 0 <= j < |commands| ==> FullName(commands[j]) != name
    decreases |commands|
  {
    if |commands| == 0 then None
    else if FullName(commands[0]) == name then Some(0)
    else match FirstNamed(commands[1..], name)
      case None => None
      case Some(j) => Some(j + 1)
  }

  /** `find_command`: the first entry whose parent, dash and name spell `name`. */
  function FindCommand(ac: AvailableCommands, name: string): (r: Option<CommandEntry>)
    ensures r.Some? ==> exists i :: 0 <= i < |ac.commands| && ac.commands[i] == r.value
                          && FullName(r.value) == name
                          && forall j :: 0 <= j < i ==> FullName(ac.commands[j]) != name
    ensures r.None? <==> forall e :: e in ac.commands ==> FullName(e) != name
  {
    match FirstNamed(ac.commands, name)
    case None => None
    case Some(i) => Some(ac.commands[i])
  }

  /** Every entry built from a dashed stem is found again by its stem. */
  lemma FindCommandByStem(found: seq<SystemBinary>, ac: AvailableCommands, k: nat)
    requires |ac.commands| == |found|
    requires forall j :: 0 <= j < |found| ==> NewEntry(found[j]) == Done(ac.commands[j])
    requires k < |found| && PathFileStem(found[k].path).Some? && '-' in PathFileStem(found[k].path).value
    ensures FindCommand(ac, PathFileStem(found[k].path).value).Some?
  {
    NewEntryRebuildsStem(found[k]);
    assert ac.commands[k] in ac.commands;
  }

  /** `inc-checkout-service-foobar` is the `foobar` child of `inc-checkout-service`, which
      is how checkout service plugins are recognised. */
  lemma ServicePluginSample(dir: Path)
    ensures var b := SystemBinary(dir + ["inc-checkout-service-foobar"], "inc-checkout-service-foobar");
            NewEntry(b) == Done(CommandEntry("foobar", "inc-checkout-service", b))
  {
    var full := "inc-checkout-service-foobar";
    var b := SystemBinary(dir + [full], full);
    SampleStem();
    assert b.path[|b.path| - 1] == full;
    assert PathFileStem(b.path) == Some(full);
    SampleSplit();
  }

  lemma SampleStem()
    ensures FileStem("inc-checkout-service-foobar") == Some("inc-checkout-service-foobar")
  {
    PlainStem("inc-checkout-service-foobar");
  }

  /** A component without `/` or `.` is its own file stem. */
  lemma PlainStem(n: string)
    requires n != "" && n != ".." && '/' !in n && '.' !in n
    ensures FileStem(n) == Some(n)
  {
    FileNameOfComponent(n);
  }

  lemma SampleSplit()
    ensures var parts := Split("inc-checkout-service-foobar", '-');
            parts[|parts| - 1] == "foobar" && Join(parts[..|parts| - 1], '-') == "inc-checkout-service"
  {
    var parent := "inc-checkout-service";
    var name := "foobar";
    assert "inc-checkout-service-foobar" == parent + ['-'] + name;
    SplitAppend(parent, name, '-');
    SplitNoSep(name, '-');
    var parts := Split(parent, '-') + [name];
    assert parts[..|parts| - 1] == Split(parent, '-');
    JoinSplit(parent, '-');
  }
}
