/**
 * `lib/core/src/core/config.rs`: the older configuration loader. Project files are
 * `inc.toml` in the working directory and each directory above it; the home file is
 * `.inc.toml`. A file whose text is not TOML is skipped; one that cannot be opened or
 * read panics. The checkout default is looked up as `config.default` in the first
 * home document.
 */
module TomlConfig {
  import opened Wrappers
  import opened RustPath
  import opened ConfigWalk

  /** A TOML value. Floats carry no payload: nothing here looks at one. */
  datatype Value =
    | TString(s: string)
    | TInteger(i: int)
    | TFloat
    | TBoolean(b: bool)
    | TDatetime(text: string)
    | TArray(items: seq<Value>)
    | TTable(entries: map<string, Value>)

  /** `Value::get` with a string key: the entry of a table, nothing for any other value. */
  function Get(v: Value, key: string): (r: Option<Value>)
    ensures r.Some? <==> v.TTable? && key in v.entries
    ensures r.Some? ==> r.value == v.entries[key]
  {
    match v
    case TTable(entries) => if key in entries then Some(entries[key]) else None
    case _ => None
  }

  /** `Value::as_str`. */
  function AsStr(v: Value): (r: Option<string>)
    ensures r.Some? <==> v.TString?
    ensures r.Some? ==> r.value == v.s
  {
    match v
    case TString(s) => Some(s)
    case _ => None
  }

  datatype ConfigContainer = ConfigContainer(projectConfig: seq<Value>, homeConfig: seq<Value>)

  /** `get_checkout_configs`: `config.default` of the first home document, when it is a
      string; nothing when there is no home document or a step of the lookup fails. */
  function GetCheckoutConfigs(c: ConfigContainer): (r: Option<string>)
    ensures r.Some? <==>
              && |c.homeConfig| > 0
              && Get(c.homeConfig[0], "config").Some?
              && Get(Get(c.homeConfig[0], "config").value, "default").Some?
              && Get(Get(c.homeConfig[0], "config").value, "default").value.TString?
  {
    if |c.homeConfig| == 0 then None
    else
      match Get(c.homeConfig[0], "config")
      case None => None
      case Some(configEntry) =>
        match Get(configEntry, "default")
        case None => None
        case Some(checkoutDefault) => AsStr(checkoutDefault)
  }

  /** A home document holding `[config] default = "<name>"`, with any other keys. */
  function WithDefault(other: map<string, Value>, inner: map<string, Value>, name: string): Value {
    TTable(other["config" := TTable(inner["default" := TString(name)])])
  }

  /** The lookup finds the default written into the first home document, whatever else
      that document or the later ones hold. */
  lemma CheckoutDefaultFound(other: map<string, Value>, inner: map<string, Value>, name: string,
                             project: seq<Value>, later: seq<Value>)
    ensures GetCheckoutConfigs(ConfigContainer(project, [WithDefault(other, inner, name)] + later)) == Some(name)
  {
  }

  /** Only the first home document is consulted. */
  lemma OnlyFirstHomeConfig(c: ConfigContainer, d: ConfigContainer)
    requires |c.homeConfig| > 0 && |d.homeConfig| > 0 && c.homeConfig[0] == d.homeConfig[0]
    ensures GetCheckoutConfigs(c) == GetCheckoutConfigs(d)
  {
  }

  // ----- Finding the files -----

  /** `config_file`: `<prefix>inc.toml` in the directory, if it exists; no other name is
      tried. */
  function ConfigFile(prefix: string, dir: Path, present: Path -> bool): (r: Option<Path>)
    ensures r.Some? <==> present(dir + [prefix + "inc.toml"])
    ensures r.Some? ==> r.value == dir + [prefix + "inc.toml"] && Parent(r.value) == Some(dir)
  {
    var file := dir + [prefix + "inc.toml"];
    assert file[..|dir|] == dir;
    if present(file) then Some(file) else None
  }

  /** `search_for_home_config`: the home directory's `.inc.toml`, if any. */
  function SearchForHomeConfig(home: Option<Path>, present: Path -> bool): (r: seq<Path>)
    ensures |r| <= 1
    ensures |r| == 1 <==> home.Some? && present(home.value + [".inc.toml"])
    ensures |r| == 1 ==> r[0] == home.value + [".inc.toml"]
  {
    assert "." + "inc.toml" == ".inc.toml";
    match home
    case None => []
    case Some(dir) =>
      match ConfigFile(".", dir, present)
      case Some(f) => [f]
      case None => []
  }

  /** What `config_file("", dir)` finds in each directory. */
  function ProjectProbe(present: Path -> bool): Path -> Option<Path> {
    d => ConfigFile("", d, present)
  }

  /** The project files are found directly inside the directory probed. */
  lemma ProjectProbeChildren(present: Path -> bool)
    ensures ProbesChildren(ProjectProbe(present))
  {
    forall d | ProjectProbe(present)(d).Some?
      ensures Parent(ProjectProbe(present)(d).value) == Some(d)
    {
      assert ProjectProbe(present)(d) == ConfigFile("", d, present);
    }
  }

  /** `search_up_for_config_files`: from the working directory to the root, collecting
      each directory's `inc.toml`; nothing when the working directory is unknown. */
  method SearchUpForConfigFiles(cwd: Option<Path>, present: Path -> bool) returns (result: seq<Path>)
    ensures cwd.None? ==> result == []
    ensures cwd.Some? ==> result == SearchUp(cwd.value, ProjectProbe(present))
  {
    if cwd.None? {
      return [];
    }
    var probe := ProjectProbe(present);
    var path := cwd.value;
    result := [];
    var atRoot := false;
    while !atRoot
      invariant atRoot ==> result == SearchUp(cwd.value, probe)
      invariant !atRoot ==> result + SearchUp(path, probe) == SearchUp(cwd.value, probe)
      decreases |path| + (if atRoot then 0 else 1)
    {
      var config := ConfigFile("", path, present);
      ghost var before := result;
      WalkStep(path, probe);
      assert probe(path) == config;
      if config.Some? {
        result := result + [config.value];
      }
      assert result == before + Here(path, probe);
      match Parent(path) {
        case Some(parentPath) =>
          Regroup(before, Here(path, probe), SearchUp(parentPath, probe));
          path := parentPath;
        case None =>
          atRoot := true;
      }
    }
  }

  // ----- Reading the files -----

  /** What happened to one file: `File::open` or `read_to_string` failed (both panic), the
      text is not TOML, or it parsed. */
  datatype TomlRead = OpenFailed | ReadFailed | Unparsable | Parsed(value: Value)

  predicate Fatal(o: TomlRead) {
    o.OpenFailed? || o.ReadFailed?
  }

  /** Some file cannot be opened or read. */
  predicate AnyFatal(files: seq<Path>, outcome: Path -> TomlRead) {
    exists j :: 0 <= j < |files| && Fatal(outcome(files[j]))
  }

  /** The parsed documents, in the order of their files. */
  function Kept(files: seq<Path>, outcome: Path -> TomlRead): seq<Value>
    decreases |files|
  {
    if |files| == 0 then []
    else
      var rest := Kept(files[..|files| - 1], outcome);
      match outcome(files[|files| - 1])
      case Parsed(v) => rest + [v]
      case _ => rest
  }

  /** The positions of the files that parsed, in increasing order. */
  function ParsedIndices(files: seq<Path>, outcome: Path -> TomlRead): (r: seq<nat>)
    ensures forall k :: 0 <= k < |r| ==> r[k] < |files| && outcome(files[r[k]]).Parsed?
    ensures forall j, k :: 0 <= j < k < |r| ==> r[j] < r[k]
    ensures forall i :: 0 <= i < |files| && outcome(files[i]).Parsed? ==> i in r
    decreases |files|
  {
    if |files| == 0 then []
    else
      var n := |files| - 1;
      var rest := ParsedIndices(files[..n], outcome);
      assert forall k :: 0 <= k < |rest| ==> files[rest[k]] == files[..n][rest[k]];
      assert forall i :: 0 <= i < n ==> files[i] == files[..n][i];
      if outcome(files[n]).Parsed? then rest + [n] else rest
  }

  /** The kept documents are exactly the parsed files' documents, picked in order: an
      order-preserving subsequence of the inputs that drops only the unparsable ones. */
  lemma {:induction false} KeptIsOrderedSubsequence(files: seq<Path>, outcome: Path -> TomlRead)
    ensures var idx := ParsedIndices(files, outcome);
            |Kept(files, outcome)| == |idx|
            && forall k :: 0 <= k < |idx| ==> Kept(files, outcome)[k] == outcome(files[idx[k]]).value
    decreases |files|
  {
    if |files| > 0 {
      var n := |files| - 1;
      KeptIsOrderedSubsequence(files[..n], outcome);
      var idx := ParsedIndices(files[..n], outcome);
      forall k | 0 <= k < |idx|
        ensures files[idx[k]] == files[..n][idx[k]]
      {
      }
    }
  }

  /** What the lenient `collapse_the_configs` returns: a panic if some file cannot be
      opened or read, otherwise the parsed documents in order. */
  function Collapse(files: seq<Path>, outcome: Path -> TomlRead): Fallible<seq<Value>> {
    if AnyFatal(files, outcome) then Panic("Unable to open the file") else Done(Kept(files, outcome))
  }

  /** `collapse_the_configs` with `parse_config_file`. */
  method CollapseTheConfigs(files: seq<Path>, outcome: Path -> TomlRead) returns (r: Fallible<seq<Value>>)
    ensures r.Panic? <==> Collapse(files, outcome).Panic?
    ensures r.Done? ==> r == Collapse(files, outcome)
  {
    var configs: seq<Value> := [];
    var i := 0;
    while i < |files|
      invariant 0 <= i <= |files|
      invariant forall j :: 0 <= j < i ==> !Fatal(outcome(files[j]))
      invariant configs == Kept(files[..i], outcome)
    {
      var val := files[i];
      assert files[..i + 1][..i] == files[..i];
      match outcome(val) {
        case OpenFailed =>
          assert Fatal(outcome(files[i]));
          return Panic("Unable to open the file");
        case ReadFailed =>
          assert Fatal(outcome(files[i]));
          return Panic("Unable to read the file");
        case Unparsable =>
        case Parsed(config) =>
          configs := configs + [config];
      }
      i := i + 1;
    }
    assert files[..|files|] == files;
    return Done(configs);
  }

  /** `ConfigContainer::new`: the project documents from the upward walk and the home
      document, each loaded leniently. */
  function NewContainer(cwd: Option<Path>, home: Option<Path>, present: Path -> bool,
                        outcome: Path -> TomlRead): (r: Fallible<ConfigContainer>)
    ensures r.Done? ==>
              && r.value.projectConfig == Kept(if cwd.None? then [] else SearchUp(cwd.value, ProjectProbe(present)), outcome)
              && r.value.homeConfig == Kept(SearchForHomeConfig(home, present), outcome)
              && |r.value.homeConfig| <= 1
    ensures home.None? && r.Done? ==> r.value.homeConfig == []
    // It panics exactly when a project file or the home file cannot be opened or read.
    ensures r.Panic? <==> AnyFatal(if cwd.None? then [] else SearchUp(cwd.value, ProjectProbe(present)), outcome)
                          || AnyFatal(SearchForHomeConfig(home, present), outcome)
  {
    var projectFiles := if cwd.None? then [] else SearchUp(cwd.value, ProjectProbe(present));
    match Collapse(projectFiles, outcome)
    case Panic(m) => Panic(m)
    case Done(projectConfig) =>
      var homeFiles := SearchForHomeConfig(home, present);
      match Collapse(homeFiles, outcome)
      case Panic(m) => Panic(m)
      case Done(homeConfigs) =>
        KeptIsOrderedSubsequence(homeFiles, outcome);
        Done(ConfigContainer(projectConfig, homeConfigs))
  }
}
