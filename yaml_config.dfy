/**
 * `inc-lib/src/core/config.rs`: project configuration is read from an `inc.yaml`
 * (or `inc.yml`) in the working directory and every directory above it; the
 * home directory holds `.inc.yaml` (or `.inc.yml`). The `exec` tables of the
 * project layers are merged with the closest layer winning.
 *
 * The filesystem is an input: `present` answers whether a path is present, and a
 * `FileRead` says what opening, reading and parsing one file gave.
 */
module YamlConfig {
  import opened Wrappers
  import opened RustPath
  import opened ConfigWalk

  /** One step of an exec command, after normalisation. */
  datatype CommandAndEnv = CommandAndEnv(command: string, commandEnv: map<string, string>)

  /** A step as written: a record with `command` and `env`, or a bare command string. */
  datatype Commands = CommandAndEnvStep(step: CommandAndEnv) | CommandList(text: string)

  datatype ExecCommandConfig = ExecCommandConfig(ignoreFailures: bool, description: string, commands: seq<Commands>)

  datatype ProjectConfig = ProjectConfig(exec: map<string, ExecCommandConfig>)

  datatype CheckoutConfigs = CheckoutConfigs(defaultProvider: Option<string>)

  datatype HomeConfig = HomeConfig(checkout: CheckoutConfigs)

  /** A parsed document and the file it came from, when there is one. */
  datatype ConfigWithPath<T> = ConfigWithPath(config: T, file: Option<Path>)

  datatype ConfigContainer = ConfigContainer(projectConfig: seq<ConfigWithPath<ProjectConfig>>,
                                             homeConfig: ConfigWithPath<HomeConfig>)

  /** `ExecConfig`: the merged commands and, for each, the file that defined it. */
  datatype ExecConfig = ExecConfig(commands: map<string, ExecCommandConfig>, commandDefinitions: map<string, Path>)

  /** What happened to one configuration file: `File::open` failed (the code panics), the
      read failed (the file is skipped), the YAML did not parse, or it parsed. */
  datatype FileRead<T> = OpenFailed | ReadFailed(ioError: string) | ParseFailed(error: string) | Parsed(value: T)

  /** The error `collapse_the_configs` returns: the file and the parser's message. */
  datatype ParseError = ParseError(file: Path, reason: string)

  // ----- Steps and defaults -----

  /** `Commands::to_command_and_envs`. */
  function ToCommandAndEnvs(c: Commands): (r: CommandAndEnv)
    ensures c.CommandList? ==> r == CommandAndEnv(c.text, map[])
    ensures c.CommandAndEnvStep? ==> r == c.step
  {
    match c
    case CommandAndEnvStep(step) => step
    case CommandList(text) => CommandAndEnv(text, map[])
  }

  /** Normalising is idempotent: a normalised step, written back as a record, normalises to
      itself. */
  lemma ToCommandAndEnvsIdempotent(c: Commands)
    ensures ToCommandAndEnvs(CommandAndEnvStep(ToCommandAndEnvs(c))) == ToCommandAndEnvs(c)
  {
  }

  const DefaultDescription: string := "No Description Provided"
  const DefaultIgnoreFailures: bool := false

  /** An exec entry as it appears in the document, before defaults. */
  datatype RawExecCommand = RawExecCommand(ignoreFailures: Option<bool>, description: Option<string>, commands: seq<Commands>)

  /** Deserialisation of an exec entry: absent fields take their defaults. */
  function WithDefaults(raw: RawExecCommand): (r: ExecCommandConfig)
    ensures r.ignoreFailures == (raw.ignoreFailures.Some? && raw.ignoreFailures.value)
    ensures raw.description.None? ==> r.description == DefaultDescription
    ensures raw.description.Some? ==> r.description == raw.description.value
    ensures r.commands == raw.commands
  {
    ExecCommandConfig(raw.ignoreFailures.GetOr(DefaultIgnoreFailures),
                      raw.description.GetOr(DefaultDescription),
                      raw.commands)
  }

  /** Serialisation writes every field. */
  function Written(c: ExecCommandConfig): RawExecCommand {
    RawExecCommand(Some(c.ignoreFailures), Some(c.description), c.commands)
  }

  /** Reading back what was written gives the same entry. */
  lemma WithDefaultsOfWritten(c: ExecCommandConfig)
    ensures WithDefaults(Written(c)) == c
  {
  }

  // ----- Finding the files -----

  /** `config_file`: `<prefix>inc.yaml` in the directory if it exists, else
      `<prefix>inc.yml` if that exists. */
  function ConfigFile(prefix: string, dir: Path, present: Path -> bool): (r: Option<Path>)
    ensures present(dir + [prefix + "inc.yaml"]) ==> r == Some(dir + [prefix + "inc.yaml"])
    ensures !present(dir + [prefix + "inc.yaml"]) ==>
              r == (if present(dir + [prefix + "inc.yml"]) then Some(dir + [prefix + "inc.yml"]) else None)
    ensures r.Some? ==> Parent(r.value) == Some(dir) && present(r.value)
  {
    var yaml := dir + [prefix + "inc.yaml"];
    var yml := dir + [prefix + "inc.yml"];
    assert yaml[..|dir|] == dir && yml[..|dir|] == dir;
    if present(yaml) then Some(yaml)
    else if present(yml) then Some(yml)
    else None
  }

  /** `search_for_home_config`: the home directory's `.inc.yaml` or `.inc.yml`, if any. */
  function SearchForHomeConfig(home: Option<Path>, present: Path -> bool): (r: seq<Path>)
    ensures |r| <= 1
    ensures |r| == 1 <==> home.Some? && ConfigFile(".", home.value, present).Some?
    ensures |r| == 1 ==> r[0] == ConfigFile(".", home.value, present).value
  {
    match home
    case None => []
    case Some(dir) =>
      match ConfigFile(".", dir, present)
      case Some(f) => [f]
      case None => []
  }

  /** What `config_file("", dir)` finds in each directory. */
  function ProjectProbe(present: Path -> bool): Path -> Option<Path> {
    d => ConfigFile("", d, present)
  }

  /** The project files are found directly inside the directory probed. */
  lemma ProjectProbeChildren(present: Path -> bool)
    ensures ProbesChildren(ProjectProbe(present))
  {
    forall d | ProjectProbe(present)(d).Some?
      ensures Parent(ProjectProbe(present)(d).value) == Some(d)
    {
      assert ProjectProbe(present)(d) == ConfigFile("", d, present);
    }
  }

  /** `search_up_for_config_files`: from the working directory to the root, collecting
      each directory's file; nothing when the working directory is unknown. */
  method SearchUpForConfigFiles(cwd: Option<Path>, present: Path -> bool) returns (result: seq<Path>)
    ensures cwd.None? ==> result == []
    ensures cwd.Some? ==> result == SearchUp(cwd.value, ProjectProbe(present))
  {
    if cwd.None? {
      return [];
    }
    var probe := ProjectProbe(present);
    var path := cwd.value;
    result := [];
    var atRoot := false;
    while !atRoot
      invariant atRoot ==> result == SearchUp(cwd.value, probe)
      invariant !atRoot ==> result + SearchUp(path, probe) == SearchUp(cwd.value, probe)
      decreases |path| + (if atRoot then 0 else 1)
    {
      var here := ConfigFile("", path, present);
      ghost var before := result;
      WalkStep(path, probe);
      assert probe(path) == here;
      if here.Some? {
        result := result + [here.value];
      }
      assert result == before + Here(path, probe);
      match Parent(path) {
        case Some(parentPath) =>
          Regroup(before, Here(path, probe), SearchUp(parentPath, probe));
          path := parentPath;
        case None =>
          atRoot := true;
      }
    }
  }

  // ----- Reading the files -----

  predicate IsProblem<T>(o: FileRead<T>) {
    o.OpenFailed? || o.ParseFailed?
  }

  /** The first file that stops the load: one that cannot be opened or does not parse. */
  function FirstProblem<T>(files: seq<Path>, outcome: Path -> FileRead<T>): (r: Option<nat>)
    ensures r.Some? ==> r.value < |files| && IsProblem(outcome(files[r.value]))
                        && forall j :: 0 <= j < r.value ==> !IsProblem(outcome(files[j]))
    ensures r.None? ==> forall j :: 0 <= j < |files| ==> !IsProblem(outcome(files[j]))
    decreases |files|
  {
    if |files| == 0 then None
    else if IsProblem(outcome(files[0])) then Some(0)
    else match FirstProblem(files[1..], outcome)
      case None => None
      case Some(j) => Some(j + 1)
  }

  /** The parsed files, in order, each with its path. */
  function Successes<T>(files: seq<Path>, outcome: Path -> FileRead<T>): (r: seq<ConfigWithPath<T>>)
    ensures |r| <= |files|
    ensures forall c :: c in r ==> c.file.Some? && c.file.value in files && outcome(c.file.value) == Parsed(c.config)
    decreases |files|
  {
    if |files| == 0 then []
    else
      var rest := Successes(files[..|files| - 1], outcome);
      var f := files[|files| - 1];
      assert forall g :: g in files[..|files| - 1] ==> g in files;
      match outcome(f)
      case Parsed(v) => rest + [ConfigWithPath(v, Some(f))]
      case _ => rest
  }

  /** Collecting a concatenation collects each part, so successful files keep their order. */
  lemma {:induction false} SuccessesAppend<T>(a: seq<Path>, b: seq<Path>, outcome: Path -> FileRead<T>)
    ensures Successes(a + b, outcome) == Successes(a, outcome) + Successes(b, outcome)
    decreases |b|
  {
    if |b| == 0 {
      assert a + b == a;
    } else {
      var b' := b[..|b| - 1];
      assert (a + b)[..|a + b| - 1] == a + b';
      SuccessesAppend(a, b', outcome);
    }
  }

  /** Every parsed file is kept. */
  lemma {:induction false} ParsedIsKept<T>(files: seq<Path>, outcome: Path -> FileRead<T>, k: nat)
    requires k < |files| && outcome(files[k]).Parsed?
    ensures ConfigWithPath(outcome(files[k]).value, Some(files[k])) in Successes(files, outcome)
    decreases |files|
  {
    if k < |files| - 1 {
      ParsedIsKept(files[..|files| - 1], outcome, k);
    }
  }

  /** What `collapse_the_configs` returns: the first unparsable file's error (or a panic
      if it cannot be opened), otherwise every parsed file in order. */
  function Collapse<T>(files: seq<Path>, outcome: Path -> FileRead<T>): Fallible<Result<seq<ConfigWithPath<T>>, ParseError>> {
    match FirstProblem(files, outcome)
    case None => Done(Success(Successes(files, outcome)))
    case Some(i) =>
      match outcome(files[i])
      case ParseFailed(e) => Done(Failure(ParseError(files[i], e)))
      case _ => Panic("Unable to open the file")
  }

  /** `collapse_the_configs`. */
  method CollapseTheConfigs<T>(files: seq<Path>, outcome: Path -> FileRead<T>)
    returns (r: Fallible<Result<seq<ConfigWithPath<T>>, ParseError>>)
    ensures r == Collapse(files, outcome)
  {
    var configs: seq<ConfigWithPath<T>> := [];
    var i := 0;
    while i < |files|
      invariant 0 <= i <= |files|
      invariant forall j :: 0 <= j < i ==> !IsProblem(outcome(files[j]))
      invariant configs == Successes(files[..i], outcome)
    {
      var file := files[i];
      assert files[..i + 1][..i] == files[..i];
      match outcome(file) {
        case OpenFailed =>
          return Panic("Unable to open the file");
        case ReadFailed(_) =>
        case ParseFailed(e) =>
          return Done(Failure(ParseError(file, e)));
        case Parsed(v) =>
          configs := configs + [ConfigWithPath(v, Some(file))];
      }
      i := i + 1;
    }
    assert files[..|files|] == files;
    return Done(Success(configs));
  }

  /** A successful load means no file failed to parse, and every parsed file is kept. */
  lemma CollapseSucceeds<T>(files: seq<Path>, outcome: Path -> FileRead<T>, k: nat)
    requires Collapse(files, outcome).Done? && Collapse(files, outcome).value.Success?
    requires k < |files|
    ensures !outcome(files[k]).ParseFailed? && !outcome(files[k]).OpenFailed?
    ensures outcome(files[k]).Parsed? ==>
              ConfigWithPath(outcome(files[k]).value, Some(files[k])) in Collapse(files, outcome).value.value
  {
    if outcome(files[k]).Parsed? {
      ParsedIsKept(files, outcome, k);
    }
  }

  /** A failed load names a file that did not parse, and every file before it opened and
      either parsed or could not be read. */
  lemma CollapseFailsOnFirst<T>(files: seq<Path>, outcome: Path -> FileRead<T>)
    requires Collapse(files, outcome).Done? && Collapse(files, outcome).value.Failure?
    ensures var e := Collapse(files, outcome).value.error;
            exists i :: 0 <= i < |files| && files[i] == e.file && outcome(files[i]) == ParseFailed(e.reason)
                        && forall j :: 0 <= j < i ==> outcome(files[j]).Parsed? || outcome(files[j]).ReadFailed?
  {
    var i := FirstProblem(files, outcome).value;
    assert forall j :: 0 <= j < i ==> !IsProblem(outcome(files[j]));
  }

  // ----- The container -----

  const DefaultHomeConfig: HomeConfig := HomeConfig(CheckoutConfigs(None))

  /** The home configuration in use: the first home file that parsed, else no provider. */
  function FirstHomeConfig(homes: seq<ConfigWithPath<HomeConfig>>): (r: ConfigWithPath<HomeConfig>)
    ensures |homes| == 0 ==> r == ConfigWithPath(DefaultHomeConfig, None)
    ensures |homes| > 0 ==> r == homes[0]
  {
    if |homes| == 0 then ConfigWithPath(DefaultHomeConfig, None) else homes[0]
  }

  /** `ConfigContainer::new`: project files from the upward walk, then the home file;
      the first error of either load is returned. */
  function NewContainer(cwd: Option<Path>, home: Option<Path>, present: Path -> bool,
                        project: Path -> FileRead<ProjectConfig>, homeRead: Path -> FileRead<HomeConfig>)
    : (r: Fallible<Result<ConfigContainer, ParseError>>)
    ensures r.Done? && r.value.Success? ==>
              var c := r.value.value;
              && c.projectConfig == Successes(if cwd.None? then [] else SearchUp(cwd.value, ProjectProbe(present)), project)
              && (c.homeConfig.file.None? <==> Successes(SearchForHomeConfig(home, present), homeRead) == [])
    ensures r.Done? && r.value.Success? ==>
              r.value.value.homeConfig == FirstHomeConfig(Successes(SearchForHomeConfig(home, present), homeRead))
    ensures home.None? && r.Done? && r.value.Success? ==> r.value.value.homeConfig == ConfigWithPath(DefaultHomeConfig, None)
    // The project files are loaded first: their panic or parse error is the result.
    ensures var p := Collapse(if cwd.None? then [] else SearchUp(cwd.value, ProjectProbe(present)), project);
            && (p.Panic? ==> r.Panic?)
            && (p.Done? && p.value.Failure? ==> r == Done(Failure(p.value.error)))
    // Only when they load is the home file's panic or parse error the result.
    ensures var p := Collapse(if cwd.None? then [] else SearchUp(cwd.value, ProjectProbe(present)), project);
            var h := Collapse(SearchForHomeConfig(home, present), homeRead);
            && (p.Done? && p.value.Success? && h.Panic? ==> r.Panic?)
            && (p.Done? && p.value.Success? && h.Done? && h.value.Failure? ==> r == Done(Failure(h.value.error)))
            && (r.Done? && r.value.Success? <==> p.Done? && p.value.Success? && h.Done? && h.value.Success?)
  {
    var projectFiles := if cwd.None? then [] else SearchUp(cwd.value, ProjectProbe(present));
    match Collapse(projectFiles, project)
    case Panic(m) => Panic(m)
    case Done(Failure(e)) => Done(Failure(e))
    case Done(Success(projectConfig)) =>
      match Collapse(SearchForHomeConfig(home, present), homeRead)
      case Panic(m) => Panic(m)
      case Done(Failure(e)) => Done(Failure(e))
      case Done(Success(homes)) =>
        assert homes == Successes(SearchForHomeConfig(home, present), homeRead);
        assert |homes| > 0 ==> homes[0] in homes;
        Done(Success(ConfigContainer(projectConfig, FirstHomeConfig(homes))))
  }

  // ----- Merging the exec tables -----

  /** The index of the first layer that defines `key`. */
  function FirstDefining(layers: seq<ConfigWithPath<ProjectConfig>>, key: string): (r: Option<nat>)
    ensures r.Some? ==> r.value < |layers| && key in layers[r.value].config.exec
                        && forall j :: 0 <= j < r.value ==> key !in layers[j].config.exec
    ensures r.None? ==> forall j :: 0 <= j < |layers| ==> key !in layers[j].config.exec
    decreases |layers|
  {
    if |layers| == 0 then None
    else match FirstDefining(layers[..|layers| - 1], key)
      case Some(i) => Some(i)
      case None => if key in layers[|layers| - 1].config.exec then Some(|layers| - 1) else None
  }

  /** The merge of the layers, earliest first: a command is present when some layer defines
      it, with the first such layer's definition, and its definition file is that layer's
      file when it has one. */
  ghost predicate MergeOf(layers: seq<ConfigWithPath<ProjectConfig>>, ec: ExecConfig) {
    && (forall k :: k in ec.commands <==> FirstDefining(layers, k).Some?)
    && (forall k :: k in ec.commands ==> ec.commands[k] == layers[FirstDefining(layers, k).value].config.exec[k])
    && (forall k :: k in ec.commandDefinitions <==>
          FirstDefining(layers, k).Some? && layers[FirstDefining(layers, k).value].file.Some?)
    && (forall k :: k in ec.commandDefinitions ==>
          ec.commandDefinitions[k] == layers[FirstDefining(layers, k).value].file.value)
  }

  /** The keys a layer adds to what is merged so far: those not already present. */
  function Added(ec: ExecConfig, layer: ConfigWithPath<ProjectConfig>): map<string, ExecCommandConfig> {
    map k | k in layer.config.exec && k !in ec.commands :: layer.config.exec[k]
  }

  /** Each of the keys mapped to the same file. */
  function FileFor(keys: set<string>, file: Path): map<string, Path> {
    map k | k in keys :: file
  }

  /** One layer merged under the earlier ones: its new keys, and their file when it has one. */
  function AddLayer(ec: ExecConfig, layer: ConfigWithPath<ProjectConfig>): ExecConfig {
    var added := Added(ec, layer);
    ExecConfig(ec.commands + added,
               if layer.file.Some? then ec.commandDefinitions + FileFor(added.Keys, layer.file.value)
               else ec.commandDefinitions)
  }

  /** The layers merged earliest first. */
  function Merge(layers: seq<ConfigWithPath<ProjectConfig>>): ExecConfig
    decreases |layers|
  {
    if |layers| == 0 then ExecConfig(map[], map[])
    else AddLayer(Merge(layers[..|layers| - 1]), layers[|layers| - 1])
  }

  lemma FirstDefiningSnoc(prefix: seq<ConfigWithPath<ProjectConfig>>, last: ConfigWithPath<ProjectConfig>, key: string)
    ensures FirstDefining(prefix + [last], key) ==
              if FirstDefining(prefix, key).Some? then FirstDefining(prefix, key)
              else if key in last.config.exec then Some(|prefix|) else None
  {
    assert (prefix + [last])[..|prefix|] == prefix;
  }

  /** The merge is first-seen-wins: each command comes from the first layer defining it,
      along with that layer's file. */
  lemma {:induction false} MergeIsFirstSeenWins(layers: seq<ConfigWithPath<ProjectConfig>>)
    ensures MergeOf(layers, Merge(layers))
    decreases |layers|
  {
    if |layers| > 0 {
      var prefix := layers[..|layers| - 1];
      var last := layers[|layers| - 1];
      assert layers == prefix + [last];
      MergeIsFirstSeenWins(prefix);
      var after := Merge(layers);
      forall k
        ensures k in after.commands <==> FirstDefining(layers, k).Some?
        ensures k in after.commands ==> after.commands[k] == layers[FirstDefining(layers, k).value].config.exec[k]
        ensures k in after.commandDefinitions <==>
                  FirstDefining(layers, k).Some? && layers[FirstDefining(layers, k).value].file.Some?
        ensures k in after.commandDefinitions ==>
                  after.commandDefinitions[k] == layers[FirstDefining(layers, k).value].file.value
      {
        MergeStepAt(prefix, last, k);
      }
    }
  }

  /** One more layer keeps the merge first-seen-wins, key by key. */
  lemma MergeStepAt(prefix: seq<ConfigWithPath<ProjectConfig>>, last: ConfigWithPath<ProjectConfig>, k: string)
    requires MergeOf(prefix, Merge(prefix))
    ensures var layers := prefix + [last];
            var after := Merge(layers);
            && (k in after.commands <==> FirstDefining(layers, k).Some?)
            && (k in after.commands ==> after.commands[k] == layers[FirstDefining(layers, k).value].config.exec[k])
            && (k in after.commandDefinitions <==>
                  FirstDefining(layers, k).Some? && layers[FirstDefining(layers, k).value].file.Some?)
            && (k in after.commandDefinitions ==>
                  after.commandDefinitions[k] == layers[FirstDefining(layers, k).value].file.value)
  {
    var layers := prefix + [last];
    assert layers[..|layers| - 1] == prefix;
    FirstDefiningSnoc(prefix, last, k);
    var first := FirstDefining(prefix, k);
    if first.Some? {
      assert layers[first.value] == prefix[first.value];
    }
  }

  /** A layer cut down to the keys already visited. */
  function Visited(layer: ConfigWithPath<ProjectConfig>, keys: set<string>): ConfigWithPath<ProjectConfig> {
    ConfigWithPath(ProjectConfig(map k | k in layer.config.exec && k in keys :: layer.config.exec[k]), layer.file)
  }

  /** Visiting one more key of a layer inserts it, with the layer's file, unless an earlier
      layer already has it. */
  lemma VisitKey(ec: ExecConfig, layer: ConfigWithPath<ProjectConfig>, done: set<string>, key: string)
    requires key in layer.config.exec && key !in done
    ensures var now := AddLayer(ec, Visited(layer, done));
            AddLayer(ec, Visited(layer, done + {key})) ==
              if key in now.commands then now
              else ExecConfig(now.commands[key := layer.config.exec[key]],
                              if layer.file.Some? then now.commandDefinitions[key := layer.file.value]
                              else now.commandDefinitions)
  {
    var a := Added(ec, Visited(layer, done));
    AddedStep(ec, layer, done, key);
    assert key !in a;
    if key !in ec.commands {
      var v := layer.config.exec[key];
      assert ec.commands + a[key := v] == (ec.commands + a)[key := v];
      if layer.file.Some? {
        FileForInsert(ec.commandDefinitions, a, key, v, layer.file.value);
      }
    }
  }

  lemma FileForInsert(defs: map<string, Path>, a: map<string, ExecCommandConfig>, key: string,
                      v: ExecCommandConfig, f: Path)
    ensures defs + FileFor(a[key := v].Keys, f) == (defs + FileFor(a.Keys, f))[key := f]
  {
    assert a[key := v].Keys == a.Keys + {key};
    assert FileFor(a.Keys + {key}, f) == FileFor(a.Keys, f)[key := f];
  }

  lemma AddedStep(ec: ExecConfig, layer: ConfigWithPath<ProjectConfig>, done: set<string>, key: string)
    requires key in layer.config.exec && key !in done
    ensures key !in Added(ec, Visited(layer, done))
    ensures Added(ec, Visited(layer, done + {key})) ==
              if key in ec.commands then Added(ec, Visited(layer, done))
              else Added(ec, Visited(layer, done))[key := layer.config.exec[key]]
  {
  }

  /** Once every key of the layer is visited, the cut-down layer is the layer; with none
      visited, it adds nothing. */
  lemma VisitedBounds(ec: ExecConfig, layer: ConfigWithPath<ProjectConfig>)
    ensures Visited(layer, layer.config.exec.Keys) == layer
    ensures AddLayer(ec, Visited(layer, {})) == ec
  {
    assert Visited(layer, layer.config.exec.Keys).config.exec == layer.config.exec;
    assert Added(ec, Visited(layer, {})) == map[];
    assert ec.commands + map[] == ec.commands;
    if layer.file.Some? {
      assert FileFor({}, layer.file.value) == map[];
    }
  }

  /** `get_exec_configs`: each layer's keys are inserted unless an earlier layer already
      has them, recording the layer's file alongside. */
  method GetExecConfigs(c: ConfigContainer) returns (ec: ExecConfig)
    ensures ec == Merge(c.projectConfig)
    ensures MergeOf(c.projectConfig, ec)
  {
    var layers := c.projectConfig;
    var commandMap: map<string, ExecCommandConfig> := map[];
    var definitionMap: map<string, Path> := map[];
    var i := 0;
    while i < |layers|
      invariant 0 <= i <= |layers|
      invariant ExecConfig(commandMap, definitionMap) == Merge(layers[..i])
    {
      var layer := layers[i];
      ghost var base := Merge(layers[..i]);
      VisitedBounds(base, layer);
      var rest := layer.config.exec.Keys;
      while rest != {}
        invariant rest <= layer.config.exec.Keys
        invariant ExecConfig(commandMap, definitionMap) == AddLayer(base, Visited(layer, layer.config.exec.Keys - rest))
        decreases rest
      {
        var key :| key in rest;
        ghost var done := layer.config.exec.Keys - rest;
        VisitKey(base, layer, done, key);
        assert done + {key} == layer.config.exec.Keys - (rest - {key});
        if key !in commandMap {
          commandMap := commandMap[key := layer.config.exec[key]];
          if layer.file.Some? {
            definitionMap := definitionMap[key := layer.file.value];
          }
        }
        rest := rest - {key};
      }
      assert layer.config.exec.Keys - rest == layer.config.exec.Keys;
      assert ExecConfig(commandMap, definitionMap) == AddLayer(base, layer);
      assert layers[..i + 1][..i] == layers[..i];
      assert Merge(layers[..i + 1]) == AddLayer(base, layer);
      i := i + 1;
    }
    assert layers[..|layers|] == layers;
    MergeIsFirstSeenWins(layers);
    return ExecConfig(commandMap, definitionMap);
  }

  /** The merged keys are exactly the keys of all layers together. */
  lemma MergedKeysAreUnion(layers: seq<ConfigWithPath<ProjectConfig>>, ec: ExecConfig, key: string)
    requires MergeOf(layers, ec)
    ensures key in ec.commands <==> exists i :: 0 <= i < |layers| && key in layers[i].config.exec
  {
  }

  /** First seen wins: the closest layer that defines a key supplies its value, and a
      definition file is recorded only for keys that are present. */
  lemma ClosestLayerWins(layers: seq<ConfigWithPath<ProjectConfig>>, ec: ExecConfig, i: nat, key: string)
    requires MergeOf(layers, ec)
    requires i < |layers| && key in layers[i].config.exec
    requires forall j :: 0 <= j < i ==> key !in layers[j].config.exec
    ensures key in ec.commands && ec.commands[key] == layers[i].config.exec[key]
    ensures key in ec.commandDefinitions <==> layers[i].file.Some?
    ensures ec.commandDefinitions.Keys <= ec.commands.Keys
  {
    var f := FirstDefining(layers, key);
    assert f.Some?;
  }
}
