# inc: command discovery, configuration, checkout and exec, modelled in Dafny

`inc` is a family of command-line tools with several generations side by side in one repository:

- `inc-lib` with `inc-commands`, the newest;
- `lib/core` with `lib/commands` and `lib/impl`;
- `src/inc`;
- the `etrain` binaries.

Each generation does the same few things:

- It discovers `inc-*` executables on `PATH` and groups them into commands and sub-commands.
- It loads project and home configuration files by walking up from the working directory.
- It turns a service name and a repository into a checkout URL. Services are GitHub, Bitbucket, or a plugin binary `inc-checkout-service-<name>`.
- It recognises git URLs with a set of six regular expressions.
- It works out a checkout directory and runs `git clone <url> <directory>`.
- It runs the steps of an `exec` command from the merged project configuration, stopping at the first step that fails.
- It picks a logging level from the command line and the environment.

The model keeps one Dafny module per source file, because the generations differ in detail. For example, one YAML loader is strict where a TOML loader is lenient, and one registry is GitHub-only where another has GitHub plus Bitbucket. A few shared modules carry what the files have in common:

- `Hierarchy`: the grouping of command names.
- `ConfigWalk`: the upward directory walk.
- `GitUrl`: the URL classifier.
- `Discovery`: the per-entry discovery filter.
- `Scm`: the provider interface.

Two modules write out the parts of Rust's standard library the code relies on, with Unix rules:

- `RustStr`: `split`, `join`, `rfind`, ASCII `to_lowercase`, ASCII `trim`, `String` order, `parse::<u64>`.
- `RustPath`: `Path::parent`, `file_name`, `file_stem`.

`Sorting` holds the two sorts the tools apply to collections gathered from hash sets.

Everything outside the process becomes an input of the model:

- the directory listing (one `DirEntry` per entry, `None` for an entry `read_dir` could not read);
- the files that exist (`present: Path -> bool`);
- the outcome of reading and parsing each file;
- the working and home directories;
- what `Url::parse` gives as the path of a URL (`urlPath`);
- the random project name;
- the outcome of every child process (`Process.ChildOutcome`, or a function from command line to outcome);
- the process environment.

A Rust `panic` (an `unwrap` on `None`, an out-of-range slice) is modelled as the `Panic` outcome of `Wrappers.Fallible`. Three preconditions exclude a panic instead, because no caller in the source can reach it:

- `CoreCli.ConvertCommandSetToMap` requires every name to be at least as long as `inc-`. This excludes the `command.name[(alias_prefix.len())..]` panic (`lib/core/src/core/cli.rs:25`). Its callers pass only discovered binaries, and discovery records only names that start with `inc-` (`Discovery.RecordedFrom`).
- `StringCli.StoredName` requires its file name to start with `inc-`. Its only caller, `StringCli.ProcessDirEntry`, cuts a name only after that check (`lib/core/src/cli.rs:130`).
- `ExecCommand.BuildExtraEnv` requires the defining file, when there is one, to be a non-empty path, so that its `parent().unwrap()` cannot panic. `ExecCommand.ExecuteStep` first computes `ExecCommand.StepCallOf`, which through `ExecCommand.ExtraEnv` gives `Panic` for the root path, and calls `BuildExtraEnv` only when that succeeded.

Where the code disagrees with the tools' description or with their tests, the model follows the code:

- An external checkout service's URL is its trimmed standard output whatever its exit status. Only a failure to spawn or wait on it is an error (`inc-lib/src/exec/executor.rs:56-57`).
- A plugin URL that none of the six git patterns accepts (for example `host/org/repo`, with no `.git`) is not cloned. `IncApi.Checkout` answers "Unable to find scm for …" and `inc checkout` exits with 1.
- The test at `bin/inc/tests/inc-checkout.rs:94` expects the listing ` - github\t[default]\n - foobar`. The code sorts the sources before listing them (`bin/inc/src/bin/checkout.rs:57`), so `foobar` comes first (`BinIncCheckout.FoobarListedFirst`).
- The test `checkout_from_service` (`bin/inc/tests/inc-checkout.rs:99-116`) expects `checkout --service=foobar something-random` to succeed with a `foobar` plugin installed. The code builds the URL with the GitHub-only `build_url_from_service` of `lib/core` (`bin/inc/src/bin/checkout.rs:89-98`), so any service other than GitHub exits with 2 (`BinIncCheckout.RunCheckout`).
- The host character class `[a-zA-Z0-9\\-\\.]` of the git patterns is taken as written. Its `\\-\\` is a range from backslash to backslash, so a hyphen is not a host character. No URL's classification depends on this, because the bare `/(.+?)(\.git(/)?)` pattern already accepts everything the other five accept (`GitUrl.MatchedAnyIsGitUrl`).

## Model

| member | source | states |
|---|---|---|
| Hierarchy.Candidates | lib/core/src/core/cli.rs:45-57 | the keys a name is looked up under: always starting with the empty string, one per dash-separated prefix of the name |
| Hierarchy.CandidatesArePrefixes | lib/core/src/core/cli.rs:52-53 | every non-empty candidate is a strict prefix of the name followed by a dash, and candidates grow strictly in length |
| Hierarchy.CandidatesAreSplitPrefixes | lib/core/src/core/cli.rs:45-53 | the i-th candidate is exactly `split("-")[0..i].join("-")`, and there are as many candidates as pieces |
| Hierarchy.NoDashOnlyEmptyCandidate | lib/core/src/cli.rs:35-41 | a name with no dash has the empty string as its only candidate |
| Hierarchy.FindKey | lib/core/src/core/cli.rs:41-60 | the key found is a candidate of the name that is in the map; when none is found, no candidate is in the map |
| Hierarchy.FindKeyAgrees | lib/core/src/core/cli.rs:41-60 | the key found depends only on which of the name's candidates are keys |
| Hierarchy.AttachedToShortestRoot | lib/core/src/core/cli.rs:52-56 | a name attaches to a root that is strictly shorter, a dash-prefix of it (or empty), and no shorter candidate is a root |
| Hierarchy.AttachIgnoresLongerKey | lib/core/src/core/cli.rs:17 | a key at least as long as the name never changes where the name attaches, so equal-length names may come in any order |
| Hierarchy.RootsAreUnique | lib/core/src/core/cli.rs:12-38 | the set of roots is determined by the set of names alone: any two valid root sets of the same names are equal |
| Hierarchy.NoDashNameIsRoot | lib/core/src/cli.rs:35-41 | a name without a dash never attaches unless the empty string is a key |
| CoreCli.FindKeyFromCommand | lib/core/src/core/cli.rs:41-60 | the loop over `split("-")` returns the first candidate that is a key, which is `Hierarchy.FindKey` |
| CoreCli.ConvertCommandSetToMap | lib/core/src/core/cli.rs:12-38 | after sorting by name length and attaching or inserting each binary, the map groups the input: keys are exactly the valid roots, each root keyed by its name with alias = name minus `inc-` and its own binary, every satellite listed under the root it attaches to, and nothing else listed |
| CoreCli.Partition | lib/core/src/core/cli.rs:12-38 | with distinct names, every binary is either a root's own binary or in exactly one root's sub-commands, never both |
| CoreCli.SameNameOneKey | lib/core/src/core/cli.rs:26-33 | two binaries with the same name at different paths give one key; a root keeps a binary of that name, and as satellites both sit under the same root |
| CoreCli.SatelliteRootIsShorter | lib/core/src/core/cli.rs:17-22 | a satellite's root is strictly shorter than it and a dash-prefix of its name |
| CoreCli.ThreeNamesOneRoot | lib/core/src/core/cli.rs:69-132 | for `inc-a-b`, `inc-a-b-c`, `inc-a-b-c-d` in any order the only root is `inc-a-b` and both longer names attach to it |
| CoreCli.CandidateSamples | lib/core/src/core/cli.rs:45-53 | the candidates of the three test names, written out |
| Discovery.RecordedFrom | lib/core/src/core/cli.rs:168-207 | every binary recorded from a listing starts with `inc-`, and every entry that passes the filter is recorded |
| Discovery.ProcessDirEntry | lib/core/src/core/cli.rs:177-207 | an entry is added to the set exactly when its name is UTF-8, it is a regular file whenever its type is readable, its name starts with `inc-` and some execute bit (0o111) is set; otherwise the set is unchanged |
| Discovery.ProcessDirRead | inc-lib/src/core/command.rs:112-119 | reading a directory adds exactly the recorded entries to the set and only `inc-` names |
| StringCli.StoredNameAsWritten | lib/core/src/cli.rs:132 | the slice `[7..]` as written: panics exactly on names shorter than 7 characters, otherwise drops exactly 7 |
| StringCli.StoredNameAsWrittenLosesText | lib/core/src/cli.rs:130-133 | `inc-checkout` is stored as `ckout` (the corrected cut gives `checkout`), and `inc-ls` panics |
| StringCli.StoredName | lib/core/src/cli.rs:130-133 | the corrected cut: `inc-` followed by the stored name gives back the file name |
| StringCli.StoredNameInjective | lib/core/src/cli.rs:130-133 | the corrected cut never maps two discovered file names to one stored name |
| StringCli.StoredFrom | lib/core/src/cli.rs:110-136 | the stored names are exactly the corrected cuts `StoredName` of the entries that pass this generation's filter (UTF-8, `inc-` prefix, execute bit; no file-type check) |
| StringCli.ProcessDirEntry | lib/core/src/cli.rs:119-136 | a passing entry adds the corrected cut `StoredName` of its name; any other entry leaves the set unchanged |
| StringCli.ProcessDirRead | lib/core/src/cli.rs:110-117 | reading a directory adds exactly `StoredFrom` of its entries |
| StringCli.FindKeyFromCommand | lib/core/src/cli.rs:34-44 | returns the first dash-prefix of the name that is a key, `Hierarchy.FindKey` |
| StringCli.ConvertCommandSetToMap | lib/core/src/cli.rs:14-31 | the string-keyed map groups the names: keys are the valid roots, each attached name appears once in its root's vector, roots carry no other names |
| StringCli.Partition | lib/core/src/cli.rs:14-31 | each input name is a key or in exactly one key's vector, never both |
| StringCli.NoDashNameIsNeverListed | lib/core/src/cli.rs:35-41 | a name without a dash is always a key and never a satellite |
| StringCli.ThreeNamesOneKey | lib/core/src/cli.rs:52-77 | `{a-b, a-b-c-d, a-b-c}` gives the single key `a-b` holding exactly `a-b-c` and `a-b-c-d` |
| Command.NewEntry | inc-lib/src/core/command.rs:20-32 | an entry exists exactly when the path has a file stem (otherwise `unwrap` panics); it keeps the binary and its name has no dash |
| Command.NewEntryRebuildsStem | inc-lib/src/core/command.rs:21-29 | for a stem with a dash, `parent + "-" + name` is the stem and the parent is shorter; without a dash the parent is empty and the name is the stem |
| Command.LastDashSplit | inc-lib/src/core/command.rs:22-24 | the last dash piece and the join of the others rebuild the text |
| Command.ServicePluginSample | inc-lib/src/core/command.rs:22-24 | `inc-checkout-service-foobar` becomes name `foobar` under parent `inc-checkout-service` |
| Command.FindCommandsAvailable | inc-lib/src/core/command.rs:50-58 | one entry per discovered binary, in order, each the `CommandEntry::new` of that binary; a panic when any binary has no stem |
| Command.WithParent | inc-lib/src/core/command.rs:60-68 | keeps exactly the entries whose parent is the one asked for |
| Command.WithParentAppend | inc-lib/src/core/command.rs:60-68 | the filter keeps the original order: filtering a concatenation concatenates the filtered parts |
| Command.FindCommand | inc-lib/src/core/command.rs:70-77 | returns the first entry whose `parent-name` equals the name, and None exactly when there is none |
| Command.FindCommandByStem | inc-lib/src/core/command.rs:76 | every discovered binary with a dash in its stem is found again under its stem |
| YamlConfig.ToCommandAndEnvs | inc-lib/src/core/config.rs:39-44 | a bare string becomes a step with an empty environment; a structured step is returned unchanged |
| YamlConfig.ToCommandAndEnvsIdempotent | inc-lib/src/core/config.rs:39-44 | normalising an already normalised step changes nothing |
| YamlConfig.WithDefaults | inc-lib/src/core/config.rs:94-100 | a missing `ignore_failures` is false, a missing `description` is "No Description Provided"; written values are kept |
| YamlConfig.WithDefaultsOfWritten | inc-lib/src/core/config.rs:94-100 | defaults never override values that are present |
| YamlConfig.ConfigFile | inc-lib/src/core/config.rs:188-200 | `inc.yaml` when present, else `inc.yml` when present, else nothing; a result is a present child of the directory |
| YamlConfig.SearchForHomeConfig | inc-lib/src/core/config.rs:202-216 | at most one file: the home directory's `.inc.yaml`/`.inc.yml`, none without a home directory |
| YamlConfig.SearchUpForConfigFiles | inc-lib/src/core/config.rs:218-239 | empty without a working directory; otherwise the upward walk's files, closest first |
| ConfigWalk.SearchUpIsAncestors | inc-lib/src/core/config.rs:218-239 | each file found sits directly in the start directory or one of its ancestors, and the files go strictly from closest to farthest (so at most one per directory) |
| ConfigWalk.SearchUpFindsEveryLevel | lib/core/src/core/config.rs:101-122 | every ancestor directory holding a configuration file contributes it |
| YamlConfig.FirstProblem | inc-lib/src/core/config.rs:159-171 | the first file that fails to parse or to open, and none when there is none |
| YamlConfig.Successes | inc-lib/src/core/config.rs:157-163 | every kept configuration carries the file it was parsed from |
| YamlConfig.SuccessesAppend | inc-lib/src/core/config.rs:159-171 | the kept configurations keep the order of the files |
| YamlConfig.ParsedIsKept | inc-lib/src/core/config.rs:163 | every file that parses is kept |
| YamlConfig.CollapseTheConfigs | inc-lib/src/core/config.rs:153-174 | the loop returns `Collapse`: the parsed files in order, an unreadable file skipped, and the first parse error ending the load |
| YamlConfig.CollapseSucceeds | inc-lib/src/core/config.rs:153-174 | after a successful load no file failed to parse or open, and every parsed file is in the result |
| YamlConfig.CollapseFailsOnFirst | inc-lib/src/core/config.rs:164 | a failed load names a file that failed to parse, with every earlier file parsed or unreadable |
| YamlConfig.FirstHomeConfig | inc-lib/src/core/config.rs:112-115 | the first home configuration, or `default_provider: None` without a file when there is none |
| YamlConfig.NewContainer | inc-lib/src/core/config.rs:103-123 | the project layers are the parsed files of the upward walk; the home layer is the first parsed home file, else one with `default_provider: None` and no file; the project files' panic or parse error is returned first, and only then the home file's; the load succeeds exactly when both succeed |
| YamlConfig.FirstDefining | inc-lib/src/core/config.rs:129-133 | the first layer whose `exec` defines a key |
| YamlConfig.MergeIsFirstSeenWins | inc-lib/src/core/config.rs:125-146 | the merged map holds, for each key, the value of the first layer defining it, and the definition file of that layer exactly when it has one |
| YamlConfig.GetExecConfigs | inc-lib/src/core/config.rs:125-146 | the two nested loops compute the first-seen-wins merge of the project layers |
| YamlConfig.MergedKeysAreUnion | inc-lib/src/core/config.rs:129-140 | the merged keys are the union of the layers' keys |
| YamlConfig.ClosestLayerWins | inc-lib/src/core/config.rs:132-137 | the earliest (closest) layer defining a key wins; its file is recorded exactly when it has one; definition keys are a subset of command keys |
| TomlConfig.GetCheckoutConfigs | lib/core/src/core/config.rs:28-47 | a default exists exactly when the first home file has a `config` table with a string `default` |
| TomlConfig.CheckoutDefaultFound | lib/core/src/core/config.rs:28-47 | a first home file with a string `config.default` gives that string |
| TomlConfig.OnlyFirstHomeConfig | lib/core/src/core/config.rs:34 | only the first home file is consulted |
| TomlConfig.ConfigFile | lib/core/src/core/config.rs:76-83 | only `<prefix>inc.toml` is probed, and it is a child of the directory |
| TomlConfig.SearchForHomeConfig | lib/core/src/core/config.rs:85-99 | at most one file, the home directory's `.inc.toml` when present |
| TomlConfig.SearchUpForConfigFiles | lib/core/src/core/config.rs:101-122 | empty without a working directory; otherwise the upward walk's `inc.toml` files, closest first |
| TomlConfig.ParsedIndices | lib/core/src/core/config.rs:50-63 | the positions of the files that parse, strictly increasing, none left out |
| TomlConfig.KeptIsOrderedSubsequence | lib/core/src/core/config.rs:50-74 | the kept values are exactly the parsed files' values, in input order: files that do not parse are dropped silently |
| TomlConfig.CollapseTheConfigs | lib/core/src/core/config.rs:50-74 | the loop keeps every parsed file in order and panics only when a file cannot be opened or read |
| TomlConfig.NewContainer | lib/core/src/core/config.rs:19-26 | the project values are the kept documents of the upward walk, and the home values are the kept documents of the home file (at most one, none without a home directory); it panics exactly when a project file or the home file cannot be opened or read |
| GitUrl.MatchedAnyIsGitUrl | lib/core/src/libs/scm/provider/git.rs:14-28 | one of the six unanchored patterns matches somewhere in the text exactly when it contains `/`, then at least one character that is not a newline, then `.git` |
| GitUrl.NamedRepo | lib/core/src/libs/scm/provider/git.rs:25 | any text holding `/<name>.git` with a non-empty newline-free name is a git URL |
| GitUrl.TablesAreGitUrls | lib/checkout/src/scm/git.rs:26-95 | every URL of the ssh, git, http, ftp, file and custom test tables is accepted |
| GitUrl.CustomUrlsAreGitUrls | lib/checkout/src/scm/git.rs:71-73 | both custom GitHub URLs are accepted |
| GitUrl.NoSlashNoGitUrl | lib/checkout/src/scm/git.rs:98-116 | text without a slash is never a git URL |
| CheckoutGit.GetGitCheckout | lib/checkout/src/scm/git.rs:14-20 | a checkout exists exactly for git URLs and carries the URL |
| CheckoutGit.TableUrlsGetCheckout | lib/checkout/src/scm/git.rs:88-95 | every table URL gets a git checkout |
| CheckoutGit.NoSlashNoCheckout | lib/checkout/src/scm/git.rs:98-116 | no checkout for text without a slash |
| CheckoutGit.DoCheckout | lib/checkout/src/scm/git.rs:119-137 | runs `git` with exactly `["clone", url, destination]`; the exit code is the result, a signal gives "Unknown Error", a spawn or wait failure panics |
| GitProvider.Sanitize | lib/core/src/libs/scm/provider/git.rs:67-71 | removes at most one trailing character, and only when it is `/` or `\` |
| GitProvider.ExtractDirectory | lib/core/src/libs/scm/provider/git.rs:91-99 | a name exists exactly when the chunk has a file name (otherwise `unwrap` panics), and it is non-empty and slash-free |
| GitProvider.LastChunk | lib/core/src/libs/scm/provider/git.rs:73-88 | the parsed URL's path when it parses; otherwise the text from the last `/` (else the last `\`); nothing exactly when it does not parse and has neither separator; without a parsed path the chunk starts at the last `/` when there is one, and at the last `\` only when there is no `/` |
| GitProvider.SlashSearchedFirst | lib/core/src/libs/scm/provider/git.rs:78-86 | with no parsed path, `a/b\c` gives `/b\c`: the `/` is looked for first, even when a `\` comes after it |
| GitProvider.ComputeDestination | lib/core/src/libs/scm/provider/git.rs:66-89 | no name exactly when there is no chunk; otherwise the file stem of the chunk |
| GitProvider.SuggestedCheckoutName | lib/core/src/libs/scm/provider/git.rs:31-37 | no suggestion for a URL the provider does not handle; otherwise `compute_destination` |
| GitProvider.SuggestsStemOfLastSegment | lib/core/src/libs/scm/provider/git.rs:66-89 | with one optional trailing separator, the suggestion is the stem of the last `/` segment |
| GitProvider.RepoShapedSuggestsRepo | lib/core/src/libs/scm/provider/git.rs:31-37 | every URL ending in `/repo.git` or `/repo.git/` suggests `repo` |
| GitProvider.SampleUrlsSuggestRepo | inc-lib/src/libs/scm/provider/git_test.rs:89-114 | every sample ssh, git, http, ftp and file URL suggests `repo` |
| GitProvider.CloneArgs | lib/core/src/libs/scm/provider/git.rs:40-43 | the argument list is exactly `clone`, the URL, the destination |
| GitProvider.CloneResult | lib/core/src/libs/scm/provider/git.rs:46-55 | an exit code is returned as is, a signal is "Unknown Error", a spawn or wait failure panics |
| GitProvider.DoCheckout | lib/core/src/libs/scm/provider/git.rs:39-56 | runs `git` with `CloneArgs` and returns `CloneResult` of its outcome |
| Scm.FindProvider | inc-lib/src/libs/scm/api.rs:35 | the first provider that handles the URL, and none exactly when none does |
| Scm.FindSkipsNonHandlers | lib/core/src/libs/scm/api.rs:21 | providers in front that do not handle the URL are passed over |
| ScmUtil.ExtractDirectory | inc-lib/src/libs/scm/util.rs:27-36 | without a working directory the chunk itself; otherwise the working directory plus the chunk's file stem, panicking when it has none |
| ScmUtil.ExtractedNameIsStem | inc-lib/src/libs/scm/util.rs:27-33 | the directory's file name is the chunk's file stem |
| ScmUtil.ComputeDestination | inc-lib/src/libs/scm/util.rs:5-25 | the given destination as is; else the suggestion; else the random name, each through `extract_directory` |
| ScmUtil.GivenDestinationWins | inc-lib/src/libs/scm/util.rs:9-12 | a given destination ignores the suggestion and the random name |
| ScmUtil.RandomNameLastResort | inc-lib/src/libs/scm/util.rs:14-24 | the random name matters only when there is neither a destination nor a suggestion |
| EtrainScm.CreateUrl | bin/etrain-checkout/src/checkout/scm.rs:15-23 | `github` in any ASCII case gives `git@github.com:<repo>.git`; anything else is "Unknown service!" |
| EtrainScm.CreatedUrlIsGitUrl | bin/etrain-checkout/src/checkout/scm.rs:15-23 | a created URL for `owner/name` is always a git URL, so it is cloned |
| EtrainScm.ComputeDestination | bin/etrain-checkout/src/checkout/scm.rs:40-71 | the given destination; else the directory named after the URL's last chunk; else after the random name |
| EtrainScm.AgreesWithProvider | bin/etrain-checkout/src/checkout/scm.rs:40-82 | when the git provider suggests a name, the destination is that name in the working directory |
| EtrainScm.SampleUrlsCheckOutIntoRepo | bin/etrain-checkout/src/checkout/scm.rs:110-116 | every sample URL is checked out into a directory named `repo` |
| EtrainScm.DoScmCheckout | bin/etrain-checkout/src/checkout/scm.rs:25-38 | a git URL is cloned into the computed destination; any other URL gives 1 without running anything |
| IncServices.Registered | inc-lib/src/libs/scm/services.rs:8-20 | GitHub and Bitbucket are always registered |
| IncServices.BuildServiceMap | inc-lib/src/libs/scm/services.rs:8-20 | the loop registers the built-ins, then every `inc-checkout-service` child under its name |
| IncServices.RegisteredKeys | inc-lib/src/libs/scm/services.rs:8-20 | the keys are `github`, `bitbucket` and the plugin names, nothing else |
| IncServices.NameIsKey | inc-lib/src/libs/scm/services.rs:33-35 | every service is stored under its own name |
| IncServices.LastPluginWins | inc-lib/src/libs/scm/services.rs:15-18 | a plugin is stored under its name when no later plugin has that name, even over a built-in |
| IncServices.BuiltInKept | inc-lib/src/libs/scm/services.rs:10-11 | without a plugin of that name, `github` and `bitbucket` are the built-ins |
| IncServices.GenerateUrl | inc-lib/src/libs/scm/services.rs:24-88 | GitHub and Bitbucket give the ssh or https URL; a plugin runs with the input as its only argument and `INC_CHECKOUT_SSH` set to `TRUE`/`FALSE`, its output is the URL and its error message is the checkout error |
| PrefixServices.ServiceName | lib/core/src/libs/scm/services.rs:17-21 | a service name exactly for binaries named `inc-checkout-service-…`, the rest of the name |
| PrefixServices.Registered | src/inc/libs/scm/services.rs:7-26 | GitHub is always registered |
| PrefixServices.BuildServiceMap | lib/core/src/libs/scm/services.rs:9-35 | the loop registers GitHub, then every prefixed binary under its stripped name |
| PrefixServices.RegisteredKeys | src/inc/libs/scm/services.rs:7-26 | the keys are `github` and the stripped names, nothing else |
| PrefixServices.NameIsKey | lib/core/src/libs/scm/services.rs:44-46 | every service is stored under its own name |
| PrefixServices.PluginOverridesGitHub | lib/core/src/libs/scm/services.rs:28 | a binary `inc-checkout-service-github` replaces the built-in GitHub service |
| PrefixServices.GenerateUrl | lib/core/src/libs/scm/services.rs:39-86 | GitHub gives `git@github.com:<input>.git`; a plugin's output is the URL and its error the checkout error |
| IncApi.BuildUrlFromService | inc-lib/src/libs/scm/api.rs:7-24 | the lowercased service selects the registered service, which generates the URL; an unknown service is "Unable to find determine how to execute <service>" |
| IncApi.LookupIgnoresCase | inc-lib/src/libs/scm/api.rs:15 | services differing only in ASCII case give the same result |
| IncApi.UppercaseKeyNeverSelected | inc-lib/src/libs/scm/api.rs:15-18 | a registered key with an upper-case letter can never be selected |
| IncApi.GitHubInAnyCase | inc-lib/src/libs/scm/api.rs:7-24 | `GitHub` in any case gives the built-in ssh or https URL when no plugin is named `github` |
| IncApi.UnknownServiceFails | inc-lib/src/libs/scm/api.rs:20-22 | a service that is neither built in nor a plugin fails with the message naming it |
| IncApi.BuildScmProviders | inc-lib/src/libs/scm/api.rs:26-28 | the providers handle exactly the git URLs |
| IncApi.GitProviderApplied | inc-lib/src/libs/scm/api.rs:26-28 | the one provider handles, suggests and clones as the git provider does |
| IncApi.Checkout | inc-lib/src/libs/scm/api.rs:30-47 | "Unable to find scm for <url>" when no provider handles the URL; otherwise the first handler checks out into `compute_destination` of the destination and its suggestion |
| IncApi.NonHandlersNeverConsulted | inc-lib/src/libs/scm/api.rs:35 | providers that do not handle the URL can be removed without changing the outcome |
| IncApi.NonGitUrlNotCloned | inc-lib/src/libs/scm/api.rs:36-40 | a URL that is not a git URL is never cloned |
| IncApi.GitUrlClonedIntoDestination | inc-lib/src/libs/scm/api.rs:41-46 | a git URL with a given destination runs `git clone <url> <destination>` |
| IncApi.SampleUrlsClonedIntoRepo | inc-lib/src/libs/scm/api.rs:43-46 | every sample URL without a destination is cloned into `repo` under the working directory |
| CoreApi.BuildUrlFromService | lib/core/src/libs/scm/api.rs:7-15 | only `github`, in any ASCII case, gives `git@github.com:<repo>.git`; anything else is "Unknown service!" |
| CoreApi.CommandUnused | lib/core/src/libs/scm/api.rs:7 | the discovered commands do not affect the URL |
| CoreApi.Checkout | lib/core/src/libs/scm/api.rs:17-31 | a URL that is not a git URL fails with "Unable to find scm for <url>"; a git URL is checked out by the git provider |
| CoreApi.GitHubRepoClonedIntoDestination | lib/core/src/libs/scm/api.rs:7-31 | `owner/name` through GitHub gives a git URL that is cloned into the given destination |
| IncCheckout.GetDefaultCheckoutService | inc-commands/src/checkout.rs:45-51 | the home configuration's default provider, else `github` |
| IncCheckout.PossibleCheckoutSources | inc-commands/src/checkout.rs:128-145 | exactly the predefined sources and the `inc-checkout-service` children, sorted and without repeats |
| IncCheckout.ListLine | inc-commands/src/checkout.rs:67-70 | ` - <service>`, with `\t[default]` exactly for the default |
| IncCheckout.ListServices | inc-commands/src/checkout.rs:65-72 | one line per source, in order |
| IncCheckout.SortedWithPlugin | inc-commands/src/checkout.rs:141-142 | with a `foobar` plugin the sources are `bitbucket`, `foobar`, `github` |
| IncCheckout.ListingWithPlugin | inc-commands/src/checkout.rs:64-74 | the listing text for that case, with `github` marked as default |
| IncCheckout.ChooseUrl | inc-commands/src/checkout.rs:88-101 | the repository as typed when a provider handles it; otherwise the service's URL, over ssh unless `--https-only` |
| IncCheckout.RunCheckout | inc-commands/src/checkout.rs:103-125 | no URL gives 2; a failed checkout gives 1; otherwise the clone's exit code |
| IncCheckout.Execute | inc-commands/src/checkout.rs:53-126 | sorted sources always; `--list-services` lists and gives 0; otherwise the service is the option or the default, and the result is `RunCheckout` |
| IncCheckout.GitUrlUsedVerbatim | inc-commands/src/checkout.rs:88-93 | a git URL is used as typed whatever the service |
| IncCheckout.HttpsGitHubCheckout | inc-commands/src/checkout.rs:77-125 | `--service GitHub --https-only owner/name dir` clones `https://github.com/owner/name.git` into `dir` |
| IncCheckout.UnknownServiceExitsTwo | inc-commands/src/checkout.rs:103-107 | an unknown service for a non-URL repository exits with 2 |
| BinIncCheckout.CheckoutSubCommands | bin/inc/src/bin/checkout.rs:49-53 | exactly the binaries of the commands whose key starts with `inc-checkout` |
| BinIncCheckout.PossibleCheckoutSources | bin/inc/src/bin/checkout.rs:120-138 | `github` and the names of the `inc-checkout-service-` binaries with the prefix cut off |
| BinIncCheckout.SourcesAreRegisteredServices | bin/inc/src/bin/checkout.rs:120-138 | the listed sources are exactly the keys of the service map |
| BinIncCheckout.RunCheckout | bin/inc/src/bin/checkout.rs:89-117 | a service other than GitHub gives 2; a failed checkout gives 1; otherwise the clone's exit code |
| BinIncCheckout.Execute | bin/inc/src/bin/checkout.rs:38-118 | `--help` gives 0; `--list` lists and gives 0; an empty repository gives 1; otherwise `RunCheckout` with the option's service or the configured default |
| BinIncCheckout.FoobarListedFirst | bin/inc/src/bin/checkout.rs:60-70 | with a `foobar` plugin the list is ` - foobar`, then ` - github\t[default]` |
| BinIncCheckout.GitHubRepoCheckedOut | bin/inc/src/bin/checkout.rs:89-117 | `owner/name` via GitHub ends as the exit code of `git clone` |
| ExecCommand.ExtraEnv | inc-commands/src/exec.rs:63-70 | the step's variables, plus `INC_PROJECT_DIR` set to the defining file's directory when there is one (a file at the root panics) |
| ExecCommand.StepCallOf | inc-commands/src/exec.rs:59-70 | the program and arguments are the step split on single spaces, with the extra environment |
| ExecCommand.StepWords | inc-commands/src/exec.rs:59-61 | a step written from space-free words splits back into them |
| ExecCommand.StepTrace | inc-commands/src/exec.rs:59-85 | a step calls the runner once with its call, unless building the call panicked |
| ExecCommand.StepTraces | inc-commands/src/exec.rs:54 | one trace per step |
| ExecCommand.RunStepsAppend | inc-commands/src/exec.rs:54-87 | running two lists of steps runs the second only when the first ended with 0 |
| ExecCommand.StopsAtFirstNonzero | inc-commands/src/exec.rs:74-79 | the first step returning a non-zero code ends the command with that code, and no later step runs |
| ExecCommand.ExecutingLog | inc-commands/src/exec.rs:53-57 | built one step at a time, the `** Executing` lines are none for a command of one step, and otherwise one per step begun, in order, naming its command |
| ExecCommand.LogBegin | inc-commands/src/exec.rs:53-57 | a step beginning adds its line to the log exactly when there is more than one step |
| ExecCommand.BuildExtraEnv | inc-commands/src/exec.rs:63-70 | the loop builds `ExtraEnv` |
| ExecCommand.ExecuteStep | inc-commands/src/exec.rs:59-85 | one step runs as `StepTrace` says; a runner error is 17 |
| ExecCommand.RunCommandSteps | inc-commands/src/exec.rs:54-87 | the loop makes exactly the calls of `RunSteps` and returns its outcome, 0 when every step gives 0; its log is `ExecutingLog` of the steps it began |
| ExecCommand.Execute | inc-commands/src/exec.rs:27-88 | `--list-commands` lists the merged commands sorted and gives 0; an unknown command is error 2 with its message; otherwise the command's steps run in order |
| ExecCommand.Steps | inc-commands/src/exec.rs:51 | the steps of a command, each normalised |
| ExecCommand.WriteCommandSteps | inc-commands/src/exec.rs:103-107 | the loop appends each step's command and environment lines |
| ExecCommand.GenerateListOptions | inc-commands/src/exec.rs:90-110 | the keys in ascending order, exactly the configured commands, and the listing text built from them |
| ExecCommand.BuildListedBeforeRun | inc-commands/src/exec.rs:95-96 | `build` is listed before `run` |
| Executor.FromParseError | inc-lib/src/exec/executor.rs:30-34 | a parse error becomes error 101 with the same message |
| Executor.BuildCommandString | inc-lib/src/exec/executor.rs:76-81 | the command followed by each argument after one space |
| Executor.CommandLineSplits | inc-lib/src/exec/executor.rs:76-81 | for space-free words, splitting the command line on spaces gives back the command and its arguments |
| Executor.EnvPrecedence | inc-lib/src/exec/executor.rs:155-170 | the child sees `PATH`, the process's variables and the extra ones; extra variables win over process variables, which win over the computed `PATH` |
| Executor.InsertAll | inc-lib/src/exec/executor.rs:159-165 | inserting every pair overrides the existing values |
| Executor.BuildEnvUpdates | inc-lib/src/exec/executor.rs:155-170 | the loops build `EnvUpdates` |
| Executor.RunResult | inc-lib/src/exec/executor.rs:90-120 | a spawn or wait failure is error 10 with empty output; a finished process gives its exit code, or 0 when a signal ended it |
| Executor.RunCommand | inc-lib/src/exec/executor.rs:70-121 | the shell runs the joined command line with the computed environment, and the result is `RunResult` of its outcome |
| Executor.EscapeChar | inc-lib/src/exec/executor.rs:41 | how `{:?}` writes one character: quote, backslash, `\0`, `\t`, `\r`, `\n` by name, other ASCII control characters and DEL as `\u{..}`; the result holds no control character, and exactly the plain characters are copied unchanged |
| Executor.DebugEscape | inc-lib/src/exec/executor.rs:41 | the text `{:?}` writes between the quotes holds no ASCII control character |
| Executor.PlainTextUnchanged | inc-lib/src/exec/executor.rs:41 | text without control characters, quotes or backslashes is written unchanged between the quotes |
| Executor.BellIsEscaped | inc-lib/src/exec/executor.rs:41 | a command `a`, bell, `b` is written `"a\u{7}b"` |
| Executor.ExecuteExternalCommand | inc-lib/src/exec/executor.rs:36-47 | the command path is quoted with `Executor.DebugQuote`, and the exit code or error is returned |
| Executor.ExecuteExternalCommandForOutput | inc-lib/src/exec/executor.rs:49-68 | a finished process gives its trimmed standard output, whatever its exit code; a spawn or wait failure is error 10 |
| SubCommandArgs.FirstNonFlag | lib/commands/src/main/args.rs:19-26 | the first argument after the program name that does not start with `-` |
| SubCommandArgs.BuildSubCommandArgs | lib/commands/src/main/args.rs:10-40 | the loop's result is `SubCommandOf`: the first non-flag is the command and the arguments are everything after it |
| SubCommandArgs.CommandIsFirstNonFlag | lib/commands/src/main/args.rs:19-31 | a command found is the first non-flag, and the arguments are exactly what follows it, flags included |
| SubCommandArgs.OnlyFlagsFail | lib/commands/src/main/args.rs:33-39 | "No command specified" exactly when every argument is a flag |
| SubCommandArgs.FlagsAfterCommandKept | lib/commands/src/main/args.rs:19-31 | `inc -v checkout -v repo` runs `checkout` with `-v repo` |
| VerbosityArgs.SetValue | lib/commands/src/logging.rs:27-41 | a value exactly when the argument starts with `--verbose=`/`-v=` and the rest parses as a `u64`, and the value is that number |
| VerbosityArgs.LongSetOverrides | lib/commands/src/logging.rs:27-33 | `--verbose=N` sets the level to N whatever came before |
| VerbosityArgs.ParseVerbosity | lib/impl/src/core/logging.rs:60-93 | the loop computes `Verbosity`: from 1, each flag applied in turn until the first non-flag |
| VerbosityArgs.NonFlagKeepsLevel | lib/commands/src/logging.rs:19-45 | an argument not starting with `-` does not change the level |
| VerbosityArgs.NoFlagsLevelOne | lib/commands/src/logging.rs:17 | with no flag before the first non-flag, the level is 1 |
| VerbosityArgs.IgnoresAfterNonFlag | lib/commands/src/logging.rs:43-45 | arguments after the first non-flag are ignored |
| VerbosityArgs.CountsFlags | lib/impl/src/core/logging.rs:63-69 | a command line of only `-v`/`--verbose` flags gives 1 plus their number |
| VerbosityArgs.SetOverrides | lib/impl/src/core/logging.rs:79-85 | `-v=N` sets the level to N whatever came before |
| CommandsLogging.FromStr | lib/commands/src/logging.rs:131-145 | a level name gives that level; any other text is Trace |
| CommandsLogging.FromStrDisplay | lib/commands/src/logging.rs:119-145 | parsing the displayed name gives back the level |
| CommandsLogging.LogLevel | lib/commands/src/logging.rs:51-58 | 0 is Warn, 1 Info, 2 Debug, 3 or more Trace; never Error |
| CommandsLogging.ToFilter | lib/commands/src/logging.rs:147-157 | each level maps to the filter of the same rank |
| CommandsLogging.ParseFromArgs | lib/commands/src/logging.rs:12-49 | an inherited `INC_LOG_LEVEL` wins (parsed); otherwise the verbosity flags choose |
| CommandsLogging.DefaultIsInfo | lib/commands/src/logging.rs:12-49 | with nothing inherited and no flag, the level is Info |
| CommandsLogging.ParseLogLevel | lib/commands/src/logging.rs:99-108 | a given level is published to `INC_LOG_LEVEL` and kept; otherwise the inherited one is read, Trace when absent |
| CommandsLogging.PublishedLevelInherited | lib/commands/src/logging.rs:99-108 | a published level is what child processes read back, from their arguments and from the environment alike |
| ImplLogging.LogLevel | lib/impl/src/core/logging.rs:51-58 | 0 is Warning, 1 Info, 2 Debug, 3 or more Trace |
| ImplLogging.ParseFromArgs | lib/impl/src/core/logging.rs:60-93 | the level of the verbosity flags |
| ImplLogging.NameSelectsLevel | lib/impl/src/core/logging.rs:95-109 | an inherited level name selects that level |
| ImplLogging.NumberOrInfo | lib/impl/src/core/logging.rs:110-119 | other inherited text is read as a verbosity count, and is Info when not a number |
| ImplLogging.NamesAreNotNumbers | lib/impl/src/core/logging.rs:98-111 | no level name parses as a number, so names and counts never clash |
| ImplLogging.MoreVerbose | lib/impl/src/core/logging.rs:15-19 | the more verbose of the two levels, the inherited one on a tie |
| ImplLogging.GetVerbosityLevel | lib/impl/src/core/logging.rs:11-20 | the more verbose of the argument level and the inherited level |
| ImplLogging.AtLeastInfoUnlessInherited | lib/impl/src/core/logging.rs:11-20 | without an inherited level the result is at least Info |
| CoreLogging.LogLevel | lib/core/src/core/logging.rs:29-37 | 0 to 3 map to Error, Warn, Info, Debug; anything else, negatives included, is Trace |
| CoreLogging.ConfiguredFilter | lib/core/src/core/logging.rs:7-16 | quiet gives Error, else warn gives Warn, else verbosity 0 gives Info; never Off |
| CoreLogging.MoreVerboseNeverQuieter | lib/core/src/core/logging.rs:7-16 | more `-v` flags never give a quieter filter |
| CoreLogging.QuietIgnoresTheRest | lib/core/src/core/logging.rs:8-9 | quiet gives Error whatever the other options |
| Sorting.SortStrings | inc-commands/src/checkout.rs:141-142 | the sorted vector holds exactly the set, in strictly ascending `String` order |
| Sorting.AscendingUnique | inc-commands/src/checkout.rs:141-142 | two strictly ascending sequences with the same elements are equal, so the sorted order is unique |
| Sorting.SortByKey | lib/core/src/core/cli.rs:13-17 | the vector holds exactly the set, once each, in ascending order of name length |

## Findings

| source | as written | input that shows it | evidently intended | confidence | as-written member | corrected member |
|---|---|---|---|---|---|---|
| lib/core/src/cli.rs:132 | after checking for the 4-character prefix `inc-`, the stored name cuts the first 7 characters (`file_name[7..]`) | `inc-checkout` is stored as `ckout`; `inc-ls` is shorter than 7 characters and the slice panics | cut exactly the `inc-` prefix (the length of `BASE_APPLICATION_NAME` plus the dash), as `lib/core/src/core/cli.rs:24-25` does for aliases | not executed; medium (7 is the length of `etrain-`, an earlier application name, and the file is not declared as a module of its crate) | StringCli.StoredNameAsWritten (shown by StringCli.StoredNameAsWrittenLosesText) | StringCli.StoredName (with StringCli.StoredNameInjective), used by StringCli.ProcessDirEntry |

## Left out

- Filesystem access is not modelled: walking `PATH`, `read_dir`, `metadata`, `exists`, opening and reading files. Listings, file presence and read outcomes are inputs. The `metadata().unwrap()` panic inside `file_is_executable` is not modelled, because the permission bits are given.
- YAML and TOML parsing are not modelled. A parsed document, or the parse error, is an input per file.
- `Url::parse` is not modelled. Its result, the path of the parsed URL or none, is the `urlPath` parameter.
- The random project name from `names::Generator` is a parameter.
- Child processes are inputs: `git clone`, plugin services, `sh -c` for exec steps. The environment of the running process is an input too.
- `build_path` is not modelled: `current_exe`, `canonicalize`, and the `var("PATH").unwrap()` panic. The computed `PATH` value is a parameter.
- Logging output is not modelled: `fern`/`slog` dispatch set-up, message formats, timestamps, and the "Logger already initialized" panic.
- Command-line parsing by `clap` and `docopt` is not modelled; the parsed options are inputs. The `subcommand()` builders and the `USAGE` text are left out too.
- `env::consts::EXE_SUFFIX` is taken to be empty, as on Unix. The Windows `file_is_executable` and `cmd /C` variants are left out.
- `RustStr.ToLower`: only ASCII letters are lowered, not full Unicode `to_lowercase`.
- `RustStr.Trim`: only the ASCII characters of `char::is_whitespace` (space, tab, line feed, vertical tab, form feed, carriage return) are trimmed. Non-ASCII white space such as NEL (U+0085) or the no-break space (U+00A0) is kept, where `str::trim` removes it.
- `Executor.DebugEscape`: only ASCII control characters and DEL are written as `\u{..}`. Rust's `{:?}` also writes non-printable and grapheme-extending Unicode characters that way, and the model copies those unchanged.
- Byte-offset string slicing is modelled on characters, so a panic on a non-character boundary is not captured.
- `VerbosityArgs.ParseVerbosity`: the level is unbounded, so `u64` overflow is not modelled. `--verbose=18446744073709551615` (`u64::MAX`) followed by `-v` or `--verbose` overflows the source's `u64`. Debug builds panic there, and release builds wrap to 0, which `log_level` turns into Warn. The model's level is 2^64, which gives Trace.
- `CoreLogging.ConfiguredFilter`: the `verbose + 2` on `i32` is unbounded, and overflow is not modelled.
- `ExecCommand.Execute`: `ignore_failures` is read into the configuration, but the step loop of `inc-commands/src/exec.rs` never consults it, so neither does the model.
- `inc-lib/src/libs/scm/provider/git.rs` is not part of this model. The newest tool's git provider is taken to be the one of `lib/core/src/libs/scm/provider/git.rs` (`GitProvider`), whose behaviour the provider tests in `inc-lib/src/libs/scm/provider/git_test.rs` describe.
- `inc-lib/src/libs/scm/mod.rs` is not part of this model. Its predefined checkout sources are taken to be `github` and `bitbucket`, with `github` the default, as the newest tool's checkout tests show.
- `lib/core/src/libs/scm/util.rs` is not part of this model. `lib/core`'s `compute_destination` is taken to be the one of `inc-lib/src/libs/scm/util.rs` (`ScmUtil`).
- `BinIncCheckout.RunCheckout`: `bin/inc/src/bin/checkout.rs:89-93` calls a 3-argument `build_url_from_service`, whose definition is not part of this model. The model takes it to be the 4-argument GitHub-only one of `lib/core` (`CoreApi.BuildUrlFromService`), without its logger argument.
- `BinIncCheckout.Execute`: the values of the command container are modelled as commands whose binaries are collected, because the source's container type is not part of this model.
- Hash-map iteration order is not modelled. Where the source inserts while iterating a `HashMap` or `HashSet`, the model iterates in a fixed order. The results do not depend on that order: the grouping's root set, service maps without duplicate plugin names, environment maps, and sorted listings. The order of satellites inside one root's list does depend on it.
