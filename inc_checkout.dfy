/**
 * `inc-commands/src/checkout.rs`: `inc checkout`. It lists the services, or works out
 * the URL to check out (the repository as typed when a provider claims it, else the
 * URL a service generates for it) and checks it out, turning the outcome into an exit
 * code.
 *
 * The parsed command line is `Options`; clap makes the repository required unless the
 * services are listed. What the command logs at `info` level (the listing) is
 * returned; the other log lines are left out. `inc-lib/src/libs/scm/mod.rs` is not
 * part of this model: the predefined services are GitHub and Bitbucket, the ones
 * `build_service_map` builds in, and the default service is GitHub.
 */
module IncCheckout {
  import opened Wrappers
  import opened RustStr
  import opened RustPath
  import opened Sorting
  import opened Command
  import opened GitUrl
  import opened Process
  import opened Scm
  import opened Executor
  import opened YamlConfig
  import IncServices
  import IncApi
  import GitProvider

  const DefaultCheckoutSource: string := "github"
  const PreDefinedCheckoutSources: seq<string> := ["github", "bitbucket"]

  datatype Options = Options(service: Option<string>, listServices: bool, httpsOnly: bool,
                             repository: string, directory: Option<string>)

  /** `get_default_checkout_service`: the home configuration's provider, else GitHub. */
  function GetDefaultCheckoutService(config: ConfigContainer): (r: string)
    ensures config.homeConfig.config.checkout.defaultProvider.Some? ==>
              r == config.homeConfig.config.checkout.defaultProvider.value
    ensures config.homeConfig.config.checkout.defaultProvider.None? ==> r == DefaultCheckoutSource
  {
    config.homeConfig.config.checkout.defaultProvider.GetOr(DefaultCheckoutSource)
  }

  /** Whether `name` is a service: predefined, or the name of a service plugin. */
  predicate IsSource(commands: AvailableCommands, name: string) {
    || name in PreDefinedCheckoutSources
    || exists e :: e in commands.commands && e.parentCommand == IncServices.ServiceParent && e.name == name
  }

  /** `possible_checkout_sources`: the predefined services and the plugin names, each
      once, in ascending order. */
  method PossibleCheckoutSources(commands: AvailableCommands) returns (sources: seq<string>)
    ensures forall x :: x in sources <==> IsSource(commands, x)
    ensures StrictlyAscending(sources)
  {
    var availableSources: set<string> := {};
    for i := 0 to |PreDefinedCheckoutSources|
      invariant availableSources == set k | 0 <= k < i :: PreDefinedCheckoutSources[k]
    {
      availableSources := availableSources + {PreDefinedCheckoutSources[i]};
    }
    var plugins := FindCommandsWithParent(commands, IncServices.ServiceParent);
    for i := 0 to |plugins|
      invariant forall x :: x in availableSources <==>
                  x in PreDefinedCheckoutSources || exists k :: 0 <= k < i && plugins[k].name == x
    {
      availableSources := availableSources + {plugins[i].name};
    }
    forall x ensures x in availableSources <==> IsSource(commands, x) {
      if exists e :: e in commands.commands && e.parentCommand == IncServices.ServiceParent && e.name == x {
        var e :| e in commands.commands && e.parentCommand == IncServices.ServiceParent && e.name == x;
        assert e in plugins;
      }
    }
    sources := SortStrings(availableSources);
  }

  /** One line of the listing: the service, marked when it is the default. */
  function ListLine(service: string, default: string): (r: string)
    ensures service == default ==> r == " - " + service + "\t[default]"
    ensures service != default ==> r == " - " + service
  {
    " - " + service + (if service == default then "\t[default]" else "")
  }

  /** The listing loop of `execute`: one line per service, in order. */
  method ListServices(sources: seq<string>, default: string) returns (serviceList: seq<string>)
    ensures |serviceList| == |sources|
    ensures forall i :: 0 <= i < |sources| ==> serviceList[i] == ListLine(sources[i], default)
  {
    serviceList := [];
    for i := 0 to |sources|
      invariant |serviceList| == i
      invariant forall k :: 0 <= k < i ==> serviceList[k] == ListLine(sources[k], default)
    {
      var body := " - " + sources[i];
      if default == sources[i] {
        body := body + "\t[default]";
      }
      serviceList := serviceList + [body];
    }
  }

  /** The message the listing logs. */
  function ServicesText(serviceList: seq<string>): string {
    "Services:\n" + Join(serviceList, '\n')
  }

  /** The services `bitbucket`, `foobar` and `github` are sorted in that order. */
  lemma SortedWithPlugin(sources: seq<string>)
    requires StrictlyAscending(sources)
    requires forall x :: x in sources <==> x in {"github", "bitbucket", "foobar"}
    ensures sources == ["bitbucket", "foobar", "github"]
  {
    var expected := ["bitbucket", "foobar", "github"];
    assert StrictlyAscending(expected) by {
      assert LexLess("bitbucket", "foobar");
      assert LexLess("foobar", "github");
      assert LexLess("bitbucket", "github");
    }
    AscendingUnique(sources, expected);
  }

  lemma JoinThree(a: string, b: string, c: string, sep: char)
    ensures Join([a, b, c], sep) == a + [sep] + b + [sep] + c
  {
    assert [a, b, c][1..] == [b, c];
    assert [b, c][1..] == [c];
    assert Join([b, c], sep) == b + [sep] + c;
  }

  /** With one plugin service `foobar` and GitHub as the default, the services are
      listed as `bitbucket`, `foobar`, `github [default]`. */
  lemma ListingWithPlugin(sources: seq<string>, serviceList: seq<string>)
    requires StrictlyAscending(sources)
    requires forall x :: x in sources <==> x in {"github", "bitbucket", "foobar"}
    requires |serviceList| == |sources|
    requires forall i :: 0 <= i < |sources| ==> serviceList[i] == ListLine(sources[i], DefaultCheckoutSource)
    ensures ServicesText(serviceList) == "Services:\n" + " - bitbucket" + "\n" + " - foobar" + "\n" + " - github\t[default]"
  {
    SortedWithPlugin(sources);
    var l0, l1, l2 := " - bitbucket", " - foobar", " - github\t[default]";
    assert serviceList[0] == l0 && serviceList[1] == l1 && serviceList[2] == l2;
    assert serviceList == [l0, l1, l2];
    JoinThree(l0, l1, l2, '\n');
  }

  /** The URL `execute` checks out: the repository as typed when a provider claims it;
      otherwise the one the service generates, over ssh unless `--https-only`. */
  function ChooseUrl(repository: string, service: string, commands: AvailableCommands, httpsOnly: bool,
                     providers: seq<ScmProvider>,
                     runPlugin: (Path, seq<string>, map<string, string>) -> Result<string, CliError>)
    : (r: Result<string, CheckoutError>)
    ensures AnyHandles(providers, repository) ==> r == Success(repository)
    ensures !AnyHandles(providers, repository) ==>
              r == IncApi.BuildUrlFromService(service, repository, commands, !httpsOnly, runPlugin)
  {
    if AnyHandles(providers, repository) then Success(repository)
    else IncApi.BuildUrlFromService(service, repository, commands, !httpsOnly, runPlugin)
  }

  /** The exit code of a checkout: 2 when no URL could be worked out, the checkout's own
      code, or 1 when the checkout failed. */
  function RunCheckout(options: Options, service: string, commands: AvailableCommands,
                       providers: seq<ScmProvider>,
                       runPlugin: (Path, seq<string>, map<string, string>) -> Result<string, CliError>,
                       cwd: Option<Path>, randomName: string): (r: Fallible<int>)
    ensures var url := ChooseUrl(options.repository, service, commands, options.httpsOnly, providers, runPlugin);
            && (url.Failure? ==> r == Done(2))
            && (url.Success? ==>
                  var c := IncApi.Checkout(url.value, options.directory, providers, cwd, randomName);
                  && (c.Panic? <==> r.Panic?)
                  && (c.Done? && c.value.Success? ==> r == Done(c.value.value))
                  && (c.Done? && c.value.Failure? ==> r == Done(1)))
  {
    match ChooseUrl(options.repository, service, commands, options.httpsOnly, providers, runPlugin)
    case Failure(_) => Done(2)
    case Success(url) =>
      match IncApi.Checkout(url, options.directory, providers, cwd, randomName)
      case Panic(m) => Panic(m)
      case Done(Success(code)) => Done(code)
      case Done(Failure(_)) => Done(1)
  }

  /** `execute`: the services, sorted; then either the listing (exit 0) or the checkout
      with the `--service` given, else the default. */
  method Execute(options: Options, commands: AvailableCommands, config: ConfigContainer,
                 urlPath: string -> Option<string>, run: (string, seq<string>) -> ChildOutcome,
                 runPlugin: (Path, seq<string>, map<string, string>) -> Result<string, CliError>,
                 cwd: Option<Path>, randomName: string)
    returns (serviceOptions: seq<string>, listing: Option<string>, r: Fallible<int>)
    ensures forall x :: x in serviceOptions <==> IsSource(commands, x)
    ensures StrictlyAscending(serviceOptions)
    ensures options.listServices ==>
              && r == Done(0)
              && listing.Some?
              && exists serviceList :: listing.value == ServicesText(serviceList)
                   && |serviceList| == |serviceOptions|
                   && forall i :: 0 <= i < |serviceOptions| ==>
                        serviceList[i] == ListLine(serviceOptions[i], GetDefaultCheckoutService(config))
    ensures !options.listServices ==>
              && listing.None?
              && r == RunCheckout(options, options.service.GetOr(GetDefaultCheckoutService(config)), commands,
                                  IncApi.BuildScmProviders(urlPath, run), runPlugin, cwd, randomName)
  {
    serviceOptions := PossibleCheckoutSources(commands);
    var defaultSources := GetDefaultCheckoutService(config);
    if options.listServices {
      var serviceList := ListServices(serviceOptions, defaultSources);
      listing := Some(ServicesText(serviceList));
      r := Done(0);
      return;
    }
    listing := None;
    var service := options.service.GetOr(defaultSources);
    var scmProviders := IncApi.BuildScmProviders(urlPath, run);
    r := RunCheckout(options, service, commands, scmProviders, runPlugin, cwd, randomName);
  }

  /** A git URL is checked out as typed, whatever the service. */
  lemma GitUrlUsedVerbatim(repository: string, s1: string, s2: string, commands: AvailableCommands, httpsOnly: bool,
                           urlPath: string -> Option<string>, run: (string, seq<string>) -> ChildOutcome,
                           runPlugin: (Path, seq<string>, map<string, string>) -> Result<string, CliError>)
    requires IsGitUrl(repository)
    ensures ChooseUrl(repository, s1, commands, httpsOnly, IncApi.BuildScmProviders(urlPath, run), runPlugin)
            == ChooseUrl(repository, s2, commands, httpsOnly, IncApi.BuildScmProviders(urlPath, run), runPlugin)
            == Success(repository)
  {
  }

  /** `owner/name`, not itself a git URL, with GitHub and `--https-only`, is cloned from
      GitHub over https into the directory given. */
  lemma HttpsGitHubCheckout(options: Options, owner: string, name: string, directory: string,
                            commands: AvailableCommands, urlPath: string -> Option<string>,
                            run: (string, seq<string>) -> ChildOutcome,
                            runPlugin: (Path, seq<string>, map<string, string>) -> Result<string, CliError>,
                            cwd: Option<Path>, randomName: string)
    requires options == Options(Some("GitHub"), false, true, owner + "/" + name, Some(directory))
    requires !IsGitUrl(owner + "/" + name)
    requires |name| >= 1 && NoNewline(name)
    requires forall e :: e in commands.commands && e.parentCommand == IncServices.ServiceParent ==> e.name != "github"
    requires var url := "https://github.com/" + owner + "/" + name + ".git";
             GitProvider.SuggestedCheckoutName(url, urlPath).Done?
    ensures var url := "https://github.com/" + owner + "/" + name + ".git";
            var outcome := run("git", ["clone", url, directory]);
            && (outcome.Exited? && outcome.code.Some? ==>
                  RunCheckout(options, "GitHub", commands, IncApi.BuildScmProviders(urlPath, run), runPlugin, cwd, randomName)
                  == Done(outcome.code.value))
            && (!outcome.Exited? ==>
                  RunCheckout(options, "GitHub", commands, IncApi.BuildScmProviders(urlPath, run), runPlugin, cwd, randomName).Panic?)
  {
    var url := "https://github.com/" + owner + "/" + name + ".git";
    assert ToLower("GitHub") == "github";
    IncApi.GitHubInAnyCase("GitHub", owner + "/" + name, commands, false, runPlugin);
    assert "https://github.com/" + (owner + "/" + name) + ".git" == url;
    assert IsGitUrl(url) by {
      var before := "https://github.com/" + owner;
      assert url == before + "/" + name + ".git" + "";
      NamedRepo(before, name, "");
    }
    IncApi.GitUrlClonedIntoDestination(url, directory, urlPath, run, cwd, randomName);
  }

  /** A service that is neither built in nor a plugin gives exit code 2. */
  lemma UnknownServiceExitsTwo(options: Options, service: string, commands: AvailableCommands,
                               urlPath: string -> Option<string>, run: (string, seq<string>) -> ChildOutcome,
                               runPlugin: (Path, seq<string>, map<string, string>) -> Result<string, CliError>,
                               cwd: Option<Path>, randomName: string)
    requires !IsGitUrl(options.repository)
    requires ToLower(service) != "github" && ToLower(service) != "bitbucket"
    requires forall e :: e in commands.commands && e.parentCommand == IncServices.ServiceParent ==> e.name != ToLower(service)
    ensures RunCheckout(options, service, commands, IncApi.BuildScmProviders(urlPath, run), runPlugin, cwd, randomName)
            == Done(2)
  {
    IncApi.UnknownServiceFails(service, options.repository, commands, !options.httpsOnly, runPlugin);
  }
}
