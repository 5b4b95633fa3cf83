/**
 * `bin/inc/src/bin/checkout.rs`: `inc-checkout` of the older tool. It considers the
 * discovered commands whose name starts with `inc-checkout`, lists the services, or
 * turns the repository into a GitHub URL and checks it out, turning the outcome into an
 * exit code.
 *
 * The parsed command line is `Options` and the loaded configuration is an input;
 * the usage text printed for `--help` and the log lines other than the listing are left
 * out. The command calls the checkout API of `lib/core` without its logger; the
 * model uses `CoreApi`.
 */
module BinIncCheckout {
  import opened Wrappers
  import opened RustStr
  import opened RustPath
  import opened Sorting
  import opened Discovery
  import opened GitUrl
  import opened Process
  import opened Scm
  import CoreCli
  import TomlConfig
  import PrefixServices
  import CoreApi
  import GitProvider
  import IncCheckout

  const DefaultCheckoutSource: string := "github"
  const PreDefinedCheckoutSources: seq<string> := ["github"]
  const CommandPrefix: string := "inc-checkout"

  datatype Options = Options(repository: string, directory: Option<string>, help: bool,
                             service: Option<string>, list: bool)

  /** The binaries of the commands whose key starts with `inc-checkout`, in the order the
      map yields them. */
  method CheckoutSubCommands(commands: map<string, CoreCli.SystemCommand>) returns (subCommands: seq<SystemBinary>)
    ensures forall b :: b in subCommands <==>
              exists k :: k in commands && StartsWith(k, CommandPrefix) && commands[k].binary == b
  {
    subCommands := [];
    var keys := commands.Keys;
    while keys != {}
      invariant keys <= commands.Keys
      invariant forall b :: b in subCommands <==>
                  exists k :: k in commands.Keys - keys && StartsWith(k, CommandPrefix) && commands[k].binary == b
      decreases keys
    {
      var key :| key in keys;
      if StartsWith(key, CommandPrefix) {
        subCommands := subCommands + [commands[key].binary];
      }
      keys := keys - {key};
    }
  }

  /** The name a binary offers as a service: what follows `inc-checkout-service-`. */
  function StrippedNames(commands: seq<SystemBinary>): set<string> {
    set b | b in commands && StartsWith(b.name, PrefixServices.ServicePrefix) :: b.name[|PrefixServices.ServicePrefix|..]
  }

  /** `possible_checkout_sources`: the predefined services and the stripped plugin
      names, as a set. */
  method PossibleCheckoutSources(commands: seq<SystemBinary>) returns (availableSources: set<string>)
    ensures availableSources == {"github"} + StrippedNames(commands)
  {
    availableSources := {};
    for i := 0 to |PreDefinedCheckoutSources|
      invariant availableSources == set k | 0 <= k < i :: PreDefinedCheckoutSources[k]
    {
      availableSources := availableSources + {PreDefinedCheckoutSources[i]};
    }
    assert availableSources == {"github"} by {
      assert PreDefinedCheckoutSources[0] == "github";
    }
    assert StrippedNames(commands[..0]) == {};
    for i := 0 to |commands|
      invariant availableSources == {"github"} + StrippedNames(commands[..i])
    {
      var externalSource := commands[i];
      assert commands[..i + 1] == commands[..i] + [externalSource];
      if StartsWith(externalSource.name, PrefixServices.ServicePrefix) {
        availableSources := availableSources + {externalSource.name[|PrefixServices.ServicePrefix|..]};
      }
    }
    assert commands[..|commands|] == commands;
  }

  /** The services listed are exactly the ones `build_service_map` of `lib/core` builds
      for the same binaries. */
  lemma SourcesAreRegisteredServices(commands: seq<SystemBinary>)
    ensures {"github"} + StrippedNames(commands) == PrefixServices.Registered(commands).Keys
  {
    PrefixServices.RegisteredKeys(commands);
  }

  /** The checkout after the service is known: 2 for a service other than GitHub, else
      the clone's code, or 1 when the checkout failed. */
  function RunCheckout(repository: string, directory: Option<string>, service: string,
                       subCommands: seq<SystemBinary>, urlPath: string -> Option<string>,
                       run: (string, seq<string>) -> ChildOutcome, cwd: Option<Path>, randomName: string)
    : (r: Fallible<int>)
    ensures ToLower(service) != "github" ==> r == Done(2)
    ensures ToLower(service) == "github" ==>
              var c := CoreApi.Checkout("git@github.com:" + repository + ".git", directory, urlPath, run, cwd, randomName);
              && (c.Panic? <==> r.Panic?)
              && (c.Done? && c.value.Success? ==> r == Done(c.value.value))
              && (c.Done? && c.value.Failure? ==> r == Done(1))
  {
    match CoreApi.BuildUrlFromService(service, repository, subCommands)
    case Failure(_) => Done(2)
    case Success(url) =>
      match CoreApi.Checkout(url, directory, urlPath, run, cwd, randomName)
      case Panic(m) => Panic(m)
      case Done(Success(code)) => Done(code)
      case Done(Failure(_)) => Done(1)
  }

  /** `execute`: help exits 0; the sorted services are listed with the default marked
      (the configured one, else GitHub) and exit 0; an empty repository exits 1;
      otherwise the checkout, with the `--service` given or the default. */
  method Execute(options: Options, commands: map<string, CoreCli.SystemCommand>, config: TomlConfig.ConfigContainer,
                 urlPath: string -> Option<string>, run: (string, seq<string>) -> ChildOutcome,
                 cwd: Option<Path>, randomName: string)
    returns (subCommands: seq<SystemBinary>, serviceOptions: seq<string>, listing: Option<string>, r: Fallible<int>)
    ensures options.help ==> r == Done(0) && listing.None?
    ensures !options.help ==>
              && (forall b :: b in subCommands <==>
                    exists k :: k in commands && StartsWith(k, CommandPrefix) && commands[k].binary == b)
              && (forall x :: x in serviceOptions <==> x in {"github"} + StrippedNames(subCommands))
              && StrictlyAscending(serviceOptions)
    ensures !options.help && options.list ==>
              && r == Done(0)
              && listing.Some?
              && exists serviceList :: listing.value == IncCheckout.ServicesText(serviceList)
                   && |serviceList| == |serviceOptions|
                   && forall i :: 0 <= i < |serviceOptions| ==>
                        serviceList[i] == IncCheckout.ListLine(serviceOptions[i],
                                                               TomlConfig.GetCheckoutConfigs(config).GetOr(DefaultCheckoutSource))
    ensures !options.help && !options.list && options.repository == "" ==> r == Done(1) && listing.None?
    ensures !options.help && !options.list && options.repository != "" ==>
              && listing.None?
              && r == RunCheckout(options.repository, options.directory,
                                  options.service.GetOr(TomlConfig.GetCheckoutConfigs(config).GetOr(DefaultCheckoutSource)),
                                  subCommands, urlPath, run, cwd, randomName)
  {
    subCommands, serviceOptions, listing := [], [], None;
    if options.help {
      r := Done(0);
      return;
    }
    subCommands := CheckoutSubCommands(commands);
    var defaultSources := TomlConfig.GetCheckoutConfigs(config).GetOr(DefaultCheckoutSource);
    var available := PossibleCheckoutSources(subCommands);
    serviceOptions := SortStrings(available);
    if options.list {
      var serviceList := IncCheckout.ListServices(serviceOptions, defaultSources);
      listing := Some(IncCheckout.ServicesText(serviceList));
      r := Done(0);
      return;
    }
    if options.repository == "" {
      r := Done(1);
      return;
    }
    var service := options.service.GetOr(defaultSources);
    r := RunCheckout(options.repository, options.directory, service, subCommands, urlPath, run, cwd, randomName);
  }

  /** With a plugin service `foobar` the listing puts `foobar` before the default
      `github`, as sorting demands. */
  lemma FoobarListedFirst(sources: seq<string>, serviceList: seq<string>)
    requires StrictlyAscending(sources)
    requires forall x :: x in sources <==> x in {"github", "foobar"}
    requires |serviceList| == |sources|
    requires forall i :: 0 <= i < |sources| ==> serviceList[i] == IncCheckout.ListLine(sources[i], DefaultCheckoutSource)
    ensures serviceList == [" - foobar", " - github\t[default]"]
  {
    var expected := ["foobar", "github"];
    assert StrictlyAscending(expected) by {
      assert LexLess("foobar", "github");
    }
    AscendingUnique(sources, expected);
    assert serviceList[0] == " - foobar";
    assert serviceList[1] == " - github\t[default]";
  }

  /** `owner/name` on GitHub, named in any case, is cloned into the directory given and
      the exit code is git's. */
  lemma GitHubRepoCheckedOut(service: string, owner: string, name: string, directory: string,
                             subCommands: seq<SystemBinary>, urlPath: string -> Option<string>,
                             run: (string, seq<string>) -> ChildOutcome, cwd: Option<Path>, randomName: string)
    requires ToLower(service) == "github"
    requires |name| >= 1 && NoNewline(name)
    requires GitProvider.SuggestedCheckoutName("git@github.com:" + owner + "/" + name + ".git", urlPath).Done?
    ensures var outcome := run("git", ["clone", "git@github.com:" + owner + "/" + name + ".git", directory]);
            && (outcome.Exited? && outcome.code.Some? ==>
                  RunCheckout(owner + "/" + name, Some(directory), service, subCommands, urlPath, run, cwd, randomName)
                  == Done(outcome.code.value))
            && (!outcome.Exited? ==>
                  RunCheckout(owner + "/" + name, Some(directory), service, subCommands, urlPath, run, cwd, randomName).Panic?)
  {
    CoreApi.GitHubRepoClonedIntoDestination(service, owner, name, directory, urlPath, run, cwd, randomName);
    assert "git@github.com:" + (owner + "/" + name) + ".git" == "git@github.com:" + owner + "/" + name + ".git";
  }
}
