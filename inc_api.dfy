/**
 * `inc-lib/src/libs/scm/api.rs`: turning a service and what the user typed into a URL,
 * and checking a URL out with the first provider that claims it.
 *
 * The git provider of the newest tool is taken to be the one of `GitProvider`
 * (`inc-lib/src/libs/scm/provider/git.rs` is not part of this model).
 */
module IncApi {
  import opened Wrappers
  import opened RustStr
  import opened RustPath
  import opened Command
  import opened GitUrl
  import opened Process
  import opened Scm
  import opened Executor
  import ScmUtil
  import GitProvider
  import IncServices

  /** The services `build_service_map` registers for the discovered commands. */
  function ServiceMap(commands: AvailableCommands): map<string, IncServices.ScmService> {
    IncServices.Registered(FindCommandsWithParent(commands, IncServices.ServiceParent))
  }

  /** `build_url_from_service`: the service is looked up by its lowercased name; a known
      one generates the URL, with the same `use_ssh`, and an unknown one is an error
      naming the lowercased name. */
  function BuildUrlFromService(service: string, userInput: string, commands: AvailableCommands, useSsh: bool,
                               runPlugin: (Path, seq<string>, map<string, string>) -> Result<string, CliError>)
    : (r: Result<string, CheckoutError>)
    ensures ToLower(service) in ServiceMap(commands) ==>
              r == IncServices.GenerateUrl(ServiceMap(commands)[ToLower(service)], userInput, useSsh, runPlugin)
    ensures ToLower(service) !in ServiceMap(commands) ==>
              r == Failure(CheckoutError("Unable to find determine how to execute " + ToLower(service)))
  {
    var serviceMap := ServiceMap(commands);
    var key := ToLower(service);
    if key in serviceMap then IncServices.GenerateUrl(serviceMap[key], userInput, useSsh, runPlugin)
    else Failure(CheckoutError("Unable to find determine how to execute " + key))
  }

  /** Service names differing only in case select the same service. */
  lemma LookupIgnoresCase(s1: string, s2: string, userInput: string, commands: AvailableCommands, useSsh: bool,
                          runPlugin: (Path, seq<string>, map<string, string>) -> Result<string, CliError>)
    requires ToLower(s1) == ToLower(s2)
    ensures BuildUrlFromService(s1, userInput, commands, useSsh, runPlugin)
            == BuildUrlFromService(s2, userInput, commands, useSsh, runPlugin)
  {
  }

  /** A plugin whose name has a capital letter is registered but can never be selected:
      no service name lowercases to it. */
  lemma UppercaseKeyNeverSelected(service: string, key: string)
    requires !IsLower(key)
    ensures ToLower(service) != key
  {
    ToLowerIsLower(service);
  }

  /** Without a plugin of that name, `github` in any case gives the GitHub URL. */
  lemma GitHubInAnyCase(service: string, userInput: string, commands: AvailableCommands, useSsh: bool,
                        runPlugin: (Path, seq<string>, map<string, string>) -> Result<string, CliError>)
    requires ToLower(service) == "github"
    requires forall e :: e in commands.commands && e.parentCommand == IncServices.ServiceParent ==> e.name != "github"
    ensures BuildUrlFromService(service, userInput, commands, useSsh, runPlugin)
            == Success(if useSsh then "git@github.com:" + userInput + ".git"
                       else "https://github.com/" + userInput + ".git")
  {
    var plugins := FindCommandsWithParent(commands, IncServices.ServiceParent);
    IncServices.BuiltInKept(plugins);
  }

  /** A name that is neither built in nor a plugin's is an error that names it. */
  lemma UnknownServiceFails(service: string, userInput: string, commands: AvailableCommands, useSsh: bool,
                            runPlugin: (Path, seq<string>, map<string, string>) -> Result<string, CliError>)
    requires ToLower(service) != "github" && ToLower(service) != "bitbucket"
    requires forall e :: e in commands.commands && e.parentCommand == IncServices.ServiceParent ==> e.name != ToLower(service)
    ensures BuildUrlFromService(service, userInput, commands, useSsh, runPlugin)
            == Failure(CheckoutError("Unable to find determine how to execute " + ToLower(service)))
  {
    var plugins := FindCommandsWithParent(commands, IncServices.ServiceParent);
    IncServices.RegisteredKeys(plugins);
  }

  /** `build_scm_providers`: the git provider alone, so a URL is claimed exactly when it
      is a git URL. */
  function BuildScmProviders(urlPath: string -> Option<string>, run: (string, seq<string>) -> ChildOutcome)
    : (r: seq<ScmProvider>)
    ensures forall u :: AnyHandles(r, u) <==> IsGitUrl(u)
  {
    var git := GitProvider.Provider(urlPath, run);
    assert forall u :: git.handlesUrl(u) == IsGitUrl(u);
    assert forall u :: AnyHandles([git], u) <==> git.handlesUrl(u) by {
      forall u ensures AnyHandles([git], u) <==> git.handlesUrl(u) {
        if git.handlesUrl(u) {
          assert [git][0].handlesUrl(u);
        }
      }
    }
    [git]
  }

  /** What the git provider's three operations are, applied. */
  lemma GitProviderApplied(urlPath: string -> Option<string>, run: (string, seq<string>) -> ChildOutcome,
                           url: string, d: PathBuf)
    ensures var git := BuildScmProviders(urlPath, run)[0];
            && git.handlesUrl(url) == IsGitUrl(url)
            && git.suggestedCheckoutName(url) == GitProvider.SuggestedCheckoutName(url, urlPath)
            && git.doCheckout(url, d) == GitProvider.CloneResult(run("git", ["clone", url, PathBufText(d)]))
  {
    var git := BuildScmProviders(urlPath, run)[0];
    assert git == GitProvider.Provider(urlPath, run);
    assert GitProvider.CloneArgs(url, d) == ["clone", url, PathBufText(d)];
  }

  /** What checking out `url` with one provider gives: its suggestion, then the
      destination, then its checkout; a panic in either of the first two stops there. */
  function CheckoutWith(provider: ScmProvider, url: string, destination: Option<string>,
                        cwd: Option<Path>, randomName: string): Fallible<Result<int, CheckoutError>>
  {
    match provider.suggestedCheckoutName(url)
    case Panic(m) => Panic(m)
    case Done(suggestedName) =>
      match ScmUtil.ComputeDestination(destination, suggestedName, cwd, randomName)
      case Panic(m) => Panic(m)
      case Done(d) => provider.doCheckout(url, d)
  }

  /** `checkout`: the first provider that claims the URL does the checkout; when none
      does, the result is an error naming the URL and no provider is consulted further. */
  function Checkout(url: string, destination: Option<string>, providers: seq<ScmProvider>,
                    cwd: Option<Path>, randomName: string): (r: Fallible<Result<int, CheckoutError>>)
    ensures FindProvider(providers, url).None? ==> r == Done(Failure(CheckoutError("Unable to find scm for " + url)))
    ensures FindProvider(providers, url).Some? ==>
              r == CheckoutWith(providers[FindProvider(providers, url).value], url, destination, cwd, randomName)
  {
    match FindProvider(providers, url)
    case None => Done(Failure(CheckoutError("Unable to find scm for " + url)))
    case Some(i) => CheckoutWith(providers[i], url, destination, cwd, randomName)
  }

  /** Providers that do not claim the URL make no difference to the checkout. */
  lemma NonHandlersNeverConsulted(skipped: seq<ScmProvider>, rest: seq<ScmProvider>, url: string,
                                  destination: Option<string>, cwd: Option<Path>, randomName: string)
    requires forall j :: 0 <= j < |skipped| ==> !skipped[j].handlesUrl(url)
    ensures Checkout(url, destination, skipped + rest, cwd, randomName)
            == Checkout(url, destination, rest, cwd, randomName)
  {
    FindSkipsNonHandlers(skipped, rest, url);
    if FindProvider(rest, url).Some? {
      var i := FindProvider(rest, url).value;
      assert (skipped + rest)[i + |skipped|] == rest[i];
    }
  }

  /** With the built-in providers, a URL that is not a git URL is an error and nothing
      is cloned. */
  lemma NonGitUrlNotCloned(url: string, destination: Option<string>, urlPath: string -> Option<string>,
                           run: (string, seq<string>) -> ChildOutcome, cwd: Option<Path>, randomName: string)
    requires !IsGitUrl(url)
    ensures Checkout(url, destination, BuildScmProviders(urlPath, run), cwd, randomName)
            == Done(Failure(CheckoutError("Unable to find scm for " + url)))
  {
  }

  /** With the built-in providers, a git URL and a destination are cloned there, once the
      suggestion (worked out anyway) does not panic. */
  lemma GitUrlClonedIntoDestination(url: string, destination: string, urlPath: string -> Option<string>,
                                    run: (string, seq<string>) -> ChildOutcome, cwd: Option<Path>, randomName: string)
    requires IsGitUrl(url) && GitProvider.SuggestedCheckoutName(url, urlPath).Done?
    ensures Checkout(url, Some(destination), BuildScmProviders(urlPath, run), cwd, randomName)
            == GitProvider.CloneResult(run("git", ["clone", url, destination]))
  {
    var providers := BuildScmProviders(urlPath, run);
    GitProviderApplied(urlPath, run, url, FromText(destination));
    assert FindProvider(providers, url) == Some(0);
    var suggestion := providers[0].suggestedCheckoutName(url);
    assert ScmUtil.ComputeDestination(Some(destination), suggestion.value, cwd, randomName) == Done(FromText(destination));
  }

  /** With the built-in providers and no destination, every sample URL is cloned into
      `repo` under the working directory. */
  lemma SampleUrlsClonedIntoRepo(url: string, urlPath: string -> Option<string>,
                                 run: (string, seq<string>) -> ChildOutcome, dir: Path, randomName: string)
    requires url in SshUrls + GitUrls + HttpUrls + FtpUrls + FileUrls
    requires var s := GitProvider.Sanitize(url);
             urlPath(s).None? || (exists q :: urlPath(s) == Some(q + "/repo.git"))
    ensures Checkout(url, None, BuildScmProviders(urlPath, run), Some(dir), randomName)
            == GitProvider.CloneResult(run("git", ["clone", url, PathString(dir + ["repo"])]))
  {
    var providers := BuildScmProviders(urlPath, run);
    var target := Located(dir + ["repo"]);
    assert GitProvider.SuggestedCheckoutName(url, urlPath) == Done(Some("repo")) by {
      GitProvider.SampleUrlsSuggestRepo(urlPath);
    }
    assert IsGitUrl(url) by {
      GitUrl.TablesAreGitUrls();
    }
    GitProviderApplied(urlPath, run, url, target);
    assert FindProvider(providers, url) == Some(0);
    assert ScmUtil.ExtractDirectory("repo", Some(dir)) == Done(target) by {
      FileNameOfComponent("repo");
      NameStemSamples();
      var d := ScmUtil.ExtractDirectory("repo", Some(dir));
      assert d.value.path == dir + ["repo"];
    }
  }
}
