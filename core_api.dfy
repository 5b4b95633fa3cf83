/**
 * `lib/core/src/libs/scm/api.rs`: the older checkout API. Only GitHub is known, and the
 * git provider is the only provider.
 *
 * `compute_destination` of `lib/core` (its `util.rs` is not part of this model) is taken
 * to be the one of `ScmUtil`; the logger arguments are left out.
 */
module CoreApi {
  import opened Wrappers
  import opened RustStr
  import opened RustPath
  import opened Discovery
  import opened GitUrl
  import opened Process
  import opened Scm
  import GitProvider
  import EtrainScm
  import IncApi

  /** `build_url_from_service`: `github`, however it is capitalised, gives an ssh URL;
      any other service is an error. The discovered commands are not looked at. */
  function BuildUrlFromService(service: string, repo: string, command: seq<SystemBinary>)
    : (r: Result<string, CheckoutError>)
    ensures ToLower(service) == "github" ==> r == Success("git@github.com:" + repo + ".git")
    ensures ToLower(service) != "github" ==> r == Failure(CheckoutError("Unknown service!"))
  {
    EtrainScm.CreateUrl(service, repo)
  }

  /** Which binaries were discovered makes no difference. */
  lemma CommandUnused(service: string, repo: string, c1: seq<SystemBinary>, c2: seq<SystemBinary>)
    ensures BuildUrlFromService(service, repo, c1) == BuildUrlFromService(service, repo, c2)
  {
  }

  /** `checkout`: with the git provider alone, a git URL is checked out, and any other
      URL is an error naming it. */
  function Checkout(url: string, destination: Option<string>, urlPath: string -> Option<string>,
                    run: (string, seq<string>) -> ChildOutcome, cwd: Option<Path>, randomName: string)
    : (r: Fallible<Result<int, CheckoutError>>)
    ensures !IsGitUrl(url) ==> r == Done(Failure(CheckoutError("Unable to find scm for " + url)))
    ensures IsGitUrl(url) ==>
              r == IncApi.CheckoutWith(GitProvider.Provider(urlPath, run), url, destination, cwd, randomName)
  {
    var providers := [GitProvider.Provider(urlPath, run)];
    assert providers == IncApi.BuildScmProviders(urlPath, run);
    IncApi.Checkout(url, destination, providers, cwd, randomName)
  }

  /** A repository named on GitHub is cloned into the destination given for it. */
  lemma GitHubRepoClonedIntoDestination(service: string, owner: string, name: string, destination: string,
                                        urlPath: string -> Option<string>, run: (string, seq<string>) -> ChildOutcome,
                                        cwd: Option<Path>, randomName: string)
    requires ToLower(service) == "github"
    requires |name| >= 1 && NoNewline(name)
    ensures var url := "git@github.com:" + owner + "/" + name + ".git";
            && BuildUrlFromService(service, owner + "/" + name, []) == Success(url)
            && (GitProvider.SuggestedCheckoutName(url, urlPath).Done? ==>
                  Checkout(url, Some(destination), urlPath, run, cwd, randomName)
                  == GitProvider.CloneResult(run("git", ["clone", url, destination])))
  {
    EtrainScm.CreatedUrlIsGitUrl(service, owner, name);
    var url := "git@github.com:" + owner + "/" + name + ".git";
    assert "git@github.com:" + (owner + "/" + name) + ".git" == url;
    if GitProvider.SuggestedCheckoutName(url, urlPath).Done? {
      IncApi.GitUrlClonedIntoDestination(url, destination, urlPath, run, cwd, randomName);
    }
  }
}
