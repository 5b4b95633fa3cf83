/**
 * `bin/etrain-checkout/src/checkout/scm.rs`: the `etrain checkout` flow. A service
 * name turns a repository into a GitHub URL; the destination is the one given, or
 * a directory of the working directory named after the URL's last segment, or a
 * random name; a URL that is not a git URL is not cloned.
 *
 * `Url::parse`, the working directory, the random name and the `git` process are
 * inputs, as in `GitProvider` and `ScmUtil`.
 */
module EtrainScm {
  import opened Wrappers
  import opened RustStr
  import opened RustPath
  import opened GitUrl
  import opened Process
  import opened Scm
  import ScmUtil
  import GitProvider
  import CheckoutGit

  /** `create_url`: GitHub, however it is capitalised, gives an ssh URL; nothing else is
      known. */
  function CreateUrl(service: string, repo: string): (r: Result<string, CheckoutError>)
    ensures ToLower(service) == "github" ==> r == Success("git@github.com:" + repo + ".git")
    ensures ToLower(service) != "github" ==> r == Failure(CheckoutError("Unknown service!"))
  {
    if ToLower(service) == "github" then Success("git@github.com:" + repo + ".git")
    else Failure(CheckoutError("Unknown service!"))
  }

  /** A GitHub repository written `owner/name` gives a URL the git checkout accepts. */
  lemma CreatedUrlIsGitUrl(service: string, owner: string, name: string)
    requires ToLower(service) == "github"
    requires |name| >= 1 && NoNewline(name)
    ensures CreateUrl(service, owner + "/" + name).Success?
    ensures IsGitUrl(CreateUrl(service, owner + "/" + name).value)
  {
    var before := "git@github.com:" + owner;
    assert "git@github.com:" + (owner + "/" + name) + ".git" == before + "/" + name + ".git" + "";
    NamedRepo(before, name, "");
  }

  /** `compute_destination`: the destination as given; else the last chunk of the URL
      (after one trailing separator is removed: the parsed path, the text from the last
      `/`, or from the last `\`); else a random name; the chunk is made a directory by
      `extract_directory`, which is the one of `ScmUtil`. */
  function ComputeDestination(url: string, destination: Option<string>, urlPath: string -> Option<string>,
                              cwd: Option<Path>, randomName: string): (r: Fallible<PathBuf>)
    ensures destination.Some? ==> r == Done(FromText(destination.value))
    ensures destination.None? && GitProvider.LastChunk(url, urlPath).Some? ==>
              r == ScmUtil.ExtractDirectory(GitProvider.LastChunk(url, urlPath).value, cwd)
    ensures destination.None? && GitProvider.LastChunk(url, urlPath).None? ==>
              r == ScmUtil.ExtractDirectory(randomName, cwd)
  {
    ScmUtil.ComputeDestination(destination, GitProvider.LastChunk(url, urlPath), cwd, randomName)
  }

  /** Inside a working directory, the destination is named as the git provider of the
      newer tool suggests. */
  lemma AgreesWithProvider(url: string, urlPath: string -> Option<string>, dir: Path,
                           randomName: string, stem: string)
    requires GitProvider.ComputeDestination(url, urlPath) == Done(Some(stem))
    ensures ComputeDestination(url, None, urlPath, Some(dir), randomName) == Done(Located(dir + [stem]))
  {
  }

  /** Every sample URL of the ssh, git, http, ftp and file tables is checked out into a
      directory named `repo`, whether or not it parses as a URL (when it does, to a path
      ending in `/repo.git`). */
  lemma SampleUrlsCheckOutIntoRepo(urlPath: string -> Option<string>, dir: Path, randomName: string)
    ensures forall u :: u in SshUrls + GitUrls + HttpUrls + FtpUrls + FileUrls ==>
              (urlPath(GitProvider.Sanitize(u)).None?
               || (exists q :: urlPath(GitProvider.Sanitize(u)) == Some(q + "/repo.git")))
              ==> var d := ComputeDestination(u, None, urlPath, Some(dir), randomName);
                  d.Done? && PathBufFileName(d.value) == Some("repo")
  {
    GitProvider.SampleUrlsSuggestRepo(urlPath);
    forall u | u in SshUrls + GitUrls + HttpUrls + FtpUrls + FileUrls
               && (urlPath(GitProvider.Sanitize(u)).None?
                   || (exists q :: urlPath(GitProvider.Sanitize(u)) == Some(q + "/repo.git")))
      ensures var d := ComputeDestination(u, None, urlPath, Some(dir), randomName);
              d.Done? && PathBufFileName(d.value) == Some("repo")
    {
      assert GitProvider.SuggestedCheckoutName(u, urlPath) == Done(Some("repo"));
      assert IsGitUrl(u);
      AgreesWithProvider(u, urlPath, dir, randomName, "repo");
      PushedFileName(dir, "repo");
    }
  }

  /** `do_scm_checkout`: the destination is worked out first (so a destination that panics
      panics for any URL); a git URL is then cloned, and any other URL gives 1 without
      running anything. */
  method DoScmCheckout(url: string, destination: Option<string>, urlPath: string -> Option<string>,
                       cwd: Option<Path>, randomName: string, run: (string, seq<string>) -> ChildOutcome)
    returns (r: Fallible<Result<int, CheckoutError>>)
    ensures ComputeDestination(url, destination, urlPath, cwd, randomName).Panic? ==> r.Panic?
    ensures ComputeDestination(url, destination, urlPath, cwd, randomName).Done? && !IsGitUrl(url) ==>
              r == Done(Success(1))
    ensures var d := ComputeDestination(url, destination, urlPath, cwd, randomName);
            d.Done? && IsGitUrl(url) ==>
              r == GitProvider.CloneResult(run("git", ["clone", url, PathBufText(d.value)]))
  {
    var checkoutDir := ComputeDestination(url, destination, urlPath, cwd, randomName);
    if checkoutDir.Panic? {
      return Panic(checkoutDir.reason);
    }
    match CheckoutGit.GetGitCheckout(url) {
      case Some(gitCheckout) =>
        var args;
        args, r := CheckoutGit.DoCheckout(gitCheckout, checkoutDir.value, run);
      case None =>
        r := Done(Success(1));
    }
  }
}
