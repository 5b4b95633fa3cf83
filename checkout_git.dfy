/**
 * `lib/checkout/src/scm/git.rs`: the git checkout of the `checkout` library. A URL
 * gets a `GitScm` exactly when the six-pattern classifier of `GitUrl` accepts it, and
 * the checkout runs `git clone <url> <destination>` as the git provider does.
 */
module CheckoutGit {
  import opened Wrappers
  import opened RustPath
  import opened GitUrl
  import opened Process
  import opened Scm
  import GitProvider

  /** `GitScm`: the URL to clone (the logger is left out). */
  datatype GitScm = GitScm(url: string)

  /** `get_git_checkout`. */
  function GetGitCheckout(url: string): (r: Option<GitScm>)
    ensures r.Some? <==> IsGitUrl(url)
    ensures r.Some? ==> r.value.url == url
  {
    if IsGitUrl(url) then Some(GitScm(url)) else None
  }

  /** Every URL of the test tables gets a checkout of that very URL. */
  lemma TableUrlsGetCheckout()
    ensures forall u :: u in SshUrls + GitUrls + HttpUrls + FtpUrls + FileUrls + CustomUrls ==>
              GetGitCheckout(u) == Some(GitScm(u))
  {
    TablesAreGitUrls();
  }

  /** Text without a `/` never gets one. */
  lemma NoSlashNoCheckout(url: string)
    requires '/' !in url
    ensures GetGitCheckout(url) == None
  {
    NoSlashNoGitUrl(url);
  }

  /** `GitScm::do_checkout`: `git` is given `clone`, the URL and the destination. */
  method DoCheckout(scm: GitScm, destination: PathBuf, run: (string, seq<string>) -> ChildOutcome)
    returns (args: seq<string>, r: Fallible<Result<int, CheckoutError>>)
    ensures args == ["clone", scm.url, PathBufText(destination)]
    ensures r == GitProvider.CloneResult(run("git", args))
  {
    args, r := GitProvider.DoCheckout(scm.url, destination, run);
  }
}
