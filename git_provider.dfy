/**
 * `lib/core/src/libs/scm/provider/git.rs`: the git provider. It claims a URL when
 * the classifier in `GitUrl` accepts it, suggests a checkout directory name from
 * the URL, and clones by running `git clone <url> <destination>`.
 *
 * `Url::parse` is an input, `urlPath`: the path of the parsed URL, or `None` when
 * the text does not parse. Running `git` is an input too, `run`: what spawning and
 * waiting for the process gave.
 */
module GitProvider {
  import opened Wrappers
  import opened RustStr
  import opened RustPath
  import opened GitUrl
  import opened Process
  import opened Scm

  predicate IsSeparator(c: char) {
    c == '/' || c == '\\'
  }

  /** One trailing `/` or `\` removed, if there is one; never more. */
  function Sanitize(url: string): (r: string)
    ensures |url| - 1 <= |r| <= |url|
    ensures r == url[..|r|]
    ensures |r| < |url| <==> |url| > 0 && IsSeparator(url[|url| - 1])
  {
    if |url| > 0 && IsSeparator(url[|url| - 1]) then url[..|url| - 1] else url
  }

  /** `extract_directory`: the file stem of the chunk; a chunk without a file name (such as
      `/` or `..`) panics. */
  function ExtractDirectory(chunk: string): (r: Fallible<string>)
    ensures r.Done? <==> FileName(chunk).Some?
    ensures r.Done? ==> r.value != "" && '/' !in r.value
  {
    match FileStem(chunk)
    case Some(stem) => Done(stem)
    case None => Panic("called `Option::unwrap()` on a `None` value")
  }

  /** The piece of the URL the name is taken from: after one trailing separator is
      removed, the parsed URL's path; failing that, the text from the last `/`, or else
      from the last `\`; failing all three, nothing. */
  function LastChunk(url: string, urlPath: string -> Option<string>): (r: Option<string>)
    ensures var s := Sanitize(url);
            r.None? <==> urlPath(s).None? && '/' !in s && '\\' !in s
    ensures var s := Sanitize(url);
            urlPath(s).Some? ==> r == urlPath(s)
    ensures var s := Sanitize(url);
            urlPath(s).None? && r.Some? ==>
              (exists i :: 0 <= i < |s| && r.value == s[i..] && IsSeparator(s[i])
                           && (s[i] == '/' <==> '/' in s)
                           && forall k :: i < k < |s| ==> s[k] != s[i])
  {
    var s := Sanitize(url);
    if urlPath(s).Some? then urlPath(s)
    else match RFind(s, '/')
      case Some(i) => Some(s[i..])
      case None =>
        match RFind(s, '\\')
        case Some(i) => Some(s[i..])
        case None => None
  }

  /** Without a parsed path, `/` is looked for before `\`: `a/b\c` gives `/b\c`. */
  lemma SlashSearchedFirst(urlPath: string -> Option<string>)
    requires urlPath("a/b\\c") == None
    ensures LastChunk("a/b\\c", urlPath) == Some("/b\\c")
  {
    assert Sanitize("a/b\\c") == "a/b\\c";
  }

  /** `compute_destination`: the stem of the last chunk, if there is one. */
  function ComputeDestination(url: string, urlPath: string -> Option<string>): (r: Fallible<Option<string>>)
    ensures r == Done(None) <==> LastChunk(url, urlPath).None?
    ensures LastChunk(url, urlPath).Some? ==>
              r == (match ExtractDirectory(LastChunk(url, urlPath).value)
                    case Done(d) => Done(Some(d))
                    case Panic(m) => Panic(m))
  {
    match LastChunk(url, urlPath)
    case None => Done(None)
    case Some(c) =>
      match ExtractDirectory(c)
      case Done(d) => Done(Some(d))
      case Panic(m) => Panic(m)
  }

  /** `sugested_checkout_name`: only a URL the provider handles gets a name. */
  function SuggestedCheckoutName(url: string, urlPath: string -> Option<string>): (r: Fallible<Option<string>>)
    ensures !IsGitUrl(url) ==> r == Done(None)
    ensures IsGitUrl(url) ==> r == ComputeDestination(url, urlPath)
  {
    if IsGitUrl(url) then ComputeDestination(url, urlPath) else Done(None)
  }

  /** The last `/` of `before/name` is the one before `name` when `name` has none. */
  lemma RFindBeforeName(before: string, name: string)
    requires '/' !in name
    ensures RFind(before + "/" + name, '/') == Some(|before|)
  {
    var pre := before + "/";
    var s := pre + name;
    assert s[|before|] == '/';
    forall k | |pre| <= k < |s|
      ensures s[k] != '/'
    {
      assert s[k] == name[k - |pre|];
    }
    RFindLast(s, '/', |before|);
  }

  /** The stem of `/name` is the stem of `name`, for a plain file name. */
  lemma StemAfterSlash(prefix: string, name: string)
    requires name != "" && name != "." && name != ".." && '/' !in name
    ensures ExtractDirectory(prefix + "/" + name) == Done(NameStem(name))
  {
    FileNameAfterSlash(prefix, name);
  }

  /** Whether or not the URL parses (when it does, to a path ending in `/name`), a URL
      ending in `/name`, possibly followed by one separator, is named after the stem of
      `name`. */
  lemma SuggestsStemOfLastSegment(before: string, name: string, trailing: string,
                                  urlPath: string -> Option<string>)
    requires name != "" && name != "." && name != ".." && '/' !in name && name[|name| - 1] != '\\'
    requires trailing == "" || trailing == "/" || trailing == "\\"
    requires var s := before + "/" + name;
             urlPath(s).None? || (exists q :: urlPath(s) == Some(q + "/" + name))
    ensures ComputeDestination(before + "/" + name + trailing, urlPath) == Done(Some(NameStem(name)))
  {
    var s := before + "/" + name;
    assert Sanitize(s + trailing) == s by {
      if trailing == "" {
        assert s + trailing == s;
      } else {
        assert (s + trailing)[..|s|] == s;
      }
    }
    if urlPath(s).Some? {
      var q :| urlPath(s) == Some(q + "/" + name);
      StemAfterSlash(q, name);
    } else {
      RFindBeforeName(before, name);
      assert s[|before|..] == "/" + name;
      StemAfterSlash("", name);
      assert "" + "/" + name == "/" + name;
    }
  }

  /** A URL ending in `/repo.git`, possibly with one more `/`, is a git URL named `repo`,
      whether or not it parses as a URL (when it does, to a path ending in `/repo.git`). */
  lemma RepoShapedSuggestsRepo(u: string, urlPath: string -> Option<string>)
    requires RepoShaped(u)
    requires var s := Sanitize(u);
             urlPath(s).None? || (exists q :: urlPath(s) == Some(q + "/repo.git"))
    ensures SuggestedCheckoutName(u, urlPath) == Done(Some("repo"))
  {
    RepoShapedIsGitUrl(u);
    NameStemSamples();
    var before, trailing := RepoShapedSplit(u);
    var s := before + "/" + "repo.git";
    assert Sanitize(u) == s by {
      assert u[..|s|] == s;
    }
    if urlPath(s).Some? {
      var q :| urlPath(s) == Some(q + "/repo.git");
      RepoLiteral();
      assert q + "/repo.git" == q + "/" + "repo.git";
    }
    SuggestsStemOfLastSegment(before, "repo.git", trailing, urlPath);
  }

  lemma RepoLiteral()
    ensures "/" + "repo.git" == "/repo.git"
    ensures "/" + "repo.git" + "/" == "/repo.git/"
    ensures '/' !in "repo.git" && "repo.git"[7] != '\\'
  {
  }

  /** The text before the `/repo.git` of a sample URL, and what follows it. */
  lemma RepoShapedSplit(u: string) returns (before: string, trailing: string)
    requires RepoShaped(u)
    ensures trailing == "" || trailing == "/"
    ensures u == before + "/" + "repo.git" + trailing
  {
    RepoLiteral();
    var n := if |u| >= 9 && u[|u| - 9..] == "/repo.git" then 9 else 10;
    before := u[..|u| - n];
    trailing := if n == 9 then "" else "/";
    assert u == before + u[|u| - n..];
  }

  /** Every sample URL of the ssh, git, http, ftp and file tables is named `repo`. */
  lemma SampleUrlsSuggestRepo(urlPath: string -> Option<string>)
    ensures forall u :: u in SshUrls + GitUrls + HttpUrls + FtpUrls + FileUrls ==>
              (urlPath(Sanitize(u)).None? || (exists q :: urlPath(Sanitize(u)) == Some(q + "/repo.git")))
              ==> SuggestedCheckoutName(u, urlPath) == Done(Some("repo"))
  {
    SshUrlsAreRepoShaped();
    GitUrlsAreRepoShaped();
    HttpUrlsAreRepoShaped();
    FtpUrlsAreRepoShaped();
    FileUrlsAreRepoShaped();
    forall u | u in SshUrls + GitUrls + HttpUrls + FtpUrls + FileUrls
               && (urlPath(Sanitize(u)).None? || (exists q :: urlPath(Sanitize(u)) == Some(q + "/repo.git")))
      ensures SuggestedCheckoutName(u, urlPath) == Done(Some("repo"))
    {
      RepoShapedSuggestsRepo(u, urlPath);
    }
  }

  /** The arguments `do_checkout` gives `git`: `clone`, the URL and the destination, in
      that order. */
  function CloneArgs(url: string, destination: PathBuf): (r: seq<string>)
    ensures |r| == 3 && r[0] == "clone" && r[1] == url && r[2] == PathBufText(destination)
  {
    ["clone", url, PathBufText(destination)]
  }

  /** What `do_checkout` makes of the `git` process: a failed spawn or wait panics, an exit
      code is passed on, and an exit without a code (a signal) is an error. */
  function CloneResult(outcome: ChildOutcome): (r: Fallible<Result<int, CheckoutError>>)
    ensures r.Panic? <==> !outcome.Exited?
    ensures outcome.Exited? && outcome.code.Some? ==> r == Done(Success(outcome.code.value))
    ensures outcome.Exited? && outcome.code.None? ==> r == Done(Failure(CheckoutError("Unknown Error")))
  {
    match outcome
    case SpawnFailed(_) => Panic("failed to execute process")
    case WaitFailed(_) => Panic("failed to wait on child")
    case Exited(_, _, code) =>
      match code
      case Some(c) => Done(Success(c))
      case None => Done(Failure(CheckoutError("Unknown Error")))
  }

  /** `do_checkout`: the argument list is built one `push_back` at a time, then `git` is
      run with it. */
  method DoCheckout(url: string, destination: PathBuf, run: (string, seq<string>) -> ChildOutcome)
    returns (args: seq<string>, r: Fallible<Result<int, CheckoutError>>)
    ensures args == CloneArgs(url, destination)
    ensures r == CloneResult(run("git", args))
  {
    args := [];
    args := args + ["clone"];
    args := args + [url];
    args := args + [PathBufText(destination)];
    r := CloneResult(run("git", args));
  }

  /** The git provider as an `ScmProvier`. */
  function Provider(urlPath: string -> Option<string>, run: (string, seq<string>) -> ChildOutcome): ScmProvider {
    ScmProvider(u => IsGitUrl(u),
                u => SuggestedCheckoutName(u, urlPath),
                (u, d) => CloneResult(run("git", CloneArgs(u, d))))
  }
}
