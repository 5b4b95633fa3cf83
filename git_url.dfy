/**
 * The git URL classifier shared by `lib/core/src/libs/scm/provider/git.rs`
 * (`GIT_URL_REGEX`, `handles_url`) and `lib/checkout/src/scm/git.rs` (`is_git_url`):
 * a set of six regular expressions, any of which may match anywhere in the text.
 *
 * The expressions are given here as a ghost grammar, `Head` followed by `Tail`; the
 * classifier the model runs is the hand-rolled `IsGitUrl`, and `MatchedAnyIsGitUrl`
 * proves the two agree on every input. Regex `.` does not match a newline.
 */
module GitUrl {
  import opened RustStr

  // ----- The six expressions, as a grammar -----

  predicate NoNewline(t: string) {
    forall m :: 0 <= m < |t| ==> t[m] != '\n'
  }

  /** The class written `[a-zA-Z0-9\\-\\.]`: letters, digits, backslash (the `\\-\\` is a
      range from backslash to backslash) and dot. */
  predicate HostChar(c: char) {
    ('a' <= c <= 'z') || ('A' <= c <= 'Z') || ('0' <= c <= '9') || c == '\\' || c == '.'
  }

  /** `[a-zA-Z0-9\\-\\.]+` */
  predicate Host(t: string) {
    |t| >= 1 && forall m :: 0 <= m < |t| ==> HostChar(t[m])
  }

  /** `(:[0-9]+)?` */
  predicate OptPort(t: string) {
    t == [] || (|t| >= 2 && t[0] == ':' && forall m :: 1 <= m < |t| ==> '0' <= t[m] <= '9')
  }

  /** `((.*@)?)` */
  predicate OptUser(t: string) {
    t == [] || (t[|t| - 1] == '@' && NoNewline(t[..|t| - 1]))
  }

  /** A host followed by an optional port. */
  ghost predicate HostPort(t: string) {
    exists h :: 0 <= h <= |t| && Host(t[..h]) && OptPort(t[h..])
  }

  /** The part of each expression that comes before its final `/(.+?)(\.git(/)?)`. */
  datatype Pattern = Ssh | Git | Http | Ftp | Slash | File

  /** The expressions in the order `GIT_URL_REGEX` lists them. */
  const GitUrlRegex: seq<Pattern> := [Ssh, Git, Http, Ftp, Slash, File]

  ghost predicate Head(p: Pattern, t: string) {
    match p
    case Ssh => |t| >= 6 && t[..6] == "ssh://" && exists a :: 6 <= a <= |t| && OptUser(t[6..a]) && HostPort(t[a..])
    case Git => |t| >= 6 && t[..6] == "git://" && HostPort(t[6..])
    case Http => (|t| >= 7 && t[..7] == "http://" && HostPort(t[7..]))
                 || (|t| >= 8 && t[..8] == "https://" && HostPort(t[8..]))
    case Ftp => (|t| >= 6 && t[..6] == "ftp://" && HostPort(t[6..]))
                || (|t| >= 7 && t[..7] == "ftps://" && HostPort(t[7..]))
    case Slash => t == []
    case File => t == "file://"
  }

  /** `/(.+?)(\.git(/)?)` starting at position `i`: a slash, at least one character that is
      not a newline, then `.git` (the trailing `/` is optional, so it never matters). */
  ghost predicate Tail(u: string, i: int) {
    exists k :: GitTailAt(u, i, k)
  }

  /** A `/` at `i`, one or more characters that are not newlines, and `.git` at `k`. */
  predicate GitTailAt(u: string, i: int, k: int) {
    0 <= i && i + 2 <= k <= |u| - 4
    && u[i] == '/' && NoNewline(u[i + 1..k]) && u[k..k + 4] == ".git"
  }

  /** The expression matches somewhere in `u` (the expressions are not anchored). */
  ghost predicate MatchesAnywhere(u: string, p: Pattern) {
    exists s, i :: 0 <= s <= i < |u| && Head(p, u[s..i]) && Tail(u, i)
  }

  /** `RegexSet::matches(u).matched_any()` */
  ghost predicate MatchedAny(u: string) {
    exists p :: p in GitUrlRegex && MatchesAnywhere(u, p)
  }

  // ----- The classifier -----

  /** The text holds a `/`, then at least one character that is not a newline, then
      `.git`. */
  predicate IsGitUrl(u: string) {
    exists i, k | 0 <= i < |u| && 0 <= k <= |u| :: GitTailAt(u, i, k)
  }

  /** The union of the six expressions is the hand-rolled classifier: every expression
      ends in the slash pattern's tail, and the slash pattern has nothing before it. */
  lemma MatchedAnyIsGitUrl(u: string)
    ensures MatchedAny(u) <==> IsGitUrl(u)
  {
    if MatchedAny(u) {
      var p :| p in GitUrlRegex && MatchesAnywhere(u, p);
      var s, i :| 0 <= s <= i < |u| && Head(p, u[s..i]) && Tail(u, i);
      var k :| GitTailAt(u, i, k);
      assert 0 <= i < |u| && 0 <= k <= |u|;
    }
    if IsGitUrl(u) {
      var i, k :| 0 <= i < |u| && 0 <= k <= |u| && GitTailAt(u, i, k);
      assert Tail(u, i);
      assert Head(Slash, u[i..i]);
      assert MatchesAnywhere(u, Slash);
      assert Slash in GitUrlRegex;
    }
  }

  /** A `/`, a name without newlines, and `.git`, with anything around them, is a git URL. */
  lemma NamedRepo(before: string, name: string, after: string)
    requires |name| >= 1 && NoNewline(name)
    ensures IsGitUrl(before + "/" + name + ".git" + after)
  {
    var u := before + "/" + name + ".git" + after;
    var i := |before|;
    var k := |before| + 1 + |name|;
    assert u[i] == '/';
    assert u[i + 1..k] == name;
    assert u[k..k + 4] == ".git";
    assert GitTailAt(u, i, k);
  }

  // ----- The sample URLs of the test tables -----

  const SshUrls: seq<string> := [
    "ssh://host.xz/path/to/repo.git/",
    "ssh://host.xz/path/to/repo.git",
    "ssh://ethall@host.xz/path/to/repo.git/",
    "ssh://ethall@host.xz/path/to/repo.git",
    "ssh://host.xz:111/path/to/repo.git/",
    "ssh://host.xz:111/path/to/repo.git",
    "ssh://ethall@host.xz:111/path/to/repo.git/",
    "ssh://ethall@host.xz:111/path/to/repo.git",
    "ssh://host.xz/~ethall/path/to/repo.git/",
    "ssh://host.xz/~ethall/path/to/repo.git",
    "ssh://ethall@host.xz/~ethall/path/to/repo.git/",
    "ssh://ethall@host.xz/~ethall/path/to/repo.git",
    "ssh://ethall@host.xz:111/~ethall/path/to/repo.git/",
    "ssh://ethall@host.xz:111/~ethall/path/to/repo.git"]

  const GitUrls: seq<string> := [
    "git://host.xz/path/to/repo.git/",
    "git://host.xz/path/to/repo.git",
    "git://host.xz:111/path/to/repo.git/",
    "git://host.xz:111/path/to/repo.git",
    "git://host.xz:to/repo.git"]

  const HttpUrls: seq<string> := [
    "http://host.xz/path/to/repo.git/",
    "http://host.xz/path/to/repo.git",
    "http://host.xz:222/path/to/repo.git/",
    "http://host.xz:222/path/to/repo.git",
    "https://host.xz/path/to/repo.git/",
    "https://host.xz/path/to/repo.git",
    "https://host.xz:222/path/to/repo.git/",
    "https://host.xz:222/path/to/repo.git"]

  const FtpUrls: seq<string> := [
    "ftp://host.xz/path/to/repo.git/",
    "ftps://host.xz/path/to/repo.git/",
    "ftp://host.xz:222/path/to/repo.git/",
    "ftps://host.xz:222/path/to/repo.git/"]

  const FileUrls: seq<string> := [
    "/path/to/repo.git",
    "/path/to/repo.git/",
    "file:///path/to/repo.git",
    "file:///path/to/repo.git/"]

  const CustomUrls: seq<string> := [
    "git@github.com:ethankhall/etrain.git",
    "https://github.com/ethankhall/etrain.git"]

  /** Every sample of the first five tables is some text, then `/repo.git`, then
      possibly a `/`. */
  predicate RepoShaped(u: string) {
    (|u| >= 9 && u[|u| - 9..] == "/repo.git")
    || (|u| >= 10 && u[|u| - 10..] == "/repo.git/")
  }

  lemma RepoShapedIsGitUrl(u: string)
    requires RepoShaped(u)
    ensures IsGitUrl(u)
  {
    if |u| >= 9 && u[|u| - 9..] == "/repo.git" {
      assert u == u[..|u| - 9] + "/" + "repo" + ".git" + "";
      NamedRepo(u[..|u| - 9], "repo", "");
    } else {
      assert u == u[..|u| - 10] + "/" + "repo" + ".git" + "/";
      NamedRepo(u[..|u| - 10], "repo", "/");
    }
  }

  lemma SshUrlsAreRepoShaped()
    ensures forall u :: u in SshUrls ==> RepoShaped(u)
  {
  }

  lemma GitUrlsAreRepoShaped()
    ensures forall u :: u in GitUrls ==> RepoShaped(u)
  {
  }

  lemma HttpUrlsAreRepoShaped()
    ensures forall u :: u in HttpUrls ==> RepoShaped(u)
  {
  }

  lemma FtpUrlsAreRepoShaped()
    ensures forall u :: u in FtpUrls ==> RepoShaped(u)
  {
  }

  lemma FileUrlsAreRepoShaped()
    ensures forall u :: u in FileUrls ==> RepoShaped(u)
  {
  }

  /** Every URL of the six test tables is accepted, including `git://host.xz:to/repo.git`
      (a port that is not a number) and `git@github.com:ethankhall/etrain.git` (no
      scheme). */
  lemma TablesAreGitUrls()
    ensures forall u :: u in SshUrls + GitUrls + HttpUrls + FtpUrls + FileUrls + CustomUrls ==> IsGitUrl(u)
  {
    SshUrlsAreRepoShaped();
    GitUrlsAreRepoShaped();
    HttpUrlsAreRepoShaped();
    FtpUrlsAreRepoShaped();
    FileUrlsAreRepoShaped();
    forall u | u in SshUrls + GitUrls + HttpUrls + FtpUrls + FileUrls
      ensures IsGitUrl(u)
    {
      RepoShapedIsGitUrl(u);
    }
    CustomUrlsAreGitUrls();
  }

  lemma CustomUrlsAreGitUrls()
    ensures forall u :: u in CustomUrls ==> IsGitUrl(u)
  {
    NamedRepo("git@github.com:ethankhall", "etrain", "");
    assert "git@github.com:ethankhall" + "/" + "etrain" + ".git" + "" == CustomUrls[0];
    NamedRepo("https://github.com/ethankhall", "etrain", "");
    assert "https://github.com/ethankhall" + "/" + "etrain" + ".git" + "" == CustomUrls[1];
  }

  /** Text without `/` is never a git URL. */
  lemma NoSlashNoGitUrl(u: string)
    requires '/' !in u
    ensures !IsGitUrl(u)
  {
  }
}
