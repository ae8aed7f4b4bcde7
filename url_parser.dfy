/**
 * URL parsing and validation (app/utils/url_parser.py): GitHub repository
 * extraction by the two `re.search` patterns, the `urlparse` split the
 * validators rely on, and the classification of a URL as github, hackathon
 * or website.
 */
module UrlParser {
  import opened Wrappers
  import opened Strings

  // ---------------------------------------------------------------------
  // Scanning helpers
  // ---------------------------------------------------------------------

  /** Index of the first character of `s` that lies in `cs`, or `|s|`. */
  function FirstOf(s: string, cs: set<char>): (i: nat)
    ensures i <= |s|
    ensures forall k :: 0 <= k < i ==> s[k] !in cs
    ensures i < |s| ==> s[i] in cs
  {
    if s == [] then 0 else if s[0] in cs then 0 else 1 + FirstOf(s[1..], cs)
  }

  lemma FirstOfUnique(s: string, cs: set<char>, i: nat)
    requires i <= |s|
    requires forall k :: 0 <= k < i ==> s[k] !in cs
    requires i < |s| ==> s[i] in cs
    ensures FirstOf(s, cs) == i
  {
  }

  lemma FirstOfConcat(a: string, b: string, cs: set<char>)
    requires forall k :: 0 <= k < |a| ==> a[k] !in cs
    ensures FirstOf(a + b, cs) == |a| + FirstOf(b, cs)
  {
    var f := FirstOf(b, cs);
    forall k | 0 <= k < |a| + f
      ensures (a + b)[k] !in cs
    {
      if k >= |a| {
        assert (a + b)[k] == b[k - |a|];
      }
    }
    if f < |b| {
      assert (a + b)[|a| + f] == b[f];
    }
    FirstOfUnique(a + b, cs, |a| + f);
  }

  function FirstSlash(s: string): (i: nat)
    ensures i <= |s|
    ensures NoSlash(s[..i])
    ensures i < |s| ==> s[i] == '/'
  {
    var i := FirstOf(s, {'/'});
    assert forall k :: 0 <= k < i ==> s[..i][k] == s[k];
    i
  }

  lemma FirstSlashOfSegment(a: string, b: string)
    requires NoSlash(a)
    ensures FirstSlash(a + b) == |a| + FirstSlash(b)
  {
    FirstOfConcat(a, b, {'/'});
  }

  // ---------------------------------------------------------------------
  // The two extraction patterns of extract_github_repo
  // ---------------------------------------------------------------------

  /** The literal prefix `github\.com/` both patterns start with. */
  const Host: string := "github.com/"

  predicate HostAt(url: string, p: int) {
    OccursAt(url, Host, p)
  }

  /**
   * `Strict` is `github\.com/([^/]+/[^/]+?)(?:\.git)?/?$`,
   * `Loose` is `github\.com/([^/]+/[^/]+?)(?:/.*)?$`.
   */
  datatype Pattern = Strict | Loose

  /** What `$` accepts without MULTILINE: the end, or a final newline. */
  predicate AtEnd(t: string) {
    t == "" || t == "\n"
  }

  /**
   * The text after the lazily matched repository segment matches the rest of
   * the pattern. For `Strict` this is `(?:\.git)?/?$`; for `Loose` it is
   * `(?:/.*)?$`, where `.` does not match a newline.
   */
  predicate TailOk(pat: Pattern, t: string) {
    match pat
    case Strict =>
      t in {"", "\n", ".git", ".git\n", "/", "/\n", ".git/", ".git/\n"}
    case Loose =>
      AtEnd(t)
      || (t != "" && t[0] == '/'
          && (NoNewline(t[1..]) || (|t| >= 2 && t[|t| - 1] == '\n' && NoNewline(t[1..|t| - 1]))))
  }

  /**
   * The lazy `[^/]+?` tries the lengths `k`, `k + 1`, ... up to the first
   * slash of `r` and stops at the first one after which the tail matches.
   */
  function LazyEnd(pat: Pattern, r: string, k: nat): (e: Option<nat>)
    requires 1 <= k
    decreases |r| - k
    ensures e.Some? ==> k <= e.value <= FirstSlash(r) && TailOk(pat, r[e.value..])
    ensures e.Some? ==> forall m :: k <= m < e.value ==> !TailOk(pat, r[m..])
    ensures e.None? ==> forall m :: k <= m <= FirstSlash(r) ==> !TailOk(pat, r[m..])
  {
    if k > FirstSlash(r) then None
    else if TailOk(pat, r[k..]) then Some(k)
    else LazyEnd(pat, r, k + 1)
  }

  /** `owner/repo` with a non-empty owner and exactly one slash. */
  predicate RepoShape(name: string) {
    var i := FirstSlash(name);
    0 < i < |name| && NoSlash(name[i + 1..])
  }

  lemma SegmentsShape(a: string, b: string)
    requires a != [] && NoSlash(a) && NoSlash(b)
    ensures RepoShape(a + "/" + b)
  {
    FirstSlashOfSegment(a, "/" + b);
    assert a + "/" + b == a + ("/" + b);
    assert (a + "/" + b)[|a| + 1..] == b;
  }

  lemma OccursAfterHost(url: string, p: nat, n: nat)
    requires HostAt(url, p) && p + |Host| + n <= |url|
    ensures OccursAt(url, Host + url[p + |Host|..][..n], p)
  {
    assert url[p..p + |Host| + n] == url[p..p + |Host|] + url[p + |Host|..p + |Host| + n];
  }

  lemma PrefixNoSlash(s: string, k: nat)
    requires k <= FirstSlash(s)
    ensures NoSlash(s[..k])
  {
    assert forall x :: 0 <= x < k ==> s[..k][x] == s[..FirstSlash(s)][x];
  }

  /** The first segment is a greedy `[^/]+` followed by `/`, so it ends at the first slash. */
  function MatchAt(pat: Pattern, url: string, p: nat): (m: Option<string>)
    requires HostAt(url, p)
    ensures m.Some? ==> OccursAt(url, Host + m.value, p) && RepoShape(m.value)
  {
    var after := url[p + |Host|..];
    var j := FirstSlash(after);
    if j == 0 || j == |after| then None
    else
      var r := after[j + 1..];
      match LazyEnd(pat, r, 1)
      case None => None
      case Some(k) =>
        var name := after[..j] + "/" + r[..k];
        assert after[..j + 1 + k] == name;
        OccursAfterHost(url, p, j + 1 + k);
        PrefixNoSlash(r, k);
        SegmentsShape(after[..j], r[..k]);
        Some(name)
  }

  /** `re.search`: the leftmost start position at which the pattern matches. */
  function Search(pat: Pattern, url: string, p: nat): (m: Option<string>)
    decreases |url| - p
    ensures m.Some? ==> Contains(url, Host + m.value) && RepoShape(m.value)
  {
    if p + |Host| > |url| then None
    else if HostAt(url, p) && MatchAt(pat, url, p).Some? then MatchAt(pat, url, p)
    else Search(pat, url, p + 1)
  }

  function StripGitSuffix(name: string): (r: string)
    ensures StartsWith(name, r)
    ensures RepoShape(name) ==> RepoShape(r)
  {
    if EndsWith(name, ".git") then
      var r := name[..|name| - 4];
      if RepoShape(name) then
        var i := FirstSlash(name);
        assert name[|name| - 4..] == ".git";
        assert i < |name| - 4 by {
          assert name[i] == '/';
          assert forall x :: |name| - 4 <= x < |name| ==> name[x] == ".git"[x - (|name| - 4)];
        }
        assert name == name[..i] + name[i..];
        FirstSlashOfSegment(name[..i], name[i..]);
        FirstSlashOfSegment(r[..i], r[i..]);
        assert r[..i] == name[..i];
        assert r[i..] == name[i..|name| - 4];
        assert r[i + 1..] == name[i + 1..|name| - 4];
        assert forall x :: i + 1 <= x < |r| ==> r[x] == name[x];
        r
      else r
    else name
  }

  lemma ContainsPrefixOf(s: string, u: string, v: string)
    requires Contains(s, u + v)
    ensures Contains(s, u)
  {
    var i :| 0 <= i <= |s| - |u + v| && OccursAt(s, u + v, i);
    assert s[i..i + |u|] == (u + v)[..|u|];
    assert OccursAt(s, u, i);
  }

  /**
   * extract_github_repo: `None` for the empty string; otherwise the first
   * pattern that matches, with one trailing `.git` removed from the group.
   */
  function ExtractGithubRepo(url: string): (r: Option<string>)
    ensures url == "" ==> r.None?
    ensures r.Some? ==> RepoShape(r.value) && Contains(url, Host + r.value)
  {
    if url == "" then None
    else
      var m := match Search(Strict, url, 0)
        case Some(g) => Some(g)
        case None => Search(Loose, url, 0);
      match m
      case None => None
      case Some(g) =>
        var s := StripGitSuffix(g);
        assert Host + g == (Host + s) + g[|s|..];
        ContainsPrefixOf(url, Host + s, g[|s|..]);
        Some(s)
  }

  /**
   * `github\.com/([^/]+/[^/]+)` with both segments greedy, the pattern
   * main.py, revamp_workflow.py and discovery_tools.py use instead of
   * extract_github_repo.
   */
  function RepoPathAt(url: string, p: nat): (m: Option<string>)
    requires HostAt(url, p)
    ensures m.Some? ==> RepoShape(m.value)
  {
    var after := url[p + |Host|..];
    var j := FirstSlash(after);
    if j == 0 || j == |after| then None
    else
      var r := after[j + 1..];
      var k := FirstSlash(r);
      if k == 0 then None
      else
        SegmentsShape(after[..j], r[..k]);
        Some(after[..j] + "/" + r[..k])
  }

  function FindRepoPathFrom(url: string, p: nat): (m: Option<string>)
    decreases |url| - p
    ensures m.Some? ==> RepoShape(m.value)
  {
    if p + |Host| > |url| then None
    else if HostAt(url, p) && RepoPathAt(url, p).Some? then RepoPathAt(url, p)
    else FindRepoPathFrom(url, p + 1)
  }

  function FindRepoPath(url: string): (m: Option<string>)
    ensures m.Some? ==> RepoShape(m.value)
  {
    FindRepoPathFrom(url, 0)
  }

  // ---------------------------------------------------------------------
  // urllib.parse.urlparse, as far as the validators use it
  // ---------------------------------------------------------------------

  datatype ParsedUrl = ParsedUrl(scheme: string, netloc: string, path: string,
                                 params: string, query: string, fragment: string)

  /** Leading C0 control characters and spaces are stripped first. */
  function LStripControl(s: string): (r: string)
    ensures |r| <= |s| && r == s[|s| - |r|..]
    ensures r != [] ==> r[0] > ' '
  {
    if s != [] && s[0] <= ' ' then LStripControl(s[1..]) else s
  }

  predicate Unsafe(c: char) {
    c == '\t' || c == '\r' || c == '\n'
  }

  /** Tabs, carriage returns and newlines are deleted anywhere in the URL. */
  function RemoveUnsafe(s: string): (r: string)
    ensures forall i :: 0 <= i < |r| ==> !Unsafe(r[i])
    ensures |r| <= |s|
  {
    if s == [] then []
    else (if Unsafe(s[0]) then [] else [s[0]]) + RemoveUnsafe(s[1..])
  }

  lemma {:induction false} RemoveUnsafeConcat(a: string, b: string)
    ensures RemoveUnsafe(a + b) == RemoveUnsafe(a) + RemoveUnsafe(b)
  {
    if a == [] {
      assert a + b == b;
    } else {
      assert (a + b)[1..] == a[1..] + b;
      RemoveUnsafeConcat(a[1..], b);
    }
  }

  lemma {:induction false} RemoveUnsafeSafe(a: string)
    requires forall i :: 0 <= i < |a| ==> !Unsafe(a[i])
    ensures RemoveUnsafe(a) == a
  {
    if a != [] {
      RemoveUnsafeSafe(a[1..]);
    }
  }

  predicate AsciiAlpha(c: char) {
    'a' <= c <= 'z' || 'A' <= c <= 'Z'
  }

  predicate SchemeChar(c: char) {
    AsciiAlpha(c) || '0' <= c <= '9' || c == '+' || c == '-' || c == '.'
  }

  /** The scheme is what precedes the first `:` when it is a letter followed by scheme characters. */
  function SplitScheme(u: string): (string, string) {
    var i := FirstOf(u, {':'});
    if 0 < i < |u| && AsciiAlpha(u[0]) && (forall k :: 0 <= k < i ==> SchemeChar(u[k]))
    then (Lower(u[..i]), u[i + 1..])
    else ("", u)
  }

  const UsesParams: set<string> :=
    {"", "ftp", "hdl", "prospero", "http", "imap", "https", "shttp", "rtsp",
     "rtsps", "rtspu", "sip", "sips", "mms", "sftp", "tel"}

  /** Index of the last `c` in `s`, or -1. */
  function LastIndex(s: string, c: char): (i: int)
    ensures -1 <= i < |s|
    ensures i >= 0 ==> s[i] == c
    ensures forall k :: i < k < |s| ==> s[k] != c
  {
    if s == [] then -1
    else if s[|s| - 1] == c then |s| - 1
    else LastIndex(s[..|s| - 1], c)
  }

  /** The path without its `;params`, and the params. */
  function SplitParams(u: string): (string, string) {
    if '/' in u then
      var l := LastIndex(u, '/');
      var i := l + FirstOf(u[l..], {';'});
      if i == |u| then (u, "") else (u[..i], u[i + 1..])
    else
      var i := FirstOf(u, {';'});
      if i == |u| then (u, "") else (u[..i], u[i + 1..])
  }

  /** Split at the first `c`, when there is one. */
  function SplitAt(u: string, c: char): (string, string) {
    var i := FirstOf(u, {c});
    if i == |u| then (u, "") else (u[..i], u[i + 1..])
  }

  /** The URL after the leading strip and the deletion of tabs and newlines. */
  function Sanitize(url: string): string {
    RemoveUnsafe(LStripControl(url))
  }

  /** After `//`, the netloc runs up to the first `/`, `?` or `#`. */
  function SplitNetloc(rest: string): (string, string) {
    if StartsWith(rest, "//") then
      var e := 2 + FirstOf(rest[2..], {'/', '?', '#'});
      (rest[2..e], rest[e..])
    else ("", rest)
  }

  predicate BracketMismatch(netloc: string) {
    ('[' in netloc && ']' !in netloc) || (']' in netloc && '[' !in netloc)
  }

  /** The fragment, the query and then the params are split off what follows the netloc. */
  function SplitTail(scheme: string, netloc: string, rest: string): (p: ParsedUrl)
    ensures p.scheme == scheme && p.netloc == netloc
  {
    var (rest3, fragment) := SplitAt(rest, '#');
    var (rest4, query) := SplitAt(rest3, '?');
    var (path, params) :=
      if scheme in UsesParams && ';' in rest4 then SplitParams(rest4) else (rest4, "");
    ParsedUrl(scheme, netloc, path, params, query, fragment)
  }

  /**
   * urlparse: sanitise, take the scheme, take the netloc, reject a netloc
   * with an unmatched bracket, then split the rest.
   */
  function UrlParse(url: string): (r: Result<ParsedUrl, Exception>)
    ensures r.Failure? ==> r.error == Exception(ValueError, "Invalid IPv6 URL")
  {
    var (scheme, rest) := SplitScheme(Sanitize(url));
    var (netloc, rest2) := SplitNetloc(rest);
    if BracketMismatch(netloc) then Failure(Exception(ValueError, "Invalid IPv6 URL"))
    else Success(SplitTail(scheme, netloc, rest2))
  }

  /** Characters a host written after `https://` may not contain for the netloc to be that host. */
  predicate PlainHost(host: string) {
    forall i :: 0 <= i < |host| ==> HostChar(host[i])
  }

  predicate HostChar(c: char) {
    !Unsafe(c) && c != '/' && c != '?' && c != '#' && c != '[' && c != ']'
  }

  lemma LStripHttps(tail: string)
    ensures LStripControl("https://" + tail) == "https://" + tail
  {
    assert ("https://" + tail)[0] == 'h';
  }

  lemma RemoveUnsafeSlash(rest: string)
    requires rest == "" || rest[0] == '/'
    ensures RemoveUnsafe(rest) == "" || RemoveUnsafe(rest)[0] == '/'
  {
    if rest != "" {
      assert RemoveUnsafe(rest) == [rest[0]] + RemoveUnsafe(rest[1..]);
    }
  }

  lemma RemoveUnsafeHttps(host: string, rest: string)
    requires PlainHost(host)
    ensures RemoveUnsafe("https://" + (host + rest)) == "https://" + (host + RemoveUnsafe(rest))
  {
    RemoveUnsafeConcat("https://", host + rest);
    RemoveUnsafeConcat(host, rest);
    RemoveUnsafeSafe(host);
    RemoveUnsafeHttpsPrefix();
  }

  lemma RemoveUnsafeHttpsPrefix()
    ensures RemoveUnsafe("https://") == "https://"
  {
    RemoveUnsafeSafe("https://");
  }

  lemma SanitizeHttps(host: string, rest: string)
    requires PlainHost(host)
    requires rest == "" || rest[0] == '/'
    ensures Sanitize("https://" + host + rest) == "https://" + (host + RemoveUnsafe(rest))
    ensures RemoveUnsafe(rest) == "" || RemoveUnsafe(rest)[0] == '/'
  {
    assert "https://" + host + rest == "https://" + (host + rest);
    LStripHttps(host + rest);
    RemoveUnsafeHttps(host, rest);
    RemoveUnsafeSlash(rest);
  }

  lemma SchemeOfHttps(tail: string)
    ensures SplitScheme("https://" + tail) == ("https", "//" + tail)
  {
    var u := "https://" + tail;
    assert u == "https" + ("://" + tail);
    FirstOfConcat("https", "://" + tail, {':'});
    assert u[..5] == "https";
    assert Lower("https") == "https";
    assert u[6..] == "//" + tail;
  }

  lemma NetlocOfPlainHost(host: string, rr: string)
    requires PlainHost(host)
    requires rr == "" || rr[0] == '/'
    ensures SplitNetloc("//" + (host + rr)).0 == host
    ensures !BracketMismatch(host)
  {
    var rest := "//" + (host + rr);
    assert rest[2..] == host + rr;
    FirstOfConcat(host, rr, {'/', '?', '#'});
    assert FirstOf(rr, {'/', '?', '#'}) == 0;
    assert rest[2..2 + |host|] == host;
    assert forall i :: 0 <= i < |host| ==> host[i] != '[' && host[i] != ']';
  }

  /** The netloc of `https://host/...` is `host`. */
  lemma HttpsNetloc(host: string, rest: string)
    requires PlainHost(host)
    requires rest == "" || rest[0] == '/'
    ensures UrlParse("https://" + host + rest).Success?
    ensures UrlParse("https://" + host + rest).value.netloc == host
    ensures UrlParse("https://" + host + rest).value.scheme == "https"
  {
    SanitizeHttps(host, rest);
    var rr := RemoveUnsafe(rest);
    SchemeOfHttps(host + rr);
    NetlocOfPlainHost(host, rr);
  }

  // ---------------------------------------------------------------------
  // Validators and classification
  // ---------------------------------------------------------------------

  const GithubHosts: set<string> := {"github.com", "www.github.com"}

  /** validate_github_url: a GitHub host and an extractable repository. */
  function ValidateGithubUrl(url: string): (ok: bool)
    ensures ok ==> url != "" && UrlParse(url).Success? && Lower(UrlParse(url).value.netloc) in GithubHosts
    ensures ok ==> ExtractGithubRepo(url).Some?
  {
    if url == "" then false
    else
      match UrlParse(url)
      case Failure(_) => false
      case Success(p) => Lower(p.netloc) in GithubHosts && ExtractGithubRepo(url).Some?
  }

  const HackathonDomains: seq<string> :=
    ["devpost.com", "hackathon.com", "mlh.io", "hackerearth.com", "eventbrite.com"]

  const HackathonKeywords: seq<string> := ["hack", "hackathon", "challenge", "competition"]

  /** Some word of `words` occurs in `s` (Python's `any(w in s for w in words)`). */
  predicate AnyIn(words: seq<string>, s: string) {
    exists i :: 0 <= i < |words| && Contains(s, words[i])
  }

  /**
   * validate_hackathon_url: a non-empty netloc that names a known hackathon
   * domain, or a hackathon keyword anywhere in the lower-cased URL.
   */
  function ValidateHackathonUrl(url: string): (ok: bool)
    ensures ok ==> url != "" && UrlParse(url).Success? && UrlParse(url).value.netloc != ""
  {
    if url == "" then false
    else
      match UrlParse(url)
      case Failure(_) => false
      case Success(p) =>
        p.netloc != ""
        && (AnyIn(HackathonDomains, Lower(p.netloc)) || AnyIn(HackathonKeywords, Lower(url)))
  }

  datatype UrlKind = GitHub | Hackathon | Website | Unknown

  /** The dictionary parse_url_info returns. */
  datatype UrlInfo =
    | Invalid(error: Option<string>)
    | Info(originalUrl: string, domain: string, path: string, kind: UrlKind, repoName: Option<string>)

  /** parse_url_info: the parsed parts and the first classification that applies. */
  function ParseUrlInfo(url: string): (r: UrlInfo)
    ensures url == "" <==> r == Invalid(None)
    ensures r.Invalid? && url != "" ==> r.error == Some("Invalid IPv6 URL")
    ensures r.Info? ==> r.originalUrl == url && r.kind != Unknown
    ensures r.Info? ==> (r.kind == GitHub <==> r.repoName.Some?)
    ensures r.Info? && r.kind == GitHub ==> r.domain in GithubHosts && RepoShape(r.repoName.value)
    ensures r.Info? <==> url != "" && UrlParse(url).Success?
    ensures r.Info? ==> (r.kind == GitHub <==> ValidateGithubUrl(url))
    ensures r.Info? ==> (r.kind == Hackathon <==> !ValidateGithubUrl(url) && ValidateHackathonUrl(url))
    ensures r.Info? ==> r.domain == Lower(UrlParse(url).value.netloc) && r.path == UrlParse(url).value.path
  {
    if url == "" then Invalid(None)
    else
      match UrlParse(url)
      case Failure(e) => Invalid(Some(e.message))
      case Success(p) =>
        var domain := Lower(p.netloc);
        if ValidateGithubUrl(url) then Info(url, domain, p.path, GitHub, ExtractGithubRepo(url))
        else if ValidateHackathonUrl(url) then Info(url, domain, p.path, Hackathon, None)
        else Info(url, domain, p.path, Website, None)
  }

  // ---------------------------------------------------------------------
  // What the patterns extract from the usual URL forms
  // ---------------------------------------------------------------------

  /** A path segment of a repository URL. */
  predicate Segment(s: string) {
    s != "" && NoSlash(s) && NoNewline(s)
  }

  predicate NoG(s: string) {
    forall i :: 0 <= i < |s| ==> s[i] != 'g'
  }

  /** `github.com/` occurs in `url` at position `p` and nowhere else. */
  predicate OnlyHostAt(url: string, p: nat) {
    HostAt(url, p) && forall q | 0 <= q <= |url| :: HostAt(url, q) ==> q == p
  }

  lemma {:induction false} SearchSkip(pat: Pattern, url: string, p: nat, p0: nat)
    requires p <= p0 <= |url|
    requires forall q :: p <= q < p0 ==> !HostAt(url, q)
    ensures Search(pat, url, p) == Search(pat, url, p0)
    decreases p0 - p
  {
    if p < p0 && p + |Host| <= |url| {
      SearchSkip(pat, url, p + 1, p0);
    } else if p < p0 {
      assert p0 + |Host| > |url|;
    }
  }

  lemma {:induction false} RepoPathSkip(url: string, p: nat, p0: nat)
    requires p <= p0 <= |url|
    requires forall q :: p <= q < p0 ==> !HostAt(url, q)
    ensures FindRepoPathFrom(url, p) == FindRepoPathFrom(url, p0)
    decreases p0 - p
  {
    if p < p0 && p + |Host| <= |url| {
      RepoPathSkip(url, p + 1, p0);
    } else if p < p0 {
      assert p0 + |Host| > |url|;
    }
  }

  /** The search starts at the first occurrence of the host. */
  lemma SearchFirst(pat: Pattern, url: string, p: nat)
    requires forall q :: 0 <= q < p ==> !HostAt(url, q)
    requires HostAt(url, p) && MatchAt(pat, url, p).Some?
    ensures Search(pat, url, 0) == MatchAt(pat, url, p)
  {
    SearchSkip(pat, url, 0, p);
  }

  /** Past the only occurrence of the host, the search finds nothing more. */
  lemma SearchOnlyAt(pat: Pattern, url: string, p: nat)
    requires OnlyHostAt(url, p)
    ensures Search(pat, url, 0) == (if MatchAt(pat, url, p).Some? then MatchAt(pat, url, p) else None)
  {
    SearchSkip(pat, url, 0, p);
    SearchSkip(pat, url, p + 1, |url|);
  }

  lemma ExtractByStrict(url: string, g: string)
    requires url != "" && Search(Strict, url, 0) == Some(g)
    ensures ExtractGithubRepo(url) == Some(StripGitSuffix(g))
  {
  }

  lemma ExtractByLoose(url: string, g: string)
    requires url != "" && Search(Strict, url, 0) == None && Search(Loose, url, 0) == Some(g)
    ensures ExtractGithubRepo(url) == Some(StripGitSuffix(g))
  {
  }

  lemma ExtractByNeither(url: string)
    requires Search(Strict, url, 0) == None && Search(Loose, url, 0) == None
    ensures ExtractGithubRepo(url) == None
  {
  }

  lemma HostAtSplit(url: string, pre: string, tail: string)
    requires url == pre + Host + tail
    ensures HostAt(url, |pre|) && url[|pre| + |Host|..] == tail
  {
    assert url[|pre|..|pre| + |Host|] == Host;
  }

  lemma NoHostBefore(url: string, pre: string, tail: string)
    requires url == pre + tail && NoG(pre)
    ensures forall q :: 0 <= q < |pre| ==> !HostAt(url, q)
  {
    forall q | 0 <= q < |pre|
      ensures !HostAt(url, q)
    {
      assert url[q] == pre[q];
    }
  }

  lemma LazyEndIs(pat: Pattern, r: string, e: nat)
    requires 1 <= e <= FirstSlash(r) && TailOk(pat, r[e..])
    requires forall m :: 1 <= m < e ==> !TailOk(pat, r[m..])
    ensures LazyEnd(pat, r, 1) == Some(e)
  {
  }

  /** The plain suffixes of a repository URL that the strict pattern accepts. */
  predicate PlainSuffix(suf: string) {
    suf == "" || suf == ".git" || suf == "/" || suf == ".git/"
  }

  lemma StrictStopsAtSuffix(n: string, suf: string, m: nat)
    requires Segment(n) && !EndsWith(n, ".git") && PlainSuffix(suf)
    requires 1 <= m < |n|
    ensures !TailOk(Strict, (n + suf)[m..])
  {
    var t := (n + suf)[m..];
    var w := n[m..];
    assert t == w + suf;
    assert w != "" && t[0] == w[0] && w[0] != '/' && w[0] != '\n';
    assert forall i :: 0 <= i < |w| ==> w[i] != '/' && w[i] != '\n';
    assert w != ".git" by {
      if |w| == 4 {
        assert n[|n| - 4..] == w;
      }
    }
    if suf == "" {
      assert t == w;
      assert t != "/" && t != "/\n" && t != ".git/" && t != ".git/\n" && t != "\n" && t != ".git\n" by {
        assert t[0] != '/' && t[0] != '\n';
        if |t| == 2 {
          assert t[1] != '\n';
        }
        if |t| == 5 {
          assert t[4] != '\n' && t[4] != '/';
        }
        if |t| == 6 {
          assert t[5] != '\n';
        }
      }
    } else if suf == ".git" {
      assert |t| >= 5 && t[|t| - 1] == 't';
    } else if suf == "/" {
      assert t[|t| - 1] == '/' && |t| >= 2;
      assert t != ".git/" by {
        if |t| == 5 {
          assert t[..4] == w;
        }
      }
    } else {
      assert t[|t| - 1] == '/' && |t| >= 6;
    }
  }

  lemma StripKeeps(o: string, n: string)
    requires Segment(o) && Segment(n) && !EndsWith(n, ".git")
    ensures StripGitSuffix(o + "/" + n) == o + "/" + n
  {
    var name := o + "/" + n;
    assert !EndsWith(name, ".git") by {
      if |n| >= 4 {
        assert name[|name| - 4..] == n[|n| - 4..];
      } else if |name| >= 4 {
        assert name[|o|] == '/';
        assert name[|name| - 4..][|o| - (|name| - 4)] == '/';
      }
    }
  }

  lemma LazyEndPlain(n: string, suf: string)
    requires Segment(n) && !EndsWith(n, ".git") && PlainSuffix(suf)
    ensures LazyEnd(Strict, n + suf, 1) == Some(|n|)
  {
    var r := n + suf;
    FirstSlashOfSegment(n, suf);
    forall m | 1 <= m < |n|
      ensures !TailOk(Strict, r[m..])
    {
      StrictStopsAtSuffix(n, suf, m);
    }
    assert r[|n|..] == suf;
    LazyEndIs(Strict, r, |n|);
  }

  /** The first segment of `owner/rest` ends at the first slash. */
  lemma SplitOwner(o: string, tail: string)
    requires Segment(o)
    ensures FirstSlash(o + "/" + tail) == |o|
    ensures (o + "/" + tail)[..|o|] == o && (o + "/" + tail)[|o| + 1..] == tail
  {
    assert o + "/" + tail == o + ("/" + tail);
    FirstSlashOfSegment(o, "/" + tail);
  }

  lemma MatchAtPlain(url: string, pre: string, o: string, n: string, suf: string)
    requires Segment(o) && Segment(n) && !EndsWith(n, ".git") && PlainSuffix(suf)
    requires url == pre + Host + (o + "/" + (n + suf))
    ensures HostAt(url, |pre|) && MatchAt(Strict, url, |pre|) == Some(o + "/" + n)
  {
    HostAtSplit(url, pre, o + "/" + (n + suf));
    SplitOwner(o, n + suf);
    LazyEndPlain(n, suf);
    assert (n + suf)[..|n|] == n;
  }

  /**
   * A repository URL `.../github.com/owner/repo` with an optional `.git`
   * and an optional trailing slash yields `owner/repo`, when no `g` comes
   * before the host.
   */
  lemma ExtractPlain(pre: string, o: string, n: string, suf: string, url: string)
    requires NoG(pre) && Segment(o) && Segment(n) && !EndsWith(n, ".git") && PlainSuffix(suf)
    requires url == pre + Host + o + "/" + n + suf
    ensures ExtractGithubRepo(url) == Some(o + "/" + n)
  {
    var tail := Host + (o + "/" + (n + suf));
    assert url == pre + tail;
    MatchAtPlain(url, pre, o, n, suf);
    NoHostBefore(url, pre, tail);
    SearchFirst(Strict, url, |pre|);
    StripKeeps(o, n);
    ExtractByStrict(url, o + "/" + n);
  }

  lemma StrictFailsOnPath(n: string, rest: string, m: nat)
    requires Segment(n) && rest != "" && NoNewline(rest)
    requires 1 <= m <= |n|
    ensures !TailOk(Strict, (n + ("/" + rest))[m..])
  {
    var t := (n + ("/" + rest))[m..];
    assert t[|n| - m] == '/';
    assert t[|t| - 1] == rest[|rest| - 1] != '\n';
    if m < |n| {
      assert t[0] == n[m] != '/';
    } else {
      assert t == "/" + rest;
    }
  }

  lemma LooseOnPath(n: string, rest: string, m: nat)
    requires Segment(n) && NoNewline(rest)
    requires 1 <= m < |n|
    ensures !TailOk(Loose, (n + ("/" + rest))[m..])
  {
    var t := (n + ("/" + rest))[m..];
    assert t[0] == n[m];
    assert t[|n| - m] == '/';
  }

  lemma LazyEndDeep(n: string, rest: string)
    requires Segment(n) && rest != "" && NoNewline(rest)
    ensures LazyEnd(Strict, n + ("/" + rest), 1) == None
    ensures LazyEnd(Loose, n + ("/" + rest), 1) == Some(|n|)
  {
    var r := n + ("/" + rest);
    FirstSlashOfSegment(n, "/" + rest);
    forall m | 1 <= m <= |n|
      ensures !TailOk(Strict, r[m..])
    {
      StrictFailsOnPath(n, rest, m);
    }
    forall m | 1 <= m < |n|
      ensures !TailOk(Loose, r[m..])
    {
      LooseOnPath(n, rest, m);
    }
    assert r[|n|..] == "/" + rest;
    assert ("/" + rest)[1..] == rest;
    LazyEndIs(Loose, r, |n|);
  }

  lemma MatchAtDeep(url: string, pre: string, o: string, n: string, rest: string)
    requires Segment(o) && Segment(n) && rest != "" && NoNewline(rest)
    requires url == pre + Host + (o + "/" + (n + ("/" + rest)))
    ensures HostAt(url, |pre|)
    ensures MatchAt(Strict, url, |pre|) == None
    ensures MatchAt(Loose, url, |pre|) == Some(o + "/" + n)
  {
    HostAtSplit(url, pre, o + "/" + (n + ("/" + rest)));
    SplitOwner(o, n + ("/" + rest));
    LazyEndDeep(n, rest);
    assert (n + ("/" + rest))[..|n|] == n;
  }

  /**
   * A URL that goes on past the repository (`.../owner/repo/tree/main`) fails
   * the strict pattern and yields `owner/repo` through the loose one.
   */
  lemma ExtractDeepPath(pre: string, o: string, n: string, rest: string, url: string)
    requires Segment(o) && Segment(n) && !EndsWith(n, ".git")
    requires rest != "" && NoNewline(rest)
    requires url == pre + Host + o + "/" + n + "/" + rest && OnlyHostAt(url, |pre|)
    ensures ExtractGithubRepo(url) == Some(o + "/" + n)
  {
    assert url == pre + Host + (o + "/" + (n + ("/" + rest)));
    MatchAtDeep(url, pre, o, n, rest);
    SearchOnlyAt(Strict, url, |pre|);
    SearchOnlyAt(Loose, url, |pre|);
    StripKeeps(o, n);
    ExtractByLoose(url, o + "/" + n);
  }

  /** A URL naming only an owner (`.../github.com/owner` or `.../github.com/owner/`) yields nothing. */
  lemma ExtractOwnerOnly(pre: string, o: string, suf: string, url: string)
    requires Segment(o) && (suf == "" || suf == "/")
    requires url == pre + Host + o + suf && OnlyHostAt(url, |pre|)
    ensures ExtractGithubRepo(url) == None
  {
    assert url == pre + Host + (o + suf);
    HostAtSplit(url, pre, o + suf);
    FirstSlashOfSegment(o, suf);
    if suf == "/" {
      assert (o + suf)[|o| + 1..] == "";
    }
    assert MatchAt(Strict, url, |pre|) == None;
    assert MatchAt(Loose, url, |pre|) == None;
    SearchOnlyAt(Strict, url, |pre|);
    SearchOnlyAt(Loose, url, |pre|);
    ExtractByNeither(url);
  }

  lemma RepoPathAtPlain(url: string, pre: string, o: string, n: string, suf: string)
    requires Segment(o) && n != "" && NoSlash(n)
    requires suf == "" || suf[0] == '/'
    requires url == pre + Host + (o + "/" + (n + suf))
    ensures HostAt(url, |pre|) && RepoPathAt(url, |pre|) == Some(o + "/" + n)
  {
    HostAtSplit(url, pre, o + "/" + (n + suf));
    SplitOwner(o, n + suf);
    FirstSlashOfSegment(n, suf);
    assert FirstSlash(suf) == 0;
    assert (n + suf)[..|n|] == n;
  }

  /** The greedy pattern takes the two segments after the host. */
  lemma FindRepoPathPlain(pre: string, o: string, n: string, suf: string, url: string)
    requires NoG(pre) && Segment(o) && n != "" && NoSlash(n)
    requires suf == "" || suf[0] == '/'
    requires url == pre + Host + o + "/" + n + suf
    ensures FindRepoPath(url) == Some(o + "/" + n)
  {
    var tail := Host + (o + "/" + (n + suf));
    assert url == pre + tail;
    RepoPathAtPlain(url, pre, o, n, suf);
    NoHostBefore(url, pre, tail);
    RepoPathSkip(url, 0, |pre|);
  }

  /**
   * For `.../owner/repo.git` the greedy pattern keeps `.git` while
   * extract_github_repo drops it: the two extractors disagree.
   */
  lemma GreedyKeepsGitSuffix(pre: string, o: string, n: string, url: string)
    requires NoG(pre) && Segment(o) && Segment(n) && !EndsWith(n, ".git")
    requires url == pre + Host + o + "/" + n + ".git"
    ensures FindRepoPath(url) == Some(o + "/" + (n + ".git"))
    ensures ExtractGithubRepo(url) == Some(o + "/" + n)
  {
    assert url == pre + Host + o + "/" + (n + ".git") + "";
    FindRepoPathPlain(pre, o, n + ".git", "", url);
    ExtractPlain(pre, o, n, ".git", url);
  }

  lemma GithubComPlain()
    ensures PlainHost("github.com")
  {
  }

  lemma WwwGithubComPlain()
    ensures PlainHost("www.github.com")
  {
  }

  lemma GithubComLower()
    ensures Lower("github.com") == "github.com"
  {
    LowerOfLower("github.com");
  }

  lemma WwwGithubComLower()
    ensures Lower("www.github.com") == "www.github.com"
  {
    LowerOfLower("www.github.com");
  }

  /** `https://github.com/` or `https://www.github.com/`. */
  function GithubPrefix(www: bool): string {
    if www then "https://www.github.com/" else "https://github.com/"
  }

  function GithubHost(www: bool): string {
    if www then "www.github.com" else "github.com"
  }

  /** What precedes `github.com/` in a canonical GitHub URL. */
  function GithubScheme(www: bool): string {
    if www then "https://www." else "https://"
  }

  lemma GithubPrefixParts(www: bool)
    ensures GithubPrefix(www) == GithubScheme(www) + Host && NoG(GithubScheme(www))
  {
    if www {
      assert "https://www.github.com/" == "https://www." + Host;
    } else {
      assert "https://github.com/" == "https://" + Host;
    }
  }

  lemma GithubPrefixHost(www: bool)
    ensures GithubPrefix(www) == "https://" + GithubHost(www) + "/"
  {
    if www {
      assert "https://www.github.com/" == "https://" + "www.github.com" + "/";
    } else {
      assert "https://github.com/" == "https://" + "github.com" + "/";
    }
  }

  /** The netloc of `https://<host>/...` for either GitHub host. */
  lemma GithubNetloc(www: bool, rest: string)
    ensures UrlParse(GithubPrefix(www) + rest).Success?
    ensures Lower(UrlParse(GithubPrefix(www) + rest).value.netloc) == GithubHost(www)
  {
    GithubPrefixHost(www);
    var host := GithubHost(www);
    assert GithubPrefix(www) + rest == "https://" + host + ("/" + rest);
    if www {
      WwwGithubComPlain();
      WwwGithubComLower();
    } else {
      GithubComPlain();
      GithubComLower();
    }
    HttpsNetloc(host, "/" + rest);
  }

  lemma GithubNetlocAt(www: bool, o: string, n: string, suf: string, url: string)
    requires url == GithubPrefix(www) + o + "/" + n + suf
    ensures UrlParse(url).Success? && Lower(UrlParse(url).value.netloc) == GithubHost(www)
  {
    assert url == GithubPrefix(www) + (o + "/" + n + suf);
    GithubNetloc(www, o + "/" + n + suf);
  }

  lemma GithubHostIn(www: bool)
    ensures GithubHost(www) in GithubHosts
  {
  }

  lemma ValidateGithubFromParts(url: string)
    requires url != "" && UrlParse(url).Success? && Lower(UrlParse(url).value.netloc) in GithubHosts
    requires ExtractGithubRepo(url).Some?
    ensures ValidateGithubUrl(url)
  {
  }

  lemma ExtractCanonical(www: bool, o: string, n: string, suf: string, url: string)
    requires Segment(o) && Segment(n) && !EndsWith(n, ".git") && PlainSuffix(suf)
    requires url == GithubPrefix(www) + o + "/" + n + suf
    ensures ExtractGithubRepo(url) == Some(o + "/" + n)
  {
    GithubPrefixParts(www);
    ExtractPlain(GithubScheme(www), o, n, suf, url);
  }

  /**
   * The canonical `https://github.com/owner/repo` and
   * `https://www.github.com/owner/repo`, with an optional `.git` and trailing
   * slash, are valid GitHub URLs naming `owner/repo`.
   */
  lemma ValidateGithubCanonical(www: bool, o: string, n: string, suf: string, url: string)
    requires Segment(o) && Segment(n) && !EndsWith(n, ".git") && PlainSuffix(suf)
    requires url == GithubPrefix(www) + o + "/" + n + suf
    ensures ValidateGithubUrl(url)
    ensures ExtractGithubRepo(url) == Some(o + "/" + n)
  {
    ExtractCanonical(www, o, n, suf, url);
    GithubHostIn(www);
    GithubNetlocAt(www, o, n, suf, url);
    ValidateGithubFromParts(url);
  }

  /** A URL validate_github_url accepts is reported as github, with the extracted repository. */
  lemma ParseUrlInfoOfGithubUrl(url: string)
    requires ValidateGithubUrl(url)
    ensures var r := ParseUrlInfo(url);
      r.Info? && r.kind == GitHub && r.domain == Lower(UrlParse(url).value.netloc)
      && r.repoName == ExtractGithubRepo(url)
  {
  }

  /** parse_url_info of a canonical repository URL reports it as github with its repository. */
  lemma ParseUrlInfoCanonical(www: bool, o: string, n: string, suf: string, url: string)
    requires Segment(o) && Segment(n) && !EndsWith(n, ".git") && PlainSuffix(suf)
    requires url == GithubPrefix(www) + o + "/" + n + suf
    ensures var r := ParseUrlInfo(url);
      r.Info? && r.kind == GitHub && r.domain == GithubHost(www) && r.repoName == Some(o + "/" + n)
  {
    ValidateGithubCanonical(www, o, n, suf, url);
    GithubNetlocAt(www, o, n, suf, url);
    ParseUrlInfoOfGithubUrl(url);
  }

  /** The keyword `hack` already covers `hackathon`. */
  lemma HackKeywordCovers(s: string)
    ensures AnyIn(HackathonKeywords, s)
        <==> Contains(s, "hack") || Contains(s, "challenge") || Contains(s, "competition")
  {
    if Contains(s, "hackathon") {
      assert OccursAt("hackathon", "hack", 0);
      ContainsInner(s, "hackathon", "hack");
    }
    if Contains(s, "hack") {
      assert Contains(s, HackathonKeywords[0]);
    }
    if Contains(s, "challenge") {
      assert Contains(s, HackathonKeywords[2]);
    }
    if Contains(s, "competition") {
      assert Contains(s, HackathonKeywords[3]);
    }
  }

  /** An https URL whose host names a known hackathon platform is a hackathon URL. */
  lemma HackathonPlatformUrl(host: string, rest: string, d: nat)
    requires host != "" && PlainHost(host)
    requires rest == "" || rest[0] == '/'
    requires d < |HackathonDomains| && Contains(Lower(host), HackathonDomains[d])
    ensures ValidateHackathonUrl("https://" + host + rest)
  {
    HttpsNetloc(host, rest);
  }

  /**
   * Both directions of the hackathon heuristic: a URL is accepted iff it is
   * non-empty, parses with a netloc, and either that netloc names a listed
   * platform or the URL mentions `hack`, `challenge` or `competition`.
   */
  lemma HackathonUrlIff(url: string)
    ensures ValidateHackathonUrl(url) <==>
      url != "" && UrlParse(url).Success? && UrlParse(url).value.netloc != ""
      && (AnyIn(HackathonDomains, Lower(UrlParse(url).value.netloc))
          || Contains(Lower(url), "hack") || Contains(Lower(url), "challenge") || Contains(Lower(url), "competition"))
  {
    HackKeywordCovers(Lower(url));
  }

  /** A URL that parses with a netloc and carries a hackathon keyword is accepted, whatever its host. */
  lemma HackathonKeywordUrl(url: string)
    requires url != "" && UrlParse(url).Success? && UrlParse(url).value.netloc != ""
    requires Contains(Lower(url), "hack") || Contains(Lower(url), "challenge") || Contains(Lower(url), "competition")
    ensures ValidateHackathonUrl(url)
  {
    HackathonUrlIff(url);
  }
}
