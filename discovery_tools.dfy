/**
 * `HackathonDiscoveryTools` (`app/tools/discovery_tools.py`): web searches
 * for hackathons and GitHub projects, filtered, de-duplicated by URL and
 * capped, behind the `BaseTool` cache.
 *
 * The DuckDuckGo search is the oracle `Search`, whose answer is already
 * decoded: falsy, text that is not JSON (decoding raises), a JSON value that
 * is not a list, or a list of items. The deadline regex of lines 110-115 is
 * the oracle `DeadlineOf`.
 */
module DiscoveryTools {
  import opened Wrappers
  import opened Strings
  import UrlParser
  import BaseTool

  /** One search result: a dictionary of string fields, or anything else. */
  datatype SearchItem = Item(fields: map<string, string>) | NotDict

  /** What `_safe_execute(self.ddg.duckduckgo_search, ...)` yields, once decoded. */
  datatype SearchValue =
    | Falsy
    | Malformed(message: string)
    | NonList
    | ListValue(items: seq<SearchItem>)

  datatype SearchCall = SearchCall(query: string, maxResults: int)

  type Search = SearchCall -> Attempt<SearchValue>
  type DeadlineOf = string -> Option<string>

  datatype Hackathon = Hackathon(name: string, url: string, description: string, deadline: Option<string>)
  datatype Project = Project(name: string, url: string, description: string, stars: Option<int>)

  const DefaultHackathonQuery := "ongoing hackathons 2024 2025"
  const DefaultMaxResults := 5
  const BroaderQuery := "hackathons open registration 2024 2025"
  const DescriptionLimit := 200

  /** `dict.get(key, default)`. */
  function Get(fields: map<string, string>, key: string, default: string): string {
    if key in fields then fields[key] else default
  }

  /** `result.get("href", result.get("url", ""))`. */
  function ItemUrl(fields: map<string, string>): string {
    Get(fields, "href", Get(fields, "url", ""))
  }

  /** `result.get("body", result.get("snippet", ""))`. */
  function ItemBody(fields: map<string, string>): string {
    Get(fields, "body", Get(fields, "snippet", ""))
  }

  // ---------------------------------------------------------------------
  // Filters and extraction
  // ---------------------------------------------------------------------

  const HackathonDomains: seq<string> := ["devpost", "hackathon", "mlh.io", "hack"]

  /** `_is_hackathon_url`: some domain word occurs in the lower-cased URL. */
  predicate IsHackathonUrl(url: string) {
    exists k :: 0 <= k < |HackathonDomains| && Contains(Lower(url), HackathonDomains[k])
  }

  /** The word "hackathon" adds nothing to the list: every URL it matches also contains "hack". */
  lemma IsHackathonUrlIff(url: string)
    ensures IsHackathonUrl(url) <==>
      Contains(Lower(url), "devpost") || Contains(Lower(url), "mlh.io") || Contains(Lower(url), "hack")
  {
    if Contains(Lower(url), "hackathon") {
      assert "hackathon"[..4] == "hack";
      StartsWithContains("hackathon", "hack");
      ContainsInner(Lower(url), "hackathon", "hack");
    }
    if Contains(Lower(url), "hack") {
      assert HackathonDomains[3] == "hack";
    }
    if Contains(Lower(url), "devpost") {
      assert HackathonDomains[0] == "devpost";
    }
    if Contains(Lower(url), "mlh.io") {
      assert HackathonDomains[2] == "mlh.io";
    }
  }

  /**
   * `_extract_hackathon_info`: a result with a hackathon URL becomes an entry
   * whose description is the body cut to 200 characters; any other gives None.
   */
  function ExtractHackathonInfo(fields: map<string, string>, deadlineOf: DeadlineOf): (h: Option<Hackathon>)
    ensures h.Some? <==> ItemUrl(fields) != "" && IsHackathonUrl(ItemUrl(fields))
    ensures h.Some? ==> (h.value.url == ItemUrl(fields) && h.value.name == Get(fields, "title", "")
      && |h.value.description| <= DescriptionLimit && |h.value.description| <= |ItemBody(fields)|
      && ItemBody(fields)[..|h.value.description|] == h.value.description
      && h.value.deadline == deadlineOf(ItemBody(fields)))
  {
    var url := ItemUrl(fields);
    if url != "" && IsHackathonUrl(url) then
      var body := ItemBody(fields);
      Some(Hackathon(Get(fields, "title", ""), url, if body != "" then PyTake(body, DescriptionLimit) else "", deadlineOf(body)))
    else
      None
  }

  /** The entry the broader search builds: the title defaults to "Hackathon" and there is no deadline. */
  function BroaderEntry(fields: map<string, string>): (h: Option<Hackathon>)
    ensures h.Some? <==> ItemUrl(fields) != "" && IsHackathonUrl(ItemUrl(fields))
    ensures h.Some? ==> (h.value.url == ItemUrl(fields) && h.value.name == Get(fields, "title", "Hackathon")
      && |h.value.description| <= DescriptionLimit && h.value.deadline == None)
  {
    var url := ItemUrl(fields);
    if url != "" && IsHackathonUrl(url) then
      Some(Hackathon(Get(fields, "title", "Hackathon"), url, PyTake(ItemBody(fields), DescriptionLimit), None))
    else
      None
  }

  /**
   * `_extract_project_info`: a GitHub URL with an `owner/repo` path becomes an
   * entry named by its title (by default the repository path), without stars.
   */
  function ExtractProjectInfo(fields: map<string, string>): (p: Option<Project>)
    ensures p.Some? <==> (ItemUrl(fields) != "" && Contains(ItemUrl(fields), "github.com")
      && UrlParser.FindRepoPath(ItemUrl(fields)).Some?)
    ensures p.Some? ==> (p.value.url == ItemUrl(fields)
      && p.value.name == Get(fields, "title", UrlParser.FindRepoPath(ItemUrl(fields)).value)
      && |p.value.description| <= DescriptionLimit && p.value.stars == None)
  {
    var url := ItemUrl(fields);
    if url != "" && Contains(url, "github.com") then
      var repoMatch := UrlParser.FindRepoPath(url);
      if repoMatch.Some? then
        Some(Project(Get(fields, "title", repoMatch.value), url, PyTake(ItemBody(fields), DescriptionLimit), None))
      else
        None
    else
      None
  }

  /** How each pass turns one result into an entry. */
  function PrimaryExtractor(deadlineOf: DeadlineOf): SearchItem -> Option<Hackathon> {
    (item: SearchItem) => if item.Item? then ExtractHackathonInfo(item.fields, deadlineOf) else None
  }

  function BroaderExtractor(): SearchItem -> Option<Hackathon> {
    (item: SearchItem) => if item.Item? then BroaderEntry(item.fields) else None
  }

  function ProjectExtractor(): SearchItem -> Option<Project> {
    (item: SearchItem) => if item.Item? then ExtractProjectInfo(item.fields) else None
  }

  function HackathonUrlOf(): Hackathon -> string {
    (h: Hackathon) => h.url
  }

  function ProjectUrlOf(): Project -> string {
    (p: Project) => p.url
  }

  /** Every entry either hackathon pass extracts has a hackathon URL. */
  lemma HackathonExtractorsFilter(deadlineOf: DeadlineOf, item: SearchItem)
    ensures PrimaryExtractor(deadlineOf)(item).Some? ==> IsHackathonUrl(PrimaryExtractor(deadlineOf)(item).value.url)
    ensures BroaderExtractor()(item).Some? ==> IsHackathonUrl(BroaderExtractor()(item).value.url)
  {
  }

  // ---------------------------------------------------------------------
  // The collecting loops, as functions
  // ---------------------------------------------------------------------

  /** The URLs of a list of entries. */
  function UrlSet<T>(list: seq<T>, urlOf: T -> string): set<string> {
    set i | 0 <= i < |list| :: urlOf(list[i])
  }

  /** No two entries share a URL, and none has a URL in `base`. */
  ghost predicate FreshUrls<T>(list: seq<T>, urlOf: T -> string, base: set<string>) {
    (forall i, j :: 0 <= i < j < |list| ==> urlOf(list[i]) != urlOf(list[j]))
    && (forall i :: 0 <= i < |list| ==> urlOf(list[i]) !in base)
  }

  /**
   * One collecting loop: each result that extracts to an entry with an unseen
   * URL is appended and its URL marked seen, and the loop stops once `limit`
   * entries are held. Returns the entries and the seen set.
   */
  function Collect<T>(items: seq<SearchItem>, limit: int, extract: SearchItem -> Option<T>, urlOf: T -> string,
                      found: seq<T>, seen: set<string>): (seq<T>, set<string>)
    decreases |items|
  {
    if items == [] then (found, seen)
    else
      var entry := extract(items[0]);
      if entry.Some? && urlOf(entry.value) !in seen then
        var found' := found + [entry.value];
        var seen' := seen + {urlOf(entry.value)};
        if |found'| >= limit then (found', seen')
        else Collect(items[1..], limit, extract, urlOf, found', seen')
      else
        Collect(items[1..], limit, extract, urlOf, found, seen)
  }

  /**
   * What a collecting loop keeps: the URLs stay distinct and unseen before,
   * the seen set grows by exactly the new URLs, earlier entries stay in
   * place, every new entry is extracted from some result, and the list stops
   * growing at `limit`.
   */
  lemma {:induction false} CollectKeeps<T>(items: seq<SearchItem>, limit: int, extract: SearchItem -> Option<T>,
                                           urlOf: T -> string, found: seq<T>, seen: set<string>, base: set<string>)
    requires FreshUrls(found, urlOf, base) && seen == base + UrlSet(found, urlOf)
    ensures var (r, s) := Collect(items, limit, extract, urlOf, found, seen);
      FreshUrls(r, urlOf, base) && s == base + UrlSet(r, urlOf)
      && |found| <= |r| <= |found| + |items| && r[..|found|] == found
      && (|found| < limit ==> |r| <= limit)
      && (forall k :: |found| <= k < |r| ==> exists j :: 0 <= j < |items| && extract(items[j]) == Some(r[k]))
    decreases |items|
  {
    if items != [] {
      var entry := extract(items[0]);
      if entry.Some? && urlOf(entry.value) !in seen {
        var found' := found + [entry.value];
        var seen' := seen + {urlOf(entry.value)};
        assert UrlSet(found', urlOf) == UrlSet(found, urlOf) + {urlOf(entry.value)} by {
          assert forall i :: 0 <= i < |found| ==> found'[i] == found[i];
          assert found'[|found|] == entry.value;
        }
        assert FreshUrls(found', urlOf, base) by {
          assert forall i :: 0 <= i < |found| ==> urlOf(found[i]) in UrlSet(found, urlOf);
        }
        if |found'| < limit {
          CollectKeeps(items[1..], limit, extract, urlOf, found', seen', base);
          var (r, s) := Collect(items[1..], limit, extract, urlOf, found', seen');
          assert r[..|found'|] == found';
          assert r[..|found|] == found'[..|found|];
          forall k | |found| <= k < |r|
            ensures exists j :: 0 <= j < |items| && extract(items[j]) == Some(r[k])
          {
            if k == |found| {
              assert r[k] == found'[k];
              assert extract(items[0]) == Some(r[k]);
            } else {
              var j :| 0 <= j < |items[1..]| && extract(items[1..][j]) == Some(r[k]);
              assert items[1..][j] == items[j + 1];
            }
          }
        } else {
          assert extract(items[0]) == Some(found'[|found|]);
        }
      } else {
        CollectKeeps(items[1..], limit, extract, urlOf, found, seen, base);
        var (r, s) := Collect(items[1..], limit, extract, urlOf, found, seen);
        forall k | |found| <= k < |r|
          ensures exists j :: 0 <= j < |items| && extract(items[j]) == Some(r[k])
        {
          var j :| 0 <= j < |items[1..]| && extract(items[1..][j]) == Some(r[k]);
          assert items[1..][j] == items[j + 1];
        }
      }
    }
  }

  /** A prefix of a list with fresh URLs has fresh URLs. */
  lemma FreshPrefix<T>(list: seq<T>, n: int, urlOf: T -> string, base: set<string>)
    requires FreshUrls(list, urlOf, base)
    ensures FreshUrls(PyTake(list, n), urlOf, base)
  {
    var r := PyTake(list, n);
    assert forall i :: 0 <= i < |r| ==> r[i] == list[i];
  }

  /** Appending entries whose URLs are fresh for the first list keeps all URLs distinct. */
  lemma FreshConcat<T>(a: seq<T>, b: seq<T>, urlOf: T -> string)
    requires FreshUrls(a, urlOf, {}) && FreshUrls(b, urlOf, UrlSet(a, urlOf))
    ensures FreshUrls(a + b, urlOf, {})
  {
    forall i, j | 0 <= i < j < |a + b|
      ensures urlOf((a + b)[i]) != urlOf((a + b)[j])
    {
      if j >= |a| && i < |a| {
        assert urlOf(a[i]) in UrlSet(a, urlOf);
        assert (a + b)[j] == b[j - |a|];
      } else if i >= |a| {
        assert (a + b)[i] == b[i - |a|] && (a + b)[j] == b[j - |a|];
      }
    }
  }

  // ---------------------------------------------------------------------
  // The searches, as functions
  // ---------------------------------------------------------------------

  /** The primary hackathon query restricts the search to three hackathon sites. */
  function HackathonSearchQuery(query: string): (q: string)
    ensures StartsWith(q, query) && EndsWith(q, " site:devpost.com OR site:hackathon.com OR site:mlh.io")
  {
    query + " site:devpost.com OR site:hackathon.com OR site:mlh.io"
  }

  /** The results a decoded value offers to a loop: none unless it is a non-empty list. */
  function ListedItems(v: SearchValue): seq<SearchItem> {
    if v.ListValue? && |v.items| > 0 then v.items else []
  }

  /** `_broader_hackathon_search`: up to `needed` extra entries whose URLs are not in `seen`. */
  function BroaderHackathons(needed: int, seen: set<string>, search: Search): Attempt<(seq<Hackathon>, set<string>)> {
    var v := BaseTool.SafeExecute(search, SearchCall(BroaderQuery, needed), Falsy);
    if v.Falsy? then Returned(([], seen))
    else if v.Malformed? then Threw(Exception(ValueError, v.message))
    else Returned(Collect(ListedItems(v), needed, BroaderExtractor(), HackathonUrlOf(), [], seen))
  }

  /** `_find_hackathons_impl`: the primary pass over the first `2 * max_results` results, the broader pass when short, and the cap. */
  function FindHackathons(query: string, maxResults: int, search: Search, deadlineOf: DeadlineOf): (r: Attempt<seq<Hackathon>>)
    ensures r.Returned? && maxResults >= 0 ==> |r.value| <= maxResults
  {
    var v := BaseTool.SafeExecute(search, SearchCall(HackathonSearchQuery(query), maxResults * 2), Falsy);
    if v.Falsy? then Returned([])
    else if v.Malformed? then Threw(Exception(ValueError, v.message))
    else
      var (primary, seen) := Collect(PyTake(ListedItems(v), maxResults * 2), maxResults,
                                     PrimaryExtractor(deadlineOf), HackathonUrlOf(), [], {});
      if |primary| < maxResults then
        match BroaderHackathons(maxResults - |primary|, seen, search)
        case Threw(e) => Threw(e)
        case Returned((more, _)) => Returned(PyTake(primary + more, maxResults))
      else
        Returned(PyTake(primary, maxResults))
  }

  /** Every entry has a hackathon URL. */
  ghost predicate AllHackathonUrls(list: seq<Hackathon>) {
    forall i :: 0 <= i < |list| ==> IsHackathonUrl(list[i].url)
  }

  /** One hackathon pass from an empty list: fresh URLs for `seen`, all of them hackathon URLs. */
  lemma HackathonPass(items: seq<SearchItem>, limit: int, extract: SearchItem -> Option<Hackathon>,
                      seen: set<string>, deadlineOf: DeadlineOf)
    requires extract == PrimaryExtractor(deadlineOf) || extract == BroaderExtractor()
    ensures var (r, s) := Collect(items, limit, extract, HackathonUrlOf(), [], seen);
      FreshUrls(r, HackathonUrlOf(), seen) && s == seen + UrlSet(r, HackathonUrlOf()) && AllHackathonUrls(r)
  {
    var urlOf := HackathonUrlOf();
    assert UrlSet([], urlOf) == {};
    CollectKeeps(items, limit, extract, urlOf, [], seen, seen);
    var (r, s) := Collect(items, limit, extract, urlOf, [], seen);
    forall i | 0 <= i < |r|
      ensures IsHackathonUrl(r[i].url)
    {
      var j :| 0 <= j < |items| && extract(items[j]) == Some(r[i]);
      HackathonExtractorsFilter(deadlineOf, items[j]);
    }
  }

  /** Both properties survive the final cut to `max_results`. */
  lemma HackathonCut(all: seq<Hackathon>, n: int)
    requires FreshUrls(all, HackathonUrlOf(), {}) && AllHackathonUrls(all)
    ensures FreshUrls(PyTake(all, n), HackathonUrlOf(), {}) && AllHackathonUrls(PyTake(all, n))
  {
    FreshPrefix(all, n, HackathonUrlOf(), {});
    assert forall i :: 0 <= i < |PyTake(all, n)| ==> PyTake(all, n)[i] == all[i];
  }

  /** The second pass extends the first without repeating a URL, and the cut keeps both properties. */
  lemma HackathonMerge(primary: seq<Hackathon>, more: seq<Hackathon>, n: int)
    requires FreshUrls(primary, HackathonUrlOf(), {}) && AllHackathonUrls(primary)
    requires FreshUrls(more, HackathonUrlOf(), UrlSet(primary, HackathonUrlOf())) && AllHackathonUrls(more)
    ensures FreshUrls(PyTake(primary + more, n), HackathonUrlOf(), {}) && AllHackathonUrls(PyTake(primary + more, n))
  {
    FreshConcat(primary, more, HackathonUrlOf());
    assert AllHackathonUrls(primary + more) by {
      forall i | 0 <= i < |primary + more|
        ensures IsHackathonUrl((primary + more)[i].url)
      {
        if i >= |primary| {
          assert (primary + more)[i] == more[i - |primary|];
        } else {
          assert (primary + more)[i] == primary[i];
        }
      }
    }
    HackathonCut(primary + more, n);
  }

  /** The broader pass after a first pass `primary` whose URLs are `seen`. */
  lemma BroaderPassDistinct(primary: seq<Hackathon>, seen: set<string>, n: int, search: Search, deadlineOf: DeadlineOf)
    requires FreshUrls(primary, HackathonUrlOf(), {}) && AllHackathonUrls(primary)
    requires seen == {} + UrlSet(primary, HackathonUrlOf())
    ensures var b := BroaderHackathons(n - |primary|, seen, search);
      b.Returned? ==>
        FreshUrls(PyTake(primary + b.value.0, n), HackathonUrlOf(), {}) && AllHackathonUrls(PyTake(primary + b.value.0, n))
  {
    var bv := BaseTool.SafeExecute(search, SearchCall(BroaderQuery, n - |primary|), Falsy);
    HackathonPass(ListedItems(bv), n - |primary|, BroaderExtractor(), seen, deadlineOf);
    assert seen == UrlSet(primary, HackathonUrlOf());
    var b := BroaderHackathons(n - |primary|, seen, search);
    if b.Returned? {
      HackathonMerge(primary, b.value.0, n);
    }
  }

  /**
   * The hackathons found are all on hackathon URLs and no URL is listed
   * twice, across both passes.
   */
  lemma FindHackathonsDistinct(query: string, maxResults: int, search: Search, deadlineOf: DeadlineOf)
    ensures var r := FindHackathons(query, maxResults, search, deadlineOf);
      r.Returned? ==> FreshUrls(r.value, HackathonUrlOf(), {}) && AllHackathonUrls(r.value)
  {
    var r := FindHackathons(query, maxResults, search, deadlineOf);
    var v := BaseTool.SafeExecute(search, SearchCall(HackathonSearchQuery(query), maxResults * 2), Falsy);
    if r.Returned? && !v.Falsy? {
      var window := PyTake(ListedItems(v), maxResults * 2);
      var (primary, seen) := Collect(window, maxResults, PrimaryExtractor(deadlineOf), HackathonUrlOf(), [], {});
      HackathonPass(window, maxResults, PrimaryExtractor(deadlineOf), {}, deadlineOf);
      if |primary| < maxResults {
        BroaderPassDistinct(primary, seen, maxResults, search, deadlineOf);
      } else {
        HackathonCut(primary, maxResults);
      }
    }
  }

  /** A falsy primary answer, including a failure turned into `[]`, ends the search empty. */
  lemma FalsyPrimaryGivesNothing(query: string, maxResults: int, search: Search, deadlineOf: DeadlineOf)
    requires var first := search(SearchCall(HackathonSearchQuery(query), maxResults * 2));
      first.Threw? || first.value.Falsy?
    ensures FindHackathons(query, maxResults, search, deadlineOf) == Returned([])
  {
  }

  /** `find_relevant_github_projects`'s query: the topic, the language when given, and the site filter. */
  function ProjectSearchQuery(topic: string, language: Option<string>): (q: string)
    ensures StartsWith(q, topic) && EndsWith(q, " site:github.com")
    ensures Truthy(language) ==> Contains(q, " " + language.value + " ")
    ensures Truthy(language) ==> q == topic + " " + language.value + " site:github.com"
    ensures !Truthy(language) ==> q == topic + " site:github.com"
  {
    if Truthy(language) then
      ContainsConcat(topic, " " + language.value + " ", "site:github.com");
      assert topic + " " + language.value + " site:github.com" == topic + (" " + language.value + " ") + "site:github.com";
      topic + " " + language.value + " site:github.com"
    else
      topic + " site:github.com"
  }

  /** `_find_projects_impl`: one pass over the first `2 * max_results` results, and the cap. */
  function FindProjects(topic: string, language: Option<string>, maxResults: int, search: Search): (r: Attempt<seq<Project>>)
    ensures r.Returned? && maxResults >= 0 ==> |r.value| <= maxResults
  {
    var v := BaseTool.SafeExecute(search, SearchCall(ProjectSearchQuery(topic, language), maxResults * 2), Falsy);
    if v.Falsy? then Returned([])
    else if v.Malformed? then Threw(Exception(ValueError, v.message))
    else
      var (projects, _) := Collect(PyTake(ListedItems(v), maxResults * 2), maxResults, ProjectExtractor(), ProjectUrlOf(), [], {});
      Returned(PyTake(projects, maxResults))
  }

  /** The projects found are on distinct GitHub repository URLs, without stars. */
  lemma FindProjectsDistinct(topic: string, language: Option<string>, maxResults: int, search: Search)
    ensures var r := FindProjects(topic, language, maxResults, search);
      r.Returned? ==>
        (forall i, j :: 0 <= i < j < |r.value| ==> r.value[i].url != r.value[j].url)
        && (forall i :: 0 <= i < |r.value| ==>
              Contains(r.value[i].url, "github.com") && UrlParser.FindRepoPath(r.value[i].url).Some?
              && r.value[i].stars == None)
  {
    var r := FindProjects(topic, language, maxResults, search);
    var v := BaseTool.SafeExecute(search, SearchCall(ProjectSearchQuery(topic, language), maxResults * 2), Falsy);
    if r.Returned? && !v.Falsy? {
      var window := PyTake(ListedItems(v), maxResults * 2);
      var urlOf := ProjectUrlOf();
      var (projects, _) := Collect(window, maxResults, ProjectExtractor(), urlOf, [], {});
      assert UrlSet([], urlOf) == {};
      CollectKeeps(window, maxResults, ProjectExtractor(), urlOf, [], {}, {});
      FreshPrefix(projects, maxResults, urlOf, {});
      assert r.value == PyTake(projects, maxResults);
      forall i | 0 <= i < |r.value|
        ensures Contains(r.value[i].url, "github.com") && UrlParser.FindRepoPath(r.value[i].url).Some?
          && r.value[i].stars == None
      {
        assert r.value[i] == projects[i];
        var j :| 0 <= j < |window| && ProjectExtractor()(window[j]) == Some(projects[i]);
      }
    }
  }

  /** `find_hackathons_for_project`'s query: the topic, the tech stack when given, and the years. */
  function HackathonsForProjectQuery(projectTopic: string, techStack: Option<string>): (q: string)
    ensures StartsWith(q, projectTopic) && EndsWith(q, " hackathon 2024 2025")
    ensures Truthy(techStack) ==> Contains(q, " " + techStack.value + " ")
    ensures Truthy(techStack) ==> q == projectTopic + " " + techStack.value + " hackathon 2024 2025"
    ensures !Truthy(techStack) ==> q == projectTopic + " hackathon 2024 2025"
  {
    if Truthy(techStack) then
      ContainsConcat(projectTopic, " " + techStack.value + " ", "hackathon 2024 2025");
      assert projectTopic + " " + techStack.value + " hackathon 2024 2025" == projectTopic + (" " + techStack.value + " ") + "hackathon 2024 2025";
      projectTopic + " " + techStack.value + " hackathon 2024 2025"
    else projectTopic + " hackathon 2024 2025"
  }

  /** `find_projects_for_hackathon`'s topic: the theme, then the requirements when given. */
  function ProjectsForHackathonTopic(theme: string, requirements: Option<string>): (q: string)
    ensures StartsWith(q, theme)
    ensures Truthy(requirements) ==> EndsWith(q, " " + requirements.value)
    ensures !Truthy(requirements) ==> q == theme
  {
    if Truthy(requirements) then theme + " " + requirements.value else theme
  }

  // ---------------------------------------------------------------------
  // The loops
  // ---------------------------------------------------------------------

  /**
   * The collecting loop shared by the three searches: `for result in items`,
   * skip what extracts to nothing or to a seen URL, append, mark seen, and
   * `break` at `limit` entries.
   */
  method CollectLoop<T>(items: seq<SearchItem>, limit: int, extract: SearchItem -> Option<T>, urlOf: T -> string,
                        seen0: set<string>)
    returns (found: seq<T>, seen: set<string>)
    ensures (found, seen) == Collect(items, limit, extract, urlOf, [], seen0)
  {
    found := [];
    seen := seen0;
    var i := 0;
    while i < |items|
      invariant 0 <= i <= |items|
      invariant Collect(items, limit, extract, urlOf, [], seen0) == Collect(items[i..], limit, extract, urlOf, found, seen)
    {
      assert items[i..][0] == items[i] && items[i..][1..] == items[i + 1..];
      var entry := extract(items[i]);
      if entry.Some? && urlOf(entry.value) !in seen {
        found := found + [entry.value];
        seen := seen + {urlOf(entry.value)};
        if |found| >= limit {
          return;
        }
      }
      i := i + 1;
    }
  }

  /** `_broader_hackathon_search`, with the one search it makes. */
  method BroaderHackathonSearch(needed: int, seen: set<string>, search: Search)
    returns (outcome: Attempt<(seq<Hackathon>, set<string>)>, call: SearchCall)
    ensures outcome == BroaderHackathons(needed, seen, search)
    ensures call == SearchCall(BroaderQuery, needed)
  {
    call := SearchCall(BroaderQuery, needed);
    var broaderResults := BaseTool.SafeExecute(search, call, Falsy);
    if broaderResults.Falsy? {
      return Returned(([], seen)), call;
    }
    if broaderResults.Malformed? {
      return Threw(Exception(ValueError, broaderResults.message)), call;
    }
    var additional, seen' := CollectLoop(ListedItems(broaderResults), needed, BroaderExtractor(), HackathonUrlOf(), seen);
    outcome := Returned((additional, seen'));
  }

  /**
   * `_find_hackathons_impl`, with the searches it makes: the primary one
   * always, the broader one only when the primary answer was a value and
   * left the list short.
   */
  method FindHackathonsImpl(query: string, maxResults: int, search: Search, deadlineOf: DeadlineOf)
    returns (outcome: Attempt<seq<Hackathon>>, calls: seq<SearchCall>)
    ensures outcome == FindHackathons(query, maxResults, search, deadlineOf)
    ensures 1 <= |calls| <= 2 && calls[0] == SearchCall(HackathonSearchQuery(query), maxResults * 2)
    ensures |calls| == 2 ==> calls[1].query == BroaderQuery && 0 < calls[1].maxResults <= maxResults
    ensures var first := BaseTool.SafeExecute(search, calls[0], Falsy);
      first.Falsy? || first.Malformed? ==> |calls| == 1
  {
    var searchQuery := HackathonSearchQuery(query);
    calls := [SearchCall(searchQuery, maxResults * 2)];
    var resultsJson := BaseTool.SafeExecute(search, calls[0], Falsy);
    if resultsJson.Falsy? {
      return Returned([]), calls;
    }
    if resultsJson.Malformed? {
      return Threw(Exception(ValueError, resultsJson.message)), calls;
    }
    var hackathons, seenUrls := CollectLoop(PyTake(ListedItems(resultsJson), maxResults * 2), maxResults,
                                            PrimaryExtractor(deadlineOf), HackathonUrlOf(), {});
    if |hackathons| < maxResults {
      var more, call := BroaderHackathonSearch(maxResults - |hackathons|, seenUrls, search);
      calls := calls + [call];
      if more.Threw? {
        return Threw(more.exception), calls;
      }
      hackathons := hackathons + more.value.0;
    }
    outcome := Returned(PyTake(hackathons, maxResults));
  }

  /** `_find_projects_impl`, with the one search it makes. */
  method FindProjectsImpl(topic: string, language: Option<string>, maxResults: int, search: Search)
    returns (outcome: Attempt<seq<Project>>, call: SearchCall)
    ensures outcome == FindProjects(topic, language, maxResults, search)
    ensures call == SearchCall(ProjectSearchQuery(topic, language), maxResults * 2)
  {
    var searchQuery: string;
    if Truthy(language) {
      searchQuery := topic + " " + language.value + " site:github.com";
    } else {
      searchQuery := topic + " site:github.com";
    }
    call := SearchCall(searchQuery, maxResults * 2);
    var resultsJson := BaseTool.SafeExecute(search, call, Falsy);
    if resultsJson.Falsy? {
      return Returned([]), call;
    }
    if resultsJson.Malformed? {
      return Threw(Exception(ValueError, resultsJson.message)), call;
    }
    var projects, _ := CollectLoop(PyTake(ListedItems(resultsJson), maxResults * 2), maxResults,
                                   ProjectExtractor(), ProjectUrlOf(), {});
    outcome := Returned(PyTake(projects, maxResults));
  }

  // ---------------------------------------------------------------------
  // The tool, with its cache
  // ---------------------------------------------------------------------

  /** The arguments a cache key is made of; hackathon searches have no language. */
  datatype Args = Args(text: string, language: Option<string>, maxResults: int)

  /** A cached result: one of the two kinds of list. */
  datatype Found = Hackathons(hackathons: seq<Hackathon>) | Projects(projects: seq<Project>)

  const HackathonsName := "find_ongoing_hackathons"
  const ProjectsName := "find_relevant_github_projects"

  function HackathonsFunc(search: Search, deadlineOf: DeadlineOf): Args -> Attempt<Found> {
    (a: Args) => match FindHackathons(a.text, a.maxResults, search, deadlineOf)
         case Returned(list) => Returned(Hackathons(list))
         case Threw(e) => Threw(e)
  }

  function ProjectsFunc(search: Search): Args -> Attempt<Found> {
    (a: Args) => match FindProjects(a.text, a.language, a.maxResults, search)
         case Returned(list) => Returned(Projects(list))
         case Threw(e) => Threw(e)
  }

  /** The function each cached name stands for. */
  function Funcs(search: Search, deadlineOf: DeadlineOf): string -> Args -> Attempt<Found> {
    (name: string) => if name == HackathonsName then HackathonsFunc(search, deadlineOf) else ProjectsFunc(search)
  }

  class HackathonDiscoveryTools {
    const base: BaseTool.Tool<Args, Found>

    constructor ()
      ensures fresh(base) && base.name == "hackathon_discovery" && base.cache == map[] && base.cacheEnabled
    {
      base := new BaseTool.Tool("hackathon_discovery");
    }

    /**
     * `find_ongoing_hackathons`: a cache that agrees with the search keeps
     * agreeing, and the answer is then the one a fresh search gives.
     */
    method FindOngoingHackathons(query: string, maxResults: int, search: Search, deadlineOf: DeadlineOf)
      returns (r: Attempt<Found>)
      modifies base
      ensures base.cacheEnabled == old(base.cacheEnabled)
      ensures old(base.CacheAgrees(Funcs(search, deadlineOf))) ==>
        base.CacheAgrees(Funcs(search, deadlineOf))
        && r == HackathonsFunc(search, deadlineOf)(Args(query, None, maxResults))
    {
      r := base.CachedCall(HackathonsName, Args(query, None, maxResults), HackathonsFunc(search, deadlineOf));
    }

    /** `find_relevant_github_projects`, likewise. */
    method FindRelevantGithubProjects(topic: string, language: Option<string>, maxResults: int,
                                      search: Search, ghost deadlineOf: DeadlineOf)
      returns (r: Attempt<Found>)
      modifies base
      ensures base.cacheEnabled == old(base.cacheEnabled)
      ensures old(base.CacheAgrees(Funcs(search, deadlineOf))) ==>
        base.CacheAgrees(Funcs(search, deadlineOf))
        && r == ProjectsFunc(search)(Args(topic, language, maxResults))
    {
      assert Funcs(search, deadlineOf)(ProjectsName) == ProjectsFunc(search);
      r := base.CachedCall(ProjectsName, Args(topic, language, maxResults), ProjectsFunc(search));
    }

    /** `find_hackathons_for_project`: the hackathon search on the project's query. */
    method FindHackathonsForProject(projectTopic: string, techStack: Option<string>, maxResults: int,
                                    search: Search, deadlineOf: DeadlineOf)
      returns (r: Attempt<Found>)
      modifies base
      ensures base.cacheEnabled == old(base.cacheEnabled)
      ensures old(base.CacheAgrees(Funcs(search, deadlineOf))) ==>
        base.CacheAgrees(Funcs(search, deadlineOf))
        && r == HackathonsFunc(search, deadlineOf)(Args(HackathonsForProjectQuery(projectTopic, techStack), None, maxResults))
    {
      var query: string;
      if Truthy(techStack) {
        query := projectTopic + " " + techStack.value + " hackathon 2024 2025";
      } else {
        query := projectTopic + " hackathon 2024 2025";
      }
      r := FindOngoingHackathons(query, maxResults, search, deadlineOf);
    }

    /** `find_projects_for_hackathon`: the project search on the theme, with no language. */
    method FindProjectsForHackathon(theme: string, requirements: Option<string>, maxResults: int,
                                    search: Search, ghost deadlineOf: DeadlineOf)
      returns (r: Attempt<Found>)
      modifies base
      ensures base.cacheEnabled == old(base.cacheEnabled)
      ensures old(base.CacheAgrees(Funcs(search, deadlineOf))) ==>
        base.CacheAgrees(Funcs(search, deadlineOf))
        && r == ProjectsFunc(search)(Args(ProjectsForHackathonTopic(theme, requirements), None, maxResults))
    {
      var query: string;
      if Truthy(requirements) {
        query := theme + " " + requirements.value;
      } else {
        query := theme;
      }
      r := FindRelevantGithubProjects(query, None, maxResults, search, deadlineOf);
    }
  }
}
