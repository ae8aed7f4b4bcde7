/**
 * The entry points of `app/main.py`: the module-level agent, `revamp_project`
 * (the discovery planner run on one agent) and `revamp_and_implement`
 * (strategy, then an optional hand-off to the coding helpers).
 *
 * The coding helpers of `app/coding_agent.py` are the oracle `Coder`; the
 * outcome of importing that module is a parameter.
 */
module Main {
  import opened Wrappers
  import opened Strings
  import opened Requests
  import opened Runtime
  import opened Planner
  import opened UrlParser

  const FirecrawlKey := "FIRECRAWL_API_KEY"
  const FallbackInstructions := "You are a helpful assistant."

  /**
   * The module-level agent: four tool kits, Firecrawl when its key is set,
   * and the LangWatch prompt's text or a one-line fallback.
   */
  method BuildModuleAgent(env: Env, prompt: Option<Prompt>) returns (agent: AgnoAgent)
    ensures agent.model == OpenAIChat("gpt-4o") && agent.markdown
    ensures agent.instructions == Custom(if prompt.Some? then prompt.value.text else FallbackInstructions)
    ensures |agent.tools| >= 4 && agent.tools[..4] == [DuckDuckGo, HackathonDiscovery, FileTools, LocalFileSystem]
    ensures |agent.tools| == (if EnvSet(env, FirecrawlKey) then 5 else 4)
    ensures Firecrawl in agent.tools <==> EnvSet(env, FirecrawlKey)
  {
    var tools := [DuckDuckGo, HackathonDiscovery, FileTools, LocalFileSystem];
    if EnvSet(env, FirecrawlKey) {
      tools := tools + [Firecrawl];
    }
    var instructions := if prompt.Some? then prompt.value.text else FallbackInstructions;
    agent := AgnoAgent(OpenAIChat("gpt-4o"), Custom(instructions), tools, true);
  }

  /**
   * `revamp_project`: the query lines, the discovery needs and the
   * instructions are built by appends, and the model's answer to the
   * resulting query is returned as it is.
   */
  method RevampProject(agent: AgnoAgent, llm: Llm, req: Request) returns (response: Attempt<string>)
    ensures response == llm(agent, Text(StrategyQuery(MainIndent, req)))
  {
    var queryParts: seq<QueryPart> := [];
    var needsDiscovery: seq<Need> := [];

    if Truthy(req.githubUrl) {
      queryParts := queryParts + [GithubProjectLine(req.githubUrl.value)];
    } else {
      needsDiscovery := needsDiscovery + [NeedsProject];
    }
    if Truthy(req.hackathonUrl) {
      queryParts := queryParts + [HackathonWebsiteLine(req.hackathonUrl.value)];
      queryParts := queryParts + [ScrapeRequest];
    } else {
      needsDiscovery := needsDiscovery + [NeedsHackathon];
    }
    if Truthy(req.hackathonContext) {
      queryParts := queryParts + [ContextLine(req.hackathonContext.value)];
    }
    assert queryParts == QueryParts(req);
    assert needsDiscovery == DiscoveryNeeds(req);

    var instructions: seq<Instruction> := [];
    var focus := Focus(req.searchTopic);
    if |needsDiscovery| > 0 {
      if |needsDiscovery| == 2 {
        if req.searchOrder == "hackathons_first" {
          instructions := instructions + [FindHackathonsFirst(focus)];
          instructions := instructions + [ProjectsForEachHackathon];
          instructions := instructions + [PresentOptions];
        } else {
          instructions := instructions + [FindProjectsFirst(focus)];
          instructions := instructions + [HackathonsForEachProject];
          instructions := instructions + [PresentOptions];
        }
      } else if NeedsProject in needsDiscovery {
        instructions := instructions + [FindProjects(focus)];
      } else if NeedsHackathon in needsDiscovery {
        instructions := instructions + [FindHackathons(focus)];
      }
    }
    assert instructions == DiscoveryInstructions(req);

    var partsBlock := if |queryParts| > 0 then Join(PartTexts(queryParts), "\n") else NoUrlsPlaceholder;
    var instructionsBlock := if |instructions| > 0 then Join(InstructionTexts(instructions), "\n") else "";
    assert partsBlock == PartsBlock(QueryParts(req));
    assert instructionsBlock == InstructionsBlock(DiscoveryInstructions(req));
    QueryOfBlocks(MainIndent, req, partsBlock, instructionsBlock);
    var query := QueryText(MainIndent, partsBlock, instructionsBlock);
    response := llm(agent, Text(query));
  }

  /** The two helpers of `app/coding_agent.py` and their arguments. */
  datatype CodingCall =
    | ForkAndRevamp(originalRepo: string, revampStrategy: string, branchName: string)
    | ImplementRevampStrategy(repoName: string, revampStrategy: string, branchName: string)

  /** A coding helper's summary, or the exception it raises. */
  type Coder = CodingCall -> Attempt<string>

  /** The dictionary `revamp_and_implement` returns. */
  datatype RevampResult = RevampResult(strategy: string, implementation: Option<string>, repoName: Option<string>)

  const RepoRequired := "Repository name required for implementation. Please provide github_url or repo_name."

  /** The text the two `except` clauses store for a caught exception. */
  function CaughtText(e: Exception): string {
    if e.kind == ImportError then "Error importing coding agent: " + e.message
    else "Error during implementation: " + e.message
  }

  /** The repository the coding step works on: the greedy regex of line 241, so `.git` is kept. */
  function MainRepoName(req: Request): (r: Option<string>)
    ensures r.Some? ==> Truthy(req.githubUrl) && RepoShape(r.value)
  {
    if Truthy(req.githubUrl) then FindRepoPath(req.githubUrl.value) else None
  }

  /** The helper `fork_repo` selects. */
  function CodingCallFor(forkRepo: bool, repo: string, strategy: string, branchName: string): CodingCall {
    if forkRepo then ForkAndRevamp(repo, strategy, branchName)
    else ImplementRevampStrategy(repo, strategy, branchName)
  }

  /**
   * The `if implement_changes:` block of `revamp_and_implement`: every
   * failure of the import or the coding helper is caught and stored as text,
   * and the strategy is kept.
   */
  method AttachImplementation(req: Request, strategy: string, implementChanges: bool, forkRepo: bool,
                              branchName: string, importFailure: Option<Exception>, coder: Coder)
    returns (result: RevampResult)
    ensures result.strategy == strategy
    ensures !implementChanges ==> result.implementation == None && result.repoName == None
    ensures implementChanges && importFailure.Some? ==>
      result.implementation == Some(CaughtText(importFailure.value)) && result.repoName == None
    ensures implementChanges && importFailure.None? && MainRepoName(req).None? ==>
      result.implementation == Some(RepoRequired) && result.repoName == None
    ensures implementChanges && importFailure.None? && MainRepoName(req).Some? ==>
      var done := coder(CodingCallFor(forkRepo, MainRepoName(req).value, strategy, branchName));
      (done.Returned? ==> result.implementation == Some(done.value) && result.repoName == MainRepoName(req))
      && (done.Threw? ==> result.implementation == Some(CaughtText(done.exception)) && result.repoName == None)
  {
    result := RevampResult(strategy, None, None);
    if implementChanges {
      var caught: Option<Exception> := None;
      if importFailure.Some? {
        caught := importFailure;
      } else {
        var repoName: Option<string> := None;
        if Truthy(req.githubUrl) {
          repoName := FindRepoPath(req.githubUrl.value);
        }
        if !Truthy(repoName) {
          result := result.(implementation := Some(RepoRequired));
          return;
        }
        var call;
        if forkRepo {
          call := ForkAndRevamp(repoName.value, strategy, branchName);
        } else {
          call := ImplementRevampStrategy(repoName.value, strategy, branchName);
        }
        var implementation := coder(call);
        if implementation.Returned? {
          result := result.(implementation := Some(implementation.value));
          result := result.(repoName := repoName);
        } else {
          caught := Some(implementation.exception);
        }
      }
      if caught.Some? {
        result := result.(implementation := Some(CaughtText(caught.value)));
      }
    }
  }

  /**
   * `revamp_and_implement`: a strategy failure propagates, since
   * `revamp_project` runs outside the `try`; otherwise the result holds the
   * strategy and what the implementation block stored.
   */
  method RevampAndImplement(agent: AgnoAgent, llm: Llm, req: Request, implementChanges: bool, forkRepo: bool,
                            branchName: string, importFailure: Option<Exception>, coder: Coder)
    returns (outcome: Attempt<RevampResult>)
    ensures var s := llm(agent, Text(StrategyQuery(MainIndent, req)));
      (s.Threw? ==> outcome == Threw(s.exception))
      && (s.Returned? ==> outcome.Returned? && outcome.value.strategy == s.value)
    ensures outcome.Returned? && !implementChanges ==>
      outcome.value.implementation == None && outcome.value.repoName == None
    ensures outcome.Returned? && implementChanges && importFailure.Some? ==>
      outcome.value.implementation == Some(CaughtText(importFailure.value)) && outcome.value.repoName == None
    ensures outcome.Returned? && implementChanges && importFailure.None? && MainRepoName(req).None? ==>
      outcome.value.implementation == Some(RepoRequired) && outcome.value.repoName == None
    ensures outcome.Returned? && implementChanges && importFailure.None? && MainRepoName(req).Some? ==>
      var done := coder(CodingCallFor(forkRepo, MainRepoName(req).value, outcome.value.strategy, branchName));
      (done.Returned? ==> outcome.value.implementation == Some(done.value) && outcome.value.repoName == MainRepoName(req))
      && (done.Threw? ==> outcome.value.implementation == Some(CaughtText(done.exception)) && outcome.value.repoName == None)
  {
    var strategyOutcome := RevampProject(agent, llm, req);
    if strategyOutcome.Threw? {
      return Threw(strategyOutcome.exception);
    }
    var result := AttachImplementation(req, strategyOutcome.value, implementChanges, forkRepo, branchName, importFailure, coder);
    return Returned(result);
  }

  /**
   * The repository name handed to the coding helpers keeps a `.git` suffix,
   * unlike `extract_github_repo`.
   */
  lemma CodingRepoKeepsGitSuffix(o: string, n: string, url: string, req: Request)
    requires Segment(o) && Segment(n) && !EndsWith(n, ".git")
    requires url == "https://" + Host + o + "/" + n + ".git"
    requires req.githubUrl == Some(url)
    ensures MainRepoName(req) == Some(o + "/" + (n + ".git"))
    ensures ExtractGithubRepo(url) == Some(o + "/" + n)
  {
    assert NoG("https://");
    GreedyKeepsGitSuffix("https://", o, n, url);
  }
}
