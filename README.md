# Hackathon Project Revamp Agent — a Dafny model

The revamp agent takes an open-source GitHub project and a hackathon. It
analyses both with language-model agents and produces a revamp strategy.
An optional coding step then implements that strategy. Around the model
calls sits deterministic logic, and that logic is what this project
models. It covers:

- URL parsing, covering GitHub `owner/repo` extraction, the `urlparse` split and URL classification, and request validation.
- The discovery planner, which turns the given URLs and the search order into a query for the strategy agent.
- The discovery tools, which filter, de-duplicate and cap search results behind a memoising base tool.
- The session tracker.
- The three orchestrators:
  - the structured workflow, with its step log;
  - the team;
  - the teams-module workflow, which reports to a session.
- Capability resolution:
  - configuration loading;
  - tool assignment per agent;
  - the coding-model fallback chains;
  - the base agent's prompt fallback.

Every language-model call is the oracle `Llm` (`runtime.dfy`): for an agent
and a query it returns some text or raises. A DuckDuckGo search is the oracle
`Search`, and the coding helpers are the oracle `Coder`. The environment is a
map from variable to value. Clocks are parameters. Python's `not x` on an
optional string is `Truthy` (`wrappers.dfy`). Exceptions are values of the
`Attempt` and `Result` datatypes.

There is one Dafny module per source file. `Wrappers`, `Strings`, `Runtime`
and `Requests` hold the values the files share. `Planner` holds the
discovery planner. The planner is written out twice in the source, in
`app/main.py` and in `app/agents/strategy_agent.py`, and both copies build
the same query from the same decisions.

## Model

| member | source | states |
|---|---|---|
| UrlParser.LazyEnd | app/utils/url_parser.py:30-31 | The lazy `[^/]+?` repository group ends at the first position where the rest of the pattern matches. It ends no later than the first slash, and is None when no position works. |
| UrlParser.MatchAt | app/utils/url_parser.py:30-35 | A pattern match at a `github.com/` occurrence is an `owner/repo` string that follows that occurrence in the URL. |
| UrlParser.Search | app/utils/url_parser.py:35 | Whatever `re.search` finds is an `owner/repo` string that follows a `github.com/` in the URL. |
| UrlParser.StripGitSuffix | app/utils/url_parser.py:39-40 | Removing a trailing `.git` leaves a prefix of the match with the `owner/repo` shape. |
| UrlParser.ExtractGithubRepo | app/utils/url_parser.py:15-43 | An empty URL yields None. Any result has the `owner/repo` shape, and `github.com/` followed by the result occurs in the URL. |
| UrlParser.SearchFirst | app/utils/url_parser.py:34-36 | The first `github.com/` occurrence where the pattern matches decides the search. |
| UrlParser.SearchOnlyAt | app/utils/url_parser.py:35 | With a single `github.com/` occurrence, the search is exactly the match there. |
| UrlParser.ExtractByStrict | app/utils/url_parser.py:34-41 | When the first pattern matches, it decides the result after `.git` removal. |
| UrlParser.ExtractByLoose | app/utils/url_parser.py:34-41 | When only the second pattern matches, it decides the result after `.git` removal. |
| UrlParser.ExtractByNeither | app/utils/url_parser.py:34-43 | When neither pattern matches, the result is None. |
| UrlParser.ExtractPlain | app/utils/url_parser.py:29-41 | `github.com/OWNER/REPO` followed by nothing, `/`, `.git` or `.git/` extracts exactly `OWNER/REPO`, without `.git`. |
| UrlParser.MatchAtDeep | app/utils/url_parser.py:30-31 | On `github.com/OWNER/REPO/more`, the first pattern fails and the second matches `OWNER/REPO`. |
| UrlParser.ExtractDeepPath | app/utils/url_parser.py:29-41 | When `github.com/` occurs only once, `github.com/OWNER/REPO/tree/x` and other deeper paths extract exactly `OWNER/REPO`. |
| UrlParser.ExtractOwnerOnly | app/utils/url_parser.py:29-43 | When `github.com/` occurs only once, a URL with a single path segment after it, with or without a trailing slash, yields None. |
| UrlParser.RepoPathAt | app/main.py:241 | The greedy `github\.com/([^/]+/[^/]+)` match at an occurrence has the `owner/repo` shape. |
| UrlParser.FindRepoPath | app/main.py:241 | The first greedy match in the URL has the `owner/repo` shape. |
| UrlParser.FindRepoPathPlain | app/main.py:241 | The greedy search on `github.com/OWNER/REPO...` yields `OWNER/REPO` up to the next slash. |
| UrlParser.GreedyKeepsGitSuffix | app/main.py:241 | On `.../REPO.git` the greedy regex keeps `.git`, while extract_github_repo removes it. |
| UrlParser.UrlParse | app/utils/url_parser.py:60 | In this model `urlparse` fails only with ValueError "Invalid IPv6 URL" for an unmatched bracket, which the validators catch. The other ValueErrors of the real `urlparse` are not modelled (see the `urlparse` line under "Left out"). |
| UrlParser.HttpsNetloc | app/utils/url_parser.py:60-61 | `https://HOST/...` parses, with scheme `https` and netloc `HOST`. |
| UrlParser.GithubNetloc | app/utils/url_parser.py:60-61 | `https://github.com/...` and `https://www.github.com/...` parse to a lower-cased netloc of exactly that host. |
| UrlParser.ValidateGithubUrl | app/utils/url_parser.py:46-67 | A valid URL is non-empty. It parses, its lower-cased netloc is `github.com` or `www.github.com`, and extraction succeeds. |
| UrlParser.ValidateGithubFromParts | app/utils/url_parser.py:59-65 | The reverse direction: a non-empty URL whose netloc is a GitHub host and whose extraction succeeds is valid. |
| UrlParser.ExtractCanonical | app/utils/url_parser.py:29-41 | A canonical `https://[www.]github.com/OWNER/REPO[.git][/]` extracts exactly `OWNER/REPO`. |
| UrlParser.ValidateGithubCanonical | app/utils/url_parser.py:46-67 | A canonical GitHub repository URL is valid. |
| UrlParser.ValidateHackathonUrl | app/utils/url_parser.py:70-108 | A URL accepted as a hackathon URL is non-empty, parses, and has a netloc. |
| UrlParser.HackKeywordCovers | app/utils/url_parser.py:103-106 | The keyword test holds iff the lower-cased URL contains `hack`, `challenge` or `competition`, since `hackathon` adds nothing. |
| UrlParser.HackathonPlatformUrl | app/utils/url_parser.py:89-100 | An `https://` URL whose host contains a listed hackathon domain is accepted. |
| UrlParser.HackathonUrlIff | app/utils/url_parser.py:70-108 | A URL is accepted iff it is non-empty, parses with a non-empty netloc, and either the lower-cased netloc contains a listed platform domain or the lower-cased URL contains `hack`, `challenge` or `competition`. |
| UrlParser.HackathonKeywordUrl | app/utils/url_parser.py:103-106 | A URL that parses with a netloc and mentions a hackathon keyword is accepted, whatever its host. |
| UrlParser.ParseUrlInfo | app/utils/url_parser.py:111-150 | Only the empty URL gives the bare invalid record, and a parse failure carries its message; a non-empty URL that parses always gives a valid record. A valid record keeps the URL, its lower-cased netloc as domain and its parsed path. The type is GitHub exactly when the GitHub validator accepts the URL; otherwise hackathon exactly when the hackathon validator accepts it; otherwise website. The GitHub type comes with a repository name and a GitHub domain, and no other type has a repository name. |
| UrlParser.ParseUrlInfoOfGithubUrl | app/utils/url_parser.py:136-138 | A valid GitHub URL is classified as GitHub, with its lower-cased netloc and its extracted repository. |
| UrlParser.ParseUrlInfoCanonical | app/utils/url_parser.py:111-144 | A canonical GitHub URL is classified as GitHub, with repository `OWNER/REPO`. |
| Validation.ValidateInputs | app/utils/validation.py:12-83 | The appends, the raise and the returned dictionary give exactly the outcome the error and warning rules specify. |
| Validation.CheckGithubUrl | app/utils/validation.py:39-45 | The GitHub URL check appends exactly its errors after the earlier ones. |
| Validation.CheckHackathonUrl | app/utils/validation.py:48-50 | The hackathon URL check appends exactly its warnings. |
| Validation.CheckSearchOrder | app/utils/validation.py:53-55 | The search order check appends exactly its errors. |
| Validation.CheckSufficiency | app/utils/validation.py:58-59 | The at-least-one-input check appends exactly its errors. |
| Validation.CheckSearchTopic | app/utils/validation.py:62-66 | The topic check appends exactly its error and its warning. |
| Validation.CheckHackathonContext | app/utils/validation.py:69-70 | The context check appends exactly its warning. |
| Validation.RaisedMentions | app/utils/validation.py:72-73 | Every collected error text appears in the raised message. |
| Validation.AcceptedIff | app/utils/validation.py:35-73 | A request is accepted iff: any GitHub URL is valid, the order is one of the two names, some input is given, and any topic strips to at least 2 characters. |
| Validation.RejectedMessage | app/utils/validation.py:72-73 | A rejection is a ValidationError with at least one collected error. Its message is `Validation failed: ` followed by the error texts joined with `; `. |
| Validation.NothingGivenRaises | app/utils/validation.py:58-73 | Without a GitHub URL, a hackathon URL or a topic, validation raises and names the missing input. |
| Validation.ErrorOrder | app/utils/validation.py:39-64 | When the URL, the order and the topic are all bad, the errors appear in that order. |
| Validation.BadOrderRaises | app/utils/validation.py:53-55 | An unknown search order is fatal and is named in the message. |
| Validation.HackathonUrlOnlyWarns | app/utils/validation.py:48-50 | The hackathon URL never affects the errors. It is warned about exactly when the heuristic rejects it. |
| Validation.ShortTopicRaises | app/utils/validation.py:62-64 | A topic that strips to fewer than 2 characters is fatal. |
| Validation.LengthsNeverFatal | app/utils/validation.py:62-70 | Topic and context lengths change no error beyond the short-topic rule. |
| Validation.LongTopicWarns | app/utils/validation.py:65-66 | The long-topic warning appears iff a topic longer than 100 characters is given. |
| Validation.LongContextWarns | app/utils/validation.py:69-70 | The long-context warning appears iff a context longer than 1000 characters is given. |
| Validation.NoRepoNameNeverReported | app/utils/validation.py:40-45 | The "could not extract" error is unreachable, because a valid URL always extracts. |
| Validation.AcceptedHasRepoName | app/utils/validation.py:75-82 | An accepted request with a GitHub URL returns an `owner/repo` repository name. |
| Validation.ValidateImplementationInputs | app/utils/validation.py:85-138 | The method gives the outcome of the code as written, including the NameError for every non-empty branch name. |
| Validation.BranchNameRaisesNameError | app/utils/validation.py:116-118 | Every non-empty branch name, the default included, ends in NameError. |
| Validation.ImplementWithoutUrlRaises | app/utils/validation.py:109-111 | With an empty branch name, implementing without a GitHub URL raises exactly the "required" error. |
| Validation.ForkWithoutImplementWarns | app/utils/validation.py:125-126 | With an empty branch name, forking without implementing is accepted with exactly one warning. |
| Validation.ImplementationAcceptedHasRepo | app/utils/validation.py:109-137 | An accepted request that implements changes has a valid GitHub URL and a repository name. |
| Validation.IntendedAgreesWithoutBranch | app/utils/validation.py:116-123 | The intended validator agrees with the code as written when the branch name is empty. |
| Validation.IntendedBranchRules | app/utils/validation.py:116-123 | Under the intended rules, a branch name is accepted iff it matches the character pattern, has at most 100 characters and has no hyphen at either end. The default name is accepted. |
| Validation.IntendedRefusesHyphen | app/utils/validation.py:122-123 | Under the intended rules, a leading hyphen is reported. |
| Planner.NeedsInOrder | app/main.py:100-112 | The project is needed iff no GitHub URL is given and the hackathon iff no hackathon URL is given. Project comes first. |
| Planner.BothGivenNoInstructions | app/main.py:120-156 | There are no discovery instructions iff both URLs are given. |
| Planner.HackathonsFirstPlan | app/main.py:121-134 | With both URLs missing and `hackathons_first`, the plan is: find hackathons, then projects per hackathon, then present. |
| Planner.ProjectsFirstPlan | app/main.py:135-146 | With both URLs missing and any other order string, the plan is: find projects, then hackathons per project, then present. |
| Planner.OneMissingPlan | app/main.py:147-156 | With exactly one URL missing, there is a single instruction for the missing side. |
| Planner.PlanShape | app/main.py:118-156 | The plan has 0, 3 or 1 instructions as both, neither or one URL is given. A three-step plan ends by presenting the options. |
| Planner.FocusIffTopic | app/main.py:124-156 | The first instruction carries a focus iff a topic is given, and the focus is that topic. |
| Planner.FocusedTextMentionsTopic | app/main.py:123-155 | Either focused hackathon-search instruction contains `Focus on: ` and the topic. |
| Planner.FocusedProjectTextMentionsTopic | app/main.py:136-150 | Either focused project-search instruction contains `Focus on topic: ` and the topic. |
| Planner.QueryPartsInOrder | app/main.py:97-115 | The query parts come in the order GitHub line, hackathon lines, context line. Each is present iff its input is given. |
| Planner.QueryAnnouncesDiscoveryMode | app/main.py:161 | With no query parts, the query contains the "discovery mode activated" placeholder. |
| Planner.QueryMentionsPart | app/main.py:158-163 | Every query part's text appears in the query. |
| Planner.QueryMentionsInstruction | app/main.py:163 | Every discovery instruction's text appears in the query. |
| Planner.QueryFrame | app/main.py:158-176 | The query opens with a newline, the indented header line, and a blank line that keeps the indentation. It ends with another indented blank line, the indented request list and the indentation before the closing quotes. |
| Main.BuildModuleAgent | app/main.py:51-66 | The module agent uses gpt-4o with markdown, and the prompt text or the fallback instructions. It has the four tool kits in order, with Firecrawl fifth iff its key is set. |
| Main.RevampProject | app/main.py:69-180 | The result is exactly the agent's answer to the planner's query. |
| Main.MainRepoName | app/main.py:237-243 | A repository name exists only for a given GitHub URL and has the `owner/repo` shape. |
| Main.AttachImplementation | app/main.py:225-271 | The strategy is always kept. Without implementation both fields are None. Otherwise the field holds the import error text, the repository-required message, the helper's summary (with the repository name), or the caught error text. |
| Main.RevampAndImplement | app/main.py:183-273 | A strategy failure propagates. Otherwise the result holds the strategy, and implementation follows the rules above, with fork_repo selecting fork_and_revamp. |
| Main.CodingRepoKeepsGitSuffix | app/main.py:241-243 | For a `.git` URL the coding step gets `OWNER/REPO.git`, while extract_github_repo gives `OWNER/REPO`. |
| StrategyAgents.RequestWithDefaultOrder | app/agents/strategy_agent.py:60-67 | Omitting `search_order` gives `projects_first`. |
| StrategyAgents.CreateRevampStrategy | app/agents/strategy_agent.py:60-161 | The result is exactly the agent's `run` on the planner's query, indented as in this file, blank template lines included. |
| StrategyAgents.DefaultOrderIsProjectsFirst | app/agents/strategy_agent.py:105-128 | With neither URL given, omitting the order gives the projects-first plan: find projects, then hackathons per project, then present. |
| DiscoveryTools.IsHackathonUrlIff | app/tools/discovery_tools.py:126-129 | The test holds iff the lower-cased URL contains `devpost`, `mlh.io` or `hack`, since `hackathon` adds nothing. |
| DiscoveryTools.ExtractHackathonInfo | app/tools/discovery_tools.py:101-124 | An entry exists iff the URL is non-empty and looks like a hackathon URL. It keeps the title and URL, a prefix of the body of at most 200 characters, and the deadline oracle's value. |
| DiscoveryTools.BroaderEntry | app/tools/discovery_tools.py:147-156 | A broader entry exists iff the URL looks like a hackathon URL. It has the title or "Hackathon", a short description and no deadline. |
| DiscoveryTools.ExtractProjectInfo | app/tools/discovery_tools.py:230-248 | A project exists iff the URL contains `github.com` and has a greedy `owner/repo` match. It has the title or the match, a description of at most 200 characters, and no stars. |
| DiscoveryTools.HackathonExtractorsFilter | app/tools/discovery_tools.py:108-150 | Both hackathon extractors yield only hackathon-looking URLs. |
| DiscoveryTools.CollectKeeps | app/tools/discovery_tools.py:84-93 | The collection loop keeps the earlier entries and adds only URLs new to the seen set, each from some item. It updates the seen set and stops at the limit. |
| DiscoveryTools.HackathonSearchQuery | app/tools/discovery_tools.py:67 | The primary query is the caller's query followed by the three `site:` filters. |
| DiscoveryTools.FindHackathons | app/tools/discovery_tools.py:65-99 | At most max_results hackathons are returned. |
| DiscoveryTools.FindHackathonsDistinct | app/tools/discovery_tools.py:81-157 | No URL repeats across the primary and broader passes, and every URL looks like a hackathon URL. |
| DiscoveryTools.FalsyPrimaryGivesNothing | app/tools/discovery_tools.py:70-77 | A falsy or failed primary search yields `[]`, with no broader search. |
| DiscoveryTools.ProjectSearchQuery | app/tools/discovery_tools.py:197-200 | With a non-empty language the query is exactly the topic, a space, the language and ` site:github.com`, so the language appears space-delimited; otherwise it is exactly the topic followed by ` site:github.com`. |
| DiscoveryTools.FindProjects | app/tools/discovery_tools.py:194-228 | At most max_results projects are returned. |
| DiscoveryTools.FindProjectsDistinct | app/tools/discovery_tools.py:213-228 | Project URLs are distinct GitHub URLs with an `owner/repo` path, and have no stars. |
| DiscoveryTools.HackathonsForProjectQuery | app/tools/discovery_tools.py:269-272 | With a non-empty tech stack the query is exactly the topic, a space, the tech stack and ` hackathon 2024 2025`, so the tech stack appears space-delimited; otherwise it is exactly the topic followed by ` hackathon 2024 2025`. |
| DiscoveryTools.ProjectsForHackathonTopic | app/tools/discovery_tools.py:295-298 | The topic is the theme, followed by the requirements if given. |
| DiscoveryTools.CollectLoop | app/tools/discovery_tools.py:84-93 | The `for`/`break` loop computes the specified collection. |
| DiscoveryTools.BroaderHackathonSearch | app/tools/discovery_tools.py:131-162 | The broader pass is the specified one, searching the fixed broader query for `needed` results. |
| DiscoveryTools.FindHackathonsImpl | app/tools/discovery_tools.py:65-99 | This is the specified search. The primary call asks for `2*max_results`. A second, broader call asks for at most max_results, and it is not made after a falsy or malformed primary result. |
| DiscoveryTools.FindProjectsImpl | app/tools/discovery_tools.py:194-228 | This is the specified search, with one call for `2*max_results` results. |
| DiscoveryTools.HackathonDiscoveryTools.constructor | app/tools/discovery_tools.py:20-22 | The tool is named `hackathon_discovery`, with an empty cache that is enabled. |
| DiscoveryTools.HackathonDiscoveryTools.FindOngoingHackathons | app/tools/discovery_tools.py:38-63 | Through the cache, the answer is the hackathon search for the arguments, and the cache stays consistent. |
| DiscoveryTools.HackathonDiscoveryTools.FindRelevantGithubProjects | app/tools/discovery_tools.py:164-192 | Through the cache, the answer is the project search for the arguments. |
| DiscoveryTools.HackathonDiscoveryTools.FindHackathonsForProject | app/tools/discovery_tools.py:250-274 | This is the cached hackathon search on the project query. |
| DiscoveryTools.HackathonDiscoveryTools.FindProjectsForHackathon | app/tools/discovery_tools.py:276-300 | This is the cached project search on the theme query, with no language. |
| BaseTool.Tool.constructor | app/tools/base_tool.py:14-17 | A new tool has an empty cache that is enabled. |
| BaseTool.Tool.EnableCache | app/tools/base_tool.py:19-21 | Sets the flag and keeps the cache. |
| BaseTool.Tool.DisableCache | app/tools/base_tool.py:23-26 | Clears the flag and empties the cache. |
| BaseTool.Tool.ClearCache | app/tools/base_tool.py:28-30 | Empties the cache and keeps the flag. |
| BaseTool.Tool.CachedCall | app/tools/base_tool.py:47-71 | When disabled, it calls the function every time and never writes. On a hit it returns the stored value without calling. On a miss it calls, then stores the result under its key and leaves the other entries alone. A cache that agrees with the functions keeps agreeing. |
| BaseTool.SafeExecute | app/tools/base_tool.py:73-89 | Returns the function's result, or the empty list when it raises. |
| SessionManager.Without | app/session_manager.py:157 | Removing an id keeps exactly the other ids. |
| SessionManager.SessionManager.constructor | app/session_manager.py:28-31 | Starts with no sessions. |
| SessionManager.SessionManager.GetSession | app/session_manager.py:60-70 | Returns the record iff the id is known. |
| SessionManager.SessionManager.CreateSession | app/session_manager.py:33-58 | Stores an active record with empty history under the given or generated id, replacing any earlier one. |
| SessionManager.SessionManager.AddMessageToSession | app/session_manager.py:72-107 | An unknown id returns False and changes nothing. A known id gets exactly one message appended and its update time set, and the call returns True. |
| SessionManager.SessionManager.GetSessionHistory | app/session_manager.py:109-122 | Returns the session's history, or `[]` for an unknown id. |
| SessionManager.SessionManager.UpdateSessionStatus | app/session_manager.py:124-141 | An unknown id returns False. Otherwise only the status and the update time change. |
| SessionManager.SessionManager.EndSession | app/session_manager.py:143-159 | Succeeds iff the id is known. The id is then no longer active, and the others are untouched. |
| SessionManager.SessionManager.ListActiveSessions | app/session_manager.py:161-168 | Exactly the active ids, each once. |
| BaseWorkflow.SuccessfulSteps | app/workflows/base_workflow.py:50 | The count of successful steps never exceeds the history length. |
| BaseWorkflow.SuccessfulStepsAppend | app/workflows/base_workflow.py:37-50 | One more step raises the count by one iff it succeeded. |
| BaseWorkflow.AllSuccessful | app/workflows/base_workflow.py:50 | When every step succeeded, the count is the history length. |
| BaseWorkflow.SuccessRate | app/workflows/base_workflow.py:55 | The rate is 0 for an empty history, otherwise successful/total, and lies in [0, 1]. |
| BaseWorkflow.ExecutionTime | app/workflows/base_workflow.py:60-68 | None below two steps, otherwise the last timestamp minus the first. |
| BaseWorkflow.ExecutionSummary | app/workflows/base_workflow.py:47-58 | The total is the history length, successful ≤ total, and rate, time and history are as specified. |
| BaseWorkflow.LoggedStep | app/workflows/base_workflow.py:37-45 | The step records name, time and flag. `result` is set iff the step succeeded, and `error` iff it did not. |
| BaseWorkflow.Workflow.constructor | app/workflows/base_workflow.py:16-25 | Keeps the agents and starts with an empty history. |
| BaseWorkflow.Workflow.LogStep | app/workflows/base_workflow.py:37-45 | Appends exactly one step at the end. |
| BaseWorkflow.Workflow.GetAgentByType | app/workflows/base_workflow.py:70-75 | The loop returns the first agent of the role in list order, or None. |
| BaseAgent.FirstOfRole | app/workflows/base_workflow.py:70-75 | Some agent of the role exists iff the result is Some. The result has the role, and no agent before it does. |
| RevampWorkflow.StartLoggedIffGithub | app/workflows/revamp_workflow.py:76-83 | A run logs something. Its first entry is `workflow_start` iff a GitHub URL is given. |
| RevampWorkflow.RunEndsWithOutcome | app/workflows/revamp_workflow.py:139-145 | The last entry is `workflow_complete` when nothing raised. Otherwise it is `workflow_error` with the first exception's text. |
| RevampWorkflow.OnlyLastEntryMayFail | app/workflows/revamp_workflow.py:74-145 | Every entry but the last succeeded, and the last succeeded iff nothing raised. |
| RevampWorkflow.SuccessfulRunEnding | app/workflows/revamp_workflow.py:102-140 | A successful run with a strategy ends with `strategy_development`, then `implementation` if it ran, then `workflow_complete`. |
| RevampWorkflow.SuccessIffNoFailure | app/workflows/revamp_workflow.py:139-144 | Success holds iff no call raised, and iff there is no error. |
| RevampWorkflow.NoImplementationUnlessAsked | app/workflows/revamp_workflow.py:114 | Without implement_changes the coding agent is never called. |
| RevampWorkflow.StartTimeAccumulates | app/workflows/revamp_workflow.py:66 | `workflow_start_time` is the first timestamp of the whole history, including earlier runs. |
| RevampWorkflow.RevampWorkflow.constructor | app/workflows/revamp_workflow.py:36-38 | Keeps the agents and the coding flag, with an empty history. |
| RevampWorkflow.RevampWorkflow.AskAnalyzer | app/workflows/revamp_workflow.py:79-82 | The analyzer is asked iff one exists. |
| RevampWorkflow.RevampWorkflow.AskResearcher | app/workflows/revamp_workflow.py:86-99 | Research of the URL, else discovery by topic when a GitHub URL is also given, else nothing. |
| RevampWorkflow.RevampWorkflow.AskStrategist | app/workflows/revamp_workflow.py:102-110 | The strategy agent is asked iff one exists. |
| RevampWorkflow.RevampWorkflow.AskCoder | app/workflows/revamp_workflow.py:113-134 | The coder is asked only under all five conditions, with the call fork_repo selects. An unassigned strategy raises. |
| RevampWorkflow.RevampWorkflow.EarlySteps | app/workflows/revamp_workflow.py:75-99 | Steps 1 and 2 log their specified entries and yield their values or the first failure. |
| RevampWorkflow.RevampWorkflow.AnalysisPhase | app/workflows/revamp_workflow.py:75-83 | Step 1 logs `workflow_start` and the analysis only for a GitHub URL. |
| RevampWorkflow.RevampWorkflow.StrategyStep | app/workflows/revamp_workflow.py:101-111 | Step 3 logs the strategy if it returned. |
| RevampWorkflow.RevampWorkflow.ImplementationStep | app/workflows/revamp_workflow.py:113-137 | Step 4 logs the implementation if it returned. |
| RevampWorkflow.RevampWorkflow.LateSteps | app/workflows/revamp_workflow.py:101-137 | Steps 3 and 4 run only after no failure, and log their entries in order. |
| RevampWorkflow.RevampWorkflow.Finish | app/workflows/revamp_workflow.py:139-145 | Logs completion, or the error with success false, and reports the error text. |
| RevampWorkflow.RevampWorkflow.Execute | app/workflows/revamp_workflow.py:40-150 | The history grows by exactly the run's specified entries. The results are the specified ones, with the summary of the whole history. |
| RevampWorkflow.RevampWorkflow.ExecuteWith | app/workflows/revamp_workflow.py:40-150 | Execute with the strategy prompt as a parameter. |
| RevampWorkflow.RevampWorkflow.ExecuteStrategyOnly | app/workflows/revamp_workflow.py:152-173 | Runs Execute without implementation and returns its strategy field. The coder is never called. |
| RevampWorkflow.RevampWorkflow.ExecuteWithImplementation | app/workflows/revamp_workflow.py:175-198 | Runs Execute with implement_changes set and the given fork flag and branch. |
| RevampWorkflow.NewRevampWorkflow | app/workflows/revamp_workflow.py:18-38 | Fails iff LangWatch is not configured. The agents are analyzer, researcher and strategist, then the coder iff asked. |
| TeamsWorkflows.SpecialistTools | app/teams_workflows.py:50 | The analyzer and researcher get DuckDuckGo first, with Firecrawl iff its key is set. |
| TeamsWorkflows.StrategyPartsShape | app/teams_workflows.py:247-265 | The header comes first and the tail last. Each section is present iff its value is non-empty. |
| TeamsWorkflows.StrategyTextContains | app/teams_workflows.py:247-267 | The joined query starts with the header and contains each present section and the tail. |
| TeamsWorkflows.PostedTouchesOnlyItsSession | app/teams_workflows.py:205-296 | Messages go only to the given session, at the end of its history. The other sessions are unchanged. |
| TeamsWorkflows.MessagesFrameTheRun | app/teams_workflows.py:205-296 | The first message is the start notice and the last is "Workflow completed", even after a failure. The failure message comes just before it. |
| TeamsWorkflows.FailureNotedIffRaised | app/teams_workflows.py:284-289 | A failure message is posted iff some step raised. |
| TeamsWorkflows.StepsFollowArguments | app/teams_workflows.py:213-244 | Analysis runs iff a GitHub URL is given and research iff a hackathon URL is given, each on its fixed query. There is no discovery. |
| TeamsWorkflows.FlowSuccessIffNoFailure | app/teams_workflows.py:282-291 | Success holds iff no step raised, and iff there is no error. The strategy is kept on success, and the end time is always set. |
| TeamsWorkflows.RevampWorkflow.constructor | app/teams_workflows.py:167-173 | The three specialists have their tools and the source's texts. |
| TeamsWorkflows.RevampWorkflow.AnalysisStep | app/teams_workflows.py:213-227 | Reports and runs the analysis as specified. |
| TeamsWorkflows.RevampWorkflow.ResearchStep | app/teams_workflows.py:230-244 | Reports and runs the research as specified. |
| TeamsWorkflows.RevampWorkflow.BuildStrategyQuery | app/teams_workflows.py:247-267 | The appends and the join build the specified query. |
| TeamsWorkflows.RevampWorkflow.StrategyStep | app/teams_workflows.py:269-280 | Reports and runs the strategy as specified. |
| TeamsWorkflows.RevampWorkflow.LaterSteps | app/teams_workflows.py:229-280 | Research then strategy, with the strategy skipped after a research failure. |
| TeamsWorkflows.RevampWorkflow.Steps | app/teams_workflows.py:212-282 | The three steps up to the first failure, with their notes. |
| TeamsWorkflows.RevampWorkflow.RunWorkflow | app/teams_workflows.py:175-298 | The session gets exactly the run's specified messages, the session order is kept, and the results are the specified ones. |
| RevampTeam.AnalysisOnlyWithGithub | app/teams/revamp_team.py:76-77 | A project analysis exists only for a GitHub URL, and it is the analyzer's answer. |
| RevampTeam.ResearchSource | app/teams/revamp_team.py:80-86 | Research comes from the URL, or from topic discovery when a GitHub URL is also given. |
| RevampTeam.StrategyAlwaysAttempted | app/teams/revamp_team.py:89-94 | After the first two steps, the strategy is always asked for. Its answer or its error text is kept. |
| RevampTeam.TeamRequestDefaultOrder | app/teams/revamp_team.py:89-94 | The strategy is requested without a search order. |
| RevampTeam.TeamSuccessIffNoFailure | app/teams/revamp_team.py:96-99 | Success holds iff no step raised, and iff there is no error. |
| RevampTeam.RevampTeam.constructor | app/teams/revamp_team.py:25-46 | The team has the three agents in order and members built from them. |
| RevampTeam.RevampTeam.AnalysisStep | app/teams/revamp_team.py:76-77 | Analysis is run iff a GitHub URL is given. |
| RevampTeam.RevampTeam.ResearchStep | app/teams/revamp_team.py:80-86 | Runs the research call the arguments select. |
| RevampTeam.RevampTeam.Execute | app/teams/revamp_team.py:48-101 | The results are the specified outcome of the three steps. |
| RevampTeam.RevampTeam.AnalyzeProjectOnly | app/teams/revamp_team.py:103-105 | The analyzer's answer for the URL. |
| RevampTeam.RevampTeam.ResearchHackathonOnly | app/teams/revamp_team.py:107-109 | The researcher's answer for the URL. |
| RevampTeam.RevampTeam.CreateStrategyOnly | app/teams/revamp_team.py:111-124 | The strategy agent's answer to the default-order query. |
| RevampTeam.NewRevampTeam | app/teams/revamp_team.py:17-46 | Fails iff LangWatch is not configured, and then with the configuration error for the missing `LANGWATCH_API_KEY`. Otherwise the team carries the given instructions, and its agents are analyzer, researcher and strategist, in order. |
| BaseTeam.Members | app/teams/base_team.py:27 | One member per agent. |
| BaseTeam.MembersAt | app/teams/base_team.py:27 | The k-th member is the k-th agent's inner agent. |
| BaseTeam.MembersAppend | app/teams/base_team.py:46-48 | One more agent appends its inner agent. |
| BaseTeam.Team.constructor | app/teams/base_team.py:15-32 | The team members are the agents' inner agents, in order. |
| BaseTeam.Team.AddAgent | app/teams/base_team.py:44-52 | Appends at the end, keeps earlier agents, and rebuilds the members in list order. |
| BaseTeam.Team.GetAgentByType | app/teams/base_team.py:54-59 | The first agent of the role, or None. |
| BaseAgent.LoadPrompt | app/core/base_agent.py:62-68 | The store's prompt, or None when the lookup raises. |
| BaseAgent.InitialPrompt | app/core/base_agent.py:49 | A prompt is looked up only for a given name. |
| BaseAgent.AgentInstructions | app/core/base_agent.py:72 | The prompt's text iff there is a prompt, else the class default. |
| BaseAgent.InstructionsFallBack | app/core/base_agent.py:49-72 | Custom instructions appear iff a name is given and the store returns a prompt. |
| BaseAgent.RevampAgent.constructor | app/core/base_agent.py:40-52 | The fields are set and the agent is built from them. |
| BaseAgent.RevampAgent.Run | app/core/base_agent.py:86-89 | Returns the wrapped agent's answer. |
| BaseAgent.RevampAgent.AddTool | app/core/base_agent.py:91-95 | Appends one tool and rebuilds the agent from the full list. |
| BaseAgent.RevampAgent.UpdateInstructions | app/core/base_agent.py:97-99 | Changes only the wrapped agent's instructions. |
| BaseAgent.RevampAgent.UseModel | app/agents/coding_agent.py:23-32 | Rebuilds the agent around a custom model. |
| BaseAgent.NewRevampAgent | app/core/base_agent.py:24-52 | Fails with ConfigurationError iff the LangWatch key is missing. Otherwise the tools default to `[]`, the prompt is the one looked up, and the agent is built from them. |
| AgentFactory.GetAvailableTools | app/core/agent_factory.py:33-49 | Always DuckDuckGo, file and local file system. Firecrawl iff its key is set, GitHub iff its token is set, and nothing else. |
| AgentFactory.GetCodingModel | app/core/agent_factory.py:51-75 | Never OpenRouter. Cerebras or Mistral only when imported and keyed, else gpt-4o. |
| AgentFactory.CodingModelIsFirstUsable | app/core/agent_factory.py:59-75 | The model is the first usable candidate in the order Cerebras, Mistral, then gpt-4o. |
| AgentFactory.ToolAssignment | app/core/agent_factory.py:77-147 | Which agent gets DuckDuckGo, discovery, Firecrawl and GitHub, including each iff condition. |
| AgentFactory.CreateStrategyAgent | app/core/agent_factory.py:77-98 | Fails iff the LangWatch key is missing, and then with the configuration error naming `LANGWATCH_API_KEY`. Otherwise the result is a gpt-4o strategy agent with the `hackathon_revamp_agent` prompt and the default tools, or the given tools unchanged. |
| AgentFactory.CreateCodingAgent | app/core/agent_factory.py:100-117 | Fails iff the LangWatch key is missing, and then with the configuration error naming `LANGWATCH_API_KEY`. Otherwise the result is a coding agent with the `coding_agent` prompt, the default or given tools, and the resolved coding model. |
| AgentFactory.CreateProjectAnalyzer | app/core/agent_factory.py:119-134 | Fails iff the LangWatch key is missing, and then with the configuration error naming `LANGWATCH_API_KEY`. Otherwise the result is a gpt-4o analyzer with the analyzer tool list and no prompt name. |
| AgentFactory.CreateHackathonResearcher | app/core/agent_factory.py:136-147 | Fails iff the LangWatch key is missing, and then with the configuration error naming `LANGWATCH_API_KEY`. Otherwise the result is a gpt-4o researcher with the researcher tool list and no prompt name. |
| ConfigLoader.ConfigReadsEveryVariable | app/utils/config_loader.py:41-50 | The config has exactly the listed keys, and each holds the value of its environment variable. |
| ConfigLoader.MissingKeys | app/utils/config_loader.py:81-84 | Exactly the required keys whose value is falsy. |
| ConfigLoader.MissingKeysOfConcat | app/utils/config_loader.py:81-84 | Missing keys are listed in the given order. |
| ConfigLoader.Loader.constructor | app/utils/config_loader.py:16-18 | Starts empty and not loaded. |
| ConfigLoader.Loader.Load | app/utils/config_loader.py:20-60 | The first call reads the environment. Later calls return the same config. |
| ConfigLoader.Loader.Get | app/utils/config_loader.py:62-66 | Loads first, then returns the stored value or the default. |
| ConfigLoader.Loader.ValidateRequiredKeys | app/utils/config_loader.py:68-89 | Raises iff some required key is falsy. The message lists every missing key in order, joined with ", ". |
| ConfigLoader.Loader.HasKey | app/utils/config_loader.py:91-95 | True iff the stored value is truthy. |
| ConfigLoader.Loader.GetAvailableTools | app/utils/config_loader.py:97-109 | Six flags, each the has-key test of its key. |
| Models.GetCodingModel | app/models.py:28-63 | A provider's model only when that provider was imported and its key is truthy. |
| Models.CodingModelIsFirstUsable | app/models.py:37-63 | The model is the first usable candidate in the order Cerebras, Mistral, OpenRouter, then OpenAI. |
| Models.GetStrategyModel | app/models.py:65-68 | Always OpenAI with the primary model id. |
| Models.ChainPrefersEarlier | app/models.py:37-63 | The first usable candidate wins over every later one. |
| Models.ChainFallsBack | app/models.py:61-63 | With no usable candidate the chain ends at the fallback. |
| Models.CerebrasFirst | app/models.py:38-41 | A usable Cerebras is chosen. |
| Models.InitFailureFallsThrough | app/models.py:42-43 | A Cerebras construction failure falls through to the rest of the chain. |
| Models.EndsAtOpenAI | app/models.py:61-63 | With no keyed and imported provider, the model is OpenAI with the primary id. |

## Left out

- Language-model calls, web searches, the LangWatch prompt store and the coding helpers are oracles. Nothing is assumed about their answers.
- Agent instruction texts and the prompt templates of the agent classes (`get_default_instructions`, `analyze_project`, `research_hackathon`, `find_relevant_hackathons`, `implement_strategy`, `fork_and_implement`) are not modelled. They are structured `Query` values or instruction parameters. A built-in default is the tag `BuiltIn(role)`.
- The team-level instruction text of `RevampTeam` is a parameter, because it is prose.
- The defining module of the coding helpers (`app/coding_agent.py`) is not part of this model. Whether importing it fails is a parameter.
- `RevampTeam.RevampTeam.Execute` sends the strategy agent the planner's query through `CreateStrategyOnly`. Its contract names that query as `TeamPrompt`. `RevampWorkflow.RevampWorkflow.Execute` likewise names it `StrategyPrompt`.
- `RevampWorkflow` resolves `get_agent_by_type` once per run, as the `Crew` snapshot `CrewOf`. Agents are not added during a run, and each step method keeps the snapshot unchanged.
- `TeamsWorkflows.RevampWorkflow.RunWorkflow` uses one clock reading `now` for start, end and every message. Timestamps everywhere are abstract integers or strings, not ISO. No float arithmetic is modelled, and `success_rate` is a `real`.
- `TeamsWorkflows.RevampWorkflow` is built with `SourceTexts`, the record holding the source's fixed query texts. The lemmas about the query are stated for any record with distinct headings.
- The `RevampTeam(Team)` class and the three specialist agent classes of `app/teams_workflows.py` (lines 21-159) are not modelled separately. Only their tools are used, through `SpecialistTools`. The global instances and getters (lines 301-323, `get_session_manager`, `get_config`) are import-time singletons and are not modelled either.
- The memory manager (`app/memory_storage.py`) and Agno's `AgentSession` are left out. `add_message_to_session` ignores failures of the agent-session update, so they cannot change its result.
- `search_topic` is accepted but unused by `run_workflow`, so `FlowArgs` carries it without effect.
- `BaseTeam` stores the caller's list itself, so in Python `add_agent` also changes the caller's list. The model copies the `seq` instead, and this aliasing is not captured.
- BaseAgent.RevampAgent.AddTool: `BaseRevampAgent` keeps `tools or []`, which is the caller's own list when that list is non-empty, so in Python `add_tool` also appends to the list the caller passed to the constructor or to `NewRevampAgent`. The model holds the tools as a `seq` value, and this aliasing is not captured.
- The abstract `execute` methods of `BaseWorkflow` and `BaseTeam` and the abstract `get_tool_info` have no body to model. The concrete `HackathonDiscoveryTools.get_tool_info` returns a constant description dictionary and is not modelled.
- BaseWorkflow.ExecutionSummary: the summary returns the workflow's own history list (app/workflows/base_workflow.py:57), and app/workflows/revamp_workflow.py:148 stores that list in its results, so later executions keep appending to a summary already handed out. The model holds the history as a `seq` value, so a returned summary is a snapshot and this aliasing is not captured.
- SessionManager.SessionManager.GetSessionHistory: app/session_manager.py:121 returns the session's own history list, which later `add_message_to_session` calls (app/session_manager.py:92) keep extending. The model returns the `seq` value at the time of the call and does not capture this aliasing.
- `urlparse`: the model keeps the leading strip, the removal of tabs and newlines, the scheme, the `//` netloc and the unmatched-bracket error. Port and IPv6 host validation and NFKC checks are not modelled. `Lower` is ASCII case folding only.
- JSON decoding of search output is not modelled. The search oracle returns an already decoded falsy value, malformed text, a non-list or a list of items.
- The deadline regex of `app/tools/discovery_tools.py:110-115` is the oracle `DeadlineOf`.
- Cache keys are the pair of function name and arguments, not an md5 hash. The pair is injective, where the hash is only assumed to be.
- Warnings printed by `_safe_execute`, `_load_prompt`, the config loader and the model factories are output only, and they are dropped.
- `print`, `load_dotenv` and `langwatch.setup` are I/O. The environment they produce is the `Env` parameter.
- The LangWatch setup of `ConfigLoader.load` cannot fail the call, so only its key is read.
- `DiscoveryTools.FindHackathons`: the contract bounds the length, and the distinct-and-filtered property is the separate lemma `FindHackathonsDistinct`.
- `UrlParser.ValidateHackathonUrl`: the function's own contract states only the necessary conditions. Both directions are the lemma `HackathonUrlIff`, and the sufficient cases are also the lemmas `HackathonPlatformUrl` and `HackathonKeywordUrl`.

## Findings

| source | as written | input that shows it | evidently intended | confidence | as-written member | corrected member |
|---|---|---|---|---|---|---|
| app/utils/validation.py:118 | `re.match` is called, but `re` is never imported | `validate_implementation_inputs(branch_name="hackathon-revamp")`, the default, raises `NameError: name 're' is not defined` | the branch name is checked against `^[a-zA-Z0-9._/-]+$`, its length and its hyphens, and the errors are reported | not executed | Validation.BranchNameRaisesNameError | Validation.IntendedBranchRules |

`Validation.ValidateImplementationInputs` models the code as written, through
`Validation.ImplementationOutcome`. `Validation.ImplementationOutcomeIntended`
is the corrected validator. No other module of the model calls either, and
the two agree whenever the branch name is empty
(`Validation.IntendedAgreesWithoutBranch`).
