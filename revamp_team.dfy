/**
 * `RevampTeam` (`app/teams/revamp_team.py`): the analyzer, the researcher
 * and the strategy agent as a team, and `execute`, which runs the three
 * steps in one `try` block.
 *
 * The agents answer through the oracle `Llm`; the team-level instruction
 * text is the parameter `instructions`.
 */
module RevampTeam {
  import opened Wrappers
  import opened Runtime
  import opened Planner
  import opened BaseAgent
  import AgentFactory
  import opened StrategyAgents
  import BaseTeam

  /** The arguments of `execute`. */
  datatype TeamArgs = TeamArgs(githubUrl: Option<string>, hackathonUrl: Option<string>,
                               hackathonContext: Option<string>, searchTopic: Option<string>)

  /** The outcome of a guarded agent call: None when the call is not made. */
  type Call = Option<Attempt<string>>

  predicate Thrown(call: Call) {
    call.Some? && call.value.Threw?
  }

  function ValueOf(call: Call): Option<string> {
    if call.Some? && call.value.Returned? then Some(call.value.value) else None
  }

  /** The three calls `execute` can make, each reached only if no earlier one raised. */
  datatype TeamCalls = TeamCalls(analysis: Call, research: Call, strategy: Attempt<string>)

  /** The strategy agent's request: `search_order` is not passed. */
  function TeamRequest(a: TeamArgs): Requests.Request {
    RequestWithDefaultOrder(a.githubUrl, a.hackathonUrl, a.hackathonContext, a.searchTopic)
  }

  /** Step 1: analysis only for a GitHub URL. */
  function TeamAnalysis(analyzer: AgnoAgent, a: TeamArgs, llm: Llm): Call {
    if Truthy(a.githubUrl) then Some(llm(analyzer, AnalyzeProject(a.githubUrl.value))) else None
  }

  /** Step 2: research of the hackathon URL, else discovery by topic when a GitHub URL is also given. */
  function TeamResearch(researcher: AgnoAgent, a: TeamArgs, llm: Llm): Call {
    if Truthy(a.hackathonUrl) then Some(llm(researcher, ResearchHackathon(a.hackathonUrl.value)))
    else if Truthy(a.searchTopic) && Truthy(a.githubUrl) then Some(llm(researcher, FindRelevantHackathons(a.searchTopic.value, None)))
    else None
  }

  /** The calls for the agents' inner agents; the strategy is always asked, with `prompt`. */
  function TeamPlan(analyzer: AgnoAgent, researcher: AgnoAgent, strategist: AgnoAgent,
                    a: TeamArgs, prompt: Query, llm: Llm): TeamCalls {
    TeamCalls(TeamAnalysis(analyzer, a, llm), TeamResearch(researcher, a, llm), llm(strategist, prompt))
  }

  /** The strategy agent's query: `create_revamp_strategy`'s for the team's request. */
  function TeamPrompt(a: TeamArgs): Query {
    Text(StrategyQuery(AgentIndent, TeamRequest(a)))
  }

  /** The dictionary `execute` returns; `error` is the key that exists only on failure. */
  datatype TeamResults = TeamResults(projectAnalysis: Option<string>, hackathonResearch: Option<string>,
                                     strategy: Option<string>, success: bool, error: Option<string>)

  /** The exception that ends the `try` block, if any: the first call, in order, that raised. */
  function TeamFailure(c: TeamCalls): Option<Exception> {
    if Thrown(c.analysis) then Some(c.analysis.value.exception)
    else if Thrown(c.research) then Some(c.research.value.exception)
    else if c.strategy.Threw? then Some(c.strategy.exception)
    else None
  }

  /** The results of a run: each field set by a call that returned before the first failure. */
  function TeamOutcome(c: TeamCalls): TeamResults {
    var failure := TeamFailure(c);
    TeamResults(
      ValueOf(c.analysis),
      if Thrown(c.analysis) then None else ValueOf(c.research),
      if Thrown(c.analysis) || Thrown(c.research) || c.strategy.Threw? then None else Some(c.strategy.value),
      failure.None?,
      if failure.Some? then Some(failure.value.message) else None)
  }

  // ---------------------------------------------------------------------
  // Properties of a run
  // ---------------------------------------------------------------------

  /** A project analysis is reported only for a given GitHub URL, and only the analyzer's answer for it. */
  lemma AnalysisOnlyWithGithub(analyzer: AgnoAgent, researcher: AgnoAgent, strategist: AgnoAgent,
                               a: TeamArgs, prompt: Query, llm: Llm)
    ensures var r := TeamOutcome(TeamPlan(analyzer, researcher, strategist, a, prompt, llm));
      r.projectAnalysis.Some? ==> (Truthy(a.githubUrl)
        && llm(analyzer, AnalyzeProject(a.githubUrl.value)) == Returned(r.projectAnalysis.value))
  {
  }

  /**
   * Research is reported only from the hackathon URL, or from discovery by
   * topic when both a topic and a GitHub URL are given.
   */
  lemma ResearchSource(analyzer: AgnoAgent, researcher: AgnoAgent, strategist: AgnoAgent,
                       a: TeamArgs, prompt: Query, llm: Llm)
    ensures var r := TeamOutcome(TeamPlan(analyzer, researcher, strategist, a, prompt, llm));
      r.hackathonResearch.Some? ==> (
        (Truthy(a.hackathonUrl) && llm(researcher, ResearchHackathon(a.hackathonUrl.value)) == Returned(r.hackathonResearch.value))
        || (!Truthy(a.hackathonUrl) && Truthy(a.searchTopic) && Truthy(a.githubUrl)
            && llm(researcher, FindRelevantHackathons(a.searchTopic.value, None)) == Returned(r.hackathonResearch.value)))
  {
  }

  /**
   * The strategy is attempted whatever the arguments: when the first two
   * steps raised nothing, the result holds its answer or its error.
   */
  lemma StrategyAlwaysAttempted(analyzer: AgnoAgent, researcher: AgnoAgent, strategist: AgnoAgent,
                                a: TeamArgs, prompt: Query, llm: Llm)
    ensures var c := TeamPlan(analyzer, researcher, strategist, a, prompt, llm);
      var r := TeamOutcome(c);
      !Thrown(c.analysis) && !Thrown(c.research) ==>
        (llm(strategist, prompt).Returned? ==> r.strategy == Some(llm(strategist, prompt).value))
        && (llm(strategist, prompt).Threw? ==> r.error == Some(llm(strategist, prompt).exception.message))
  {
  }

  /** The request carries the default search order, whatever the arguments. */
  lemma TeamRequestDefaultOrder(a: TeamArgs)
    ensures TeamRequest(a).searchOrder == Requests.DefaultSearchOrder
  {
  }

  /** Success is reported exactly when no call raised, and then there is no `error` key. */
  lemma TeamSuccessIffNoFailure(c: TeamCalls)
    ensures var r := TeamOutcome(c);
      (r.success <==> !Thrown(c.analysis) && !Thrown(c.research) && c.strategy.Returned?)
      && (r.success <==> r.error.None?)
  {
  }

  // ---------------------------------------------------------------------
  // The team
  // ---------------------------------------------------------------------

  class RevampTeam {
    const base: BaseTeam.Team
    const projectAnalyzer: RevampAgent
    const hackathonResearcher: RevampAgent
    const strategyAgent: RevampAgent

    constructor (projectAnalyzer: RevampAgent, hackathonResearcher: RevampAgent, strategyAgent: RevampAgent,
                 instructions: string)
      ensures this.projectAnalyzer == projectAnalyzer && this.hackathonResearcher == hackathonResearcher
      ensures this.strategyAgent == strategyAgent && fresh(base)
      ensures base.agents == [projectAnalyzer, hackathonResearcher, strategyAgent] && base.instructions == instructions
      ensures base.team == BaseTeam.AgnoTeam(BaseTeam.Members(base.agents), instructions)
    {
      this.projectAnalyzer := projectAnalyzer;
      this.hackathonResearcher := hackathonResearcher;
      this.strategyAgent := strategyAgent;
      base := new BaseTeam.Team([projectAnalyzer, hackathonResearcher, strategyAgent], instructions);
    }

    /** Step 1: `analyze_project`, only for a GitHub URL. */
    method AnalysisStep(a: TeamArgs, llm: Llm) returns (call: Call)
      ensures call == TeamAnalysis(projectAnalyzer.agent, a, llm)
    {
      call := None;
      if Truthy(a.githubUrl) {
        var analysis := AnalyzeProjectOnly(a.githubUrl.value, llm);
        call := Some(analysis);
      }
    }

    /** Step 2: research of the hackathon URL, or discovery by topic for a given project. */
    method ResearchStep(a: TeamArgs, llm: Llm) returns (call: Call)
      ensures call == TeamResearch(hackathonResearcher.agent, a, llm)
    {
      call := None;
      if Truthy(a.hackathonUrl) {
        var research := ResearchHackathonOnly(a.hackathonUrl.value, llm);
        call := Some(research);
      } else if Truthy(a.searchTopic) && Truthy(a.githubUrl) {
        var discovery := hackathonResearcher.Run(llm, FindRelevantHackathons(a.searchTopic.value, None));
        call := Some(discovery);
      }
    }

    /**
     * `execute`: the results of the three steps up to the first exception,
     * whose text becomes `error`.
     */
    method Execute(a: TeamArgs, llm: Llm) returns (results: TeamResults)
      ensures results == TeamOutcome(TeamPlan(projectAnalyzer.agent, hackathonResearcher.agent, strategyAgent.agent,
                                              a, TeamPrompt(a), llm))
    {
      results := TeamResults(None, None, None, false, None);
      var analysis := AnalysisStep(a, llm);
      if analysis.Some? {
        if analysis.value.Threw? {
          return results.(error := Some(analysis.value.exception.message));
        }
        results := results.(projectAnalysis := Some(analysis.value.value));
      }
      var research := ResearchStep(a, llm);
      if research.Some? {
        if research.value.Threw? {
          return results.(error := Some(research.value.exception.message));
        }
        results := results.(hackathonResearch := Some(research.value.value));
      }
      var strategy := CreateStrategyOnly(a.githubUrl, a.hackathonUrl, a.hackathonContext, a.searchTopic, llm);
      if strategy.Threw? {
        return results.(error := Some(strategy.exception.message));
      }
      results := results.(strategy := Some(strategy.value), success := true);
    }

    /** `analyze_project_only`: the analyzer's answer for the URL. */
    method AnalyzeProjectOnly(githubUrl: string, llm: Llm) returns (r: Attempt<string>)
      ensures r == llm(projectAnalyzer.agent, AnalyzeProject(githubUrl))
    {
      r := projectAnalyzer.Run(llm, AnalyzeProject(githubUrl));
    }

    /** `research_hackathon_only`: the researcher's answer for the URL. */
    method ResearchHackathonOnly(hackathonUrl: string, llm: Llm) returns (r: Attempt<string>)
      ensures r == llm(hackathonResearcher.agent, ResearchHackathon(hackathonUrl))
    {
      r := hackathonResearcher.Run(llm, ResearchHackathon(hackathonUrl));
    }

    /** `create_strategy_only`: `create_revamp_strategy` without a search order. */
    method CreateStrategyOnly(githubUrl: Option<string>, hackathonUrl: Option<string>,
                              hackathonContext: Option<string>, searchTopic: Option<string>, llm: Llm)
      returns (r: Attempt<string>)
      ensures r == llm(strategyAgent.agent, TeamPrompt(TeamArgs(githubUrl, hackathonUrl, hackathonContext, searchTopic)))
    {
      r := CreateRevampStrategy(strategyAgent, llm, RequestWithDefaultOrder(githubUrl, hackathonUrl, hackathonContext, searchTopic));
    }
  }

  /**
   * `RevampTeam.__init__`: the three agents from the factory, in order; a
   * factory failure propagates.
   */
  method NewRevampTeam(env: Env, store: PromptStore, instructions: string) returns (r: Result<RevampTeam, Exception>)
    ensures r.Failure? <==> !EnvSet(env, LangwatchKey)
    ensures r.Failure? ==> r.error == Exception(ConfigurationError, MissingLangwatchKey)
    ensures r.Success? ==> r.value.base.instructions == instructions
    ensures r.Success? ==> (fresh(r.value) && r.value.base.agents
      == [r.value.projectAnalyzer, r.value.hackathonResearcher, r.value.strategyAgent]
      && r.value.projectAnalyzer.role == ProjectAnalyzer
      && r.value.hackathonResearcher.role == HackathonResearcher
      && r.value.strategyAgent.role == StrategyAgent)
  {
    var analyzer := AgentFactory.CreateProjectAnalyzer(env, store);
    if analyzer.Failure? {
      return Failure(analyzer.error);
    }
    var researcher := AgentFactory.CreateHackathonResearcher(env, store);
    var strategist := AgentFactory.CreateStrategyAgent(env, store, None);
    var team := new RevampTeam(analyzer.value, researcher.value, strategist.value, instructions);
    r := Success(team);
  }
}
