/**
 * `RevampWorkflow` (`app/workflows/revamp_workflow.py`): analysis, research
 * or discovery, strategy and an optional implementation, run as one `try`
 * block that logs each completed step in the inherited history.
 *
 * The agents' calls are the oracle `Llm` applied to the structured queries
 * their subclasses send. The timestamp of the n-th entry ever logged is
 * `clock(n)`.
 */
module RevampWorkflow {
  import opened Wrappers
  import opened Runtime
  import opened Planner
  import UrlParser
  import opened BaseAgent
  import AgentFactory
  import opened StrategyAgents
  import opened BaseWorkflow

  /** The arguments of `execute`. */
  datatype ExecArgs = ExecArgs(githubUrl: Option<string>, hackathonUrl: Option<string>,
                               hackathonContext: Option<string>, searchTopic: Option<string>,
                               implementChanges: bool, forkRepo: bool, branchName: string)

  const DefaultBranch := "hackathon-revamp"
  const StartMessage := "Starting revamp workflow"
  const CompleteMessage := "Workflow completed successfully"

  /**
   * What reading `strategy` raises when no strategy agent assigned it: an
   * `UnboundLocalError`, a subclass of `NameError`, in the wording of
   * Python 3.11 and later.
   */
  const UnboundStrategy := Exception(NameError, "cannot access local variable 'strategy' where it is not associated with a value")

  /** The timestamp of the n-th entry of the history. */
  type Clock = nat -> int

  /** A `log_step` call before it is stamped. */
  datatype Entry = Entry(step: string, text: string, success: bool)

  /** The entries logged from position `start` on, stamped by the clock. */
  function Stamped(entries: seq<Entry>, start: nat, clock: Clock): (steps: seq<Step>)
    ensures |steps| == |entries|
  {
    if entries == [] then []
    else
      var n := |entries| - 1;
      Stamped(entries[..n], start, clock) + [LoggedStep(entries[n].step, entries[n].text, entries[n].success, clock(start + n))]
  }

  lemma StampedSnoc(entries: seq<Entry>, e: Entry, start: nat, clock: Clock)
    ensures Stamped(entries + [e], start, clock)
      == Stamped(entries, start, clock) + [LoggedStep(e.step, e.text, e.success, clock(start + |entries|))]
  {
    assert (entries + [e])[..|entries|] == entries;
  }

  /** The k-th stamped step is the k-th entry, at the clock reading for its position. */
  lemma {:induction false} StampedAt(entries: seq<Entry>, start: nat, clock: Clock, k: nat)
    requires k < |entries|
    ensures Stamped(entries, start, clock)[k]
      == LoggedStep(entries[k].step, entries[k].text, entries[k].success, clock(start + k))
  {
    var n := |entries| - 1;
    if k < n {
      StampedAt(entries[..n], start, clock, k);
    }
  }

  lemma AppendAssoc<T>(x: seq<T>, y: seq<T>, z: seq<T>)
    ensures (x + y) + z == x + (y + z)
  {
  }

  // ---------------------------------------------------------------------
  // The calls a run makes, and what it logs and returns
  // ---------------------------------------------------------------------

  /** The outcome of one guarded agent call: None when the call is not made. */
  type Call = Option<Attempt<string>>

  function ValueOf(call: Call): Option<string> {
    if call.Some? && call.value.Returned? then Some(call.value.value) else None
  }

  predicate Thrown(call: Call) {
    call.Some? && call.value.Threw?
  }

  /**
   * The agents `get_agent_by_type` finds for the four roles: the first of
   * each role in the workflow's list, as Agno agents.
   */
  datatype Crew = Crew(analyzer: Option<AgnoAgent>, researcher: Option<AgnoAgent>,
                       strategist: Option<AgnoAgent>, coder: Option<AgnoAgent>)

  function AgentOf(r: Option<RevampAgent>): Option<AgnoAgent>
    reads if r.Some? then {r.value} else {}
  {
    if r.Some? then Some(r.value.agent) else None
  }

  function CrewOf(agents: seq<RevampAgent>): Crew
    reads agents
  {
    Crew(AgentOf(FirstOfRole(agents, ProjectAnalyzer)), AgentOf(FirstOfRole(agents, HackathonResearcher)),
         AgentOf(FirstOfRole(agents, StrategyAgent)), AgentOf(FirstOfRole(agents, CodingAgent)))
  }

  /** Step 1: analysis only when a GitHub URL is given and an analyzer exists. */
  function AnalysisCall(crew: Crew, a: ExecArgs, llm: Llm): Call {
    if Truthy(a.githubUrl) && crew.analyzer.Some? then Some(llm(crew.analyzer.value, AnalyzeProject(a.githubUrl.value)))
    else None
  }

  /**
   * Step 2: research of the given hackathon URL; without one, discovery by
   * topic, but only when a GitHub URL is also given.
   */
  function ResearchCall(crew: Crew, a: ExecArgs, llm: Llm): Call {
    if Truthy(a.hackathonUrl) then
      if crew.researcher.Some? then Some(llm(crew.researcher.value, ResearchHackathon(a.hackathonUrl.value))) else None
    else if Truthy(a.searchTopic) && Truthy(a.githubUrl) && crew.researcher.Some? then
      Some(llm(crew.researcher.value, FindRelevantHackathons(a.searchTopic.value, None)))
    else None
  }

  /** The request the strategy agent is given: `search_order` is left at its default. */
  function StrategyRequest(a: ExecArgs): Requests.Request {
    RequestWithDefaultOrder(a.githubUrl, a.hackathonUrl, a.hackathonContext, a.searchTopic)
  }

  /** Step 3: the strategy agent's answer to `prompt`, whenever the agent exists. */
  function StrategyCall(crew: Crew, prompt: Query, llm: Llm): Call {
    if crew.strategist.Some? then Some(llm(crew.strategist.value, prompt)) else None
  }

  /** The coding agent's query; the repository is the greedy regex of line 119, so `.git` is kept. */
  function CodingQuery(forkRepo: bool, repo: string, strategy: string, branchName: string): Query {
    if forkRepo then ForkAndImplement(repo, strategy, branchName) else ImplementStrategy(repo, strategy, branchName)
  }

  /**
   * Step 4: only when changes are asked for, the coding agent was included
   * and exists, and the GitHub URL has an `owner/repo` path; reading an
   * unassigned `strategy` raises.
   */
  function ImplementationCall(crew: Crew, includeCoding: bool, a: ExecArgs, strategy: Option<string>, llm: Llm): Call {
    if a.implementChanges && includeCoding && crew.coder.Some? && Truthy(a.githubUrl) then
      var repo := UrlParser.FindRepoPath(a.githubUrl.value);
      if repo.Some? then
        if strategy.None? then Some(Threw(UnboundStrategy))
        else Some(llm(crew.coder.value, CodingQuery(a.forkRepo, repo.value, strategy.value, a.branchName)))
      else None
    else None
  }

  /** The four calls of one run, each made only if every earlier one returned. */
  datatype Calls = Calls(analysis: Call, research: Call, strategy: Call, implementation: Call)

  /** The calls of a run whose strategy agent is sent `prompt`. */
  function PlannedCalls(crew: Crew, includeCoding: bool, a: ExecArgs, prompt: Query, llm: Llm): Calls {
    var st := StrategyCall(crew, prompt, llm);
    Calls(AnalysisCall(crew, a, llm), ResearchCall(crew, a, llm), st,
          ImplementationCall(crew, includeCoding, a, ValueOf(st), llm))
  }

  /** The strategy agent's query for a run: the planner's text for the request. */
  function StrategyPrompt(a: ExecArgs): Query {
    Text(StrategyQuery(AgentIndent, StrategyRequest(a)))
  }

  /** The exception raised in steps 1 and 2, if any: analysis first. */
  function EarlyFailure(c: Calls): Option<Exception> {
    if Thrown(c.analysis) then Some(c.analysis.value.exception)
    else if Thrown(c.research) then Some(c.research.value.exception)
    else None
  }

  /** The exception raised in steps 3 and 4, if any: the strategy first. */
  function LateFailure(c: Calls): Option<Exception> {
    if Thrown(c.strategy) then Some(c.strategy.value.exception)
    else if Thrown(c.implementation) then Some(c.implementation.value.exception)
    else None
  }

  /** The exception that ends a run, if any: the first call, in order, that raised. */
  function FirstFailure(c: Calls): Option<Exception> {
    if EarlyFailure(c).Some? then EarlyFailure(c) else LateFailure(c)
  }

  /** A successful call's entry, or nothing. */
  function Logged(stepName: string, call: Call): seq<Entry> {
    if ValueOf(call).Some? then [Entry(stepName, ValueOf(call).value, true)] else []
  }

  function AnalysisEntries(a: ExecArgs, call: Call): seq<Entry> {
    if Truthy(a.githubUrl) then [Entry("workflow_start", StartMessage, true)] + Logged("project_analysis", call) else []
  }

  function ResearchStepName(a: ExecArgs): string {
    if Truthy(a.hackathonUrl) then "hackathon_research" else "hackathon_discovery"
  }

  function ErrorEntry(e: Exception): Entry {
    Entry("workflow_error", e.message, false)
  }

  /** The entries of steps 1 and 2: research is reached only if the analysis did not raise. */
  function EarlyEntries(a: ExecArgs, analysis: Call, research: Call): seq<Entry> {
    AnalysisEntries(a, analysis) + (if Thrown(analysis) then [] else Logged(ResearchStepName(a), research))
  }

  /** The entries of steps 3 and 4: implementation is reached only if the strategy did not raise. */
  function LateEntries(strategy: Call, implementation: Call): seq<Entry> {
    Logged("strategy_development", strategy) + (if Thrown(strategy) then [] else Logged("implementation", implementation))
  }

  /** The entries of the steps that ran, up to the first failure. */
  function StepEntries(a: ExecArgs, c: Calls): seq<Entry> {
    EarlyEntries(a, c.analysis, c.research) + (if EarlyFailure(c).Some? then [] else LateEntries(c.strategy, c.implementation))
  }

  /** The entry that closes a run: completion, or the first exception's text as a failure. */
  function FinalEntry(c: Calls): Entry {
    if FirstFailure(c).Some? then ErrorEntry(FirstFailure(c).value) else Entry("workflow_complete", CompleteMessage, true)
  }

  /** The entries one run appends, in order. */
  function RunEntries(a: ExecArgs, c: Calls): seq<Entry> {
    StepEntries(a, c) + [FinalEntry(c)]
  }

  /** The dictionary `execute` returns; `error` is the key that exists only on failure. */
  datatype WorkflowResults = WorkflowResults(
    workflowStartTime: Option<int>,
    projectAnalysis: Option<string>,
    hackathonResearch: Option<string>,
    strategy: Option<string>,
    implementation: Option<string>,
    success: bool,
    error: Option<string>,
    executionSummary: Summary)

  /** `workflow_start_time`: the first timestamp of the whole history, from any earlier run. */
  function StartTime(history: seq<Step>): Option<int> {
    if |history| > 0 then Some(history[0].timestamp) else None
  }

  /** The results of one run: each field set by a call that returned before the first failure. */
  function RunResults(c: Calls, start: Option<int>, summary: Summary): WorkflowResults {
    var failure := FirstFailure(c);
    WorkflowResults(
      start,
      ValueOf(c.analysis),
      if Thrown(c.analysis) then None else ValueOf(c.research),
      if Thrown(c.analysis) || Thrown(c.research) then None else ValueOf(c.strategy),
      if Thrown(c.analysis) || Thrown(c.research) || Thrown(c.strategy) then None else ValueOf(c.implementation),
      failure.None?,
      if failure.Some? then Some(failure.value.message) else None,
      summary)
  }

  // ---------------------------------------------------------------------
  // Properties of a run
  // ---------------------------------------------------------------------

  /** A run logs at least one entry; the first is `workflow_start` exactly when a GitHub URL is given. */
  lemma StartLoggedIffGithub(a: ExecArgs, c: Calls)
    ensures |RunEntries(a, c)| > 0
    ensures RunEntries(a, c)[0].step == "workflow_start" <==> Truthy(a.githubUrl)
  {
    var e1 := AnalysisEntries(a, c.analysis);
    if !Truthy(a.githubUrl) {
      assert e1 == [];
      assert ResearchStepName(a) != "workflow_start" by {
        assert "hackathon_research"[1] != "workflow_start"[1] && "hackathon_discovery"[1] != "workflow_start"[1];
      }
      assert "strategy_development"[0] != "workflow_start"[0];
      assert "implementation"[0] != "workflow_start"[0];
      assert "workflow_error"[9] != "workflow_start"[9];
      assert "workflow_complete"[9] != "workflow_start"[9];
    }
  }

  /**
   * A run ends with `workflow_complete` when no call raised, and otherwise
   * with a failed `workflow_error` entry carrying the first exception's text.
   */
  lemma RunEndsWithOutcome(a: ExecArgs, c: Calls)
    ensures var e := RunEntries(a, c); (|e| > 0
      && (FirstFailure(c).None? ==> e[|e| - 1] == Entry("workflow_complete", CompleteMessage, true))
      && (FirstFailure(c).Some? ==> e[|e| - 1] == Entry("workflow_error", FirstFailure(c).value.message, false)))
  {
  }

  /** Every entry of a run but the last is a success; the last fails exactly when a call raised. */
  lemma OnlyLastEntryMayFail(a: ExecArgs, c: Calls)
    ensures var e := RunEntries(a, c); (|e| > 0
      && (forall k :: 0 <= k < |e| - 1 ==> e[k].success)
      && (e[|e| - 1].success <==> FirstFailure(c).None?))
  {
  }

  /**
   * On success with a strategy agent the log ends with the strategy, the
   * implementation when it ran, and the completion entry.
   */
  lemma SuccessfulRunEnding(a: ExecArgs, c: Calls)
    requires FirstFailure(c).None? && c.strategy.Some?
    ensures var e := RunEntries(a, c);
      var tail := [Entry("strategy_development", c.strategy.value.value, true)]
        + Logged("implementation", c.implementation) + [Entry("workflow_complete", CompleteMessage, true)];
      |e| >= |tail| && e[|e| - |tail|..] == tail
  {
    var e1 := AnalysisEntries(a, c.analysis);
    var e2 := e1 + Logged(ResearchStepName(a), c.research);
    var tail := [Entry("strategy_development", c.strategy.value.value, true)]
      + Logged("implementation", c.implementation) + [Entry("workflow_complete", CompleteMessage, true)];
    assert RunEntries(a, c) == e2 + tail;
  }

  /** Success is reported exactly when no call raised, and then there is no `error` key. */
  lemma SuccessIffNoFailure(c: Calls, start: Option<int>, summary: Summary)
    ensures var r := RunResults(c, start, summary);
      (r.success <==> !Thrown(c.analysis) && !Thrown(c.research) && !Thrown(c.strategy) && !Thrown(c.implementation))
      && (r.success <==> r.error.None?)
  {
  }

  /** Without `implement_changes` nothing is implemented, whatever the agents. */
  lemma NoImplementationUnlessAsked(crew: Crew, includeCoding: bool, a: ExecArgs, prompt: Query, llm: Llm)
    requires !a.implementChanges
    ensures PlannedCalls(crew, includeCoding, a, prompt, llm).implementation == None
  {
  }

  /**
   * The history is never cleared: the start time a run reports is the first
   * timestamp of the history before it, so after a first run every later run
   * reports the first run's start.
   */
  lemma StartTimeAccumulates(history: seq<Step>, entries: seq<Entry>, clock: Clock)
    requires |entries| > 0
    ensures StartTime(history + Stamped(entries, |history|, clock))
      == if history == [] then Some(clock(0)) else StartTime(history)
  {
    StampedAt(entries, |history|, clock, 0);
    var all := history + Stamped(entries, |history|, clock);
    assert all[0] == if history == [] then Stamped(entries, |history|, clock)[0] else history[0];
  }

  // ---------------------------------------------------------------------
  // The workflow
  // ---------------------------------------------------------------------

  class RevampWorkflow {
    const workflow: Workflow
    const includeCoding: bool

    constructor (agents: seq<RevampAgent>, includeCoding: bool)
      ensures fresh(workflow) && workflow.agents == agents && workflow.history == [] && this.includeCoding == includeCoding
    {
      workflow := new Workflow(agents);
      this.includeCoding := includeCoding;
    }

    /** `log_step` with the clock reading for the next position. */
    method Log(e: Entry, clock: Clock, ghost h0: seq<Step>, ghost entries: seq<Entry>)
      requires workflow.history == h0 + Stamped(entries, |h0|, clock)
      modifies workflow
      ensures workflow.history == h0 + Stamped(entries + [e], |h0|, clock)
      ensures CrewOf(workflow.agents) == old(CrewOf(workflow.agents))
    {
      StampedSnoc(entries, e, |h0|, clock);
      workflow.LogStep(e.step, e.text, e.success, clock(|workflow.history|));
    }

    /** Step 1's call: `analyze_project` of the project analyzer, if there is one. */
    method AskAnalyzer(a: ExecArgs, llm: Llm) returns (response: Call)
      requires Truthy(a.githubUrl)
      ensures response == AnalysisCall(CrewOf(workflow.agents), a, llm)
    {
      response := None;
      var projectAnalyzer := workflow.GetAgentByType(ProjectAnalyzer);
      if projectAnalyzer.Some? {
        var analysis := projectAnalyzer.value.Run(llm, AnalyzeProject(a.githubUrl.value));
        response := Some(analysis);
      }
    }

    /** Step 2's call: research of the given hackathon, or discovery by topic for a given project. */
    method AskResearcher(a: ExecArgs, llm: Llm) returns (response: Call)
      ensures response == ResearchCall(CrewOf(workflow.agents), a, llm)
    {
      response := None;
      if Truthy(a.hackathonUrl) {
        var hackathonResearcher := workflow.GetAgentByType(HackathonResearcher);
        if hackathonResearcher.Some? {
          var research := hackathonResearcher.value.Run(llm, ResearchHackathon(a.hackathonUrl.value));
          response := Some(research);
        }
      } else if Truthy(a.searchTopic) && Truthy(a.githubUrl) {
        var hackathonResearcher := workflow.GetAgentByType(HackathonResearcher);
        if hackathonResearcher.Some? {
          var discovery := hackathonResearcher.value.Run(llm, FindRelevantHackathons(a.searchTopic.value, None));
          response := Some(discovery);
        }
      }
    }

    /**
     * Step 3's call: the strategy agent's answer to `prompt`, the query
     * `create_revamp_strategy` builds, if there is a strategy agent.
     */
    method AskStrategist(prompt: Query, llm: Llm) returns (response: Call)
      ensures response == StrategyCall(CrewOf(workflow.agents), prompt, llm)
    {
      response := None;
      var strategyAgent := workflow.GetAgentByType(StrategyAgent);
      if strategyAgent.Some? {
        var s := strategyAgent.value.Run(llm, prompt);
        response := Some(s);
      }
    }

    /** Step 4's call; `strategy` is None when step 3 never assigned it. */
    method AskCoder(a: ExecArgs, strategy: Option<string>, llm: Llm) returns (response: Call)
      ensures response == ImplementationCall(CrewOf(workflow.agents), includeCoding, a, strategy, llm)
    {
      response := None;
      if a.implementChanges && includeCoding {
        var codingAgent := workflow.GetAgentByType(CodingAgent);
        if codingAgent.Some? && Truthy(a.githubUrl) {
          var repoMatch := UrlParser.FindRepoPath(a.githubUrl.value);
          if repoMatch.Some? {
            if strategy.None? {
              response := Some(Threw(UnboundStrategy));
            } else if a.forkRepo {
              var done := codingAgent.value.Run(llm, ForkAndImplement(repoMatch.value, strategy.value, a.branchName));
              response := Some(done);
            } else {
              var done := codingAgent.value.Run(llm, ImplementStrategy(repoMatch.value, strategy.value, a.branchName));
              response := Some(done);
            }
          }
        }
      }
    }

    /**
     * What `execute` does with a step's outcome: a returned value is kept
     * and logged under the step's name, an exception is passed on.
     */
    method Record(stepName: string, call: Call, clock: Clock, ghost h0: seq<Step>, ghost entries: seq<Entry>)
      returns (value: Option<string>, failure: Option<Exception>, ghost entries': seq<Entry>)
      requires workflow.history == h0 + Stamped(entries, |h0|, clock)
      modifies workflow
      ensures workflow.history == h0 + Stamped(entries', |h0|, clock)
      ensures value == ValueOf(call) && (failure.Some? <==> Thrown(call))
      ensures failure.Some? ==> failure.value == call.value.exception
      ensures entries' == entries + Logged(stepName, call)
      ensures CrewOf(workflow.agents) == old(CrewOf(workflow.agents))
    {
      value, failure, entries' := None, None, entries;
      if call.Some? {
        if call.value.Threw? {
          failure := Some(call.value.exception);
        } else {
          value := Some(call.value.value);
          Log(Entry(stepName, call.value.value, true), clock, h0, entries');
          entries' := entries' + [Entry(stepName, call.value.value, true)];
        }
      }
    }

    /** Steps 1 and 2 of `execute`, up to the first exception; `plan` holds the calls a run makes. */
    method EarlySteps(a: ExecArgs, llm: Llm, clock: Clock, ghost h0: seq<Step>, ghost crew: Crew, ghost plan: Calls)
      returns (projectAnalysis: Option<string>, hackathonResearch: Option<string>, failure: Option<Exception>,
               ghost entries: seq<Entry>)
      requires workflow.history == h0 && crew == CrewOf(workflow.agents)
      requires plan.analysis == AnalysisCall(crew, a, llm) && plan.research == ResearchCall(crew, a, llm)
      modifies workflow
      ensures workflow.history == h0 + Stamped(entries, |h0|, clock) && CrewOf(workflow.agents) == crew
      ensures entries == EarlyEntries(a, plan.analysis, plan.research) && failure == EarlyFailure(plan)
      ensures projectAnalysis == ValueOf(plan.analysis)
      ensures hackathonResearch == if Thrown(plan.analysis) then None else ValueOf(plan.research)
    {
      projectAnalysis, failure, entries := AnalysisPhase(a, llm, clock, h0, crew, plan);
      hackathonResearch := None;
      if failure.None? {
        var call := AskResearcher(a, llm);
        hackathonResearch, failure, entries := Record(ResearchStepName(a), call, clock, h0, entries);
      } else {
        assert EarlyEntries(a, plan.analysis, plan.research) == AnalysisEntries(a, plan.analysis) + [];
      }
    }

    /** Step 1: the start entry and the analysis, when there is a GitHub URL. */
    method AnalysisPhase(a: ExecArgs, llm: Llm, clock: Clock, ghost h0: seq<Step>, ghost crew: Crew, ghost plan: Calls)
      returns (projectAnalysis: Option<string>, failure: Option<Exception>, ghost entries: seq<Entry>)
      requires workflow.history == h0 && crew == CrewOf(workflow.agents)
      requires plan.analysis == AnalysisCall(crew, a, llm)
      modifies workflow
      ensures workflow.history == h0 + Stamped(entries, |h0|, clock) && CrewOf(workflow.agents) == crew
      ensures entries == AnalysisEntries(a, plan.analysis) && projectAnalysis == ValueOf(plan.analysis)
      ensures failure == if Thrown(plan.analysis) then Some(plan.analysis.value.exception) else None
    {
      entries := [];
      assert workflow.history == h0 + Stamped(entries, |h0|, clock);
      var analysis: Call := None;
      if Truthy(a.githubUrl) {
        Log(Entry("workflow_start", StartMessage, true), clock, h0, entries);
        entries := entries + [Entry("workflow_start", StartMessage, true)];
        analysis := AskAnalyzer(a, llm);
      }
      projectAnalysis, failure, entries := Record("project_analysis", analysis, clock, h0, entries);
    }

    /** Step 3: the strategy agent's answer to `prompt`, recorded. */
    method StrategyStep(prompt: Query, llm: Llm, clock: Clock,
                        ghost h0: seq<Step>, ghost crew: Crew, ghost plan: Calls, ghost entries: seq<Entry>)
      returns (strategy: Option<string>, failure: Option<Exception>, ghost entries': seq<Entry>)
      requires workflow.history == h0 + Stamped(entries, |h0|, clock) && crew == CrewOf(workflow.agents)
      requires plan.strategy == StrategyCall(crew, prompt, llm)
      modifies workflow
      ensures workflow.history == h0 + Stamped(entries', |h0|, clock) && CrewOf(workflow.agents) == crew
      ensures entries' == entries + Logged("strategy_development", plan.strategy)
      ensures strategy == ValueOf(plan.strategy)
      ensures failure == if Thrown(plan.strategy) then Some(plan.strategy.value.exception) else None
    {
      var response := AskStrategist(prompt, llm);
      strategy, failure, entries' := Record("strategy_development", response, clock, h0, entries);
    }

    /** Step 4: the coding agent's work on `strategy`, recorded. */
    method ImplementationStep(a: ExecArgs, strategy: Option<string>, llm: Llm, clock: Clock,
                              ghost h0: seq<Step>, ghost crew: Crew, ghost plan: Calls, ghost entries: seq<Entry>)
      returns (implementation: Option<string>, failure: Option<Exception>, ghost entries': seq<Entry>)
      requires workflow.history == h0 + Stamped(entries, |h0|, clock) && crew == CrewOf(workflow.agents)
      requires plan.implementation == ImplementationCall(crew, includeCoding, a, strategy, llm)
      modifies workflow
      ensures workflow.history == h0 + Stamped(entries', |h0|, clock) && CrewOf(workflow.agents) == crew
      ensures entries' == entries + Logged("implementation", plan.implementation)
      ensures implementation == ValueOf(plan.implementation)
      ensures failure == if Thrown(plan.implementation) then Some(plan.implementation.value.exception) else None
    {
      var call := AskCoder(a, strategy, llm);
      implementation, failure, entries' := Record("implementation", call, clock, h0, entries);
    }

    /**
     * Steps 3 and 4 of `execute`, reached only when steps 1 and 2 raised
     * nothing (`failure` is None): the strategy, then the implementation.
     */
    method LateSteps(a: ExecArgs, prompt: Query, llm: Llm, clock: Clock, failure: Option<Exception>,
                     ghost h0: seq<Step>, ghost crew: Crew, ghost plan: Calls, ghost entries: seq<Entry>)
      returns (strategy: Option<string>, implementation: Option<string>, failure': Option<Exception>,
               ghost entries': seq<Entry>)
      requires workflow.history == h0 + Stamped(entries, |h0|, clock) && crew == CrewOf(workflow.agents)
      requires plan.strategy == StrategyCall(crew, prompt, llm)
      requires plan.implementation == ImplementationCall(crew, includeCoding, a, ValueOf(plan.strategy), llm)
      modifies workflow
      ensures workflow.history == h0 + Stamped(entries', |h0|, clock) && CrewOf(workflow.agents) == crew
      ensures entries' == entries + (if failure.Some? then [] else LateEntries(plan.strategy, plan.implementation))
      ensures failure' == if failure.Some? then failure else LateFailure(plan)
      ensures strategy == if failure.Some? then None else ValueOf(plan.strategy)
      ensures implementation == if failure.Some? || Thrown(plan.strategy) then None else ValueOf(plan.implementation)
    {
      strategy, implementation, failure', entries' := None, None, failure, entries;
      if failure.Some? {
        assert entries' == entries + [];
        return;
      }
      strategy, failure', entries' := StrategyStep(prompt, llm, clock, h0, crew, plan, entries);
      ghost var afterStrategy := entries';
      if failure'.None? {
        implementation, failure', entries' := ImplementationStep(a, strategy, llm, clock, h0, crew, plan, entries');
        AppendAssoc(entries, Logged("strategy_development", plan.strategy), Logged("implementation", plan.implementation));
      } else {
        assert entries' == entries + (Logged("strategy_development", plan.strategy) + []);
      }
    }

    /** The end of `execute`: completion is logged, or the exception's text as a failed step. */
    method Finish(failure: Option<Exception>, clock: Clock, ghost h0: seq<Step>, ghost entries: seq<Entry>)
      returns (error: Option<string>)
      requires workflow.history == h0 + Stamped(entries, |h0|, clock)
      modifies workflow
      ensures workflow.history == h0 + Stamped(entries + [if failure.Some? then ErrorEntry(failure.value)
        else Entry("workflow_complete", CompleteMessage, true)], |h0|, clock)
      ensures error == if failure.Some? then Some(failure.value.message) else None
      ensures CrewOf(workflow.agents) == old(CrewOf(workflow.agents))
    {
      error := None;
      if failure.None? {
        Log(Entry("workflow_complete", CompleteMessage, true), clock, h0, entries);
      } else {
        error := Some(failure.value.message);
        Log(ErrorEntry(failure.value), clock, h0, entries);
      }
    }

    /**
     * `execute`: the history grows by exactly this run's entries, and the
     * results hold what the calls returned before the first failure.
     */
    method Execute(a: ExecArgs, llm: Llm, clock: Clock) returns (results: WorkflowResults)
      modifies workflow
      ensures var c := PlannedCalls(CrewOf(workflow.agents), includeCoding, a, StrategyPrompt(a), llm);
        workflow.history == old(workflow.history) + Stamped(RunEntries(a, c), |old(workflow.history)|, clock)
        && results == RunResults(c, StartTime(old(workflow.history)), ExecutionSummary(workflow.history))
    {
      var prompt := StrategyPrompt(a);
      results := ExecuteWith(a, prompt, llm, clock);
    }

    /** `execute`, with the strategy agent's query of step 3 given as `prompt`. */
    method ExecuteWith(a: ExecArgs, prompt: Query, llm: Llm, clock: Clock) returns (results: WorkflowResults)
      modifies workflow
      ensures var c := PlannedCalls(CrewOf(workflow.agents), includeCoding, a, prompt, llm);
        workflow.history == old(workflow.history) + Stamped(RunEntries(a, c), |old(workflow.history)|, clock)
        && results == RunResults(c, StartTime(old(workflow.history)), ExecutionSummary(workflow.history))
    {
      ghost var h0 := workflow.history;
      ghost var crew := CrewOf(workflow.agents);
      ghost var plan := PlannedCalls(crew, includeCoding, a, prompt, llm);
      var startTime := if |workflow.history| > 0 then Some(workflow.history[0].timestamp) else None;
      var projectAnalysis, hackathonResearch, failure, entries := EarlySteps(a, llm, clock, h0, crew, plan);
      var strategy, implementation, failure', entries' := LateSteps(a, prompt, llm, clock, failure, h0, crew, plan, entries);
      var error := Finish(failure', clock, h0, entries');
      results := WorkflowResults(startTime, projectAnalysis, hackathonResearch, strategy, implementation,
                                 failure'.None?, error, ExecutionSummary(workflow.history));
    }

    /**
     * `execute_strategy_only`: a run without implementation, reporting
     * `results.get("strategy", "")`; the key always exists, so a failed or
     * missing strategy gives None rather than "".
     */
    method ExecuteStrategyOnly(githubUrl: Option<string>, hackathonUrl: Option<string>,
                               hackathonContext: Option<string>, searchTopic: Option<string>, llm: Llm, clock: Clock)
      returns (strategy: Option<string>)
      modifies workflow
      ensures var a := ExecArgs(githubUrl, hackathonUrl, hackathonContext, searchTopic, false, false, DefaultBranch);
        var c := PlannedCalls(CrewOf(workflow.agents), includeCoding, a, StrategyPrompt(a), llm);
        workflow.history == old(workflow.history) + Stamped(RunEntries(a, c), |old(workflow.history)|, clock)
        && strategy == RunResults(c, StartTime(old(workflow.history)), ExecutionSummary(workflow.history)).strategy
        && c.implementation == None
    {
      var a := ExecArgs(githubUrl, hackathonUrl, hackathonContext, searchTopic, false, false, DefaultBranch);
      var results := Execute(a, llm, clock);
      strategy := results.strategy;
    }

    /** `execute_with_implementation`: a run with `implement_changes` set; forking is the default there. */
    method ExecuteWithImplementation(githubUrl: string, hackathonUrl: Option<string>, hackathonContext: Option<string>,
                                     searchTopic: Option<string>, forkRepo: bool, branchName: string, llm: Llm, clock: Clock)
      returns (results: WorkflowResults)
      modifies workflow
      ensures var a := ExecArgs(Some(githubUrl), hackathonUrl, hackathonContext, searchTopic, true, forkRepo, branchName);
        var c := PlannedCalls(CrewOf(workflow.agents), includeCoding, a, StrategyPrompt(a), llm);
        workflow.history == old(workflow.history) + Stamped(RunEntries(a, c), |old(workflow.history)|, clock)
        && results == RunResults(c, StartTime(old(workflow.history)), ExecutionSummary(workflow.history))
    {
      results := Execute(ExecArgs(Some(githubUrl), hackathonUrl, hackathonContext, searchTopic, true, forkRepo, branchName), llm, clock);
    }
  }

  /** `execute_with_implementation`'s default for `fork_repo`. */
  const DefaultForkWithImplementation := true

  /**
   * `RevampWorkflow.__init__`: the analyzer, the researcher and the strategy
   * agent from the factory, then the coding agent when asked for; any
   * factory failure propagates.
   */
  method NewRevampWorkflow(env: Env, store: PromptStore, includeCodingAgent: bool,
                           cerebrasImported: bool, mistralImported: bool, initFails: Model -> bool)
    returns (r: Result<RevampWorkflow, Exception>)
    ensures r.Failure? <==> !EnvSet(env, LangwatchKey)
    ensures r.Success? ==> (fresh(r.value) && r.value.includeCoding == includeCodingAgent
      && r.value.workflow.history == []
      && |r.value.workflow.agents| == (if includeCodingAgent then 4 else 3)
      && r.value.workflow.agents[0].role == ProjectAnalyzer
      && r.value.workflow.agents[1].role == HackathonResearcher
      && r.value.workflow.agents[2].role == StrategyAgent
      && (includeCodingAgent ==> r.value.workflow.agents[3].role == CodingAgent))
  {
    var analyzer := AgentFactory.CreateProjectAnalyzer(env, store);
    if analyzer.Failure? {
      return Failure(analyzer.error);
    }
    var researcher := AgentFactory.CreateHackathonResearcher(env, store);
    var strategist := AgentFactory.CreateStrategyAgent(env, store, None);
    var agents := [analyzer.value, researcher.value, strategist.value];
    if includeCodingAgent {
      var coder := AgentFactory.CreateCodingAgent(env, store, cerebrasImported, mistralImported, initFails, None);
      agents := agents + [coder.value];
    }
    var w := new RevampWorkflow(agents, includeCodingAgent);
    r := Success(w);
  }
}
