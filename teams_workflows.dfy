/**
 * `RevampWorkflow.run_workflow` of `app/teams_workflows.py`: analysis of a
 * given project, research of a given hackathon, then a strategy built from
 * whatever was found, with every step reported to a session.
 *
 * The three agents are Agno agents built here directly, with instruction
 * texts given as parameters; their answers come from the oracle `Llm`. One
 * clock reading `now` serves the whole run: the start and end times and
 * every message's timestamp. The memory manager is set up but never used
 * by `run_workflow`, so it is not modelled.
 *
 * The fixed parts of the three queries are gathered in one `FlowTexts`
 * record; `SourceTexts` holds the texts of the source and is the record
 * every workflow is built with.
 */
module TeamsWorkflows {
  import opened Wrappers
  import opened Strings
  import opened Runtime
  import AgentFactory
  import SessionManager

  // ---------------------------------------------------------------------
  // The agents
  // ---------------------------------------------------------------------

  /** Analyzer and researcher tools: DuckDuckGo, and Firecrawl too when its key is set. */
  function SpecialistTools(env: Env): (tools: seq<Tool>)
    ensures |tools| > 0 && tools[0] == DuckDuckGo
    ensures Firecrawl in tools <==> EnvSet(env, AgentFactory.FirecrawlKey)
  {
    if EnvSet(env, AgentFactory.FirecrawlKey) then [DuckDuckGo, Firecrawl] else [DuckDuckGo]
  }

  /** `Agent(model=OpenAIChat(id="gpt-4o"), instructions=..., tools=..., markdown=True)`. */
  function SpecialistAgent(instructions: string, tools: seq<Tool>): AgnoAgent {
    AgnoAgent(OpenAIChat("gpt-4o"), Custom(instructions), tools, true)
  }

  // ---------------------------------------------------------------------
  // The queries
  // ---------------------------------------------------------------------

  /** The fixed parts of the queries: the URL goes between an intro and an ask. */
  datatype FlowTexts = FlowTexts(
    projectIntro: string, projectAsk: string,
    hackathonIntro: string, hackathonAsk: string,
    header: string, analysisHeading: string, researchHeading: string, contextHeading: string,
    tail: string)

  /** The texts of `run_workflow`; the closing part is a triple-quoted block indented by twelve spaces. */
  const SourceTexts := FlowTexts(
    "Analyze the GitHub repository at ",
    ". Provide detailed analysis of codebase structure, "
    + "technology stack, current features, strengths, weaknesses, and improvement opportunities.",
    "Research the hackathon at ",
    ". Extract information about themes, judging criteria, "
    + "prizes, deadlines, requirements, and sponsor interests.",
    "Develop a comprehensive revamp " + "strategy based on the analysis:",
    "PROJECT ANALYSIS:\n",
    "HACKATHON RESEARCH:\n",
    "ADDITIONAL CONTEXT:\n",
    "\n            Create a strategy that:\n"
    + "            1. Aligns the project with hackathon goals\n"
    + "            2. Identifies novel features that would impress judges\n"
    + "            3. Develops differentiation tactics\n"
    + "            4. Provides an implementation roadmap\n"
    + "            5. Suggests presentation and demo strategies\n"
    + "            ")

  function ProjectQuery(t: FlowTexts, githubUrl: string): string {
    t.projectIntro + githubUrl + t.projectAsk
  }

  function HackathonQuery(t: FlowTexts, hackathonUrl: string): string {
    t.hackathonIntro + hackathonUrl + t.hackathonAsk
  }

  /** A section when its value is truthy, else nothing. */
  function Section(heading: string, value: Option<string>): seq<string> {
    if Truthy(value) then [heading + value.value] else []
  }

  /**
   * `strategy_query_parts`: the header, the analysis, the research and the
   * context, each only when non-empty, and the closing part.
   */
  function StrategyParts(t: FlowTexts, analysis: Option<string>, research: Option<string>,
                         context: Option<string>): seq<string> {
    [t.header] + Section(t.analysisHeading, analysis) + Section(t.researchHeading, research)
    + Section(t.contextHeading, context) + [t.tail]
  }

  /** `"\n\n".join(strategy_query_parts)`. */
  function StrategyText(t: FlowTexts, analysis: Option<string>, research: Option<string>,
                        context: Option<string>): string {
    Join(StrategyParts(t, analysis, research, context), "\n\n")
  }

  /** The fixed parts of the strategy query are non-empty and start with five different characters. */
  predicate DistinctInitials(t: FlowTexts) {
    var initials := [t.header, t.analysisHeading, t.researchHeading, t.contextHeading, t.tail];
    (forall k :: 0 <= k < 5 ==> |initials[k]| > 0)
    && forall k, l :: 0 <= k < l < 5 ==> initials[k][0] != initials[l][0]
  }

  /** The source's parts start with 'D', 'P', 'H', 'A' and a newline. */
  lemma SourceInitialsDistinct()
    ensures DistinctInitials(SourceTexts)
  {
    var t := SourceTexts;
    assert t.header[0] == 'D' && t.analysisHeading[0] == 'P' && t.researchHeading[0] == 'H';
    assert t.contextHeading[0] == 'A' && t.tail[0] == '\n';
  }

  /**
   * The parts open with the header and close with the fixed tail, and a
   * part opens with a section heading exactly when that value is non-empty,
   * at its place in the order analysis, research, context.
   */
  lemma {:induction false} StrategyPartsShape(t: FlowTexts, analysis: Option<string>, research: Option<string>,
                                              context: Option<string>)
    requires DistinctInitials(t)
    ensures var parts := StrategyParts(t, analysis, research, context);
      |parts| == 2 + |Section(t.analysisHeading, analysis)| + |Section(t.researchHeading, research)|
                   + |Section(t.contextHeading, context)|
      && parts[0] == t.header && parts[|parts| - 1] == t.tail
      && ((exists k :: 0 <= k < |parts| && StartsWith(parts[k], t.analysisHeading)) <==> Truthy(analysis))
      && ((exists k :: 0 <= k < |parts| && StartsWith(parts[k], t.researchHeading)) <==> Truthy(research))
      && ((exists k :: 0 <= k < |parts| && StartsWith(parts[k], t.contextHeading)) <==> Truthy(context))
  {
    var parts := StrategyParts(t, analysis, research, context);
    var sa, sr, sc := Section(t.analysisHeading, analysis), Section(t.researchHeading, research),
      Section(t.contextHeading, context);
    assert parts == [t.header] + sa + sr + sc + [t.tail];
    var initials := [t.header, t.analysisHeading, t.researchHeading, t.contextHeading, t.tail];
    assert initials[0] == t.header && initials[1] == t.analysisHeading && initials[2] == t.researchHeading;
    assert initials[3] == t.contextHeading && initials[4] == t.tail;
    forall k | 0 <= k < |parts|
      ensures |parts[k]| > 0 && parts[k][0] == initials[if k == 0 then 0 else if k - 1 < |sa| then 1
        else if k - 1 - |sa| < |sr| then 2 else if k - 1 - |sa| - |sr| < |sc| then 3 else 4][0]
    {
      if k == 0 {
      } else if k - 1 < |sa| {
        assert parts[k] == t.analysisHeading + analysis.value;
      } else if k - 1 - |sa| < |sr| {
        assert parts[k] == t.researchHeading + research.value;
      } else if k - 1 - |sa| - |sr| < |sc| {
        assert parts[k] == t.contextHeading + context.value;
      } else {
        assert parts[k] == t.tail;
      }
    }
    if Truthy(analysis) {
      assert StartsWith(parts[1], t.analysisHeading);
    }
    if Truthy(research) {
      assert StartsWith(parts[1 + |sa|], t.researchHeading);
    }
    if Truthy(context) {
      assert StartsWith(parts[1 + |sa| + |sr|], t.contextHeading);
    }
  }

  /** The query opens with the header, holds every section that is present, and holds the tail. */
  lemma StrategyTextContains(t: FlowTexts, analysis: Option<string>, research: Option<string>, context: Option<string>)
    ensures StartsWith(StrategyText(t, analysis, research, context), t.header)
    ensures Truthy(analysis) ==> Contains(StrategyText(t, analysis, research, context), t.analysisHeading + analysis.value)
    ensures Truthy(research) ==> Contains(StrategyText(t, analysis, research, context), t.researchHeading + research.value)
    ensures Truthy(context) ==> Contains(StrategyText(t, analysis, research, context), t.contextHeading + context.value)
    ensures Contains(StrategyText(t, analysis, research, context), t.tail)
  {
    var parts := StrategyParts(t, analysis, research, context);
    var sa, sr := Section(t.analysisHeading, analysis), Section(t.researchHeading, research);
    JoinHead(parts, "\n\n");
    JoinContainsPart(parts, "\n\n", |parts| - 1);
    if Truthy(analysis) {
      JoinContainsPart(parts, "\n\n", 1);
    }
    if Truthy(research) {
      assert parts[1 + |sa|] == t.researchHeading + research.value;
      JoinContainsPart(parts, "\n\n", 1 + |sa|);
    }
    if Truthy(context) {
      assert parts[1 + |sa| + |sr|] == t.contextHeading + context.value;
      JoinContainsPart(parts, "\n\n", 1 + |sa| + |sr|);
    }
  }

  // ---------------------------------------------------------------------
  // The session messages
  // ---------------------------------------------------------------------

  /** The messages a run adds to its session, before rendering. */
  datatype Note =
    | Starting
    | AnalyzingProject(githubUrl: string)
    | ProjectAnalysis(content: string)
    | ResearchingHackathon(hackathonUrl: string)
    | HackathonResearch(content: string)
    | DevelopingStrategy
    | RevampStrategy(content: string)
    | Failed(error: string)
    | Completed

  /** The role of a message: the agents' answers are the assistant's, the rest the system's. */
  function NoteRole(n: Note): string {
    match n
    case ProjectAnalysis(_) => "assistant"
    case HackathonResearch(_) => "assistant"
    case RevampStrategy(_) => "assistant"
    case _ => "system"
  }

  function NoteText(n: Note): string {
    match n
    case Starting => "Starting revamp workflow"
    case AnalyzingProject(u) => "Analyzing project: " + u
    case ProjectAnalysis(c) => "Project Analysis:\n" + c
    case ResearchingHackathon(u) => "Researching hackathon: " + u
    case HackathonResearch(c) => "Hackathon Research:\n" + c
    case DevelopingStrategy => "Developing revamp strategy"
    case RevampStrategy(c) => "Revamp Strategy:\n" + c
    case Failed(e) => "Workflow failed with error: " + e
    case Completed => "Workflow completed"
  }

  /** The session messages of the notes, all stamped `now`. */
  function Messages(notes: seq<Note>, now: string): (m: seq<SessionManager.Message>)
    ensures |m| == |notes|
  {
    if notes == [] then []
    else Messages(notes[..|notes| - 1], now) + [SessionManager.Message(NoteRole(notes[|notes| - 1]), NoteText(notes[|notes| - 1]), now)]
  }

  lemma MessagesSnoc(notes: seq<Note>, n: Note, now: string)
    ensures Messages(notes + [n], now) == Messages(notes, now) + [SessionManager.Message(NoteRole(n), NoteText(n), now)]
  {
    assert (notes + [n])[..|notes|] == notes;
  }

  /** The k-th message renders the k-th note. */
  lemma {:induction false} MessagesAt(notes: seq<Note>, now: string, k: nat)
    requires k < |notes|
    ensures Messages(notes, now)[k] == SessionManager.Message(NoteRole(notes[k]), NoteText(notes[k]), now)
  {
    if k < |notes| - 1 {
      MessagesAt(notes[..|notes| - 1], now, k);
    }
  }

  /**
   * The sessions after `msgs` are added to the session `sessionId`: nothing
   * changes without an id, for an unknown id, or without messages.
   */
  function Posted(sessions: map<string, SessionManager.Session>, sessionId: Option<string>,
                  msgs: seq<SessionManager.Message>, now: string): map<string, SessionManager.Session> {
    if Truthy(sessionId) && sessionId.value in sessions && msgs != [] then
      var s := sessions[sessionId.value];
      sessions[sessionId.value := s.(history := s.history + msgs, updatedAt := now)]
    else sessions
  }

  /** Posting twice is posting the messages of both, in order. */
  lemma PostedTwice(sessions: map<string, SessionManager.Session>, sessionId: Option<string>,
                    m1: seq<SessionManager.Message>, m2: seq<SessionManager.Message>, now: string)
    ensures Posted(Posted(sessions, sessionId, m1, now), sessionId, m2, now) == Posted(sessions, sessionId, m1 + m2, now)
  {
    if m1 == [] {
      assert m1 + m2 == m2;
    } else if m2 == [] {
      assert m1 + m2 == m1;
    } else if Truthy(sessionId) && sessionId.value in sessions {
      var s := sessions[sessionId.value];
      assert s.history + m1 + m2 == s.history + (m1 + m2);
    }
  }

  /** Only the run's own session changes, and it only gains messages at the end. */
  lemma PostedTouchesOnlyItsSession(sessions: map<string, SessionManager.Session>, sessionId: Option<string>,
                                    msgs: seq<SessionManager.Message>, now: string)
    ensures var p := Posted(sessions, sessionId, msgs, now);
      p.Keys == sessions.Keys
      && (forall id :: id in sessions && (sessionId.None? || id != sessionId.value) ==> p[id] == sessions[id])
      && (Truthy(sessionId) && sessionId.value in sessions ==>
            p[sessionId.value].history == sessions[sessionId.value].history + msgs)
  {
  }

  // ---------------------------------------------------------------------
  // The calls a run makes, and what it reports
  // ---------------------------------------------------------------------

  /** The arguments of `run_workflow`; `search_topic` is taken but never read. */
  datatype FlowArgs = FlowArgs(githubUrl: Option<string>, hackathonUrl: Option<string>,
                               hackathonContext: Option<string>, searchTopic: Option<string>,
                               sessionId: Option<string>)

  /** The outcome of a guarded agent call: None when the call is not made. */
  type Call = Option<Attempt<string>>

  predicate Thrown(call: Call) {
    call.Some? && call.value.Threw?
  }

  function ValueOf(call: Call): Option<string> {
    if call.Some? && call.value.Returned? then Some(call.value.value) else None
  }

  /** Step 1: analysis exactly when a GitHub URL is given. */
  function FlowAnalysis(analyzer: AgnoAgent, t: FlowTexts, a: FlowArgs, llm: Llm): Call {
    if Truthy(a.githubUrl) then Some(llm(analyzer, Text(ProjectQuery(t, a.githubUrl.value)))) else None
  }

  /** Step 2: research exactly when a hackathon URL is given; there is no discovery. */
  function FlowResearch(researcher: AgnoAgent, t: FlowTexts, a: FlowArgs, llm: Llm): Call {
    if Truthy(a.hackathonUrl) then Some(llm(researcher, Text(HackathonQuery(t, a.hackathonUrl.value)))) else None
  }

  /** The three calls; the strategy is asked with what steps 1 and 2 returned. */
  datatype FlowCalls = FlowCalls(analysis: Call, research: Call, strategy: Attempt<string>)

  function FlowPlan(analyzer: AgnoAgent, researcher: AgnoAgent, developer: AgnoAgent, t: FlowTexts,
                    a: FlowArgs, llm: Llm): FlowCalls {
    var analysis := FlowAnalysis(analyzer, t, a, llm);
    var research := FlowResearch(researcher, t, a, llm);
    FlowCalls(analysis, research,
              llm(developer, Text(StrategyText(t, ValueOf(analysis), ValueOf(research), a.hackathonContext))))
  }

  /** The exception raised after step 1, if any. */
  function LaterFailure(c: FlowCalls): Option<Exception> {
    if Thrown(c.research) then Some(c.research.value.exception)
    else if c.strategy.Threw? then Some(c.strategy.exception)
    else None
  }

  /** The exception that ends the `try` block, if any: the first call, in order, that raised. */
  function FlowFailure(c: FlowCalls): Option<Exception> {
    if Thrown(c.analysis) then Some(c.analysis.value.exception) else LaterFailure(c)
  }

  function AnalysisNotes(a: FlowArgs, call: Call): seq<Note> {
    if Truthy(a.githubUrl) then
      [AnalyzingProject(a.githubUrl.value)] + (if ValueOf(call).Some? then [ProjectAnalysis(ValueOf(call).value)] else [])
    else []
  }

  function ResearchNotes(a: FlowArgs, call: Call): seq<Note> {
    if Truthy(a.hackathonUrl) then
      [ResearchingHackathon(a.hackathonUrl.value)] + (if ValueOf(call).Some? then [HackathonResearch(ValueOf(call).value)] else [])
    else []
  }

  function StrategyNotes(call: Attempt<string>): seq<Note> {
    [DevelopingStrategy] + (if call.Returned? then [RevampStrategy(call.value)] else [])
  }

  function FailureNotes(failure: Option<Exception>): seq<Note> {
    if failure.Some? then [Failed(failure.value.message)] else []
  }

  /** The notes of steps 2 and 3, up to the first failure. */
  function LaterNotes(a: FlowArgs, c: FlowCalls): seq<Note> {
    ResearchNotes(a, c.research) + (if Thrown(c.research) then [] else StrategyNotes(c.strategy))
  }

  /** The notes of the steps that ran, up to the first failure. */
  function StepNotes(a: FlowArgs, c: FlowCalls): seq<Note> {
    AnalysisNotes(a, c.analysis) + (if Thrown(c.analysis) then [] else LaterNotes(a, c))
  }

  /** Every note of a run, in order. */
  function FlowNotes(a: FlowArgs, c: FlowCalls): seq<Note> {
    [Starting] + StepNotes(a, c) + FailureNotes(FlowFailure(c)) + [Completed]
  }

  /** The dictionary `run_workflow` returns; `error` is the key that exists only on failure. */
  datatype FlowResults = FlowResults(workflowStartTime: string, projectAnalysis: Option<string>,
                                     hackathonResearch: Option<string>, strategy: Option<string>,
                                     workflowEndTime: Option<string>, success: bool, error: Option<string>)

  /** What a run reports: each answer is kept when its call was reached and returned. */
  function FlowOutcome(c: FlowCalls, now: string): FlowResults {
    var failure := FlowFailure(c);
    FlowResults(
      now,
      ValueOf(c.analysis),
      if Thrown(c.analysis) then None else ValueOf(c.research),
      if failure.Some? then None else Some(c.strategy.value),
      Some(now),
      failure.None?,
      if failure.Some? then Some(failure.value.message) else None)
  }

  // ---------------------------------------------------------------------
  // Properties of a run
  // ---------------------------------------------------------------------

  /**
   * The first message is "Starting revamp workflow" and the last "Workflow
   * completed", after a failure too; a failure is reported just before it.
   */
  lemma {:induction false} MessagesFrameTheRun(a: FlowArgs, c: FlowCalls, now: string)
    ensures var m := Messages(FlowNotes(a, c), now); (|m| >= 2
      && m[0] == SessionManager.Message("system", "Starting revamp workflow", now)
      && m[|m| - 1] == SessionManager.Message("system", "Workflow completed", now)
      && (FlowFailure(c).Some? ==>
            m[|m| - 2] == SessionManager.Message("system", "Workflow failed with error: " + FlowFailure(c).value.message, now)))
  {
    var notes := FlowNotes(a, c);
    MessagesAt(notes, now, 0);
    MessagesAt(notes, now, |notes| - 1);
    if FlowFailure(c).Some? {
      MessagesAt(notes, now, |notes| - 2);
    }
  }

  /** No note in `notes` reports a failure. */
  predicate NoFailureNote(notes: seq<Note>) {
    forall k :: 0 <= k < |notes| ==> !notes[k].Failed?
  }

  lemma NoFailureNoteConcat(x: seq<Note>, y: seq<Note>)
    requires NoFailureNote(x) && NoFailureNote(y)
    ensures NoFailureNote(x + y)
  {
    forall k | 0 <= k < |x + y|
      ensures !(x + y)[k].Failed?
    {
      if k >= |x| {
        assert (x + y)[k] == y[k - |x|];
      }
    }
  }

  /** The steps themselves never report a failure; only the `except` branch does. */
  lemma StepNotesReportNoFailure(a: FlowArgs, c: FlowCalls)
    ensures NoFailureNote(StepNotes(a, c))
  {
    var an, re, st := AnalysisNotes(a, c.analysis), ResearchNotes(a, c.research), StrategyNotes(c.strategy);
    assert NoFailureNote(an) && NoFailureNote(re) && NoFailureNote(st);
    var later := if Thrown(c.research) then [] else st;
    assert NoFailureNote(later);
    NoFailureNoteConcat(re, later);
    var rest := if Thrown(c.analysis) then [] else LaterNotes(a, c);
    assert NoFailureNote(rest);
    NoFailureNoteConcat(an, rest);
  }

  /** A failure message is posted exactly when a call raised. */
  lemma FailureNotedIffRaised(a: FlowArgs, c: FlowCalls)
    ensures var notes := FlowNotes(a, c);
      (exists k :: 0 <= k < |notes| && notes[k].Failed?) <==> FlowFailure(c).Some?
  {
    var notes := FlowNotes(a, c);
    var steps := StepNotes(a, c);
    StepNotesReportNoFailure(a, c);
    if FlowFailure(c).Some? {
      assert notes[1 + |steps|].Failed?;
    } else {
      assert notes == [Starting] + steps + [Completed];
      NoFailureNoteConcat([Starting] + steps, [Completed]);
      NoFailureNoteConcat([Starting], steps);
    }
  }

  /**
   * The analysis is asked exactly for a GitHub URL and research exactly for
   * a hackathon URL, each with its own query to its own agent.
   */
  lemma StepsFollowArguments(analyzer: AgnoAgent, researcher: AgnoAgent, developer: AgnoAgent, t: FlowTexts,
                             a: FlowArgs, llm: Llm)
    ensures var c := FlowPlan(analyzer, researcher, developer, t, a, llm);
      (c.analysis.Some? <==> Truthy(a.githubUrl)) && (c.research.Some? <==> Truthy(a.hackathonUrl))
      && (c.analysis.Some? ==> c.analysis.value == llm(analyzer, Text(ProjectQuery(t, a.githubUrl.value))))
      && (c.research.Some? ==> c.research.value == llm(researcher, Text(HackathonQuery(t, a.hackathonUrl.value))))
  {
  }

  /**
   * Success only after the strategy returned; on failure the error is the
   * exception's text; the end time is set either way.
   */
  lemma FlowSuccessIffNoFailure(c: FlowCalls, now: string)
    ensures var r := FlowOutcome(c, now);
      (r.success <==> !Thrown(c.analysis) && !Thrown(c.research) && c.strategy.Returned?)
      && (r.success <==> r.error.None?) && (r.success ==> r.strategy == Some(c.strategy.value))
      && r.workflowEndTime == Some(now)
  {
  }

  lemma AppendAssoc<T>(x: seq<T>, y: seq<T>, z: seq<T>)
    ensures (x + y) + z == x + (y + z)
  {
  }

  // ---------------------------------------------------------------------
  // The workflow
  // ---------------------------------------------------------------------

  class RevampWorkflow {
    const projectAnalyzer: AgnoAgent
    const hackathonResearcher: AgnoAgent
    const strategyDeveloper: AgnoAgent
    const sessionManager: SessionManager.SessionManager
    const texts: FlowTexts

    /** `__init__`: the three agents, and the global session manager. */
    constructor (env: Env, sessionManager: SessionManager.SessionManager,
                 analyzerInstructions: string, researcherInstructions: string, developerInstructions: string)
      ensures projectAnalyzer == SpecialistAgent(analyzerInstructions, SpecialistTools(env))
      ensures hackathonResearcher == SpecialistAgent(researcherInstructions, SpecialistTools(env))
      ensures strategyDeveloper == SpecialistAgent(developerInstructions, [])
      ensures this.sessionManager == sessionManager && texts == SourceTexts
    {
      projectAnalyzer := SpecialistAgent(analyzerInstructions, SpecialistTools(env));
      hackathonResearcher := SpecialistAgent(researcherInstructions, SpecialistTools(env));
      strategyDeveloper := SpecialistAgent(developerInstructions, []);
      this.sessionManager := sessionManager;
      texts := SourceTexts;
    }

    /** The sessions as they stand after the notes `notes` of a run begun at `s0`. */
    ghost predicate Reported(s0: map<string, SessionManager.Session>, order0: seq<string>, sessionId: Option<string>,
                             notes: seq<Note>, now: string)
      reads sessionManager
    {
      sessionManager.Valid() && sessionManager.order == order0
      && sessionManager.sessions == Posted(s0, sessionId, Messages(notes, now), now)
    }

    /** `add_message_to_session` when a session id is given; its result is ignored. */
    method Say(sessionId: Option<string>, n: Note, now: string,
               ghost s0: map<string, SessionManager.Session>, ghost order0: seq<string>, ghost notes: seq<Note>)
      requires Reported(s0, order0, sessionId, notes, now)
      modifies sessionManager
      ensures Reported(s0, order0, sessionId, notes + [n], now)
    {
      if Truthy(sessionId) {
        var _ := sessionManager.AddMessageToSession(sessionId.value, NoteRole(n), NoteText(n), now);
      }
      MessagesSnoc(notes, n, now);
      PostedTwice(s0, sessionId, Messages(notes, now), [SessionManager.Message(NoteRole(n), NoteText(n), now)], now);
    }

    /** Step 1: the analyzer's answer for the GitHub URL, reported before and after. */
    method AnalysisStep(a: FlowArgs, llm: Llm, now: string,
                        ghost s0: map<string, SessionManager.Session>, ghost order0: seq<string>, ghost notes: seq<Note>)
      returns (analysis: Option<string>, failure: Option<Exception>, ghost notes': seq<Note>)
      requires Reported(s0, order0, a.sessionId, notes, now)
      modifies sessionManager
      ensures Reported(s0, order0, a.sessionId, notes', now)
      ensures var call := FlowAnalysis(projectAnalyzer, texts, a, llm);
        notes' == notes + AnalysisNotes(a, call) && analysis == ValueOf(call)
        && failure == if Thrown(call) then Some(call.value.exception) else None
    {
      analysis, failure, notes' := None, None, notes;
      if Truthy(a.githubUrl) {
        var projectQuery := ProjectQuery(texts, a.githubUrl.value);
        Say(a.sessionId, AnalyzingProject(a.githubUrl.value), now, s0, order0, notes');
        notes' := notes' + [AnalyzingProject(a.githubUrl.value)];
        var projectAnalysis := llm(projectAnalyzer, Text(projectQuery));
        if projectAnalysis.Threw? {
          failure := Some(projectAnalysis.exception);
          assert notes' == notes + ([AnalyzingProject(a.githubUrl.value)] + []);
          return;
        }
        analysis := Some(projectAnalysis.value);
        Say(a.sessionId, ProjectAnalysis(projectAnalysis.value), now, s0, order0, notes');
        notes' := notes' + [ProjectAnalysis(projectAnalysis.value)];
      }
    }

    /** Step 2: the researcher's answer for the hackathon URL, reported before and after. */
    method ResearchStep(a: FlowArgs, llm: Llm, now: string,
                        ghost s0: map<string, SessionManager.Session>, ghost order0: seq<string>, ghost notes: seq<Note>)
      returns (research: Option<string>, failure: Option<Exception>, ghost notes': seq<Note>)
      requires Reported(s0, order0, a.sessionId, notes, now)
      modifies sessionManager
      ensures Reported(s0, order0, a.sessionId, notes', now)
      ensures var call := FlowResearch(hackathonResearcher, texts, a, llm);
        notes' == notes + ResearchNotes(a, call) && research == ValueOf(call)
        && failure == if Thrown(call) then Some(call.value.exception) else None
    {
      research, failure, notes' := None, None, notes;
      if Truthy(a.hackathonUrl) {
        var hackathonQuery := HackathonQuery(texts, a.hackathonUrl.value);
        Say(a.sessionId, ResearchingHackathon(a.hackathonUrl.value), now, s0, order0, notes');
        notes' := notes' + [ResearchingHackathon(a.hackathonUrl.value)];
        var hackathonResearch := llm(hackathonResearcher, Text(hackathonQuery));
        if hackathonResearch.Threw? {
          failure := Some(hackathonResearch.exception);
          assert notes' == notes + ([ResearchingHackathon(a.hackathonUrl.value)] + []);
          return;
        }
        research := Some(hackathonResearch.value);
        Say(a.sessionId, HackathonResearch(hackathonResearch.value), now, s0, order0, notes');
        notes' := notes' + [HackathonResearch(hackathonResearch.value)];
      }
    }

    /** `strategy_query_parts`, assembled part by part, then joined. */
    method BuildStrategyQuery(analysis: Option<string>, research: Option<string>, context: Option<string>)
      returns (query: string)
      ensures query == StrategyText(texts, analysis, research, context)
    {
      var parts := [texts.header];
      if Truthy(analysis) {
        parts := parts + [texts.analysisHeading + analysis.value];
      }
      if Truthy(research) {
        parts := parts + [texts.researchHeading + research.value];
      }
      if Truthy(context) {
        parts := parts + [texts.contextHeading + context.value];
      }
      parts := parts + [texts.tail];
      assert parts == StrategyParts(texts, analysis, research, context);
      query := Join(parts, "\n\n");
    }

    /** Step 3: the strategy developer's answer, reported before and after. */
    method StrategyStep(a: FlowArgs, analysis: Option<string>, research: Option<string>, llm: Llm, now: string,
                        ghost s0: map<string, SessionManager.Session>, ghost order0: seq<string>, ghost notes: seq<Note>)
      returns (strategy: Option<string>, failure: Option<Exception>, ghost notes': seq<Note>)
      requires Reported(s0, order0, a.sessionId, notes, now)
      modifies sessionManager
      ensures Reported(s0, order0, a.sessionId, notes', now)
      ensures var call := llm(strategyDeveloper, Text(StrategyText(texts, analysis, research, a.hackathonContext)));
        notes' == notes + StrategyNotes(call)
        && strategy == (if call.Returned? then Some(call.value) else None)
        && failure == if call.Threw? then Some(call.exception) else None
    {
      var query := BuildStrategyQuery(analysis, research, a.hackathonContext);
      Say(a.sessionId, DevelopingStrategy, now, s0, order0, notes);
      notes' := notes + [DevelopingStrategy];
      var result := llm(strategyDeveloper, Text(query));
      strategy, failure := None, None;
      if result.Threw? {
        failure := Some(result.exception);
        assert notes' == notes + ([DevelopingStrategy] + []);
        return;
      }
      strategy := Some(result.value);
      Say(a.sessionId, RevampStrategy(result.value), now, s0, order0, notes');
      notes' := notes' + [RevampStrategy(result.value)];
    }

    /** Steps 2 and 3, given what step 1 returned; step 3 is skipped when step 2 raised. */
    method LaterSteps(a: FlowArgs, analysis: Option<string>, llm: Llm, now: string,
                      ghost s0: map<string, SessionManager.Session>, ghost order0: seq<string>, ghost notes: seq<Note>,
                      ghost c: FlowCalls)
      returns (research: Option<string>, strategy: Option<string>, failure: Option<Exception>, ghost notes': seq<Note>)
      requires Reported(s0, order0, a.sessionId, notes, now)
      requires c.research == FlowResearch(hackathonResearcher, texts, a, llm)
      requires c.strategy == llm(strategyDeveloper, Text(StrategyText(texts, analysis, ValueOf(c.research), a.hackathonContext)))
      modifies sessionManager
      ensures Reported(s0, order0, a.sessionId, notes', now)
      ensures notes' == notes + LaterNotes(a, c) && failure == LaterFailure(c)
      ensures research == ValueOf(c.research) && strategy == (if failure.Some? then None else Some(c.strategy.value))
    {
      ghost var notes2: seq<Note>;
      research, failure, notes2 := ResearchStep(a, llm, now, s0, order0, notes);
      strategy := None;
      if failure.Some? {
        notes' := notes2;
        assert LaterNotes(a, c) == ResearchNotes(a, c.research) + [];
        return;
      }
      strategy, failure, notes' := StrategyStep(a, analysis, research, llm, now, s0, order0, notes2);
      AppendAssoc(notes, ResearchNotes(a, c.research), StrategyNotes(c.strategy));
    }

    /** Steps 1 to 3, stopping at the first call that raises. */
    method Steps(a: FlowArgs, llm: Llm, now: string,
                 ghost s0: map<string, SessionManager.Session>, ghost order0: seq<string>, ghost notes: seq<Note>,
                 ghost c: FlowCalls)
      returns (analysis: Option<string>, research: Option<string>, strategy: Option<string>,
               failure: Option<Exception>, ghost notes': seq<Note>)
      requires Reported(s0, order0, a.sessionId, notes, now)
      requires c == FlowPlan(projectAnalyzer, hackathonResearcher, strategyDeveloper, texts, a, llm)
      modifies sessionManager
      ensures Reported(s0, order0, a.sessionId, notes', now)
      ensures notes' == notes + StepNotes(a, c) && failure == FlowFailure(c)
      ensures analysis == ValueOf(c.analysis) && research == (if Thrown(c.analysis) then None else ValueOf(c.research))
      ensures strategy == (if failure.Some? then None else Some(c.strategy.value))
    {
      ghost var notes1: seq<Note>;
      analysis, failure, notes1 := AnalysisStep(a, llm, now, s0, order0, notes);
      research, strategy := None, None;
      if failure.Some? {
        notes' := notes1;
        assert StepNotes(a, c) == AnalysisNotes(a, c.analysis) + [];
        return;
      }
      research, strategy, failure, notes' := LaterSteps(a, analysis, llm, now, s0, order0, notes1, c);
      AppendAssoc(notes, AnalysisNotes(a, c.analysis), LaterNotes(a, c));
    }

    /**
     * `run_workflow`: the session gets exactly the run's messages, in order,
     * and the results hold what the calls returned before the first failure.
     */
    method RunWorkflow(a: FlowArgs, llm: Llm, now: string) returns (results: FlowResults)
      requires sessionManager.Valid()
      modifies sessionManager
      ensures sessionManager.Valid() && sessionManager.order == old(sessionManager.order)
      ensures var c := FlowPlan(projectAnalyzer, hackathonResearcher, strategyDeveloper, texts, a, llm);
        sessionManager.sessions == Posted(old(sessionManager.sessions), a.sessionId, Messages(FlowNotes(a, c), now), now)
        && results == FlowOutcome(c, now)
    {
      ghost var s0, order0 := sessionManager.sessions, sessionManager.order;
      ghost var c := FlowPlan(projectAnalyzer, hackathonResearcher, strategyDeveloper, texts, a, llm);
      ghost var notes: seq<Note> := [];
      assert Reported(s0, order0, a.sessionId, notes, now);
      Say(a.sessionId, Starting, now, s0, order0, notes);
      notes := [Starting];

      var analysis, research, strategy, failure;
      analysis, research, strategy, failure, notes := Steps(a, llm, now, s0, order0, notes, c);
      var error := None;
      if failure.Some? {
        error := Some(failure.value.message);
        Say(a.sessionId, Failed(failure.value.message), now, s0, order0, notes);
        notes := notes + [Failed(failure.value.message)];
      }
      assert notes == [Starting] + StepNotes(a, c) + FailureNotes(FlowFailure(c));
      results := FlowResults(now, analysis, research, strategy, Some(now), failure.None?, error);
      Say(a.sessionId, Completed, now, s0, order0, notes);
    }
  }
}
