/**
 * The discovery planner shared by `revamp_project` (`app/main.py`) and
 * `StrategyAgent.create_revamp_strategy` (`app/agents/strategy_agent.py`):
 * which query lines and which discovery instructions a request produces, and
 * the query text sent to the model.
 *
 * The functions here are the specification both imperative builders are
 * proved against; the lemmas state the decision table.
 */
module Planner {
  import opened Wrappers
  import opened Strings
  import opened Requests

  /** Entries of `needs_discovery`: "github_project" and "hackathon". */
  datatype Need = NeedsProject | NeedsHackathon

  /** Entries of `query_parts`; `Text` is the string appended. */
  datatype QueryPart =
    | GithubProjectLine(url: string)
    | HackathonWebsiteLine(url: string)
    | ScrapeRequest
    | ContextLine(context: string)
  {
    function Text(): string {
      match this
      case GithubProjectLine(url) => "GitHub Project: " + url
      case HackathonWebsiteLine(url) => "Hackathon Website: " + url
      case ScrapeRequest =>
        "Please scrape and analyze the hackathon website to understand: "
        + "themes, judging criteria, prizes, deadlines, requirements, and any specific focus areas."
      case ContextLine(context) => "Additional Hackathon Context: " + context
    }

    /** Position of the line's kind in the order the code appends them. */
    function Rank(): nat {
      match this
      case GithubProjectLine(_) => 0
      case HackathonWebsiteLine(_) => 1
      case ScrapeRequest => 2
      case ContextLine(_) => 3
    }
  }

  /**
   * Entries of `discovery_instructions`. `focus` is the search topic when one
   * is given; the sentence then says "Focus on..." with it, and otherwise a
   * built-in fallback.
   */
  datatype Instruction =
    | FindHackathonsFirst(focus: Option<string>)
    | ProjectsForEachHackathon
    | FindProjectsFirst(focus: Option<string>)
    | HackathonsForEachProject
    | PresentOptions
    | FindProjects(focus: Option<string>)
    | FindHackathons(focus: Option<string>)
  {
    function Text(): string {
      match this
      case FindHackathonsFirst(f) =>
        "1. First, use the find_ongoing_hackathons tool to discover relevant, ongoing hackathons. "
        + Clause(f, "Focus on: ", "Look for popular and relevant hackathons") + "."
      case ProjectsForEachHackathon =>
        "2. Then, for each discovered hackathon, use find_projects_for_hackathon to find GitHub projects "
        + "that would be a good fit for that hackathon's theme."
      case FindProjectsFirst(f) =>
        "1. First, use the find_relevant_github_projects tool to discover relevant GitHub projects. "
        + Clause(f, "Focus on topic: ", "Look for interesting open-source projects") + "."
      case HackathonsForEachProject =>
        "2. Then, for each discovered project, use find_hackathons_for_project to find hackathons "
        + "that would be a good fit for that project's topic/tech stack."
      case PresentOptions =>
        "3. Present the discovered options and select the best matches for revamp strategy."
      case FindProjects(f) =>
        "Use the find_relevant_github_projects tool to discover relevant GitHub projects. "
        + Clause(f, "Focus on topic: ", "Look for projects that align with the hackathon theme") + "."
      case FindHackathons(f) =>
        "Use the find_ongoing_hackathons tool to discover relevant, ongoing hackathons. "
        + Clause(f, "Focus on: ", "Look for hackathons that align with the project") + "."
    }
  }

  /** `('Focus on: ' + search_topic) if search_topic else '...'`. */
  function Clause(focus: Option<string>, lead: string, fallback: string): string {
    if focus.Some? then lead + focus.value else fallback
  }

  /** The topic an instruction focuses on: present exactly when `search_topic` is truthy. */
  function Focus(topic: Option<string>): Option<string> {
    if Truthy(topic) then Some(topic.value) else None
  }

  function QueryParts(req: Request): seq<QueryPart> {
    (if Truthy(req.githubUrl) then [GithubProjectLine(req.githubUrl.value)] else [])
    + (if Truthy(req.hackathonUrl) then [HackathonWebsiteLine(req.hackathonUrl.value), ScrapeRequest] else [])
    + (if Truthy(req.hackathonContext) then [ContextLine(req.hackathonContext.value)] else [])
  }

  function DiscoveryNeeds(req: Request): seq<Need> {
    (if Truthy(req.githubUrl) then [] else [NeedsProject])
    + (if Truthy(req.hackathonUrl) then [] else [NeedsHackathon])
  }

  /** The decision table over the discovery needs, the search order and the topic. */
  function DiscoveryInstructions(req: Request): seq<Instruction> {
    var needs := DiscoveryNeeds(req);
    var focus := Focus(req.searchTopic);
    if |needs| == 0 then []
    else if |needs| == 2 then
      if req.searchOrder == "hackathons_first"
      then [FindHackathonsFirst(focus), ProjectsForEachHackathon, PresentOptions]
      else [FindProjectsFirst(focus), HackathonsForEachProject, PresentOptions]
    else if NeedsProject in needs then [FindProjects(focus)]
    else [FindHackathons(focus)]
  }

  function PartTexts(parts: seq<QueryPart>): (r: seq<string>)
    ensures |r| == |parts| && forall k :: 0 <= k < |parts| ==> r[k] == parts[k].Text()
  {
    seq(|parts|, k requires 0 <= k < |parts| => parts[k].Text())
  }

  function InstructionTexts(instructions: seq<Instruction>): (r: seq<string>)
    ensures |r| == |instructions| && forall k :: 0 <= k < |instructions| ==> r[k] == instructions[k].Text()
  {
    seq(|instructions|, k requires 0 <= k < |instructions| => instructions[k].Text())
  }

  const NoUrlsPlaceholder := "No specific URLs provided - discovery mode activated."
  const QueryHeader := "Analyze the provided information and create a winning hackathon revamp strategy:"

  /** The first slot of the query: the query lines joined by newlines, or the placeholder. */
  function PartsBlock(parts: seq<QueryPart>): string {
    if |parts| > 0 then Join(PartTexts(parts), "\n") else NoUrlsPlaceholder
  }

  /** The second slot: the instructions joined by newlines, or nothing. */
  function InstructionsBlock(instructions: seq<Instruction>): string {
    if |instructions| > 0 then Join(InstructionTexts(instructions), "\n") else ""
  }

  /** One line of the triple-quoted template, with the source's indentation. */
  function Line(indent: string, s: string): string {
    indent + s + "\n"
  }

  /** The fixed lines that end the query template; `BlankLine` is an empty template line. */
  datatype FooterLine =
    | PleaseProvide
    | ProjectAnalysis
    | HackathonAnalysis
    | Positioning
    | NovelFeatures
    | RevampPlan
    | DemoAdvice
    | Differentiation
    | BlankLine
    | FocusAdvice
    | ScrapingAdvice
    | DiscoveryAdvice
  {
    function Text(): string {
      match this
      case PleaseProvide => "Please provide:"
      case ProjectAnalysis =>
        "1. Project analysis (if GitHub URL provided or discovered: structure, features, tech stack, strengths/weaknesses)"
      case HackathonAnalysis =>
        "2. Hackathon analysis (if hackathon URL provided or discovered: themes, criteria, requirements, focus areas)"
      case Positioning => "3. Strategic positioning that aligns the project with hackathon goals"
      case NovelFeatures => "4. Novel feature proposals that differentiate the project"
      case RevampPlan => "5. Comprehensive revamp plan with actionable steps"
      case DemoAdvice => "6. Demo and presentation recommendations"
      case Differentiation => "7. Differentiation tactics"
      case BlankLine => ""
      case FocusAdvice => "Focus on novelty, strategy, and research-backed enhancements."
      case ScrapingAdvice =>
        "Use web scraping tools (Firecrawl) to gather detailed information from hackathon websites when URLs are provided."
      case DiscoveryAdvice =>
        "Use discovery tools (find_ongoing_hackathons, find_relevant_github_projects, etc.) when URLs are not provided."
    }
  }

  const FooterLines: seq<FooterLine> := [
    PleaseProvide, ProjectAnalysis, HackathonAnalysis, Positioning, NovelFeatures, RevampPlan,
    DemoAdvice, Differentiation, BlankLine, FocusAdvice, ScrapingAdvice, DiscoveryAdvice]

  /**
   * Template lines with the indentation of the source file; a blank template
   * line keeps that indentation too, since the f-string's lines are not dedented.
   */
  function RenderLines(indent: string, lines: seq<FooterLine>): string {
    if lines == [] then ""
    else Line(indent, lines[0].Text()) + RenderLines(indent, lines[1..])
  }

  /** The fixed request list that ends the query. */
  function QueryFooter(indent: string): string {
    RenderLines(indent, FooterLines)
  }

  /**
   * The f-string `query`: every template line, blank ones included, keeps the
   * indentation of the source file (`indent`), and the two slots are inserted
   * as they are.
   */
  function QueryText(indent: string, partsBlock: string, instructionsBlock: string): string {
    QueryOpening(indent) + partsBlock + QueryMiddle(indent) + instructionsBlock + QueryClosing(indent)
  }

  /** The template up to the first slot. */
  function QueryOpening(indent: string): string {
    "\n" + Line(indent, QueryHeader) + Line(indent, "") + indent
  }

  /** The template between the two slots. */
  function QueryMiddle(indent: string): string {
    "\n" + Line(indent, "") + indent
  }

  /** The template after the second slot. */
  function QueryClosing(indent: string): string {
    "\n" + Line(indent, "") + QueryFooter(indent) + indent
  }

  /** The query a request produces. */
  function StrategyQuery(indent: string, req: Request): string {
    QueryText(indent, PartsBlock(QueryParts(req)), InstructionsBlock(DiscoveryInstructions(req)))
  }

  /** A query assembled from the two blocks of a request is that request's query. */
  lemma QueryOfBlocks(indent: string, req: Request, partsBlock: string, instructionsBlock: string)
    requires partsBlock == PartsBlock(QueryParts(req))
    requires instructionsBlock == InstructionsBlock(DiscoveryInstructions(req))
    ensures QueryText(indent, partsBlock, instructionsBlock) == StrategyQuery(indent, req)
  {
  }

  /** `app/main.py` indents the template by four spaces, `app/agents/strategy_agent.py` by eight. */
  const MainIndent := "    "
  const AgentIndent := "        "

  // ---- The decision table ----

  /** A missing GitHub URL is a need, then a missing hackathon URL, in that order. */
  lemma NeedsInOrder(req: Request)
    ensures NeedsProject in DiscoveryNeeds(req) <==> !Truthy(req.githubUrl)
    ensures NeedsHackathon in DiscoveryNeeds(req) <==> !Truthy(req.hackathonUrl)
    ensures |DiscoveryNeeds(req)| == 2 ==> DiscoveryNeeds(req) == [NeedsProject, NeedsHackathon]
  {
  }

  /** With both URLs there is nothing to discover. */
  lemma BothGivenNoInstructions(req: Request)
    ensures DiscoveryInstructions(req) == [] <==> Truthy(req.githubUrl) && Truthy(req.hackathonUrl)
  {
  }

  /** Both URLs missing and hackathons first: three steps starting from the hackathon search. */
  lemma HackathonsFirstPlan(req: Request)
    requires !Truthy(req.githubUrl) && !Truthy(req.hackathonUrl) && req.searchOrder == "hackathons_first"
    ensures DiscoveryInstructions(req) ==
      [FindHackathonsFirst(Focus(req.searchTopic)), ProjectsForEachHackathon, PresentOptions]
  {
    assert |DiscoveryNeeds(req)| == 2;
  }

  /**
   * Both URLs missing and any other search order, unrecognised ones and the
   * default included: three steps starting from the project search.
   */
  lemma ProjectsFirstPlan(req: Request)
    requires !Truthy(req.githubUrl) && !Truthy(req.hackathonUrl) && req.searchOrder != "hackathons_first"
    ensures DiscoveryInstructions(req) ==
      [FindProjectsFirst(Focus(req.searchTopic)), HackathonsForEachProject, PresentOptions]
  {
    assert |DiscoveryNeeds(req)| == 2;
  }

  /** Exactly one URL missing: one instruction, for the missing side. */
  lemma OneMissingPlan(req: Request)
    requires Truthy(req.githubUrl) != Truthy(req.hackathonUrl)
    ensures DiscoveryInstructions(req) ==
      if Truthy(req.githubUrl) then [FindHackathons(Focus(req.searchTopic))]
      else [FindProjects(Focus(req.searchTopic))]
  {
    if Truthy(req.githubUrl) {
      assert DiscoveryNeeds(req) == [NeedsHackathon];
    } else {
      assert DiscoveryNeeds(req) == [NeedsProject];
    }
  }

  /** Every plan has zero, one or three steps; a three-step plan ends by presenting the options. */
  lemma PlanShape(req: Request)
    ensures var p := DiscoveryInstructions(req);
      |p| == (if Truthy(req.githubUrl) && Truthy(req.hackathonUrl) then 0
              else if !Truthy(req.githubUrl) && !Truthy(req.hackathonUrl) then 3
              else 1)
      && (|p| == 3 ==> p[2] == PresentOptions)
  {
    if !Truthy(req.githubUrl) && !Truthy(req.hackathonUrl) {
      assert |DiscoveryNeeds(req)| == 2;
    } else if Truthy(req.githubUrl) != Truthy(req.hackathonUrl) {
      OneMissingPlan(req);
    }
  }

  /**
   * The first instruction focuses on the search topic exactly when one is
   * given, and then its text says so with the topic.
   */
  lemma FocusIffTopic(req: Request)
    requires DiscoveryInstructions(req) != []
    ensures DiscoveryInstructions(req)[0].focus.Some? <==> Truthy(req.searchTopic)
    ensures Truthy(req.searchTopic) ==> DiscoveryInstructions(req)[0].focus.value == req.searchTopic.value
  {
    PlanShape(req);
  }

  /** A focused sentence mentions its topic after the focus label. */
  lemma FocusedTextMentionsTopic(i: Instruction)
    requires (i.FindHackathonsFirst? || i.FindHackathons?) && i.focus.Some?
    ensures Contains(i.Text(), "Focus on: " + i.focus.value)
  {
    match i
    case FindHackathonsFirst(f) =>
      ContainsConcat("1. First, use the find_ongoing_hackathons tool to discover relevant, ongoing hackathons. ",
                     Clause(f, "Focus on: ", "Look for popular and relevant hackathons"), ".");
    case FindHackathons(f) =>
      ContainsConcat("Use the find_ongoing_hackathons tool to discover relevant, ongoing hackathons. ",
                     Clause(f, "Focus on: ", "Look for hackathons that align with the project"), ".");
  }

  /** The same for the project searches, whose label reads "Focus on topic: ". */
  lemma FocusedProjectTextMentionsTopic(i: Instruction)
    requires (i.FindProjectsFirst? || i.FindProjects?) && i.focus.Some?
    ensures Contains(i.Text(), "Focus on topic: " + i.focus.value)
  {
    match i
    case FindProjectsFirst(f) =>
      ContainsConcat("1. First, use the find_relevant_github_projects tool to discover relevant GitHub projects. ",
                     Clause(f, "Focus on topic: ", "Look for interesting open-source projects"), ".");
    case FindProjects(f) =>
      ContainsConcat("Use the find_relevant_github_projects tool to discover relevant GitHub projects. ",
                     Clause(f, "Focus on topic: ", "Look for projects that align with the hackathon theme"), ".");
  }

  // ---- Query lines ----

  /**
   * Query lines come in the order GitHub line, hackathon line, scrape request,
   * context line, and each is present exactly when its input is given.
   */
  lemma QueryPartsInOrder(req: Request)
    ensures forall i, j :: 0 <= i < j < |QueryParts(req)| ==> QueryParts(req)[i].Rank() < QueryParts(req)[j].Rank()
    ensures (exists k :: 0 <= k < |QueryParts(req)| && QueryParts(req)[k].GithubProjectLine?) <==> Truthy(req.githubUrl)
    ensures ScrapeRequest in QueryParts(req) <==> Truthy(req.hackathonUrl)
    ensures (exists k :: 0 <= k < |QueryParts(req)| && QueryParts(req)[k].ContextLine?) <==> Truthy(req.hackathonContext)
  {
    var g := if Truthy(req.githubUrl) then [GithubProjectLine(req.githubUrl.value)] else [];
    var h := if Truthy(req.hackathonUrl) then [HackathonWebsiteLine(req.hackathonUrl.value), ScrapeRequest] else [];
    var c := if Truthy(req.hackathonContext) then [ContextLine(req.hackathonContext.value)] else [];
    var p := QueryParts(req);
    assert p == g + h + c;
    forall k | 0 <= k < |p|
      ensures p[k].Rank() == (if k < |g| then 0 else if k < |g| + |h| then 1 + (k - |g|) else 3)
    {
      if k < |g| {
        assert p[k] == g[k];
      } else if k < |g| + |h| {
        assert p[k] == h[k - |g|];
      } else {
        assert p[k] == c[k - |g| - |h|];
      }
    }
    if Truthy(req.githubUrl) {
      assert p[0].GithubProjectLine?;
    }
    if Truthy(req.hackathonUrl) {
      assert p[|g| + 1] == ScrapeRequest;
    }
    if Truthy(req.hackathonContext) {
      assert p[|g| + |h|].ContextLine?;
    }
  }

  // ---- The query text ----

  /** Whatever either slot contains, the query contains. */
  lemma QueryTextContains(indent: string, a: string, b: string, t: string)
    requires Contains(a, t) || Contains(b, t)
    ensures Contains(QueryText(indent, a, b), t)
  {
    var o := QueryOpening(indent);
    var m := QueryMiddle(indent);
    if Contains(a, t) {
      ContainsPrepend(o, a, t);
      ContainsAppend(o + a, t, m);
      ContainsAppend(o + a + m, t, b);
    } else {
      ContainsPrepend(o + a + m, b, t);
    }
    ContainsAppend(o + a + m + b, t, QueryClosing(indent));
  }

  /**
   * Any query opens with the header line and then a blank line that still
   * carries the indentation, before the first slot; the closing part repeats
   * that indented blank line before the request list and ends on the
   * indentation of the closing quotes.
   */
  lemma QueryFrame(indent: string, partsBlock: string, instructionsBlock: string)
    ensures StartsWith(QueryText(indent, partsBlock, instructionsBlock),
                       "\n" + indent + QueryHeader + "\n" + indent + "\n" + indent)
    ensures EndsWith(QueryText(indent, partsBlock, instructionsBlock),
                     "\n" + indent + "\n" + QueryFooter(indent) + indent)
  {
    OpeningText(indent);
    ClosingText(indent);
    Framed(QueryOpening(indent), partsBlock + QueryMiddle(indent) + instructionsBlock, QueryClosing(indent));
  }

  lemma OpeningText(indent: string)
    ensures QueryOpening(indent) == "\n" + indent + QueryHeader + "\n" + indent + "\n" + indent
  {
  }

  lemma ClosingText(indent: string)
    ensures QueryClosing(indent) == "\n" + indent + "\n" + QueryFooter(indent) + indent
  {
  }

  /** A concatenation starts with its first part and ends with its last. */
  lemma Framed(o: string, inner: string, c: string)
    ensures StartsWith(o + inner + c, o) && EndsWith(o + inner + c, c)
  {
    assert (o + inner + c)[..|o|] == o;
    assert (o + inner + c)[|o + inner|..] == c;
  }

  /** With no query lines, the query says that discovery mode is on. */
  lemma QueryAnnouncesDiscoveryMode(indent: string, req: Request)
    requires QueryParts(req) == []
    ensures Contains(StrategyQuery(indent, req), NoUrlsPlaceholder)
  {
    ContainsSuffix("", NoUrlsPlaceholder);
    assert "" + NoUrlsPlaceholder == PartsBlock(QueryParts(req));
    QueryTextContains(indent, PartsBlock(QueryParts(req)), InstructionsBlock(DiscoveryInstructions(req)), NoUrlsPlaceholder);
  }

  /** Every query line appears in the query. */
  lemma QueryMentionsPart(indent: string, req: Request, k: nat)
    requires k < |QueryParts(req)|
    ensures Contains(StrategyQuery(indent, req), QueryParts(req)[k].Text())
  {
    var parts := QueryParts(req);
    JoinContainsPart(PartTexts(parts), "\n", k);
    QueryTextContains(indent, PartsBlock(parts), InstructionsBlock(DiscoveryInstructions(req)), parts[k].Text());
  }

  /** Every discovery instruction appears in the query. */
  lemma QueryMentionsInstruction(indent: string, req: Request, k: nat)
    requires k < |DiscoveryInstructions(req)|
    ensures Contains(StrategyQuery(indent, req), DiscoveryInstructions(req)[k].Text())
  {
    var instructions := DiscoveryInstructions(req);
    JoinContainsPart(InstructionTexts(instructions), "\n", k);
    QueryTextContains(indent, PartsBlock(QueryParts(req)), InstructionsBlock(instructions), instructions[k].Text());
  }
}
