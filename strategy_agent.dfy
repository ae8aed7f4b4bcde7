/**
 * `StrategyAgent.create_revamp_strategy` (`app/agents/strategy_agent.py`):
 * the second copy of the discovery planner, run through the agent's own
 * `run`. Its template is indented by eight spaces, and the closing
 * "Present the discovered options" step is appended once after either
 * ordering branch rather than inside each.
 */
module StrategyAgents {
  import opened Wrappers
  import opened Strings
  import opened Requests
  import opened Runtime
  import opened Planner
  import opened BaseAgent

  /** The request a caller builds when it omits `search_order`. */
  function RequestWithDefaultOrder(githubUrl: Option<string>, hackathonUrl: Option<string>,
                                   hackathonContext: Option<string>, searchTopic: Option<string>): (req: Request)
    ensures req.searchOrder == DefaultSearchOrder
  {
    Request(githubUrl, hackathonUrl, hackathonContext, searchTopic, DefaultSearchOrder)
  }

  /** `create_revamp_strategy`: exactly the agent's answer to the query the planner specifies. */
  method CreateRevampStrategy(self: RevampAgent, llm: Llm, req: Request) returns (response: Attempt<string>)
    ensures response == llm(self.agent, Text(StrategyQuery(AgentIndent, req)))
  {
    var queryParts: seq<QueryPart> := [];
    var needsDiscovery: seq<Need> := [];

    if Truthy(req.githubUrl) {
      queryParts := queryParts + [GithubProjectLine(req.githubUrl.value)];
    } else {
      needsDiscovery := needsDiscovery + [NeedsProject];
    }
    if Truthy(req.hackathonUrl) {
      queryParts := queryParts + [HackathonWebsiteLine(req.hackathonUrl.value)];
      queryParts := queryParts + [ScrapeRequest];
    } else {
      needsDiscovery := needsDiscovery + [NeedsHackathon];
    }
    if Truthy(req.hackathonContext) {
      queryParts := queryParts + [ContextLine(req.hackathonContext.value)];
    }
    assert queryParts == QueryParts(req);
    assert needsDiscovery == DiscoveryNeeds(req);

    var instructions: seq<Instruction> := [];
    var focus := Focus(req.searchTopic);
    if |needsDiscovery| > 0 {
      if |needsDiscovery| == 2 {
        if req.searchOrder == "hackathons_first" {
          instructions := instructions + [FindHackathonsFirst(focus)];
          instructions := instructions + [ProjectsForEachHackathon];
        } else {
          instructions := instructions + [FindProjectsFirst(focus)];
          instructions := instructions + [HackathonsForEachProject];
        }
        instructions := instructions + [PresentOptions];
      } else if NeedsProject in needsDiscovery {
        instructions := instructions + [FindProjects(focus)];
      } else if NeedsHackathon in needsDiscovery {
        instructions := instructions + [FindHackathons(focus)];
      }
    }
    assert instructions == DiscoveryInstructions(req);

    var partsBlock := if |queryParts| > 0 then Join(PartTexts(queryParts), "\n") else NoUrlsPlaceholder;
    var instructionsBlock := if |instructions| > 0 then Join(InstructionTexts(instructions), "\n") else "";
    assert partsBlock == PartsBlock(QueryParts(req));
    assert instructionsBlock == InstructionsBlock(DiscoveryInstructions(req));
    QueryOfBlocks(AgentIndent, req, partsBlock, instructionsBlock);
    var query := QueryText(AgentIndent, partsBlock, instructionsBlock);
    response := self.Run(llm, Text(query));
  }

  /**
   * Callers that omit `search_order` get projects-first discovery when both
   * URLs are missing.
   */
  lemma DefaultOrderIsProjectsFirst(githubUrl: Option<string>, hackathonUrl: Option<string>,
                                    hackathonContext: Option<string>, searchTopic: Option<string>)
    requires !Truthy(githubUrl) && !Truthy(hackathonUrl)
    ensures var req := RequestWithDefaultOrder(githubUrl, hackathonUrl, hackathonContext, searchTopic);
      DiscoveryInstructions(req) == [FindProjectsFirst(Focus(searchTopic)), HackathonsForEachProject, PresentOptions]
  {
    var req := RequestWithDefaultOrder(githubUrl, hackathonUrl, hackathonContext, searchTopic);
    assert req.searchOrder != "hackathons_first" by {
      assert req.searchOrder[0] == 'p';
    }
    ProjectsFirstPlan(req);
  }
}
