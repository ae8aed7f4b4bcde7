/**
 * `BaseTeam` (`app/teams/base_team.py`): a list of agents and the Agno team
 * built from their inner agents, rebuilt whenever an agent is added.
 *
 * The abstract `execute` has no body here; `RevampTeam` gives it one.
 */
module BaseTeam {
  import opened Wrappers
  import opened Runtime
  import opened BaseAgent

  /** `agno.team.Team(members=..., instructions=...)`. */
  datatype AgnoTeam = AgnoTeam(members: seq<AgnoAgent>, instructions: string)

  /** `[agent.agent for agent in agents]`. */
  function Members(agents: seq<RevampAgent>): (m: seq<AgnoAgent>)
    reads set k | 0 <= k < |agents| :: agents[k]
    ensures |m| == |agents|
  {
    if agents == [] then [] else [agents[0].agent] + Members(agents[1..])
  }

  /** The k-th member is the k-th agent's inner agent. */
  lemma {:induction false} MembersAt(agents: seq<RevampAgent>, k: nat)
    requires k < |agents|
    ensures Members(agents)[k] == agents[k].agent
  {
    if k > 0 {
      MembersAt(agents[1..], k - 1);
    }
  }

  /** One more agent adds its inner agent at the end. */
  lemma {:induction false} MembersAppend(agents: seq<RevampAgent>, agent: RevampAgent)
    ensures Members(agents + [agent]) == Members(agents) + [agent.agent]
  {
    if agents != [] {
      assert (agents + [agent])[1..] == agents[1..] + [agent];
      MembersAppend(agents[1..], agent);
    } else {
      assert agents + [agent] == [agent];
    }
  }

  class Team {
    var agents: seq<RevampAgent>
    const instructions: string
    var team: AgnoTeam

    /** The Agno team has the agents' inner agents as members, in list order. */
    ghost predicate Valid()
      reads this, set k | 0 <= k < |agents| :: agents[k]
    {
      team == AgnoTeam(Members(agents), instructions)
    }

    constructor (agents: seq<RevampAgent>, instructions: string)
      ensures this.agents == agents && this.instructions == instructions
      ensures team == AgnoTeam(Members(agents), instructions)
    {
      this.agents := agents;
      this.instructions := instructions;
      team := AgnoTeam(Members(agents), instructions);
    }

    /**
     * `add_agent`: the agent goes at the end, the others stay in order, and
     * the team is rebuilt with the same instructions.
     */
    method AddAgent(agent: RevampAgent)
      modifies this
      ensures agents == old(agents) + [agent]
      ensures team == AgnoTeam(Members(agents), instructions)
      ensures old(Valid()) ==> team.members == old(team.members) + [agent.agent]
    {
      MembersAppend(agents, agent);
      agents := agents + [agent];
      team := AgnoTeam(Members(agents), instructions);
    }

    /** `get_agent_by_type`: the first agent of the role, in list order, or None. */
    method GetAgentByType(role: AgentRole) returns (r: Option<RevampAgent>)
      ensures r == FirstOfRole(agents, role)
    {
      var i := 0;
      while i < |agents|
        invariant 0 <= i <= |agents|
        invariant FirstOfRole(agents, role) == FirstOfRole(agents[i..], role)
      {
        FirstOfRoleFrom(agents, role, i);
        if agents[i].role == role {
          return Some(agents[i]);
        }
        i := i + 1;
      }
      return None;
    }
  }
}
