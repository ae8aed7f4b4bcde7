/**
 * The outside world the application talks to, reduced to values: tool and
 * model identities, the Agno agent a `BaseRevampAgent` wraps, the queries
 * sent to a language model, and the process environment.
 *
 * A language-model call is an oracle `Llm`: for an agent and a query it
 * returns some text or raises. Nothing about the text is assumed.
 */
module Runtime {
  import opened Wrappers

  /** The tool kits handed to agents. */
  datatype Tool =
    | DuckDuckGo
    | FileTools
    | LocalFileSystem
    | Firecrawl
    | Github
    | HackathonDiscovery

  /** A chat model and the model id it was created with. */
  datatype Model =
    | OpenAIChat(id: string)
    | Cerebras(id: string)
    | MistralChat(id: string)
    | OpenRouter(id: string)

  /** The `BaseRevampAgent` subclasses; `isinstance` tests are tests of this tag. */
  datatype AgentRole = ProjectAnalyzer | HackathonResearcher | StrategyAgent | CodingAgent

  /** A prompt object from the LangWatch prompt store; `prompt.prompt` is its text. */
  datatype Prompt = Prompt(text: string)

  /**
   * The instructions an agent is built with: a given text (a loaded prompt's,
   * or one set later), or the built-in default of the agent's class
   * (`get_default_instructions`).
   */
  datatype Instructions = Custom(text: string) | BuiltIn(role: AgentRole)

  /** `agno.agent.Agent(model=..., instructions=..., tools=..., markdown=True)`. */
  datatype AgnoAgent = AgnoAgent(model: Model, instructions: Instructions, tools: seq<Tool>, markdown: bool)

  /**
   * What is sent to a model. `Text` is a query the modelled code assembles
   * itself; the others stand for the prompt templates of the agent classes
   * (`analyze_project`, `research_hackathon`, `find_relevant_hackathons`,
   * `implement_strategy`, `fork_and_implement`) with their arguments.
   */
  datatype Query =
    | Text(text: string)
    | AnalyzeProject(githubUrl: string)
    | ResearchHackathon(hackathonUrl: string)
    | FindRelevantHackathons(projectTopic: string, techStack: Option<string>)
    | ImplementStrategy(repoName: string, strategy: string, branchName: string)
    | ForkAndImplement(originalRepo: string, strategy: string, branchName: string)

  /** `agent.run(query).content`, or the exception it raises. */
  type Llm = (AgnoAgent, Query) -> Attempt<string>

  /** The process environment after `.env` loading: set variables and their values. */
  type Env = map<string, string>

  /** `os.getenv(key)`. */
  function Getenv(env: Env, key: string): Option<string> {
    if key in env then Some(env[key]) else None
  }

  /** `if os.getenv(key):` — set and non-empty. */
  predicate EnvSet(env: Env, key: string) {
    Truthy(Getenv(env, key))
  }

  /**
   * One step of a model fallback chain: the provider package imported, its
   * key is set, and the model it would build.
   */
  datatype Candidate = Candidate(imported: bool, keySet: bool, model: Model)

  /**
   * The reference reading of a fallback chain: the first candidate whose
   * package imported, whose key is set and whose construction does not raise
   * (`initFails`), else the final fallback.
   */
  function FirstUsable(candidates: seq<Candidate>, initFails: Model -> bool, fallback: Model): (m: Model)
    ensures m == fallback || exists k :: 0 <= k < |candidates| && candidates[k].model == m
  {
    if |candidates| == 0 then fallback
    else if candidates[0].imported && candidates[0].keySet && !initFails(candidates[0].model) then candidates[0].model
    else
      var m := FirstUsable(candidates[1..], initFails, fallback);
      assert m != fallback ==> exists k :: 1 <= k < |candidates| && candidates[k].model == m by {
        if m != fallback {
          var j :| 0 <= j < |candidates[1..]| && candidates[1..][j].model == m;
          assert candidates[j + 1].model == m;
        }
      }
      m
  }
}
