/**
 * `AgentFactory` (`app/core/agent_factory.py`): which tool kits exist for an
 * environment, the factory's own coding-model chain, and the tool lists the
 * four kinds of agent are created with.
 *
 * The agent classes' settings come from their constructors in `app/agents/`:
 * every agent uses model id "gpt-4o"; the strategy agent loads the prompt
 * "hackathon_revamp_agent", the coding agent the prompt "coding_agent", the
 * analyzer and the researcher none.
 */
module AgentFactory {
  import opened Wrappers
  import opened Runtime
  import opened BaseAgent

  const FirecrawlKey := "FIRECRAWL_API_KEY"
  const GithubTokenKey := "GITHUB_ACCESS_TOKEN"
  const CerebrasKey := "CEREBRAS_API_KEY"
  const MistralKey := "MISTRAL_API_KEY"

  /** `get_available_tools`: the three local kits, then Firecrawl and GitHub when their keys are set. */
  method GetAvailableTools(env: Env) returns (tools: map<string, Tool>)
    ensures "duckduckgo" in tools && tools["duckduckgo"] == DuckDuckGo
    ensures "file" in tools && tools["file"] == FileTools
    ensures "local_file_system" in tools && tools["local_file_system"] == LocalFileSystem
    ensures "firecrawl" in tools <==> EnvSet(env, FirecrawlKey)
    ensures "firecrawl" in tools ==> tools["firecrawl"] == Firecrawl
    ensures "github" in tools <==> EnvSet(env, GithubTokenKey)
    ensures "github" in tools ==> tools["github"] == Github
    ensures tools.Keys <= {"duckduckgo", "file", "local_file_system", "firecrawl", "github"}
  {
    tools := map["duckduckgo" := DuckDuckGo, "file" := FileTools, "local_file_system" := LocalFileSystem];
    if EnvSet(env, FirecrawlKey) {
      tools := tools["firecrawl" := Firecrawl];
    }
    if EnvSet(env, GithubTokenKey) {
      tools := tools["github" := Github];
    }
  }

  /**
   * The factory's `get_coding_model`: Cerebras, then Mistral, then OpenAI
   * "gpt-4o"; unlike `app/models.py` it has no OpenRouter step.
   */
  function CodingCandidates(env: Env, cerebrasImported: bool, mistralImported: bool): seq<Candidate> {
    [ Candidate(cerebrasImported, EnvSet(env, CerebrasKey), Cerebras("llama-4-scout-17b-16e-instruct")),
      Candidate(mistralImported, EnvSet(env, MistralKey), MistralChat("mistral-large-latest")) ]
  }

  function GetCodingModel(env: Env, cerebrasImported: bool, mistralImported: bool, initFails: Model -> bool): (m: Model)
    ensures !m.OpenRouter?
    ensures m.Cerebras? ==> cerebrasImported && EnvSet(env, CerebrasKey)
    ensures m.MistralChat? ==> mistralImported && EnvSet(env, MistralKey)
    ensures m.OpenAIChat? ==> m.id == "gpt-4o"
  {
    if cerebrasImported && EnvSet(env, CerebrasKey) && !initFails(Cerebras("llama-4-scout-17b-16e-instruct")) then
      Cerebras("llama-4-scout-17b-16e-instruct")
    else if mistralImported && EnvSet(env, MistralKey) && !initFails(MistralChat("mistral-large-latest")) then
      MistralChat("mistral-large-latest")
    else
      OpenAIChat("gpt-4o")
  }

  /** The guarded returns are the two-step chain ending at OpenAI. */
  lemma CodingModelIsFirstUsable(env: Env, cerebrasImported: bool, mistralImported: bool, initFails: Model -> bool)
    ensures GetCodingModel(env, cerebrasImported, mistralImported, initFails)
      == FirstUsable(CodingCandidates(env, cerebrasImported, mistralImported), initFails, OpenAIChat("gpt-4o"))
  {
    var c := CodingCandidates(env, cerebrasImported, mistralImported);
    assert c[1..][1..] == [];
    assert FirstUsable(c[1..][1..], initFails, OpenAIChat("gpt-4o")) == OpenAIChat("gpt-4o");
  }

  // ---- The default tool lists, in terms of the environment ----

  function StrategyDefaultTools(env: Env): seq<Tool> {
    [DuckDuckGo, FileTools, LocalFileSystem, HackathonDiscovery] + (if EnvSet(env, FirecrawlKey) then [Firecrawl] else [])
  }

  function CodingDefaultTools(env: Env): seq<Tool> {
    [FileTools, LocalFileSystem] + (if EnvSet(env, GithubTokenKey) then [Github] else [])
  }

  function AnalyzerTools(env: Env): seq<Tool> {
    [DuckDuckGo, FileTools, LocalFileSystem] + (if EnvSet(env, GithubTokenKey) then [Github] else [])
  }

  function ResearcherTools(env: Env): seq<Tool> {
    [DuckDuckGo] + (if EnvSet(env, FirecrawlKey) then [Firecrawl] else [])
  }

  /**
   * Who gets what: web search for every agent but the coding agent, the
   * discovery kit for the strategy agent only, Firecrawl for the strategy
   * agent and the researcher when its key is set, GitHub for the coding agent
   * and the analyzer when its token is set.
   */
  lemma ToolAssignment(env: Env)
    ensures DuckDuckGo in StrategyDefaultTools(env) && DuckDuckGo in AnalyzerTools(env) && DuckDuckGo in ResearcherTools(env)
    ensures DuckDuckGo !in CodingDefaultTools(env)
    ensures HackathonDiscovery in StrategyDefaultTools(env)
    ensures HackathonDiscovery !in CodingDefaultTools(env) && HackathonDiscovery !in AnalyzerTools(env)
      && HackathonDiscovery !in ResearcherTools(env)
    ensures (Firecrawl in StrategyDefaultTools(env) <==> EnvSet(env, FirecrawlKey))
      && (Firecrawl in ResearcherTools(env) <==> EnvSet(env, FirecrawlKey))
    ensures Firecrawl !in CodingDefaultTools(env) && Firecrawl !in AnalyzerTools(env)
    ensures (Github in CodingDefaultTools(env) <==> EnvSet(env, GithubTokenKey))
      && (Github in AnalyzerTools(env) <==> EnvSet(env, GithubTokenKey))
    ensures Github !in StrategyDefaultTools(env) && Github !in ResearcherTools(env)
  {
  }

  // ---- The create_* methods ----

  /** `create_strategy_agent`: the default list is built only when no tools are passed. */
  method CreateStrategyAgent(env: Env, store: PromptStore, tools: Option<seq<Tool>>)
    returns (r: Result<RevampAgent, Exception>)
    ensures r.Failure? <==> !EnvSet(env, LangwatchKey)
    ensures r.Failure? ==> r.error == Exception(ConfigurationError, MissingLangwatchKey)
    ensures r.Success? ==> (fresh(r.value) && r.value.role == StrategyAgent
      && r.value.tools == (if tools.Some? then tools.value else StrategyDefaultTools(env))
      && r.value.modelId == "gpt-4o" && r.value.promptName == Some("hackathon_revamp_agent")
      && r.value.agent == BuildAgent("gpt-4o", InitialPrompt(store, Some("hackathon_revamp_agent")), StrategyAgent, r.value.tools))
  {
    var list: seq<Tool>;
    if tools.None? {
      var available := GetAvailableTools(env);
      list := [available["duckduckgo"], available["file"], available["local_file_system"]];
      list := list + [HackathonDiscovery];
      if "firecrawl" in available {
        list := list + [available["firecrawl"]];
      }
    } else {
      list := tools.value;
    }
    r := NewRevampAgent(env, store, StrategyAgent, "gpt-4o", Some(list), Some("hackathon_revamp_agent"));
  }

  /**
   * `create_coding_agent`: the default list, then the coding model, which
   * `CodingAgent` puts in place of the OpenAI model its base class built.
   */
  method CreateCodingAgent(env: Env, store: PromptStore, cerebrasImported: bool, mistralImported: bool,
                           initFails: Model -> bool, tools: Option<seq<Tool>>)
    returns (r: Result<RevampAgent, Exception>)
    ensures r.Failure? <==> !EnvSet(env, LangwatchKey)
    ensures r.Failure? ==> r.error == Exception(ConfigurationError, MissingLangwatchKey)
    ensures r.Success? ==> (fresh(r.value) && r.value.role == CodingAgent
      && r.value.tools == (if tools.Some? then tools.value else CodingDefaultTools(env))
      && r.value.modelId == "gpt-4o" && r.value.promptName == Some("coding_agent")
      && r.value.prompt == InitialPrompt(store, Some("coding_agent"))
      && r.value.agent == AgnoAgent(GetCodingModel(env, cerebrasImported, mistralImported, initFails),
                                    AgentInstructions(r.value.prompt, CodingAgent), r.value.tools, true))
  {
    var list: seq<Tool>;
    if tools.None? {
      var available := GetAvailableTools(env);
      list := [available["file"], available["local_file_system"]];
      if "github" in available {
        list := list + [available["github"]];
      }
    } else {
      list := tools.value;
    }
    var model := GetCodingModel(env, cerebrasImported, mistralImported, initFails);
    r := NewRevampAgent(env, store, CodingAgent, "gpt-4o", Some(list), Some("coding_agent"));
    if r.Success? {
      r.value.UseModel(model);
    }
  }

  /** `create_project_analyzer`: always the default list. */
  method CreateProjectAnalyzer(env: Env, store: PromptStore) returns (r: Result<RevampAgent, Exception>)
    ensures r.Failure? <==> !EnvSet(env, LangwatchKey)
    ensures r.Failure? ==> r.error == Exception(ConfigurationError, MissingLangwatchKey)
    ensures r.Success? ==> (fresh(r.value) && r.value.role == ProjectAnalyzer
      && r.value.tools == AnalyzerTools(env) && r.value.modelId == "gpt-4o" && r.value.promptName == None
      && r.value.agent == BuildAgent("gpt-4o", None, ProjectAnalyzer, AnalyzerTools(env)))
  {
    var available := GetAvailableTools(env);
    var list := [available["duckduckgo"], available["file"], available["local_file_system"]];
    if "github" in available {
      list := list + [available["github"]];
    }
    r := NewRevampAgent(env, store, ProjectAnalyzer, "gpt-4o", Some(list), None);
  }

  /** `create_hackathon_researcher`: always the default list. */
  method CreateHackathonResearcher(env: Env, store: PromptStore) returns (r: Result<RevampAgent, Exception>)
    ensures r.Failure? <==> !EnvSet(env, LangwatchKey)
    ensures r.Failure? ==> r.error == Exception(ConfigurationError, MissingLangwatchKey)
    ensures r.Success? ==> (fresh(r.value) && r.value.role == HackathonResearcher
      && r.value.tools == ResearcherTools(env) && r.value.modelId == "gpt-4o" && r.value.promptName == None
      && r.value.agent == BuildAgent("gpt-4o", None, HackathonResearcher, ResearcherTools(env)))
  {
    var available := GetAvailableTools(env);
    var list := [available["duckduckgo"]];
    if "firecrawl" in available {
      list := list + [available["firecrawl"]];
    }
    r := NewRevampAgent(env, store, HackathonResearcher, "gpt-4o", Some(list), None);
  }
}
