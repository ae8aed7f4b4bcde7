/**
 * `BaseRevampAgent` (`app/core/base_agent.py`): the LangWatch precondition,
 * the prompt lookup with its fallback, the choice of instructions, and the
 * fields `add_tool` and `update_instructions` change.
 *
 * The LangWatch prompt store is an oracle `PromptStore`; the wrapped Agno
 * agent is the value `AgnoAgent`, rebuilt whenever the source rebuilds it.
 */
module BaseAgent {
  import opened Wrappers
  import opened Runtime

  const LangwatchKey := "LANGWATCH_API_KEY"
  const MissingLangwatchKey := "LANGWATCH_API_KEY not found in environment"

  /** `langwatch.prompts.get(name)`: a prompt, nothing, or an exception. */
  type PromptStore = string -> Attempt<Option<Prompt>>

  /** `_load_prompt`: the store's answer, with any exception turned into `None`. */
  function LoadPrompt(store: PromptStore, name: string): (p: Option<Prompt>)
    ensures store(name).Returned? ==> p == store(name).value
    ensures store(name).Threw? ==> p == None
  {
    match store(name)
    case Returned(found) => found
    case Threw(_) => None
  }

  /** The prompt a new agent holds: looked up only when a prompt name is given. */
  function InitialPrompt(store: PromptStore, promptName: Option<string>): (p: Option<Prompt>)
    ensures !Truthy(promptName) ==> p == None
    ensures Truthy(promptName) ==> p == LoadPrompt(store, promptName.value)
  {
    if Truthy(promptName) then LoadPrompt(store, promptName.value) else None
  }

  /** The instruction choice of `_create_agent`: the prompt's text if there is a prompt, else the default. */
  function AgentInstructions(prompt: Option<Prompt>, role: AgentRole): (r: Instructions)
    ensures prompt.Some? <==> r.Custom?
    ensures prompt.Some? ==> r == Custom(prompt.value.text)
    ensures prompt.None? ==> r == BuiltIn(role)
  {
    if prompt.Some? then Custom(prompt.value.text) else BuiltIn(role)
  }

  /** `_create_agent`: an OpenAI chat model with the agent's model id, its tools, markdown on. */
  function BuildAgent(modelId: string, prompt: Option<Prompt>, role: AgentRole, tools: seq<Tool>): AgnoAgent {
    AgnoAgent(OpenAIChat(modelId), AgentInstructions(prompt, role), tools, true)
  }

  /**
   * A built agent's instructions come from the prompt store exactly when a
   * prompt name is given and the store returns a prompt; every other case,
   * a store failure included, falls back to the class default.
   */
  lemma InstructionsFallBack(store: PromptStore, promptName: Option<string>, role: AgentRole, modelId: string, tools: seq<Tool>)
    ensures var a := BuildAgent(modelId, InitialPrompt(store, promptName), role, tools);
      a.instructions.Custom? <==>
        (Truthy(promptName) && store(promptName.value).Returned? && store(promptName.value).value.Some?)
  {
  }

  class RevampAgent {
    /** The subclass; `get_default_instructions` and `isinstance` depend on it only. */
    const role: AgentRole
    var modelId: string
    var tools: seq<Tool>
    var promptName: Option<string>
    var prompt: Option<Prompt>
    var agent: AgnoAgent

    /** The field assignments of `__init__` once the LangWatch check has passed. */
    constructor (role: AgentRole, modelId: string, tools: seq<Tool>, promptName: Option<string>, prompt: Option<Prompt>)
      ensures this.role == role && this.modelId == modelId && this.tools == tools
      ensures this.promptName == promptName && this.prompt == prompt
      ensures agent == BuildAgent(modelId, prompt, role, tools)
    {
      this.role := role;
      this.modelId := modelId;
      this.tools := tools;
      this.promptName := promptName;
      this.prompt := prompt;
      agent := BuildAgent(modelId, prompt, role, tools);
    }

    /** `run`: the content the wrapped agent returns for the query. */
    method Run(llm: Llm, query: Query) returns (content: Attempt<string>)
      ensures content == llm(agent, query)
    {
      content := llm(agent, query);
    }

    /**
     * `add_tool`: one tool at the end, and the agent rebuilt from the fields,
     * which drops any instructions set by `update_instructions` or a model
     * set by `UseModel`.
     */
    method AddTool(tool: Tool)
      modifies this
      ensures tools == old(tools) + [tool]
      ensures agent == BuildAgent(modelId, prompt, role, tools)
      ensures modelId == old(modelId) && promptName == old(promptName) && prompt == old(prompt)
    {
      tools := tools + [tool];
      agent := BuildAgent(modelId, prompt, role, tools);
    }

    /** `update_instructions`: only the wrapped agent's instructions change. */
    method UpdateInstructions(text: string)
      modifies this
      ensures agent == old(agent).(instructions := Custom(text))
      ensures tools == old(tools) && modelId == old(modelId) && promptName == old(promptName) && prompt == old(prompt)
    {
      agent := agent.(instructions := Custom(text));
    }

    /**
     * The agent rebuilt around a different model, as `CodingAgent.__init__`
     * (`app/agents/coding_agent.py`) does with a custom model.
     */
    method UseModel(model: Model)
      modifies this
      ensures agent == AgnoAgent(model, AgentInstructions(prompt, role), tools, true)
      ensures tools == old(tools) && modelId == old(modelId) && promptName == old(promptName) && prompt == old(prompt)
    {
      agent := AgnoAgent(model, AgentInstructions(prompt, role), tools, true);
    }
  }

  /**
   * `BaseRevampAgent.__init__`: refuses with a `ConfigurationError` when the
   * LangWatch key is missing or empty, before any prompt is looked up;
   * otherwise `tools or []`, the prompt lookup and the agent.
   */
  method NewRevampAgent(env: Env, store: PromptStore, role: AgentRole, modelId: string,
                        tools: Option<seq<Tool>>, promptName: Option<string>)
    returns (r: Result<RevampAgent, Exception>)
    ensures r.Failure? <==> !EnvSet(env, LangwatchKey)
    ensures r.Failure? ==> r.error == Exception(ConfigurationError, MissingLangwatchKey)
    ensures r.Success? ==> (fresh(r.value)
      && r.value.role == role && r.value.modelId == modelId
      && r.value.tools == tools.GetOr([]) && r.value.promptName == promptName
      && r.value.prompt == InitialPrompt(store, promptName)
      && r.value.agent == BuildAgent(modelId, r.value.prompt, role, r.value.tools))
  {
    if !EnvSet(env, LangwatchKey) {
      return Failure(Exception(ConfigurationError, MissingLangwatchKey));
    }
    var prompt: Option<Prompt> := None;
    if Truthy(promptName) {
      prompt := LoadPrompt(store, promptName.value);
    }
    var a := new RevampAgent(role, modelId, tools.GetOr([]), promptName, prompt);
    r := Success(a);
  }

  /** What `get_agent_by_type` of a workflow or a team finds: the first agent of the role, in list order. */
  function FirstOfRole(agents: seq<RevampAgent>, role: AgentRole): (r: Option<RevampAgent>)
    ensures r.Some? <==> exists k :: 0 <= k < |agents| && agents[k].role == role
    ensures r.Some? ==> r.value in agents && r.value.role == role
    ensures r.Some? ==> exists k :: (0 <= k < |agents| && agents[k] == r.value
      && forall j :: 0 <= j < k ==> agents[j].role != role)
  {
    if |agents| == 0 then None
    else if agents[0].role == role then Some(agents[0])
    else
      var rest := FirstOfRole(agents[1..], role);
      if rest.Some? then
        assert forall j :: 1 <= j < |agents| ==> agents[j] == agents[1..][j - 1];
        rest
      else
        rest
  }

  /** One step of a search from position `i`: the agent there, or the search from `i + 1`. */
  lemma FirstOfRoleFrom(agents: seq<RevampAgent>, role: AgentRole, i: nat)
    requires i < |agents|
    ensures FirstOfRole(agents[i..], role)
      == if agents[i].role == role then Some(agents[i]) else FirstOfRole(agents[i + 1..], role)
  {
    assert agents[i..][0] == agents[i] && agents[i..][1..] == agents[i + 1..];
  }
}
