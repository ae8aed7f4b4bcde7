/**
 * `ModelFactory` (`app/models.py`): the coding-model fallback chain over the
 * application settings, and the strategy model.
 *
 * Which provider packages imported is the record `Providers`; whether a
 * model's constructor raises is the oracle `initFails`. The settings are a
 * value: the keys the environment supplies and the model ids.
 */
module Models {
  import opened Wrappers
  import opened Runtime

  /** The fields of `app.config.Settings` the factory reads. */
  datatype Settings = Settings(
    openaiApiKey: Option<string>,
    cerebrasApiKey: Option<string>,
    mistralApiKey: Option<string>,
    openrouterApiKey: Option<string>,
    primaryModelId: string,
    cerebrasModelId: string,
    mistralModelId: string,
    openrouterModelId: string)

  /** Settings with the default model ids and the given keys. */
  function DefaultSettings(openai: Option<string>, cerebras: Option<string>, mistral: Option<string>, openrouter: Option<string>): Settings {
    Settings(openai, cerebras, mistral, openrouter,
      "gpt-4o", "llama-4-scout-17b-16e-instruct", "mistral-large-latest", "anthropic/claude-3.5-sonnet")
  }

  /** `CEREBRAS_AVAILABLE`, `MISTRAL_AVAILABLE`, `OPENROUTER_AVAILABLE`: which imports succeeded. */
  datatype Providers = Providers(cerebras: bool, mistral: bool, openrouter: bool)

  /** The chain in priority order: Cerebras, Mistral, OpenRouter. */
  function CodingCandidates(settings: Settings, providers: Providers): seq<Candidate> {
    [ Candidate(providers.cerebras, Truthy(settings.cerebrasApiKey), Cerebras(settings.cerebrasModelId)),
      Candidate(providers.mistral, Truthy(settings.mistralApiKey), MistralChat(settings.mistralModelId)),
      Candidate(providers.openrouter, Truthy(settings.openrouterApiKey), OpenRouter(settings.openrouterModelId)) ]
  }

  /** The final fallback of the chain, also the strategy model. */
  function PrimaryModel(settings: Settings): Model {
    OpenAIChat(settings.primaryModelId)
  }

  /**
   * `get_coding_model`: guarded returns in priority order; a constructor that
   * raises falls through to the next provider.
   */
  function GetCodingModel(settings: Settings, providers: Providers, initFails: Model -> bool): (m: Model)
    ensures m.Cerebras? ==> providers.cerebras && Truthy(settings.cerebrasApiKey)
    ensures m.MistralChat? ==> providers.mistral && Truthy(settings.mistralApiKey)
    ensures m.OpenRouter? ==> providers.openrouter && Truthy(settings.openrouterApiKey)
  {
    if providers.cerebras && Truthy(settings.cerebrasApiKey) && !initFails(Cerebras(settings.cerebrasModelId)) then
      Cerebras(settings.cerebrasModelId)
    else if providers.mistral && Truthy(settings.mistralApiKey) && !initFails(MistralChat(settings.mistralModelId)) then
      MistralChat(settings.mistralModelId)
    else if providers.openrouter && Truthy(settings.openrouterApiKey) && !initFails(OpenRouter(settings.openrouterModelId)) then
      OpenRouter(settings.openrouterModelId)
    else
      PrimaryModel(settings)
  }

  /** The guarded returns agree with the reference reading of the chain. */
  lemma CodingModelIsFirstUsable(settings: Settings, providers: Providers, initFails: Model -> bool)
    ensures GetCodingModel(settings, providers, initFails)
      == FirstUsable(CodingCandidates(settings, providers), initFails, PrimaryModel(settings))
  {
    var c := CodingCandidates(settings, providers);
    var fallback := PrimaryModel(settings);
    assert c[1..][1..][1..] == [];
    assert FirstUsable(c[1..][1..][1..], initFails, fallback) == fallback;
    assert FirstUsable(c[1..][1..], initFails, fallback)
      == (if c[2].imported && c[2].keySet && !initFails(c[2].model) then c[2].model else fallback);
  }

  /** `get_strategy_model`: always the primary OpenAI model, whatever providers are present. */
  function GetStrategyModel(settings: Settings): (m: Model)
    ensures m.OpenAIChat? && m.id == settings.primaryModelId
  {
    PrimaryModel(settings)
  }

  /**
   * A usable provider wins over every provider after it: the result is the
   * first usable one in the chain, whatever the later ones are.
   */
  lemma {:induction false} ChainPrefersEarlier(c: seq<Candidate>, initFails: Model -> bool, fallback: Model, k: nat)
    requires k < |c|
    requires c[k].imported && c[k].keySet && !initFails(c[k].model)
    requires forall j :: 0 <= j < k ==> !(c[j].imported && c[j].keySet && !initFails(c[j].model))
    ensures FirstUsable(c, initFails, fallback) == c[k].model
  {
    if k > 0 {
      assert forall j :: 0 <= j < k - 1 ==> c[1..][j] == c[j + 1];
      ChainPrefersEarlier(c[1..], initFails, fallback, k - 1);
    }
  }

  /** With no usable candidate the chain returns its fallback. */
  lemma {:induction false} ChainFallsBack(c: seq<Candidate>, initFails: Model -> bool, fallback: Model)
    requires forall j :: 0 <= j < |c| ==> !(c[j].imported && c[j].keySet && !initFails(c[j].model))
    ensures FirstUsable(c, initFails, fallback) == fallback
  {
    if |c| > 0 {
      assert forall j :: 0 <= j < |c| - 1 ==> c[1..][j] == c[j + 1];
      ChainFallsBack(c[1..], initFails, fallback);
    }
  }

  /** Cerebras, when imported, keyed and constructible, is chosen whatever else is available. */
  lemma CerebrasFirst(settings: Settings, providers: Providers, initFails: Model -> bool)
    requires providers.cerebras && Truthy(settings.cerebrasApiKey) && !initFails(Cerebras(settings.cerebrasModelId))
    ensures GetCodingModel(settings, providers, initFails) == Cerebras(settings.cerebrasModelId)
  {
  }

  /**
   * An initialisation failure falls through: the outcome is the same as if
   * the failing provider had not been imported.
   */
  lemma InitFailureFallsThrough(settings: Settings, providers: Providers, initFails: Model -> bool)
    requires initFails(Cerebras(settings.cerebrasModelId))
    ensures GetCodingModel(settings, providers, initFails) == GetCodingModel(settings, providers.(cerebras := false), initFails)
  {
  }

  /** Without any usable provider the chain ends at the OpenAI model with the primary id. */
  lemma EndsAtOpenAI(settings: Settings, providers: Providers, initFails: Model -> bool)
    requires !(providers.cerebras && Truthy(settings.cerebrasApiKey))
    requires !(providers.mistral && Truthy(settings.mistralApiKey))
    requires !(providers.openrouter && Truthy(settings.openrouterApiKey))
    ensures GetCodingModel(settings, providers, initFails) == OpenAIChat(settings.primaryModelId)
  {
  }
}
