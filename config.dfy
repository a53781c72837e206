/**
 * The provider configuration: for each provider, in declaration order, the
 * list of model ids it serves. The API keys it also holds are environment
 * reads and are covered by `AI.Initialise`.
 */
module Config {
  import Registry
  import AI

  /** One entry of the configuration object: a provider key and its model list. */
  datatype ProviderConfig = ProviderConfig(provider: string, models: seq<string>)

  /** The configuration object, one entry per key in declaration order. */
  const AI_CONFIG: seq<ProviderConfig> := [
    ProviderConfig("openai", ["gpt-4", "gpt-3.5"]),
    ProviderConfig("anthropic", ["claude"]),
    ProviderConfig("google", ["gemini"])
  ]

  /** Every model id listed under some provider. */
  function ListedModels(config: seq<ProviderConfig>): set<string> {
    set i, m | 0 <= i < |config| && m in config[i].models :: m
  }

  /** The three lists as declared. */
  lemma ConfigLists()
    ensures |AI_CONFIG| == 3
    ensures AI_CONFIG[0] == ProviderConfig("openai", ["gpt-4", "gpt-3.5"])
    ensures AI_CONFIG[1] == ProviderConfig("anthropic", ["claude"])
    ensures AI_CONFIG[2] == ProviderConfig("google", ["gemini"])
  {
  }

  /** Provider keys are distinct and no model id is listed under two providers. */
  lemma ListsDisjoint(i: nat, j: nat, m: string)
    requires i < j < |AI_CONFIG|
    ensures AI_CONFIG[i].provider != AI_CONFIG[j].provider
    ensures !(m in AI_CONFIG[i].models && m in AI_CONFIG[j].models)
  {
  }

  /** The listed ids are exactly the registry's ids. */
  lemma ListedModelsAreRegistryIds()
    ensures ListedModels(AI_CONFIG) == Registry.Ids(Registry.AI_MODELS)
  {
    Registry.RegistryShape();
    var listed := ListedModels(AI_CONFIG);
    assert "gpt-4" in AI_CONFIG[0].models && "gpt-3.5" in AI_CONFIG[0].models;
    assert "claude" in AI_CONFIG[1].models;
    assert "gemini" in AI_CONFIG[2].models;
    forall m | m in listed ensures m in {"gpt-4", "gpt-3.5", "claude", "gemini"} {
      var i :| 0 <= i < |AI_CONFIG| && m in AI_CONFIG[i].models;
      assert i == 0 || i == 1 || i == 2;
    }
  }

  /** A model listed under provider P has provider P in the registry. */
  lemma ListedProviderAgrees(i: nat, m: string)
    requires i < |AI_CONFIG| && m in AI_CONFIG[i].models
    ensures Registry.Lookup(m).Some? && Registry.Lookup(m).value.provider == AI_CONFIG[i].provider
  {
    ConfigLists();
    if i == 0 {
      assert m == "gpt-4" || m == "gpt-3.5";
      Registry.LookupTable();
    } else if i == 1 {
      assert m == "claude";
      Registry.LookupTable();
    } else {
      assert m == "gemini";
      Registry.LookupTable();
    }
  }

  /** A model listed under provider P is routed by dispatch to P's handler. */
  lemma ListedModelRouted(i: nat, m: string)
    requires i < |AI_CONFIG| && m in AI_CONFIG[i].models
    ensures AI.SelectHandler(m).Some? && AI.ProviderOf(AI.SelectHandler(m).value) == AI_CONFIG[i].provider
  {
    ListedProviderAgrees(i, m);
  }
}
