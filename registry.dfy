/** `MODEL_CONFIG`, provider auto-selection and `list_models` (ai_bridge.py).
    The environment variables the configuration reads are a parameter. */
module Registry {
  import opened Wrappers
  import opened Json
  import opened Text

  /** One provider entry of `MODEL_CONFIG`; `apiKey` is `None` for a provider
      whose entry has no "api_key" key, or whose variable is unset. */
  datatype ProviderConfig = ProviderConfig(
    name: string,
    endpoint: string,
    apiKey: Option<string>,
    models: seq<string>,
    default: string)

  /** The variables `MODEL_CONFIG` is built from. */
  datatype Env = Env(
    openaiKey: Option<string>,     // OPENAI_API_KEY
    ollamaHost: Option<string>,    // OLLAMA_HOST
    anthropicKey: Option<string>)  // ANTHROPIC_API_KEY

  const DefaultOllamaHost: string := "http://localhost:11434"

  /** The provider names `chat_completion` dispatches on, in configuration order. */
  const KnownProviders: seq<string> := ["openai", "ollama", "anthropic"]

  function OpenAIConfig(env: Env): ProviderConfig {
    ProviderConfig("openai", "https://api.openai.com/v1/chat/completions", env.openaiKey,
                   ["gpt-4", "gpt-3.5-turbo", "gpt-4-vision-preview"], "gpt-4")
  }

  function OllamaConfig(env: Env): ProviderConfig {
    ProviderConfig("ollama", env.ollamaHost.GetOr(DefaultOllamaHost), None,
                   ["llama2", "mistral", "codellama", "neural-chat"], "llama2")
  }

  function AnthropicConfig(env: Env): ProviderConfig {
    ProviderConfig("anthropic", "https://api.anthropic.com/v1/messages", env.anthropicKey,
                   ["claude-3-opus", "claude-3-sonnet", "claude-2.1"], "claude-3-sonnet")
  }

  /** `MODEL_CONFIG`, in its dictionary order. */
  function ModelConfig(env: Env): seq<ProviderConfig> {
    [OpenAIConfig(env), OllamaConfig(env), AnthropicConfig(env)]
  }

  /** `MODEL_CONFIG[provider]["default"]` for a known provider. */
  function DefaultModel(provider: string): string
    requires provider in KnownProviders
  {
    if provider == "openai" then "gpt-4"
    else if provider == "ollama" then "llama2"
    else "claude-3-sonnet"
  }

  // ---------------------------------------------------------------- selection

  /** The auto-selection chain of `chat_completion` when no provider is named:
      OpenAI if its key is set, else Ollama if its endpoint mentions
      "localhost", else Anthropic if its key is set, else none. */
  function AutoSelect(env: Env): Option<string> {
    if TruthyStr(env.openaiKey) then Some("openai")
    else if Contains(OllamaConfig(env).endpoint, "localhost") then Some("ollama")
    else if TruthyStr(env.anthropicKey) then Some("anthropic")
    else None
  }

  /** The chain is a strict priority order: each provider is chosen exactly
      when its own condition holds and those of all earlier ones fail. */
  lemma AutoSelectPriority(env: Env)
    ensures AutoSelect(env) == Some("openai") <==> TruthyStr(env.openaiKey)
    ensures AutoSelect(env) == Some("ollama")
            <==> !TruthyStr(env.openaiKey) && Contains(OllamaConfig(env).endpoint, "localhost")
    ensures AutoSelect(env) == Some("anthropic")
            <==> !TruthyStr(env.openaiKey) && !Contains(OllamaConfig(env).endpoint, "localhost")
                 && TruthyStr(env.anthropicKey)
    ensures AutoSelect(env).None?
            <==> !TruthyStr(env.openaiKey) && !Contains(OllamaConfig(env).endpoint, "localhost")
                 && !TruthyStr(env.anthropicKey)
  {
  }

  /** Whatever auto-selection picks is a known provider that the catalogue
      lists as available. */
  lemma AutoSelectPicksAvailable(env: Env)
    ensures AutoSelect(env).Some? ==> AutoSelect(env).value in KnownProviders
    ensures forall p :: p in ModelConfig(env) && Some(p.name) == AutoSelect(env) ==> Available(p)
  {
  }

  lemma {:induction false} ContainsAt(s: string, sub: string, i: nat)
    requires i + |sub| <= |s| && s[i..i + |sub|] == sub
    ensures Contains(s, sub)
    decreases i
  {
    if i > 0 {
      assert s[1..][i - 1..i - 1 + |sub|] == s[i..i + |sub|];
      ContainsAt(s[1..], sub, i - 1);
    }
  }

  /** With OLLAMA_HOST unset the endpoint is local, so auto-selection never
      fails: the 503 needs an explicit non-local host and no keys. */
  lemma DefaultHostAlwaysSelects(env: Env)
    requires env.ollamaHost.None?
    ensures AutoSelect(env).Some?
  {
    ContainsAt(DefaultOllamaHost, "localhost", 7);
  }

  // ---------------------------------------------------------------- catalogue

  /** `ModelInfo` (ai_bridge.py). */
  datatype ModelInfo = ModelInfo(provider: string, model: string, available: bool, features: seq<string>)

  /** `bool(config.get("api_key") or provider == "ollama")`. */
  predicate Available(p: ProviderConfig) {
    TruthyStr(p.apiKey) || p.name == "ollama"
  }

  /** The feature tags of one model, in the order `list_models` appends them. */
  function Features(provider: string, model: string): seq<string> {
    (if Contains(model, "vision") then ["vision"] else [])
    + (if Contains(model, "code") then ["code"] else [])
    + (if provider == "ollama" then ["local"] else [])
  }

  function Entry(p: ProviderConfig, model: string): ModelInfo {
    ModelInfo(p.name, model, Available(p), Features(p.name, model))
  }

  /** The entries of one provider, one per model, in model order. */
  function ProviderEntries(p: ProviderConfig): seq<ModelInfo> {
    seq(|p.models|, j requires 0 <= j < |p.models| => Entry(p, p.models[j]))
  }

  /** The whole catalogue: the providers' entries, in configuration order. */
  function Catalogue(cfg: seq<ProviderConfig>): seq<ModelInfo> {
    if cfg == [] then []
    else Catalogue(cfg[..|cfg| - 1]) + ProviderEntries(cfg[|cfg| - 1])
  }

  lemma {:induction false} CatalogueAppend(a: seq<ProviderConfig>, b: seq<ProviderConfig>)
    ensures Catalogue(a + b) == Catalogue(a) + Catalogue(b)
    decreases |b|
  {
    if b == [] {
      assert a + b == a;
    } else {
      var ab := a + b;
      assert ab[..|ab| - 1] == a + b[..|b| - 1];
      assert ab[|ab| - 1] == b[|b| - 1];
      CatalogueAppend(a, b[..|b| - 1]);
    }
  }

  /** Exactly one entry per (provider, model) pair, in configuration order:
      the entries of provider `i` start right after those of the providers
      before it, and entry `j` among them describes its `j`-th model. */
  lemma CatalogueAt(cfg: seq<ProviderConfig>, i: nat, j: nat)
    requires i < |cfg| && j < |cfg[i].models|
    ensures |Catalogue(cfg[..i])| + j < |Catalogue(cfg)|
    ensures Catalogue(cfg)[|Catalogue(cfg[..i])| + j] == Entry(cfg[i], cfg[i].models[j])
  {
    assert cfg == cfg[..i] + ([cfg[i]] + cfg[i + 1..]);
    CatalogueAppend(cfg[..i], [cfg[i]] + cfg[i + 1..]);
    CatalogueAppend([cfg[i]], cfg[i + 1..]);
    assert Catalogue([cfg[i]]) == ProviderEntries(cfg[i]) by {
      assert [cfg[i]][..0] == [];
    }
  }

  /** The catalogue's length is the total number of configured models. */
  lemma {:induction false} CatalogueLength(cfg: seq<ProviderConfig>)
    ensures |Catalogue(cfg)| == TotalModels(cfg)
  {
    if cfg != [] {
      CatalogueLength(cfg[..|cfg| - 1]);
    }
  }

  function TotalModels(cfg: seq<ProviderConfig>): nat {
    if cfg == [] then 0 else TotalModels(cfg[..|cfg| - 1]) + |cfg[|cfg| - 1].models|
  }

  /** `list_models`: nested loops over providers and their models, appending
      one `ModelInfo` per model with its availability and feature tags. */
  method ListModels(cfg: seq<ProviderConfig>) returns (models: seq<ModelInfo>)
    ensures models == Catalogue(cfg)
  {
    models := [];
    var i := 0;
    while i < |cfg|
      invariant 0 <= i <= |cfg|
      invariant models == Catalogue(cfg[..i])
    {
      var p := cfg[i];
      var j := 0;
      while j < |p.models|
        invariant 0 <= j <= |p.models|
        invariant models == Catalogue(cfg[..i]) + ProviderEntries(p)[..j]
      {
        var model := p.models[j];
        var available := TruthyStr(p.apiKey) || p.name == "ollama";
        var features := [];
        if Contains(model, "vision") {
          features := features + ["vision"];
        }
        if Contains(model, "code") {
          features := features + ["code"];
        }
        if p.name == "ollama" {
          features := features + ["local"];
        }
        assert ModelInfo(p.name, model, available, features) == Entry(p, model);
        assert ProviderEntries(p)[..j + 1] == ProviderEntries(p)[..j] + [Entry(p, model)];
        models := models + [ModelInfo(p.name, model, available, features)];
        j := j + 1;
      }
      assert ProviderEntries(p)[..j] == ProviderEntries(p);
      assert cfg[..i + 1][..i] == cfg[..i];
      i := i + 1;
    }
    assert cfg[..i] == cfg;
  }

  lemma {:induction false} NotContainsFirst(s: string, sub: string)
    requires sub != [] && sub[0] !in s
    ensures !Contains(s, sub)
    decreases |s|
  {
    if s != [] {
      NotContainsFirst(s[1..], sub);
    }
  }

  lemma CatalogueSingle(p: ProviderConfig)
    ensures Catalogue([p]) == ProviderEntries(p)
  {
    assert [p][..0] == [];
  }

  /** The shipped configuration lists ten models: three for OpenAI, four for
      Ollama, three for Anthropic. */
  lemma ShippedCatalogueSize(env: Env)
    ensures |Catalogue(ModelConfig(env))| == 10
    ensures |Catalogue(ModelConfig(env)[..1])| == 3
    ensures |Catalogue(ModelConfig(env)[..2])| == 7
  {
    var cfg := ModelConfig(env);
    assert cfg[..1] == [cfg[0]];
    assert cfg[..2] == cfg[..1] + [cfg[1]];
    assert cfg == cfg[..2] + [cfg[2]];
    CatalogueSingle(cfg[0]);
    CatalogueSingle(cfg[1]);
    CatalogueSingle(cfg[2]);
    CatalogueAppend(cfg[..1], [cfg[1]]);
    CatalogueAppend(cfg[..2], [cfg[2]]);
  }

  /** In the shipped catalogue the vision preview model is tagged "vision"
      only and is available exactly when the OpenAI key is set. */
  lemma ShippedVisionEntry(env: Env)
    ensures |Catalogue(ModelConfig(env))| == 10
    ensures Catalogue(ModelConfig(env))[2]
            == ModelInfo("openai", "gpt-4-vision-preview", TruthyStr(env.openaiKey), ["vision"])
  {
    var cfg := ModelConfig(env);
    ShippedCatalogueSize(env);
    assert cfg[..0] == [];
    CatalogueAt(cfg, 0, 2);
    VisionPreviewFeatures();
  }

  lemma VisionPreviewFeatures()
    ensures Features("openai", "gpt-4-vision-preview") == ["vision"]
  {
    ContainsAt("gpt-4-vision-preview", "vision", 6);
    NotContainsFirst("gpt-4-vision-preview", "code");
  }

  /** In the shipped catalogue "codellama" is an Ollama model, available
      without any key and tagged "code" then "local". */
  lemma ShippedCodeEntry(env: Env)
    ensures |Catalogue(ModelConfig(env))| == 10
    ensures Catalogue(ModelConfig(env))[5] == ModelInfo("ollama", "codellama", true, ["code", "local"])
  {
    var cfg := ModelConfig(env);
    ShippedCatalogueSize(env);
    CatalogueAt(cfg, 1, 2);
    CodellamaFeatures();
  }

  lemma CodellamaFeatures()
    ensures Features("ollama", "codellama") == ["code", "local"]
  {
    ContainsAt("codellama", "code", 0);
    NotContainsFirst("codellama", "vision");
  }
}
