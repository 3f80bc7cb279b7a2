/** Provider configuration (src/config.py): which reasoning backend to use, the model name in
    the form the LLM router expects, the backend's endpoint, and the check that every API key
    is present. The configuration is a value built by the caller; reading it from the process
    environment is not part of this model. */
module Configuration {
  import opened Wrappers
  import opened Text

  /** The errors the core raises, as values. */
  datatype Error =
    | ValueError(message: string)   // Python `ValueError`
    | LlmError(message: string)     // whatever constructing an LLM client raised

  /** The two backends the configuration knows. */
  datatype Provider = OpenRouter | Groq {
    /** The name callers use to select the provider. */
    function Name(): string
    {
      match this
      case OpenRouter => "openrouter"
      case Groq => "groq"
    }
  }

  /** The provider a name selects, if any. */
  function ProviderNamed(name: string): (r: Option<Provider>)
    ensures r.Some? <==> name == "openrouter" || name == "groq"
    ensures r.Some? ==> r.value.Name() == name
  {
    if name == "openrouter" then Some(OpenRouter)
    else if name == "groq" then Some(Groq)
    else None
  }

  const OpenRouterEndpoint: string := "https://openrouter.ai/api/v1"
  const GroqEndpoint: string := "https://api.groq.com/openai/v1"
  const DefaultOpenRouterModel: string := "meta-llama/llama-4-scout:free"
  const DefaultGroqModel: string := "meta-llama/llama-4-scout-17b-16e-instruct"
  const UnknownProviderMessage: string := "Unknown LLM provider: "
  const MissingKeysMessage: string := "Missing required API keys: "

  /** The fixed endpoint of each provider. */
  function Endpoint(p: Provider): string
  {
    match p
    case OpenRouter => OpenRouterEndpoint
    case Groq => GroqEndpoint
  }

  /** The prefix that routes a model name to the provider. */
  function RoutePrefix(p: Provider): string
  {
    p.Name() + "/"
  }

  /** The settings of `Config`; an API key is `None` when its variable is unset. */
  datatype Config = Config(
    openrouterApiKey: Option<string>,
    groqApiKey: Option<string>,
    serperApiKey: Option<string>,
    defaultLlm: string,
    openrouterModel: string,
    groqModel: string,
    defaultResourcesPerCategory: int,
    defaultQuizQuestions: int,
    defaultProjectCount: int)

  /** The configuration `Config()` builds when only the three API keys are set. */
  function DefaultConfig(openrouterKey: Option<string>, groqKey: Option<string>, serperKey: Option<string>): (c: Config)
    ensures c.openrouterApiKey == openrouterKey && c.groqApiKey == groqKey && c.serperApiKey == serperKey
    ensures c.defaultLlm == "openrouter"
    ensures c.openrouterModel == DefaultOpenRouterModel && c.groqModel == DefaultGroqModel
    ensures c.defaultResourcesPerCategory == 3 && c.defaultQuizQuestions == 5 && c.defaultProjectCount == 2
  {
    Config(openrouterKey, groqKey, serperKey,
           "openrouter", DefaultOpenRouterModel, DefaultGroqModel,
           3, 5, 2)
  }

  /** Python truthiness of an optional string: neither `None` nor empty. */
  predicate Truthy(s: Option<string>)
  {
    s.Some? && s.value != ""
  }

  /** `llm_provider or self.default_llm` */
  function ResolveProvider(c: Config, llmProvider: Option<string>): (name: string)
    ensures Truthy(llmProvider) ==> name == llmProvider.value
    ensures !Truthy(llmProvider) ==> name == c.defaultLlm
  {
    if Truthy(llmProvider) then llmProvider.value else c.defaultLlm
  }

  /** Puts `prefix` in front of `name` unless it is already there. */
  function WithPrefix(prefix: string, name: string): (r: string)
    ensures StartsWith(r, prefix)
    ensures StartsWith(name, prefix) ==> r == name
    ensures !StartsWith(name, prefix) ==> r[|prefix|..] == name
  {
    if StartsWith(name, prefix) then name else prefix + name
  }

  /** The prefix rule is idempotent: a name it has produced is left as it is. */
  lemma WithPrefixIdempotent(prefix: string, name: string)
    ensures WithPrefix(prefix, WithPrefix(prefix, name)) == WithPrefix(prefix, name)
  {
  }

  /** The dictionary `get_llm_config` returns. */
  datatype LlmConfig = LlmConfig(apiKey: Option<string>, model: string, baseUrl: string, provider: Provider)

  function ApiKey(c: Config, p: Provider): Option<string>
  {
    match p
    case OpenRouter => c.openrouterApiKey
    case Groq => c.groqApiKey
  }

  function ConfiguredModel(c: Config, p: Provider): string
  {
    match p
    case OpenRouter => c.openrouterModel
    case Groq => c.groqModel
  }

  /** `Config.get_llm_config`: resolves the provider, routes its model name, attaches the
      provider's key (present or not) and endpoint, and rejects any other name. */
  function GetLlmConfig(c: Config, llmProvider: Option<string> := None): (r: Result<LlmConfig, Error>)
    ensures r.Success? <==> ProviderNamed(ResolveProvider(c, llmProvider)).Some?
    ensures r.Success? ==>
              && r.value.provider.Name() == ResolveProvider(c, llmProvider)
              && r.value.baseUrl == Endpoint(r.value.provider)
              && r.value.apiKey == ApiKey(c, r.value.provider)
              && StartsWith(r.value.model, RoutePrefix(r.value.provider))
              && (StartsWith(ConfiguredModel(c, r.value.provider), RoutePrefix(r.value.provider)) ==>
                    r.value.model == ConfiguredModel(c, r.value.provider))
              && r.value.model == WithPrefix(RoutePrefix(r.value.provider), ConfiguredModel(c, r.value.provider))
    ensures r.Failure? ==> r.error == ValueError(UnknownProviderMessage + ResolveProvider(c, llmProvider))
  {
    var provider := ResolveProvider(c, llmProvider);
    if provider == "openrouter" then
      Success(LlmConfig(c.openrouterApiKey, WithPrefix("openrouter/", c.openrouterModel),
                        OpenRouterEndpoint, OpenRouter))
    else if provider == "groq" then
      Success(LlmConfig(c.groqApiKey, WithPrefix("groq/", c.groqModel),
                        GroqEndpoint, Groq))
    else
      Failure(ValueError(UnknownProviderMessage + provider))
  }

  /** An unset or empty selector means the configured default. */
  lemma FalsySelectorUsesDefault(c: Config, llmProvider: Option<string>)
    requires !Truthy(llmProvider)
    ensures GetLlmConfig(c, llmProvider) == GetLlmConfig(c, Some(c.defaultLlm))
  {
  }

  /** With the environment defaults, an unset selector resolves to openrouter. */
  lemma DefaultProviderIsOpenRouter(openrouterKey: Option<string>, groqKey: Option<string>, serperKey: Option<string>)
    ensures GetLlmConfig(DefaultConfig(openrouterKey, groqKey, serperKey)) ==
              Success(LlmConfig(openrouterKey, "openrouter/" + DefaultOpenRouterModel, OpenRouterEndpoint, OpenRouter))
  {
    assert DefaultOpenRouterModel[0] == 'm';
  }

  /** Resolution is idempotent: writing the routed model name back into the configuration and
      resolving again yields the same configuration. */
  lemma {:induction false} GetLlmConfigIdempotent(c: Config, llmProvider: Option<string>)
    requires GetLlmConfig(c, llmProvider).Success?
    ensures var r := GetLlmConfig(c, llmProvider).value;
            var c' := match r.provider
                      case OpenRouter => c.(openrouterModel := r.model)
                      case Groq => c.(groqModel := r.model);
            GetLlmConfig(c', llmProvider) == Success(r)
  {
    var r := GetLlmConfig(c, llmProvider).value;
    match r.provider
    case OpenRouter => WithPrefixIdempotent("openrouter/", c.openrouterModel);
    case Groq => WithPrefixIdempotent("groq/", c.groqModel);
  }

  /** Resolution never looks at whether a key is present. */
  lemma GetLlmConfigIgnoresKeys(c: Config, llmProvider: Option<string>, k1: Option<string>, k2: Option<string>)
    ensures GetLlmConfig(c.(openrouterApiKey := k1, groqApiKey := k2), llmProvider).Success?
            == GetLlmConfig(c, llmProvider).Success?
  {
  }

  // ---------------------------------------------------------------------------------------
  // API key validation.

  /** The keys `validate_api_keys` checks, in the order it checks them. */
  function KeyTable(c: Config): seq<(string, Option<string>)>
  {
    [("OPENROUTER_API_KEY", c.openrouterApiKey), ("GROQ_API_KEY", c.groqApiKey), ("SERPER_API_KEY", c.serperApiKey)]
  }

  /** The names of the entries whose value is missing or empty, in table order. */
  function MissingNames(table: seq<(string, Option<string>)>): seq<string>
  {
    if |table| == 0 then []
    else (if Truthy(table[0].1) then [] else [table[0].0]) + MissingNames(table[1..])
  }

  /** `xs` keeps some of the elements of `ys`, in their order. */
  predicate IsSubsequence(xs: seq<string>, ys: seq<string>)
  {
    || |xs| == 0
    || (&& |ys| > 0
        && ((xs[0] == ys[0] && IsSubsequence(xs[1..], ys[1..])) || IsSubsequence(xs, ys[1..])))
  }

  function Names(table: seq<(string, Option<string>)>): (r: seq<string>)
    ensures |r| == |table| && forall i :: 0 <= i < |table| ==> r[i] == table[i].0
  {
    seq(|table|, i requires 0 <= i < |table| => table[i].0)
  }

  /** A name is reported exactly when some entry of that name lacks its value, and the report
      keeps the table's order. */
  lemma {:induction false} MissingNamesExact(table: seq<(string, Option<string>)>, name: string)
    ensures name in MissingNames(table) <==> exists i :: 0 <= i < |table| && table[i].0 == name && !Truthy(table[i].1)
    ensures IsSubsequence(MissingNames(table), Names(table))
  {
    if |table| > 0 {
      MissingNamesExact(table[1..], name);
      var rest := MissingNames(table[1..]);
      assert Names(table)[1..] == Names(table[1..]);
      if Truthy(table[0].1) {
        assert MissingNames(table) == rest;
      } else {
        assert MissingNames(table) == [table[0].0] + rest;
        assert MissingNames(table)[1..] == rest;
      }
      if exists i :: 0 <= i < |table| && table[i].0 == name && !Truthy(table[i].1) {
        var i :| 0 <= i < |table| && table[i].0 == name && !Truthy(table[i].1);
        if i > 0 { assert table[1..][i - 1] == table[i]; }
      }
      if name in MissingNames(table[1..]) {
        var i :| 0 <= i < |table[1..]| && table[1..][i].0 == name && !Truthy(table[1..][i].1);
        assert table[i + 1] == table[1..][i];
      }
    }
  }

  /** `Config.validate_api_keys`: collects every missing key, then raises naming all of them,
      or returns True. */
  method ValidateApiKeys(c: Config) returns (r: Result<bool, Error>)
    ensures r.Success? <==> MissingNames(KeyTable(c)) == []
    ensures r.Success? ==> r.value
    ensures r.Failure? ==> r.error == ValueError(MissingKeysMessage + Join(", ", MissingNames(KeyTable(c))))
  {
    var missingKeys: seq<string> := [];
    if !Truthy(c.openrouterApiKey) {
      missingKeys := missingKeys + ["OPENROUTER_API_KEY"];
    }
    if !Truthy(c.groqApiKey) {
      missingKeys := missingKeys + ["GROQ_API_KEY"];
    }
    if !Truthy(c.serperApiKey) {
      missingKeys := missingKeys + ["SERPER_API_KEY"];
    }
    MissingNamesOfKeyTable(c);
    assert missingKeys == MissingNames(KeyTable(c));
    if |missingKeys| > 0 {
      return Failure(ValueError(MissingKeysMessage + Join(", ", missingKeys)));
    }
    return Success(true);
  }

  /** Validation passes exactly when all three keys are present and non-empty. */
  lemma ValidationPassesIffAllKeys(c: Config)
    ensures MissingNames(KeyTable(c)) == [] <==>
              Truthy(c.openrouterApiKey) && Truthy(c.groqApiKey) && Truthy(c.serperApiKey)
  {
    MissingNamesOfKeyTable(c);
  }

  /** With no keys at all, every key is reported, in the fixed order. */
  lemma NoKeysReportsAll(c: Config)
    requires !Truthy(c.openrouterApiKey) && !Truthy(c.groqApiKey) && !Truthy(c.serperApiKey)
    ensures MissingNames(KeyTable(c)) == ["OPENROUTER_API_KEY", "GROQ_API_KEY", "SERPER_API_KEY"]
  {
    MissingNamesOfKeyTable(c);
  }

  /** The key table unrolled: one possible report per key, in order. */
  lemma MissingNamesOfKeyTable(c: Config)
    ensures MissingNames(KeyTable(c)) ==
              (if Truthy(c.openrouterApiKey) then [] else ["OPENROUTER_API_KEY"]) +
              (if Truthy(c.groqApiKey) then [] else ["GROQ_API_KEY"]) +
              (if Truthy(c.serperApiKey) then [] else ["SERPER_API_KEY"])
  {
    var t := KeyTable(c);
    var t1 := [("GROQ_API_KEY", c.groqApiKey), ("SERPER_API_KEY", c.serperApiKey)];
    var t2 := [("SERPER_API_KEY", c.serperApiKey)];
    assert t[1..] == t1 && t1[1..] == t2 && t2[1..] == [];
    assert MissingNames(t2) == (if Truthy(c.serperApiKey) then [] else ["SERPER_API_KEY"]) + MissingNames([]);
    assert MissingNames(t1) == (if Truthy(c.groqApiKey) then [] else ["GROQ_API_KEY"]) + MissingNames(t2);
    assert MissingNames(t) == (if Truthy(c.openrouterApiKey) then [] else ["OPENROUTER_API_KEY"]) + MissingNames(t1);
  }
}
