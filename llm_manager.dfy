/** The provider gateway (modules/llm_manager.py): a cache of providers keyed
    by lower-cased name over a closed set of four, and the prompt sent to the
    chosen provider. The providers are the four classes of the provider
    modules, told apart by a `Provider` value. */
module LlmManager {
  import opened Outcomes
  import opened Text
  import opened JsonValue
  import opened Http
  import opened Settings
  import OpenAIClient
  import AnthropicClient
  import OllamaClient
  import BedrockClient
  import PromptManager

  datatype Provider =
    | OpenAI(openai: OpenAIClient.OpenAIProvider)
    | Anthropic(anthropic: AnthropicClient.AnthropicProvider)
    | Ollama(ollama: OllamaClient.OllamaProvider)
    | Bedrock(bedrock: BedrockClient.BedrockProvider)

  /** The names `get_provider` accepts, in `get_available_providers` order. */
  const ProviderNames: seq<string> := ["openai", "anthropic", "ollama", "bedrock"]

  const DefaultInstruction: string := "Analise o seguinte documento e forneça um resumo detalhado:\n\n"

  function Kind(p: Provider): string
  {
    match p
    case OpenAI(_) => "openai"
    case Anthropic(_) => "anthropic"
    case Ollama(_) => "ollama"
    case Bedrock(_) => "bedrock"
  }

  function Instance(p: Provider): object
  {
    match p
    case OpenAI(o) => o
    case Anthropic(a) => a
    case Ollama(o) => o
    case Bedrock(b) => b
  }

  /** The provider for `name` carries the configured credentials and URLs. */
  predicate ConfiguredFrom(p: Provider, name: string, s: AppSettings)
  {
    Kind(p) == name &&
    match p
    case OpenAI(o) => o.apiKey == s.openaiApiKey && o.baseUrl == StrOr(Some(s.openaiBaseUrl), OpenAIClient.DefaultBaseUrl)
    case Anthropic(a) =>
      a.apiKey == s.anthropicApiKey && a.baseUrl == StrOr(Some(s.anthropicBaseUrl), AnthropicClient.DefaultBaseUrl)
    case Ollama(o) => o.baseUrl == StrOr(Some(s.ollamaBaseUrl), OllamaClient.DefaultBaseUrl)
    case Bedrock(b) =>
      b.accessKeyId == s.awsAccessKeyId && b.secretAccessKey == s.awsSecretAccessKey &&
      b.region == StrOr(Some(s.awsRegion), BedrockClient.DefaultRegion)
  }

  /** A provider just built for `name`: configured from the settings, and a
      Bedrock provider has no client yet. */
  ghost predicate BuiltFrom(p: Provider, name: string, s: AppSettings)
    reads Instance(p)
  {
    ConfiguredFrom(p, name, s) && (p.Bedrock? ==> p.bedrock.client == None)
  }

  /** The prompt `process_with_llm` sends: a non-empty template is used as
      `format_prompt` would use it, and a missing or empty one gives the
      default instruction. */
  function BuildPrompt(template: Option<string>, content: string): (r: Result<string>)
    ensures !Truthy(template) ==> r == Ok(DefaultInstruction + content)
    ensures Truthy(template) ==> r == PromptManager.FormatPrompt(template.value, content)
  {
    if Truthy(template) then
      if Contains(template.value, Placeholder) then Format(template.value, content)
      else Ok(template.value + "\n\nDocumento:\n" + content)
    else Ok(DefaultInstruction + content)
  }

  /** With the default settings the manager's Anthropic provider posts to
      `https://api.anthropic.com/messages`: the configured URL, which has no
      `/v1`, replaces the provider's own default. */
  lemma DefaultAnthropicUrl()
    ensures StrOr(Some(Defaults.anthropicBaseUrl), AnthropicClient.DefaultBaseUrl) + "/messages"
      == "https://api.anthropic.com/messages"
    ensures StrOr(Some(Defaults.anthropicBaseUrl), AnthropicClient.DefaultBaseUrl) != AnthropicClient.DefaultBaseUrl
  {
    assert |Defaults.anthropicBaseUrl| != |AnthropicClient.DefaultBaseUrl|;
  }

  lemma ProviderNamesListed(key: string)
    ensures key in ProviderNames <==> key == "openai" || key == "anthropic" || key == "ollama" || key == "bedrock"
  {
  }

  /** The `ValueError` message for a provider name `get_provider` does not know. */
  function UnsupportedProvider(key: string): string
  {
    "Provider não suportado: " + key + ". Providers disponíveis: openai, anthropic, ollama, bedrock"
  }

  /** The `if`/`elif` chain of `get_provider`: a known name gets a new
      provider built from the settings, any other name is a `ValueError`. */
  method CreateProvider(key: string, settings: AppSettings) returns (r: Result<Provider>)
    ensures key in ProviderNames ==> r.Ok? && fresh(Instance(r.value)) && BuiltFrom(r.value, key, settings)
    ensures key !in ProviderNames ==>
      r == Err(ValueError(UnsupportedProvider(key)))
  {
    ProviderNamesListed(key);
    if key == "openai" {
      var o := new OpenAIClient.OpenAIProvider(settings.openaiApiKey, Some(settings.openaiBaseUrl));
      r := Ok(OpenAI(o));
    } else if key == "anthropic" {
      var a := new AnthropicClient.AnthropicProvider(settings.anthropicApiKey, Some(settings.anthropicBaseUrl));
      r := Ok(Anthropic(a));
    } else if key == "ollama" {
      var o := new OllamaClient.OllamaProvider(Some(settings.ollamaBaseUrl));
      r := Ok(Ollama(o));
    } else if key == "bedrock" {
      var b := new BedrockClient.BedrockProvider(settings.awsAccessKeyId, settings.awsSecretAccessKey, Some(settings.awsRegion));
      r := Ok(Bedrock(b));
    } else {
      r := Err(ValueError(UnsupportedProvider(key)));
    }
  }

  class Manager {
    const settings: AppSettings
    /** `_providers`: the cache, keyed by lower-cased name. */
    var providers: map<string, Provider>

    /** Every cached provider sits under its own kind's name. */
    ghost predicate Valid()
      reads this
    {
      forall k :: k in providers ==> k in ProviderNames && Kind(providers[k]) == k
    }

    constructor(settings: AppSettings)
      ensures Valid() && this.settings == settings && providers == map[]
    {
      this.settings := settings;
      providers := map[];
    }

    /** `get_available_providers`: the four names `get_provider` accepts. */
    function GetAvailableProviders(): (r: seq<string>)
      ensures Distinct(r) && |r| == 4
      ensures forall n :: n in r ==> Lower(n) == n
      ensures forall n :: Lower(n) in r <==> Lower(n) in ProviderNames
    {
      ProviderNames
    }

    /** `get_provider`: the name is lower-cased; a cached provider is returned
        as it is; a known name not yet cached gets a new provider from the
        settings, which is cached; any other name fails and changes nothing. */
    method GetProvider(name: string) returns (r: Result<Provider>)
      requires Valid()
      modifies this
      ensures Valid()
      ensures var key := Lower(name);
        (key in old(providers) ==> r == Ok(old(providers)[key]) && providers == old(providers)) &&
        (key !in old(providers) && key !in ProviderNames ==>
          r == Err(ValueError(UnsupportedProvider(key))) &&
          providers == old(providers)) &&
        (key !in old(providers) && key in ProviderNames ==>
          r.Ok? && fresh(Instance(r.value)) && BuiltFrom(r.value, key, settings) &&
          providers == old(providers)[key := r.value])
    {
      var key := Lower(name);
      if key in providers {
        return Ok(providers[key]);
      }
      r := CreateProvider(key, settings);
      if r.Ok? {
        providers := providers[key := r.value];
      }
    }

    /** `process_with_llm`: the provider is resolved first, so an unknown name
        fails before the prompt is built; the prompt, model and `max_tokens`
        are handed to the provider as they are, with no further arguments. */
    method ProcessWithLlm(content: string, providerName: string, model: string,
                          template: Option<string>, maxTokens: Option<int>,
                          send: Request -> Outcome,
                          invoke: (BedrockClient.ClientConfig, BedrockClient.Invocation) -> Outcome)
      returns (r: Result<Json>)
      requires Valid()
      modifies this
      modifies if Lower(providerName) in providers && providers[Lower(providerName)].Bedrock?
        then {providers[Lower(providerName)].bedrock} else {}
      ensures Valid()
      // The provider cache, as `get_provider` leaves it.
      ensures Lower(providerName) in old(providers) ==> providers == old(providers)
      ensures Lower(providerName) !in ProviderNames ==> providers == old(providers)
      ensures Lower(providerName) !in old(providers) && Lower(providerName) in ProviderNames ==>
        var key := Lower(providerName);
        key in providers && fresh(Instance(providers[key])) && ConfiguredFrom(providers[key], key, settings) &&
        providers == old(providers)[key := providers[key]]
      // The errors before any provider is called; a cached client stays as it was.
      ensures Lower(providerName) !in ProviderNames ==>
        r == Err(ValueError(UnsupportedProvider(Lower(providerName))))
      ensures Lower(providerName) in ProviderNames && BuildPrompt(template, content).Err? ==>
        r == Err(BuildPrompt(template, content).error) &&
        var key := Lower(providerName);
        (key in old(providers) && old(providers)[key].Bedrock? ==>
          providers[key].bedrock.client == old(providers[key].bedrock.client))
      // Otherwise the prompt, model and `max_tokens` go to the provider.
      ensures Lower(providerName) in ProviderNames && BuildPrompt(template, content).Ok? ==>
        Lower(providerName) in providers &&
        var key := Lower(providerName);
        var p := providers[key];
        var prompt := BuildPrompt(template, content).value;
        (p.OpenAI? ==> r == p.openai.Generate(prompt, model, maxTokens, [], send)) &&
        (p.Anthropic? ==> r == p.anthropic.Generate(prompt, model, maxTokens, [], send)) &&
        (p.Ollama? ==> r == p.ollama.Generate(prompt, model, maxTokens, [], send)) &&
        (p.Bedrock? ==>
          var b := p.bedrock;
          var before := if key in old(providers) then old(providers[key].bedrock.client) else None;
          (!b.HasCredentials() ==> r == Err(ValueError("Credenciais AWS não configuradas")) && b.client == before) &&
          (b.HasCredentials() ==>
            var c := if before.Some? then before.value else b.Config();
            b.client == Some(c) &&
            r == BedrockClient.Complete(model, invoke(c, BedrockClient.Invocation(model,
              BedrockClient.Body(prompt, model, maxTokens, []), "application/json", "application/json")))))
    {
      var provider :- GetProvider(providerName);
      var prompt :- BuildPrompt(template, content);
      match provider
      case OpenAI(o) => r := o.Generate(prompt, model, maxTokens, [], send);
      case Anthropic(a) => r := a.Generate(prompt, model, maxTokens, [], send);
      case Ollama(o) => r := o.Generate(prompt, model, maxTokens, [], send);
      case Bedrock(b) => r := b.Generate(prompt, model, maxTokens, [], invoke);
    }
  }
}
