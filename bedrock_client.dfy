/** The AWS Bedrock provider (providers/bedrock_client.py). The runtime client
    is created lazily; the SDK call is a function parameter. */
module BedrockClient {
  import opened Outcomes
  import opened Text
  import opened JsonValue
  import opened Http

  const DefaultRegion: string := "us-east-1"
  const DefaultModel: string := "anthropic.claude-v2"
  const AnthropicVersion: string := "bedrock-2023-05-31"
  const DefaultMaxTokens: int := 4096

  /** `get_available_models`. */
  const Catalogue: seq<string> := [
    "anthropic.claude-v2", "anthropic.claude-v2:1", "anthropic.claude-instant-v1",
    "amazon.titan-text-lite-v1", "amazon.titan-text-express-v1", "ai21.j2-ultra", "ai21.j2-mid"]

  /** The settings `boto3.client("bedrock-runtime", ...)` is created with. */
  datatype ClientConfig = ClientConfig(service: string, accessKeyId: Option<string>,
                                       secretAccessKey: Option<string>, region: string)

  /** One `invoke_model` call; the body is the JSON value `json.dumps` encodes. */
  datatype Invocation = Invocation(modelId: string, body: Json, contentType: string, accept: string)

  /** `"claude" in model.lower()`. */
  predicate IsClaude(model: string)
  {
    Contains(Lower(model), "claude")
  }

  /** The request body: the Anthropic messages shape for Claude models, the
      generic text-generation shape (with kwargs merged into its config) for
      any other model. */
  function Body(prompt: string, model: string, maxTokens: Option<int>, kwargs: Dict): Json
  {
    var budget := JInt(IntOr(maxTokens, DefaultMaxTokens));
    if IsClaude(model) then
      JObj([("anthropic_version", JStr(AnthropicVersion)), ("max_tokens", budget),
            ("messages", UserMessages(prompt))])
    else
      JObj([("inputText", JStr(prompt)),
            ("textGenerationConfig", JObj(Merge([("maxTokenCount", budget)], kwargs)))])
  }

  /** In both shapes the budget is `max_tokens or 4096`; only the generic
      shape sees kwargs, and a `maxTokenCount` among them wins. */
  lemma BodyBudget(prompt: string, model: string, maxTokens: Option<int>, kwargs: Dict)
    requires UniqueKeys(kwargs)
    ensures var budget := JInt(if TruthyInt(maxTokens) then maxTokens.value else 4096);
      var body := Body(prompt, model, maxTokens, kwargs);
      body.JObj? &&
      (IsClaude(model) ==> Lookup(body.fields, "max_tokens") == Some(budget) &&
                           Lookup(body.fields, "messages") == Some(UserMessages(prompt))) &&
      (!IsClaude(model) ==>
        Lookup(body.fields, "inputText") == Some(JStr(prompt)) &&
        Lookup(body.fields, "textGenerationConfig").Some? &&
        Lookup(body.fields, "textGenerationConfig").value.JObj? &&
        Lookup(Lookup(body.fields, "textGenerationConfig").value.fields, "maxTokenCount") ==
          if Lookup(kwargs, "maxTokenCount").Some? then Lookup(kwargs, "maxTokenCount") else Some(budget))
  {
    var budget := JInt(IntOr(maxTokens, DefaultMaxTokens));
    if IsClaude(model) {
      var fields := [("anthropic_version", JStr(AnthropicVersion)), ("max_tokens", budget),
                     ("messages", UserMessages(prompt))];
      LookupAt(fields, 1);
      LookupAt(fields, 2);
    } else {
      var config := Merge([("maxTokenCount", budget)], kwargs);
      var fields := [("inputText", JStr(prompt)), ("textGenerationConfig", JObj(config))];
      LookupAt(fields, 1);
      MergeLookup([("maxTokenCount", budget)], kwargs, "maxTokenCount");
    }
  }

  /** The model test ignores case. */
  lemma IsClaudeIgnoresCase(model: string)
    ensures IsClaude(model) <==> IsClaude(Lower(model))
  {
    LowerIdempotent(model);
  }

  /** A model id with "claude" at position `k` (in lower case already) takes the Claude body. */
  lemma ClaudeAt(model: string, k: nat)
    requires k + 6 <= |model| && model[k..k + 6] == "claude"
    ensures IsClaude(model)
  {
    var low := Lower(model);
    forall i | k <= i < k + 6 ensures low[i] == model[i] {
      assert model[i] == "claude"[i - k];
    }
    assert low[k..k + 6] == model[k..k + 6];
    ContainsAt(low, "claude", k);
  }

  /** A model id with no `c` in either case takes the generic body. */
  lemma NotClaude(model: string)
    requires 'c' !in model && 'C' !in model
    ensures !IsClaude(model)
  {
    var low := Lower(model);
    assert 'c' !in low by {
      forall i | 0 <= i < |low| ensures low[i] != 'c' {
        assert model[i] in model;
      }
    }
    NotContainsWithout(low, "claude", 'c', 0);
  }

  /** The three Anthropic catalogue ids take the Claude body and reply shape. */
  lemma CatalogueClaude()
    ensures forall i :: 0 <= i < 3 ==> IsClaude(Catalogue[i])
  {
    ClaudeAt(Catalogue[0], 10);
    ClaudeAt(Catalogue[1], 10);
    ClaudeAt(Catalogue[2], 10);
  }

  /** The Titan and Jurassic catalogue ids take the generic body and reply shape. */
  lemma CatalogueGeneric()
    ensures forall i :: 3 <= i < 7 ==> !IsClaude(Catalogue[i])
  {
    NotClaude(Catalogue[3]);
    NotClaude(Catalogue[4]);
    NotClaude(Catalogue[5]);
    NotClaude(Catalogue[6]);
  }

  /** Of the seven catalogue ids, the three Anthropic ones take the Claude
      body and reply shape, the Titan and Jurassic ones the generic one. */
  lemma CatalogueShapes()
    ensures |Catalogue| == 7
    ensures forall i :: 0 <= i < 3 ==> IsClaude(Catalogue[i])
    ensures forall i :: 3 <= i < 7 ==> !IsClaude(Catalogue[i])
  {
    CatalogueClaude();
    CatalogueGeneric();
  }

  /** The reply text: `content[0].text` for Claude, otherwise
      `results[0].outputText` with `[{}]` and `""` as defaults. */
  function ReplyText(model: string, body: Json): Result<Json>
  {
    if IsClaude(model) then IndexPath(body, [KStr("content"), KInt(0), KStr("text")])
    else
      var results :- GetOr(body, "results", JArr([JObj([])]));
      var first :- Index(results, KInt(0));
      GetOr(first, "outputText", JStr(""))
  }

  /** For a generic model, a reply without `results` gives "", and one whose
      first result has `outputText` gives that text. */
  lemma GenericReplyText(model: string, text: Json, more: seq<Json>)
    requires !IsClaude(model)
    ensures ReplyText(model, JObj([])) == Ok(JStr(""))
    ensures ReplyText(model, JObj([("results", JArr([JObj([("outputText", text)])] + more))])) == Ok(text)
  {
  }

  /** What `_invoke_bedrock` makes of the call's outcome. */
  function Complete(model: string, outcome: Outcome): Result<Json>
  {
    match outcome
    case Reply(body) => ReplyText(model, body)
    case CallError(msg) => Err(ValueError("Erro ao chamar Bedrock: " + msg))
    case Undecodable(msg) => Err(JsonDecodeError(msg))
  }

  class BedrockProvider {
    const accessKeyId: Option<string>
    const secretAccessKey: Option<string>
    const region: string
    /** `_bedrock_client`: `None` until the first call needs it. */
    var client: Option<ClientConfig>

    constructor(accessKeyId: Option<string>, secretAccessKey: Option<string>, region: Option<string>)
      ensures this.accessKeyId == accessKeyId && this.secretAccessKey == secretAccessKey
      ensures Truthy(region) ==> this.region == region.value
      ensures !Truthy(region) ==> this.region == DefaultRegion
      ensures client == None
    {
      this.accessKeyId := accessKeyId;
      this.secretAccessKey := secretAccessKey;
      this.region := StrOr(region, DefaultRegion);
      client := None;
    }

    function Config(): ClientConfig
    {
      ClientConfig("bedrock-runtime", accessKeyId, secretAccessKey, region)
    }

    /** Both credentials are set. */
    predicate HasCredentials()
    {
      Truthy(accessKeyId) && Truthy(secretAccessKey)
    }

    /** `_get_bedrock_client`: created on first use, then reused. */
    method GetClient() returns (c: ClientConfig)
      modifies this
      ensures old(client).Some? ==> c == old(client).value
      ensures old(client).None? ==> c == Config()
      ensures client == Some(c)
    {
      if client.None? {
        client := Some(Config());
      }
      c := client.value;
    }

    /** `generate_response`: the credential check comes before the client is
      created or any call is made. */
    method Generate(prompt: string, model: string, maxTokens: Option<int>, kwargs: Dict,
                    invoke: (ClientConfig, Invocation) -> Outcome) returns (r: Result<Json>)
      modifies this
      ensures !HasCredentials() ==> r == Err(ValueError("Credenciais AWS não configuradas")) && client == old(client)
      ensures HasCredentials() ==>
        var c := if old(client).Some? then old(client).value else Config();
        client == Some(c) &&
        r == Complete(model, invoke(c, Invocation(model, Body(prompt, model, maxTokens, kwargs),
                                                 "application/json", "application/json")))
    {
      if !HasCredentials() {
        return Err(ValueError("Credenciais AWS não configuradas"));
      }
      var c := GetClient();
      var body := Body(prompt, model, maxTokens, kwargs);
      var outcome := invoke(c, Invocation(model, body, "application/json", "application/json"));
      r := Complete(model, outcome);
    }
  }
}
