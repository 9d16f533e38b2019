/** The Anthropic messages provider (providers/anthropic_client.py). */
module AnthropicClient {
  import opened Outcomes
  import opened JsonValue
  import opened Http

  const DefaultBaseUrl: string := "https://api.anthropic.com/v1"
  const DefaultModel: string := "claude-3-5-sonnet-20241022"
  const ApiVersion: string := "2023-06-01"
  const DefaultMaxTokens: int := 4096

  /** `get_available_models`, newest first. */
  const Catalogue: seq<string> := [
    "claude-3-5-sonnet-20241022", "claude-3-5-sonnet-20240620", "claude-3-5-sonnet",
    "claude-3-5-haiku-20241022", "claude-3-5-haiku-20240620", "claude-3-5-haiku",
    "claude-3-opus-20240229", "claude-3-sonnet-20240229", "claude-3-haiku-20240307"]

  function Headers(apiKey: string): seq<(string, string)>
  {
    [("x-api-key", apiKey), ("anthropic-version", ApiVersion), ("Content-Type", "application/json")]
  }

  /** `{"model": ..., "messages": ..., "max_tokens": max_tokens or 4096, **kwargs}`. */
  function Payload(prompt: string, model: string, maxTokens: Option<int>, kwargs: Dict): Dict
  {
    Merge([("model", JStr(model)), ("messages", UserMessages(prompt)),
           ("max_tokens", JInt(IntOr(maxTokens, DefaultMaxTokens)))], kwargs)
  }

  /** The budget is `max_tokens or 4096`, unless kwargs carry their own
      `max_tokens`, which is applied last and wins. */
  lemma PayloadMaxTokens(prompt: string, model: string, maxTokens: Option<int>, kwargs: Dict)
    requires UniqueKeys(kwargs)
    ensures Lookup(Payload(prompt, model, maxTokens, kwargs), "max_tokens") ==
      if Lookup(kwargs, "max_tokens").Some? then Lookup(kwargs, "max_tokens")
      else Some(JInt(if TruthyInt(maxTokens) then maxTokens.value else 4096))
  {
    var base := [("model", JStr(model)), ("messages", UserMessages(prompt)),
                 ("max_tokens", JInt(IntOr(maxTokens, DefaultMaxTokens)))];
    LookupAt(base, 2);
    MergeLookup(base, kwargs, "max_tokens");
  }

  /** `result["content"][0]["text"]`. */
  function ReplyText(body: Json): Result<Json>
  {
    IndexPath(body, [KStr("content"), KInt(0), KStr("text")])
  }

  /** A reply of the documented shape yields its first block's text. */
  lemma ReplyTextOfBlock(text: Json, more: seq<Json>)
    ensures ReplyText(JObj([("content", JArr([JObj([("type", JStr("text")), ("text", text)])] + more))])) == Ok(text)
  {
    LookupAt([("type", JStr("text")), ("text", text)], 1);
  }

  function Complete(outcome: Outcome): Result<Json>
  {
    match outcome
    case Reply(body) => ReplyText(body)
    case CallError(msg) => Err(ValueError("Erro ao chamar Anthropic: " + msg))
    case Undecodable(msg) => Err(JsonDecodeError(msg))
  }

  class AnthropicProvider {
    const apiKey: Option<string>
    const baseUrl: string

    /** `base_url or ".../v1"`: the default applies only to a missing or empty URL. */
    constructor(apiKey: Option<string>, baseUrl: Option<string>)
      ensures this.apiKey == apiKey
      ensures Truthy(baseUrl) ==> this.baseUrl == baseUrl.value
      ensures !Truthy(baseUrl) ==> this.baseUrl == DefaultBaseUrl
    {
      this.apiKey := apiKey;
      this.baseUrl := StrOr(baseUrl, DefaultBaseUrl);
    }

    function MessagesRequest(prompt: string, model: string, maxTokens: Option<int>, kwargs: Dict): (req: Request)
      requires Truthy(apiKey)
      ensures req.url == baseUrl + "/messages"
      ensures req.headers == [("x-api-key", apiKey.value), ("anthropic-version", "2023-06-01"),
                              ("Content-Type", "application/json")]
      ensures req.body == JObj(Payload(prompt, model, maxTokens, kwargs))
    {
      Request(baseUrl + "/messages", Headers(apiKey.value), JObj(Payload(prompt, model, maxTokens, kwargs)))
    }

    /** `generate_response`: without an API key nothing is sent. */
    function Generate(prompt: string, model: string, maxTokens: Option<int>, kwargs: Dict,
                      send: Request -> Outcome): (r: Result<Json>)
      ensures !Truthy(apiKey) ==> r == Err(ValueError("Anthropic API key não configurada"))
      ensures Truthy(apiKey) ==> r == Complete(send(MessagesRequest(prompt, model, maxTokens, kwargs)))
    {
      if !Truthy(apiKey) then Err(ValueError("Anthropic API key não configurada"))
      else Complete(send(MessagesRequest(prompt, model, maxTokens, kwargs)))
    }
  }
}
