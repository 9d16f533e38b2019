/** The OpenAI chat-completions provider (providers/openai_client.py). */
module OpenAIClient {
  import opened Outcomes
  import opened JsonValue
  import opened Http

  const DefaultBaseUrl: string := "https://api.openai.com/v1"
  const DefaultModel: string := "gpt-3.5-turbo"

  /** `get_available_models`. */
  const Catalogue: seq<string> := ["gpt-4", "gpt-4-turbo-preview", "gpt-3.5-turbo", "gpt-3.5-turbo-16k"]

  function Headers(apiKey: string): seq<(string, string)>
  {
    [("Authorization", "Bearer " + apiKey), ("Content-Type", "application/json")]
  }

  /** `{"model": ..., "messages": ..., **kwargs}`, then `max_tokens` when it is truthy. */
  function Payload(prompt: string, model: string, maxTokens: Option<int>, kwargs: Dict): Dict
  {
    var payload := Merge([("model", JStr(model)), ("messages", UserMessages(prompt))], kwargs);
    if TruthyInt(maxTokens) then Put(payload, "max_tokens", JInt(maxTokens.value)) else payload
  }

  /** A truthy `max_tokens` wins over one in kwargs; otherwise kwargs decide.
      kwargs also override the model and the messages. */
  lemma PayloadLookup(prompt: string, model: string, maxTokens: Option<int>, kwargs: Dict)
    requires UniqueKeys(kwargs)
    ensures Lookup(Payload(prompt, model, maxTokens, kwargs), "max_tokens") ==
      if TruthyInt(maxTokens) then Some(JInt(maxTokens.value)) else Lookup(kwargs, "max_tokens")
    ensures Lookup(Payload(prompt, model, maxTokens, kwargs), "model") ==
      if Lookup(kwargs, "model").Some? then Lookup(kwargs, "model") else Some(JStr(model))
    ensures Lookup(Payload(prompt, model, maxTokens, kwargs), "messages") ==
      if Lookup(kwargs, "messages").Some? then Lookup(kwargs, "messages") else Some(UserMessages(prompt))
  {
    var base := [("model", JStr(model)), ("messages", UserMessages(prompt))];
    var merged := Merge(base, kwargs);
    MergeLookup(base, kwargs, "max_tokens");
    MergeLookup(base, kwargs, "model");
    MergeLookup(base, kwargs, "messages");
    if TruthyInt(maxTokens) {
      PutLookup(merged, "max_tokens", JInt(maxTokens.value), "max_tokens");
      PutLookup(merged, "max_tokens", JInt(maxTokens.value), "model");
      PutLookup(merged, "max_tokens", JInt(maxTokens.value), "messages");
    }
  }

  /** `result["choices"][0]["message"]["content"]`. */
  function ReplyText(body: Json): Result<Json>
  {
    IndexPath(body, [KStr("choices"), KInt(0), KStr("message"), KStr("content")])
  }

  /** A reply of the documented shape yields its first choice's content. */
  lemma ReplyTextOfChoice(content: Json, more: seq<Json>)
    ensures ReplyText(JObj([("choices", JArr([JObj([("message", JObj([("content", content)]))])] + more))])) == Ok(content)
  {
  }

  /** What `generate_response` makes of the call's outcome. */
  function Complete(outcome: Outcome): Result<Json>
  {
    match outcome
    case Reply(body) => ReplyText(body)
    case CallError(msg) => Err(ValueError("Erro ao chamar OpenAI: " + msg))
    case Undecodable(msg) => Err(JsonDecodeError(msg))
  }

  class OpenAIProvider {
    const apiKey: Option<string>
    const baseUrl: string

    constructor(apiKey: Option<string>, baseUrl: Option<string>)
      ensures this.apiKey == apiKey
      ensures this.baseUrl == StrOr(baseUrl, DefaultBaseUrl)
    {
      this.apiKey := apiKey;
      this.baseUrl := StrOr(baseUrl, DefaultBaseUrl);
    }

    /** The request `generate_response` sends. */
    function ChatRequest(prompt: string, model: string, maxTokens: Option<int>, kwargs: Dict): (req: Request)
      requires Truthy(apiKey)
      ensures req.url == baseUrl + "/chat/completions"
      ensures req.headers == [("Authorization", "Bearer " + apiKey.value), ("Content-Type", "application/json")]
      ensures req.body == JObj(Payload(prompt, model, maxTokens, kwargs))
    {
      Request(baseUrl + "/chat/completions", Headers(apiKey.value), JObj(Payload(prompt, model, maxTokens, kwargs)))
    }

    /** `generate_response`: without an API key nothing is sent. */
    function Generate(prompt: string, model: string, maxTokens: Option<int>, kwargs: Dict,
                      send: Request -> Outcome): (r: Result<Json>)
      ensures !Truthy(apiKey) ==> r == Err(ValueError("OpenAI API key não configurada"))
      ensures Truthy(apiKey) ==> r == Complete(send(ChatRequest(prompt, model, maxTokens, kwargs)))
    {
      if !Truthy(apiKey) then Err(ValueError("OpenAI API key não configurada"))
      else Complete(send(ChatRequest(prompt, model, maxTokens, kwargs)))
    }
  }
}
