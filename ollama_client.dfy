/** The Ollama provider for local models (providers/ollama_client.py). */
module OllamaClient {
  import opened Outcomes
  import opened JsonValue
  import opened Http

  const DefaultBaseUrl: string := "http://localhost:11434"
  const DefaultModel: string := "llama2"

  /** `get_available_models`: the fallback catalogue. */
  const Catalogue: seq<string> := ["llama2", "llama2:13b", "llama2:70b", "mistral", "codellama", "phi"]

  /** `{"model": ..., "prompt": ..., "stream": False, **kwargs}`, then
      `options` replaced by `{"num_predict": max_tokens}` when it is truthy. */
  function Payload(prompt: string, model: string, maxTokens: Option<int>, kwargs: Dict): Dict
  {
    var payload := Merge([("model", JStr(model)), ("prompt", JStr(prompt)), ("stream", JBool(false))], kwargs);
    if TruthyInt(maxTokens) then Put(payload, "options", JObj([("num_predict", JInt(maxTokens.value))]))
    else payload
  }

  /** `options` carries only `num_predict` when `max_tokens` is truthy, and
      otherwise is whatever kwargs give. */
  lemma PayloadOptions(prompt: string, model: string, maxTokens: Option<int>, kwargs: Dict)
    requires UniqueKeys(kwargs)
    ensures Lookup(Payload(prompt, model, maxTokens, kwargs), "options") ==
      if TruthyInt(maxTokens) then Some(JObj([("num_predict", JInt(maxTokens.value))]))
      else Lookup(kwargs, "options")
  {
    var base := [("model", JStr(model)), ("prompt", JStr(prompt)), ("stream", JBool(false))];
    assert Lookup(base, "options") == None by {
      assert Keys(base) == ["model", "prompt", "stream"];
    }
    MergeLookup(base, kwargs, "options");
    if TruthyInt(maxTokens) {
      PutLookup(Merge(base, kwargs), "options", JObj([("num_predict", JInt(maxTokens.value))]), "options");
    }
  }

  /** `stream` is false unless kwargs override it; `max_tokens` does not touch it. */
  lemma PayloadStream(prompt: string, model: string, maxTokens: Option<int>, kwargs: Dict)
    requires UniqueKeys(kwargs)
    ensures Lookup(Payload(prompt, model, maxTokens, kwargs), "stream") ==
      if Lookup(kwargs, "stream").Some? then Lookup(kwargs, "stream") else Some(JBool(false))
  {
    var base := [("model", JStr(model)), ("prompt", JStr(prompt)), ("stream", JBool(false))];
    LookupAt(base, 2);
    MergeLookup(base, kwargs, "stream");
    if TruthyInt(maxTokens) {
      PutLookup(Merge(base, kwargs), "options", JObj([("num_predict", JInt(maxTokens.value))]), "stream");
    }
  }

  /** `result.get("response", "")`. */
  function ReplyText(body: Json): (r: Result<Json>)
    ensures body.JObj? && Lookup(body.fields, "response").None? ==> r == Ok(JStr(""))
    ensures body.JObj? && Lookup(body.fields, "response").Some? ==> r == Ok(Lookup(body.fields, "response").value)
    ensures !body.JObj? ==> r.Err?
  {
    GetOr(body, "response", JStr(""))
  }

  function Complete(outcome: Outcome): Result<Json>
  {
    match outcome
    case Reply(body) => ReplyText(body)
    case CallError(msg) => Err(ValueError("Erro ao chamar Ollama: " + msg))
    case Undecodable(msg) => Err(JsonDecodeError(msg))
  }

  /** What `for model in x` iterates over: list items, dict keys, string
      characters; `None` for a value that is not iterable. */
  function Iterate(v: Json): Option<seq<Json>>
  {
    match v
    case JArr(items) => Some(items)
    case JObj(fields) => Some(seq(|fields|, i requires 0 <= i < |fields| => JStr(fields[i].0)))
    case JStr(s) => Some(seq(|s|, i requires 0 <= i < |s| => JStr([s[i]])))
    case _ => None
  }

  /** `[m["name"] for m in models]`, or `None` if any subscript raises. */
  function Names(models: seq<Json>): (r: Option<seq<Json>>)
    ensures r.Some? ==> (|r.value| == |models| &&
      forall i :: 0 <= i < |models| ==> Index(models[i], KStr("name")) == Ok(r.value[i]))
    ensures r.None? ==> exists i :: 0 <= i < |models| && Index(models[i], KStr("name")).Err?
  {
    if models == [] then Some([])
    else
      match Index(models[0], KStr("name"))
      case Err(_) => None
      case Ok(name) =>
        match Names(models[1..])
        case None =>
          assert forall i :: 0 <= i < |models| - 1 ==> models[1..][i] == models[i + 1];
          None
        case Some(rest) => Some([name] + rest)
  }

  /** `list_models`: the live names from `/api/tags`, or the catalogue when
      anything goes wrong. */
  function ListModels(tags: Outcome): (r: seq<Json>)
    ensures tags.Reply? ==>
      var got := GetOr(tags.body, "models", JArr([]));
      (got.Ok? && Iterate(got.value).Some? && Names(Iterate(got.value).value).Some? ==>
        r == Names(Iterate(got.value).value).value) &&
      (got.Err? || Iterate(got.value).None? || Names(Iterate(got.value).value).None? ==> r == CatalogueJson())
    ensures !tags.Reply? ==> r == CatalogueJson()
  {
    match tags
    case Reply(body) =>
      (match GetOr(body, "models", JArr([]))
       case Err(_) => CatalogueJson()
       case Ok(models) =>
         match Iterate(models)
         case None => CatalogueJson()
         case Some(items) =>
           match Names(items)
           case None => CatalogueJson()
           case Some(names) => names)
    case _ => CatalogueJson()
  }

  function CatalogueJson(): (r: seq<Json>)
    ensures |r| == |Catalogue| && forall i :: 0 <= i < |Catalogue| ==> r[i] == JStr(Catalogue[i])
  {
    seq(|Catalogue|, i requires 0 <= i < |Catalogue| => JStr(Catalogue[i]))
  }

  /** A tags reply `{"models": [{"name": n0, ...}, ...]}` lists exactly the
      names, in order. */
  lemma ListModelsOfTags(models: seq<Json>, names: seq<Json>)
    requires |models| == |names|
    requires forall i :: 0 <= i < |models| ==> models[i].JObj? && Lookup(models[i].fields, "name") == Some(names[i])
    ensures ListModels(Reply(JObj([("models", JArr(models))]))) == names
  {
    assert forall i :: 0 <= i < |models| ==> Index(models[i], KStr("name")) == Ok(names[i]);
    var r := Names(models);
    assert r.Some?;
    assert r.value == names;
  }

  class OllamaProvider {
    const baseUrl: string

    constructor(baseUrl: Option<string>)
      ensures Truthy(baseUrl) ==> this.baseUrl == baseUrl.value
      ensures !Truthy(baseUrl) ==> this.baseUrl == DefaultBaseUrl
    {
      this.baseUrl := StrOr(baseUrl, DefaultBaseUrl);
    }

    /** The request `generate_response` sends; it has no headers of its own. */
    function GenerateRequest(prompt: string, model: string, maxTokens: Option<int>, kwargs: Dict): (req: Request)
      ensures req.url == baseUrl + "/api/generate" && req.headers == []
      ensures req.body == JObj(Payload(prompt, model, maxTokens, kwargs))
    {
      Request(baseUrl + "/api/generate", [], JObj(Payload(prompt, model, maxTokens, kwargs)))
    }

    /** `generate_response`: there is no credential check. */
    function Generate(prompt: string, model: string, maxTokens: Option<int>, kwargs: Dict,
                      send: Request -> Outcome): (r: Result<Json>)
      ensures r == Complete(send(GenerateRequest(prompt, model, maxTokens, kwargs)))
    {
      Complete(send(GenerateRequest(prompt, model, maxTokens, kwargs)))
    }

    /** The URL `list_models` queries. */
    function TagsUrl(): (url: string)
      ensures url == baseUrl + "/api/tags"
    {
      baseUrl + "/api/tags"
    }
  }
}
