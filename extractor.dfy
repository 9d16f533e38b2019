/** The information extractor (extract/extractor.py): a prompt asking an
    OpenAI chat model for named fields, the reply read as JSON (directly, or
    from a markdown code fence), and the outcome packed into an
    `ExtractionResult`. The chat call and `json.loads` are parameters. */
module Extractor {
  import opened Outcomes
  import opened Text
  import opened JsonValue

  const DefaultModel: string := "gpt-3.5-turbo"

  const ApiKeyRequired: string :=
    "OpenAI API key is required. Set OPENAI_API_KEY environment variable or pass api_key parameter."

  const Header: string := "Extract the following information from the text below:"

  const ClosingLead: string := "Provide the extracted information as a "
  const ClosingRest: string :=
    " object with the specified fields as keys. "
    + "If a field cannot be found, use null as the value. "
    + "Return only the JSON object, nothing else."
  const Closing: string := ClosingLead + "JSON" + ClosingRest

  const SystemMessage: string :=
    "You are a helpful assistant that extracts structured information from text. Respond only with JSON format."

  const ParseFailure: string := "Failed to parse JSON from LLM response"

  /** The `TypeError` text of `json.loads(None)`, raised when the reply has no content. */
  const NoneContent: string := "the JSON object must be str, bytes or bytearray, not NoneType"

  const Fence: string := "```"

  /** `ExtractionResult`: `data` defaults to `{}`, `error` and `raw_response` to `None`. */
  datatype ExtractionResult = ExtractionResult(success: bool, data: Dict, error: Option<string>,
                                               rawResponse: Option<string>)

  /** The chat request `extract` sends: a system message, the prompt as the
      user message, temperature 0.1 and at most 1000 tokens. */
  datatype ChatRequest = ChatRequest(model: string, system: string, user: string, temperature: string,
                                     maxTokens: int)

  function Request(model: string, prompt: string): ChatRequest
  {
    ChatRequest(model, SystemMessage, prompt, "0.1", 1000)
  }

  /** `api_key or os.getenv("OPENAI_API_KEY")`, refused when neither is set. */
  function ResolveApiKey(apiKey: Option<string>, env: Option<string>): (r: Result<string>)
    ensures Truthy(apiKey) ==> r == Ok(apiKey.value)
    ensures !Truthy(apiKey) && Truthy(env) ==> r == Ok(env.value)
    ensures !Truthy(apiKey) && !Truthy(env) ==> r == Err(ValueError(ApiKeyRequired))
    ensures r.Ok? ==> r.value != ""
  {
    if Truthy(apiKey) then Ok(apiKey.value)
    else if Truthy(env) then Ok(env.value)
    else Err(ValueError(ApiKeyRequired))
  }

  /** The lines that `instructions` adds when it is neither `None` nor empty. */
  function InstructionLines(instructions: Option<string>): seq<string>
  {
    if Truthy(instructions) then ["Additional instructions: " + instructions.value, ""] else []
  }

  /** The lines every prompt ends with. */
  function TailLines(text: string): seq<string>
  {
    ["Text:", text, "", Closing]
  }

  /** The lines `_build_prompt` joins. */
  function PromptLines(text: string, fields: seq<string>, instructions: Option<string>): seq<string>
  {
    [Header, "", "Fields to extract: " + Join(", ", fields), ""] + InstructionLines(instructions) + TailLines(text)
  }

  function SchemaLine(entry: (string, string)): string
  {
    "- " + entry.0 + ": " + entry.1
  }

  /** One line per schema entry, in the schema's order. */
  function SchemaLines(schema: seq<(string, string)>): (r: seq<string>)
    ensures |r| == |schema|
    ensures forall k :: 0 <= k < |schema| ==> r[k] == SchemaLine(schema[k])
  {
    seq(|schema|, k requires 0 <= k < |schema| => SchemaLine(schema[k]))
  }

  const SchemaHead: seq<string> := [Header, "", "Fields to extract:"]

  /** The lines `_build_schema_prompt` joins. */
  function SchemaPromptLines(text: string, schema: seq<(string, string)>, instructions: Option<string>): seq<string>
  {
    SchemaHead + SchemaLines(schema) + [""] + InstructionLines(instructions) + TailLines(text)
  }

  /** The "Additional instructions" line and the blank line after it are
      present exactly when `instructions` is neither `None` nor empty, right
      before the "Text:" line. */
  lemma PromptInstructions(text: string, fields: seq<string>, instructions: Option<string>)
    ensures var lines := PromptLines(text, fields, instructions);
      (Truthy(instructions) <==> |lines| == 10) &&
      (Truthy(instructions) ==> lines[4] == "Additional instructions: " + instructions.value && lines[5] == "") &&
      lines[|lines| - 4] == "Text:" && lines[|lines| - 3] == text
  {
  }

  /** The prompt mentions the fields, joined by ", ", the text, the word
      "JSON", and the instructions when there are any. */
  lemma PromptMentions(text: string, fields: seq<string>, instructions: Option<string>)
    ensures var prompt := Join("\n", PromptLines(text, fields, instructions));
      Contains(prompt, Join(", ", fields)) && Contains(prompt, text) && Contains(prompt, "JSON") &&
      (Truthy(instructions) ==> Contains(prompt, instructions.value))
  {
    var lines := PromptLines(text, fields, instructions);
    var n := |lines|;
    assert lines[n - 3] == text && lines[n - 1] == Closing;
    LineInPrompt(lines, 2, "Fields to extract: ", Join(", ", fields), "");
    LineInPrompt(lines, n - 3, "", text, "");
    LineInPrompt(lines, n - 1, ClosingLead, "JSON", ClosingRest);
    if Truthy(instructions) {
      LineInPrompt(lines, 4, "Additional instructions: ", instructions.value, "");
    }
  }

  /** A piece of one line is a piece of the prompt. */
  lemma LineInPrompt(lines: seq<string>, k: nat, pre: string, piece: string, post: string)
    requires k < |lines| && lines[k] == pre + piece + post
    ensures Contains(Join("\n", lines), piece)
  {
    JoinHasPart("\n", lines, k);
    ContainsMiddle(pre, piece, post);
    ContainsTransitive(Join("\n", lines), lines[k], piece);
  }

  /** Containment is transitive. */
  lemma ContainsTransitive(s: string, mid: string, sub: string)
    requires Contains(s, mid) && Contains(mid, sub)
    ensures Contains(s, sub)
  {
    var i :| 0 <= i <= |s| - |mid| && OccursAt(s, mid, i);
    var j :| 0 <= j <= |mid| - |sub| && OccursAt(mid, sub, j);
    forall t | 0 <= t < |sub| ensures s[i + j + t] == sub[t] {
      assert s[i..i + |mid|][j + t] == s[i + j + t];
      assert mid[j..j + |sub|][t] == mid[j + t];
    }
    assert s[i + j..i + j + |sub|] == sub;
    assert OccursAt(s, sub, i + j);
  }

  /** The schema prompt lists the entries right after its head, one line
      each and in order, and adds the instruction lines exactly when there
      are instructions. */
  lemma SchemaPromptLayout(text: string, schema: seq<(string, string)>, instructions: Option<string>)
    ensures var lines := SchemaPromptLines(text, schema, instructions);
      (forall k :: 0 <= k < |schema| ==> lines[3 + k] == "- " + schema[k].0 + ": " + schema[k].1) &&
      lines[3 + |schema|] == "" &&
      (Truthy(instructions) <==> |lines| == |schema| + 10) &&
      (Truthy(instructions) ==> lines[4 + |schema|] == "Additional instructions: " + instructions.value)
  {
  }

  /** Each schema entry appears in the prompt as "field: description", and
      so does the text. */
  lemma SchemaPromptMentions(text: string, schema: seq<(string, string)>, instructions: Option<string>, k: nat)
    requires k < |schema|
    ensures var prompt := Join("\n", SchemaPromptLines(text, schema, instructions));
      Contains(prompt, schema[k].0 + ": " + schema[k].1) && Contains(prompt, text)
  {
    var lines := SchemaPromptLines(text, schema, instructions);
    assert lines[3 + k] == "- " + (schema[k].0 + ": " + schema[k].1) + "";
    LineInPrompt(lines, 3 + k, "- ", schema[k].0 + ": " + schema[k].1, "");
    assert lines[|lines| - 3] == "" + text + "";
    LineInPrompt(lines, |lines| - 3, "", text, "");
  }

  /** The end of the run of white space (`\s*`) that starts at `p`. */
  function SkipSpace(s: string, p: nat): (q: nat)
    requires p <= |s|
    ensures p <= q <= |s|
    ensures forall k :: p <= k < q ==> IsSpace(s[k])
    ensures q < |s| ==> !IsSpace(s[q])
    decreases |s| - p
  {
    if p < |s| && IsSpace(s[p]) then SkipSpace(s, p + 1) else p
  }

  /** `\s*```` matches at `q`. */
  predicate FenceAfter(s: string, q: nat)
    requires q <= |s|
  {
    var e := SkipSpace(s, q);
    e + 3 <= |s| && s[e..e + 3] == Fence
  }

  /** `\}` followed by `\s*```` ends at `q`. */
  predicate ClosesAt(s: string, q: nat)
    requires 0 < q <= |s|
  {
    s[q - 1] == '}' && FenceAfter(s, q)
  }

  /** The lazy `.*?`: the first end, from `q` on, at which the group can close. */
  function LazyClose(s: string, q: nat): (r: Option<nat>)
    requires 0 < q <= |s|
    ensures r.Some? ==> q <= r.value <= |s| && ClosesAt(s, r.value)
    decreases |s| - q
  {
    if ClosesAt(s, q) then Some(q)
    else if q == |s| then None
    else LazyClose(s, q + 1)
  }

  /** `g` is a text of at least two characters from `{` to `}` that occurs in `s`. */
  predicate BracedIn(g: string, s: string)
  {
    |g| >= 2 && g[0] == '{' && g[|g| - 1] == '}' && Contains(s, g)
  }

  /** The group of `(?:json)?\s*(\{.*?\})\s*```` matched right after a fence
      at `i`. The optional `json` and the white space runs cannot give back
      anything that would let the match succeed, so each is taken whole. */
  function MatchAt(s: string, i: nat): (r: Option<string>)
    requires i + 3 <= |s|
    ensures r.Some? ==> BracedIn(r.value, s)
  {
    var a := i + 3;
    var b := if StartsWith(s[a..], "json") then a + 4 else a;
    var p := SkipSpace(s, b);
    if p + 2 <= |s| && s[p] == '{' then
      match LazyClose(s, p + 2)
      case Some(q) =>
        ContainsAt(s, s[p..q], p);
        Some(s[p..q])
      case None => None
    else None
  }

  /** `re.search(r'```(?:json)?\s*(\{.*?\})\s*```', s, re.DOTALL).group(1)`,
      searching from index `i`: the leftmost fence at which the rest matches. */
  function SearchFrom(s: string, i: nat): (r: Option<string>)
    requires i <= |s|
    ensures r.Some? ==> BracedIn(r.value, s)
    decreases |s| - i
  {
    if i + 3 > |s| then None
    else
      var m := if s[i..i + 3] == Fence then MatchAt(s, i) else None;
      if m.Some? then m else SearchFrom(s, i + 1)
  }

  function FencedGroup(s: string): (r: Option<string>)
    ensures r.Some? ==> BracedIn(r.value, s)
  {
    SearchFrom(s, 0)
  }

  /** A reply without a backtick has no fenced group. */
  lemma {:induction false} NoFenceNoGroup(s: string, i: nat)
    requires i <= |s| && '`' !in s
    ensures SearchFrom(s, i) == None
    decreases |s| - i
  {
    if i + 3 <= |s| {
      assert s[i] in s;
      assert s[i..i + 3][0] == s[i];
      NoFenceNoGroup(s, i + 1);
    }
  }

  /** The lazy group closes at `t` when no earlier end can close it. */
  lemma {:induction false} LazyCloseFirst(s: string, q: nat, t: nat)
    requires 0 < q <= t <= |s| && ClosesAt(s, t)
    requires forall k :: q <= k < t ==> !ClosesAt(s, k)
    ensures LazyClose(s, q) == Some(t)
    decreases t - q
  {
    if q < t {
      LazyCloseFirst(s, q + 1, t);
    }
  }

  /** Where the pieces of a fenced reply sit. */
  lemma FencedLayout(tag: string, obj: string)
    requires tag == "json" || tag == ""
    requires |obj| >= 2 && obj[0] == '{'
    ensures var s := Fence + tag + "\n" + obj + "\n" + Fence;
      var p := 4 + |tag|;
      |s| == p + |obj| + 4 && s[0..3] == Fence && s[p - 1] == '\n' && s[p..p + |obj|] == obj &&
      s[p + |obj|] == '\n' && s[p + |obj| + 1..] == Fence &&
      (StartsWith(s[3..], "json") <==> tag == "json")
  {
    var s := Fence + tag + "\n" + obj + "\n" + Fence;
    if tag == "" {
      assert s[3..][0] == '\n';
    } else {
      assert s[3..][..4] == tag;
    }
  }

  /** White space then a fence right after `t` lets the group close at `t`. */
  lemma ClosesBeforeFence(s: string, t: nat)
    requires 0 < t && t + 4 <= |s| && s[t - 1] == '}' && s[t] == '\n' && s[t + 1..t + 4] == Fence
    ensures ClosesAt(s, t)
  {
    assert s[t + 1] == '`';
    assert SkipSpace(s, t + 1) == t + 1;
  }

  /** Inside a backtick-free object ending in `}`, the group cannot close. */
  lemma NoCloseInside(s: string, p: nat, obj: string, k: nat)
    requires p + |obj| <= |s| && s[p..p + |obj|] == obj && '`' !in obj && obj != [] && obj[|obj| - 1] == '}'
    requires p < k < p + |obj|
    ensures !FenceAfter(s, k)
  {
    var t := p + |obj|;
    var e := SkipSpace(s, k);
    assert s[t - 1] == obj[|obj| - 1];
    assert e < t;
    assert s[e] == obj[e - p];
    assert obj[e - p] in obj;
    if e + 3 <= |s| {
      assert s[e..e + 3][0] == s[e];
    }
  }

  /** The group right after a fence, when the reply is laid out as a fenced object. */
  lemma MatchFencedObject(s: string, p: nat, obj: string)
    requires 4 <= p && p + |obj| + 4 == |s| && s[0..3] == Fence && s[p - 1] == '\n' && s[p..p + |obj|] == obj
    requires s[p + |obj|] == '\n' && s[p + |obj| + 1..] == Fence
    requires StartsWith(s[3..], "json") <==> p == 8
    requires p == 8 || p == 4
    requires |obj| >= 2 && obj[0] == '{' && obj[|obj| - 1] == '}' && '`' !in obj
    ensures MatchAt(s, 0) == Some(obj)
  {
    var t := p + |obj|;
    assert s[p] == obj[0];
    assert SkipSpace(s, p) == p;
    assert SkipSpace(s, p - 1) == p;
    assert s[t - 1] == obj[|obj| - 1];
    ClosesBeforeFence(s, t);
    forall k | p + 2 <= k < t ensures !ClosesAt(s, k) {
      NoCloseInside(s, p, obj, k);
    }
    LazyCloseFirst(s, p + 2, t);
  }

  /** A `{...}` object without backticks inside a ```` ```json ```` (or bare
      ```` ``` ````) fence, each fence on its own line, is the fenced group. */
  lemma FencedObject(tag: string, obj: string)
    requires tag == "json" || tag == ""
    requires |obj| >= 2 && obj[0] == '{' && obj[|obj| - 1] == '}' && '`' !in obj
    ensures FencedGroup(Fence + tag + "\n" + obj + "\n" + Fence) == Some(obj)
  {
    var s := Fence + tag + "\n" + obj + "\n" + Fence;
    FencedLayout(tag, obj);
    MatchFencedObject(s, 4 + |tag|, obj);
  }

  /** `_parse_json_response`: the whole reply is parsed; when that raises
      `json.JSONDecodeError` the fenced group, if any, is parsed instead,
      and otherwise the original error is raised again. */
  function ParseJsonResponse(raw: string, loads: string -> Result<Json>): (r: Result<Json>)
    ensures loads(raw).Ok? ==> r == loads(raw)
    ensures r != loads(raw) ==> FencedGroup(raw).Some? && r == loads(FencedGroup(raw).value)
  {
    match loads(raw)
    case Ok(v) => Ok(v)
    case Err(e) =>
      if !e.JsonDecodeError? then Err(e)
      else
        match FencedGroup(raw)
        case Some(g) => loads(g)
        case None => Err(e)
  }

  /** A fenced object is read from inside the fence when the reply as a
      whole does not parse. */
  lemma ParseFencedReply(tag: string, obj: string, loads: string -> Result<Json>)
    requires tag == "json" || tag == ""
    requires |obj| >= 2 && obj[0] == '{' && obj[|obj| - 1] == '}' && '`' !in obj
    requires loads(Fence + tag + "\n" + obj + "\n" + Fence).Err?
    requires loads(Fence + tag + "\n" + obj + "\n" + Fence).error.JsonDecodeError?
    ensures ParseJsonResponse(Fence + tag + "\n" + obj + "\n" + Fence, loads) == loads(obj)
  {
    FencedObject(tag, obj);
  }

  /** Without a fenced group the error of the first parse is the result. */
  lemma ParseWithoutFence(raw: string, loads: string -> Result<Json>)
    requires '`' !in raw
    ensures ParseJsonResponse(raw, loads) == loads(raw)
  {
    NoFenceNoGroup(raw, 0);
  }

  /** The result shaping of `extract` and `extract_with_schema`, given what
      the chat call gave back (an exception, or the message content, which
      may be `None`). A reply that does not parse keeps the raw reply; a
      value that is not a dict fails the result model's validation, whose
      message is `invalid`. */
  function Shape(reply: Result<Option<string>>, loads: string -> Result<Json>, invalid: Json -> string)
    : (r: ExtractionResult)
    ensures r.success <==> r.error.None?
    ensures !r.success ==> r.data == []
    ensures reply.Err? ==> r == ExtractionResult(false, [], Some(reply.error.msg), None)
    ensures reply == Ok(None) ==> r == ExtractionResult(false, [], Some(NoneContent), None)
    ensures reply.Ok? && reply.value.Some? ==>
      var raw := reply.value.value;
      var parsed := ParseJsonResponse(raw, loads);
      (r.success <==> parsed.Ok? && parsed.value.JObj?) &&
      (r.success ==> r.data == parsed.value.fields && r.rawResponse == Some(raw)) &&
      (parsed.Err? && parsed.error.JsonDecodeError? ==>
        r == ExtractionResult(false, [], Some(ParseFailure), Some(raw)))
  {
    match reply
    case Err(e) => ExtractionResult(false, [], Some(e.msg), None)
    case Ok(None) => ExtractionResult(false, [], Some(NoneContent), None)
    case Ok(Some(raw)) =>
      match ParseJsonResponse(raw, loads)
      case Err(e) =>
        if e.JsonDecodeError? then ExtractionResult(false, [], Some(ParseFailure), Some(raw))
        else ExtractionResult(false, [], Some(e.msg), None)
      case Ok(JObj(fields)) => ExtractionResult(true, fields, None, Some(raw))
      case Ok(v) => ExtractionResult(false, [], Some(invalid(v)), None)
  }

  /** A reply with no backtick that does not parse fails with the fixed
      message and keeps the raw reply. */
  lemma UnparseableReply(raw: string, loads: string -> Result<Json>, invalid: Json -> string)
    requires '`' !in raw && loads(raw).Err? && loads(raw).error.JsonDecodeError?
    ensures Shape(Ok(Some(raw)), loads, invalid) == ExtractionResult(false, [], Some(ParseFailure), Some(raw))
  {
    ParseWithoutFence(raw, loads);
  }

  /** A fenced JSON object in the reply is the extracted data. */
  lemma FencedReply(tag: string, obj: string, fields: Dict, loads: string -> Result<Json>,
                    invalid: Json -> string)
    requires tag == "json" || tag == ""
    requires |obj| >= 2 && obj[0] == '{' && obj[|obj| - 1] == '}' && '`' !in obj
    requires loads(Fence + tag + "\n" + obj + "\n" + Fence).Err?
    requires loads(Fence + tag + "\n" + obj + "\n" + Fence).error.JsonDecodeError?
    requires loads(obj) == Ok(JObj(fields))
    ensures var raw := Fence + tag + "\n" + obj + "\n" + Fence;
      Shape(Ok(Some(raw)), loads, invalid) == ExtractionResult(true, fields, None, Some(raw))
  {
    ParseFencedReply(tag, obj, loads);
  }

  /** `InformationExtractor`. The OpenAI client it holds is the `complete`
      parameter of its operations. */
  class InformationExtractor {
    const apiKey: string
    const model: string

    constructor(apiKey: string, model: string)
      requires apiKey != ""
      ensures this.apiKey == apiKey && this.model == model
    {
      this.apiKey := apiKey;
      this.model := model;
    }

    /** `_build_prompt`. */
    method BuildPrompt(text: string, fields: seq<string>, instructions: Option<string>) returns (prompt: string)
      ensures prompt == Join("\n", PromptLines(text, fields, instructions))
    {
      var parts := [Header, "", "Fields to extract: " + Join(", ", fields), ""];
      if Truthy(instructions) {
        parts := parts + ["Additional instructions: " + instructions.value, ""];
      }
      parts := parts + ["Text:", text, "", Closing];
      assert parts == PromptLines(text, fields, instructions);
      prompt := Join("\n", parts);
    }

    /** `_build_schema_prompt`: one line per schema entry, appended in order. */
    method BuildSchemaPrompt(text: string, schema: seq<(string, string)>, instructions: Option<string>)
      returns (prompt: string)
      ensures prompt == Join("\n", SchemaPromptLines(text, schema, instructions))
    {
      var parts := SchemaHead;
      var i := 0;
      while i < |schema|
        invariant 0 <= i <= |schema|
        invariant parts == SchemaHead + SchemaLines(schema)[..i]
      {
        parts := parts + ["- " + schema[i].0 + ": " + schema[i].1];
        i := i + 1;
      }
      parts := parts + [""];
      if Truthy(instructions) {
        parts := parts + ["Additional instructions: " + instructions.value, ""];
      }
      parts := parts + ["Text:", text, "", Closing];
      assert parts == SchemaPromptLines(text, schema, instructions);
      prompt := Join("\n", parts);
    }

    /** `extract`: the prompt goes to the model once, and its reply is shaped. */
    method Extract(text: string, fields: seq<string>, instructions: Option<string>,
                   complete: ChatRequest -> Result<Option<string>>,
                   loads: string -> Result<Json>, invalid: Json -> string)
      returns (r: ExtractionResult)
      ensures r == Shape(complete(Request(model, Join("\n", PromptLines(text, fields, instructions)))), loads, invalid)
    {
      var prompt := BuildPrompt(text, fields, instructions);
      r := Shape(complete(Request(model, prompt)), loads, invalid);
    }

    /** `extract_with_schema`: as `extract`, with the schema prompt. */
    method ExtractWithSchema(text: string, schema: seq<(string, string)>, instructions: Option<string>,
                             complete: ChatRequest -> Result<Option<string>>,
                             loads: string -> Result<Json>, invalid: Json -> string)
      returns (r: ExtractionResult)
      ensures r == Shape(complete(Request(model, Join("\n", SchemaPromptLines(text, schema, instructions)))),
                         loads, invalid)
    {
      var prompt := BuildSchemaPrompt(text, schema, instructions);
      r := Shape(complete(Request(model, prompt)), loads, invalid);
    }
  }

  /** `InformationExtractor(api_key, model)`: the key given, else the one in
      the environment; neither gives `ValueError`. */
  method NewExtractor(apiKey: Option<string>, env: Option<string>, model: string := DefaultModel)
    returns (r: Result<InformationExtractor>)
    ensures r.Err? <==> ResolveApiKey(apiKey, env).Err?
    ensures r.Err? ==> r.error == ValueError(ApiKeyRequired)
    ensures r.Ok? ==> fresh(r.value) && r.value.apiKey == ResolveApiKey(apiKey, env).value && r.value.model == model
  {
    var key := ResolveApiKey(apiKey, env);
    if key.Err? {
      return Err(key.error);
    }
    var x := new InformationExtractor(key.value, model);
    r := Ok(x);
  }
}
