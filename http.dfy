/** The boundary to the model services: a request as the providers build it,
    and what comes back from sending it. The sending itself (httpx, boto3) is
    not modelled; operations that send take it as a function parameter. */
module Http {
  import opened JsonValue

  /** A POST with a JSON body; `headers` in the order the source writes them. */
  datatype Request = Request(url: string, headers: seq<(string, string)>, body: Json)

  /** The outcome of one call: the decoded JSON reply; an error of the
      transport or SDK (`httpx.HTTPError` after `raise_for_status`, or
      botocore's `ClientError`); or a reply that is not valid JSON. */
  datatype Outcome = Reply(body: Json) | CallError(msg: string) | Undecodable(msg: string)

  /** `[{"role": "user", "content": prompt}]`, the one-message chat list. */
  function UserMessages(prompt: string): Json
  {
    JArr([JObj([("role", JStr("user")), ("content", JStr(prompt))])])
  }
}
