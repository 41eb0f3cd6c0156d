/**
 * The chat-completion endpoint as the code sees it: the request it builds
 * and the outcome it gets back. The service itself is an oracle, a function
 * from request to outcome, passed to every operation that calls it.
 */
module OpenAi {
  import opened Wrappers
  import opened Js

  const DefaultModel := "gpt-4o-mini"

  /** The body and credentials of a POST to /v1/chat/completions. Temperatures
      are given in tenths. */
  datatype Request = Request(
    authorization: string,
    model: string,
    messages: seq<Value>,
    temperatureTenths: nat,
    maxTokens: Option<nat>,
    stream: bool)

  /** `fetch` rejected (network failure), or a response: its status, status
      text, whether it has a body, its body as text, and its body as JSON
      (`None` when `res.json()` would throw). */
  datatype Outcome =
    | Unreachable
    | Responded(status: nat, statusText: string, hasBody: bool, text: string, json: Option<Value>)

  /** `res.ok`. */
  predicate Ok(o: Outcome)
    requires o.Responded?
  {
    200 <= o.status <= 299
  }

  /** `{ role, content }`. */
  function Msg(role: string, content: Value): Value {
    Object(map["role" := Str(role), "content" := content])
  }

  /** `[{role: 'system', content: system}, ...history, {role: 'user', content: prompt}]`. */
  function Conversation(system: Value, history: seq<Value>, prompt: Value): (r: seq<Value>)
    ensures |r| == |history| + 2
    ensures r[0] == Msg("system", system) && r[|r| - 1] == Msg("user", prompt)
    ensures r[1..|r| - 1] == history
  {
    [Msg("system", system)] + history + [Msg("user", prompt)]
  }
}
