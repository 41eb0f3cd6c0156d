/**
 * What the three completion proxies share: the chat Lambda in its
 * TypeScript (infrastructure/lambda/chat/index.ts) and JavaScript
 * (infrastructure/lambda/chat/index.js) versions, and the streaming Next.js
 * route (src/app/api/chat/route.ts). Each takes `{system, history, prompt}`,
 * sends `[system, ...history, prompt]` to the completion service and maps
 * the outcome to an HTTP response. The service and `JSON.parse` are oracles;
 * the two environment variables are parameters.
 */
module ChatProxy {
  import opened Wrappers
  import opened Strings
  import opened Js
  import opened OpenAi

  const DefaultSystem := "You are a helpful assistant for a group chat."
  const KeyNotSet := "OPENAI_API_KEY not set"
  const MethodNotAllowedText := "Method Not Allowed"
  /** `temperature: 0.6`, in tenths. */
  const ProxyTemperature := 6

  /** `OPENAI_API_KEY` and `OPENAI_MODEL`. */
  datatype Env = Env(apiKey: Option<string>, model: Option<string>)

  /** `event.requestContext`: absent, without `http`, or with an HTTP method. */
  datatype RequestContext = NoContext | NoHttp | Http(verb: string)

  /** A Lambda function-URL event: its request context and its raw body. */
  datatype Event = Event(requestContext: RequestContext, body: Option<string>)

  /** The three inputs after defaulting. */
  datatype Inputs = Inputs(system: Value, history: seq<Value>, prompt: Value)

  /** 405 with a plain-text body, 200 with `{reply}`, 200 passing the
      upstream event stream through, or 500 carrying what was thrown. */
  datatype ProxyResponse =
    | MethodNotAllowed
    | Reply(answer: Value)
    | Streamed(events: string)
    | ServerError(error: Error)

  function StatusCode(r: ProxyResponse): nat {
    match r
    case MethodNotAllowed => 405
    case Reply(_) => 200
    case Streamed(_) => 200
    case ServerError(_) => 500
  }

  /** The Lambdas' response headers: JSON and any-origin CORS on the 200
      and the 500, none on the 405. */
  function LambdaHeaders(r: ProxyResponse): (h: seq<(string, string)>)
    ensures r.MethodNotAllowed? ==> h == []
    ensures (r.Reply? || r.ServerError?) ==>
      ("Access-Control-Allow-Origin", "*") in h && ("Content-Type", "application/json") in h
  {
    if r.MethodNotAllowed? then []
    else [("Content-Type", "application/json"), ("Access-Control-Allow-Origin", "*")]
  }

  /** The body of a Lambda response: the plain-text refusal, `{reply}`, or
      for an `Error` thrown by the code itself `{error: message || 'Internal error'}`. */
  function LambdaBody(r: ProxyResponse): (b: Option<Value>)
    ensures r.MethodNotAllowed? ==> b == Some(Str(MethodNotAllowedText))
    ensures r.Reply? ==> b == Some(Object(map["reply" := r.answer]))
    ensures r.ServerError? && r.error.Raised? && r.error.message != "" ==>
      b == Some(Object(map["error" := Str(r.error.message)]))
  {
    match r
    case MethodNotAllowed => Some(Str(MethodNotAllowedText))
    case Reply(answer) => Some(Object(map["reply" := answer]))
    case Streamed(_) => None
    case ServerError(Raised(m)) => Some(Object(map["error" := Str(if m != "" then m else "Internal error")]))
    case ServerError(_) => None
  }

  /** `OPENAI_MODEL || 'gpt-4o-mini'`. */
  function ModelName(env: Env): (r: string)
    ensures Filled(env.model) ==> r == env.model.value
    ensures !Filled(env.model) ==> r == DefaultModel
  {
    OrElse(env.model, DefaultModel)
  }

  /** The completion request all three proxies send. */
  function CompletionRequest(apiKey: string, env: Env, inputs: Inputs, stream: bool): (r: Request)
    ensures r.authorization == "Bearer " + apiKey && r.model == ModelName(env)
    ensures |r.messages| == |inputs.history| + 2
    ensures r.messages[0] == Msg("system", inputs.system)
    ensures r.messages[|r.messages| - 1] == Msg("user", inputs.prompt)
    ensures r.messages[1..|r.messages| - 1] == inputs.history
    ensures r.temperatureTenths == ProxyTemperature && r.stream == stream && r.maxTokens.None?
  {
    Request("Bearer " + apiKey, ModelName(env), Conversation(inputs.system, inputs.history, inputs.prompt),
            ProxyTemperature, None, stream)
  }

  /** `OpenAI error ${status}: ${text}`. */
  function UpstreamError(status: nat, text: string): (r: string)
    ensures "OpenAI error " <= r
    ensures |r| > 13 && r[13] != ':'
    ensures var d := BeforeFirst(r[13..], ':');
            && (forall i :: 0 <= i < |d| ==> '0' <= d[i] <= '9')
            && DigitsValue(d) == status
            && r[13 + |d|..] == ": " + text
  {
    var d := NatToString(status);
    var r := "OpenAI error " + d + ": " + text;
    assert r[13..] == d + (": " + text);
    assert ':' !in d;
    BeforeFirstOfPrefix(d, ": " + text, ':');
    NatToStringRoundTrip(status);
    r
  }

  /** Lines 34-37 of the TypeScript Lambda and 35-38 of the JavaScript one:
      a missing or empty body is `{}`; a non-array history is `[]`; a falsy
      system or prompt takes its default. `JSON.parse("null")` is a value
      whose members cannot be read. */
  function LambdaInputs(body: Option<string>, parseJson: string -> Option<Value>): (r: Result<Inputs, Error>)
    ensures !Filled(body) ==> r == Success(Inputs(Str(DefaultSystem), [], Str("")))
    ensures Filled(body) && parseJson(body.value).None? ==> r == Failure(SyntaxError)
    ensures Filled(body) && parseJson(body.value).Some? && Nullish(parseJson(body.value).value) ==>
      r == Failure(TypeError)
    ensures Filled(body) && parseJson(body.value).Some? && !Nullish(parseJson(body.value).value) ==>
      var v := parseJson(body.value).value;
      && r.Success?
      && (OptMember(v, "history").Array? ==> r.value.history == OptMember(v, "history").items)
      && (!OptMember(v, "history").Array? ==> r.value.history == [])
      && (Truthy(OptMember(v, "system")) ==> r.value.system == OptMember(v, "system"))
      && (!Truthy(OptMember(v, "system")) ==> r.value.system == Str(DefaultSystem))
      && (Truthy(OptMember(v, "prompt")) ==> r.value.prompt == OptMember(v, "prompt"))
      && (!Truthy(OptMember(v, "prompt")) ==> r.value.prompt == Str(""))
    ensures r.Success? ==> Truthy(r.value.system)
    ensures r.Success? ==> Truthy(r.value.prompt) || r.value.prompt == Str("")
  {
    var parsed :- if Filled(body) then
                    (if parseJson(body.value).Some? then Success(parseJson(body.value).value)
                     else Failure(SyntaxError))
                  else Success(Object(map[]));
    var history :- Member(parsed, "history");
    var system := OptMember(parsed, "system");
    var prompt := OptMember(parsed, "prompt");
    Success(Inputs(Or(system, Str(DefaultSystem)),
                   if history.Array? then history.items else [],
                   Or(prompt, Str(""))))
  }

  /** `callOpenAI` of the two Lambdas: the key check, the call, the status
      check and `res.json()`; `extract` is each version's reading of the
      reply content from the parsed JSON. A rejected `fetch` is a TypeError. */
  function CallOpenAi(inputs: Inputs, env: Env, complete: Request -> Outcome,
                      extract: Value -> Result<Value, Error>): (r: Result<Value, Error>)
    ensures !Filled(env.apiKey) ==> r == Failure(Raised(KeyNotSet))
    ensures Filled(env.apiKey) ==>
      var o := complete(CompletionRequest(env.apiKey.value, env, inputs, false));
      && (o.Unreachable? ==> r == Failure(TypeError))
      && (o.Responded? && !Ok(o) ==> r == Failure(Raised(UpstreamError(o.status, o.text))))
      && (o.Responded? && Ok(o) && o.json.None? ==> r == Failure(SyntaxError))
      && (o.Responded? && Ok(o) && o.json.Some? ==> r == extract(o.json.value))
  {
    if !Filled(env.apiKey) then Failure(Raised(KeyNotSet))
    else
      var o := complete(CompletionRequest(env.apiKey.value, env, inputs, false));
      if o.Unreachable? then Failure(TypeError)
      else if !Ok(o) then Failure(Raised(UpstreamError(o.status, o.text)))
      else if o.json.None? then Failure(SyntaxError)
      else extract(o.json.value)
  }

  /** The part of both Lambda handlers after the method check. */
  function LambdaAnswer(event: Event, env: Env, parseJson: string -> Option<Value>,
                        complete: Request -> Outcome, extract: Value -> Result<Value, Error>): (r: ProxyResponse)
    ensures r.Reply? || r.ServerError?
    ensures LambdaInputs(event.body, parseJson).Failure? ==>
      r == ServerError(LambdaInputs(event.body, parseJson).error)
    ensures LambdaInputs(event.body, parseJson).Success? ==>
      var answer := CallOpenAi(LambdaInputs(event.body, parseJson).value, env, complete, extract);
      r == if answer.Success? then Reply(answer.value) else ServerError(answer.error)
  {
    match LambdaInputs(event.body, parseJson)
    case Failure(e) => ServerError(e)
    case Success(inputs) =>
      match CallOpenAi(inputs, env, complete, extract)
      case Success(answer) => Reply(answer)
      case Failure(e) => ServerError(e)
  }

  /** A missing key is reported before anything is sent, whatever the service
      would have answered. */
  lemma MissingKeySendsNothing(event: Event, env: Env, parseJson: string -> Option<Value>,
                               c1: Request -> Outcome, c2: Request -> Outcome,
                               extract: Value -> Result<Value, Error>)
    requires !Filled(env.apiKey) && LambdaInputs(event.body, parseJson).Success?
    ensures LambdaAnswer(event, env, parseJson, c1, extract) == ServerError(Raised(KeyNotSet))
    ensures LambdaAnswer(event, env, parseJson, c1, extract) == LambdaAnswer(event, env, parseJson, c2, extract)
  {
  }
}

/** infrastructure/lambda/chat/index.ts. */
module ChatLambdaTs {
  import opened Wrappers
  import opened Js
  import opened OpenAi
  import opened ChatProxy

  /** `json.choices?.[0]?.message?.content ?? ''`: only reading `choices` of
      a `null` body can throw. */
  function Content(json: Value): (r: Result<Value, Error>)
    ensures r.Failure? <==> Nullish(json)
    ensures r.Success? ==> !Nullish(r.value)
  {
    var choices :- Member(json, "choices");
    Success(Coalesce(OptMember(OptMember(OptIndex0(choices), "message"), "content"), Str("")))
  }

  /** `handler`. `event.requestContext.http.method` is read unguarded, so an
      event without an HTTP context fails inside the `try`. */
  function Handler(event: Event, env: Env, parseJson: string -> Option<Value>,
                   complete: Request -> Outcome): (r: ProxyResponse)
    ensures !event.requestContext.Http? ==> r == ServerError(TypeError)
    ensures event.requestContext.Http? && event.requestContext.verb != "POST" ==> r == MethodNotAllowed
    ensures event.requestContext == Http("POST") ==> r == LambdaAnswer(event, env, parseJson, complete, Content)
    ensures r.Reply? ==> !Nullish(r.answer)
  {
    match event.requestContext
    case NoContext => ServerError(TypeError)
    case NoHttp => ServerError(TypeError)
    case Http(verb) =>
      if verb != "POST" then MethodNotAllowed
      else LambdaAnswer(event, env, parseJson, complete, Content)
  }

  /** A method other than POST is refused without reading the body or
      calling the service. */
  lemma NonPostIsRefusedAlone(verb: string, b1: Option<string>, b2: Option<string>, env1: Env, env2: Env,
                              p1: string -> Option<Value>, p2: string -> Option<Value>,
                              c1: Request -> Outcome, c2: Request -> Outcome)
    requires verb != "POST"
    ensures Handler(Event(Http(verb), b1), env1, p1, c1) == MethodNotAllowed
    ensures Handler(Event(Http(verb), b1), env1, p1, c1) == Handler(Event(Http(verb), b2), env2, p2, c2)
  {
  }

  /** A successful upstream answer with the expected shape is passed on as
      it is, even when its content is empty or falsy. */
  lemma ContentPassesThrough(content: Value)
    requires !Nullish(content)
    ensures Content(Object(map["choices" := Array([Object(map["message" := Object(map["content" := content])])])]))
            == Success(content)
  {
  }
}

/** infrastructure/lambda/chat/index.js. */
module ChatLambdaJs {
  import opened Wrappers
  import opened Js
  import opened OpenAi
  import opened ChatProxy
  import ChatLambdaTs

  /** `(json.choices && json.choices[0] && json.choices[0].message
      && json.choices[0].message.content) || ''`. */
  function Content(json: Value): (r: Result<Value, Error>)
    ensures r.Failure? <==> Nullish(json)
    ensures r.Success? ==> Truthy(r.value) || r.value == Str("")
  {
    var choices :- Member(json, "choices");
    if !Truthy(choices) then Success(Str(""))
    else
      var first := Index0(choices).value;
      if !Truthy(first) then Success(Str(""))
      else
        var message := Member(first, "message").value;
        if !Truthy(message) then Success(Str(""))
        else Success(Or(Member(message, "content").value, Str("")))
  }

  /** `handler`. The method check is guarded: without a request context or
      its `http` part the request is handled as a POST. */
  function Handler(event: Event, env: Env, parseJson: string -> Option<Value>,
                   complete: Request -> Outcome): (r: ProxyResponse)
    ensures event.requestContext.Http? && event.requestContext.verb != "POST" ==> r == MethodNotAllowed
    ensures !(event.requestContext.Http? && event.requestContext.verb != "POST") ==>
      r == LambdaAnswer(event, env, parseJson, complete, Content)
    ensures r.Reply? ==> Truthy(r.answer) || r.answer == Str("")
  {
    if event.requestContext.Http? && event.requestContext.verb != "POST" then MethodNotAllowed
    else LambdaAnswer(event, env, parseJson, complete, Content)
  }

  /** The two Lambdas read a truthy content the same way. */
  lemma ContentAgreesWhenTruthy(json: Value)
    requires !Nullish(json)
    requires Truthy(ChatLambdaTs.Content(json).value)
    ensures Content(json) == ChatLambdaTs.Content(json)
  {
    var choices := Member(json, "choices").value;
    var ts := ChatLambdaTs.Content(json).value;
    assert ts == OptMember(OptMember(OptIndex0(choices), "message"), "content");
  }

  /** They differ on a falsy but present content: the TypeScript version
      replies `0`, the JavaScript version `''`. */
  lemma ContentDiffersOnZero()
    ensures var json := Object(map["choices" := Array([Object(map["message" := Object(map["content" := Num(0)])])])]);
      ChatLambdaTs.Content(json) == Success(Num(0)) && Content(json) == Success(Str(""))
  {
  }

  /** With an HTTP context, the two Lambdas answer the same request the same
      way whenever the service's content is truthy. */
  lemma LambdasAgree(event: Event, env: Env, parseJson: string -> Option<Value>, complete: Request -> Outcome)
    requires event.requestContext.Http?
    requires forall req :: var o := complete(req);
               o.Responded? && o.json.Some? && !Nullish(o.json.value) ==>
                 Truthy(ChatLambdaTs.Content(o.json.value).value)
    ensures Handler(event, env, parseJson, complete) == ChatLambdaTs.Handler(event, env, parseJson, complete)
  {
    if event.requestContext.verb == "POST" && LambdaInputs(event.body, parseJson).Success? {
      var inputs := LambdaInputs(event.body, parseJson).value;
      if Filled(env.apiKey) {
        var o := complete(CompletionRequest(env.apiKey.value, env, inputs, false));
        if o.Responded? && Ok(o) && o.json.Some? && !Nullish(o.json.value) {
          ContentAgreesWhenTruthy(o.json.value);
        }
      }
    }
  }

  /** Unlike the TypeScript version, an event without a request context is
      answered by calling the service. */
  lemma MissingContextProceeds(body: Option<string>, env: Env, parseJson: string -> Option<Value>,
                               complete: Request -> Outcome)
    ensures Handler(Event(NoContext, body), env, parseJson, complete)
            == LambdaAnswer(Event(NoContext, body), env, parseJson, complete, Content)
    ensures ChatLambdaTs.Handler(Event(NoContext, body), env, parseJson, complete) == ServerError(TypeError)
  {
  }
}

/** src/app/api/chat/route.ts: the streaming route. */
module ChatRoute {
  import opened Wrappers
  import opened Js
  import opened OpenAi
  import opened ChatProxy

  /** `const { history = [], prompt = '', system = … } = await req.json()`:
      a default replaces only an absent (`undefined`) field. */
  function RouteFields(body: Option<Value>): (r: Result<(Value, Value, Value), Error>)
    ensures body.None? ==> r == Failure(SyntaxError)
    ensures body.Some? && Nullish(body.value) ==> r == Failure(TypeError)
    ensures body.Some? && !Nullish(body.value) ==> r.Success?
    ensures r.Success? ==>
      var v := body.value;
      var (history, system, prompt) := r.value;
      && history == (if OptMember(v, "history").Undefined? then Array([]) else OptMember(v, "history"))
      && system == (if OptMember(v, "system").Undefined? then Str(DefaultSystem) else OptMember(v, "system"))
      && prompt == (if OptMember(v, "prompt").Undefined? then Str("") else OptMember(v, "prompt"))
  {
    if body.None? then Failure(SyntaxError)
    else
      var history :- Member(body.value, "history");
      var prompt := OptMember(body.value, "prompt");
      var system := OptMember(body.value, "system");
      Success((if history.Undefined? then Array([]) else history,
               if system.Undefined? then Str(DefaultSystem) else system,
               if prompt.Undefined? then Str("") else prompt))
  }

  /** `...history`: an array spreads its elements, a string its characters;
      anything else is not iterable. */
  function Spread(v: Value): (r: Result<seq<Value>, Error>)
    ensures v.Array? ==> r == Success(v.items)
    ensures r.Failure? <==> !(v.Array? || v.Str?)
    ensures v.Str? ==> r.Success? && |r.value| == |v.s|
  {
    match v
    case Array(items) => Success(items)
    case Str(s) => Success(seq(|s|, i requires 0 <= i < |s| => Str([s[i]])))
    case _ => Failure(TypeError)
  }

  /** `POST`. The key is checked after the body is destructured and before
      the history is spread. */
  function Post(body: Option<Value>, env: Env, complete: Request -> Outcome): (r: ProxyResponse)
    ensures r.Streamed? || r.ServerError?
    ensures RouteFields(body).Failure? ==> r == ServerError(RouteFields(body).error)
    ensures RouteFields(body).Success? && !Filled(env.apiKey) ==> r == ServerError(Raised(KeyNotSet))
    ensures RouteFields(body).Success? && Filled(env.apiKey) && Spread(RouteFields(body).value.0).Failure? ==>
      r == ServerError(TypeError)
    ensures RouteFields(body).Success? && Filled(env.apiKey) && Spread(RouteFields(body).value.0).Success? ==>
      var (history, system, prompt) := RouteFields(body).value;
      var o := complete(CompletionRequest(env.apiKey.value, env,
                                          Inputs(system, Spread(history).value, prompt), true));
      && (o.Unreachable? ==> r == ServerError(TypeError))
      && (o.Responded? && (!Ok(o) || !o.hasBody) ==> r == ServerError(Raised(UpstreamError(o.status, o.text))))
      && (o.Responded? && Ok(o) && o.hasBody ==> r == Streamed(o.text))
  {
    match RouteFields(body)
    case Failure(e) => ServerError(e)
    case Success(fields) =>
      var (history, system, prompt) := fields;
      if !Filled(env.apiKey) then ServerError(Raised(KeyNotSet))
      else
        match Spread(history)
        case Failure(e) => ServerError(e)
        case Success(items) =>
          var o := complete(CompletionRequest(env.apiKey.value, env, Inputs(system, items, prompt), true));
          if o.Unreachable? then ServerError(TypeError)
          else if !Ok(o) || !o.hasBody then ServerError(Raised(UpstreamError(o.status, o.text)))
          else Streamed(o.text)
  }

  /** Response headers: the stream carries the event-stream, no-cache and
      CORS headers; the JSON errors carry none. */
  function Headers(r: ProxyResponse): seq<(string, string)> {
    if r.Streamed? then
      [("Content-Type", "text/event-stream"), ("Cache-Control", "no-cache, no-transform"),
       ("Connection", "keep-alive"), ("Access-Control-Allow-Origin", "*")]
    else []
  }

  /** Explicitly empty or `null` fields are sent upstream as given, where
      the Lambdas would substitute their defaults. */
  lemma EmptyFieldsAreKept(env: Env, complete: Request -> Outcome)
    ensures RouteFields(Some(Object(map["prompt" := Str(""), "system" := Null])))
            == Success((Array([]), Null, Str("")))
    ensures LambdaInputs(Some("{}"), _ => Some(Object(map["prompt" := Str(""), "system" := Null])))
            == Success(Inputs(Str(DefaultSystem), [], Str("")))
  {
  }

  /** Without a key the route answers 500 before looking at the history, so
      even a history that cannot be spread yields the key error. */
  lemma KeyCheckPrecedesSpread(env: Env, complete: Request -> Outcome)
    requires !Filled(env.apiKey)
    ensures Post(Some(Object(map["history" := Null])), env, complete) == ServerError(Raised(KeyNotSet))
  {
  }

  /** A 200 is a stream, and it comes only from an ok answer with a body. */
  lemma StreamOnlyFromOkBody(body: Option<Value>, env: Env, complete: Request -> Outcome)
    requires Post(body, env, complete).Streamed?
    ensures StatusCode(Post(body, env, complete)) == 200
    ensures Filled(env.apiKey) && RouteFields(body).Success? && Spread(RouteFields(body).value.0).Success?
    ensures var (history, system, prompt) := RouteFields(body).value;
      var o := complete(CompletionRequest(env.apiKey.value, env, Inputs(system, Spread(history).value, prompt), true));
      o.Responded? && Ok(o) && o.hasBody && Post(body, env, complete) == Streamed(o.text)
  {
  }
}
