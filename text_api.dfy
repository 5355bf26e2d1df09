/**
  The request-handling pipeline of the `text_api` Lambda function:
  configuration from the environment, parsing of the inbound event, the call
  to the text model, classification of failures and the response envelope.

  Python's exceptions become `Result<_, Fault>`: `ClientFault` and
  `ServerFault` are the module's own `ClientError` and `ServerError`, and
  `Unclassified` is any other exception, which only the handler's final
  `except Exception` catches. The environment is a `map<string, string>`,
  the event a `map<string, Json.Value>`, the Bedrock client an injected
  function and `json.dumps`/`json.loads` an injected `Json.Codec`.
*/
module TextApi {
  import opened Wrappers
  import opened Json
  import opened Lines

  // ---------------------------------------------------------------------
  // Error taxonomy

  /** A failure raised while handling one request. `input` is the offending
      input the exception carries (logged only, never returned). */
  datatype Fault =
    | ClientFault(input: Value, message: string)
    | ServerFault(input: Value, message: string)
    | Unclassified

  type Outcome<T> = Result<T, Fault>

  const InvalidParameter := "Invalid parameter."
  const EnvNotSet := "Required environment variables are not set."
  const RetryLater := "internal server error. Please access again after some time."
  const ContactOperator := "internal server error. Please contact the operator."
  const ClientErrorPrefix := "client error. "
  /** The error code with which the model service reports its own failure. */
  const InternalServerErrorCode := "InternalServerError"

  // ---------------------------------------------------------------------
  // Configuration

  /** The resolved configuration: its one field, `MODEL_ID`. */
  datatype EnvParam = EnvParam(modelId: string)

  /** The name of every field of `EnvParam`, each read from the environment. */
  const RequiredVariables: seq<string> := ["MODEL_ID"]

  /** The environment as the JSON object `json.dumps` would write. */
  function EnvSnapshot(environ: map<string, string>): (v: Value)
    ensures v.Obj? && v.fields.Keys == environ.Keys
    ensures forall k :: k in environ ==> v.fields[k] == Str(environ[k])
  {
    Obj(map k | k in environ :: Str(environ[k]))
  }

  /** `EnvParam.from_env` as evidently intended: every required variable
      present gives the configuration, otherwise a `ServerFault` carrying a
      snapshot of the environment. */
  function FromEnv(environ: map<string, string>, c: Codec): (r: Outcome<EnvParam>)
    ensures r.Ok? <==> "MODEL_ID" in environ
    ensures r.Ok? ==> r.value.modelId == environ["MODEL_ID"]
    ensures r.Err? ==> r.error.ServerFault? && r.error.message == EnvNotSet
    ensures r.Err? ==> r.error.input == Str(c.dumps(EnvSnapshot(environ)))
  {
    if forall k | k in RequiredVariables :: k in environ then
      Ok(EnvParam(environ["MODEL_ID"]))
    else
      Err(ServerFault(Str(c.dumps(EnvSnapshot(environ))), EnvNotSet))
  }

  /** `EnvParam.from_env` as written: building the `ServerError` calls
      `json.dumps(os.environ)`, and `os.environ` is a mapping but not a
      `dict`, so that call raises `TypeError` and the failure leaves the
      function unclassified. */
  function FromEnvAsWritten(environ: map<string, string>): (r: Outcome<EnvParam>)
    ensures r.Ok? <==> "MODEL_ID" in environ
    ensures r.Ok? ==> r.value.modelId == environ["MODEL_ID"]
    ensures r.Err? ==> r.error == Unclassified
  {
    if forall k | k in RequiredVariables :: k in environ then
      Ok(EnvParam(environ["MODEL_ID"]))
    else
      Err(Unclassified)
  }

  // ---------------------------------------------------------------------
  // Inbound event

  /** The caller's request. `prompt` is whatever JSON value the body holds
      under "prompt": nothing checks that it is a string. */
  datatype ApiEvent = ApiEvent(prompt: Value)

  /** `ApiEvent.from_event`. A body that is not a string, is not JSON, or has
      no "prompt" is a `ClientFault` carrying the body. With no "body" at all
      the `except` clause itself fails on `event["body"]`, so that
      `KeyError` escapes unclassified. */
  function FromEvent(event: map<string, Value>, c: Codec): (r: Outcome<ApiEvent>)
    ensures "body" !in event ==> r == Err(Unclassified)
    ensures r.Ok? <==>
              "body" in event && event["body"].Str?
              && c.loads(event["body"].s).Some?
              && Lookup(c.loads(event["body"].s).value, "prompt").Some?
    ensures r.Ok? ==> Lookup(c.loads(event["body"].s).value, "prompt") == Some(r.value.prompt)
    ensures "body" in event && r.Err? ==> r.error == ClientFault(event["body"], InvalidParameter)
  {
    if "body" !in event then Err(Unclassified)
    else
      var body := event["body"];
      var decoded := if body.Str? then c.loads(body.s) else None;
      match decoded
      case None => Err(ClientFault(body, InvalidParameter))
      case Some(doc) =>
        match Lookup(doc, "prompt")
        case None => Err(ClientFault(body, InvalidParameter))
        case Some(p) => Ok(ApiEvent(p))
  }

  /** The request body sent to the model: the JSON object {"prompt": ...}. */
  function PromptDoc(e: ApiEvent): (v: Value)
    ensures Lookup(v, "prompt") == Some(e.prompt)
  {
    Single("prompt", e.prompt)
  }

  /** `ApiEvent.to_body`: the JSON encoding of {"prompt": prompt}, which
      `FromEvent` reads back as the same event whenever the codec decodes
      that document. */
  function ToBody(e: ApiEvent, c: Codec): (body: string)
    ensures body == c.dumps(PromptDoc(e))
    ensures Decodes(c, PromptDoc(e)) ==> FromEvent(map["body" := Str(body)], c) == Ok(e)
  {
    c.dumps(PromptDoc(e))
  }

  // ---------------------------------------------------------------------
  // Model invocation

  /** What `client.invoke_model` does: return a response whose body is
      `payload`, raise `botocore.exceptions.ClientError` with an error code
      and message, or raise anything else (connection, timeout, ...). */
  datatype Reply =
    | Delivered(payload: string)
    | Rejected(code: string, message: string)
    | TransportFailure

  /** The Bedrock runtime client: model id and request body to a reply. */
  type Client = (string, string) -> Reply

  /** `x["data"]["text"]` for one completion; `None` where Python raises, or
      where the text is not a string and the later join raises. */
  function CompletionText(x: Value): (r: Option<string>)
    ensures r.Some? <==>
              Lookup(x, "data").Some? && Lookup(Lookup(x, "data").value, "text").Some?
              && Lookup(Lookup(x, "data").value, "text").value.Str?
    ensures r.Some? ==> Lookup(Lookup(x, "data").value, "text") == Some(Str(r.value))
  {
    match Lookup(x, "data")
    case None => None
    case Some(d) =>
      match Lookup(d, "text")
      case Some(Str(t)) => Some(t)
      case _ => None
  }

  /** The texts of a list of completions, in list order, or `None` if any one
      of them has none. */
  function CompletionTexts(xs: seq<Value>): (r: Option<seq<string>>)
    ensures r.Some? <==> forall i :: 0 <= i < |xs| ==> CompletionText(xs[i]).Some?
    ensures r.Some? ==> |r.value| == |xs|
    ensures r.Some? ==> forall i :: 0 <= i < |xs| ==> CompletionText(xs[i]) == Some(r.value[i])
    decreases |xs|
  {
    if |xs| == 0 then Some([])
    else
      match CompletionText(xs[0])
      case None => None
      case Some(t) =>
        match CompletionTexts(xs[1..])
        case None => None
        case Some(ts) => Some([t] + ts)
  }

  /** The texts the comprehension at the heart of `invoke_model` yields from
      the decoded response. Iterating a dict yields its keys and iterating a
      string its characters; both are strings, on which `["data"]` raises, so
      only an empty one yields no texts instead of failing. Any other
      non-list value is not iterable. */
  function ResponseTexts(doc: Value): (r: Option<seq<string>>)
    ensures Lookup(doc, "completions").None? ==> r.None?
    ensures (Lookup(doc, "completions").Some? && Lookup(doc, "completions").value.Arr?)
            ==> r == CompletionTexts(Lookup(doc, "completions").value.items)
  {
    match Lookup(doc, "completions")
    case None => None
    case Some(Arr(xs)) => CompletionTexts(xs)
    case Some(Obj(m)) => if m == map[] then Some([]) else None
    case Some(Str(s)) => if s == "" then Some([]) else None
    case Some(_) => None
  }

  /** `invoke_model`: one call to the client; a delivered response becomes its
      completions' texts joined by newlines; a service error with code
      "InternalServerError" is a `ServerFault`, any other code a
      `ClientFault`, both carrying the request body and the service's
      message; every other failure is unclassified. */
  function InvokeModel(client: Client, modelId: string, body: string, c: Codec): (r: Outcome<string>)
    ensures client(modelId, body).TransportFailure? ==> r == Err(Unclassified)
    ensures client(modelId, body).Rejected? ==>
              var reply := client(modelId, body);
              r == Err(if reply.code == InternalServerErrorCode
                       then ServerFault(Str(body), reply.message)
                       else ClientFault(Str(body), reply.message))
    ensures client(modelId, body).Delivered? ==>
              var decoded := c.loads(client(modelId, body).payload);
              && (r.Ok? <==> decoded.Some? && ResponseTexts(decoded.value).Some?)
              && (r.Ok? ==> r.value == JoinLines(ResponseTexts(decoded.value).value))
              && (r.Err? ==> r.error == Unclassified)
  {
    match client(modelId, body)
    case TransportFailure => Err(Unclassified)
    case Rejected(code, message) =>
      if code == InternalServerErrorCode then Err(ServerFault(Str(body), message))
      else Err(ClientFault(Str(body), message))
    case Delivered(payload) =>
      match c.loads(payload)
      case None => Err(Unclassified)
      case Some(doc) =>
        match ResponseTexts(doc)
        case None => Err(Unclassified)
        case Some(texts) => Ok(JoinLines(texts))
  }

  // ---------------------------------------------------------------------
  // Response

  /** `Response`: a status code and a message. */
  datatype Response = Response(statusCode: int, message: string)

  /** The wire response the Lambda runtime returns to API Gateway. */
  datatype Envelope = Envelope(
    statusCode: int,
    headers: seq<(string, Value)>,
    body: string,
    isBase64Encoded: bool)

  /** The fixed response headers, in order. */
  const CorsHeaders: seq<(string, Value)> := [
    ("Content-Type", Str("application/json")),
    ("Access-Control-Allow-Origin", Str("*")),
    ("Access-Control-Allow-Methods", Str("GET, POST, DELETE")),
    ("Access-Control-Allow-Credentials", Bool(true)),
    ("Access-Control-Allow-Headers", Str("origin, x-requested-with"))
  ]

  /** The response body document {"message": message}. */
  function MessageDoc(message: string): (v: Value)
    ensures Lookup(v, "message") == Some(Str(message))
    ensures v.Obj? && v.fields.Keys == {"message"}
  {
    Single("message", Str(message))
  }

  /** `Response.data`: the status code, the fixed headers, the JSON body
      {"message": ...} and `isBase64Encoded` false. */
  function Data(resp: Response, c: Codec): (w: Envelope)
    ensures w.statusCode == resp.statusCode
    ensures w.headers == CorsHeaders && !w.isBase64Encoded
    ensures w.body == c.dumps(MessageDoc(resp.message))
    ensures Decodes(c, MessageDoc(resp.message)) ==> c.loads(w.body) == Some(MessageDoc(resp.message))
  {
    Envelope(resp.statusCode, CorsHeaders, c.dumps(MessageDoc(resp.message)), false)
  }

  // ---------------------------------------------------------------------
  // Composition

  /** `service`: invoke the model with the configured model id and the
      serialised request; success is status 200 with the generated text. */
  function Service(e: ApiEvent, client: Client, env: EnvParam, c: Codec): (r: Outcome<Response>)
    ensures r.Ok? <==> InvokeModel(client, env.modelId, ToBody(e, c), c).Ok?
    ensures r.Ok? ==> r.value == Response(200, InvokeModel(client, env.modelId, ToBody(e, c), c).value)
    ensures r.Err? ==> r.error == InvokeModel(client, env.modelId, ToBody(e, c), c).error
  {
    match InvokeModel(client, env.modelId, ToBody(e, c), c)
    case Ok(text) => Ok(Response(200, text))
    case Err(f) => Err(f)
  }

  /** The body of the handler's `try`: the keyword arguments of the call to
      `service` are evaluated in order, so the event is parsed before the
      configuration is read, and the model is called only when both
      succeeded. */
  function Pipeline(parsed: Outcome<ApiEvent>, resolved: Outcome<EnvParam>, client: Client, c: Codec)
    : (r: Outcome<Response>)
    ensures parsed.Err? ==> r == Err(parsed.error)
    ensures parsed.Ok? && resolved.Err? ==> r == Err(resolved.error)
    ensures parsed.Ok? && resolved.Ok? ==> r == Service(parsed.value, client, resolved.value, c)
  {
    match parsed
    case Err(f) => Err(f)
    case Ok(e) =>
      match resolved
      case Err(f) => Err(f)
      case Ok(env) => Service(e, client, env, c)
  }

  /** The handler's `except` clauses: every fault becomes exactly one response;
      what a fault carries as its input never reaches the response. */
  function Converge(r: Outcome<Response>): (resp: Response)
    ensures r.Ok? ==> resp == r.value
    ensures r.Err? && r.error.ServerFault? ==> resp == Response(500, RetryLater)
    ensures r.Err? && r.error.ClientFault? ==> resp == Response(400, ClientErrorPrefix + r.error.message)
    ensures r.Err? && r.error.Unclassified? ==> resp == Response(500, ContactOperator)
  {
    match r
    case Ok(resp) => resp
    case Err(ServerFault(_, _)) => Response(500, RetryLater)
    case Err(ClientFault(_, message)) => Response(400, ClientErrorPrefix + message)
    case Err(Unclassified) => Response(500, ContactOperator)
  }

  /** The response `lambda_handler` builds, with the configuration resolved
      by the corrected `FromEnv`: exactly one, with status 200, 400 or 500. */
  function HandlerResponse(event: map<string, Value>, environ: map<string, string>, client: Client, c: Codec)
    : (resp: Response)
    ensures resp.statusCode in {200, 400, 500}
  {
    Converge(Pipeline(FromEvent(event, c), FromEnv(environ, c), client, c))
  }

  /** `lambda_handler` with the corrected `FromEnv`: the envelope of
      `HandlerResponse`. It is total: no failure of any stage escapes it. */
  function LambdaHandler(event: map<string, Value>, environ: map<string, string>, client: Client, c: Codec)
    : (w: Envelope)
    ensures w.statusCode in {200, 400, 500}
    ensures w.headers == CorsHeaders && !w.isBase64Encoded
    ensures w.statusCode == HandlerResponse(event, environ, client, c).statusCode
    ensures w.body == c.dumps(MessageDoc(HandlerResponse(event, environ, client, c).message))
  {
    Data(HandlerResponse(event, environ, client, c), c)
  }

  /** The response `lambda_handler` builds as written, with `from_env`'s
      failing `json.dumps(os.environ)`. */
  function HandlerResponseAsWritten(event: map<string, Value>, environ: map<string, string>, client: Client, c: Codec)
    : (resp: Response)
    ensures resp.statusCode in {200, 400, 500}
  {
    Converge(Pipeline(FromEvent(event, c), FromEnvAsWritten(environ), client, c))
  }

  /** `lambda_handler` exactly as written: the envelope of
      `HandlerResponseAsWritten`. */
  function LambdaHandlerAsWritten(event: map<string, Value>, environ: map<string, string>, client: Client, c: Codec)
    : (w: Envelope)
    ensures w.statusCode in {200, 400, 500}
    ensures w.headers == CorsHeaders && !w.isBase64Encoded
    ensures w.statusCode == HandlerResponseAsWritten(event, environ, client, c).statusCode
    ensures w.body == c.dumps(MessageDoc(HandlerResponseAsWritten(event, environ, client, c).message))
  {
    Data(HandlerResponseAsWritten(event, environ, client, c), c)
  }
}
