# text_api request pipeline, modelled in Dafny

This project models the request-handling core of a single-endpoint Lambda
function. The function takes an API Gateway event whose `body` is JSON text
`{"prompt": ...}` and forwards the prompt to a Bedrock text model. It joins
the returned completions with newlines and answers with a fixed JSON envelope.
Every failure is classified as a client fault (400), a server fault
(500, "Please access again after some time.") or an unclassified failure
(500, "Please contact the operator."). The model also covers the CDK
parameter table that supplies `MODEL_ID` and the resource-name formatter
`build_name`.

Both source files are pure, so the model uses only datatypes, functions and
lemmas:

- `wrappers.dfy`: `Option` and `Result`, which stand in for exceptions.
- `json.dfy`: the `Json.Value` datatype. `json.dumps`/`json.loads` are an
  injected `Json.Codec`. `Json.Decodes(c, v)` says that decoding the encoding
  of the document `v` gives `v` back. A lemma that needs it assumes it only for
  the documents it uses: `{"prompt": p}`, the completions document or
  `{"message": m}`. It is a hypothesis, not an axiom.
  `Json.DecodesSatisfiable` and `Json.DecodesBothSatisfiable` construct codecs
  that meet any one or two such hypotheses.
- `lines.dfy`: Python's `"\n".join` and, as its inverse, `str.split("\n")`.
- `text_api.dfy`: `src/app/text_api/lambda_function.py`. Exceptions become
  `Result<_, Fault>` with three kinds: `ClientFault`, `ServerFault` and
  `Unclassified`. The environment is a `map<string, string>` and the event a
  `map<string, Json.Value>`. The Bedrock client is an injected function that
  returns `Delivered(payload)`, `Rejected(code, message)` (botocore's
  `ClientError`) or `TransportFailure` (any other exception).
- `text_api_properties.dfy`: the end-to-end properties of the handler.
- `paramater.dfy`: `cdk/paramater.py`.

Where the code differs from what one might expect, the model follows the
code:

- A missing `body` gives 500 "contact the operator", not 400. The `except`
  clause of `from_event` reads `event["body"]` again, and that `KeyError`
  escapes unclassified.
- The event is parsed before the environment is read. The keyword arguments
  at lines 120-124 are evaluated in order, so an invalid event with no
  `MODEL_ID` gives 400, not 500.
- `prompt` is whatever JSON value the body holds. Nothing checks that it is a
  string.
- A missing `MODEL_ID`: see "## Findings".

## Model

| member | source | states |
|---|---|---|
| `Json.Lookup` | src/app/text_api/lambda_function.py:48 | `v[key]` succeeds exactly on a dict that holds the key, and yields that entry |
| `Lines.SplitJoin` | src/app/text_api/lambda_function.py:64-66 | splitting the `"\n".join` of newline-free texts gives back exactly those texts, in order |
| `Lines.JoinSnoc` | src/app/text_api/lambda_function.py:64-66 | joining one more text appends a newline and that text at the end |
| `Lines.JoinLength` | src/app/text_api/lambda_function.py:64-66 | the joined text is as long as all the texts plus one newline per gap |
| `TextApi.FromEnv` | src/app/text_api/lambda_function.py:30-37 | corrected `from_env`: succeeds iff `MODEL_ID` is set, and then carries its value; otherwise a server fault with "Required environment variables are not set." and a snapshot of the environment |
| `TextApi.FromEnvAsWritten` | src/app/text_api/lambda_function.py:30-37 | `from_env` as written: succeeds iff `MODEL_ID` is set; otherwise an unclassified failure, because `json.dumps(os.environ)` raises |
| `TextApi.FromEvent` | src/app/text_api/lambda_function.py:44-51 | no `body`: unclassified; a body that is a JSON string decoding to a dict with "prompt": that prompt; anything else: a client fault "Invalid parameter." carrying the body |
| `TextApi.ToBody` | src/app/text_api/lambda_function.py:53-54 | the body is the JSON encoding of `{"prompt": prompt}`; whenever the codec decodes that document, `FromEvent` of an event with this body gives back the same event |
| `TextApi.CompletionText` | src/app/text_api/lambda_function.py:65 | `x["data"]["text"]` yields a text iff `x` is a dict whose "data" is a dict whose "text" is a string |
| `TextApi.CompletionTexts` | src/app/text_api/lambda_function.py:64-66 | the texts of a list of completions, one per completion in list order; fails iff some completion has none |
| `TextApi.ResponseTexts` | src/app/text_api/lambda_function.py:65 | no "completions" key fails; a list of completions yields exactly `CompletionTexts` of it |
| `TextApi.InvokeModel` | src/app/text_api/lambda_function.py:57-77 | a transport failure is unclassified; a service error is a server fault iff its code is "InternalServerError", else a client fault, both with the sent body and the service's message; a delivered payload gives the joined texts iff it decodes and has texts, and is unclassified otherwise |
| `TextApi.Data` | src/app/text_api/lambda_function.py:84-100 | the envelope keeps the status code, has the five fixed headers and `isBase64Encoded` false, and its body is the JSON encoding of `{"message": message}`, which decodes back to it when the codec decodes that document |
| `TextApi.Service` | src/app/text_api/lambda_function.py:103-112 | success iff the model call succeeds, and then status 200 with the generated text; otherwise the model call's fault |
| `TextApi.Pipeline` | src/app/text_api/lambda_function.py:119-124 | a parse fault wins over a configuration fault; the service runs only when both succeed |
| `TextApi.Converge` | src/app/text_api/lambda_function.py:125-142 | server fault: 500 "access again after some time"; client fault: 400 "client error. " + its message; unclassified: 500 "contact the operator"; success passes through |
| `TextApi.HandlerResponse` | src/app/text_api/lambda_function.py:118-142 | with the corrected `from_env`: exactly one response per request, with status 200, 400 or 500 |
| `TextApi.LambdaHandler` | src/app/text_api/lambda_function.py:118-142 | with the corrected `from_env`: total; every envelope has status 200/400/500 (that of `HandlerResponse`), the fixed headers, is not base64-encoded, and its body is the JSON encoding of `{"message": m}` with the handler's message |
| `TextApi.HandlerResponseAsWritten` | src/app/text_api/lambda_function.py:118-142 | the handler as written is total too, with status 200, 400 or 500 |
| `TextApi.LambdaHandlerAsWritten` | src/app/text_api/lambda_function.py:118-142 | the handler as written: status 200/400/500, the fixed headers, not base64-encoded, and a body that is the JSON encoding of `{"message": m}` |
| `TextApiProperties.FromEventToBody` | src/app/text_api/lambda_function.py:44-54 | `from_event` of an event whose body is `to_body()` of `ApiEvent(p)` gives back `ApiEvent(p)`, for every prompt the codec decodes as `{"prompt": p}` |
| `TextApiProperties.ToBodyFromEvent` | src/app/text_api/lambda_function.py:44-54 | the request forwarded to the model parses back to the caller's request, when the codec decodes `{"prompt": p}` |
| `TextApiProperties.CompletionsDocTexts` | src/app/text_api/lambda_function.py:65 | the service's success document `{"completions": [{"data": {"text": t}}, ...]}` yields its texts in order |
| `TextApiProperties.InvokeJoinsCompletions` | src/app/text_api/lambda_function.py:63-66 | a delivered success document (one the codec decodes) gives its texts joined by newlines in service order |
| `TextApiProperties.InvokeKeepsEveryCompletion` | src/app/text_api/lambda_function.py:63-66 | with newline-free texts in a decodable success document, the generated text splits back into exactly the returned texts |
| `TextApiProperties.InvokeClassifiesServiceErrors` | src/app/text_api/lambda_function.py:67-77 | a service error is a server fault iff its code is "InternalServerError", a client fault otherwise, and keeps the service's message |
| `TextApiProperties.ModelRequest` | src/app/text_api/lambda_function.py:108 | the model is called with the configured `MODEL_ID` and the JSON encoding of `{"prompt": prompt}`, which parses back to the caller's request when the codec decodes that document |
| `TextApiProperties.MissingBody` | src/app/text_api/lambda_function.py:51 | an event with no `body` gets 500 "contact the operator", whatever the environment and model, in both handlers |
| `TextApiProperties.InvalidBody` | src/app/text_api/lambda_function.py:45-51 | a body that is not a string, not JSON, or has no "prompt" gets 400 "client error. Invalid parameter.", even with `MODEL_ID` missing |
| `TextApiProperties.MissingModelId` | src/app/text_api/lambda_function.py:30-37 | a valid event with `MODEL_ID` missing gets 500 "access again after some time" (corrected `from_env`) |
| `TextApiProperties.MissingModelIdAsWritten` | src/app/text_api/lambda_function.py:33-37 | as written, the same request gets 500 "contact the operator", which differs from the intended response |
| `TextApiProperties.ServiceError` | src/app/text_api/lambda_function.py:67-77 | a service error with code "InternalServerError" gets 500 "access again after some time"; any other code gets 400 "client error. " + the service's message |
| `TextApiProperties.UnexpectedModelFailure` | src/app/text_api/lambda_function.py:63-66 | a transport failure, an undecodable payload or a payload without usable completions gets 500 "contact the operator" |
| `TextApiProperties.Success` | src/app/text_api/lambda_function.py:108-112 | a model that answers with a (decodable) completions document gets 200 with their texts joined by newlines in service order |
| `TextApiProperties.SuccessEdgeCases` | src/app/text_api/lambda_function.py:64-66 | one completion comes back unchanged; an empty list gives the empty message |
| `TextApiProperties.EchoedPrompt` | src/app/text_api/lambda_function.py:118-124 | a prompt the model echoes as its one completion is returned as the message of a 200 |
| `TextApiProperties.ModelNotCalledUnlessAccepted` | src/app/text_api/lambda_function.py:120-124 | when parsing or configuration fails, the response does not depend on the model at all |
| `TextApiProperties.ModelCalledOnceWithRequest` | src/app/text_api/lambda_function.py:108 | on an accepted request the response depends on the model only through its answer to the one request (`MODEL_ID`, `to_body()`) |
| `TextApiProperties.EnvelopeShape` | src/app/text_api/lambda_function.py:84-100 | every envelope: status 200/400/500, the fixed headers, not base64, body the JSON encoding of `{"message": m}`; a 500's message is one of the two fixed texts, a 400's starts with "client error. " |
| `TextApiProperties.AsWrittenAgrees` | src/app/text_api/lambda_function.py:118-142 | the handler as written gives the same response and envelope as the corrected one on every request except a valid event with `MODEL_ID` missing |
| `TextApiProperties.FaultInputNotReturned` | src/app/text_api/lambda_function.py:125-136 | the offending input a fault carries never changes the response |
| `Paramater.BuildName` | cdk/paramater.py:14-15 | the name starts with "bedrocktest-", then the service, and ends with "-" + hostname; its length is `|service| + |hostname| + 13` |
| `Paramater.BuildNameInjective` | cdk/paramater.py:15 | for a fixed service, equal names mean equal hostnames |
| `Paramater.BuildNameInjectiveInService` | cdk/paramater.py:15 | for a fixed hostname, equal names mean equal services |
| `Paramater.BuildNameCollides` | cdk/paramater.py:15 | over both arguments names can collide: ("a-b", "c") and ("a", "b-c") |
| `Paramater.TextApiParam` | cdk/paramater.py:1-11 | the `text_api` entry sets `MODEL_ID` to "ai21.j2-mid-v1" and `memory_size` to 128 |
| `Paramater.DeployedEnvironmentResolves` | cdk/paramater.py:3-8 | any environment holding the table's variables resolves to model "ai21.j2-mid-v1", under both versions of `from_env` |

## Left out

- Logging and tracing are not modelled: the `Logger`, `inject_lambda_context`, `traceback.format_exc` and the Lambda context. They do not affect the response.
- The text of the two exceptions (`f"{message}: {input_param}"`) is not modelled. It only reaches the logs. The fault keeps its input and message instead.
- The Bedrock client is not modelled: its construction, the transport, timeouts and retries. It is an injected function from (model id, body) to a reply.
- Every reported service error is assumed to carry both `Error.Code` and `Error.Message`. A botocore error without them would raise `KeyError` at lines 68-76.
- The JSON text format is not modelled: escaping, whitespace and separators. `json.dumps`/`json.loads` are an injected codec, and their round trip is a hypothesis of the lemmas that need it.
- JSON numbers are integers only; Python's `float` (and NaN) is not modelled. The pipeline never inspects a number. JSON objects are maps, so key order is not modelled. Duplicate keys cannot occur.
- Idempotence has no lemma of its own. The handler is a function of its inputs, so two calls with the same event, environment and client always give the same response.
- Concurrency and the process-wide reuse of the client are not modelled. No state is shared between requests.
- `cdk/lambda_construct.py`, `cdk/root_stack.py` and `app.py` (including `add_name_tag`) are not part of this model. They are declarative calls into the CDK library.

## Findings

| source | as written | input that shows it | evidently intended | confidence | as-written member | corrected member |
|---|---|---|---|---|---|---|
| src/app/text_api/lambda_function.py:33-37 | On a missing variable, the `except` clause builds `ServerError(json.dumps(os.environ), ...)`. `os.environ` is an `os._Environ` mapping, not a `dict`, so `json.dumps` raises `TypeError`. No `ServerError` is raised, and the handler's `except Exception` answers 500 "internal server error. Please contact the operator." | a valid event `{"body": "{\"prompt\": \"hi\"}"}` with no `MODEL_ID` in the environment | a `ServerError` answered with 500 "internal server error. Please access again after some time." | high, not executed | `TextApi.FromEnvAsWritten`, `TextApi.HandlerResponseAsWritten`, `TextApiProperties.MissingModelIdAsWritten` | `TextApi.FromEnv`, `TextApi.HandlerResponse`, `TextApi.LambdaHandler`, `TextApiProperties.MissingModelId` |
