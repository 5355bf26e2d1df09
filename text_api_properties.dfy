/**
  What the `text_api` handler promises its callers, end to end: which
  response each kind of request gets, the order in which the stages run, and
  what the model is called with.
*/
module TextApiProperties {
  import opened Wrappers
  import opened Json
  import opened Lines
  import opened TextApi

  /** An event whose body is the given text. */
  function EventWithBody(text: string): (event: map<string, Value>)
    ensures "body" in event && event["body"] == Str(text)
  {
    map["body" := Str(text)]
  }

  /** The model service's success document
      {"completions": [{"data": {"text": t}}, ...]}. */
  function CompletionsDoc(texts: seq<string>): (doc: Value)
    ensures Lookup(doc, "completions").Some? && Lookup(doc, "completions").value.Arr?
    ensures |Lookup(doc, "completions").value.items| == |texts|
  {
    Single("completions", Arr(seq(|texts|, i requires 0 <= i < |texts| =>
      Single("data", Single("text", Str(texts[i]))))))
  }

  // ---------------------------------------------------------------------
  // Parsing and re-serialising the request

  /** `from_event` reads back what `to_body` wrote, for every prompt. */
  lemma FromEventToBody(p: Value, c: Codec)
    requires Decodes(c, PromptDoc(ApiEvent(p)))
    ensures FromEvent(EventWithBody(ToBody(ApiEvent(p), c)), c) == Ok(ApiEvent(p))
  {
  }

  /** `to_body` of a parsed event is a document that parses to the same
      event: the request forwarded to the model carries the caller's prompt. */
  lemma ToBodyFromEvent(event: map<string, Value>, c: Codec)
    requires FromEvent(event, c).Ok? && Decodes(c, PromptDoc(FromEvent(event, c).value))
    ensures FromEvent(EventWithBody(ToBody(FromEvent(event, c).value, c)), c) == FromEvent(event, c)
  {
  }

  // ---------------------------------------------------------------------
  // Model invocation

  /** The service's success document yields its texts, in order. */
  lemma {:induction false} CompletionsDocTexts(texts: seq<string>)
    ensures ResponseTexts(CompletionsDoc(texts)) == Some(texts)
  {
    var xs := Lookup(CompletionsDoc(texts), "completions").value.items;
    forall i | 0 <= i < |xs| ensures CompletionText(xs[i]) == Some(texts[i]) {
      assert xs[i] == Single("data", Single("text", Str(texts[i])));
    }
    var r := CompletionTexts(xs);
    assert r.Some? && |r.value| == |texts|;
    assert forall i :: 0 <= i < |texts| ==> r.value[i] == texts[i];
    assert r.value == texts;
    assert ResponseTexts(CompletionsDoc(texts)) == r;
  }

  /** A delivered success document gives the completions' texts joined by
      newlines, in the order the service returned them. */
  lemma InvokeJoinsCompletions(client: Client, modelId: string, body: string, texts: seq<string>, c: Codec)
    requires Decodes(c, CompletionsDoc(texts))
    requires client(modelId, body) == Delivered(c.dumps(CompletionsDoc(texts)))
    ensures InvokeModel(client, modelId, body, c) == Ok(JoinLines(texts))
  {
    CompletionsDocTexts(texts);
  }

  /** With newline-free completions, the generated text splits back into
      exactly the texts the service returned. */
  lemma InvokeKeepsEveryCompletion(client: Client, modelId: string, body: string, texts: seq<string>, c: Codec)
    requires Decodes(c, CompletionsDoc(texts))
    requires client(modelId, body) == Delivered(c.dumps(CompletionsDoc(texts)))
    requires |texts| >= 1 && NoNewlines(texts)
    ensures InvokeModel(client, modelId, body, c).Ok?
    ensures SplitLines(InvokeModel(client, modelId, body, c).value) == texts
  {
    InvokeJoinsCompletions(client, modelId, body, texts, c);
    SplitJoin(texts);
  }

  /** Only the reported code decides between the two fault kinds: code
      "InternalServerError" is a server fault, every other code a client
      fault, each with the service's own message. */
  lemma InvokeClassifiesServiceErrors(client: Client, modelId: string, body: string, c: Codec)
    requires client(modelId, body).Rejected?
    ensures InvokeModel(client, modelId, body, c).Err?
    ensures InvokeModel(client, modelId, body, c).error.ServerFault?
            <==> client(modelId, body).code == "InternalServerError"
    ensures InvokeModel(client, modelId, body, c).error.ClientFault?
            <==> client(modelId, body).code != "InternalServerError"
    ensures InvokeModel(client, modelId, body, c).error.message == client(modelId, body).message
  {
  }

  // ---------------------------------------------------------------------
  // The handler, request by request

  /** A request that parses and a complete configuration: the handler calls
      the model with the configured model id and the re-serialised request. */
  predicate Accepted(event: map<string, Value>, environ: map<string, string>, c: Codec) {
    FromEvent(event, c).Ok? && "MODEL_ID" in environ
  }

  /** The arguments of the one call to the model on an accepted request. */
  function ModelRequest(event: map<string, Value>, environ: map<string, string>, c: Codec): (req: (string, string))
    requires Accepted(event, environ, c)
    ensures req.0 == environ["MODEL_ID"]
    ensures req.1 == c.dumps(PromptDoc(FromEvent(event, c).value))
    ensures Decodes(c, PromptDoc(FromEvent(event, c).value)) ==> FromEvent(EventWithBody(req.1), c) == FromEvent(event, c)
  {
    (environ["MODEL_ID"], ToBody(FromEvent(event, c).value, c))
  }

  /** Without a "body" the handler answers 500 "contact the operator",
      whatever the environment and the model. */
  lemma MissingBody(event: map<string, Value>, environ: map<string, string>, client: Client, c: Codec)
    requires "body" !in event
    ensures HandlerResponse(event, environ, client, c) == Response(500, ContactOperator)
    ensures HandlerResponseAsWritten(event, environ, client, c) == Response(500, ContactOperator)
  {
  }

  /** A body that is not a JSON string, or that decodes to something without a
      "prompt", is a 400 "client error. Invalid parameter.", even when the
      configuration is missing too: the event is parsed first. */
  lemma InvalidBody(event: map<string, Value>, environ: map<string, string>, client: Client, c: Codec)
    requires "body" in event
    requires !event["body"].Str?
             || c.loads(event["body"].s).None?
             || Lookup(c.loads(event["body"].s).value, "prompt").None?
    ensures HandlerResponse(event, environ, client, c) == Response(400, "client error. Invalid parameter.")
    ensures HandlerResponseAsWritten(event, environ, client, c) == Response(400, "client error. Invalid parameter.")
  {
  }

  /** A valid request without MODEL_ID in the environment is a 500 "access
      again after some time", whatever the model. */
  lemma MissingModelId(event: map<string, Value>, environ: map<string, string>, client: Client, c: Codec)
    requires FromEvent(event, c).Ok? && "MODEL_ID" !in environ
    ensures HandlerResponse(event, environ, client, c) == Response(500, RetryLater)
  {
  }

  /** As written, the same request is a 500 "contact the operator" instead:
      the fault meant for it is never built. */
  lemma MissingModelIdAsWritten(event: map<string, Value>, environ: map<string, string>, client: Client, c: Codec)
    requires FromEvent(event, c).Ok? && "MODEL_ID" !in environ
    ensures HandlerResponseAsWritten(event, environ, client, c) == Response(500, ContactOperator)
    ensures HandlerResponseAsWritten(event, environ, client, c) != HandlerResponse(event, environ, client, c)
  {
  }

  /** An accepted request whose model call fails with a service error: code
      "InternalServerError" is a 500 "access again after some time", any other
      code a 400 carrying the service's message. */
  lemma ServiceError(event: map<string, Value>, environ: map<string, string>, client: Client, c: Codec)
    requires Accepted(event, environ, c)
    requires client(ModelRequest(event, environ, c).0, ModelRequest(event, environ, c).1).Rejected?
    ensures var reply := client(ModelRequest(event, environ, c).0, ModelRequest(event, environ, c).1);
            HandlerResponse(event, environ, client, c)
            == if reply.code == "InternalServerError" then Response(500, RetryLater)
               else Response(400, "client error. " + reply.message)
  {
  }

  /** An accepted request whose model call fails in any other way, or returns
      a document without usable completions, is a 500 "contact the operator". */
  lemma UnexpectedModelFailure(event: map<string, Value>, environ: map<string, string>, client: Client, c: Codec)
    requires Accepted(event, environ, c)
    requires var reply := client(ModelRequest(event, environ, c).0, ModelRequest(event, environ, c).1);
             || reply.TransportFailure?
             || (reply.Delivered? && c.loads(reply.payload).None?)
             || (reply.Delivered? && c.loads(reply.payload).Some?
                 && ResponseTexts(c.loads(reply.payload).value).None?)
    ensures HandlerResponse(event, environ, client, c) == Response(500, ContactOperator)
  {
  }

  /** An accepted request that the model answers is a 200 whose message is the
      completions' texts joined by newlines, in the service's order. */
  lemma Success(event: map<string, Value>, environ: map<string, string>, client: Client,
                texts: seq<string>, c: Codec)
    requires Decodes(c, CompletionsDoc(texts)) && Accepted(event, environ, c)
    requires client(ModelRequest(event, environ, c).0, ModelRequest(event, environ, c).1)
             == Delivered(c.dumps(CompletionsDoc(texts)))
    ensures HandlerResponse(event, environ, client, c) == Response(200, JoinLines(texts))
  {
    InvokeJoinsCompletions(client, ModelRequest(event, environ, c).0, ModelRequest(event, environ, c).1, texts, c);
  }

  /** One completion comes back unchanged; none gives the empty message. */
  lemma SuccessEdgeCases(event: map<string, Value>, environ: map<string, string>, client: Client,
                         texts: seq<string>, c: Codec)
    requires Decodes(c, CompletionsDoc(texts)) && Accepted(event, environ, c)
    requires client(ModelRequest(event, environ, c).0, ModelRequest(event, environ, c).1)
             == Delivered(c.dumps(CompletionsDoc(texts)))
    requires |texts| <= 1
    ensures |texts| == 0 ==> HandlerResponse(event, environ, client, c) == Response(200, "")
    ensures |texts| == 1 ==> HandlerResponse(event, environ, client, c) == Response(200, texts[0])
  {
  }

  /** A prompt echoed back by the model as its one completion is returned as
      the message of a 200. */
  lemma EchoedPrompt(prompt: string, environ: map<string, string>, client: Client, c: Codec)
    requires Decodes(c, PromptDoc(ApiEvent(Str(prompt)))) && Decodes(c, CompletionsDoc([prompt]))
    requires "MODEL_ID" in environ
    requires var body := ToBody(ApiEvent(Str(prompt)), c);
             client(environ["MODEL_ID"], body) == Delivered(c.dumps(CompletionsDoc([prompt])))
    ensures var event := EventWithBody(ToBody(ApiEvent(Str(prompt)), c));
            HandlerResponse(event, environ, client, c) == Response(200, prompt)
  {
  }

  // ---------------------------------------------------------------------
  // Order of the stages and the one call to the model

  /** When the request does not parse or the configuration is missing, the
      model is never called: the response is the same whatever it would do. */
  lemma ModelNotCalledUnlessAccepted(event: map<string, Value>, environ: map<string, string>,
                                     client1: Client, client2: Client, c: Codec)
    requires !Accepted(event, environ, c)
    ensures HandlerResponse(event, environ, client1, c) == HandlerResponse(event, environ, client2, c)
    ensures HandlerResponseAsWritten(event, environ, client1, c)
            == HandlerResponseAsWritten(event, environ, client2, c)
  {
  }

  /** On an accepted request the model is consulted once, with the configured
      model id and the re-serialised request: two models that agree on that
      one request give the same response. */
  lemma ModelCalledOnceWithRequest(event: map<string, Value>, environ: map<string, string>,
                                   client1: Client, client2: Client, c: Codec)
    requires Accepted(event, environ, c)
    requires client1(ModelRequest(event, environ, c).0, ModelRequest(event, environ, c).1)
             == client2(ModelRequest(event, environ, c).0, ModelRequest(event, environ, c).1)
    ensures HandlerResponse(event, environ, client1, c) == HandlerResponse(event, environ, client2, c)
  {
  }

  // ---------------------------------------------------------------------
  // The envelope

  /** Every response, on every path: status 200, 400 or 500, the fixed
      headers, not base64-encoded, and a body that is the JSON encoding of
      {"message": m}; a 500 carries one of the two fixed messages and a 400
      starts with "client error. ". */
  lemma EnvelopeShape(event: map<string, Value>, environ: map<string, string>, client: Client, c: Codec)
    ensures var w := LambdaHandler(event, environ, client, c);
            var m := HandlerResponse(event, environ, client, c).message;
            && w.statusCode in {200, 400, 500}
            && w.headers == CorsHeaders && !w.isBase64Encoded
            && w.body == c.dumps(Obj(map["message" := Str(m)]))
            && (w.statusCode == 500 ==> m == RetryLater || m == ContactOperator)
            && (w.statusCode == 400 ==> |m| >= |ClientErrorPrefix| && m[..|ClientErrorPrefix|] == ClientErrorPrefix)
  {
  }

  /** What a fault carries as its offending input never reaches the response. */
  lemma FaultInputNotReturned(input1: Value, input2: Value, message: string)
    ensures Converge(Err(ClientFault(input1, message))) == Converge(Err(ClientFault(input2, message)))
    ensures Converge(Err(ServerFault(input1, message))) == Converge(Err(ServerFault(input2, message)))
    ensures Converge(Err(ServerFault(input1, message))).message == RetryLater
  {
  }

  /** The handler as written answers every request as the corrected one does,
      except a valid event with `MODEL_ID` missing: every property above of
      the other paths holds of it too. */
  lemma AsWrittenAgrees(event: map<string, Value>, environ: map<string, string>, client: Client, c: Codec)
    requires !(FromEvent(event, c).Ok? && "MODEL_ID" !in environ)
    ensures HandlerResponseAsWritten(event, environ, client, c) == HandlerResponse(event, environ, client, c)
    ensures LambdaHandlerAsWritten(event, environ, client, c) == LambdaHandler(event, environ, client, c)
  {
  }
}
