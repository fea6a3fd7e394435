/** The form-filling endpoint (app/api/v1/endpoints/form_filler.py): build
    the prompt, ask the provider once, and turn what happened into the
    success body or an HTTP error. */
module FormFiller {
  import opened Wrappers
  import opened Json
  import opened LLMServices
  import opened FormPrompt

  /** The two settings the endpoint passes to the service. */
  datatype Settings = Settings(llmApiKey: string, llmApiEndpoint: string)

  /** Why the generated text was not usable: `json.loads` raised (with its
      message), or it decoded to something other than an object. */
  datatype ParseProblem = InvalidJson(message: string) | NotAnObject

  /** What went wrong, by the handler that deals with it: the endpoint's
      first `except Exception` (any error from `get_completion`), its second
      handler (the text did not give an object), or no handler of the
      endpoint at all, in which case the application's catch-all answers. */
  datatype EndpointFailure =
    | ServiceFailed(error: CompletionError)
    | ResponseNotParsed(problem: ParseProblem)
    | Unhandled

  /** The endpoint's answer: the filled data, or an error status and cause. */
  datatype Outcome = Filled(filledData: map<string, JsonValue>) | Failed(statusCode: int, failure: EndpointFailure)

  const ServiceUnavailable: int := 503
  const InternalServerError: int := 500

  /** The HTTP status of an outcome. */
  function StatusOf(outcome: Outcome): int
  {
    match outcome
    case Filled(_) => 200
    case Failed(code, _) => code
  }

  /** Lines 49-67: the endpoint's two `try` blocks. `loads` is `json.loads`.
      Content that is not a str makes `json.loads` raise TypeError, which
      neither handler catches. */
  function Classify(completion: Result<JsonValue, CompletionError>, loads: string -> Decoded): Outcome
  {
    match completion
    case Failure(error) => Failed(ServiceUnavailable, ServiceFailed(error))
    case Success(text) =>
      if !text.JStr? then Failed(InternalServerError, Unhandled)
      else match loads(text.s)
        case Undecodable(message) => Failed(InternalServerError, ResponseNotParsed(InvalidJson(message)))
        case Parsed(value) =>
          if value.JObj? then Filled(value.members)
          else Failed(InternalServerError, ResponseNotParsed(NotAnObject))
  }

  /** The request the endpoint's service posts for `request`. */
  function PostedRequest(settings: Settings, request: FillFormRequest): HttpRequest
  {
    CompletionRequest(settings.llmApiKey, settings.llmApiEndpoint, DefaultTimeout, BuildPrompt(request))
  }

  /** The endpoint as a function of the settings, the request, what the
      network does with the one POST, and what `json.loads` makes of a text. */
  function FillForm(settings: Settings, request: FillFormRequest,
                    network: HttpRequest -> Transport, loads: string -> Decoded): Outcome
  {
    Classify(CompletionOf(network(PostedRequest(settings, request))), loads)
  }

  /** The endpoint as the source runs it: a fresh service from the settings,
      the prompt, one call of `get_completion`, then the classification. The
      provider's log grows by exactly the one request. */
  method FillFormEndpoint(settings: Settings, request: FillFormRequest,
                          provider: Provider, loads: string -> Decoded)
    returns (outcome: Outcome)
    modifies provider
    ensures provider.log == old(provider.log) + [PostedRequest(settings, request)]
    ensures outcome == FillForm(settings, request, provider.respond, loads)
  {
    var service := new LLMService(settings.llmApiKey, settings.llmApiEndpoint);
    var prompt := BuildPrompt(request);
    var completion := service.GetCompletion(prompt, provider);
    outcome := Classify(completion, loads);
  }

  /** Every outcome is a success, a 500 or a 503. */
  lemma OnlyThreeStatuses(completion: Result<JsonValue, CompletionError>, loads: string -> Decoded)
    ensures StatusOf(Classify(completion, loads)) in {200, 500, 503}
  {
  }

  /** Any exception from `get_completion` gives 503 carrying that exception,
      and 503 arises in no other way. */
  lemma ServiceErrorIff503(completion: Result<JsonValue, CompletionError>, loads: string -> Decoded)
    ensures StatusOf(Classify(completion, loads)) == 503 <==> completion.Failure?
    ensures completion.Failure? ==>
      Classify(completion, loads) == Failed(503, ServiceFailed(completion.error))
  {
  }

  /** The result is a success exactly when the completion is a text that
      decodes to an object, and the filled data is then that object, with
      no check of its keys. */
  lemma FilledIffObject(completion: Result<JsonValue, CompletionError>, loads: string -> Decoded)
    ensures Classify(completion, loads).Filled? <==>
      completion.Success? && completion.value.JStr? &&
      loads(completion.value.s).Parsed? && loads(completion.value.s).value.JObj?
    ensures Classify(completion, loads).Filled? ==>
      Classify(completion, loads).filledData == loads(completion.value.s).value.members
  {
  }

  /** A completion text that is not JSON, or is JSON but not an object,
      gives 500 with the reason. */
  lemma UnparseableIs500(text: string, loads: string -> Decoded)
    ensures loads(text).Undecodable? ==>
      Classify(Success(JStr(text)), loads) == Failed(500, ResponseNotParsed(InvalidJson(loads(text).message)))
    ensures loads(text).Parsed? && !loads(text).value.JObj? ==>
      Classify(Success(JStr(text)), loads) == Failed(500, ResponseNotParsed(NotAnObject))
  {
  }

  /** A network failure or a non-2xx reply reaches the caller as 503 with
      httpx's exception unchanged, so a 429 stays distinguishable from a 401. */
  lemma TransportFailuresAre503(settings: Settings, request: FillFormRequest,
                                network: HttpRequest -> Transport, loads: string -> Decoded)
    ensures var reply := network(PostedRequest(settings, request));
      reply.RequestFailed? ==>
      FillForm(settings, request, network, loads) == Failed(503, ServiceFailed(RequestError(reply.message)))
    ensures var reply := network(PostedRequest(settings, request));
      reply.Replied? && !IsSuccess(reply.statusCode) ==>
      FillForm(settings, request, network, loads) ==
        Failed(503, ServiceFailed(StatusError(reply.statusCode, reply.statusMessage)))
  {
  }

  /** A 2xx reply whose envelope cannot be read (undecodable body, or no
      `choices[0].message.content`) gives 503, not 500: the ValueError is
      raised inside `get_completion` and meets the endpoint's first handler. */
  lemma MalformedEnvelopeIs503(settings: Settings, request: FillFormRequest,
                               network: HttpRequest -> Transport, loads: string -> Decoded)
    requires var reply := network(PostedRequest(settings, request));
      reply.Replied? && IsSuccess(reply.statusCode) &&
      (reply.body.Undecodable? || !ExtractContent(reply.body.value).Found?)
    ensures FillForm(settings, request, network, loads).Failed?
    ensures StatusOf(FillForm(settings, request, network, loads)) == 503
  {
  }

  /** The whole endpoint succeeds exactly when the one POST gets a 2xx reply
      whose envelope holds a str at `choices[0].message.content` that decodes
      to an object; the filled data is that object. */
  lemma SucceedsIff(settings: Settings, request: FillFormRequest,
                    network: HttpRequest -> Transport, loads: string -> Decoded, text: string)
    ensures var reply := network(PostedRequest(settings, request));
      (reply.Replied? && IsSuccess(reply.statusCode) && reply.body.Parsed? &&
       CarriesContent(reply.body.value, JStr(text)) && loads(text).Parsed? && loads(text).value.JObj?)
      ==> FillForm(settings, request, network, loads) == Filled(loads(text).value.members)
    ensures var reply := network(PostedRequest(settings, request));
      (reply.Replied? && IsSuccess(reply.statusCode) && reply.body.Parsed? &&
       CarriesContent(reply.body.value, JStr(text)))
      ==> (FillForm(settings, request, network, loads).Filled? <==>
           loads(text).Parsed? && loads(text).value.JObj?)
    ensures FillForm(settings, request, network, loads).Filled? ==>
      var reply := network(PostedRequest(settings, request));
      reply.Replied? && IsSuccess(reply.statusCode) && reply.body.Parsed? &&
      ExtractContent(reply.body.value).Found? && ExtractContent(reply.body.value).content.JStr?
  {
    var reply := network(PostedRequest(settings, request));
    if reply.Replied? && reply.body.Parsed? {
      var lookup := ExtractContent(reply.body.value);
      if CarriesContent(reply.body.value, JStr(text)) {
        assert lookup == Found(JStr(text));
      }
    }
  }

  /** The request's template identifier changes nothing the endpoint does. */
  lemma TemplateIdHasNoEffect(settings: Settings, fields: seq<string>, content: string,
                              id1: Option<string>, id2: Option<string>,
                              network: HttpRequest -> Transport, loads: string -> Decoded)
    ensures FillForm(settings, FillFormRequest(fields, content, id1), network, loads) ==
            FillForm(settings, FillFormRequest(fields, content, id2), network, loads)
  {
    TemplateIdIgnored(fields, content, id1, id2);
  }

  /** The provider's usual envelope around a generated text. */
  function Envelope(text: string): JsonValue
  {
    JObj(map["choices" := JArr([JObj(map["message" := JObj(map["role" := JStr("assistant"), "content" := JStr(text)])])])])
  }

  /** End to end: fields "Customer" and "Order ID", a provider whose reply
      carries `{"Customer":"Alice","Order ID":"SN001"}`, gives exactly that
      mapping. */
  lemma CustomerOrderScenario(settings: Settings, id: Option<string>)
    ensures var generated := "{\"Customer\":\"Alice\",\"Order ID\":\"SN001\"}";
      var data := map["Customer" := JStr("Alice"), "Order ID" := JStr("SN001")];
      var request := FillFormRequest(["Customer", "Order ID"], "Alice ordered item X, order SN001.", id);
      FillForm(settings, request,
        (r: HttpRequest) => Replied(200, "OK", Parsed(Envelope(generated))),
        (t: string) => if t == generated then Parsed(JObj(data)) else Undecodable("Expecting value"))
      == Filled(data)
  {
    var generated := "{\"Customer\":\"Alice\",\"Order ID\":\"SN001\"}";
    var envelope := Envelope(generated);
    var first := envelope.members["choices"].items[0];
    var message := first.members["message"];
    assert "content" in message.members;
    assert CarriesContent(envelope, JStr(generated));
  }

  /** A reply missing a requested field is still a success, with the
      partial mapping. */
  lemma PartialMappingScenario(settings: Settings, content: string, id: Option<string>)
    ensures var generated := "{\"Name\":\"Alice\"}";
      var data := map["Name" := JStr("Alice")];
      FillForm(settings, FillFormRequest(["Name", "Phone"], content, id),
        (r: HttpRequest) => Replied(200, "OK", Parsed(Envelope(generated))),
        (t: string) => if t == generated then Parsed(JObj(data)) else Undecodable("Expecting value"))
      == Filled(data)
  {
    var generated := "{\"Name\":\"Alice\"}";
    var envelope := Envelope(generated);
    var message := envelope.members["choices"].items[0].members["message"];
    assert "content" in message.members;
    assert CarriesContent(envelope, JStr(generated));
  }

  /** A generated list (valid JSON, not an object) gives 500. */
  lemma ListReplyScenario(settings: Settings, request: FillFormRequest)
    ensures var generated := "[\"a\",\"b\"]";
      FillForm(settings, request,
        (r: HttpRequest) => Replied(200, "OK", Parsed(Envelope(generated))),
        (t: string) => Parsed(JArr([JStr("a"), JStr("b")])))
      == Failed(500, ResponseNotParsed(NotAnObject))
  {
    var generated := "[\"a\",\"b\"]";
    var envelope := Envelope(generated);
    var message := envelope.members["choices"].items[0].members["message"];
    assert "content" in message.members;
    assert CarriesContent(envelope, JStr(generated));
  }

  /** A timeout gives 503 and no data; a 429 and a 401 both give 503 but
      carry different codes. */
  lemma UpstreamFailureScenarios(settings: Settings, request: FillFormRequest, loads: string -> Decoded)
    ensures FillForm(settings, request, (r: HttpRequest) => RequestFailed("timed out"), loads)
      == Failed(503, ServiceFailed(RequestError("timed out")))
    ensures var tooMany := FillForm(settings, request, (r: HttpRequest) => Replied(429, "Too Many Requests", Undecodable("")), loads);
      var unauthorized := FillForm(settings, request, (r: HttpRequest) => Replied(401, "Unauthorized", Undecodable("")), loads);
      && tooMany == Failed(503, ServiceFailed(StatusError(429, "Too Many Requests")))
      && unauthorized == Failed(503, ServiceFailed(StatusError(401, "Unauthorized")))
      && tooMany != unauthorized
  {
  }
}
