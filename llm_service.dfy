/** The client for the text-generation provider (app/core/llm_services.py):
    the service object holding the credential, the request it posts, and how
    it turns the provider's reply into the generated text or an exception. */
module LLMServices {
  import opened Wrappers
  import opened Json

  /** Seconds the HTTP client waits for the provider. */
  const DefaultTimeout: nat := 30
  const ModelName: string := "deepseek-coder"
  const MaxTokens: nat := 1500
  /** The payload's `temperature` (a Python float). */
  const Temperature: real := 0.1
  const BearerPrefix: string := "Bearer "
  const JsonContentType: string := "application/json"
  /** Message of the ValueError raised when the reply has no generated text. */
  const NoContentMessage: string := "Could not extract valid content from LLM response."
  /** Prefix of the ValueError that wraps every parsing failure. */
  const ParseErrorPrefix: string := "Error parsing LLM API response: "

  /** The JSON body of the completion request. */
  datatype Payload = Payload(model: string, prompt: string, maxTokens: nat, temperature: real)

  /** One POST to the provider: where, with which headers and body, and how
      long the client waits. */
  datatype HttpRequest = HttpRequest(
    url: string, headers: map<string, string>, payload: Payload, timeout: nat)

  /** What the single POST produced. `RequestFailed` is httpx's RequestError
      (connection refused, DNS failure, timeout) with its message; `Replied`
      is a response: its status code, the message httpx's HTTPStatusError
      would carry for it, and what decoding its body as JSON gives. */
  datatype Transport =
    | RequestFailed(message: string)
    | Replied(statusCode: int, statusMessage: string, body: Decoded)

  /** The exceptions `get_completion` lets out. `StatusError` and
      `RequestError` are httpx's own, re-raised unchanged; `ParseError` is the
      ValueError the method raises after catching a decoding error, a
      KeyError or its own ValueError; `TypeFault` is a TypeError or
      AttributeError from looking into a reply of the wrong shape, which no
      handler catches. */
  datatype CompletionError =
    | StatusError(code: int, message: string)
    | RequestError(message: string)
    | ParseError(message: string)
    | TypeFault

  /** What looking up `choices[0].message.content` in the decoded reply does:
      return a value, fall through to the ValueError, raise KeyError, or meet
      a value of the wrong shape (a type error). */
  datatype Extraction = Found(content: JsonValue) | NotFound | KeyMissing | WrongShape

  /** httpx's `is_success`: `raise_for_status` raises for any other code. */
  predicate IsSuccess(code: int)
  {
    200 <= code < 300
  }

  /** The headers of the completion request. */
  function RequestHeaders(apiKey: string): map<string, string>
  {
    map["Authorization" := BearerPrefix + apiKey, "Content-Type" := JsonContentType]
  }

  /** The credential a provider reads back from an Authorization header. */
  function BearerToken(authorization: string): (r: Option<string>)
    ensures r.Some? ==> authorization == BearerPrefix + r.value
  {
    if |authorization| >= |BearerPrefix| && authorization[..|BearerPrefix|] == BearerPrefix
    then Some(authorization[|BearerPrefix|..])
    else None
  }

  /** The request `get_completion` posts for `prompt`. */
  function CompletionRequest(apiKey: string, url: string, timeout: nat, prompt: string): HttpRequest
  {
    HttpRequest(url, RequestHeaders(apiKey), Payload(ModelName, prompt, MaxTokens, Temperature), timeout)
  }

  /** The request carries the credential as a bearer token that reads back
      as exactly the key, declares a JSON body, and sends the prompt unchanged
      with the fixed model and token limit. */
  lemma RequestCarriesKeyAndPrompt(apiKey: string, url: string, timeout: nat, prompt: string)
    ensures var request := CompletionRequest(apiKey, url, timeout, prompt);
      && request.headers.Keys == {"Authorization", "Content-Type"}
      && BearerToken(request.headers["Authorization"]) == Some(apiKey)
      && request.headers["Content-Type"] == "application/json"
      && request.payload.prompt == prompt
      && request.payload.model == "deepseek-coder"
      && request.payload.maxTokens == 1500
      && request.url == url && request.timeout == timeout
  {
    var auth := BearerPrefix + apiKey;
    assert auth[..|BearerPrefix|] == BearerPrefix;
    assert auth[|BearerPrefix|..] == apiKey;
  }

  /** The generated text sits at `choices[0].message.content` of `data`. */
  ghost predicate CarriesContent(data: JsonValue, content: JsonValue)
  {
    && data.JObj? && "choices" in data.members
    && var choices := data.members["choices"];
    && choices.JArr? && |choices.items| > 0
    && var first := choices.items[0];
    && first.JObj? && "message" in first.members
    && var message := first.members["message"];
    && message.JObj? && "content" in message.members
    && message.members["content"] == content
  }

  /** The lookup of lines 33-36, step by step with Python's semantics:
      `"choices" in data`, `data["choices"]`, its truthiness, `[0]`,
      `.get("message", {})`, `"content" in message`, `message["content"]`. */
  function FromFirstChoice(first: JsonValue): Extraction
  {
    if !first.JObj? then WrongShape  // `.get` on a non-dict
    else
      var message := if "message" in first.members then first.members["message"] else JObj(map[]);
      match Contains(message, "content")
      case None => WrongShape
      case Some(false) => NotFound
      case Some(true) =>
        if message.JObj? then Found(message.members["content"])
        else WrongShape  // `message["content"]` on a list or a str
  }

  /** Finds the generated text in the decoded reply, exactly when it is at
      `choices[0].message.content`. */
  function ExtractContent(data: JsonValue): (r: Extraction)
    ensures r.Found? ==> CarriesContent(data, r.content)
    ensures forall content :: CarriesContent(data, content) ==> r == Found(content)
  {
    match Contains(data, "choices")
    case None => WrongShape
    case Some(false) => NotFound
    case Some(true) =>
      if !data.JObj? then WrongShape  // `data["choices"]` on a list or a str
      else
        var choices := data.members["choices"];
        if !Truthy(choices) then NotFound
        else match choices
          case JArr(items) => FromFirstChoice(items[0])
          case JObj(_) => KeyMissing  // `choices[0]` on a dict: KeyError 0
          case _ => WrongShape
  }

  /** Each of the shapes the source names as lacking the generated text
      makes the lookup fall through to its ValueError: no `choices`, an empty
      `choices`, a first choice without `message` (which then defaults to
      `{}`), a message without `content`. */
  lemma MissingPathsNotFound(m: map<string, JsonValue>)
    ensures "choices" !in m ==> ExtractContent(JObj(m)) == NotFound
    ensures "choices" in m && m["choices"] == JArr([]) ==> ExtractContent(JObj(m)) == NotFound
    ensures "choices" in m && m["choices"].JArr? && |m["choices"].items| > 0 &&
      m["choices"].items[0].JObj? && "message" !in m["choices"].items[0].members
      ==> ExtractContent(JObj(m)) == NotFound
    ensures "choices" in m && m["choices"].JArr? && |m["choices"].items| > 0 &&
      m["choices"].items[0].JObj? && "message" in m["choices"].items[0].members &&
      m["choices"].items[0].members["message"].JObj? &&
      "content" !in m["choices"].items[0].members["message"].members
      ==> ExtractContent(JObj(m)) == NotFound
  {
  }

  /** The result of `get_completion` for what its one POST produced. */
  function CompletionOf(reply: Transport): Result<JsonValue, CompletionError>
  {
    match reply
    case RequestFailed(message) => Failure(RequestError(message))
    case Replied(code, statusMessage, body) =>
      if !IsSuccess(code) then Failure(StatusError(code, statusMessage))
      else match body
        case Undecodable(message) => Failure(ParseError(ParseErrorPrefix + message))
        case Parsed(data) =>
          match ExtractContent(data)
          case Found(content) => Success(content)
          case NotFound => Failure(ParseError(ParseErrorPrefix + NoContentMessage))
          case KeyMissing => Failure(ParseError(ParseErrorPrefix + "0"))
          case WrongShape => Failure(TypeFault)
  }

  /** `get_completion` returns text exactly when the reply is a 2xx whose
      body decodes and holds `choices[0].message.content`, and then returns
      that content unchanged. */
  lemma CompletionSucceedsIff(reply: Transport, content: JsonValue)
    ensures CompletionOf(reply) == Success(content) <==>
      reply.Replied? && IsSuccess(reply.statusCode) && reply.body.Parsed? &&
      CarriesContent(reply.body.value, content)
  {
  }

  /** Transport failures and non-2xx statuses leave the method as httpx
      raised them, not wrapped. */
  lemma TransportErrorsReraised(reply: Transport)
    ensures reply.RequestFailed? ==> CompletionOf(reply) == Failure(RequestError(reply.message))
    ensures reply.Replied? && !IsSuccess(reply.statusCode) ==>
      CompletionOf(reply) == Failure(StatusError(reply.statusCode, reply.statusMessage))
  {
  }

  /** A 2xx reply whose body does not decode, or decodes but lacks the
      generated text without tripping a type error, becomes the wrapping
      ValueError; nothing else does. */
  lemma ParseErrorsWrapped(reply: Transport)
    ensures CompletionOf(reply).Failure? && CompletionOf(reply).error.ParseError? <==>
      reply.Replied? && IsSuccess(reply.statusCode) &&
      (reply.body.Undecodable? ||
       ExtractContent(reply.body.value) == NotFound || ExtractContent(reply.body.value) == KeyMissing)
    ensures CompletionOf(reply).Failure? && CompletionOf(reply).error.ParseError? ==>
      |ParseErrorPrefix| <= |CompletionOf(reply).error.message| &&
      CompletionOf(reply).error.message[..|ParseErrorPrefix|] == ParseErrorPrefix
    ensures reply.Replied? && IsSuccess(reply.statusCode) && reply.body.Undecodable? ==>
      CompletionOf(reply) == Failure(ParseError(ParseErrorPrefix + reply.body.message))
  {
  }

  /** The service object: credential, endpoint and timeout, set once. */
  class LLMService {
    const apiKey: string
    const apiEndpoint: string
    const timeout: nat

    constructor (apiKey: string, apiEndpoint: string)
      ensures this.apiKey == apiKey && this.apiEndpoint == apiEndpoint
      ensures timeout == DefaultTimeout
    {
      this.apiKey := apiKey;
      this.apiEndpoint := apiEndpoint;
      timeout := DefaultTimeout;
    }

    /** Posts `prompt` once through `provider` and returns the generated
        text or the exception the source raises. */
    method GetCompletion(prompt: string, provider: Provider)
      returns (result: Result<JsonValue, CompletionError>)
      modifies provider
      ensures provider.log == old(provider.log) + [CompletionRequest(apiKey, apiEndpoint, timeout, prompt)]
      ensures result == CompletionOf(provider.respond(CompletionRequest(apiKey, apiEndpoint, timeout, prompt)))
    {
      var headers := RequestHeaders(apiKey);
      var payload := Payload(ModelName, prompt, MaxTokens, Temperature);
      var request := HttpRequest(apiEndpoint, headers, payload, timeout);
      var response := provider.Post(request);
      match response {
        case RequestFailed(message) =>
          result := Failure(RequestError(message));
          return;
        case Replied(code, statusMessage, body) =>
          if !IsSuccess(code) {
            result := Failure(StatusError(code, statusMessage));
            return;
          }
          if body.Undecodable? {
            result := Failure(ParseError(ParseErrorPrefix + body.message));
            return;
          }
          var data := body.value;
          var lookup := ExtractContent(data);
          if lookup.Found? {
            result := Success(lookup.content);
            return;
          }
          var error: CompletionError;
          if lookup.WrongShape? {
            error := TypeFault;
          } else if lookup.KeyMissing? {
            error := ParseError(ParseErrorPrefix + "0");
          } else {
            error := ParseError(ParseErrorPrefix + NoContentMessage);
          }
          result := Failure(error);
      }
    }
  }

  /** The provider's endpoint as the HTTP client sees it: `respond` says what
      a POST of a request produces, and `log` records every request posted,
      in order. */
  class Provider {
    const respond: HttpRequest -> Transport
    ghost var log: seq<HttpRequest>

    constructor (respond: HttpRequest -> Transport)
      ensures this.respond == respond && log == []
    {
      this.respond := respond;
      log := [];
    }

    /** `client.post`: one request sent, and what came back. */
    method Post(request: HttpRequest) returns (reply: Transport)
      modifies this
      ensures log == old(log) + [request]
      ensures reply == respond(request)
    {
      reply := respond(request);
      log := log + [request];
    }
  }
}
