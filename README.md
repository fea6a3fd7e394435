# AI form filler: prompt, provider call and outcome classification

A Dafny model of the request path of the AI form-filling backend. A client
sends a list of form-field names and a block of source text. The endpoint
builds a prompt from them, posts it once to a text-generation provider, pulls
the generated text out of the provider's reply, and answers with the JSON
object the text decodes to, or with HTTP 503 or 500.

Modules, one per concern:

- `Wrappers` (wrappers.dfy): `Option` and `Result`.
- `Text` (text.dfy): Python's `"\n".join`, `str.split("\n")` and `in` on
  strings, with the round trips between join and split and the facts about
  where a text occurs inside another.
- `Json` (json.dfy): the decoded JSON value, Python truthiness, and Python's
  `in` on a dict, a list or a str.
- `LLMServices` (llm_service.dfy): the service class with its three fixed
  fields, the request it posts, the lookup of `choices[0].message.content`
  with Python's semantics step by step, the provider's endpoint as a class
  that logs every request posted to it, and `GetCompletion`, a method proved
  to post once and to return what the function `CompletionOf` gives.
- `FormPrompt` (prompt.dfy): the field list and the prompt template.
- `FormFiller` (form_filler.dfy): the endpoint's two `try` blocks as a total
  function onto success, 503 and 500, the composed endpoint `FillForm`, the
  method `FillFormEndpoint` that runs it with a fresh service object, and the
  end-to-end scenarios.

The network is a `Provider` object. Its constant `respond: HttpRequest ->
Transport` says what a POST of a request produces: a network failure or
timeout, or a reply with a status code, a status message and the decoded
body. Its ghost `log` records every request posted, so the contracts can say
how many POSTs a call makes. JSON
decoding of the completion text is a parameter `loads: string -> Decoded`. The
model does not parse JSON text.

Where the intended design and the code disagree, the model follows the
code:

- The code validates nothing. An empty field list or blank content still
  produces a prompt and a provider call. There is no 400 / invalid-input path.
- A reply envelope without the generated text, or a 2xx body that is not
  JSON, raises a `ValueError` inside `get_completion`. The endpoint's first
  handler catches it, so the answer is 503, not an internal-fault 500.
- There is no catalogue of templates. `prompt_template_id` is ignored.
- The filled data is the decoded object as it is. Keys are not checked
  against the requested fields, and values are not converted to strings in
  this code.
- Generated content that is not a string makes `json.loads` raise
  `TypeError`. Neither endpoint handler catches it, so the application-wide
  handler answers 500 (app/main.py:40-46). The model calls this `Unhandled`.

## Model

| member | source | states |
|---|---|---|
| `Text.SplitLines` | app/api/v1/endpoints/form_filler.py:29 | reading the field list back line by line gives at least one piece, and no piece contains a newline |
| `Text.SplitJoin` | app/api/v1/endpoints/form_filler.py:29 | newline-free lines joined with "\n" split back into exactly those lines, in order |
| `Text.JoinSplit` | app/api/v1/endpoints/form_filler.py:29 | splitting a text at newlines and joining again gives back the text |
| `Text.LineInJoin` | app/api/v1/endpoints/form_filler.py:29 | every line occurs, at a returned index, in the text joined from the lines |
| `Text.JoinEndsWithLast` | app/api/v1/endpoints/form_filler.py:29 | the joined text ends with the last line: no trailing separator |
| `Text.SubstringIff` | app/core/llm_services.py:33 | Python's `in` on two strings holds exactly when the first occurs in the second at some index |
| `Json.Contains` | app/core/llm_services.py:33-35 | `key in v` gives an answer for a dict, a list or a str, and raises (None) for null, bool and numbers |
| `FormPrompt.OneLinePerField` | app/api/v1/endpoints/form_filler.py:29 | with newline-free names, `fields_str` has exactly one line per field, in input order, each the name behind "- " |
| `FormPrompt.NoTrailingNewline` | app/api/v1/endpoints/form_filler.py:29 | `fields_str` ends with the last field's entry, so it ends in a newline only if the last name does |
| `FormPrompt.EmptyBlockIffNoFields` | app/api/v1/endpoints/form_filler.py:29 | `fields_str` is empty exactly when the field list is empty |
| `FormPrompt.FieldInBlock` | app/api/v1/endpoints/form_filler.py:29 | every field name occurs in `fields_str` |
| `FormPrompt.FieldsPlacement` | app/api/v1/endpoints/form_filler.py:31-46 | in any rendered template, the field list sits right after the FIELDS opening marker and right before the closing one, and every name lies inside it |
| `FormPrompt.ContentPlacement` | app/api/v1/endpoints/form_filler.py:37-40 | in any rendered template, the content sits whole right after the CONTENT opening marker and right before the closing one; the prompt's length is the fixed text plus the field list plus the content |
| `FormPrompt.FieldListedBetweenMarkers` | app/api/v1/endpoints/form_filler.py:29-35 | every field name appears verbatim in the prompt, inside `fields_str`, which lies between `--- FIELDS START ---\n` and `\n--- FIELDS END ---` |
| `FormPrompt.ContentVerbatim` | app/api/v1/endpoints/form_filler.py:37-40 | `source_content` appears untruncated between `--- CONTENT START ---\n` and `\n--- CONTENT END ---`; the prompt length is the template plus the field list plus the content |
| `FormPrompt.TemplateIdIgnored` | app/api/v1/endpoints/form_filler.py:30-46 | requests that differ only in `prompt_template_id` get the same prompt |
| `FormPrompt.EmptyFieldsStillPrompted` | app/api/v1/endpoints/form_filler.py:29-35 | an empty field list still yields a prompt, with the FIELDS closing marker right after the opening one |
| `LLMServices.BearerToken` | app/core/llm_services.py:15 | a token read back from an Authorization header is exactly what follows "Bearer " |
| `LLMServices.RequestCarriesKeyAndPrompt` | app/core/llm_services.py:14-24 | the request has exactly the Authorization and Content-Type headers, the bearer token reads back as the API key, the body is JSON, and the payload carries the prompt unchanged with model "deepseek-coder" and 1500 max tokens |
| `LLMServices.ExtractContent` | app/core/llm_services.py:33-36 | the lookup returns a value exactly when the reply holds `choices[0].message.content`, and then returns that content |
| `LLMServices.MissingPathsNotFound` | app/core/llm_services.py:33-45 | a missing `choices`, an empty `choices`, a first choice without `message`, or a message without `content` each fall through to the ValueError |
| `LLMServices.CompletionSucceedsIff` | app/core/llm_services.py:28-36 | `get_completion` returns text exactly when the reply is 2xx, its body decodes, and it holds `choices[0].message.content`; the text is that content |
| `LLMServices.TransportErrorsReraised` | app/core/llm_services.py:47-52 | network or timeout errors and non-2xx statuses leave the method as httpx raised them, not wrapped |
| `LLMServices.ParseErrorsWrapped` | app/core/llm_services.py:53-55 | the wrapping ValueError arises exactly for a 2xx reply whose body does not decode, or decodes but lacks the text without causing a type error; its message starts with "Error parsing LLM API response: " and carries the decoder's message |
| `LLMServices.LLMService.constructor` | app/core/llm_services.py:8-11 | the service keeps the API key and endpoint as given and a 30-second timeout; the fields are constants |
| `LLMServices.LLMService.GetCompletion` | app/core/llm_services.py:13-55 | the provider's log grows by exactly one request (one POST, no retry), built from the fields and the prompt, and the result is what `CompletionOf` gives for the provider's answer to it |
| `LLMServices.Provider.constructor` | app/core/llm_services.py:26 | a fresh provider answers with the given function and has seen no request |
| `LLMServices.Provider.Post` | app/core/llm_services.py:28 | one POST: the log grows by exactly that request, and the reply is the provider's answer to it |
| `LLMServices.CompletionOf` | app/core/llm_services.py:26-55 | no ensures; the result of `get_completion` for the one reply, specified by CompletionSucceedsIff, TransportErrorsReraised and ParseErrorsWrapped |
| `LLMServices.FromFirstChoice` | app/core/llm_services.py:34-36 | no ensures; `.get("message", {})`, `"content" in message` and `message["content"]` on the first choice, specified through ExtractContent |
| `LLMServices.CompletionRequest` | app/core/llm_services.py:14-28 | no ensures; the posted request, specified by RequestCarriesKeyAndPrompt |
| `LLMServices.RequestHeaders` | app/core/llm_services.py:14-17 | no ensures; the two headers, specified by RequestCarriesKeyAndPrompt and BearerToken |
| `FormPrompt.FieldLine` | app/api/v1/endpoints/form_filler.py:29 | no ensures; `f"- {field}"`, specified by OneLinePerField and FieldInBlock |
| `FormPrompt.FieldLines` | app/api/v1/endpoints/form_filler.py:29 | no ensures; the list comprehension, specified by OneLinePerField |
| `FormPrompt.FieldsBlock` | app/api/v1/endpoints/form_filler.py:29 | no ensures; `fields_str`, specified by OneLinePerField, NoTrailingNewline, EmptyBlockIffNoFields and FieldInBlock |
| `FormPrompt.Render` | app/api/v1/endpoints/form_filler.py:31-46 | no ensures; a template with the field list and content filled in, specified by FieldsPlacement and ContentPlacement |
| `FormPrompt.BuildPrompt` | app/api/v1/endpoints/form_filler.py:31-46 | no ensures; `Render` of the constant `Default`, whose seven parts are the f-string's fixed text; specified by FieldListedBetweenMarkers, ContentVerbatim, TemplateIdIgnored and EmptyFieldsStillPrompted |
| `Text.JoinLines` | app/api/v1/endpoints/form_filler.py:29 | no ensures; `"\n".join`, specified by SplitJoin, JoinSplit, LineInJoin and JoinEndsWithLast |
| `Json.Truthy` | app/core/llm_services.py:33 | no ensures; Python's truth value of `choices`, used by ExtractContent and MissingPathsNotFound |
| `FormFiller.Classify` | app/api/v1/endpoints/form_filler.py:49-67 | no ensures; the two `try` blocks, specified by OnlyThreeStatuses, ServiceErrorIff503, FilledIffObject and UnparseableIs500 |
| `FormFiller.FillForm` | app/api/v1/endpoints/form_filler.py:21-67 | no ensures; the whole endpoint as a function, specified by TransportFailuresAre503, MalformedEnvelopeIs503, SucceedsIff and TemplateIdHasNoEffect |
| `FormFiller.FillFormEndpoint` | app/api/v1/endpoints/form_filler.py:21-67 | the provider's log grows by exactly the request built from the settings and the prompt, and the answer is what `FillForm` gives |
| `FormFiller.OnlyThreeStatuses` | app/api/v1/endpoints/form_filler.py:49-67 | every outcome is 200, 500 or 503 |
| `FormFiller.ServiceErrorIff503` | app/api/v1/endpoints/form_filler.py:49-55 | any exception from `get_completion` gives 503 carrying that exception and no data, and 503 arises no other way |
| `FormFiller.FilledIffObject` | app/api/v1/endpoints/form_filler.py:57-67 | success exactly when the completion is a text that decodes to an object; the filled data is then that object |
| `FormFiller.UnparseableIs500` | app/api/v1/endpoints/form_filler.py:57-65 | a completion text that is not JSON, or is JSON but not an object, gives 500 with the reason |
| `FormFiller.TransportFailuresAre503` | app/api/v1/endpoints/form_filler.py:49-55 | a network failure or a non-2xx reply reaches the caller as 503 with the httpx error unchanged |
| `FormFiller.MalformedEnvelopeIs503` | app/api/v1/endpoints/form_filler.py:49-55 | a 2xx reply with an undecodable body or without the generated text gives 503, not 500 |
| `FormFiller.SucceedsIff` | app/api/v1/endpoints/form_filler.py:49-67 | the endpoint succeeds exactly when the one POST gets a 2xx reply whose `choices[0].message.content` is a string decoding to an object; the filled data is that object, whatever the requested fields |
| `FormFiller.TemplateIdHasNoEffect` | app/api/v1/endpoints/form_filler.py:30 | the template identifier changes nothing the endpoint does |
| `FormFiller.CustomerOrderScenario` | app/api/v1/endpoints/form_filler.py:29-67 | fields "Customer" and "Order ID" with a reply carrying `{"Customer":"Alice","Order ID":"SN001"}` give exactly that mapping |
| `FormFiller.PartialMappingScenario` | app/api/v1/endpoints/form_filler.py:57-67 | a reply missing a requested field is still a success with the partial mapping |
| `FormFiller.ListReplyScenario` | app/api/v1/endpoints/form_filler.py:57-65 | generated text `["a","b"]` gives 500, not an object |
| `FormFiller.UpstreamFailureScenarios` | app/api/v1/endpoints/form_filler.py:49-55 | a timeout gives 503 with no data; 429 and 401 both give 503 but carry different codes |

## Left out

- The httpx `AsyncClient`, `await` and the network round trip. The network is a `Provider` whose `respond` function gives the outcome of a POST; the functional model `FillForm` takes that function as its `network` parameter.
- Exceptions from `client.post` other than httpx's `RequestError` (an invalid URL, for one). They would also reach the endpoint's first handler as 503.
- JSON decoding (`response.json()`, `json.loads`). It is a given outcome (`Decoded`), not a parser. JSON numbers are reals, so the model does not tell Python's int from float.
- `temperature` is the real 0.1. The Python value is a binary float.
- Python's TypeError and AttributeError from looking into a reply of the wrong shape are one error, `TypeFault`. Both reach the endpoint as 503.
- The text of error messages. The model keeps which exception occurred, its status code and the wrapped ValueError's message. It does not keep httpx's or Python's wording, the endpoint's `detail` strings, or the catch-all handler's message.
- Logging, including the 200-character prompt snippet.
- FastAPI routing, CORS, startup and shutdown hooks, the settings loader and its cache. The API key and endpoint are plain values (`Settings`).
- Pydantic validation of the request and response bodies. This includes whether non-string values in `filled_data` are accepted, which is library behaviour.
- httpx's `raise_for_status` is modelled as "any code outside 200-299 raises".
- FormPrompt.OneLinePerField: assumes field names contain no newline. A name with a newline spans several lines of `fields_str`, and the source does nothing about it.
- FormPrompt.EmptyFieldsStillPrompted: states the adjacency of the template's two FIELDS markers, not the literal joined marker text.
