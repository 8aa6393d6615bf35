/**
 * The browser-side client `generatePost` (src/services/api.ts): check the key, send one request
 * to the relay, and classify the reply into generated content or an `APIError`.
 * The HTTP transport is not modelled; what `fetch` and `response.json()` hand back is an input.
 */
module ApiClient {
  import opened Strings
  import opened Types
  import GenerateRoute

  datatype GeneratePostOptions = GeneratePostOptions(brief: string, apiKey: string, systemPrompt: string)

  /** The decoded JSON payload; either field may be missing. */
  datatype Payload = Payload(content: Option<string>, error: Option<string>)

  /** What the transport yields: a response with its `ok` flag and payload, or a rejection (network, non-JSON body). */
  datatype Reply = HttpReply(ok: bool, payload: Payload) | TransportFailure

  /** How `generatePost` settles: it resolves with content, rejects with an `APIError`, or rejects with anything else. */
  datatype Generation = Content(text: string) | ApiError(message: string) | OtherFailure

  /** One invocation: the request body it sends, if it sends one, and how it settles. */
  datatype Call = Call(sent: Option<GenerateRoute.RequestBody>, result: Generation)

  const ApiKeyRequiredMessage: string := "API key is required"
  const GenericFailureMessage: string := "Failed to generate post"
  const NoContentMessage: string := "No content generated"

  /** `JSON.stringify({ brief, apiKey, systemPrompt })`, as the relay parses it back. */
  function RequestBodyOf(options: GeneratePostOptions): GenerateRoute.RequestBody {
    GenerateRoute.JsonBody(Some(options.brief), Some(options.apiKey), Some(options.systemPrompt))
  }

  /** `payload.error || 'Failed to generate post'`. */
  function ErrorOrDefault(error: Option<string>): (m: string)
    ensures m != ""
    ensures Truthy(error) ==> m == error.value
    ensures !Truthy(error) ==> m == GenericFailureMessage
  {
    if Truthy(error) then error.value else GenericFailureMessage
  }

  function GeneratePost(options: GeneratePostOptions, reply: Reply): (call: Call)
    ensures call.sent.None? <==> options.apiKey == ""
    ensures call.sent.Some? ==> call.sent.value == RequestBodyOf(options)
    ensures options.apiKey == "" ==> call.result == ApiError(ApiKeyRequiredMessage)
    ensures call.result.OtherFailure? <==> options.apiKey != "" && reply.TransportFailure?
    ensures options.apiKey != "" && reply.HttpReply? && !reply.ok ==>
      call.result == ApiError(ErrorOrDefault(reply.payload.error))
    ensures options.apiKey != "" && reply.HttpReply? && reply.ok && !Truthy(reply.payload.content) ==>
      call.result == ApiError(NoContentMessage)
    ensures call.result.Content? <==>
      options.apiKey != "" && reply.HttpReply? && reply.ok && Truthy(reply.payload.content)
    ensures call.result.Content? ==> reply.payload.content == Some(call.result.text) && call.result.text != ""
    ensures call.result.ApiError? ==> call.result.message != ""
  {
    if options.apiKey == "" then
      Call(None, ApiError(ApiKeyRequiredMessage))
    else
      var sent := Some(RequestBodyOf(options));
      match reply
      case TransportFailure => Call(sent, OtherFailure)
      case HttpReply(ok, payload) =>
        if !ok then Call(sent, ApiError(ErrorOrDefault(payload.error)))
        else if !Truthy(payload.content) then Call(sent, ApiError(NoContentMessage))
        else Call(sent, Content(payload.content.value))
  }

  /** The reply the browser reads from one relay response: `ok` is a 2xx status, the JSON is the payload. */
  function ReplyFromRoute(response: GenerateRoute.Response): Reply {
    var payload := match response.json
      case ContentReply(c) => Payload(Some(c), None)
      case ErrorReply(e) => Payload(None, Some(e));
    HttpReply(200 <= response.status < 300, payload)
  }

  /**
   * Client and relay end to end: with a key the client resolves exactly when the relay answers 200,
   * and then with the relay's trimmed, non-empty content; a whitespace-only field is refused by
   * the relay before any provider call, and its message reaches the caller as an `APIError`.
   */
  lemma ClientOverRoute(options: GeneratePostOptions, provider: GenerateRoute.ProviderOutcome)
    requires options.apiKey != ""
    ensures var handled := GenerateRoute.Post(RequestBodyOf(options), provider);
      var call := GeneratePost(options, ReplyFromRoute(handled.response));
      && (call.result.Content? <==> handled.response.status == 200)
      && (call.result.Content? ==> call.result.text != "" && IsTrimmed(call.result.text))
      && !call.result.OtherFailure?
      && (AllWhitespace(options.brief) || AllWhitespace(options.apiKey) || AllWhitespace(options.systemPrompt) ==>
            handled.providerRequest.None? && call.result == ApiError(GenerateRoute.MissingFieldsMessage))
      && (handled.response.json.ErrorReply? ==> call.result == ApiError(handled.response.json.error))
  {
  }
}
