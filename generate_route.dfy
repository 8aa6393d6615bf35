/**
 * The server relay `POST /api/generate` (app/api/generate/route.ts): validate the JSON body,
 * call the chat-completion provider once, and map its outcome to a status code and a JSON reply.
 * The provider is not modelled; what it yields (a list of choices, or a thrown value) is an input.
 */
module GenerateRoute {
  import opened Strings
  import opened Types

  /**
   * The request as `request.json()` sees it: not JSON at all, or a value with three optional
   * string fields, where a `null` or missing field is `None`.
   */
  datatype RequestBody =
    | InvalidJson
    | JsonBody(brief: Option<string>, apiKey: Option<string>, systemPrompt: Option<string>)

  datatype ChatMessage = ChatMessage(role: string, content: string)

  /** The arguments of the one provider call: the credential, then the completion parameters. */
  datatype ChatRequest = ChatRequest(
    apiKey: string,
    model: string,
    messages: seq<ChatMessage>,
    temperature: int,
    maxTokens: int,
    topP: int,
    frequencyPenalty: int,
    presencePenalty: int)

  /** One completion choice; `content` is absent when the message or its content is missing or null. */
  datatype Choice = Choice(content: Option<string>)

  /** A value thrown by the provider client: an `Error` with its message, or anything else. */
  datatype Thrown = ErrorInstance(message: string) | NonErrorValue

  datatype ProviderOutcome = Completed(choices: seq<Choice>) | Threw(thrown: Thrown)

  datatype JsonReply = ContentReply(content: string) | ErrorReply(error: string)

  datatype Response = Response(status: int, json: JsonReply)

  /** What one request does: the provider call it makes, if any, and the response it returns. */
  datatype Handled = Handled(providerRequest: Option<ChatRequest>, response: Response)

  const InvalidJsonMessage: string := "Invalid JSON body"
  const MissingFieldsMessage: string := "brief, apiKey, and systemPrompt are required"
  const NoContentMessage: string := "No content generated"
  const FailurePrefix: string := "Failed to generate post: "
  const UnknownErrorMessage: string := "Unknown server error"

  /** `field?.trim()`. */
  function TrimField(field: Option<string>): (t: Option<string>)
    ensures t.Some? <==> field.Some?
  {
    if field.Some? then Some(Trim(field.value)) else None
  }

  /** A field that passes the `!field` check after trimming: present and not whitespace only. */
  predicate Filled(field: Option<string>) {
    field.Some? && !AllWhitespace(field.value)
  }

  lemma TruthyTrimField(field: Option<string>)
    ensures Truthy(TrimField(field)) <==> Filled(field)
  {
    if field.Some? {
      TrimEmptyIff(field.value);
    }
  }

  /** The provider call made for a validated request: system prompt first, then the brief. */
  function ChatRequestFor(apiKey: string, systemPrompt: string, brief: string): ChatRequest {
    ChatRequest(
      apiKey, "gpt-4o-mini",
      [ChatMessage("system", systemPrompt), ChatMessage("user", brief)],
      1, 500, 1, 0, 0)
  }

  /** `response.choices[0]?.message?.content?.trim()`. */
  function FirstContent(choices: seq<Choice>): (c: Option<string>)
    ensures c.Some? ==> IsTrimmed(c.value)
  {
    if |choices| > 0 && choices[0].content.Some? then Some(Trim(choices[0].content.value)) else None
  }

  lemma FirstContentTruthy(choices: seq<Choice>)
    ensures Truthy(FirstContent(choices)) <==>
      |choices| > 0 && choices[0].content.Some? && !AllWhitespace(choices[0].content.value)
  {
    if |choices| > 0 && choices[0].content.Some? {
      TrimEmptyIff(choices[0].content.value);
    }
  }

  /** The message of a provider failure: the `Error`'s own message, or a fixed one for anything else. */
  function ThrownMessage(thrown: Thrown): (m: string)
    ensures thrown.ErrorInstance? ==> m == thrown.message
    ensures thrown.NonErrorValue? ==> m == UnknownErrorMessage
  {
    if thrown.ErrorInstance? then thrown.message else UnknownErrorMessage
  }

  predicate AllFilled(body: RequestBody)
    requires body.JsonBody?
  {
    Filled(body.brief) && Filled(body.apiKey) && Filled(body.systemPrompt)
  }

  /** The handler, with its early returns in source order. */
  function Post(body: RequestBody, provider: ProviderOutcome): (h: Handled)
    ensures h.response.status in {200, 400, 500, 502}
    ensures h.response.status == 200 <==> h.response.json.ContentReply?
    ensures h.response.status == 400 <==> h.providerRequest.None?
    ensures body.InvalidJson? ==> h == Handled(None, Response(400, ErrorReply(InvalidJsonMessage)))
    ensures body.JsonBody? && !AllFilled(body) ==> h == Handled(None, Response(400, ErrorReply(MissingFieldsMessage)))
    ensures h.providerRequest.Some? <==> body.JsonBody? && AllFilled(body)
    ensures h.providerRequest.Some? ==>
      h.providerRequest.value == ChatRequestFor(Trim(body.apiKey.value), Trim(body.systemPrompt.value), Trim(body.brief.value))
    ensures h.response.json.ContentReply? ==>
      && provider.Completed? && |provider.choices| > 0 && provider.choices[0].content.Some?
      && h.response.json.content == Trim(provider.choices[0].content.value)
      && h.response.json.content != "" && IsTrimmed(h.response.json.content)
    ensures
      (&& h.providerRequest.Some? && provider.Completed? && |provider.choices| > 0
       && provider.choices[0].content.Some? && !AllWhitespace(provider.choices[0].content.value))
      ==> h.response == Response(200, ContentReply(Trim(provider.choices[0].content.value)))
    ensures h.response.status == 502 <==>
      && h.providerRequest.Some? && provider.Completed?
      && (|provider.choices| == 0 || provider.choices[0].content.None? || AllWhitespace(provider.choices[0].content.value))
    ensures h.response.status == 502 ==> h.response.json == ErrorReply(NoContentMessage)
    ensures h.response.status == 500 <==> h.providerRequest.Some? && provider.Threw?
    ensures h.response.status == 500 ==> h.response.json == ErrorReply(FailurePrefix + ThrownMessage(provider.thrown))
  {
    if body.InvalidJson? then
      Handled(None, Response(400, ErrorReply(InvalidJsonMessage)))
    else
      var brief, apiKey, systemPrompt := TrimField(body.brief), TrimField(body.apiKey), TrimField(body.systemPrompt);
      TruthyTrimField(body.brief);
      TruthyTrimField(body.apiKey);
      TruthyTrimField(body.systemPrompt);
      if !Truthy(brief) || !Truthy(apiKey) || !Truthy(systemPrompt) then
        Handled(None, Response(400, ErrorReply(MissingFieldsMessage)))
      else
        var request := ChatRequestFor(apiKey.value, systemPrompt.value, brief.value);
        match provider
        case Threw(thrown) =>
          Handled(Some(request), Response(500, ErrorReply(FailurePrefix + ThrownMessage(thrown))))
        case Completed(choices) =>
          var content := FirstContent(choices);
          FirstContentTruthy(choices);
          if !Truthy(content) then
            Handled(Some(request), Response(502, ErrorReply(NoContentMessage)))
          else
            Handled(Some(request), Response(200, ContentReply(content.value)))
  }
}
