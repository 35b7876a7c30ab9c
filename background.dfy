/**
 * The background script: routing of context-menu clicks and runtime messages,
 * `callAIAPI` with its three provider adapters, and the `handleAICall`
 * response envelope.  Settings storage and the network are inputs: a
 * `Settings` record read from storage and the `FetchOutcome` the network
 * gives for the one request sent.  Every call returns the list of requests
 * it sent along with its result.
 */
module Background {
  import opened Wrappers
  import opened JsValues
  import opened JsStrings
  import opened Messages

  // ---------------------------------------------------------------- settings

  /** The `apiKey` and `apiProvider` entries of synced storage; `None` when unset. */
  datatype Settings = Settings(apiKey: Option<string>, apiProvider: Option<string>)

  datatype Provider = OpenAI | Anthropic | MistralAI

  /** The value stored under `apiProvider` that selects each adapter. */
  function ProviderId(p: Provider): string
  {
    match p
    case OpenAI => "openai"
    case Anthropic => "anthropic"
    case MistralAI => "mistralai"
  }

  /** The provider's name as it appears in error messages. */
  function DisplayName(p: Provider): string
  {
    match p
    case OpenAI => "OpenAI"
    case Anthropic => "Anthropic"
    case MistralAI => "MistralAI"
  }

  /** `result.apiProvider || 'openai'`: an unset or empty provider means OpenAI. */
  function ProviderName(stored: Option<string>): (name: string)
    ensures stored.Some? && stored.value != [] ==> name == stored.value
    ensures stored.None? || stored.value == [] ==> name == ProviderId(OpenAI)
    ensures name != []
  {
    if stored.Some? && stored.value != [] then stored.value else "openai"
  }

  /** The `if`/`else if` chain on the provider: exact string equality, nothing else. */
  function SelectAdapter(name: string): (r: Option<Provider>)
    ensures r.Some? ==> ProviderId(r.value) == name
    ensures r.None? ==> forall p: Provider :: ProviderId(p) != name
  {
    if name == "openai" then Some(OpenAI)
    else if name == "anthropic" then Some(Anthropic)
    else if name == "mistralai" then Some(MistralAI)
    else None
  }

  /** Each provider is reached by exactly its own identifier. */
  lemma SelectAdapterExact(name: string, p: Provider)
    ensures SelectAdapter(name) == Some(p) <==> name == ProviderId(p)
  {
  }

  // ---------------------------------------------------------------- requests

  /** The prompt sent to the provider: the selection, when there is one, is quoted after it. */
  function FullPrompt(prompt: string, selectedText: string): (r: string)
    ensures selectedText == [] ==> r == prompt
    ensures selectedText != [] ==> r == prompt + "\n\nSelected text: \"" + selectedText + "\""
  {
    if selectedText != [] then prompt + "\n\nSelected text: \"" + selectedText + "\"" else prompt
  }

  datatype Header = Header(name: string, value: string)

  /** One `{role, content}` entry of a request's `messages` array. */
  datatype ApiMessage = ApiMessage(role: string, content: string)

  /** The JSON body of a request; `temperature` is absent from Anthropic's. */
  datatype RequestBody = RequestBody(
    model: string,
    messages: seq<ApiMessage>,
    maxTokens: nat,
    temperature: Option<real>)

  datatype HttpRequest = HttpRequest(
    url: string,
    httpMethod: string,
    headers: seq<Header>,
    body: RequestBody)

  const MaxTokens: nat := 500
  const Temperature: real := 0.7
  const AnthropicVersion: string := "2023-06-01"

  function Endpoint(p: Provider): string
  {
    match p
    case OpenAI => "https://api.openai.com/v1/chat/completions"
    case Anthropic => "https://api.anthropic.com/v1/messages"
    case MistralAI => "https://api.mistral.ai/v1/chat/completions"
  }

  function ModelName(p: Provider): string
  {
    match p
    case OpenAI => "gpt-3.5-turbo"
    case Anthropic => "claude-3-sonnet-20240229"
    case MistralAI => "mistral-medium"
  }

  function Headers(p: Provider, apiKey: string): seq<Header>
  {
    match p
    case Anthropic =>
      [Header("x-api-key", apiKey), Header("Content-Type", "application/json"),
       Header("anthropic-version", AnthropicVersion)]
    case _ =>
      [Header("Authorization", "Bearer " + apiKey), Header("Content-Type", "application/json")]
  }

  /** The value of the first header called `name`. */
  function HeaderValue(headers: seq<Header>, name: string): (r: Option<string>)
    ensures r.Some? ==> exists k :: (0 <= k < |headers| && headers[k] == Header(name, r.value)
      && forall j :: 0 <= j < k ==> headers[j].name != name)
    ensures r.None? ==> forall k :: 0 <= k < |headers| ==> headers[k].name != name
  {
    if headers == [] then None
    else if headers[0].name == name then Some(headers[0].value)
    else HeaderValue(headers[1..], name)
  }

  /** The one request each adapter sends: a POST carrying the prompt as the only message. */
  function BuildRequest(p: Provider, apiKey: string, prompt: string): (req: HttpRequest)
    ensures req.httpMethod == "POST" && req.url == Endpoint(p)
    ensures req.body.model == ModelName(p)
    ensures |req.headers| == if p.Anthropic? then 3 else 2
    ensures req.body.messages == [ApiMessage("user", prompt)]
    ensures req.body.maxTokens == 500
    ensures req.body.temperature == if p.Anthropic? then None else Some(0.7)
    ensures HeaderValue(req.headers, "Content-Type") == Some("application/json")
    ensures p.Anthropic? ==> (HeaderValue(req.headers, "x-api-key") == Some(apiKey)
      && HeaderValue(req.headers, "anthropic-version") == Some("2023-06-01")
      && HeaderValue(req.headers, "Authorization") == None)
    ensures !p.Anthropic? ==> (HeaderValue(req.headers, "Authorization") == Some("Bearer " + apiKey)
      && HeaderValue(req.headers, "x-api-key") == None)
  {
    var h := Headers(p, apiKey);
    assert p.Anthropic? ==> HeaderValue(h[2..], "anthropic-version") == Some(AnthropicVersion);
    assert h[1..][1..] == h[2..];
    HttpRequest(
      Endpoint(p), "POST", h,
      RequestBody(ModelName(p), [ApiMessage("user", prompt)], MaxTokens,
                  if p.Anthropic? then None else Some(Temperature)))
  }

  // ---------------------------------------------------------------- replies

  /** A reply body: parsed JSON, or the SyntaxError message of `response.json()`. */
  datatype Body = Parsed(json: JsValue) | Unparseable(syntaxError: string)

  datatype HttpResponse = HttpResponse(status: nat, statusText: string, body: Body)
  {
    /** `response.ok`: a status in the range 200 to 299. */
    predicate Ok() { 200 <= status <= 299 }
  }

  /** What `fetch` settles with: a rejection (network failure) or a response. */
  datatype FetchOutcome = NetworkFailure(message: string) | Responded(response: HttpResponse)

  function InvalidFormat(p: Provider): string
  {
    "Invalid response format from " + DisplayName(p) + " API"
  }

  function StatusError(p: Provider, status: nat, statusText: string): string
  {
    DisplayName(p) + " API error (" + Decimal(status) + "): " + statusText
  }

  /**
   * `data.choices[0].message.content`, guarded by the truthiness of
   * `data.choices`, `data.choices[0]` and `data.choices[0].message`.  Only the
   * first read can throw: every later base has passed the truthiness guard.
   */
  function ChoiceContent(p: Provider, data: JsValue): (r: Result<JsValue, string>)
    ensures data.Nullish() ==> r == Err(NullishReadMessage(data, "choices"))
    ensures !data.Nullish() && r.Err? ==> r.error == InvalidFormat(p)
    ensures r.Ok? ==> data.JObject?
  {
    if data.Nullish() then Err(NullishReadMessage(data, "choices"))
    else
      var choices := Member(data, "choices");
      if !Truthy(choices) then Err(InvalidFormat(p))
      else
        var first := Member(choices, "0");
        if !Truthy(first) then Err(InvalidFormat(p))
        else
          var message := Member(first, "message");
          if !Truthy(message) then Err(InvalidFormat(p))
          else Ok(Member(message, "content"))
  }

  /** `data.content[0].text`, guarded by the truthiness of each step including the text itself. */
  function ContentBlockText(data: JsValue): (r: Result<JsValue, string>)
    ensures data.Nullish() ==> r == Err(NullishReadMessage(data, "content"))
    ensures !data.Nullish() && r.Err? ==> r.error == InvalidFormat(Anthropic)
    ensures r.Ok? ==> data.JObject? && Truthy(r.value)
  {
    if data.Nullish() then Err(NullishReadMessage(data, "content"))
    else
      var content := Member(data, "content");
      if !Truthy(content) then Err(InvalidFormat(Anthropic))
      else
        var first := Member(content, "0");
        if !Truthy(first) then Err(InvalidFormat(Anthropic))
        else
          var text := Member(first, "text");
          if !Truthy(text) then Err(InvalidFormat(Anthropic))
          else Ok(text)
  }

  /** The payload an adapter reads from a parsed body of an ok reply. */
  function Extract(p: Provider, data: JsValue): Result<JsValue, string>
  {
    if p.Anthropic? then ContentBlockText(data) else ChoiceContent(p, data)
  }

  /**
   * The `try` block of an adapter after its `fetch` settled: a network
   * failure, a non-ok status, an unparseable body and an unexpected shape
   * each throw; otherwise the extracted payload is returned.
   */
  function AdapterBody(p: Provider, reply: FetchOutcome): (r: Result<JsValue, string>)
    ensures reply.NetworkFailure? ==> r == Err(reply.message)
    ensures reply.Responded? && !reply.response.Ok() ==>
      r == Err(StatusError(p, reply.response.status, reply.response.statusText))
    ensures reply.Responded? && reply.response.Ok() && reply.response.body.Unparseable? ==>
      r == Err(reply.response.body.syntaxError)
    ensures reply.Responded? && reply.response.Ok() && reply.response.body.Parsed? ==>
      r == Extract(p, reply.response.body.json)
  {
    match reply
    case NetworkFailure(m) => Err(m)
    case Responded(resp) =>
      if !resp.Ok() then Err(StatusError(p, resp.status, resp.statusText))
      else
        match resp.body
        case Unparseable(m) => Err(m)
        case Parsed(data) => Extract(p, data)
  }

  /**
   * A chat-completion body whose first choice is an object with a truthy
   * message yields that message's `content`, whatever it is; any other first
   * choice (`null`, a string, an object without a message) is an
   * invalid-format error.
   */
  lemma ChoiceContentOfShape(p: Provider, members: map<string, JsValue>, first: JsValue, rest: seq<JsValue>)
    requires "choices" in members && members["choices"] == JArray([first] + rest)
    ensures first.JObject? && "message" in first.members && Truthy(first.members["message"]) ==>
      ChoiceContent(p, JObject(members)) == Ok(Member(first.members["message"], "content"))
    ensures !(first.JObject? && "message" in first.members && Truthy(first.members["message"])) ==>
      ChoiceContent(p, JObject(members)) == Err(InvalidFormat(p))
  {
  }

  /** A chat-completion body without `choices`, with a falsy one or with none in the array, is an invalid-format error. */
  lemma ChoiceContentRejects(p: Provider, members: map<string, JsValue>)
    ensures "choices" !in members ==> ChoiceContent(p, JObject(members)) == Err(InvalidFormat(p))
    ensures "choices" in members && !Truthy(members["choices"]) ==>
      ChoiceContent(p, JObject(members)) == Err(InvalidFormat(p))
    ensures "choices" in members && members["choices"] == JArray([]) ==>
      ChoiceContent(p, JObject(members)) == Err(InvalidFormat(p))
  {
  }

  /** A messages body without `content`, with a falsy one or with no block in the array, is an invalid-format error. */
  lemma ContentBlockTextRejects(members: map<string, JsValue>)
    ensures "content" !in members ==> ContentBlockText(JObject(members)) == Err(InvalidFormat(Anthropic))
    ensures "content" in members && !Truthy(members["content"]) ==>
      ContentBlockText(JObject(members)) == Err(InvalidFormat(Anthropic))
    ensures "content" in members && members["content"] == JArray([]) ==>
      ContentBlockText(JObject(members)) == Err(InvalidFormat(Anthropic))
  {
  }

  /**
   * A messages body whose first block is an object with a truthy `text` yields
   * it; any other first block (`null`, a string, an object whose text is
   * missing or falsy, the empty string included) is an invalid-format error.
   */
  lemma ContentBlockTextOfShape(members: map<string, JsValue>, first: JsValue, rest: seq<JsValue>)
    requires "content" in members && members["content"] == JArray([first] + rest)
    ensures first.JObject? && "text" in first.members && Truthy(first.members["text"]) ==>
      ContentBlockText(JObject(members)) == Ok(first.members["text"])
    ensures !(first.JObject? && "text" in first.members && Truthy(first.members["text"])) ==>
      ContentBlockText(JObject(members)) == Err(InvalidFormat(Anthropic))
  {
  }

  /** An adapter's outcome: every error it throws is re-thrown prefixed by its `catch`. */
  function Adapter(p: Provider, reply: FetchOutcome): (r: Result<JsValue, string>)
    ensures reply.Responded? && !reply.response.Ok() ==>
      r == Err(DisplayName(p) + " API call failed: " + StatusError(p, reply.response.status, reply.response.statusText))
    ensures reply.NetworkFailure? ==> r == Err(DisplayName(p) + " API call failed: " + reply.message)
    ensures reply.Responded? && reply.response.Ok() && reply.response.body.Unparseable? ==>
      r == Err(DisplayName(p) + " API call failed: " + reply.response.body.syntaxError)
    ensures reply.Responded? && reply.response.Ok() && reply.response.body.Parsed? ==>
      var x := Extract(p, reply.response.body.json);
      r == if x.Ok? then x else Err(DisplayName(p) + " API call failed: " + x.error)
    ensures r.Err? ==> exists inner :: r.error == DisplayName(p) + " API call failed: " + inner
  {
    match AdapterBody(p, reply)
    case Ok(v) => Ok(v)
    case Err(e) => Err(DisplayName(p) + " API call failed: " + e)
  }

  // ---------------------------------------------------------------- callAIAPI

  const MissingKeyMessage: string := "Please set your API key in extension options"

  /** The HTTP requests a call sent, and the value it returned or the message it threw. */
  datatype CallTrace = CallTrace(sent: seq<HttpRequest>, result: Result<JsValue, string>)

  /**
   * `callAIAPI(userPrompt, selectedText)` with storage holding `settings` and
   * the network answering the request, if one is sent, with `reply`.
   */
  function CallAIAPI(settings: Settings, prompt: string, selectedText: string, reply: FetchOutcome): (t: CallTrace)
    ensures (settings.apiKey.None? || settings.apiKey.value == []) ==>
      t == CallTrace([], Err(MissingKeyMessage))
    ensures settings.apiKey.Some? && settings.apiKey.value != [] && SelectAdapter(ProviderName(settings.apiProvider)).None? ==>
      t == CallTrace([], Err("Unknown API provider: " + ProviderName(settings.apiProvider)))
    ensures settings.apiKey.Some? && settings.apiKey.value != [] && SelectAdapter(ProviderName(settings.apiProvider)).Some? ==>
      var p := SelectAdapter(ProviderName(settings.apiProvider)).value;
      t == CallTrace([BuildRequest(p, settings.apiKey.value, FullPrompt(prompt, selectedText))], Adapter(p, reply))
    ensures |t.sent| <= 1
  {
    var provider := ProviderName(settings.apiProvider);
    if settings.apiKey.None? || settings.apiKey.value == [] then CallTrace([], Err(MissingKeyMessage))
    else
      var apiKey := settings.apiKey.value;
      var full := FullPrompt(prompt, selectedText);
      match SelectAdapter(provider)
      case Some(p) => CallTrace([BuildRequest(p, apiKey, full)], Adapter(p, reply))
      case None => CallTrace([], Err("Unknown API provider: " + provider))
  }

  /** When no request is sent, the result cannot depend on the network. */
  lemma NoRequestNoNetwork(settings: Settings, prompt: string, selectedText: string, r1: FetchOutcome, r2: FetchOutcome)
    requires CallAIAPI(settings, prompt, selectedText, r1).sent == []
    ensures CallAIAPI(settings, prompt, selectedText, r2) == CallAIAPI(settings, prompt, selectedText, r1)
    ensures CallAIAPI(settings, prompt, selectedText, r1).result.Err?
  {
  }

  /** The one message the provider receives is the full prompt, whatever the settings and the reply. */
  lemma ProviderSeesFullPrompt(settings: Settings, prompt: string, selectedText: string, reply: FetchOutcome)
    requires CallAIAPI(settings, prompt, selectedText, reply).sent != []
    ensures var req := CallAIAPI(settings, prompt, selectedText, reply).sent[0];
      req.body.messages == [ApiMessage("user", FullPrompt(prompt, selectedText))] && req.body.maxTokens == 500
  {
  }

  /** A 200 reply `{"choices":[{"message":{"content":"hello"}}]}` under the default provider yields "hello". */
  lemma DefaultProviderHello(apiKey: string, prompt: string, selectedText: string)
    requires apiKey != []
    ensures var body := JObject(map["choices" := JArray([JObject(map["message" := JObject(map["content" := JString("hello")])])])]);
      CallAIAPI(Settings(Some(apiKey), None), prompt, selectedText, Responded(HttpResponse(200, "OK", Parsed(body)))).result
        == Ok(JString("hello"))
  {
  }

  /**
   * A 429 reply is reported by its status line alone: the error text of the
   * body, `{"error":{"message":"rate limited"}}` here, never reaches the message.
   */
  lemma RateLimitedReportsStatusLine(apiKey: string, prompt: string)
    requires apiKey != []
    ensures var body := JObject(map["error" := JObject(map["message" := JString("rate limited")])]);
      CallAIAPI(Settings(Some(apiKey), Some("openai")), prompt, "", Responded(HttpResponse(429, "Too Many Requests", Parsed(body)))).result
        == Err(DisplayName(OpenAI) + " API call failed: " + StatusError(OpenAI, 429, "Too Many Requests"))
    ensures StatusError(OpenAI, 429, "Too Many Requests") == DisplayName(OpenAI) + " API error (" + "429" + "): " + "Too Many Requests"
  {
    var body := JObject(map["error" := JObject(map["message" := JString("rate limited")])]);
    var reply := Responded(HttpResponse(429, "Too Many Requests", Parsed(body)));
    assert !reply.response.Ok();
    assert SelectAdapter(ProviderName(Some("openai"))) == Some(OpenAI);
    assert Adapter(OpenAI, reply) == Err(DisplayName(OpenAI) + " API call failed: " + StatusError(OpenAI, 429, "Too Many Requests"));
    assert Decimal(429) == "429";
  }

  // ---------------------------------------------------------------- handleAICall

  /** The envelope `handleAICall` responds with, and the requests sent on the way. */
  datatype Handled = Handled(envelope: Envelope, sent: seq<HttpRequest>)

  function HandleAICall(request: RuntimeRequest, settings: Settings, reply: FetchOutcome): (h: Handled)
    ensures h.envelope.messageId == request.messageId
    ensures var t := CallAIAPI(settings, request.prompt, request.selectedText, reply);
      h.sent == t.sent
      && (h.envelope.Success() <==> t.result.Ok?)
      && (t.result.Ok? ==> h.envelope.response == t.result.value)
      && (t.result.Err? ==> h.envelope.error == t.result.error)
  {
    var t := CallAIAPI(settings, request.prompt, request.selectedText, reply);
    match t.result
    case Ok(v) => Handled(SuccessEnvelope(v, request.messageId), t.sent)
    case Err(e) => Handled(FailureEnvelope(e, request.messageId), t.sent)
  }

  /** The conversation context carried by a request is never read. */
  lemma ContextIgnored(request: RuntimeRequest, context: seq<ChatMessage>, settings: Settings, reply: FetchOutcome)
    ensures HandleAICall(request.(conversationContext := context), settings, reply)
         == HandleAICall(request, settings, reply)
  {
  }

  /** Every error text in a failure envelope is non-empty. */
  lemma FailureMessageNonEmpty(request: RuntimeRequest, settings: Settings, reply: FetchOutcome)
    ensures var env := HandleAICall(request, settings, reply).envelope;
      env.FailureEnvelope? ==> env.error != []
  {
  }

  // ---------------------------------------------------------------- listeners

  /** What the `runtime.onMessage` listener did: its return value, its responses and its requests. */
  datatype ListenerOutcome = ListenerOutcome(keepOpen: bool, responses: seq<Envelope>, sent: seq<HttpRequest>)

  /** The `runtime.onMessage` listener: only `callAI` is handled, and it keeps the channel open. */
  function OnRuntimeMessage(request: RuntimeRequest, settings: Settings, reply: FetchOutcome): (o: ListenerOutcome)
    ensures o.keepOpen <==> request.action == "callAI"
    ensures request.action == "callAI" ==>
      var h := HandleAICall(request, settings, reply);
      o.responses == [h.envelope] && o.sent == h.sent
    ensures request.action != "callAI" ==> o.responses == [] && o.sent == []
  {
    if request.action == "callAI" then
      var h := HandleAICall(request, settings, reply);
      ListenerOutcome(true, [h.envelope], h.sent)
    else ListenerOutcome(false, [], [])
  }

  /** The `OnClickData` fields the context-menu handler reads. */
  datatype ClickInfo = ClickInfo(menuItemId: string, selectionText: Option<string>, x: JsValue, y: JsValue)

  /** `v || 0`. */
  function OrZero(v: JsValue): (r: JsValue)
    ensures Truthy(v) ==> r == v
    ensures !Truthy(v) ==> r == JNumber(0.0)
  {
    if Truthy(v) then v else JNumber(0.0)
  }

  /** The context-menu handler: the tab and message forwarded, if any. */
  function OnContextMenuClick(info: ClickInfo, tabId: int): (r: Option<(int, TabMessage)>)
    ensures r.Some? <==> info.menuItemId == "askAI" && info.selectionText.Some? && info.selectionText.value != []
    ensures r.Some? ==> (r.value.0 == tabId && r.value.1.selectedText == info.selectionText.value
      && r.value.1.x == OrZero(info.x) && r.value.1.y == OrZero(info.y))
  {
    if info.menuItemId == "askAI" && info.selectionText.Some? && info.selectionText.value != [] then
      Some((tabId, ShowAIPrompt(info.selectionText.value, OrZero(info.x), OrZero(info.y))))
    else None
  }
}
