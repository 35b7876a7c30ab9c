/**
 * How the two scripts fit together: a `callAI` request from content.js,
 * answered by the background script, settles the content script's promise.
 */
module Extension {
  import opened Wrappers
  import opened JsValues
  import opened Messages
  import opened Background
  import opened Content

  /**
   * The envelope carries the call's outcome across unchanged: the content
   * script's promise settles with exactly what `callAIAPI` returned or threw,
   * and its fallback 'An unknown error occurred.' never applies.
   */
  lemma EnvelopeRoundTrip(request: RuntimeRequest, settings: Settings, reply: FetchOutcome)
    ensures Settle(Answered(HandleAICall(request, settings, reply).envelope))
         == CallAIAPI(settings, request.prompt, request.selectedText, reply).result
  {
    FailureMessageNonEmpty(request, settings, reply);
  }

  /**
   * A `callAI` message is answered exactly once; the provider, if one is
   * called, sees only the prompt and the selection, never the context.
   */
  lemma CallAIAnsweredOnce(prompt: string, selectedText: string, context: seq<ChatMessage>, settings: Settings, reply: FetchOutcome)
    ensures var o := OnRuntimeMessage(RuntimeRequest("callAI", prompt, selectedText, context, JUndefined), settings, reply);
      o.keepOpen && |o.responses| == 1 && o.responses[0].messageId == JUndefined
      && |o.sent| <= 1
      && forall k :: 0 <= k < |o.sent| ==> o.sent[k].body.messages == [ApiMessage("user", FullPrompt(prompt, selectedText))]
  {
  }

  /** Without an API key a chat turn is answered with the settings error and leaves its user record dangling. */
  lemma ChatTurnWithoutKey(ctx: seq<ChatMessage>, message: string, apiProvider: Option<string>, reply: FetchOutcome)
    ensures var request := RuntimeRequest("callAI", message, "", ctx + [UserRecord(message)], JUndefined);
      var outcome := Settle(Answered(HandleAICall(request, Settings(None, apiProvider), reply).envelope));
      && outcome == Err(MissingKeyMessage)
      && HandleAICall(request, Settings(None, apiProvider), reply).sent == []
      && ChatTurn(ctx, message, outcome) == ctx + [UserRecord(message)]
  {
  }

  /**
   * A tooltip prompt about a selection is stored as `About "<sel>": <prompt>`,
   * while the provider is asked `<prompt>\n\nSelected text: "<sel>"`.
   */
  lemma StoredAndSentPrompts(input: string, selectedText: string, ctx: seq<ChatMessage>, settings: Settings, reply: FetchOutcome)
    requires selectedText != []
    ensures var prompt := UserPrompt(input);
      var t := CallAIAPI(settings, prompt, selectedText, reply);
      var after := PromptTurn(ctx, CurrentMessage(selectedText, prompt), t.result);
      t.result.Ok? ==>
      && |t.sent| == 1
      && t.sent[0].body.messages == [ApiMessage("user", prompt + "\n\nSelected text: \"" + selectedText + "\"")]
      && after[|after| - 2] == UserRecord("About \"" + selectedText + "\": " + prompt)
      && after[|after| - 1] == AssistantRecord(t.result.value)
  {
  }
}
