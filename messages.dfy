/**
 * Records exchanged between the content script and the background script
 * through the extension's messaging channels.
 */
module Messages {
  import opened JsValues

  datatype Role = User | Assistant

  /** The `role` string stored with each conversation record. */
  function RoleName(r: Role): string
  {
    match r
    case User => "user"
    case Assistant => "assistant"
  }

  /**
   * A `{role, content}` record of the conversation context.  A user record
   * always holds a string; an assistant record holds whatever the reply
   * carried, which need not be a string.
   */
  datatype ChatMessage = ChatMessage(role: Role, content: JsValue)

  /** A message given to `chrome.runtime.sendMessage`. */
  datatype RuntimeRequest = RuntimeRequest(
    action: string,
    prompt: string,
    selectedText: string,
    conversationContext: seq<ChatMessage>,
    messageId: JsValue)

  /** What the background script passes to `sendResponse` for a `callAI` request. */
  datatype Envelope =
    | SuccessEnvelope(response: JsValue, messageId: JsValue)
    | FailureEnvelope(error: string, messageId: JsValue)
  {
    /** The `success` field of the envelope. */
    predicate Success() { SuccessEnvelope? }
  }

  /** The `showAIPrompt` message the background script sends to a tab. */
  datatype TabMessage = ShowAIPrompt(selectedText: string, x: JsValue, y: JsValue)
}
