/**
 * The conversation state of content.js and the two kinds of turn that
 * change it: the tooltip's `sendPrompt` and the chat window's
 * `sendChatMessage`, with `clearChat`.  The round trip to the background
 * script is an input: the way the awaited promise settles.
 */
module Content {
  import opened Wrappers
  import opened JsValues
  import opened JsStrings
  import opened Messages

  const DefaultPrompt: string := "Explain this with examples and meaning"
  const ContextLimit: nat := 20

  // ---------------------------------------------------------------- message shaping

  /** The trimmed prompt, or the default instruction when nothing but whitespace was typed. */
  function UserPrompt(input: string): (r: string)
    ensures AllWhitespace(input) ==> r == DefaultPrompt
    ensures !AllWhitespace(input) ==> r == Trim(input) && r != []
  {
    TrimEmptyIff(input);
    var t := Trim(input);
    if t == [] then DefaultPrompt else t
  }

  /** The user record stored for a tooltip prompt: the selection is quoted in front of it. */
  function CurrentMessage(selectedText: string, prompt: string): (r: string)
    ensures selectedText == [] ==> r == prompt
    ensures selectedText != [] ==> r == "About \"" + selectedText + "\": " + prompt
  {
    if selectedText != [] then "About \"" + selectedText + "\": " + prompt else prompt
  }

  // ---------------------------------------------------------------- the reply

  /** How the promise around `chrome.runtime.sendMessage` settles. */
  datatype Delivery =
    | ContextInvalidated          // `chrome.runtime.sendMessage` is gone: rejected before sending
    | SendThrew                   // `sendMessage` itself throws after an extension reload: nothing is sent
    | TimedOut                    // the 30-second timer fired first
    | ConnectionError(lastError: string)
    | NoResponse
    | Answered(envelope: Envelope)
  {
    /** Whether `chrome.runtime.sendMessage` accepted the message. */
    predicate Handed() { !ContextInvalidated? && !SendThrew? }
  }

  /** The value the awaited promise yields, or the message of the error it rejects with. */
  function Settle(d: Delivery): (r: Result<JsValue, string>)
    ensures r.Ok? <==> d.Answered? && d.envelope.Success()
    ensures r.Ok? ==> r.value == d.envelope.response
    ensures d.Answered? && d.envelope.FailureEnvelope? ==>
      r.error == if d.envelope.error == [] then "An unknown error occurred." else d.envelope.error
    ensures d.ContextInvalidated? ==> r == Err("Extension context invalidated. Please reload the page.")
    ensures d.SendThrew? ==> r == Err("Extension context invalidated.")
    ensures d.TimedOut? ==> r == Err("Request timeout - please try again")
    ensures d.ConnectionError? ==> r == Err("Connection error: " + d.lastError)
    ensures d.NoResponse? ==> r == Err("No response received from background script.")
    ensures r.Err? ==> r.error != []
  {
    match d
    case ContextInvalidated => Err("Extension context invalidated. Please reload the page.")
    case SendThrew => Err("Extension context invalidated.")
    case TimedOut => Err("Request timeout - please try again")
    case ConnectionError(m) => Err("Connection error: " + m)
    case NoResponse => Err("No response received from background script.")
    case Answered(SuccessEnvelope(v, _)) => Ok(v)
    case Answered(FailureEnvelope(e, _)) => Err(if e == [] then "An unknown error occurred." else e)
  }

  /**
   * Whether `addChatMessage(reply, 'assistant')` returns normally: `parseMarkdown`
   * gives '' for a falsy value and parses a string, and calling `replace` on
   * any other value throws a TypeError.
   */
  predicate RendersAsMarkdown(reply: JsValue)
    ensures reply.Nullish() || reply.JString? ==> RendersAsMarkdown(reply)
    ensures reply.JArray? || reply.JObject? ==> !RendersAsMarkdown(reply)
    ensures reply.JNumber? ==> (RendersAsMarkdown(reply) <==> reply.n == 0.0)
  {
    reply.JString? || !Truthy(reply)
  }

  // ---------------------------------------------------------------- the context window

  /** `if (ctx.length > 20) ctx = ctx.slice(-20)`. */
  function Window(s: seq<ChatMessage>): (r: seq<ChatMessage>)
    ensures |r| == if |s| > 20 then 20 else |s|
    ensures r == s[|s| - |r|..]
  {
    if |s| > ContextLimit then s[|s| - ContextLimit..] else s
  }

  /** Trimming an earlier window does not change the next one: the window slides over the whole log. */
  lemma WindowOfWindow(a: seq<ChatMessage>, b: seq<ChatMessage>)
    ensures Window(Window(a) + b) == Window(a + b)
  {
    var w := Window(a);
    assert a + b == a[..|a| - |w|] + (w + b);
    var x, y := w + b, a + b;
    if |x| > 20 {
      assert x[|x| - 20..] == y[|y| - 20..];
    } else if |a| > 20 {
      assert b == [];
      assert y == a;
    }
  }

  function UserRecord(message: string): ChatMessage { ChatMessage(User, JString(message)) }
  function AssistantRecord(reply: JsValue): ChatMessage { ChatMessage(Assistant, reply) }

  /** The context after a tooltip prompt: the pair is pushed and trimmed only once the reply arrived. */
  function PromptTurn(ctx: seq<ChatMessage>, message: string, outcome: Result<JsValue, string>): (r: seq<ChatMessage>)
    ensures outcome.Err? ==> r == ctx
    ensures outcome.Ok? ==> (
      && |r| == (if |ctx| + 2 > 20 then 20 else |ctx| + 2)
      && r[|r| - 2..] == [UserRecord(message), AssistantRecord(outcome.value)]
      && r == (ctx + [UserRecord(message), AssistantRecord(outcome.value)])[|ctx| + 2 - |r|..])
  {
    match outcome
    case Err(_) => ctx
    case Ok(reply) => Window(ctx + [UserRecord(message), AssistantRecord(reply)])
  }

  /**
   * The context after a chat message: the user record is pushed before the
   * call; the assistant record only on success; the trim only when the reply
   * also rendered.
   */
  function ChatTurn(ctx: seq<ChatMessage>, message: string, outcome: Result<JsValue, string>): (r: seq<ChatMessage>)
    ensures outcome.Err? ==> r == ctx + [UserRecord(message)]
    ensures outcome.Ok? && RendersAsMarkdown(outcome.value) ==>
      |r| <= 20 && r == Window(ctx + [UserRecord(message), AssistantRecord(outcome.value)])
    ensures outcome.Ok? && !RendersAsMarkdown(outcome.value) ==>
      r == ctx + [UserRecord(message), AssistantRecord(outcome.value)]
  {
    var pushed := ctx + [UserRecord(message)];
    match outcome
    case Err(_) => pushed
    case Ok(reply) =>
      var answered := pushed + [AssistantRecord(reply)];
      assert answered == ctx + [UserRecord(message), AssistantRecord(reply)];
      if RendersAsMarkdown(reply) then Window(answered) else answered
  }

  // ---------------------------------------------------------------- the module state

  /** One `conversationHistory` record; `timestamp` stands for `new Date()`. */
  datatype HistoryEntry = HistoryEntry(userPrompt: string, selectedText: string, aiResponse: JsValue, timestamp: int)

  /** The module-level `conversationContext` and `conversationHistory` arrays of content.js. */
  class ContentScript {
    var context: seq<ChatMessage>
    var history: seq<HistoryEntry>

    /** A fresh page: both arrays start empty. */
    constructor ()
      ensures context == [] && history == []
    {
      context := [];
      history := [];
    }

    /**
     * `sendPrompt(selectedText)`.  `promptInput` is the value of the tooltip's
     * input, `None` when the element is missing; `delivery` is how the call
     * settles; `timestamp` is the clock reading.  Returns the message handed
     * to `chrome.runtime.sendMessage`, if one was.
     */
    method SendPrompt(promptInput: Option<string>, selectedText: string, delivery: Delivery, timestamp: int)
      returns (sent: Option<RuntimeRequest>)
      modifies this
      ensures promptInput.None? ==> sent == None && context == old(context) && history == old(history)
      ensures promptInput.Some? ==>
        var prompt := UserPrompt(promptInput.value);
        var outcome := Settle(delivery);
        && sent == (if !delivery.Handed() then None
                    else Some(RuntimeRequest("callAI", prompt, selectedText, old(context), JUndefined)))
        && context == PromptTurn(old(context), CurrentMessage(selectedText, prompt), outcome)
        && history == if outcome.Ok? then old(history) + [HistoryEntry(prompt, selectedText, outcome.value, timestamp)]
                       else old(history)
    {
      if promptInput.None? {
        return None;
      }
      var userPrompt := UserPrompt(promptInput.value);
      var contextMessages := context;
      var currentMessage := CurrentMessage(selectedText, userPrompt);
      sent := if !delivery.Handed() then None
              else Some(RuntimeRequest("callAI", userPrompt, selectedText, contextMessages, JUndefined));
      var outcome := Settle(delivery);
      if outcome.Ok? {
        var response := outcome.value;
        context := context + [UserRecord(currentMessage)];
        context := context + [AssistantRecord(response)];
        assert context == contextMessages + [UserRecord(currentMessage), AssistantRecord(response)];
        if |context| > ContextLimit {
          context := context[|context| - ContextLimit..];
        }
        assert context == PromptTurn(contextMessages, currentMessage, outcome);
        history := history + [HistoryEntry(userPrompt, selectedText, response, timestamp)];
      }
    }

    /**
     * `sendChatMessage()`.  `chatInput` is the value of the chat window's
     * input, `None` when the element is missing.  Returns the message handed
     * to `chrome.runtime.sendMessage`, if one was.
     */
    method SendChatMessage(chatInput: Option<string>, delivery: Delivery)
      returns (sent: Option<RuntimeRequest>)
      modifies this
      ensures chatInput.None? || Trim(chatInput.value) == [] ==>
        sent == None && context == old(context) && history == old(history)
      ensures chatInput.Some? && Trim(chatInput.value) != [] ==>
        var message := Trim(chatInput.value);
        && sent == (if !delivery.Handed() then None
                    else Some(RuntimeRequest("callAI", message, "", old(context) + [UserRecord(message)], JUndefined)))
        && context == ChatTurn(old(context), message, Settle(delivery))
        && history == old(history)
    {
      if chatInput.None? {
        return None;
      }
      var message := Trim(chatInput.value);
      if message == [] {
        return None;
      }
      context := context + [UserRecord(message)];
      sent := if !delivery.Handed() then None
              else Some(RuntimeRequest("callAI", message, "", context, JUndefined));
      var outcome := Settle(delivery);
      if outcome.Ok? {
        var response := outcome.value;
        context := context + [AssistantRecord(response)];
        if RendersAsMarkdown(response) && |context| > ContextLimit {
          context := context[|context| - ContextLimit..];
        }
      }
    }

    /** `clearChat()`: both arrays are emptied. */
    method ClearChat()
      modifies this
      ensures context == [] && history == []
    {
      context := [];
      history := [];
    }
  }

  // ---------------------------------------------------------------- properties of the turns

  /** A reply that did not render leaves the pair untrimmed, so the context can pass 20 entries. */
  lemma UnrenderedReplySkipsTrim(ctx: seq<ChatMessage>, message: string, reply: JsValue)
    requires |ctx| == 20 && !RendersAsMarkdown(reply)
    ensures |ChatTurn(ctx, message, Ok(reply))| == 22
  {
  }

  /** Consecutive failed chat turns, each leaving its user record behind. */
  function FailedChats(ctx: seq<ChatMessage>, messages: seq<string>, error: string): seq<ChatMessage>
    decreases |messages|
  {
    if messages == [] then ctx
    else FailedChats(ChatTurn(ctx, messages[0], Err(error)), messages[1..], error)
  }

  function UserRecords(messages: seq<string>): (r: seq<ChatMessage>)
    ensures |r| == |messages|
    ensures forall k :: 0 <= k < |r| ==> r[k] == UserRecord(messages[k])
    decreases |messages|
  {
    if messages == [] then [] else [UserRecord(messages[0])] + UserRecords(messages[1..])
  }

  /** Failed chat turns never trim: each one adds a dangling user record, so the context grows without bound. */
  lemma {:induction false} FailedChatsAccumulate(ctx: seq<ChatMessage>, messages: seq<string>, error: string)
    ensures FailedChats(ctx, messages, error) == ctx + UserRecords(messages)
    ensures |FailedChats(ctx, messages, error)| == |ctx| + |messages|
    decreases |messages|
  {
    if messages != [] {
      var next := ctx + [UserRecord(messages[0])];
      assert FailedChats(ctx, messages, error) == FailedChats(next, messages[1..], error);
      FailedChatsAccumulate(next, messages[1..], error);
      assert UserRecords(messages) == [UserRecord(messages[0])] + UserRecords(messages[1..]);
      assert next + UserRecords(messages[1..]) == ctx + UserRecords(messages);
    }
  }

  /** A successful prompt turn, or a successful and rendered chat turn, restores the bound whatever the length before. */
  lemma SuccessRestoresBound(ctx: seq<ChatMessage>, message: string, reply: JsValue)
    ensures |PromptTurn(ctx, message, Ok(reply))| <= 20
    ensures RendersAsMarkdown(reply) ==> |ChatTurn(ctx, message, Ok(reply))| <= 20
  {
  }

  /** Records alternate user, assistant, user, assistant, ... in complete pairs. */
  predicate Alternating(s: seq<ChatMessage>)
  {
    && |s| % 2 == 0
    && forall k :: 0 <= k < |s| ==> s[k].role == if k % 2 == 0 then User else Assistant
  }

  /** The records a series of successful prompt turns pushes, in order. */
  function TurnLog(turns: seq<(string, JsValue)>): (r: seq<ChatMessage>)
    ensures |r| == 2 * |turns|
    decreases |turns|
  {
    if turns == [] then [] else [UserRecord(turns[0].0), AssistantRecord(turns[0].1)] + TurnLog(turns[1..])
  }

  /** Successful prompt turns one after another. */
  function PromptTurns(ctx: seq<ChatMessage>, turns: seq<(string, JsValue)>): seq<ChatMessage>
    decreases |turns|
  {
    if turns == [] then ctx else PromptTurns(PromptTurn(ctx, turns[0].0, Ok(turns[0].1)), turns[1..])
  }

  lemma PromptTurnThenWindow(ctx: seq<ChatMessage>, message: string, reply: JsValue, rest: seq<ChatMessage>)
    ensures Window(PromptTurn(ctx, message, Ok(reply)) + rest)
         == Window(ctx + ([UserRecord(message), AssistantRecord(reply)] + rest))
  {
    var pair := [UserRecord(message), AssistantRecord(reply)];
    WindowOfWindow(ctx + pair, rest);
    assert ctx + pair + rest == ctx + (pair + rest);
  }

  /** After successful prompt turns the context is the last 20 records of everything pushed, in order. */
  lemma {:induction false} PromptTurnsWindow(ctx: seq<ChatMessage>, turns: seq<(string, JsValue)>)
    requires |ctx| <= 20 || turns != []
    ensures PromptTurns(ctx, turns) == Window(ctx + TurnLog(turns))
    decreases |turns|
  {
    if turns == [] {
      assert ctx + TurnLog(turns) == ctx;
    } else {
      var next := PromptTurn(ctx, turns[0].0, Ok(turns[0].1));
      PromptTurnsWindow(next, turns[1..]);
      PromptTurnThenWindow(ctx, turns[0].0, turns[0].1, TurnLog(turns[1..]));
    }
  }

  /** Eleven turns from an empty context leave exactly the 20 most recent records: the first pair is dropped. */
  lemma ElevenTurnsKeepTwenty(turns: seq<(string, JsValue)>)
    requires |turns| == 11
    ensures PromptTurns([], turns) == TurnLog(turns)[2..]
    ensures |PromptTurns([], turns)| == 20
  {
    var log := TurnLog(turns);
    PromptTurnsWindow([], turns);
    assert [] + log == log;
    assert Window(log) == log[2..];
  }

  lemma {:induction false} TurnLogAlternates(turns: seq<(string, JsValue)>)
    ensures Alternating(TurnLog(turns))
    decreases |turns|
  {
    if turns != [] {
      TurnLogAlternates(turns[1..]);
      var rest := TurnLog(turns[1..]);
      var all := TurnLog(turns);
      forall k | 2 <= k < |all| ensures all[k].role == if k % 2 == 0 then User else Assistant {
        assert all[k] == rest[k - 2];
      }
    }
  }

  /** Cutting an alternating sequence to its last 20 records keeps it alternating: 20 is even. */
  lemma WindowAlternates(s: seq<ChatMessage>)
    requires Alternating(s)
    ensures Alternating(Window(s))
  {
  }

  /** Prompt turns from an empty context keep records in user/assistant pairs. */
  lemma PromptTurnsAlternate(turns: seq<(string, JsValue)>)
    ensures Alternating(PromptTurns([], turns))
  {
    PromptTurnsWindow([], turns);
    TurnLogAlternates(turns);
    assert [] + TurnLog(turns) == TurnLog(turns);
    WindowAlternates(TurnLog(turns));
  }

  /** A failed chat turn followed by a successful one leaves two user records side by side. */
  lemma FailedChatBreaksAlternation(ctx: seq<ChatMessage>, m1: string, m2: string, error: string, reply: string)
    requires Alternating(ctx) && |ctx| <= 16
    ensures var after := ChatTurn(ChatTurn(ctx, m1, Err(error)), m2, Ok(JString(reply)));
      after == ctx + [UserRecord(m1), UserRecord(m2), AssistantRecord(JString(reply))]
      && !Alternating(after)
  {
  }
}
