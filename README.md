# ezInfo: conversation buffer and AI dispatch, modelled in Dafny

ezInfo is a browser extension. The user selects text on a page and asks a question about it. The extension sends the question to OpenAI, Anthropic or MistralAI and shows the answer in a tooltip or a chat window. This project models the two pieces of sequential logic in that extension.

- **content.js, the content script.** The module-level `conversationContext` and `conversationHistory` arrays are the fields of the class `Content.ContentScript`. The class has methods for the tooltip turn (`sendPrompt`), the chat turn (`sendChatMessage`) and `clearChat`. Each method is specified by a pure transition function: `PromptTurn`, `ChatTurn` and `Window`, the `slice(-20)` trim. The lemmas about the context buffer are stated on those functions. The string functions are pure:
  - default-prompt and "About …" shaping;
  - the 150-character preview of `showResponse` (module `Preview`);
  - the escape and newline stages of `parseMarkdown` and the `<p>` rule of `wrapLists` (module `Markdown`).
- **background.js, the background script.** `callAIAPI`, its three adapters, the `handleAICall` envelope and the two listeners are total functions (module `Background`). Their inputs are the stored settings and the network's answer. Each call reports the HTTP requests it sent next to its result. "No fetch" is therefore the statement `sent == []`.
- **JavaScript semantics.** `JsValues` covers truthiness, property reads, and the TypeError raised when reading a property of `null`. `JsStrings` covers `trim`, `lastIndexOf`, `substring`, global literal `replace` and decimal rendering. Both modules model exactly these language features.
- **`Extension`** joins the two scripts. The envelope carries `callAIAPI`'s outcome back to the content script's promise unchanged.

Behaviour of the code worth knowing, which the model follows:
- Requests carry `max_tokens: 500`, not 1000.
- The conversation context is sent to the background script but never forwarded to a provider. Every request holds one user message (background.js:40, 105).
- A non-ok reply is reported by its status line only. The body's error text is read but discarded, and there is no special wording for 401 or 403 (`Background.RateLimitedReportsStatusLine`).
- The default prompt is applied only by `sendPrompt`. The background script forwards the prompt it receives unchanged.
- The 20-entry bound does not hold after every append:
  - A failed chat turn keeps its user record and skips the trim (`Content.FailedChatsAccumulate`).
  - A reply that makes `addChatMessage` throw skips the trim too (`Content.UnrenderedReplySkipsTrim`).
  - Strict user/assistant alternation is lost after a failed chat turn (`Content.FailedChatBreaksAlternation`).

## Model

| member | source | states |
|---|---|---|
| `JsValues.Get` | background.js:119-123 | reading a property throws exactly on `null`/`undefined`, with V8's message; objects give their own member or `undefined`; numbers and booleans give `undefined` |
| `JsValues.FirstElement` | background.js:119 | `x[0]` on an array is its first element, or `undefined` if it is empty |
| `JsValues.Truthy` | background.js:119 | ECMAScript ToBoolean: `null` and `undefined` are falsy, arrays and objects truthy, strings exactly when non-empty, numbers exactly when non-zero |
| `JsValues.NullishReadMessage` | background.js:119 | the TypeError text `Cannot read properties of null/undefined (reading '<key>')`, which names the key at its end |
| `JsStrings.TrimStart` | content.js:169 | the result is a suffix of the input, only whitespace was removed, and it starts with non-whitespace |
| `JsStrings.TrimEnd` | content.js:169 | the result is a prefix of the input, only whitespace was removed, and it ends with non-whitespace |
| `JsStrings.Trim` | content.js:409 | the trimmed text starts and ends with non-whitespace |
| `JsStrings.TrimIsSlice` | content.js:169 | `trim()` is a contiguous slice of the input with only whitespace cut off on either side |
| `JsStrings.TrimEmptyIff` | content.js:409-410 | `trim()` is empty exactly when the input is all ECMAScript whitespace |
| `JsStrings.LastIndexOf` | content.js:248 | the result is -1 or an index of the character, and the character does not occur after it |
| `JsStrings.Substring` | content.js:247-248 | within bounds, `substring(a, b)` is the slice `a..b`; two non-positive ends give `''` |
| `JsStrings.ReplaceAll` | content.js:27-29 | the output holds only characters of the input or of the replacement; a one-character pattern absent from the replacement is gone from the output; for a one-character pattern, the three lemmas below fix each occurrence becoming the replacement and the rest kept in order (the `\n\n` pass is fixed by `Markdown.ParagraphBreak`, `Markdown.LineBreak` and `Markdown.NewlineStageWithoutNewlines`) |
| `JsStrings.ReplaceOneChar` | content.js:42-43 | a one-character string becomes the replacement exactly when it is the pattern, and stays otherwise |
| `JsStrings.ReplaceAtMatch` | content.js:42-43 | an occurrence at the front is replaced and the scan resumes right after it |
| `JsStrings.ReplaceAfterPrefix` | content.js:42-43 | a prefix that does not contain the pattern's first character is copied through unchanged, in order |
| `JsStrings.Decimal` | background.js:114 | `${n}` is a non-empty digit string with no leading zero |
| `JsStrings.ParseDecimalOfDecimal` | background.js:119 | parsing the decimal text of `n` as an index key gives `n` |
| `JsStrings.DecimalOfParseIndex` | background.js:119 | a canonical index key is the decimal text of the index it names |
| `Background.ProviderName` | background.js:68 | an unset or empty `apiProvider` means `openai`; any other stored value is kept |
| `Background.SelectAdapter` | background.js:80-88 | an adapter is chosen only for its exact identifier; every other string chooses none |
| `Background.SelectAdapterExact` | background.js:80-88 | `SelectAdapter(name) == Some(p)` exactly when `name` is the identifier of `p` |
| `Background.FullPrompt` | background.js:74-76 | with a selection, the prompt is followed by `\n\nSelected text: "<sel>"`; without one, it is unchanged |
| `Background.HeaderValue` | background.js:99-101 | the value of the first header of that name: no earlier header has the name; `None` means there is none |
| `Background.BuildRequest` | background.js:97-108 | a POST to the provider's endpoint with its model, one `user` message holding the prompt, `max_tokens` 500, temperature 0.7 except for Anthropic; exactly two headers (Bearer `Authorization` and `Content-Type`), or for Anthropic exactly three (`x-api-key`, `Content-Type`, `anthropic-version: 2023-06-01`) |
| `Background.ChoiceContent` | background.js:117-123 | a `null` body throws the property-read TypeError; any other failure is "Invalid response format from <Name> API"; only an object body can succeed |
| `Background.ContentBlockText` | background.js:152-158 | the same for Anthropic's shape; only an object body can succeed, and a success is always a truthy value |
| `Background.ChoiceContentOfShape` | background.js:119-123 | for any `choices[0]`: an object with a truthy `message` gives `message.content`, whatever it is; anything else (`null`, a string, an object without a truthy `message`) is "Invalid response format from <Name> API" |
| `Background.ContentBlockTextOfShape` | background.js:154-158 | for any `content[0]`: an object with a truthy `text` gives that text; anything else (`null`, a string, a missing or falsy `text`, `""` included) is an invalid-format error |
| `Background.ChoiceContentRejects` | background.js:119-121 | a body with no `choices`, a falsy one, or an empty array of them is an invalid-format error |
| `Background.ContentBlockTextRejects` | background.js:154-156 | a body with no `content`, a falsy one, or an empty array of blocks is an invalid-format error |
| `Background.AdapterBody` | background.js:96-123 | a network failure throws its message; a non-ok status throws `<Name> API error (<status>): <statusText>`; an unparseable body throws its SyntaxError; otherwise the provider's payload is extracted |
| `Background.Adapter` | background.js:96-127 | a non-ok status gives `<Name> API call failed: <Name> API error (<status>): <statusText>`; a network failure and an unparseable body are wrapped the same way; an ok parsed reply gives the extracted payload, or the invalid-format error with the prefix; every error carries the prefix |
| `Background.CallAIAPI` | background.js:63-93 | a missing or empty key gives the settings error and sends nothing; an unknown provider gives `Unknown API provider: <p>` and sends nothing; a known provider sends exactly its request and returns the adapter's outcome |
| `Background.NoRequestNoNetwork` | background.js:70-88 | when nothing is sent, the result is an error that does not depend on the network reply |
| `Background.ProviderSeesFullPrompt` | background.js:74-85 | the one request sent carries only the full prompt as a user message, with `max_tokens` 500 |
| `Background.DefaultProviderHello` | background.js:117-123 | with the default provider, a 200 reply `{"choices":[{"message":{"content":"hello"}}]}` yields `"hello"` |
| `Background.RateLimitedReportsStatusLine` | background.js:111-115 | a 429 reply says `OpenAI API call failed: OpenAI API error (429): Too Many Requests`; the body's error text is dropped |
| `Background.HandleAICall` | background.js:37-60 | the `messageId` is echoed; `success` is true exactly when the call returned; the response or error message is carried unchanged; the requests sent are the call's |
| `Background.ContextIgnored` | background.js:40 | the envelope does not depend on the conversation context in the request |
| `Background.FailureMessageNonEmpty` | background.js:50-58 | every error in a failure envelope is non-empty |
| `Background.OnRuntimeMessage` | background.js:27-35 | only `callAI` is handled: one envelope, and the channel is kept open; any other action gets no response and sends nothing |
| `Background.OrZero` | background.js:18-19 | `v \|\| 0` keeps a truthy value and gives 0 otherwise |
| `Background.OnContextMenuClick` | background.js:12-24 | a `showAIPrompt` message goes to the tab exactly when the item is `askAI` and the selection is non-empty |
| `Markdown.EscapeStage` | content.js:27-29 | the output contains no `<` and no `>`; empty input stays empty |
| `Markdown.EscapeStageIsEscapeEach` | content.js:27-29 | the three passes, `&` first, equal escaping each character once: no entity is escaped twice |
| `Markdown.EscapeRoundTrip` | content.js:27-29 | decoding the three entities in the escaped text gives the original text back |
| `Markdown.NewlineStage` | content.js:42-43 | no `\n` remains after the two newline passes |
| `Markdown.NewlineStageWithoutNewlines` | content.js:42-43 | text without newlines is left unchanged |
| `Markdown.ParagraphBreak` | content.js:42 | after newline-free text, a blank line becomes `</p><p>` and the rest is processed on its own |
| `Markdown.LineBreak` | content.js:43 | after newline-free text, a single newline not followed by another becomes `<br>` |
| `Markdown.TwoParagraphs` | content.js:42-43 | the newline stage turns `a\n\nb` into `a</p><p>b` |
| `Markdown.ParseMarkdown` | content.js:23-44 | empty input gives `''`; whatever the markup passes do, the output holds no `\n` |
| `Markdown.WrapParagraph` | content.js:51-54 | text that is non-empty and does not open with `<h1-6`, `<ul`, `<ol`, `<pre`, `<div` or `<p` is wrapped in `<p>…</p>`; other text is unchanged; a non-empty result always opens a block |
| `Markdown.WrapLists` | content.js:46-56 | whatever the list pass does, non-empty output opens a block |
| `Preview.StripMarks` | content.js:241 | no `#*`_-+` remains, the result is never longer than the input, and text without marks is unchanged |
| `Preview.StripMarksCounts` | content.js:241 | every mark is removed and every other character keeps its number of occurrences |
| `Preview.CutPoint` | content.js:248 | the cut falls at the last space among the first 150 characters, or at 0 when no space lies past index 0 |
| `Preview.ShowResponse` | content.js:241-250 | the text is cut exactly when it exceeds 150 characters without markdown marks (Read More is shown exactly then); uncut text is shown whole; cut text is the response up to the cut plus `...` |
| `Preview.EllipsisOnly` | content.js:247-249 | a cut preview is just `...` exactly when positions 1 to 149 hold no space |
| `Preview.NoSpaceCollapses` | content.js:247-249 | a 200-character reply without spaces is shown as `...` with Read More |
| `Content.UserPrompt` | content.js:169-172 | blank input becomes "Explain this with examples and meaning"; anything else is the trimmed, non-empty input |
| `Content.CurrentMessage` | content.js:178-180 | with a selection, the stored message is `About "<sel>": <prompt>`; without one, it is the prompt |
| `Content.Settle` | content.js:182-208 | the promise resolves exactly on a success envelope, with its response; a missing `sendMessage`, a `sendMessage` that throws after a reload, the timeout, a `lastError` and a missing response reject with "Extension context invalidated. Please reload the page.", "Extension context invalidated.", "Request timeout - please try again", "Connection error: <lastError>" and "No response received from background script."; an empty envelope error becomes 'An unknown error occurred.' |
| `Content.RendersAsMarkdown` | content.js:24-26 | `addChatMessage` of an assistant reply returns for a string or a falsy value and throws for an array, an object or a non-zero number |
| `Content.Window` | content.js:213-215 | keeps the last `min(n, 20)` records in their order |
| `Content.WindowOfWindow` | content.js:213-215 | trimming an earlier window does not change a later one: the window slides over the whole log |
| `Content.PromptTurn` | content.js:210-215 | a failed prompt leaves the context unchanged; a success ends with the user/assistant pair, has `min(n + 2, 20)` records, and is a suffix of the old context plus the pair |
| `Content.ChatTurn` | content.js:421-470 | failure: the user record stays and there is no assistant record or trim; rendered reply: pushed and trimmed to 20 at most; reply that throws while rendering: pushed, not trimmed |
| `Content.ContentScript.constructor` | content.js:4-5 | both arrays start empty |
| `Content.ContentScript.SendPrompt` | content.js:165-232 | no input element: nothing happens; else a request holding the defaulted prompt and the context before the turn is sent unless `sendMessage` is missing or throws; the context follows `PromptTurn`; one history record is added only on success |
| `Content.ContentScript.SendChatMessage` | content.js:405-479 | blank input: nothing happens; else a request whose context already ends with the user record is sent unless `sendMessage` is missing or throws; the context follows `ChatTurn`; history is untouched |
| `Content.ContentScript.ClearChat` | content.js:395-397 | context and history both become empty |
| `Content.UnrenderedReplySkipsTrim` | content.js:465-470 | a reply that throws in `addChatMessage` takes a full context of 20 records to 22 |
| `Content.UserRecords` | content.js:421 | one user record per message, in order |
| `Content.FailedChatsAccumulate` | content.js:421 | k failed chat turns add k dangling user records: no bound on the length |
| `Content.SuccessRestoresBound` | content.js:213-215 | a successful prompt turn, or a successful chat turn that renders, brings any context back to at most 20 records |
| `Content.TurnLog` | content.js:210-211 | each successful turn pushes two records |
| `Content.PromptTurnThenWindow` | content.js:213-215 | trimming after a prompt turn and then again is the same as trimming once |
| `Content.PromptTurnsWindow` | content.js:210-215 | after successful prompt turns from a context within the bound, or after at least one turn from any context, the context is the last 20 records of everything pushed, in order |
| `Content.ElevenTurnsKeepTwenty` | content.js:210-215 | 11 turns from empty leave exactly 20 records: all but the first pair |
| `Content.TurnLogAlternates` | content.js:210-211 | pushed records alternate user, assistant, in pairs |
| `Content.WindowAlternates` | content.js:213-215 | cutting an alternating context to its last 20 records keeps it alternating |
| `Content.PromptTurnsAlternate` | content.js:210-215 | prompt turns from an empty context keep strict user/assistant alternation |
| `Content.FailedChatBreaksAlternation` | content.js:421-470 | a failed chat turn and then a successful one put two user records next to each other |
| `Extension.EnvelopeRoundTrip` | background.js:44-58 | the content script's promise settles on exactly what `callAIAPI` returned or threw |
| `Extension.CallAIAnsweredOnce` | background.js:30-34 | a `callAI` message is answered once, with no `messageId`; any request sent carries only the full prompt |
| `Extension.ChatTurnWithoutKey` | background.js:70-72 | without a key, a chat turn gets the settings error, sends no request, and leaves its user record dangling |
| `Extension.StoredAndSentPrompts` | content.js:178-193 | a prompt about a selection is stored as `About "<sel>": <prompt>`, while the provider is asked `<prompt>\n\nSelected text: "<sel>"` |

## Left out

- DOM work in content.js is not modelled: tooltip and chat-window construction, positioning, dragging, minimising, loading and error rendering, `loadChatHistory` and `escapeHtml`. The missing-element checks that gate state are kept as `None` inputs.
- The heading, emphasis, code and list passes of `parseMarkdown` and the list-wrapping pass of `wrapLists` are lazy regular expressions. They are function parameters (`markup`, `listPass`) of `Markdown.ParseMarkdown` and `Markdown.WrapLists`, and each property is proved for any such function.
- `chrome.runtime.sendMessage`, `chrome.tabs.sendMessage`, `chrome.storage` and `fetch` are inputs. The `Delivery` says how the messaging promise settled, `Settings` gives the stored keys, and `FetchOutcome` gives the network's answer. A rejected `chrome.storage.sync.get` and a failing `response.text()` are not modelled.
- `chrome.runtime.sendMessage` throwing synchronously is modelled only for the "Extension context invalidated." error it raises after an extension reload (`SendThrew`). Any other synchronous throw would reject with its own message, which the model does not capture.
- The 30-second timeout race is the `TimedOut` case of `Delivery`; timers are not modelled.
- Overlapping turns are not modelled: each turn runs as one atomic step from its first push to its last. In the code turns can overlap, because the chat Send button is never disabled (content.js:372) and Enter in the tooltip input calls `sendPrompt` even while its button is disabled (content.js:142-146, 540). The pushes each turn makes after its `await` then interleave, which the model does not capture.
- JSON parsing of real bodies is not modelled. A body is either the parsed value or the SyntaxError message that `response.json()` would throw. JSON numbers are `real`, with no floating-point rounding.
- Property reads model only own members and array/string index keys. None of the keys read here (`choices`, `message`, `content`, `text`, `0`) names a member of a prototype. Array index keys have no 2^32 - 2 limit.
- Strings are sequences of Unicode scalar values. JavaScript counts UTF-16 code units, so a reply with characters outside the Basic Multilingual Plane is measured and cut at different points.
- Console logging and `new Date()` are left out. The timestamp of a history record is a method parameter.
- popup.js, a settings form and statistics display, is not part of this model. Its `testAPI` message gets no handler, which `Background.OnRuntimeMessage` shows for every action except `callAI`.
- JSON serialisation across the messaging channel is not modelled. It drops `undefined` fields, which leaves the values read here unchanged.
- Content.ContentScript.SendChatMessage: assumes the chat window's message list exists, because the chat input that triggers the send lives in the same window. If that list were missing, `addChatMessage` would return early and never throw, and the trim would always run.
- Content.ContentScript.SendPrompt: does not model what is displayed. `showResponse` throws for a reply that is not a string. That happens after both arrays are updated, so the state is the same either way.
