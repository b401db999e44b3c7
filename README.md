# AI chatbot: the chat route, the chat page and the title editor

This project models a small Next.js chat application in Dafny and proves properties of the model. The application has three parts.

- The `/api/chat` route handler takes a conversation, a provider name and an optional model. It forwards the conversation to one of three language-model SDKs and answers in one of two ways:
  - for OpenAI, a raw text stream of the completion's delta contents;
  - for Anthropic and Google, a JSON body `{response}`.

  It fails with a JSON `{error}`:
  - status 400 for an unknown provider;
  - status 500, with the provider's prefix, when an SDK call throws;
  - status 500 `Server error: …` when the body cannot be read.
- The client chat page holds the conversation as component state. It has the provider and model pickers, the send guard and the three ways it consumes the route's answer. Any failure appends a fixed apology message, and the page always returns to idle.
- The editable conversation title is a two-mode widget. A click starts editing. Enter or blur hands the parent the trimmed text, unless that text is empty. Escape reverts the edit buffer.

Modules:

| module | file | what it holds |
|---|---|---|
| `Wrappers` | `wrappers.dfy` | `Option` and `Result` |
| `Text` | `text.dfy` | JavaScript `trim` over the ECMAScript whitespace and line-terminator code points, and in-order concatenation of text fragments |
| `Protocol` | `protocol.dfy` | the JSON shapes exchanged by the page and the route |
| `Gateway` | `gateway.dfy` | the route |
| `Chat` | `chat.dfy` | the page's controller, as a class over the component state |
| `TitleEdit` | `title_edit.dfy` | the title editor, as a class |
| `EndToEnd` | `end_to_end.dfy` | the page and the route composed |

The route is modelled twice, and the two are proved to agree:

- `Gateway.Route` is a function of the parsed body and three SDK oracles.
- `Gateway.Post` is a method that follows the `switch` and pumps the completion into a writer.

The page's `sendMessage` is split at the `fetch`:

- `BeginSend` runs the synchronous part and returns the body it would post.
- `FinishSend` consumes the answer, given as a `Reply`.

The React state setters become assignments to the class's fields.

## Model

| member | source | states |
|---|---|---|
| Text.Trim | app/components/Chat.js:102 | `trim` yields the slice of the input between its leading and trailing whitespace. The result is empty exactly when the input is all whitespace. Otherwise it starts and ends with a non-whitespace character. |
| Text.TrimUnique | app/components/Chat.js:105 | Any slice with only whitespace around it and non-whitespace at both ends is the trimmed text, so `trim` is fully determined by its contract. |
| Text.TrimIdempotent | app/components/EditableTitle.js:17-18 | Trimming trimmed text changes nothing. |
| Text.ConcatPrefixStep | app/components/Chat.js:83 | Adding one fragment to the accumulator gives the concatenation of one more fragment. |
| Text.ConcatAppend | app/components/Chat.js:83 | The concatenation of two fragment lists is the concatenation of each list, in order. |
| Text.ConcatLength | app/components/Chat.js:83 | The accumulated text is exactly as long as all fragments together, so nothing is lost or repeated. |
| Gateway.ResolveModel | app/api/chat/route.js:23 | `model \|\| default`: a non-empty supplied model is passed through unchanged. An absent or empty one is replaced by the default. The result is empty only when the default is. |
| Gateway.JoinItemAt | app/api/chat/route.js:60 | Every message content appears unchanged in the Anthropic prompt, at its offset, in message order. |
| Gateway.JoinSeparatorAfter | app/api/chat/route.js:60 | Exactly one space follows every content but the last, and the next content starts right after it. |
| Gateway.JoinEndsWithLast | app/api/chat/route.js:60 | The prompt ends with the last content: nothing is appended after it. |
| Gateway.JoinLength | app/api/chat/route.js:60 | For n >= 1 messages, the prompt is as long as the contents together plus n - 1 separators. |
| Text.TotalLengthFront | app/api/chat/route.js:60 | The total length of the items, counted from the back, equals the first item's length plus the total of the rest. This lets the prompt length be counted from the front as the join builds it. |
| Gateway.GeminiReshape | app/api/chat/route.js:82-85 | The reshaped Gemini contents keep the message count and order. Each entry has exactly one part, holding the content. "assistant" becomes "model" and every other role becomes "user". A user/assistant history reads back unchanged. |
| Gateway.StreamTextIsPresentContents | app/api/chat/route.js:35-38 | The streamed text is the concatenation of the delta contents that are present, in order. A chunk with no choice, delta or content adds nothing. |
| Gateway.StreamWriter.Write | app/api/chat/route.js:37 | A write appends its text to what was written, and only while the writer is open. |
| Gateway.StreamWriter.Close | app/api/chat/route.js:42 | Closing leaves the written text alone and marks the writer closed, once. |
| Gateway.PumpCompletion | app/api/chat/route.js:33-44 | The detached loop writes one fragment per chunk, in order, and then closes the writer exactly once, whether or not the iteration threw. |
| Gateway.Shape | app/api/chat/route.js:15-110 | A request leads to an SDK call exactly when its provider is openai, anthropic or google. The call goes to that provider's SDK. It uses the request's model when non-empty and the provider's default otherwise. OpenAI receives the messages unchanged. Anthropic receives the contents joined by one space. Google receives the reshaped Gemini contents. |
| Gateway.Route | app/api/chat/route.js:10-118 | Error results: an unreadable body answers 500 `Server error: `+message, and an unknown provider answers 400 `Invalid provider`. Every error status is 400 or 500, and a 500 for a parsed body carries the provider's error prefix. Successful results: only OpenAI answers with a stream, and only Anthropic and Google answer with JSON. Per provider: OpenAI answers with the stream of the completion's delta texts when its SDK call succeeds, and with exactly 500 `OpenAI error: `+message when it throws. Anthropic and Google answer with JSON `{response}` holding the SDK's text, and with exactly 500 `Anthropic error: ` or `Google AI error: `+message on failure. Each provider's call gets the resolved model and the messages in its own shape. |
| Gateway.Post | app/api/chat/route.js:10-118 | The handler as it runs answers exactly as `Route` says and makes exactly the SDK call `Shape` says. It closes a stream exactly once when it answers with one. |
| Chat.Models | app/components/Chat.js:6-19 | Every provider offers at least one model, and no model name is empty. |
| Chat.AnswerTurn | app/components/Chat.js:131-155 | A turn adds one or two assistant messages. A failure ends with the fixed apology. A JSON answer adds its `response`. A stream adds the concatenated text, plus the apology when a read rejected. A rejected fetch or a non-ok status adds the apology only. |
| Chat.StreamingStep | app/components/Chat.js:85-92 | Reading the next fragment replaces only the last message, extending its text by that fragment. Every earlier message stays as it was. |
| Chat.UserTurnKeepsWellFormed | app/components/Chat.js:105-114 | Appending the trimmed input as a user message keeps the history well formed: roles are user/assistant, and user texts are trimmed and non-empty. |
| Chat.AssistantTurnKeepsWellFormed | app/components/Chat.js:43-98 | Appending assistant messages keeps the history well formed. |
| Chat.ChatController.constructor | app/components/Chat.js:22-26 | The initial state: no messages, empty input, OpenAI with its first model, not loading. |
| Chat.ChatController.EditInput | app/components/Chat.js:262-265 | Typing, which is possible only while idle, sets the input. |
| Chat.ChatController.ProviderChange | app/components/Chat.js:37-41 | Picking a provider selects it together with its first model. |
| Chat.ChatController.ModelChange | app/components/Chat.js:183-189 | Picking one of the current provider's models selects it. |
| Chat.ChatController.NewChat | app/components/Chat.js:158-161 | A new chat clears the messages and the input and nothing else. |
| Chat.ChatController.BeginSend | app/components/Chat.js:100-129 | Nothing is sent, and nothing changes, exactly when the trimmed input is empty or a turn is in flight. Otherwise the page becomes busy, the input is cleared and the trimmed input is appended as a user message. The whole history is then posted with the provider and model. |
| Chat.ChatController.AppendWholeResponse | app/components/Chat.js:43-67 | The Gemini and Anthropic handlers append one assistant message holding `response`. |
| Chat.ChatController.HandleStreamingResponse | app/components/Chat.js:69-98 | The streaming handler leaves exactly one new assistant message, holding all fragments concatenated in order. It reports failure exactly when a read rejected. |
| Chat.ChatController.FinishSend | app/components/Chat.js:131-155 | After the fetch, the history grows by exactly `AnswerTurn` of the reply, and the page is idle again. |
| Chat.ChatController.SendMessage | app/components/Chat.js:100-156 | A whole send is rejected exactly as `BeginSend` says. An accepted one posts the history plus the user message, then leaves that history followed by the answer's messages, with the page idle and the input empty. |
| TitleEdit.SubmitCalls | app/components/EditableTitle.js:16-21 | A submit calls `onUpdate` at most once. It makes no call exactly when the text is whitespace only. Otherwise it passes the trimmed, non-empty text. |
| TitleEdit.SubmitKeepsTitlesTrimmed | app/components/EditableTitle.js:17-18 | Handing over the trimmed text keeps every title the parent received trimmed and non-empty. |
| TitleEdit.EditableTitle.constructor | app/components/EditableTitle.js:5-7 | On mount the widget is not editing, and the edit buffer holds the title. |
| TitleEdit.EditableTitle.SetTitle | app/components/EditableTitle.js:7 | A new title prop changes the title and leaves the edit buffer as it was. |
| TitleEdit.EditableTitle.Click | app/components/EditableTitle.js:48 | Clicking the displayed title enters editing. |
| TitleEdit.EditableTitle.Change | app/components/EditableTitle.js:41 | Typing sets the edit buffer. |
| TitleEdit.EditableTitle.Submit | app/components/EditableTitle.js:16-21 | A submit records the calls `SubmitCalls` gives and leaves editing. The parent has only ever received trimmed, non-empty titles. |
| TitleEdit.EditableTitle.KeyDown | app/components/EditableTitle.js:23-31 | Enter submits. Escape restores the title into the buffer and leaves editing without calling `onUpdate`. Any other key changes nothing. |
| TitleEdit.EditableTitle.Blur | app/components/EditableTitle.js:42 | Losing focus submits exactly as Enter does. |
| EndToEnd.ClientView | app/components/Chat.js:131-146 | The page sees the route's stream as exactly its fragments, its JSON as exactly its `response` and an error as not ok with the same status and error. It never sees a thrown fetch. A route stream never reads as rejected, because the route closes it in `finally`. |
| EndToEnd.RouteAnswersInPageShape | app/components/Chat.js:137-146 | Every provider the page offers is one the route handles. The route answers each one in the shape the page reads it in. |
| EndToEnd.PickedModelReachesUpstream | app/components/Chat.js:124-128 | The model the page posts is never empty, so the SDK receives the picked model and never the route's default. |
| EndToEnd.FirstTurn | app/components/Chat.js:100-156 | A first turn from a fresh page posts exactly the trimmed user text, and the route answers it. The page then holds that message followed by the streamed text, the JSON response or the apology. |

## Left out

- Rendering, styling, scrolling to the newest message, focusing the title input, `Sidebar.js` and `page.js`: they only present state.
- The network, the environment's API keys, the SDK clients and logging: the three SDKs are parameters (`Gateway.Upstream`), each answering a call with a result or the message it threw.
- Parsing the request body: it is abstracted as `Gateway.Body`, the request or the message of the error it threw.
- `TextEncoder`/`TextDecoder` and the transport's re-chunking of the stream: decoding is the identity. The page therefore reads the fragments the route wrote.
- Gateway.PumpCompletion: the loop is detached from the response in the source, so the page may read the stream while it is still being written. The model runs the loop to completion first, which yields the same text. A failing write or close is not modelled.
- Chat.ChatController.FinishSend: requires the reply's shape to match the provider (`Chat.Matches`). The route never answers otherwise, as `EndToEnd.RouteAnswersInPageShape` proves.
- Stale closures of React state: two sends in one render, or a new chat while a stream is being read, are not modelled.
- TitleEdit.EditableTitle.Blur: the blur that unmounting the input fires after Enter or Escape is not modelled as a second event.
- Text.Trim: it works on Unicode scalar values, not on UTF-16 code units.
- No session store and no title generation appear in the route or the page, so none is modelled. Google is answered by a single `generateContent` call, not by a stream, as the route does.
