# SiglerAI chat widgets: the conversation state machine

The repository holds React chat widgets. Each widget keeps a message log, a
text buffer and (in the newer widget) an "AI is typing" flag. It posts the
user's question to a prediction endpoint and appends the answer to the log.
This project models the one piece of real logic they share: `sendMessage`,
the initial state, and the predicate that enables the send button. It covers
both widgets:

- `src/App.js` (module `FetchWidget`, class `App`). Its log is seeded with a
  welcome message on mount. It raises `isTyping` while a request is pending
  and uses `fetch`. Its fallback text is "⚠️ I encountered an issue processing
  your request. Please try again.".
- `App.js` (module `AxiosWidget`, class `ChatBot`). Its log starts empty. It
  has no typing flag and uses axios. Its fallback text is "Sorry, something
  went wrong.".

The `await` inside `sendMessage` splits each send into two steps:

- `SendMessage` covers the guard, the user message, clearing the buffer and
  raising the flag. It returns the question put in the request body.
- `Settle(resp)` covers the rest: the bot message (the answer or the
  fallback) and lowering the flag in the `finally` block.

A `Response` is either a transport error or a status with a body. The body is
a parsed JSON value with its `text` property, JSON `null`, or something that
is not JSON. `FetchOutcome` and `AxiosOutcome` decide, the way each client
does, whether the `try` block completes or throws.

The module `Chat` holds the pure model that both classes are proved against:

- `Sent`, `Settled` and `Step`, and `Run` over a sequence of events (typing,
  a send, a reply arriving).
- The lemmas about runs: the log is append-only, user and bot messages
  balance out, and the typing flag means a request is pending. If every send
  comes from the enabled button, requests never overlap.

The module `JsString` models `String.prototype.trim` as ECMA-262 defines it.
The widgets' guard `!input.trim()` is proved to hold exactly when every
character is white space or a line terminator.

Three behaviours of the code deserve a note, because a reader might expect
otherwise. The model follows the code in each:

- **A second send while a request is pending is not dropped.** `sendMessage`
  never reads `isTyping`. Only the button is disabled (src/App.js:322). The
  Enter-key handler (src/App.js:316) calls `sendMessage` unguarded, and
  `App.js` has no flag at all. `EnterKeyCanOverlap` shows that two requests
  can be in flight at once, and that the first reply then lowers the flag
  while the second is still pending. `ButtonOnlyRunsAlternate` shows that
  requests never overlap when every send that dispatches a request comes
  from the enabled button.
- **An error status does not take the fallback path in src/App.js.** `fetch`
  does not reject on an error status, so a JSON error body reaches
  `data.text`. The bot message is then that field, or `undefined`. Only a
  transport error, a body that is not JSON, or a JSON `null` body (reading
  `.text` of `null` throws) takes the fallback path. In `App.js` axios does
  reject on an error status (`AxiosFallsBackOnErrorStatus`).
- **A reply without a `text` field is not a failure.** In both widgets it is
  appended as a bot message whose content is `undefined`
  (`Content.Undefined`), not as the fallback.

## Model

| member | source | states |
|---|---|---|
| JsString.BlankIffAllWhiteSpace | src/App.js:70 | `!input.trim()` holds exactly when every character of the input is ECMAScript white space or a line terminator, in both directions |
| JsString.TrimShape | src/App.js:70 | `trim()` returns the slice of the input left after cutting only white space off both ends; the result neither starts nor ends with white space |
| Chat.FetchOutcome | src/App.js:83-98 | the `try` block with `fetch` throws exactly on a transport error, a body that is not JSON, or JSON `null`; otherwise it reads the body's `text`, whatever the status |
| Chat.AxiosOutcome | App.js:20-31 | the `try` block with axios throws exactly on a transport error, a status outside 200..299, or a JSON `null` body; otherwise it reads `text` of a JSON body and `undefined` for a body that is not JSON |
| Chat.Reply | src/App.js:95-109 | per client, the bot message's content in closed form over the raw reply: the body's `text` (or `undefined`) exactly in the cases where the client's `try` completes, otherwise the variant's fallback |
| Chat.Sent | src/App.js:69-80 | a request is made exactly when the input is not all white space; a blank send changes nothing; otherwise one user message holding the untrimmed input is appended after the unchanged log, that input is the question, the buffer is cleared, one more request is pending and the flag (if kept) is raised |
| Chat.Settled | src/App.js:95-112 | one bot message with the reply's content is appended after the unchanged log, the buffer is kept, one fewer request is pending, and the `finally` lowers the flag in the widget that keeps one |
| Chat.Enabled | src/App.js:322 | the button is enabled exactly when the buffer has a character that is not white space and the flag is lowered |
| Chat.Step | src/App.js:69-113 | every event keeps the old log as a prefix and adds at most one message, and it adds one exactly when the number of pending requests changes; typing only replaces the buffer |
| Chat.Run | src/App.js:69-113 | any sequence of events keeps the old log as a prefix and adds at most one message per event |
| Chat.BlankSubmitChangesNothing | src/App.js:70 | for input whose trim is empty, a send leaves log, buffer, flag and pending requests unchanged and makes no request |
| Chat.SubmitAppendsUserMessage | src/App.js:72-89 | for non-blank input, exactly one user message holding the untrimmed input is appended after the unchanged log; the buffer becomes empty and the flag is raised before the reply; the question sent equals that message's content |
| Chat.CompletedTurn | src/App.js:69-113 | a completed non-blank send grows the log by exactly two messages, user then bot, leaves the buffer empty and the flag lowered, and leaves the pending count as it was |
| Chat.FetchIgnoresStatus | src/App.js:83-98 | with `fetch` the status never decides the path: a JSON body with any status is answered with its `text` |
| Chat.AxiosFallsBackOnErrorStatus | App.js:20-34 | with axios every status outside 200..299 takes the fallback path |
| Chat.ClientsCompared | App.js:19-35 | the two clients agree on a 2xx JSON reply and on a transport error, and differ on a 500 reply with a JSON body |
| Chat.RunOnlyAppends | src/App.js:78-109 | over any sequence of typing, sends and replies, the old log stays a prefix of the new one, and user messages added equal bot messages added plus the change in pending requests |
| Chat.TypingMeansAwaiting | src/App.js:80-112 | in the widget with the flag, the flag is raised only while at least one request is pending, whatever the order of events |
| Chat.NoFlagNeverTypes | App.js:6-36 | the axios widget never has a raised typing flag |
| Chat.ButtonOnlyRunsAlternate | src/App.js:320-322 | starting idle, if every send that dispatches a request comes from the enabled button, at most one request is ever pending; the log grows user, bot, user, bot, ...; it ends with a user message and the flag is raised exactly while a request is pending |
| Chat.EnterKeyCanOverlap | src/App.js:316 | a second send by Enter while the first is pending is not dropped: it appends a second user message and a second request; the first reply lowers the flag while one request is still pending |
| FetchWidget.App.constructor | src/App.js:6-8 | the initial state: empty log, empty buffer, flag lowered |
| FetchWidget.App.Mount | src/App.js:55-63 | the mount effect replaces the log by exactly the welcome bot message and leaves buffer and flag alone |
| FetchWidget.App.SetInput | src/App.js:315 | the change handler stores the typed text and changes nothing else |
| FetchWidget.App.SendMessage | src/App.js:69-93 | whitespace-only input: nothing changes and no request is made; otherwise the log gains the user message, the buffer is cleared, the flag is raised and the untrimmed input is the question; equal to `Chat.Sent` |
| FetchWidget.App.Settle | src/App.js:95-112 | appends exactly one bot message, the `fetch` answer's `text` or the fixed fallback; lowers the flag; leaves the buffer alone; equal to `Chat.Settled` |
| FetchWidget.App.SendEnabled | src/App.js:322 | the button is enabled exactly when the buffer has a character that is not white space and the flag is lowered |
| FetchWidget.MountThenHello | src/App.js:55-112 | after mount the log is just the welcome message and the button is disabled; while "Hello" is pending the button is disabled even with new text in the buffer; a 404 reply with a JSON `text` is shown as the answer, and the flag ends lowered |
| AxiosWidget.ChatBot.constructor | App.js:7-8 | the initial state: empty log, empty buffer |
| AxiosWidget.ChatBot.SetInput | App.js:63 | the change handler stores the typed text and changes nothing else |
| AxiosWidget.ChatBot.SendMessage | App.js:12-27 | whitespace-only input: nothing changes and no request is made; otherwise the log gains the user message, the buffer is cleared and the untrimmed input is the question; equal to `Chat.Sent` |
| AxiosWidget.ChatBot.Settle | App.js:29-35 | appends exactly one bot message, `res.data.text` or "Sorry, something went wrong.", and leaves the buffer alone; equal to `Chat.Settled` |
| AxiosWidget.HelloThenPing | App.js:12-36 | from a fresh widget, a blank send leaves the log empty; "Hello" answered with `{text: "Hi there"}` gives exactly a user and a bot message; "Ping" failing in transport adds the user message and the fallback |

## Left out

- The HTTP request itself is not modelled: the URL, the `chatflowId`, headers
  and JSON encoding (src/App.js:83-93, App.js:20-27). A reply enters the model
  only as the `Response` given to `Settle`.
- The `chatId` built from `Date.now()` and the `new Date()` timestamps are not
  modelled, because they are clock reads. Messages carry no timestamp.
- `console.error` logging in the `catch` blocks is not modelled.
- Async interleaving is not modelled as such. React's batched and functional
  state updates become sequential steps. `Arrive` does not say which pending
  request a reply belongs to: the order in which replies arrive is a free
  choice of the event sequence. A reply with no request pending changes
  nothing. `inFlight` is a model-only counter that the widgets do not keep.
- A `text` property holding a number, object or other non-string value is not
  modelled. The content is either a string or `undefined`.
- JavaScript strings are UTF-16 code units, while Dafny characters are Unicode
  scalar values. Lone surrogates cannot be represented. Every character that
  `trim` removes lies in the Basic Multilingual Plane, so the guard is
  unaffected.
- The axios behaviour assumes the library's default configuration: only
  2xx statuses resolve, and JSON parsing is silent. The axios version is not
  pinned anywhere in the modelled files.
- The key handlers' event filtering (`e.key === 'Enter'`, `!e.shiftKey`) is
  not modelled. Every send, from the button or the keyboard, is one `Submit`
  event.
- All view code is not modelled: themes and colour maps, the settings panel,
  dark mode, the bot name, `TypingIndicator`, rendering, `scrollIntoView` and
  the CSS. src/index.js is not part of this model.
