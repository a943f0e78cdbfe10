# Gemini chat relay and chat page — a Dafny model

This project models the two pieces of logic in a small chatbot: a relay
service that forwards a conversation to the Gemini generation API, and
the browser page that keeps the conversation history.

- **Relay** (`relay.dfy`, from `index.js`). `POST /api/chat` checks that
  `messages` is an array. It turns each entry into
  `{ role, parts: [{ text: message || content }] }` and rejects the request
  when some entry ends up with empty text. Only a valid request reaches the
  upstream call. The reply text is extracted defensively: the primary path
  `candidates[0].content.parts[0].text` is tried first. The `text()`
  accessor is tried only when that value is nullish. Falsy text falls back
  to the serialised response. The upstream call and `JSON.stringify` are
  function parameters.
- **Chat page** (`chat_client.dfy`, from `starter/script.js`). The class
  `ChatPage` holds the global `messages` history, the `chatHistory`
  storage slot and the chat box, as a sequence of bubbles. Its methods
  are load, save, clear and submit. Submit is split at its `await`:
  `BeginSubmit` shows, pushes and saves the user's trimmed input.
  `FinishSubmit` applies the outcome of the request. `OpenPage`,
  `ReloadAfterSubmit` and `ReloadAfterClear` reopen the page over the
  storage a page left behind.
- **`String.prototype.trim`** (`js_string.dfy`). The page trims the input
  before it decides whether anything is sent. Trimming strips the
  ECMAScript WhiteSpace and LineTerminator characters.
- **The wire contract** (`wire.dfy`). The page posts every history entry
  as `{ role, content }`. The relay accepts such a history exactly when
  no content is empty.

A failed exchange is not rolled back. The user's message is pushed and
saved before the request (starter/script.js:49-50), so it stays in memory
and in storage when the request fails (`FinishSubmit`, `Submit`).
`loadChatHistory` renders every element of `messages` after the push, not
only the loaded ones. The model does the same. This makes no difference on
a freshly opened page, where the history starts empty.

## Model

| member | source | states |
|---|---|---|
| `Relay.PrepareRequest` | index.js:75-93 | A non-array `messages` yields exactly "Messages must be an array". A request is accepted iff every entry has a non-empty `message` or a non-empty `content`; otherwise it is rejected with "Each message must have a non-empty message or content property.". An accepted request keeps length and order. Entry i's role is copied verbatim, and it has exactly one part, whose non-empty text is `message` when that is non-empty and `content` otherwise. |
| `Relay.NormalizeKeepsUsability` | index.js:83-90 | Mapping keeps the length and gives each entry one part. That part's text is truthy exactly when the entry has a non-empty `message` or `content`. |
| `Relay.ExtractText` | index.js:25-33 | A non-empty primary text is returned unchanged. A primary `""` skips the accessor and returns the serialised response. With a nullish primary, a non-empty accessor text is returned, and otherwise the serialised response. No case fails. |
| `Relay.HandleApiChat` | index.js:72-110 | The reply is a 400 exactly when the body is not acceptable, with the error string for the failed check. It is a 500 exactly when the body is acceptable and the upstream call on the mapped contents throws, and it carries that error's message. Otherwise it is a 200 carrying the text extracted from the upstream response. |
| `Relay.RejectedBeforeUpstream` | index.js:78-93 | For a rejected body the reply does not depend on the upstream at all, so no upstream request is made. |
| `Relay.EmptyHistoryForwarded` | index.js:78-96 | An empty array passes validation and is forwarded as an empty `contents`. |
| `Relay.RoleNotValidated` | index.js:83-86 | Replacing an entry's role by any value keeps the request acceptable, and that value is forwarded as the role. |
| `JsString.TrimStart` | starter/script.js:42 | The result is a suffix of the input. Every removed character is trimmable, and the result does not start with one. |
| `JsString.TrimEnd` | starter/script.js:42 | The result is a prefix of the input. Every removed character is trimmable, and the result does not end with one. |
| `JsString.Trim` | starter/script.js:42 | The result is the contiguous slice of the input that remains once the leading and the trailing trimmable characters are removed: everything before and after it is trimmable. It is empty exactly when every character is trimmable. Otherwise it starts and ends with a non-trimmable character. |
| `JsString.TrimIdempotent` | starter/script.js:42 | Trimming a trimmed string changes nothing. |
| `ChatClient.SenderOf` | starter/script.js:21 | Role 'model' is shown as 'bot'. Every other role, unknown ones included, is shown as 'user'. |
| `ChatClient.RenderAt` | starter/script.js:19-23 | Rendering a history gives one bubble per message, in order. Bubble i shows message i's content with its role's sender. |
| `ChatClient.RenderAppend` | starter/script.js:19-23 | Rendering a concatenation renders each part in turn. |
| `ChatClient.ThrownMessage` | starter/script.js:63-66 | The message of the error for a non-ok response is its `error` field when that is non-empty, and "Something went wrong" when it is absent or empty. It is never empty. |
| `ChatClient.ReplyBubble` | starter/script.js:68-77 | A submit ends with one bot bubble. It shows the reply on success, and otherwise "Sorry, something went wrong: " followed by the error's message. |
| `ChatClient.ChatPage.constructor` | starter/script.js:7 | A fresh page starts with an empty history and chat box. Storage keeps what it already held. |
| `ChatClient.ChatPage.AppendMessage` | starter/script.js:83-95 | Exactly one bubble is added, at the end of the chat box. |
| `ChatClient.ChatPage.SaveChatHistory` | starter/script.js:10-12 | After a save, storage holds exactly the current history. |
| `ChatClient.ChatPage.LoadChatHistory` | starter/script.js:14-25 | With nothing stored, nothing changes. Otherwise the stored entries are appended to the history in stored order, and every history entry is rendered in order. Loading into an empty history leaves storage and memory in step. |
| `ChatClient.ChatPage.ClearChat` | starter/script.js:29-37 | When confirmed, it empties the history and chat box and removes the storage slot. Without confirmation nothing changes. |
| `ChatClient.ChatPage.BeginSubmit` | starter/script.js:39-61 | Input that trims to empty changes nothing and sends nothing. Otherwise it appends exactly `{role:'user', content: trimmed}`, saves before the request, shows the user bubble, and sends the whole history including the new entry. |
| `ChatClient.ChatPage.FinishSubmit` | starter/script.js:63-78 | On success the history grows by exactly `{role:'model', content: reply}` and storage equals the new history. On failure, history and storage are unchanged. Either way one reply bubble is shown. |
| `ChatClient.ChatPage.Submit` | starter/script.js:39-81 | This is a whole submit. For empty input nothing happens. Otherwise the history grows by the user entry, plus the model entry on success only, and earlier entries are unchanged. Storage equals the new history. A page whose storage mirrored its history still does. |
| `ChatClient.OpenPage` | starter/script.js:14-25 | Opening a page over a storage slot loads exactly the stored history, or nothing. Each message is shown once, in order, with the sender its role maps to. |
| `ChatClient.ReloadAfterSubmit` | starter/script.js:10-18 | After a submit, reopening the page restores exactly the history that was in memory. |
| `ChatClient.ReloadAfterClear` | starter/script.js:31-36 | After a confirmed clear, reopening the page gives an empty history and an empty chat box. |
| `Wire.HistoryAccepted` | index.js:83-93 | A history posted by the page is accepted exactly when no content is empty. It is then forwarded with each entry's role and content, in order. |

## Left out

- Express setup, CORS, dotenv, the port and `app.listen` (index.js:1-18, 38-41, 115-120): these are framework and environment plumbing.
- The `/chat` single-turn handler (index.js:49-66): it passes the body's `message` field straight to the SDK and has no logic beyond `extractText`.
- The Gemini SDK calls `generateContent` and `result.response`: they are the `upstream` function parameter of `Relay.HandleApiChat`. The model covers their outcome (a response or a thrown error), not the API itself.
- `JSON.stringify(response, null, 2)` is the `serialize` parameter, and its output format is not modelled. `serialize` takes the abstract `Response`, so two responses with the same primary and accessor text give the same dump, whereas `JSON.stringify` sees the whole response object; no property of the model depends on this. Storage holds the history itself rather than its JSON text, so `JSON.parse` is left out too.
- Relay.Entry: entries are objects whose properties are absent or strings. A number, string or boolean entry has none of these properties, so it behaves like `Entry(None, None, None)` and gets the 400 for an empty entry. A `null` or `undefined` entry makes `msg.role` throw a TypeError, which becomes a 500; that case is not modelled. Non-string property values, which follow JavaScript truthiness, are not modelled either.
- Relay.ExtractText: a `response` that is itself `undefined` is not modelled; `JSON.stringify` would then return `undefined` rather than a string. A `null` response is `Response(None, None)`, whose dump is the string "null". A `text()` accessor that throws is not modelled either; that error would surface as a 500.
- HTTP status codes are represented only by the reply kinds `Replied` (200), `BadRequest` (400) and `ServerError` (500). The `console.error` logging on the server (index.js:63, 107) and in the client (starter/script.js:76) is left out.
- DOM rendering is left out: `marked.parse`, element creation, scrolling, and clearing the input field (starter/script.js:46, 83-119). A bubble keeps the raw text it was given.
- The typing indicator (starter/script.js:52, 79, 97-119) is a UI side effect.
- `fetch`, `await` and the double-submit race (starter/script.js:55-67): the network outcome is the `outcome` parameter. `Submit` is one atomic step, and interleavings of `BeginSubmit`/`FinishSubmit` from two submits are not explored.
- SaveChatHistory: storage writes are assumed to succeed. `localStorage.setItem` can throw, for example with a quota error. At starter/script.js:50 that would leave storage stale and send no request. At starter/script.js:73 it would leave storage one entry behind memory and add a second error bubble through the catch at starter/script.js:77. `BeginSubmit`, `FinishSubmit`, `Submit` and `ReloadAfterSubmit` describe only the case where every save succeeds.
- The `confirm` dialog is the `confirmed` parameter of `ClearChat`.
- Stored history that is not an array of `{role, content}` strings, and the body of a successful response lacking `message`, are not modelled.
