# SmartCreate chat core, modelled in Dafny

SmartCreate ("CreateForge") is a WPF desktop window. It shows a web preview
next to a chat pane, and the chat pane talks to a local Ollama server. This
project models the chat core, which has two parts.

- **The main window's send workflow** (`MainWindow.SendMessage`). The window
  keeps the message history, the text of the input box, and the enabled
  state of the input box and of the send button. On send it trims the input
  and ignores blank text. Otherwise it appends the user's message and a
  "Thinking..." placeholder, clears and disables the input, and awaits the
  Ollama client. It then overwrites the last history slot with the reply, or
  with a red "Error connecting to Ollama" entry if the await threw. Finally it
  enables the controls again.
- **The Ollama client** (`OllamaService.SendMessageAsync`). It builds a
  non-streamed chat request holding a single user message; the default model
  is `qwen2.5:3b`. It turns whatever comes back into a string: the reply's
  `message.content`, the sentinel `"No response"`, or `"Error: "` followed by
  the message of any exception it caught.

The modules are:

- `Strings` (`strings.dfy`): .NET's `String.Trim()` and `Char.IsWhiteSpace`.
  Trimming is two index scans. It is proved to give the unique slice with only
  white space around it and no white space at either end.
- `Ollama` (`ollama_service.dfy`): the request body as a datatype, and the
  reply mapping as a function over an abstract `ServiceOutcome`. That outcome
  is one of: the POST threw, the status check threw, parsing threw, or the
  body parsed with a given `message` token.
- `Chat` (`main_window.dfy`): `ChatMessage` and the fixed entries. It also has
  the history transitions as functions (`Submitted`, `Resolved`, `Step`,
  `Run`) and the declarative `Transcript` they are proved against. The class
  `MainWindow` has `Submit` (up to the `await`), `Resolve` (after it) and
  `SendMessage` (both, with the client's outcome as a parameter).
- `Wrappers` (`wrappers.dfy`): `Option`.

What the model shows when the two parts are put together: the client catches
every exception itself, so the window's `catch` branch never runs for a
failed call. A failed call shows up as an ordinary green "AI" entry whose
text starts with `"Error: "`. The red connection-error entry is never added
(`Chat.ServiceNeverShowsConnectionError`).

Behaviours of the code that the model keeps:

- A JSON `"content": null` gives `""`, not `"No response"`, because
  Newtonsoft stores the null as a token whose `ToString()` is `""`.
- A `"message"` that is not an object (null, a string, an array) makes the
  `["content"]` indexer throw, which gives `"Error: ..."`.
  `Ollama.MessageToken` keeps these cases apart.
- The placeholder has the same colours as a reply (LimeGreen on #4CAF50).
  A reply whose text is `Thinking...` therefore looks exactly like the
  placeholder.
- The client returns a string in every case; no failure reaches its caller
  as an exception.

## Model

| member | source | states |
|---|---|---|
| `Strings.SkipLeading` | MainWindow.xaml.cs:90 | the forward scan of `Trim` stops at the first non-white-space index at or after `i` (or at the end), and everything it skipped is white space |
| `Strings.SkipTrailing` | MainWindow.xaml.cs:90 | the backward scan of `Trim`, which never passes the forward scan's stop, ends just after the last non-white-space character, and everything it skipped is white space |
| `Strings.Trim` | MainWindow.xaml.cs:90-91 | `Trim()` returns a slice of the input with only white space on either side and no white space at either end; it is empty exactly when the input is all white space, which is the `IsNullOrEmpty` test |
| `Strings.TrimIsUnique` | MainWindow.xaml.cs:90 | the converse: any slice with only white space on either side and none at either end is `Trim`'s result, so these conditions pin down what is sent |
| `Ollama.BuildRequest` | src/Services/OllamaService.cs:22-35 | the request carries the given model, exactly one message, which has role `user` and the input as content (its prompt reads back as the input), `stream = false`, and the fixed temperature |
| `Ollama.DefaultModelIsQwen` | src/Services/OllamaService.cs:22 | with no model given, the request asks for `qwen2.5:3b` |
| `Ollama.ReplyText` | src/Services/OllamaService.cs:38-47 | if the POST, the status check, the parse or the `["content"]` indexer threw, the result is `"Error: "` plus the exception's message; if `message` or its `content` is missing, `"No response"`; if `content` renders as `s`, exactly `s` |
| `Chat.ServiceTask` | src/Services/OllamaService.cs:24-48 | the task `SendMessageAsync` returns always completes with a string, never with an exception; for a call that faulted, the string starts with `"Error: "` |
| `Chat.Submission` | MainWindow.xaml.cs:90-91 | nothing is handed to the client exactly when the input is all white space; otherwise what is handed over is non-empty and is the trimmed input |
| `Chat.CycleAppendsTwo` | MainWindow.xaml.cs:98-147 | a submit followed by a resolve appends exactly the user entry and the outcome's entry, and leaves every earlier entry as it was |
| `Chat.StepAppendsEntries` | MainWindow.xaml.cs:88-154 | one press of send appends exactly the entries the turn leaves: none for blank input, two otherwise |
| `Chat.RunAppendsTranscript` | MainWindow.xaml.cs:88-154 | any series of sends only appends: the history after them is the history before followed by the transcript of the turns, so no entry is deleted or reordered |
| `Chat.RepliesLeaveNoConnectionError` | MainWindow.xaml.cs:136-147 | if every await completes with a string, no red entry is among the entries the turns leave |
| `Chat.ServiceNeverShowsConnectionError` | src/Services/OllamaService.cs:45-47 | when the turns are driven by the client, whatever the outcomes of its calls, no entry added to the history is the red connection-error entry |
| `Chat.FailedCallEndsWithErrorReply` | MainWindow.xaml.cs:124-134 | a call that fails inside the client leaves the history two entries longer, ending in a green reply entry whose text is `"Error: "` plus the exception's message |
| `Chat.MainWindow.constructor` | MainWindow.xaml.cs:34-53 | the history starts as exactly the welcome entry and the "Ready to build apps?" entry, with the input empty and enabled |
| `Chat.MainWindow.SetInputText` | MainWindow.xaml.cs:90 | editing the enabled input box changes its text and nothing else |
| `Chat.MainWindow.Submit` | MainWindow.xaml.cs:88-119 | blank input (empty after trimming, whitespace-only included) leaves the history, the text and both enabled flags unchanged. Otherwise the history grows by exactly the gold "You" entry with the trimmed text and the green "Thinking..." placeholder, with earlier entries kept. The text is then cleared, both controls are disabled, and the text returned for the client is the one stored in the user entry |
| `Chat.MainWindow.Resolve` | MainWindow.xaml.cs:121-153 | the length is kept, every entry but the last is kept, and the last becomes the green reply entry or the red connection-error entry; both controls are enabled again, the input box is still empty, and the invariant (seed first; placeholder last and input empty while disabled) is kept |
| `Chat.MainWindow.SendMessage` | MainWindow.xaml.cs:88-154 | the whole workflow moves the history on by exactly one turn of `Run`, whose completion is the client's; the controls end enabled; the request is built exactly when the input is not blank, and its prompt is the text in the new user entry |

## Left out

- WPF and WebView2 plumbing is not modelled: `InitializeComponent`, the `ItemsSource` binding, the preview URL, `ScrollToEnd` and `Focus`. These are display side effects with no state the chat depends on.
- The key and button handlers are not modelled; they only call `SendMessage`. The modelled `Submit` requires the input to be enabled, which is the guarantee those handlers get from WPF.
- `async void` scheduling and overlapping sends are not modelled. The `await` is the boundary between `Submit` and `Resolve`. `Resolve` requires the pending state: controls disabled, placeholder last.
- The HTTP exchange is not modelled: `HttpClient` construction, the base address, the 3-minute timeout and the POST itself. Their results reach the model only as a `ServiceOutcome`.
- JSON is not modelled. `PostAsJsonAsync` serialisation (escaping included) and `JObject.Parse` are foreign code, represented by `ServiceOutcome` and `MessageToken`. What the `content` token's `ToString()` renders is taken as given; this includes a date-like string, which the parser turns into a date rendered in the machine's culture format.
- .NET exception message texts are opaque strings.
- `temperature = 0.1` is a `real` constant. There is no double-precision arithmetic.
- The unused `_baseUrl` field (port 11435) and the unused `OllamaResponse` and `Message` classes are not modelled.
- The initial text of the input box comes from MainWindow.xaml, which is not part of this model. The constructor assumes it is empty.
- `Ollama.BuildRequest` is the request's field values only. The model does not show that the serialised JSON reads back to the same values.
