# Chat session and media picker state, modelled in Dafny

This project models the two stateful parts of a Yew web client for a local
language-model server.

**The chat page** (`src/components/pages/chat.rs`) keeps its state in eight
`use_state` cells. `Chat.ChatSession` holds them as fields:

- the connection: `apiUrl`, `availableModels`, `selectedModel`, `isConnecting`, `connectionError`;
- the conversation: `messages`, `inputValue`, `isLoading`.

Each event the page reacts to is one method:

- discovery scheduled at mount or by a URL edit;
- discovery started and discovery finished;
- a model chosen and a keystroke;
- a submit;
- a chat reply or failure.

An asynchronous task is split into its start and its end, so each method is
one atomic step. HTTP and JSON are abstract values. `Http.Fetch` is a
transport failure, or a response with a status code and a body that did or
did not decode. `Http.Classify` gives the four outcomes of the page's nested
`match`.

A `UseStateHandle` captured by a closure keeps the value it had at the render
that created the closure. So two snapshots are explicit in the model:

- `DiscoveryTask.selectionSnapshot`: the selected model as the discovery task read it;
- `PendingChat.renderedHistory`: the history as the submit callback read it, before the user message was appended.

`FinishChat` takes the history it appends to as a parameter, and the
properties are stated relative to it.

**The media page** (`src/components/pages/media.rs`) classifies a file by its
MIME type and keeps three cells: object URL, kind, and error. `Media.MediaPicker`
holds them as fields. It also keeps the URL captured by the revoke-on-change
effect, and logs of the object URLs created and revoked. Its invariant
`Valid()` says two things. A URL and a kind are present together. Every URL
created is either the one shown or already revoked.

Three behaviours of the code worth knowing:

- A failed discovery does not clear the selected model. It only empties the catalog. `Chat.RefusedScenario` shows this.
- An empty listing leaves the selection as it was; it is not cleared.
- The status line reads "Connected" after a successful discovery even when the catalog is empty.

## Model

| member | source | states |
|---|---|---|
| `Http.Classify` | src/components/pages/chat.rs:64-95 | a transport error comes first; a non-2xx status is a status error whatever the body; only a 2xx response has its body decoded, giving the value or a parse error |
| `Http.StatusErrorText` | src/components/pages/chat.rs:87 | the text is "API Error: " followed by decimal digits that read back as the status code |
| `Http.Decimal` | src/components/pages/chat.rs:87 | Rust's `Display` of the u16 status: at least one character, all decimal digits, a leading zero only for the number 0 |
| `Http.DecimalRoundTrip` | src/components/pages/chat.rs:87 | the decimal rendering of a number reads back as that number, so distinct status codes give distinct texts |
| `Http.DecimalInjective` | src/components/pages/chat.rs:168 | two status codes render to the same digits only if they are equal |
| `Chat.ModelNames` | src/components/pages/chat.rs:70-71 | the catalog has one name per listed model, in response order |
| `Chat.ReconciledSelection` | src/components/pages/chat.rs:72-78 | an empty listing leaves the selection alone; a non-empty remembered selection that is listed is kept; an empty or unlisted one moves to the first name; when the remembered selection is the current one, a non-empty listing contains the result |
| `Chat.StaleSnapshotCanLeaveSelectionOutsideCatalog` | src/components/pages/chat.rs:73-77 | the rule reads the selection captured when the task was scheduled, so a model chosen meanwhile can stay outside the new catalog |
| `Chat.DiscoveryErrorText` | src/components/pages/chat.rs:81-94 | every failed discovery sets a non-empty error text, so the status shows the failure |
| `Chat.DiscoveryErrorTextIdentifiesOutcome` | src/components/pages/chat.rs:81-94 | the error text determines the failure class and its detail or status code |
| `Chat.DisplayStatus` | src/components/pages/chat.rs:217-226 | Failed with the error text iff the text is non-empty; otherwise Connecting iff connecting, else Connected; the catalog plays no part |
| `Chat.EnabledSendPassesGuard` | src/components/pages/chat.rs:339-343 | an enabled send button implies an enabled text field; with the catalog rule in force and no model named "", the submit guard then accepts |
| `Chat.ChatErrorText` | src/components/pages/chat.rs:155-180 | every failed chat request yields a non-empty system text |
| `Chat.ChatReply` | src/components/pages/chat.rs:145-181 | a decoded reply is added verbatim; every failure adds a "system" message with the text of its class |
| `Chat.ChatErrorTextIdentifiesOutcome` | src/components/pages/chat.rs:155-180 | the system message of a failure determines the failure class and its detail or status code |
| `Chat.ChatSession.constructor` | src/components/pages/chat.rs:37-45 | the page starts with the default URL, no models, no selection, not connecting, no error, no messages, empty input, not loading |
| `Chat.ChatSession.InitialDiscovery` | src/components/pages/chat.rs:54-57 | the mount-time effect queries the current URL with the current selection as its snapshot |
| `Chat.ChatSession.SetUrl` | src/components/pages/chat.rs:195-200 | the URL is replaced and nothing else changes; a discovery is scheduled exactly when the value differs from the previous one |
| `Chat.ChatSession.StartDiscovery` | src/components/pages/chat.rs:58-59 | connecting is set and the error cleared, so the status is Connecting; nothing else changes |
| `Chat.ChatSession.FinishDiscovery` | src/components/pages/chat.rs:64-96 | connecting ends on every branch; a listing replaces the catalog with its names and reconciles the selection, keeping the error text; each failure empties the catalog, keeps the selection and sets its error text; with an unchanged selection the catalog rule holds afterwards; the conversation is untouched |
| `Chat.ChatSession.SelectModel` | src/components/pages/chat.rs:203-208 | the selection becomes the given name with no check, and nothing else changes |
| `Chat.ChatSession.SetInput` | src/components/pages/chat.rs:187-192 | the input becomes the given text, and nothing else changes |
| `Chat.ChatSession.Submit` | src/components/pages/chat.rs:108-136 | with empty input or no selected model nothing changes and nothing is sent; otherwise the user message is appended after the unchanged history, the input is cleared, loading is set, and the request carries the selected model, the whole new history and stream = false |
| `Chat.ChatSession.FinishChat` | src/components/pages/chat.rs:145-182 | the history becomes the given base plus exactly one message, the reply or a system error; loading ends; input and connection are untouched |
| `Chat.ChatSession.CompleteChat` | src/components/pages/chat.rs:150-153 | corrected (see ## Findings): the reply is appended to the history the request carried, not to the render-time history that line 151 uses |
| `Chat.ChatSession.SubmitAndFinishAsWritten` | src/components/pages/chat.rs:114-182 | as written: an accepted submit followed by its outcome leaves the earlier history plus the reply only, so the user message is lost; a refused submit changes nothing |
| `Chat.ChatSession.SubmitAndComplete` | src/components/pages/chat.rs:114-182 | completed on the request's history (the corrected `CompleteChat`, see ## Findings): an accepted submit followed by its outcome adds exactly two messages, the user's and then the reply; a refused submit changes nothing |
| `Chat.ListingScenario` | src/components/pages/chat.rs:64-79 | a listing of "a" and "b" on a fresh page yields catalog ["a","b"], selection "a", status Connected |
| `Chat.RefusedScenario` | src/components/pages/chat.rs:91-94 | a refused connection after a listing of "a" empties the catalog and shows "Connection Failed: refused", keeping the selection "a" |
| `Chat.ReplyScenarioAsWritten` | src/components/pages/chat.rs:119-153 | with the reply appended to the render-time history, "hi" is shown after the submit and is gone once "hello" arrives |
| `Chat.ReplyScenario` | src/components/pages/chat.rs:119-153 | completed on the request's history, the exchange leaves [user "hi", assistant "hello"] and loading off |
| `Chat.ServerErrorScenario` | src/components/pages/chat.rs:164-171 | completed on the request's history (the corrected `CompleteChat`, see ## Findings): a 500 response leaves [user "hi", system "API Error: 500"] and loading off |
| `Media.DetectMediaKind` | src/components/pages/media.rs:10-19 | Image iff the MIME type starts with "image/"; otherwise Video iff it starts with "video/"; otherwise none |
| `Media.DetectionOrderIrrelevant` | src/components/pages/media.rs:12-15 | no type starts with both prefixes, so a type is a video exactly when it starts with "video/" |
| `Media.CreationErrorText` | src/components/pages/media.rs:56 | the error is "Error creating media URL: " followed by the browser's error text |
| `Media.MediaPicker.HasMedia` | src/components/pages/media.rs:91 | under the invariant, a preview is shown exactly when a URL is held |
| `Media.MediaPicker.constructor` | src/components/pages/media.rs:23-25 | all three cells start empty, nothing created or revoked, and the invariant holds |
| `Media.MediaPicker.OnFileChange` | src/components/pages/media.rs:28-67 | without a file list or a first file nothing changes and nothing is revoked; otherwise the URL held before is revoked, then a supported file with a URL shows URL and kind with no error, a failed URL creation shows the creation error, and an unsupported type shows the fixed message, both with no URL and no kind; the invariant is kept |
| `Media.MediaPicker.RunUrlEffect` | src/components/pages/media.rs:78-89 | when the URL cell changed, the previous effect's cleanup revokes the URL it captured and the effect captures the current one; the cells are untouched |
| `Media.MediaPicker.Unmount` | src/components/pages/media.rs:78-89 | teardown revokes the URL the last effect captured; if that is the current URL, every URL ever created has been revoked |
| `Media.ReplaceScenario` | src/components/pages/media.rs:41-89 | an image replaced by a video and the page left: the first URL is revoked twice (handler and cleanup), the second once |
| `Media.UnsupportedScenario` | src/components/pages/media.rs:41-64 | a text file after an image: the image URL is revoked and only the unsupported-type message is shown |

## Left out

- HTTP transport and the request URLs `<url>/api/tags` and `<url>/api/chat` with their headers (chat.rs:61-62, 138-143): foreign I/O, given as `Http.Fetch` values.
- JSON encoding and decoding (chat.rs:67, 141, 148): library code. A decoded body or a decoding failure is given; the error details of the client library and decoder are arbitrary strings.
- `spawn_local` scheduling and the stale-discovery race: each task's start and end are separate atomic methods. The model admits finishes in any order but proves nothing about which discovery wins.
- Re-entrant submits while a reply is awaited: the controller does not guard against them, and neither does the model. Only the disabled button (`SendDisabled`) keeps them out.
- All `html!` markup, CSS classes, the message bubble styling, and the DOM reads of the input, select and file elements: rendering and UI plumbing. Their values are method parameters.
- `trigger_file_input` (media.rs:69-76): a programmatic click on the hidden file input, DOM plumbing.
- The browser's object-URL creation and revocation: creation is an outcome parameter, and revocation is an append to the `revoked` log. A failed revocation only logs a warning in the source, so the model records the call either way.
- The sidebar theme toggle, the routing table, the home page and the application bootstrap: presentation and configuration with no state worth verifying.

## Findings

| source | as written | input that shows it | evidently intended | confidence | as-written member | corrected member |
|---|---|---|---|---|---|---|
| src/components/pages/chat.rs:126-153 | the reply is pushed onto `(*messages_clone).clone()`. That handle was cloned from the render-time state, so it still holds the history from before the user message was appended | empty history, model "a", input "hi", reply "hello": after the submit the history is [user "hi"]; after the reply it is [assistant "hello"] | the reply follows the user message: [user "hi", assistant "hello"], so each accepted submit adds exactly two messages | high; not executed | `Chat.ReplyScenarioAsWritten` | `Chat.ChatSession.CompleteChat` |
