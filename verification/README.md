# zapai-cli chat core, modelled in Dafny

zapai-cli is a command-line chat client for Grok (driven through a headless browser) and for
Open WebUI (over HTTP). Around the browser and HTTP plumbing sit small sequential cores, and this
project models those cores and proves their contracts:

- **Grok stream reducer** (`grok_streamer.dfy`). The in-page relay logs `STREAM_CHUNK:` /
  `STREAM_END` / `STREAM_ERROR:` frames. The console decoder classifies them. Each decoded value
  updates the conversation id, the last response id, the accumulated response and the model
  response. The streamer is a class whose `StreamChat` consumes a sequence of console and value
  events and is proved equal to a reference reducer `Run`.
- **Open WebUI streamer** (`webui_streamer.dfy`). This covers the `data: ` line decoder with its
  `[DONE]` sentinel, the error-body guard, the non-ok / no-body errors, the synthetic model
  response and the `messageHistory` discipline. The chunk loop and the reader loop are methods
  proved against `ChunkTokens` / `StreamText`.
- **File tool** (`file_tool.dfy`). The prompt suffix, the file-entry validation and the
  path-containment guard, which respects directory boundaries (see Findings). The write loop of `postprocessResponse` is a method proved against a
  plan function `PlanFor`.
- **Conversation and saved points** (`grok_state.dfy`, `conversation_manager.dfy`,
  `chat_session.dfy`, `grok_command.dfy`). This covers conversation-id resolution and adoption,
  the choice of the parent response from history, and saving and loading points in time.
- **Input dispatch and commands** (`chat_session.dfy`, `common_session.dfy`, `commands.dfy`).
  This covers `\q` / `:` / `:cmd` / chat routing, the chat loop, the command registry and the
  `cd` / `ls` commands.
- **URL matcher and handler registry** (`network_listener.dfy`). The glob-to-regex translation,
  an anchored matcher for it, and the listener's registry and dispatch loop.
- **Cookie string parser** (`cookies.dfy`). The loose `name=value; name=value` parse of the
  configured cookie, with a round-trip for well-formed cookie lists.
- **File selection and uploads** (`workspace.dfy`, `uploads.dfy`). The bounded, de-duplicated
  browse loop shared by both menus, the comma split of glob input, the home-relative display
  of the working directory, and the uploader's list of ids.

Shared helpers are `wrappers.dfy` (Option, Result), `text.dfy` (JavaScript `trim`, `split`,
`join` and `indexOf` on strings), `json.dfy` (decoded JSON values with JavaScript truthiness and
property access) and `services.dfy`. `Services.Host` bundles the operating-system and library
services that the code calls but that are not modelled: `path.resolve`, `JSON.parse`, `homedir`,
`process.chdir` and the id the upload endpoint returns for a path. Each is a function parameter.
Browser and network results enter as input sequences:

- console lines and decoded values for the Grok streamer;
- an HTTP response record with its body chunks for Open WebUI;
- menu answers and file picks for the prompts.

## Model

| member | source | states |
|---|---|---|
| GrokStreamer.Classify | src/internal/chat/ChatStreamer.ts:60-69 | Exactly one of chunk / end / error / ignored holds, each iff its prefix or equality test holds. A chunk's payload, and an error's message, is the text after the 13-character prefix. |
| GrokStreamer.ChunkRoundTrip | src/internal/chat/ChatStreamer.ts:143 | The decoder recovers exactly the chunk that the in-page encoder framed. |
| GrokStreamer.RelayInPage | src/internal/chat/ChatStreamer.ts:130-144 | With no body, one `STREAM_ERROR: No response body` line is logged. Otherwise each chunk is logged in order as a `STREAM_CHUNK:` frame, followed by one `STREAM_END`. |
| GrokStreamer.RelayRoundTrip | src/internal/chat/ChatStreamer.ts:61-64 | Decoding what the relay logs gives one parser write per chunk, in order, and then one parser end. |
| GrokStreamer.AppendedToken | src/internal/chat/ChatStreamer.ts:82-83 | The token is `value.token` when truthy (and only if it is a string), else a non-empty `response.token`. It is never empty. There is a token iff one of these holds, so a truthy non-string `token` yields none. |
| GrokStreamer.Step | src/internal/chat/ChatStreamer.ts:79-106 | The conversation id is taken only while empty. A token is appended and nothing else changes. Without a token, a model response replaces the text and the last response id. Otherwise only the id capture happens. |
| GrokStreamer.RunKeepsConversationId | src/internal/chat/ChatStreamer.ts:79-81 | Once the conversation id is non-empty, no event sequence changes it (first writer wins). |
| GrokStreamer.RunWithoutModelResponse | src/internal/chat/ChatStreamer.ts:94-103 | Without a model-response value, the last response id and the model response are what they were. |
| GrokStreamer.RunKeepsConsistent | src/internal/chat/ChatStreamer.ts:101-103 | Whenever a model response has been seen, the last response id is its id. |
| GrokStreamer.RunAppendsTokens | src/internal/chat/ChatStreamer.ts:82-88 | A run of non-empty tokens appends their concatenation, in arrival order, and changes nothing else. |
| GrokStreamer.RunWritesRelayedChunks | src/internal/chat/ChatStreamer.ts:61-64 | Relayed chunks followed by `STREAM_END` are written to the parser in order, and the exchange ends normally with the state unchanged. |
| GrokStreamer.BuildRequest | src/internal/chat/ChatStreamer.ts:25-44 | The request carries the prompt, `grok-3`, the current last response id as parent, and the first at most ten file ids in order. |
| GrokStreamer.Endpoint | src/internal/chat/ChatStreamer.ts:50-52 | The URL is `…/conversations/new` for an empty id, else `…/conversations/{id}/responses`. |
| GrokStreamer.ChatStreamer.constructor | src/internal/chat/ChatStreamer.ts:13-16 | A new streamer holds the given conversation id and the initial parent response id. |
| GrokStreamer.ChatStreamer.HandleValue | src/internal/chat/ChatStreamer.ts:73-107 | The data callback's effect on fields and locals is exactly one `Step` of the reducer. |
| GrokStreamer.ChatStreamer.StreamChat | src/internal/chat/ChatStreamer.ts:19-155 | The request and endpoint are built from the state before the call. The new ids, the text, the model response, the outcome and the parser writes equal the reference `Run` over the events. The listener is released only on `STREAM_END`. The tool post-processes only when a tool is set and a model response was seen. |
| WebUiStreamer.IsChatErrorResponse | src/internal/webui/ChatStreamer.ts:134-136 | Holds iff the value is an object with an object-valued `error` whose `message` is a string. |
| WebUiStreamer.NonOkMessage | src/internal/webui/ChatStreamer.ts:45-52 | The message is the error body's non-empty `error.message`, and otherwise exactly `Failed to fetch response: Unknown error format`. |
| WebUiStreamer.NonBlank | src/internal/webui/ChatStreamer.ts:66 | Keeps exactly the lines that are not whitespace only. |
| WebUiStreamer.NonBlankAppend | src/internal/webui/ChatStreamer.ts:66 | The kept lines keep their order: the filter distributes over concatenation. |
| WebUiStreamer.DataLines | src/internal/webui/ChatStreamer.ts:66 | The lines of a chunk contain no newline and are never blank. |
| WebUiStreamer.LineEffectOf | src/internal/webui/ChatStreamer.ts:68-81 | A line without the `data: ` prefix is ignored. `data: [DONE]` is the sentinel. A token comes only from a parsed payload and is never empty. |
| WebUiStreamer.TokenLine | src/internal/webui/ChatStreamer.ts:68-81 | A line yields a token iff it is a `data: ` line other than `[DONE]` whose payload parses and whose `choices[0].delta.content` is a non-empty string. The token's text is that string. |
| WebUiStreamer.ContentLineAppends | src/internal/webui/ChatStreamer.ts:68-81 | A `data: ` line with payload `{choices: [{delta: {content: text}}]}` appends `text`. |
| WebUiStreamer.ChunkTokens | src/internal/webui/ChatStreamer.ts:67-83 | Every token appended from a chunk is non-empty. |
| WebUiStreamer.ChunkTokensAppend | src/internal/webui/ChatStreamer.ts:67-83 | Before any `[DONE]`, the tokens of consecutive lines are appended in line order. |
| WebUiStreamer.DoneStopsChunk | src/internal/webui/ChatStreamer.ts:70 | `[DONE]` stops the chunk: nothing after it contributes. |
| WebUiStreamer.ParseErrorSkipped | src/internal/webui/ChatStreamer.ts:79-81 | A line that fails to parse is skipped and does not affect the lines before or after it. |
| WebUiStreamer.WriteChunk | src/internal/webui/ChatStreamer.ts:63-86 | The line loop appends exactly the chunk's tokens to the response. |
| WebUiStreamer.StreamTextAppend | src/internal/webui/ChatStreamer.ts:88-92 | The text of a stream is the text of its chunks, concatenated in arrival order. |
| WebUiStreamer.ReadAll | src/internal/webui/ChatStreamer.ts:88-92 | The reader loop produces exactly the stream's text. |
| WebUiStreamer.FilesField | src/internal/webui/ChatStreamer.ts:41 | `files` is omitted iff there are no ids; otherwise it is one `{type: 'file', id}` per id, in order. |
| WebUiStreamer.SyntheticResponse | src/internal/webui/ChatStreamer.ts:95-121 | The synthetic response carries the full text, sender `ASSISTANT`, the user input as query, the file ids in order and the timestamp as id. |
| WebUiStreamer.ExchangeOutcome | src/internal/webui/ChatStreamer.ts:45-125 | A non-ok response fails with the chosen message. A missing body fails with `No response body`. Otherwise the answer is the stream's text, the synthetic response is built from it, and the tool runs iff one is set, postprocessing that text. |
| WebUiStreamer.WebUiChatStreamer.constructor | src/internal/webui/ChatStreamer.ts:21 | A new streamer keeps its options and starts with an empty history. |
| WebUiStreamer.WebUiChatStreamer.StreamChat | src/internal/webui/ChatStreamer.ts:23-132 | The user message (the preprocessed prompt) is appended before the request is sent, and the request carries the whole history. Exactly one assistant message holding the full text is appended, and only when the stream was read. |
| FileTool.PreprocessPrompt | src/internal/tools/FileTool.ts:20-30 | The result is the prompt followed by the fixed suffix, so the prompt is always a prefix. |
| FileTool.ProcessedPrompt | src/internal/chat/ChatStreamer.ts:29 | The prompt sent starts with the user input, and with no tool it is the user input unchanged. |
| FileTool.Registry | src/internal/tools/FileTool.ts:73 | The registry holds exactly the file tool, under the name `file`. |
| FileTool.StepFor | src/internal/tools/FileTool.ts:32-64 | A `null` entry aborts. An entry is skipped iff its name, path or body is falsy. An entry whose three fields are non-empty strings is written at `resolve(cwd, path, name)` when that target is cwd or lies below it, and is otherwise rejected with that target. A truthy name or path that is not a string aborts, as `path.resolve` throws. So does a contained target whose truthy body is not a string. A write never has an empty body. |
| FileTool.StepForAsWritten | src/internal/tools/FileTool.ts:32-64 | The same step with the guard as written, a text-prefix test against cwd: a written target starts with cwd as text. |
| FileTool.DirPrefix | src/internal/tools/FileTool.ts:35 | The prefix for paths below cwd is cwd followed by exactly one `/`. |
| FileTool.WithinStartsWithCwd | src/internal/tools/FileTool.ts:35 | The directory-boundary guard is stricter than the text test: every target it admits passes the text test. |
| FileTool.StepGuardsDiffer | src/internal/tools/FileTool.ts:35 | The two guards disagree only on a target that starts with cwd as text but lies outside it. That target is written as written and rejected by `StepFor`. |
| FileTool.SiblingDirectoryAsWritten | src/internal/tools/FileTool.ts:34-35 | With cwd `/work`, an entry with path `../work-evil` and name `x` is written to `/work-evil/x` as written, and rejected by `StepFor`. |
| FileTool.PlanContained | src/internal/tools/FileTool.ts:33-38 | Every planned write targets cwd or a path below it, with the directory boundary respected, and has a non-empty body. |
| FileTool.PlanAppend | src/internal/tools/FileTool.ts:59-65 | Entries are processed in array order: the plan for a concatenation is the first plan followed by the second. |
| FileTool.PostprocessSpec | src/internal/tools/FileTool.ts:44-70 | The step reports `NotJson` iff the message does not parse, and then writes and rejects nothing. Every write lies within cwd and has a non-empty body. |
| FileTool.Requested | src/internal/tools/FileTool.ts:34-40 | One requested write per well-formed entry, in order: the body at `resolve(cwd, path, name)`. |
| FileTool.Admitted | src/internal/tools/FileTool.ts:35-40 | A requested write is kept iff it lies within cwd. |
| FileTool.Refused | src/internal/tools/FileTool.ts:35-37 | Every target outside cwd is refused and only those. The admitted and refused counts add up to the requests. |
| FileTool.PlanOfWellFormed | src/internal/tools/FileTool.ts:59-65 | For an array of well-formed entries, nothing is skipped or aborted. The writes are the requested writes within cwd, the rejections are the other targets, both in array order. |
| FileTool.PostprocessWellFormed | src/internal/tools/FileTool.ts:44-70 | A parsed answer whose `files` array holds only well-formed entries completes. It writes exactly the contained requests and rejects the rest, in order. |
| FileTool.PostprocessResponse | src/internal/tools/FileTool.ts:44-70 | The loop with skip and reject performs exactly the plan of the specification. |
| ConversationManager.HistoryUrl | src/internal/chat/ConversationManager.ts:18 | The history URL is `…/conversations/{id}/response-node`. |
| ConversationManager.AssistantNodes | src/internal/chat/ConversationManager.ts:21-22 | Keeps exactly the nodes whose sender is `ASSISTANT`. |
| ConversationManager.AssistantNodesAppend | src/internal/chat/ConversationManager.ts:21-22 | Filtering keeps list order across a concatenation. |
| ConversationManager.LoadConversationHistory | src/internal/chat/ConversationManager.ts:20-30 | There is no parent iff the nodes are missing or none is from the assistant. |
| ConversationManager.LastAssistantIndex | src/internal/chat/ConversationManager.ts:23-25 | Finds the last assistant node, or reports there is none. |
| ConversationManager.LoadPicksLastAssistant | src/internal/chat/ConversationManager.ts:20-30 | The parent is the response id of the last assistant node in list order. |
| ConversationManager.NonAssistantIgnored | src/internal/chat/ConversationManager.ts:21-22 | Inserting a non-assistant node anywhere does not change the result. |
| GrokState.GrokConfig.constructor | src/internal/state/GrokConfig.ts:19-30 | A configuration holds the given cookie, active id and saved points, each optional, as the merge of the stored state onto a default leaves them. `savedPoints` comes from the `ConfigGrok` type, which is not part of this model. |
| GrokState.GrokConfig.AdoptActive | src/internal/chat/ChatController.ts:59-63 | The active id is rewritten, and a save reported, iff the id is non-empty and differs. Nothing else changes. |
| GrokState.ResolveConversationId | src/internal/chat/ChatController.ts:58 | The id is the given flag, else the active id, else `""`, where an empty flag or id falls through as in JavaScript. |
| GrokState.NavigationUrl | src/internal/chat/ChatController.ts:68 | The URL is `https://grok.com/chat/{id}` for a non-empty id, else `https://grok.com`. |
| Commands.ParseCommand | src/internal/chat/CommandRegistry.ts:57 | Name and args are the pieces of the input minus its first character, split on single spaces. Empty pieces are kept. |
| Commands.ParseCommandRoundTrip | src/internal/chat/CommandRegistry.ts:57 | Rejoining the name and args with single spaces gives back the input after its first character. |
| Commands.CommandRegistry.constructor | src/internal/chat/CommandRegistry.ts:16-50 | After construction, exactly `cd` and `ls` are registered. |
| Commands.CommandRegistry.Register | src/internal/chat/CommandRegistry.ts:52-54 | Maps the name to the command, replacing any previous one and leaving other names unchanged. |
| Commands.CommandRegistry.Execute | src/internal/chat/CommandRegistry.ts:18-63 | An unknown name runs nothing. `cd` with no args prints usage. `cd` with args resolves them, joined by spaces, against cwd and reports `ChangedDir` iff `chdir` succeeds, else `ChdirFailed`, of that directory. `ls` lists cwd. A registered custom command runs with its id and the args. |
| Commands.CwdAfter | src/internal/chat/CommandRegistry.ts:26-33 | A successful `cd` moves the working directory to the resolved directory, and nothing else changes it. |
| Cookies.SplitEntries | src/internal/BaseGrokCommand.ts:45 | Entries contain neither whitespace nor `;`, and there is always at least one. |
| Cookies.ParseEntry | src/internal/BaseGrokCommand.ts:46-57 | Every kept cookie has domain `grok.com`, path `/`, and is http-only and secure. |
| Cookies.EntryFields | src/internal/BaseGrokCommand.ts:47-57 | An entry is kept iff the text before its first `=` and the text after it are both non-empty. The name and value are those parts, trimmed, so values may contain `=`. |
| Cookies.SetupCookies | src/internal/BaseGrokCommand.ts:22-25 | A missing or empty cookie fails first. Otherwise the result is the non-empty parsed list in input order, or the `No valid cookies` error when nothing parses. |
| Cookies.SplitSerialized | src/internal/BaseGrokCommand.ts:45 | Splitting `a=b; c=d` yields exactly the serialized pairs, in order. |
| Cookies.PairParses | src/internal/BaseGrokCommand.ts:47-57 | A well-formed pair parses back to its cookie. |
| Cookies.ParseSerialize | src/internal/BaseGrokCommand.ts:45-63 | Any non-empty list of well-formed cookies, serialized as a Cookie header, parses back to the same list, in order. |
| NetworkListener.RegexSourceTranslates | src/internal/network/NetworkListener.ts:74-81 | The three replacements build the anchored source `^` + per-character translation + `$`. |
| NetworkListener.Compile | src/internal/network/NetworkListener.ts:74-81 | The compiled pattern has one atom per pattern character, in order. |
| NetworkListener.MatchWithoutStar | src/internal/network/NetworkListener.ts:74-81 | Without `*`, a pathname matches iff it has the pattern's length and each character is accepted (`?` takes any character except a line terminator). |
| NetworkListener.LiteralMatch | src/internal/network/NetworkListener.ts:74-81 | A pattern without wildcards matches exactly the equal pathname. |
| NetworkListener.StarMatchesSegment | src/internal/network/NetworkListener.ts:74-81 | `*` alone matches exactly the pathnames without `/`. |
| NetworkListener.MatchConcat | src/internal/network/NetworkListener.ts:74-81 | A concatenated pattern matches iff the pathname splits into a part matching the first pattern followed by a part matching the second. |
| NetworkListener.StarInPattern | src/internal/network/NetworkListener.ts:74-81 | `p*q` matches iff the pathname splits into a part matching `p`, a stretch without `/`, and a part matching `q`. |
| NetworkListener.RemovePattern | src/internal/network/NetworkListener.ts:26-34 | Removes every handler with the pattern and keeps the others. With no such handler, the list is unchanged. |
| NetworkListener.RemovePatternAppend | src/internal/network/NetworkListener.ts:28 | The kept handlers keep their order: removal distributes over concatenation. |
| NetworkListener.Matching | src/internal/network/NetworkListener.ts:48-56 | There are never more calls than registered handlers. With MatchingAppend, each registered handler is called at most once. |
| NetworkListener.MatchingMembers | src/internal/network/NetworkListener.ts:48-56 | The handlers called are exactly the registered ones whose pattern matches. |
| NetworkListener.MatchingAppend | src/internal/network/NetworkListener.ts:48-56 | Matching handlers are called in registration order: matching distributes over concatenation. |
| NetworkListener.Throwing | src/internal/network/NetworkListener.ts:50-54 | The failures reported are exactly the called handlers that throw, and there are never more failures than calls. |
| NetworkListener.ThrowingAppend | src/internal/network/NetworkListener.ts:48-56 | Failures are reported in call order, and one failing handler does not stop later ones. |
| NetworkListener.NoneRemoved | src/internal/network/NetworkListener.ts:28-33 | When nothing is removed, no handler had the pattern. |
| NetworkListener.NetworkListener.constructor | src/internal/network/NetworkListener.ts:14-17 | A new listener has no handlers and is not listening. |
| NetworkListener.NetworkListener.RegisterHandler | src/internal/network/NetworkListener.ts:20-23 | Appends one handler at the end. |
| NetworkListener.NetworkListener.UnregisterHandler | src/internal/network/NetworkListener.ts:26-34 | Removes every handler with the pattern, keeping the others in order (RemovePattern and RemovePatternAppend), and reports whether one existed. |
| NetworkListener.NetworkListener.Start | src/internal/network/NetworkListener.ts:37-58 | Start while listening is a no-op. Otherwise it sets the flag. Handlers are unchanged. |
| NetworkListener.NetworkListener.Stop | src/internal/network/NetworkListener.ts:61-71 | Stop while not listening is a no-op. Otherwise it clears the flag. Handlers are unchanged. |
| NetworkListener.NetworkListener.OnResponse | src/internal/network/NetworkListener.ts:47-56 | While listening, every matching handler is called in registration order. The failures are those that throw. |
| Workspace.FormatCwd | src/internal/chat/ChatController.ts:132-135 | Under the home directory, cwd is shown as `~` plus the remainder; otherwise unchanged. |
| Workspace.FormatCwdRecovers | src/internal/common/ChatController.ts:61-64 | The home directory plus the displayed remainder gives back cwd. |
| Workspace.GlobPaths | src/internal/common/ChatController.ts:56-58 | One path per comma-separated part, resolved against cwd, in order. |
| Workspace.GlobPieces | src/internal/chat/MenuHandler.ts:46 | The parts contain no comma, and rejoining them with commas gives the input back. |
| Workspace.BrowseSelection | src/internal/chat/MenuHandler.ts:53-77 | The selection loop computes the reference selection. |
| Workspace.SelectionBounded | src/internal/common/MenuHandler.ts:54-73 | The selection never holds more than ten paths and never a path twice. |
| Workspace.SelectionIsCappedDedup | src/internal/chat/MenuHandler.ts:57-76 | The selection is the picks before `canceled`, de-duplicated in first-selection order, cut at ten. |
| Workspace.UploadRequest | src/internal/common/MenuHandler.ts:75-81 | The upload receives the first ten selected paths. |
| Uploads.UploadedIdsMembers | src/internal/chat/FileUploader.ts:31-33 | Only non-empty ids of the given paths are collected. |
| Uploads.FileUploader.UploadFiles | src/internal/chat/FileUploader.ts:11-42 | The ids of the uploaded files are appended to the uploader's list, in order. |
| ChatSession.DispatchOf | src/internal/chat/ChatController.ts:104-111 | On the trimmed input, `\q` quits, exactly `:` opens the menu, and other `:`-prefixed input runs a command. Anything else is chatted with the untrimmed input. |
| ChatSession.ToolFor | src/internal/chat/MenuHandler.ts:36 | `none` selects no tool; any other registered name selects that tool. |
| ChatSession.SaveWritesOnePoint | src/internal/chat/MenuHandler.ts:96-101 | A save creates the map if absent and stores `{label, previousResponseId}` under `conversationId-name`. Other keys are untouched. |
| ChatSession.SaveSkipped | src/internal/chat/MenuHandler.ts:93-108 | An empty name or an empty response id leaves the saved points unchanged. |
| ChatSession.BrowseUploadBounded | src/internal/chat/MenuHandler.ts:78-81 | A browse upload adds at most ten ids. |
| ChatSession.FirstQuitIsFirst | src/internal/chat/ChatController.ts:100-105 | The first quitting turn quits, and no earlier turn does. |
| ChatSession.ChatController.constructor | src/internal/chat/ChatController.ts:28-40 | A new controller is inactive with no ids and no tool. Its streamer holds the initial id and no parent. |
| ChatSession.ChatController.InitializeConversation | src/internal/chat/ChatController.ts:53-65 | `--new` gives `""`. Otherwise the flag, else the active id, else `""`. The active id is rewritten only to a non-empty new id. |
| ChatSession.ChatController.SetupChatPage | src/internal/chat/ChatController.ts:67-96 | The URL follows the id. A missing chat UI fails. A streamer is installed for a new conversation, or when history yields a parent. |
| ChatSession.ChatController.UpdateConversationId | src/internal/chat/ChatController.ts:124-130 | The streamer's id is adopted, and made active, only when the controller's is empty. A non-empty id is never overwritten. |
| ChatSession.ChatController.Exchange | src/internal/chat/ChatController.ts:111-112 | The streamer runs the events from its state, and the controller adopts the resulting conversation id. |
| ChatSession.ChatController.SendMessage | src/internal/chat/ChatController.ts:111-113 | The attachments are sent, and the list the uploader shares is then cleared in place. |
| ChatSession.ChatController.SendMessageAsWritten | src/internal/chat/ChatController.ts:111-113 | The attachments are sent, and the controller then holds a fresh empty list that the uploader does not share. |
| ChatSession.ChatController.UploadFiles | src/internal/chat/ChatController.ts:119-122 | The comma-separated paths, resolved against cwd, are uploaded into the uploader's list. |
| ChatSession.ChatController.SetCwd | src/internal/chat/ChatController.ts:138 | Sets cwd, and nothing else changes. |
| ChatSession.ChatController.SetEnabledTool | src/internal/chat/ChatController.ts:140 | Sets the tool, and nothing else changes. |
| ChatSession.ChatController.Perform | src/internal/chat/ChatController.ts:104-114 | Quit clears the active flag. A chat builds its request from the current tool, attachments and parent, and empties the attachments. A command sets cwd as the registry's outcome says. |
| ChatSession.ChatController.ChatTurn | src/internal/chat/ChatController.ts:101-114 | A turn quits iff its trimmed input is `\q`, and chats iff it is neither `\q` nor `:`-prefixed. A chat's request begins with the untrimmed input, and the attachments are then empty. |
| ChatSession.ChatController.ChatLoop | src/internal/chat/ChatController.ts:98-117 | The loop consumes the turns up to and including the first quit. It stays active iff none quits. It makes one exchange per chat turn consumed, in order, and the k-th request begins with the k-th chat turn's input as typed. |
| ChatSession.ChatMessages | src/internal/chat/ChatController.ts:104-112 | The chat messages of a run of turns: at most one per turn. |
| ChatSession.MenuHandler.constructor | src/internal/chat/MenuHandler.ts:21-142 | The menu starts with its five built-in options, in order. |
| ChatSession.OptionNames | src/internal/chat/MenuHandler.ts:145 | One choice per option, in order, named by the option's name. The shared menu (`src/internal/common/MenuHandler.ts:87`) uses the same list. |
| ChatSession.MenuHandler.RegisterOption | src/internal/chat/MenuHandler.ts:150-152 | Appends the option at the end. |
| ChatSession.MenuHandler.ToggleTool | src/internal/chat/MenuHandler.ts:26-38 | Sets the controller's tool to none for `none`, else to the registered tool. Nothing else changes. |
| ChatSession.MenuHandler.UploadGlob | src/internal/chat/MenuHandler.ts:44-47 | A non-empty pattern uploads its comma-separated parts, resolved against cwd. |
| ChatSession.MenuHandler.UploadBrowse | src/internal/chat/MenuHandler.ts:53-85 | The bounded, de-duplicated selection is uploaded, and only when non-empty. |
| ChatSession.MenuHandler.SavePoint | src/internal/chat/MenuHandler.ts:91-110 | The saved points become `SavedAfter` of the streamer's ids and the name. The active id and the cookie are unchanged. |
| ChatSession.MenuHandler.LoadPoint | src/internal/chat/MenuHandler.ts:116-140 | Installs the new id and a streamer starting from the point's response id, empties the attachments in place, and activates the new id. The saved points are untouched. No saved points means no change. |
| ChatSession.MenuHandler.LoadPointAsWritten | src/internal/chat/MenuHandler.ts:132-137 | A load replaces the attachments with a fresh empty list that the uploader does not share. |
| ChatSession.MenuHandler.ShowMenu | src/internal/chat/MenuHandler.ts:144-148 | Runs the chosen option's action, with each action's effect as above. |
| ChatSession.UploadAfterFirstChatAsWritten | src/internal/chat/ChatController.ts:36 | As written, a file uploaded after the first chat is not attached to the next one. |
| ChatSession.UploadAfterFirstChat | src/internal/chat/ChatController.ts:113 | Clearing in place, the next chat attaches the uploaded file. |
| CommonSession.DispatchTrimmed | src/internal/common/ChatController.ts:41-51 | Dispatch decisions are those on the trimmed input, and the chat message is the trimmed input. |
| CommonSession.CommonController.constructor | src/internal/common/ChatController.ts:10-22 | A new controller is inactive with an empty list of ids and no tool. |
| CommonSession.CommonController.SetCwd | src/internal/common/ChatController.ts:66-67 | After setting cwd, the getter returns it, and nothing else changes. |
| CommonSession.CommonController.SetEnabledTool | src/internal/common/ChatController.ts:68-69 | After setting the tool, the getter returns it, and nothing else changes. |
| CommonSession.CommonController.UploadFiles | src/internal/common/ChatController.ts:56-59 | The comma-separated paths, resolved against cwd, go to the uploader. |
| CommonSession.CommonController.SendMessageAsWritten | src/internal/common/ChatController.ts:49-50 | The controller streams its own list, which nothing fills, and truncates it in place. |
| CommonSession.CommonController.SendMessage | src/internal/common/ChatController.ts:49-50 | The uploader's ids are streamed and then truncated in place. |
| CommonSession.CommonController.Perform | src/internal/common/ChatController.ts:42-51 | Quit clears the flag. A command is handed the trimmed line. A chat streams the message with the ids and tool, then empties the ids. |
| CommonSession.CommonController.ChatTurn | src/internal/common/ChatController.ts:40-51 | Dispatch and the chat message both use the trimmed input. A turn hands its collaborators exactly what `TurnHands` says and nothing else, and a chat streams the uploader's ids and the tool, then empties the ids. |
| CommonSession.TurnHands | src/internal/common/ChatController.ts:41-51 | A turn hands over at most one call: for a command, the trimmed line to the registry; for a chat, the trimmed message to the streamer. |
| CommonSession.HandedAll | src/internal/common/ChatController.ts:45-50 | One handed item per recorded call. |
| CommonSession.CommonController.ChatLoop | src/internal/common/ChatController.ts:36-54 | The loop consumes the turns up to and including the first quit, and stays active iff none quits. The calls made are, in order, those the consumed turns hand over. |
| CommonSession.CommonMenuHandler.constructor | src/internal/common/MenuHandler.ts:20-83 | The menu starts with the three shared options, in order. |
| CommonSession.CommonMenuHandler.RegisterOption | src/internal/common/MenuHandler.ts:92-94 | Appends the option, leaving the existing ones and their order unchanged. |
| CommonSession.CommonMenuHandler.ShowMenu | src/internal/common/MenuHandler.ts:86-90 | Runs the chosen option: toggle sets the tool (`none` gives none). Glob and browse upload into the uploader; browse uploads only a non-empty selection. |
| GrokChatCommand.InitializeConversation | src/commands/grok/chat.ts:74-94 | `--new` gives `""` regardless of the configuration. A missing configuration fails with `No Grok configuration found…`. Otherwise the flag, else the active id, else `""`, which is made active only when non-empty and new. |
| GrokChatCommand.SetupChatStreamer | src/commands/grok/chat.ts:96-124 | The URL follows the id. A missing UI fails with the page content. A known conversation needs a parent from history and fails without one. A new conversation gets a streamer with no ids. |
| GrokChatCommand.WireController | src/commands/grok/chat.ts:54-63 | The uploader is built on a fresh list of its own, distinct from the controller's. |
| GrokChatCommand.UploadThenChatAsWritten | src/commands/grok/chat.ts:56 | As written, a file uploaded in the session is never attached to a chat. |
| GrokChatCommand.UploadThenChat | src/internal/common/Interfaces.ts:7-11 | Attaching the uploader's ids, the same session sends the uploaded file. |

## Left out

- Browser and network: puppeteer (`goto`, `waitForSelector`, `evaluate`, the console listener's
  lifecycle), `fetch` and the reader. Their results are input sequences: console lines and
  decoded values, an HTTP response record with body chunks, a history result.
- The streaming JSON parser and `JSON.parse`. Decoded values are given (`GrokValue`, `Json`).
  JSON numbers are integers only, and `Host.parseJson` stands for `JSON.parse`.
- Timing and asynchrony: the 30-minute timeout is the `TimedOut` outcome of a stream with no
  terminal frame. Events that arrive after the exchange has settled are not modelled. Neither
  are Promise ordering and the SIGINT handler.
- The terminal UI (`ora`, `chalk`, `@inquirer/prompts`, the file selector). Menu answers and
  file picks are inputs. The selector's `basePath` (the last directory) is not modelled.
- `crypto.randomUUID`, `Date.now` and `new Date()`: they are parameters
  (`newConversationId`, `now`).
- Operating-system services (`path.resolve`, `process.chdir`, `homedir`, `readdirSync`, `fs`
  writes) are `Host` functions. `process.cwd()` is a `cwd` parameter. A failing `readdirSync`
  in `ls`, and `fs` write errors, are not modelled.
- Persistence: `saveGrokConfig`, `loadGrokConfig` and the state manager. The model updates the
  in-memory configuration only. `src/internal/state/WebUiConfig.ts` and the webui commands are
  not part of this model.
- Custom menu options and commands are opaque: a custom action does nothing in the model. A menu
  choice outside the list does nothing; the prompt never offers one.
- ChatSession.MenuHandler.LoadPoint: a key that is not among the saved points changes nothing.
  The select prompt only offers saved keys, where the code would dereference an undefined point.
- The shared controller's command registry and streamer are known only by interface. Their
  calls are recorded in `CommonController.calls`, not executed.
- Constructor arity: `src/commands/grok/chat.ts` builds `ChatStreamer` with four arguments and
  `FileUploader` with three, which do not match the constructors in `src/internal/chat/`. The
  model follows the evident intent: a streamer with a conversation id and a parent id, and an
  uploader over an id list.
- The `run` methods that sequence setup, uploads and the loop are not one member. Each step is
  modelled separately.
- NetworkListener.MatchUrlPattern: pattern characters other than `/`, `*` and `?` are treated
  literally, while JavaScript would read them as regex metacharacters. `new URL(...).pathname`
  is an input.
- WebUiStreamer.LineEffectOf: a truthy `delta.content` that is not a string yields no token,
  whereas JavaScript would append its string form.
- The `--tools` / `-t` flag that `src/commands/grok/chat.ts:42` declares is read nowhere in the
  source, so the model has no counterpart for it.
- Workspace.Folder: the folder glyph before the working directory is written as U+1F4C1. The source
  files hold a mis-encoded form of it (U+F8FF followed by `üìÅ`), and the model uses the
  evident character.
- FileTool.StepFor: a truthy `body` that is not a string is taken to make the write throw (`Abort`).
  `fs/promises` `writeFile` also accepts buffers and iterables, so an array of strings would be
  written as their concatenation. Non-string bodies are not modelled beyond the abort.
- Strings are sequences of characters. UTF-16 surrogates and `TextDecoder` streaming are not
  modelled.
- ChatSession.ChatController.Perform, ChatSession.ChatController.ChatTurn, ChatSession.ChatController.ChatLoop,
  ChatSession.ChatController.SendMessage, ChatSession.MenuHandler.LoadPoint, ChatSession.MenuHandler.ShowMenu:
  these model the corrected behaviour of the first Findings row (the shared id list is cleared in
  place). The code as written is `SendMessageAsWritten` and `LoadPointAsWritten`.
- CommonSession.CommonController.Perform, CommonSession.CommonController.ChatTurn,
  CommonSession.CommonController.ChatLoop, CommonSession.CommonController.SendMessage: these model the
  corrected behaviour of the second Findings row (the uploader's ids are streamed). The code as
  written is `SendMessageAsWritten`.
- FileTool.StepFor, FileTool.PlanFor, FileTool.PostprocessSpec, FileTool.PostprocessResponse: these use
  the directory-boundary guard of the third Findings row. The text-prefix guard as written is
  `StepForAsWritten`.
- Terminal output: the tokens and the final response that the Grok streamer writes to stdout
  (`src/internal/chat/ChatStreamer.ts:90-92,104`) and the file tool's `console.warn` messages for a
  rejected target or an invalid entry (`src/internal/tools/FileTool.ts:36,60`) are not modelled.
  The `Reject` and `Skip` steps stand for those warnings.

## Findings

| source | as written | input that shows it | evidently intended | confidence | as-written member | corrected member |
|---|---|---|---|---|---|---|
| src/internal/chat/ChatController.ts:113 | After each chat, `this.fileIds = []` replaces the list. The `FileUploader` keeps the list it was given at construction (line 36), and `src/internal/chat/MenuHandler.ts:136` does the same on load. | Chat once, upload `notes.txt`, chat again: the second request attaches nothing. | Clear the shared list in place, as `src/internal/common/ChatController.ts:50` does, so later uploads reach later chats. | not executed | ChatSession.UploadAfterFirstChatAsWritten | ChatSession.UploadAfterFirstChat |
| src/commands/grok/chat.ts:56 | The uploader is built on its own fresh `[]`. The shared controller streams its private `fileIds` (`src/internal/common/ChatController.ts:13,49`), which nothing fills. | Upload `notes.txt` through the menu, then chat: the request attaches nothing. | Stream the ids the uploader collected and then clear them, as the uploader interface's `getLastFileIds` / `clearFileIds` (`src/internal/common/Interfaces.ts:9-10`) provide. | not executed | GrokChatCommand.UploadThenChatAsWritten | GrokChatCommand.UploadThenChat |
| src/internal/tools/FileTool.ts:35 | The guard is `fullPath.startsWith(cwd)`, a text test, so a sibling directory whose name extends cwd's passes. | cwd `/work`, an entry with path `../work-evil` and name `x`: the target `/work-evil/x` is written. | Admit only cwd itself or paths below it, that is, cwd followed by a separator. | not executed | FileTool.SiblingDirectoryAsWritten | FileTool.PlanContained |
