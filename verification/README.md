# mcpbot core, modelled in Dafny

mcpbot is a set of Model Context Protocol (MCP) demos. Kotlin programs talk MCP over Server-Sent Events (SSE) and WebSockets. A TypeScript Express server offers chat sessions backed by Genkit models. This project models the sequential logic under that glue, one Dafny module per source file, and proves what each piece promises.

- `SseClient` (sse_client.dfy) is the client SSE transport `McpClient`. Its state is a `ClientState` value: the one-shot `initialized` flag, the single-assignment endpoint, the listener, the callback slots and the callbacks and POSTs made so far. Transition functions (`Step`, `Settle`, `Drain`, `StartSpec`, `SendSpec`, `CloseSpec`) say what each operation does to that state. The class `McpClient` keeps the same fields and is proved to implement the transitions. The invariant `Inv` is kept by every transition. The event stream is a finite sequence of `(event, data)` pairs. The JSON codec is an arbitrary pair of functions, and `decode` may fail.
- `SseServer` (sse_server.dfy) covers the server's `main`: command-line defaulting, the `servers` registry of the plain SSE server as the class `SessionRegistry`, and the `ls` tool: the path `java.io.File` resolves, with its normalisation, and the answer text.
- `Connection` (server_connection.dfy) is `ServerConnection`: a connect-once, close-resets guard around a nullable SDK client.
- `ConnectionPool` (connection_manager.dfy) is `ConnectionManager`: the one-key connection table, the rendering of tool results as text, and the lazily created instance.
- `Ai` (ai.dfy) covers `validateTools`, `MODELS`, `validateModels` and `getCurrentModel`.
- `Chat` (chat.dfy) covers `ChatSession`: the model guard, the tool configuration built by `createChat`, the bookkeeping of `sendMessage` with its ordered rewriting of failures, and `validateSession`.
- `ChatServer` (chat_server.dfy) covers the Express routes of the chat server: the `sessions` table, the expiry sweep, the session gate, the start, message, switch and model-list routes, and `errorHandler`.
- `Host` (host.dfy) covers `McpHost`: the OpenAI message list of `handleSamplingRequest` with its defaults, and the input loop of `start` with its `/exit` and `/ls` commands.
- `Text` (text.dfy) models the Kotlin and JavaScript string functions that code relies on: `trim`, `trim('"')`, `startsWith`, `includes`, `joinToString`/`split`, `toIntOrNull` and `Int.toString`. `Wrappers` (wrappers.dfy) holds `Option`, `Result` and `Outcome`.

Network calls, the JSON codec, the LLMs, the file system, the clock and random ids are parameters of the operations that use them. Every coroutine and every request handler runs as one atomic step.

The chat model guard is the one place where the model departs from the code on purpose. The guard `!MODELS[modelKey]` (src/server/chat.ts, lines 73, 92 and 196) also accepts names inherited from `Object.prototype`. The model keeps that guard as `Ai.GuardAsWritten`, but `Chat.ChatSession.constructor`, `Chat.ChatSession.SwitchModel`, `Chat.CreateChat`, `Chat.NewChatSession`, `ChatServer.ChatApp.StartChat` and `ChatServer.ChatApp.Switch` all use the intended own-key guard, `Ai.LookupModel`, so they reject "toString" where the code accepts it. See Findings.

Where the code and its own comments disagree, the model follows the code:
- `main` defaults to `--sse-server`, the plain SSE server, although its doc comment names the Ktor-plugin server as the default.
- In `start()`, an `error` event that arrives before any `endpoint` event ends the listener. It does not complete the endpoint deferred, so `start()` stays suspended for good. This is `StartOutcome.Suspended`.
- After `start()`, `onClose` fires on every call to `close()`, not just the first one.
- `send` after `close` still POSTs, because the endpoint stays completed.
- A `start()` whose `sseSession` throws still leaves `initialized` set. A later `close()` then fails, because `session` was never assigned.
- In `ls`, a directory with no entries lists as the empty text. "Empty directory" is only the answer for a null `listFiles()`.

## Model

| member | source | states |
|---|---|---|
| Text.TrimWith | src/main/kotlin/io/modelcontextprotocol/example/server/Main.kt:98 | `trim(predicate)` keeps a slice of the input. Everything before and after the slice satisfies the predicate, and the slice is empty or neither starts nor ends with such a character |
| Text.TrimWithUnique | src/main/kotlin/io/modelcontextprotocol/example/server/Main.kt:98 | That slice is the only one with those properties |
| Text.TrimWithFront | src/main/kotlin/io/modelcontextprotocol/example/server/Main.kt:98 | A leading character that satisfies the predicate is trimmed away |
| Text.TrimWithBack | src/main/kotlin/io/modelcontextprotocol/example/server/Main.kt:98 | With nothing to trim in front, a trailing character that satisfies the predicate is trimmed away |
| Text.Trim | bin/main/io/modelcontextprotocol/example/host/Main.kt:125 | `trim()` gives a string no longer than its input, with no whitespace at either end |
| Text.TrimIsTrimWith | bin/main/io/modelcontextprotocol/example/host/Main.kt:125 | `trim()` is `trim(Char::isWhitespace)`: the slice between the whitespace prefix and the whitespace suffix |
| Text.TrimOfTrimmed | bin/main/io/modelcontextprotocol/example/host/Main.kt:125 | Trimming a string with no whitespace at its ends gives it back unchanged |
| Text.TrimAfterSpace | bin/main/io/modelcontextprotocol/example/host/Main.kt:128 | A space in front of a trimmed string is trimmed away |
| Text.SplitJoin | bin/main/io/modelcontextprotocol/example/connection/ConnectionManager.kt:44 | Joining pieces that do not contain the separator, then splitting, gives the pieces back |
| Text.ToIntOrNull | src/main/kotlin/io/modelcontextprotocol/example/server/Main.kt:38 | `toIntOrNull` gives a 32-bit `Int`, and only for an optional sign followed by decimal digits |
| Text.IntToStringRoundTrip | src/main/kotlin/io/modelcontextprotocol/example/server/Main.kt:38 | Parsing a printed `Int` gives back the same `Int` |
| SseServer.Main | src/main/kotlin/io/modelcontextprotocol/example/server/Main.kt:36-47 | The command defaults to `--sse-server`. `--stdio` runs the stdio server, `--sse-server-ktor` the Ktor-plugin server and `--sse-server` the plain one, each on the port argument, which defaults to 3001 when absent or not an `Int`. Any other command starts no server and reports "Unknown command: " and the command |
| SseServer.PortArgumentRoundTrip | src/main/kotlin/io/modelcontextprotocol/example/server/Main.kt:37-42 | Any `Int` given as the second argument is the port the chosen SSE server gets |
| SseServer.MessageEndpointNamesPort | src/main/kotlin/io/modelcontextprotocol/example/server/Main.kt:165 | The advertised endpoint is `http://127.0.0.1:`, then the port, then `/message`, and the port text reads back as the server's port |
| SseServer.SessionRegistry.constructor | src/main/kotlin/io/modelcontextprotocol/example/server/Main.kt:156 | The registry starts empty |
| SseServer.SessionRegistry.OpenStream | src/main/kotlin/io/modelcontextprotocol/example/server/Main.kt:163-171 | A new stream registers an unconnected server under its session id and changes no other entry. Its endpoint is the advertised message endpoint |
| SseServer.SessionRegistry.ConnectTransport | src/main/kotlin/io/modelcontextprotocol/example/server/Main.kt:178 | Connecting gives the registered server the transport of its own session id. An unregistered id changes nothing |
| SseServer.SessionRegistry.CloseSession | src/main/kotlin/io/modelcontextprotocol/example/server/Main.kt:173-176 | The close callback removes exactly its own session id |
| SseServer.SessionRegistry.HandlePost | src/main/kotlin/io/modelcontextprotocol/example/server/Main.kt:181-193 | A POST without `sessionId` fails. An id with no connected server gets 404 "Session not found". Otherwise the body goes to the transport of exactly that session |
| SseServer.RequestedPath | src/main/kotlin/io/modelcontextprotocol/example/server/Main.kt:98 | With no `path` argument the path is `.`. Otherwise it is the slice of the argument left once the quotes at both ends are removed: everything before and after the slice is a quote, and the slice neither starts nor ends with one |
| SseServer.RequestedPathOfJsonString | src/main/kotlin/io/modelcontextprotocol/example/server/Main.kt:98 | A JSON string argument `"p"` names the path `p` when `p` neither starts nor ends with a quote |
| SseServer.CollapseSlashes | src/main/kotlin/io/modelcontextprotocol/example/server/Main.kt:99 | `normalize` collapses every run of slashes: the result keeps the first and last character and has no two slashes in a row |
| SseServer.NormalizePath | src/main/kotlin/io/modelcontextprotocol/example/server/Main.kt:99 | `normalize` gives a path with no two slashes in a row and no trailing slash unless it is "/", and empty only for the empty path |
| SseServer.NormalizeNormal | src/main/kotlin/io/modelcontextprotocol/example/server/Main.kt:99 | A normal path normalises to itself, so normalising twice is normalising once |
| SseServer.TrailingSlashIgnored | src/main/kotlin/io/modelcontextprotocol/example/server/Main.kt:99 | A trailing slash on a non-empty normal path normalises away |
| SseServer.JoinPath | src/main/kotlin/io/modelcontextprotocol/example/server/Main.kt:99 | `resolve` of two normal paths starts with the parent and ends with the child |
| SseServer.Resolve | src/main/kotlin/io/modelcontextprotocol/example/server/Main.kt:99 | `File(workingDirectory, requested)` normalises both paths and joins them: the result starts with the normalised working directory and ends with the normalised requested path |
| SseServer.ResolveIgnoresTrailingSlash | src/main/kotlin/io/modelcontextprotocol/example/server/Main.kt:98-99 | `ls` of `src/` resolves to the same path as `ls` of `src`, as `/wd/src` under `/wd` |
| SseServer.NameLeTotal | src/main/kotlin/io/modelcontextprotocol/example/server/Main.kt:108 | Comparing names by `compareTo` is total |
| SseServer.NameLeTransitive | src/main/kotlin/io/modelcontextprotocol/example/server/Main.kt:108 | Comparing names by `compareTo` is transitive |
| SseServer.EntryLeTotal | src/main/kotlin/io/modelcontextprotocol/example/server/Main.kt:108 | The directories-first, then by-name order is total |
| SseServer.EntryLeTransitive | src/main/kotlin/io/modelcontextprotocol/example/server/Main.kt:108 | The directories-first, then by-name order is transitive |
| SseServer.Insert | src/main/kotlin/io/modelcontextprotocol/example/server/Main.kt:108 | Inserting into a sorted listing keeps it sorted and adds exactly the one entry |
| SseServer.SortEntries | src/main/kotlin/io/modelcontextprotocol/example/server/Main.kt:108 | `sortedWith` gives a sorted permutation of the entries |
| SseServer.ListingOrder | src/main/kotlin/io/modelcontextprotocol/example/server/Main.kt:107-108 | The sorted listing holds the same entries. Every directory comes before every file, and each group is in name order |
| SseServer.Lines | src/main/kotlin/io/modelcontextprotocol/example/server/Main.kt:109-111 | There is one line per entry: `d ` or `- ` and then the entry's name |
| SseServer.LsText | src/main/kotlin/io/modelcontextprotocol/example/server/Main.kt:102-112 | A missing path and a non-directory answer "Error: " with the path at its place in the message. A null listing answers "Empty directory". A listing is empty or starts with `d` or `-` |
| SseServer.LsTool | src/main/kotlin/io/modelcontextprotocol/example/server/Main.kt:96-112 | A missing path is reported with its resolved form, which starts with the working directory and ends with the normalised requested path. A directory listing does not depend on the path |
| SseServer.LsAnswersDistinct | src/main/kotlin/io/modelcontextprotocol/example/server/Main.kt:102-112 | The missing-path, not-a-directory and null-listing answers all differ. A listing is empty or starts with `d` or `-`. An empty directory lists as the empty text |
| SseServer.ListingReadsBack | src/main/kotlin/io/modelcontextprotocol/example/server/Main.kt:107-112 | Split at newlines, a listing of entries without newlines in their names gives one line per entry, in sorted order |
| SseClient.InvInitial | src/main/kotlin/io/modelcontextprotocol/example/client/Main.kt:29-37 | A new transport satisfies the state invariant |
| SseClient.StepKeepsInv | src/main/kotlin/io/modelcontextprotocol/example/client/Main.kt:64-103 | Handling one event keeps the invariant and changes neither the POSTs, the `initialized` flag nor the slots |
| SseClient.DrainKeepsInv | src/main/kotlin/io/modelcontextprotocol/example/client/Main.kt:63-104 | Running the listener to its end keeps the invariant |
| SseClient.SettleKeepsInv | src/main/kotlin/io/modelcontextprotocol/example/client/Main.kt:63-106 | Running the listener until the endpoint is known keeps the invariant |
| SseClient.StartKeepsInv | src/main/kotlin/io/modelcontextprotocol/example/client/Main.kt:43-107 | `start()` keeps the invariant, always leaves `initialized` set, and sends nothing |
| SseClient.SendKeepsInv | src/main/kotlin/io/modelcontextprotocol/example/client/Main.kt:110-133 | `send` keeps the invariant: every POST went to the stored endpoint |
| SseClient.CloseKeepsInv | src/main/kotlin/io/modelcontextprotocol/example/client/Main.kt:135-143 | `close` keeps the invariant |
| SseClient.SecondStartRejected | src/main/kotlin/io/modelcontextprotocol/example/client/Main.kt:44-49 | A second `start()` fails with "already started", changes nothing and opens no second stream |
| SseClient.SendBeforeEndpointFails | src/main/kotlin/io/modelcontextprotocol/example/client/Main.kt:111-113 | `send` before the endpoint is known fails with "Not connected", posts nothing and calls no handler |
| SseClient.SendPostsToEndpoint | src/main/kotlin/io/modelcontextprotocol/example/client/Main.kt:115-132 | Once the endpoint is known, `send` POSTs the encoded message to exactly that endpoint. It succeeds exactly on a 2xx answer, and each failure goes to `onError`, if set, and to the caller |
| SseClient.CloseStopsCallbacks | src/main/kotlin/io/modelcontextprotocol/example/client/Main.kt:135-143 | `close` before `start` fails. A successful close cancels the session, fires `onClose` and stops the listener, so the listener invokes no further callback |
| SseClient.EndpointNeverChanges | src/main/kotlin/io/modelcontextprotocol/example/client/Main.kt:77-92 | Once known, the endpoint never changes, and `start` returns at once |
| SseClient.EndpointIsFirstAnnounced | src/main/kotlin/io/modelcontextprotocol/example/client/Main.kt:77-85 | The stored endpoint is the data of the first `endpoint` event, verbatim, unless an `error` event comes first |
| SseClient.StartAdoptsAnnouncedEndpoint | src/main/kotlin/io/modelcontextprotocol/example/client/Main.kt:43-106 | `start()` returns exactly when an endpoint is announced before any `error` event, and it connects to that announcement's data. Otherwise it stays suspended |
| SseClient.ListenerDeliversInOrder | src/main/kotlin/io/modelcontextprotocol/example/client/Main.kt:63-104 | Every event up to the first `error` event whose data decodes reaches `onMessage`, in stream order. Undecodable events are skipped, and the events after them are still handled |
| SseClient.DecodeFailureIsRecoverable | src/main/kotlin/io/modelcontextprotocol/example/client/Main.kt:94-101 | A payload that fails to decode goes to `onError`, and the listener goes on with the next event |
| SseClient.ErrorEventEndsListener | src/main/kotlin/io/modelcontextprotocol/example/client/Main.kt:66-75 | An `error` event goes to `onError` and ends the listener. An `open` event changes nothing |
| SseClient.McpClient.constructor | src/main/kotlin/io/modelcontextprotocol/example/client/Main.kt:29-37 | A new transport is in the initial state |
| SseClient.McpClient.SetHandlers | src/main/kotlin/io/modelcontextprotocol/example/client/Main.kt:33-35 | Registering handlers fills the callback slots and changes nothing else |
| SseClient.McpClient.Receive | src/main/kotlin/io/modelcontextprotocol/example/client/Main.kt:64-103 | One pass of the collecting loop performs `Step` on the fields and keeps the invariant |
| SseClient.McpClient.Listen | src/main/kotlin/io/modelcontextprotocol/example/client/Main.kt:63-104 | The collecting loop performs `Drain` on the fields |
| SseClient.McpClient.Start | src/main/kotlin/io/modelcontextprotocol/example/client/Main.kt:43-107 | `start()` performs `StartSpec` on the fields and returns its outcome |
| SseClient.McpClient.AwaitEndpoint | src/main/kotlin/io/modelcontextprotocol/example/client/Main.kt:106 | The wait in `start()` performs `Settle` on the fields |
| SseClient.McpClient.Send | src/main/kotlin/io/modelcontextprotocol/example/client/Main.kt:110-133 | `send` performs `SendSpec` on the fields and returns its outcome |
| SseClient.McpClient.Close | src/main/kotlin/io/modelcontextprotocol/example/client/Main.kt:135-143 | `close` performs `CloseSpec` on the fields and returns its outcome |
| Connection.ServerConnection.constructor | src/main/kotlin/io/modelcontextprotocol/example/connection/ServerConnection.kt:11-16 | A new connection has no client |
| Connection.ServerConnection.Connect | src/main/kotlin/io/modelcontextprotocol/example/connection/ServerConnection.kt:18-31 | While a client is set, `connect` fails with "Already connected" and keeps it. Otherwise it stores the created client and returns true, or returns false and stores nothing |
| Connection.ServerConnection.CallTool | src/main/kotlin/io/modelcontextprotocol/example/connection/ServerConnection.kt:47-51 | With no client the result is null. Otherwise a `CallToolResult` is passed on, any other answer becomes null, and an exception passes through with its message |
| Connection.ServerConnection.Close | src/main/kotlin/io/modelcontextprotocol/example/connection/ServerConnection.kt:53-58 | `close` closes the client, if any, and always leaves the field null |
| ConnectionPool.RenderContents | bin/main/io/modelcontextprotocol/example/connection/ConnectionManager.kt:44-52 | There is one rendered line per content item, in order: a text item's text, or "" when it is null, and for other content "Unexpected content type: " and its class name |
| ConnectionPool.RenderOutcome | bin/main/io/modelcontextprotocol/example/connection/ConnectionManager.kt:40-62 | An exception renders as "Error: " and its message, or "null". A null result renders as "Error: Tool call failed". A result with no content renders as the empty text, and a result of one item as that item alone |
| ConnectionPool.RenderedTextsReadBack | bin/main/io/modelcontextprotocol/example/connection/ConnectionManager.kt:40-53 | A result made of text items without newlines reads back item by item from the rendered text |
| ConnectionPool.RenderedLinesReadBack | bin/main/io/modelcontextprotocol/example/connection/ConnectionManager.kt:40-53 | Any non-empty result, whatever mix of text, null text and other content it holds, renders as its items' lines joined by newlines: split at newlines, it reads back as those lines when none holds a newline |
| ConnectionPool.FailuresAreReported | bin/main/io/modelcontextprotocol/example/connection/ConnectionManager.kt:54-62 | A thrown message is reported after "Error: ". It is told apart from "Error: Tool call failed" unless the message is "Tool call failed" |
| ConnectionPool.ConnectionManager.constructor | bin/main/io/modelcontextprotocol/example/connection/ConnectionManager.kt:13 | A new manager has no connections |
| ConnectionPool.ConnectionManager.Connect | bin/main/io/modelcontextprotocol/example/connection/ConnectionManager.kt:16-31 | A successful connect stores the new connection under "default", with its client, and returns true. A failed one returns false and leaves the table as it was |
| ConnectionPool.ConnectionManager.CallTool | bin/main/io/modelcontextprotocol/example/connection/ConnectionManager.kt:33-63 | Without a "default" entry the answer is "Error: Server not connected". Otherwise the answer is the rendered result, "Error: Tool call failed", or "Error: " and the thrown message |
| ConnectionPool.ConnectionManager.Close | bin/main/io/modelcontextprotocol/example/connection/ConnectionManager.kt:65-71 | Every stored connection is closed, and the table is left empty |
| ConnectionPool.ManagerSingleton.constructor | bin/main/io/modelcontextprotocol/example/connection/ConnectionManager.kt:74 | No instance exists at first |
| ConnectionPool.ManagerSingleton.GetInstance | bin/main/io/modelcontextprotocol/example/connection/ConnectionManager.kt:76-79 | `getInstance` returns the stored instance, or creates an empty one and stores it for every later call |
| Ai.CategoryEntries | src/core/ai.ts:231-238 | There is one record per tool of a category, in order |
| Ai.ToolEntries | src/core/ai.ts:226-246 | There is one record per tool of the catalog, each copying the tool's name, description and schema, and every record is available |
| Ai.ToolEntriesAt | src/core/ai.ts:230-239 | Records come in category-then-tool order: tool `t` of category `c` follows every tool of the earlier categories and the earlier tools of `c` |
| Ai.ValidateTools | src/core/ai.ts:226-246 | The nested `forEach` loops give exactly the catalog's records |
| Ai.PushCategory | src/core/ai.ts:231-238 | The inner loop appends a category's records to the list, in order |
| Ai.ShippedTools | src/core/ai.ts:26-56 | The shipped catalog gives `read_file` and then `write_to_file` |
| Ai.ObjectKeys | src/core/ai.ts:250 | `Object.keys` lists an object's keys in entry order, as it does for the non-numeric keys of `MODELS`, of the categories of `toolSchemas` and of the input shapes behind `required` |
| Ai.Models | src/core/ai.ts:213-216 | `MODELS` has `gemini` exactly when the Google key is set, `claude` exactly when the Anthropic key is set, and no other key |
| Ai.LookupModel | src/server/chat.ts:91-94 | The own-key lookup finds a model exactly for a key of `MODELS` |
| Ai.GuardAsWritten | src/server/chat.ts:73 | The `!MODELS[key]` guard as written lets through every own key and every name inherited from `Object.prototype` |
| Ai.PrototypeNamePassesGuard | src/server/chat.ts:73-75 | With no API key, no model is configured, yet the guard as written accepts "toString" |
| Ai.ValidateModels | src/core/ai.ts:249-251 | `validateModels()` holds exactly when `MODELS` has some key |
| Ai.ModelsConfigured | src/core/ai.ts:213-251 | Some model is available exactly when at least one API key is set |
| Ai.ModelLabelNamesModel | src/core/ai.ts:221-223 | The label is "Using ", then the key, then " model", so different keys give different labels |
| Chat.FindZodCategory | src/server/chat.ts:124-126 | The category found is the first that knows the tool. None is found exactly when no category knows it |
| Chat.PropertiesOf | src/server/chat.ts:141-146 | There is one property per key of the input shape, of type `string`, with the zod description or "" |
| Chat.ConfigureTool | src/server/chat.ts:104-152 | A tool with no catalog schema fails with `ToolConfigurationError`. A tool that no zod category knows, or whose first such category has the empty key (falsy in `if (!category)`), is dropped. Otherwise the config keeps the tool's name and description. Its schema is an object built from the tool's zod input shape: one string property per shape key, with the key's description, and `required` listing every key of the shape, in order |
| Chat.ConfigureTools | src/server/chat.ts:103-154 | The map fails exactly when some tool has no catalog schema. Otherwise it configures exactly the tools that pass `if (!category)`, in order. Each schema is an object of required strings built from the zod input shape stored under the config's name |
| Chat.AvailableOnly | src/server/chat.ts:85 | When every tool is available, the filter keeps them all |
| Chat.CreateChat | src/server/chat.ts:81-193 | Every failure becomes the one "Failed to initialize chat session" `ChatSessionError`. It fails exactly for a model that is not an own key of `MODELS` or a tool without a catalog schema. Otherwise the options hold the model, the system prompt and the configured tools. Each tool's schema is an object of required strings built from the zod input shape stored under its name |
| Chat.AllNamesWithZodSchema | src/server/chat.ts:124-154 | When every tool has a zod schema under a non-empty category key, every tool is configured, in order |
| Chat.FirstApplying | src/server/chat.ts:229-281 | This picks the first branch whose condition holds, or none |
| Chat.RewriteError | src/server/chat.ts:229-281 | Every failure of `sendMessage` leaves as an `McpError` |
| Chat.RewriteIsFirstMatch | src/server/chat.ts:229-281 | Some branch always applies, and the rewritten message is that of the first branch, in source order, whose condition holds |
| Chat.SendOutcome | src/server/chat.ts:214-283 | A message succeeds exactly when the chat was created and answered, and then gives the answer. Otherwise the result is the rewritten failure |
| Chat.BrokenChatReportsInitFailure | src/server/chat.ts:186-237 | A session whose chat could not be created answers every message with "Chat session error: Failed to initialize chat session..." |
| Chat.AnyAvailable | src/server/chat.ts:289 | `some(t => t.available)` holds exactly when some tool is available |
| Chat.SessionHealthy | src/server/chat.ts:286-294 | `validateSession()` holds exactly when the catalog has a tool |
| Chat.ChatSession.constructor | src/server/chat.ts:72-79 | Past the guard (the corrected own-key guard, see Findings), the session is on the model, with its chat and the access time |
| Chat.ChatSession.SwitchModel | src/server/chat.ts:195-208 | For a model that is not an own key of `MODELS` (the corrected guard, see Findings), the switch returns false and changes nothing. Otherwise it moves to the model with a new chat and a fresh access time |
| Chat.ChatSession.SendMessage | src/server/chat.ts:214-283 | The result is `SendOutcome`. The access time moves only when an answer arrives, and the model and chat stay as they were |
| Chat.NewChatSession | src/server/chat.ts:72-79 | Construction throws a `ChatSessionError` naming the model exactly when it is not an own key of `MODELS` (the corrected guard, see Findings). Otherwise it gives a fresh session on that model |
| ChatServer.ErrorHandler | src/server/index.ts:34-68 | An `McpError` (by name) answers 503. Otherwise a message mentioning MCP answers 503, a `SyntaxError` answers 400, and anything else 500 |
| ChatServer.MessageFailuresAnswer503 | src/server/index.ts:154-158 | A message gets the chat's answer with 200, or 503 with the rewritten message |
| ChatServer.Rejection | src/server/index.ts:91-104 | The gate answers 404 for an unknown id, 503 for a session whose health check fails, and lets the rest through |
| ChatServer.ModelsRouteFollowsKeys | src/server/index.ts:113-119 | Over the `MODELS` the API keys give, `/api/models` answers 503 exactly when neither key is set. Otherwise it answers 200 listing `gemini` and then `claude`, each exactly when its key is set |
| ChatServer.ChatApp.constructor | src/server/index.ts:18 | The session table starts empty |
| ChatServer.ChatApp.CleanupInactiveSessions | src/server/index.ts:71-80 | Exactly the sessions idle for more than thirty minutes are removed, and the others stay as they were |
| ChatServer.ChatApp.ValidateSession | src/server/index.ts:86-110 | The gate's verdict is `Rejection`, and only a session that failed its health check is deleted |
| ChatServer.ChatApp.StartChat | src/server/index.ts:121-140 | The model key is the body's `model` when truthy, else "gemini". For a model that passes the corrected own-key guard (see Findings), a fresh session on it, with its chat, is stored under the new id and the answer names the model. Otherwise the answer is 503 with the constructor's message and nothing is stored |
| ChatServer.ChatApp.PostMessage | src/server/index.ts:142-161 | Past the gate, the answer is the session's reply or its failure through the error handler. The access time moves only on success. Only that one session object may change |
| ChatServer.ChatApp.Switch | src/server/index.ts:163-181 | Past the gate, a model that passes the corrected own-key guard (see Findings) is switched to with 200 and a new chat on it. Any other model answers 400 "Invalid model" and changes nothing. Only that one session object may change |
| Host.MapRole | bin/main/io/modelcontextprotocol/example/host/Main.kt:60-64 | `user` becomes `User` and `assistant` becomes `Assistant`. No message becomes a system message |
| Host.ConvertAll | bin/main/io/modelcontextprotocol/example/host/Main.kt:57-69 | With only text content, there is one chat message per request message, in order, with its role and its text, or "" when that is null. Otherwise the result is the refusal of the first non-text message |
| Host.ChatMessagesShape | bin/main/io/modelcontextprotocol/example/host/Main.kt:46-69 | The list starts with a system message exactly when there is a system prompt, and then holds one message per request message, in order |
| Host.RefusalSticks | bin/main/io/modelcontextprotocol/example/host/Main.kt:57-69 | Once a prefix of the messages is refused, the whole list is refused with the same refusal |
| Host.BuildMessages | bin/main/io/modelcontextprotocol/example/host/Main.kt:46-69 | The `add`/`addAll` building gives exactly `ChatMessages` |
| Host.MaxTokens | bin/main/io/modelcontextprotocol/example/host/Main.kt:74 | The limit is `MAX_TOKENS` when it parses as an `Int`, and 1024 otherwise |
| Host.MaxTokensRoundTrip | bin/main/io/modelcontextprotocol/example/host/Main.kt:74 | A token limit written in `.env` reaches OpenAI unchanged |
| Host.HandleSamplingRequest | bin/main/io/modelcontextprotocol/example/host/Main.kt:37-91 | A refusal is returned and nothing is sent. Otherwise OpenAI gets `MODEL_NAME` (or "gpt-4" when unset), the message list and the token limit, and the result is an assistant message with the first choice's content, or "No response from OpenAI" |
| Host.ParseInput | bin/main/io/modelcontextprotocol/example/host/Main.kt:124-128 | A line that trims to `/exit` exits. A line starting with `/ls` lists the trimmed rest, or `.` when the rest is empty. Anything else is sent as typed |
| Host.LsCommandRoundTrip | bin/main/io/modelcontextprotocol/example/host/Main.kt:127-128 | `/ls`, a space and a trimmed path lists exactly that path |
| Host.LsLine | bin/main/io/modelcontextprotocol/example/host/Main.kt:127-128 | A non-exit line starting with `/ls` lists the rest of the line trimmed, or `.` |
| Host.BareLsListsCurrentDirectory | bin/main/io/modelcontextprotocol/example/host/Main.kt:128 | A bare `/ls` lists `.` |
| Host.ActionsOfCommands | bin/main/io/modelcontextprotocol/example/host/Main.kt:123-175 | Each action the loop takes is that of the command at the same position, and no earlier command is `/exit`. Without `/exit`, every command is acted on |
| Host.ExitLine | bin/main/io/modelcontextprotocol/example/host/Main.kt:125 | `/exit` is the exit command |
| Host.ExitEndsLoop | bin/main/io/modelcontextprotocol/example/host/Main.kt:123-125 | Nothing after the first `/exit` is acted on |
| Host.HandleLine | bin/main/io/modelcontextprotocol/example/host/Main.kt:124-174 | One line leads to the `ls` call (every tool call is approved) or the model request its command asks for, or to nothing for `/exit` |
| Host.RunInputLoop | bin/main/io/modelcontextprotocol/example/host/Main.kt:123-175 | The loop over the lines read performs exactly the actions of their commands, up to the first `/exit` |
| Host.ChatLineMessages | bin/main/io/modelcontextprotocol/example/host/Main.kt:152-171 | A typed line reaches OpenAI as a user message, after the host's own system prompt |

## Left out

- The network: the Ktor `sseSession`, `client.post`, the embedded servers and `handlePostMessage`. The event stream is a finite sequence of events, and the POST outcome is a status and body or an exception.
- Coroutines, `Job.cancelAndJoin`, the suspension of `endpoint.await()`, the `Mutex` and the `ConcurrentMap`. Each operation is one atomic step, and the listener handles events one at a time.
- The JSON codec and the MCP SDK types (`Client`, `Server`, `SSEServerTransport`). The codec is an arbitrary pair of functions, and SDK clients are opaque handles. The SDK's own failure to close a client is not modelled.
- The LLM calls: Genkit's `ai.chat` and `chat.send`, and OpenAI's `chatCompletion`. Their answers are parameters. A chat is known by the options it was created with.
- The `McpError` details objects and the `cause` of a `ChatSessionError`, which no route reads.
- The file system of the `ls` tool. Whether the resolved path exists, and its entries, are a parameter.
- SseServer.Resolve: follows `java.io.File` on Unix only. For a relative working directory `absolutePath` would resolve the path once more against `user.dir`; the working directory is `user.dir` itself, which is absolute.
- The clock, `setInterval` and `Math.random` session ids. The current time and the id are parameters.
- The stdio and Ktor-plugin server paths, and the prompt and resource registered by `configureServer`. They only hand over to the SDK.
- The client `main` demo and the console output of every operation.
- SseClient.Dispatch: handlers never throw. In the source, an exception thrown by the `onMessage` handler is caught by the same `try` as a decoding failure (client/Main.kt lines 95-100) and passed to `onError`, after which the listener goes on.
- In the host input loop, the `ls` tool's answer, the printing of results, and the exception handler that ends the loop. `RunInputLoop` assumes every call succeeds.
- Floating-point settings (`temperature`), `.env` loading and `McpConfig`.
- Text.ToIntOrNull: reads ASCII digits only, while Kotlin's `toIntOrNull` also accepts other Unicode decimal digits.
- SseServer.NameLeTotal: orders names by code point, while `String.compareTo` compares UTF-16 code units. The two orders differ only for characters beyond the Basic Multilingual Plane.
- The `else` branch of the role mapping: the SDK's `Role` has only `user` and `assistant`, so that branch cannot run and has no counterpart.

## Findings

| source | as written | input that shows it | evidently intended | confidence | as-written member | corrected member |
|---|---|---|---|---|---|---|
| src/server/chat.ts:73 | The model guard `!MODELS[modelKey]` (also at lines 92 and 196) tests truthiness on a plain object literal, so a name inherited from `Object.prototype` passes it | the model key "toString" with neither API key set: `validateModels()` is false, yet the constructor accepts the key | accept only the own keys of `MODELS`; `Chat.ChatSession.constructor`, `Chat.ChatSession.SwitchModel`, `Chat.CreateChat`, `Chat.NewChatSession`, `ChatServer.ChatApp.StartChat` and `ChatServer.ChatApp.Switch` all use this corrected guard | not executed | Ai.PrototypeNamePassesGuard | Ai.LookupModel |
