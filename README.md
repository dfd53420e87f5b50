# RemNote MCP server: a verified model of its core

The RemNote MCP server is a bridge. An MCP client (an AI assistant) talks to
it over Streamable HTTP; the RemNote browser plugin talks to it over a single
WebSocket. This project models the core of that bridge in Dafny and proves
properties of the model:

- the WebSocket side (`websocket_server.dfy`, frames in `bridge.dfy`). A class
  with a single client slot, a table of pending requests keyed by request id,
  and connect/disconnect callbacks. Every socket event, timer expiry and close
  is one atomic step, as on Node's single event loop. A ghost bookkeeping of
  issued and settled ids proves that no request is ever settled twice, and
  that a close leaves the table empty;
- the HTTP front end (`http_server.dfy`). The pure routing decision for POST,
  GET and DELETE on `/mcp`; the error bodies the server writes itself; and a
  class holding the session registry, updated when a session is initialized,
  when a transport closes, and by `stop`;
- the tool layer (`tools.dfy`). Tool name to bridge action, argument
  validation before any request, the status short-cut while the plugin is
  away, error wrapping, and the tool list;
- the argument schemas (`schemas.dfy`), as validate-and-default functions;
- version compatibility (`version_compat.dfy`), configuration precedence
  (`config.ts`, in `config.dfy`), the command-line value checks (`cli.dfy`)
  and the logger set-up (`logger.dfy`);
- the JavaScript primitives the code leans on (`js_text.dfy`: `parseInt`,
  `String(n)`, `toLowerCase`, `split('.')`, truthiness of optional strings),
  parsed JSON values (`json.dfy`), and Option/Result (`wrappers.dfy`).

Random ids (`randomUUID`), the remote peer's behaviour, a `send` that throws,
a connect callback that throws, transport outcomes and failures, the environment and `process.stdout.isTTY` are all
parameters of the operations that use them. An id drawn at random is required
to be unused.

Behaviours of the code that are easy to miss:
- a POST without a session id that is not an initialize request gets a
  -32600 error *without* the `session_invalidated` data. Only an unknown
  session id gets that data;
- the code has no `hello` frame, so a `{type: "hello"}` frame carries no
  `id` and is dropped;
- the HTTP `stop` leaves a session whose `close` throws in the registry
  instead of clearing the registry;
- the WebSocket `stop` closes the client but leaves pending calls in the
  table until that socket's close event sweeps them.

## Model

| member | source | states |
|---|---|---|
| Bridge.Classify | src/websocket-server.ts:133-163 | a frame is a pong if its type is "pong", else a ping if "ping", else a response exactly when it carries an `id`, and then it carries that frame's own id, result and error; everything else, a malformed frame included, is dropped |
| WebSocketBridge.FailureMessage | src/websocket-server.ts:99-113 | a timeout rejects with "Request timeout: " followed by the action; a remote error rejects with the plugin's own error text |
| WebSocketBridge.Answer | src/websocket-server.ts:155-159 | a response rejects exactly when its `error` is truthy, with that text; otherwise it resolves with `result` |
| WebSocketBridge.SettleOne | src/websocket-server.ts:56-61 | adding one settlement for an unsettled id keeps every id settled at most once |
| WebSocketBridge.SettledOnceCount | src/websocket-server.ts:56-61 | a sweep without repeats holds exactly one settlement per id |
| WebSocketBridge.RejectAll | src/websocket-server.ts:57-60 | the close sweep rejects every pending id exactly once, each with "Connection lost" |
| WebSocketBridge.Peer.constructor | src/websocket-server.ts:32 | a socket reaches the connection handler OPEN, with nothing sent and no close started |
| WebSocketBridge.Peer.Send | src/websocket-server.ts:108 | a send appends exactly that frame and changes nothing else |
| WebSocketBridge.Peer.Close | src/websocket-server.ts:36 | closing an OPEN socket starts its closing handshake with the given code and reason; closing any other socket does nothing |
| WebSocketBridge.Peer.RemoteClosing | src/websocket-server.ts:34 | the remote side's close moves an OPEN socket to CLOSING, which the connection check then no longer counts as connected |
| WebSocketBridge.WebSocketServer.constructor | src/websocket-server.ts:17-19 | a new bridge has no client, no pending request and no callbacks |
| WebSocketBridge.WebSocketServer.Start | src/websocket-server.ts:21-31 | start only begins listening; slot, table and callbacks are unchanged |
| WebSocketBridge.WebSocketServer.IsConnected | src/websocket-server.ts:117-119 | connected means a client holds the slot and it is OPEN |
| WebSocketBridge.WebSocketServer.OnClientConnect | src/websocket-server.ts:121-123 | the callback is appended to the connect list and nothing else changes |
| WebSocketBridge.WebSocketServer.OnClientDisconnect | src/websocket-server.ts:125-127 | the callback is appended to the disconnect list and nothing else changes |
| WebSocketBridge.Notified | src/websocket-server.ts:42 | when a callback throws, exactly the callbacks up to and including it run, in order; otherwise all of them |
| WebSocketBridge.WebSocketServer.OnConnection | src/websocket-server.ts:32-43 | while the client is OPEN a newcomer is closed with 1008 "Only one client allowed" and the client is unchanged; otherwise the newcomer takes the slot and the connect callbacks run in order; when one throws, the later ones do not run and the newcomer keeps the slot without message or close handlers |
| WebSocketBridge.WebSocketServer.SendRequest | src/websocket-server.ts:91-115 | without an OPEN client the call fails with "not connected" and the table is unchanged; otherwise exactly one entry is added under the fresh id and `{id, action, payload}` is sent; a throwing send removes the entry again and rejects with the thrown error |
| WebSocketBridge.WebSocketServer.HandleMessage | src/websocket-server.ts:129-167 | pong, malformed and unknown-id frames change nothing; a ping sends one pong, only to an OPEN client; a response for a pending id removes that entry and settles the call by `Answer`; each id is settled at most once |
| WebSocketBridge.WebSocketServer.FireTimeout | src/websocket-server.ts:100-103 | a pending id is removed and rejected with "Request timeout: <action>"; a stale timer does nothing |
| WebSocketBridge.WebSocketServer.CloseHandler | src/websocket-server.ts:52-64 | the slot is emptied, every pending call is rejected once with "Connection lost", the table is empty, then the disconnect callbacks run in order, stopping after one that throws |
| WebSocketBridge.WebSocketServer.OnClose | src/websocket-server.ts:52-64 | a close event on an accepted socket runs the close handler, with the same stop at a throwing disconnect callback; on a refused or stranded socket it changes nothing but the socket's state |
| WebSocketBridge.WebSocketServer.Stop | src/websocket-server.ts:73-89 | the client, if any, is closed without code or reason, the slot is emptied and listening stops; a second stop changes nothing more |
| WebSocketBridge.StaleCloseEvictsNewPeer | src/websocket-server.ts:34-54 | a peer in its closing handshake lets a second peer in, and its late close then empties the slot and rejects the second peer's request while that peer is still OPEN |
| WebSocketBridge.ReconnectAfterDisconnect | src/websocket-server.ts:32-64 | a second peer is refused with 1008 while the first is OPEN, and a new peer is accepted after the first disconnects |
| WebSocketBridge.ThrowingDisconnectCallback | src/websocket-server.ts:52-64 | a throwing disconnect callback stops the later ones, but the slot is already empty and the pending call already rejected |
| WebSocketBridge.StrandedClient | src/websocket-server.ts:32-54 | after a connect callback throws, the client's answer is dropped and its close neither empties the slot nor rejects the pending call |
| WebSocketBridge.DuplicateResponseSettlesOnce | src/websocket-server.ts:147-162 | a response settles its call once; the same response again settles nothing |
| HttpFront.RequestId | src/http-server.ts:79 | the error id is the body's own `id` when present, else null |
| HttpFront.RouteRequest | src/http-server.ts:47-142 | POST without session id and with an initialize body starts a session; a session id goes to its transport when registered, else to the invalid-session error (POST) or 404 (GET/DELETE); no id is the missing-id error |
| HttpFront.InitializeWithKnownSession | src/http-server.ts:65-70 | an initialize carrying a registered session id goes to that session, not to a new one |
| HttpFront.GetDeleteAlike | src/http-server.ts:102-141 | GET and DELETE are routed identically |
| HttpFront.DelegationNeedsRegistration | src/http-server.ts:112-119 | a request reaches a transport exactly when it carries a registered session id |
| HttpFront.ErrorReply | src/http-server.ts:71-137 | missing or unknown POST session: 400 with -32600 and the request's id, structured `data` only for the unknown session (lines 198-211); GET/DELETE: 400 without id, 404 for an unknown id |
| HttpFront.InvalidSessionAsksReinitialize | src/http-server.ts:198-211 | the unknown-session error says `session_invalidated`, requires reinitialize, is retryable, names the server instance, and its message starts with the session id |
| HttpFront.MissingSessionIdReply | src/http-server.ts:71-80 | a non-initialize POST without session id gets 400, -32600, "Missing mcp-session-id header for non-initialize request" and its own id |
| HttpFront.HttpMcpServer.constructor | src/http-server.ts:25-45 | a new server has an empty registry and keeps its instance id for its lifetime |
| HttpFront.HttpMcpServer.ActiveSessionCount | src/http-server.ts:265-267 | the count is the registry size |
| HttpFront.HttpMcpServer.OnSessionInitialized | src/http-server.ts:148-151 | a session is registered under the fresh id its transport generated; the count grows by one |
| HttpFront.HttpMcpServer.OnTransportClose | src/http-server.ts:155-161 | a close removes its own entry only when present, so it is idempotent; other sessions are untouched |
| HttpFront.HttpMcpServer.HandlePost | src/http-server.ts:49-99 | a POST starts a session (registered only under the id the transport reports), goes to exactly the registered session's transport, or gets its error reply with the registry unchanged; a throwing transport gives 500 with -32603, the message and id null |
| HttpFront.HttpMcpServer.HandleGetOrDelete | src/http-server.ts:102-141 | GET/DELETE: 400 "Missing mcp-session-id header", 404 "Session not found: <id>", or the session's transport; a failure of that transport is not caught, so the server writes no answer |
| HttpFront.HttpMcpServer.Stop | src/http-server.ts:239-249 | every session is closed; exactly those whose close throws stay registered |
| HttpFront.TwoSessions | src/http-server.ts:144-151 | two initializations get two transports under distinct ids, and the count is two |
| HttpFront.FailingTransport | src/http-server.ts:64-141 | the same failing transport gives a 500 JSON-RPC error on POST and no answer on GET or DELETE |
| Tools.ToolOf | src/tools/index.ts:94-167 | a recognised name is that tool's own name |
| Tools.ToolNamesSelect | src/tools/index.ts:94-135 | every tool name selects its own tool |
| Tools.ActionsDistinct | src/tools/index.ts:95-151 | no two tools send the same action |
| Tools.SchemaOf | src/tools/index.ts:96-128 | each note tool's schema has distinct keys |
| Tools.ErrorText | src/tools/index.ts:174 | an error text is "Error: " followed by exactly the message |
| Tools.ErrorTextOf | src/tools/index.ts:168-178 | an error result with a known message has a text item, "Error: " followed by that message, and no other result has one |
| Tools.Dispatch | src/tools/index.ts:92-167 | an unknown name is "Unknown tool: <name>"; a note tool sends its action with the validated arguments exactly when they pass its schema, and otherwise reports the validation error; status sends `status` with `{}` only when connected and otherwise answers `{connected: false, …}` |
| Tools.IndexKeys | src/tools/index.ts:157 | spreading an array gives one decimal key per index, holding that element |
| Tools.StatusFields | src/tools/index.ts:157 | the status answer always has `connected` |
| Tools.StatusMergesObject | src/tools/index.ts:151-163 | an object result keeps all its fields, and `connected: true` is added only when the result lacks that key |
| Tools.StatusIgnoresNonObject | src/tools/index.ts:157 | a missing, null or scalar result gives just `connected: true` |
| Tools.Complete | src/tools/index.ts:97-178 | a rejected request is an error result with the bridge's message; a note tool returns the result as is; status returns an object |
| Tools.CallTool | src/tools/index.ts:92-180 | the result is an error exactly when the name is unknown, the arguments fail their schema, or the request sent is rejected |
| Tools.UnknownToolText | src/tools/index.ts:165-174 | an unknown tool name is shown as "Error: Unknown tool: <name>" |
| Tools.RejectionText | src/tools/index.ts:94-174 | a rejected bridge request is shown as "Error: " followed by the rejection's message |
| Tools.NoteToolWithoutPlugin | src/tools/index.ts:92-178 | a valid note call whose request is refused for want of a plugin is an error with the bridge's "not connected" message |
| Tools.HandleCallTool | src/tools/index.ts:92-180 | the handler run against the bridge: without an OPEN client the result is `CallTool` with the not-connected rejection and the table is unchanged, so a valid note call is the "not connected" error, shown as "Error: " and the bridge's message; with one, a valid request enters the table and goes out on the socket, the result follows the plugin's answer, and a send that throws gives an error with its text; the later answer ranges over what the bridge can settle a sent request with (a response, a timeout, a lost connection) |
| Tools.ListTools | src/tools/index.ts:183-192 | the list is the six definitions, in a fixed order |
| Tools.Position | src/tools/index.ts:183-192 | every tool has a position in the list |
| Tools.ListedOnce | src/tools/index.ts:183-192 | each tool is listed exactly once |
| Tools.RequiredKeys | src/tools/index.ts:10-79 | the required keys are exactly the keys whose rule demands a string |
| Tools.NoneRequired | src/tools/index.ts:81-88 | a schema with no demanded key advertises none |
| Tools.OnlyFirstRequired | src/tools/index.ts:10-79 | a schema demanding only its first key advertises just that key |
| Tools.DefinitionsMatchSchemas | src/tools/index.ts:10-79 | each advertised input schema lists the same keys, in order, with the type the validation schema admits and string items for the list-valued keys, and `required` is present and exactly the demanded keys (the status tool has no `required` key) |
| Tools.ToolNamesDistinct | src/tools/index.ts:10-88 | different tools have different names |
| Tools.ListedNamesDistinct | src/tools/index.ts:183-192 | the listed names are pairwise distinct |
| Schemas.Check | src/schemas/remnote-schemas.ts:3-32 | a kept value is the supplied one; an absent key gets a value exactly when the rule has a default |
| Schemas.Output | src/schemas/remnote-schemas.ts:3-32 | the output holds exactly the schema keys that are kept, each with its kept value |
| Schemas.BadKeys | src/schemas/remnote-schemas.ts:3-32 | the list of bad keys is empty exactly when every field passes |
| Schemas.Parse | src/schemas/remnote-schemas.ts:3-32 | parsing succeeds exactly on an object whose every field passes; a missing or non-object input fails |
| Schemas.SchemasHaveDistinctKeys | src/schemas/remnote-schemas.ts:3-32 | no schema names a key twice |
| Schemas.SuppliedValuesKept | src/schemas/remnote-schemas.ts:12-31 | a supplied valid value is never replaced by a default |
| Schemas.UnknownKeysStripped | src/schemas/remnote-schemas.ts:3 | keys outside the schema never reach the output |
| Schemas.CreateNoteRules | src/schemas/remnote-schemas.ts:3-8 | CreateNote accepts exactly a string title with optional string content, parentId and string-array tags |
| Schemas.SearchRules | src/schemas/remnote-schemas.ts:10-14 | a parsed search has an integer limit in 1..100, 20 by default, and includeContent, false by default |
| Schemas.SearchLimitRange | src/schemas/remnote-schemas.ts:12 | a limit outside 1..100 or not an integer is refused |
| Schemas.ReadNoteRules | src/schemas/remnote-schemas.ts:16-19 | a parsed read has an integer depth in 0..10, 3 by default |
| Schemas.ReadNoteDepthRange | src/schemas/remnote-schemas.ts:18 | a depth outside 0..10 or not an integer is refused |
| Schemas.ParseIdentity | src/schemas/remnote-schemas.ts:21-27 | a schema without defaults returns a valid input without foreign keys unchanged |
| Schemas.UpdateNoteUnchanged | src/schemas/remnote-schemas.ts:21-27 | a valid UpdateNote input comes back unchanged |
| Schemas.UpdateNoteOnlyRemId | src/schemas/remnote-schemas.ts:21-27 | UpdateNote needs nothing but a string remId |
| Schemas.AppendJournalRules | src/schemas/remnote-schemas.ts:29-32 | timestamp must be a boolean, defaults to true, and a supplied one is kept |
| VersionCompat.ParsedMatches | src/version-compat.ts:25-33 | a parsed version comes from a match of `^\d+\.\d+\.\d+` |
| VersionCompat.MatchParses | src/version-compat.ts:25-33 | every match of `^\d+\.\d+\.\d+` parses |
| VersionCompat.ParseVersionSucceedsIff | src/version-compat.ts:25-33 | parsing succeeds exactly when the string starts with digits.digits.digits |
| VersionCompat.ParseShowVersion | src/version-compat.ts:25-33 | a version's spelling parses back to it, whatever non-digit suffix follows |
| VersionCompat.CannotParseMentionsBoth | src/version-compat.ts:15 | the parse-failure message names both inputs |
| VersionCompat.MismatchMentionsBoth | src/version-compat.ts:19 | the mismatch message names both inputs |
| VersionCompat.CheckVersionCompatibility | src/version-compat.ts:7-23 | null exactly when both parse with equal major and minor; an unparseable side gives the "Cannot parse versions" message; two parsed versions that differ in major or minor give the mismatch message; any message names both inputs |
| VersionCompat.CompatibilitySymmetric | src/version-compat.ts:14-22 | compatibility is symmetric |
| VersionCompat.CompatibleWithItself | src/version-compat.ts:18-22 | every parseable version is compatible with itself |
| VersionCompat.PatchIrrelevant | src/version-compat.ts:18-22 | equal major and minor are compatible whatever the patch and whatever non-digit suffix follows |
| VersionCompat.MinorMismatch | src/version-compat.ts:18-20 | a different major or minor gives the mismatch message, whatever non-digit suffixes follow the two versions |
| Config.DefaultPortsParse | src/config.ts:39-40 | the default port strings read as 3002 and 3001 |
| Config.RangeMessage | src/config.ts:28-36 | the range message starts with the prefix naming the server ("Invalid WebSocket port" or "Invalid HTTP port") |
| Config.SamePortMessage | src/config.ts:49 | the message starts "WebSocket port and HTTP port cannot be the same" |
| Config.GetConfig | src/config.ts:20-70 | succeeds exactly when both command-line ports are in range and the final ports differ, with the first failing check's message; the WebSocket host is always 127.0.0.1; paths pass through; pretty logs exactly on a terminal |
| Config.LogLevelPrecedence | src/config.ts:22-25 | verbose forces debug, else the command-line level, else info |
| Config.PortPrecedence | src/config.ts:39-40 | each port comes from the command line, else a non-empty environment variable, else 3002/3001 |
| Config.HttpHostPrecedence | src/config.ts:45 | the HTTP host comes from the command line, else the environment, else 127.0.0.1 |
| Config.LogLevelFilePrecedence | src/config.ts:53 | the file level is the explicit one, else the console level when a log file is set, else absent |
| Config.Defaults | src/config.ts:20-70 | with nothing given: ports 3002/3001, both hosts 127.0.0.1, level info |
| Cli.ParsePort | src/cli.ts:73-79 | an accepted port is in 1..65535; a refused one gets "Invalid port number: <value>. Must be between 1 and 65535." |
| Cli.ParsePortAcceptsIff | src/cli.ts:73-79 | a port is accepted exactly when its leading integer is in 1..65535, and then it is that integer |
| Cli.ParsePortOfSpelling | src/cli.ts:73-79 | every port in range, in decimal and followed by non-digits, is accepted as itself |
| Cli.ParsePortRefusesOutOfRange | src/cli.ts:75-77 | a number outside 1..65535 is refused however it is spelled |
| Cli.ValidateLogLevel | src/cli.ts:84-89 | accepted exactly when its lower-case form is a level, and then that lower-case form is returned; otherwise the error names the value and the four levels |
| Cli.ToLowerIdempotent | src/cli.ts:85 | lower-casing twice is lower-casing once |
| Cli.ToLowerCaseInsensitive | src/cli.ts:85 | spellings that differ only in case lower-case alike |
| Cli.ValidateLogLevelIdempotent | src/cli.ts:84-89 | an accepted level validates again to itself |
| Cli.ValidateLogLevelIgnoresCase | src/cli.ts:84-89 | validation is case-insensitive |
| Cli.ValidateHost | src/cli.ts:94-115 | accepted exactly for the three named hosts or four 1-3 digit groups each at most 255, and returned unchanged; otherwise "Invalid host: <value>" followed by the octet advice when the value has the address pattern, else the list of accepted forms |
| Cli.SplitDottedQuad | src/cli.ts:109 | a dotted quad splits into its four numbers |
| Cli.ValidateHostAcceptsOctets | src/cli.ts:100-114 | every address with octets in 0..255 is accepted unchanged |
| Cli.ValidateHostRefusesLargeOctet | src/cli.ts:108-112 | an octet above 255 is refused with the octet message |
| Cli.NamedHostsHaveSmallOctets | src/cli.ts:96-98 | the named hosts that look like addresses pass the octet check too |
| JsText.ParseIntOfIntToString | src/cli.ts:74 | `parseInt` reads back any integer's spelling, whatever non-digits follow |
| JsText.ParseIntNaN | src/cli.ts:74-75 | `parseInt` is NaN exactly when no digit follows the white space and sign |
| JsText.Or | src/config.ts:45 | JavaScript's `or` of an optional string and a fallback: the string when truthy, else the fallback |
| Json.FieldOf | src/http-server.ts:55 | `body?.key` is present exactly on an object with that key |
| Logger.OwnRank | src/logger.ts:123-128 | the table has an own entry exactly for the four level names |
| Logger.Rank | src/logger.ts:130-131 | every name ranks 20, 30, 40 or 50, and an unknown name ranks as info (30) |
| Logger.NameOfRankFinds | src/logger.ts:136-140 | the search finds the name of every rank in the table |
| Logger.GetMinLevel | src/logger.ts:122-143 | the level is one of the four names and has the smaller of the console and file ranks, or the console rank without a file level |
| Logger.RankNamesLevel | src/logger.ts:123-128 | each rank names one level |
| Logger.NoFileLevel | src/logger.ts:131-133 | without a file level the result is the console level, or info for an unknown name |
| Logger.MinOfKnownLevels | src/logger.ts:133 | the result is the more verbose of two known levels, in either argument order |
| Logger.AsWrittenAgrees | src/logger.ts:130-142 | away from inherited object keys, the code as written and the corrected definition agree |
| Logger.InheritedKeyMasksDebug | src/logger.ts:130-142 | as written, ("debug", "toString") gives info; corrected, debug |
| Logger.NameOfRankIsLevel | src/logger.ts:138-142 | the search for a rank's name always answers one of the four level names |
| Logger.AsWrittenIsLevelName | src/logger.ts:130-142 | even as written, the minimum level is one of the four names |
| Logger.CreateLogger | src/logger.ts:17-90 | console target first, pretty exactly when asked and the transport works, else stderr; a file target exactly when path and file level are both set; a warning only when pretty output fell back; the level is the as-written minimum, always one of the four names, and equal to the corrected `GetMinLevel` away from inherited object keys |

## Left out

- JSON parsing and `JSON.stringify`: frames and bodies are already-parsed values (`Malformed` stands for a frame that does not parse), and a tool result is the value that would be stringified. Object key order is not modelled.
- The `ws`, `express` and MCP SDK internals: `handleRequest`, server-sent event streams, `server.connect`, and what a transport does on DELETE. A transport is an opaque handle, and its outcomes (reported session id, thrown error, failing close) are inputs.
- Starting and stopping the listeners: bind errors, the `listen`/`close` callbacks, and closing the HTTP listener in `stop`. `WebSocketServer.Start` only sets a flag.
- Real time: the 5000 ms timeout is the constant `RequestTimeoutMs`; its expiry is the `FireTimeout` event, so no wall-clock bound is stated.
- `randomUUID`: ids are parameters, required to be unused.
- Logging and `console.error` output, except the one warning `createLogger` prints, which is a flag.
- WebSocketBridge.WebSocketServer.CloseHandler: the sweep rejects pending calls in the order of an arbitrary choice from a set, not in the table's insertion order.
- WebSocketBridge.Answer: a non-string `error` field in a response frame is not modelled; the field is an optional string.
- Tools.Complete: a thrown value that is not an `Error` (text from `String(value)`) is not modelled; the bridge rejects only with `Error`s.
- Tools.Dispatch: the text of a schema validation error is not modelled; the error records the offending keys instead.
- HttpFront.HttpMcpServer.HandleGetOrDelete: what Express and Node do with the failure a GET or DELETE handler lets escape is not modelled; the reply records only that the server wrote nothing.
- WebSocketBridge.WebSocketServer.OnConnection: where the exception of a throwing connect callback goes after it leaves the `connection` handler is not modelled; only the state it leaves behind is.
- HttpFront.HttpMcpServer.HandlePost: an error thrown after a transport was registered is answered with 500, but whether a response was already sent is not modelled.
- `toLowerCase` is modelled on ASCII letters; the only other characters that lower-case into ASCII letters cannot spell a log level.
- `parseInt` is exact: the loss of precision on numbers beyond 2^53 is not modelled.
- `parseCliArgs` (the option wiring and its `process.exit` on equal ports), `createRequestResponseLogger` and `ensureLogDirectory` are file and process plumbing; pino itself is not part of this model.
- `src/index.ts` (process wiring and signals) is not part of this model.

## Findings

| source | as written | input that shows it | evidently intended | confidence | as-written member | corrected member |
|---|---|---|---|---|---|---|
| src/logger.ts:130-142 | the lookup `levels[name]` with its fallback to 30 also finds the keys every object inherits (`toString`, `constructor`, …); such a value is truthy and not a number, so `Math.min` gives NaN, no entry matches, and the result is `info` | `getMinLevel("debug", "toString")` gives "info" | an unknown name ranks as info (30), so the result is "debug"; the command line's level check keeps such names away, but `createLogger` accepts any string | not executed | Logger.InheritedKeyMasksDebug | Logger.GetMinLevel |
