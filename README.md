# LINE Desktop MCP — a Dafny model

This project models the core of the LINE Desktop MCP server. The server lets
an MCP client read the history of a LINE desktop chat and send messages to
it. It does this by driving the LINE desktop application through generated
AppleScript on macOS and AutoHotkey v2 scripts on Windows. The model covers
the following:

- **Message segmentation** (`segmentation.dfy`, `text.dfy`). `sendMessage`
  cuts a message into `@mention␠` tokens and plain text, using
  `split(/(@\S+\s)/g)` and an accumulate loop. The loop is a method proved
  against a reference leftmost-scan segmentation. That segmentation is
  proved to concatenate back to the message and to have the documented
  shape.
- **The macOS backend** (`macos.dfy`):
  - `appleEsc`, with a round trip through AppleScript's reading of a string
    literal;
  - the click points computed with AppleScript `div`;
  - the `selectChat` and `pageUp` scripts;
  - how each helper turns a script outcome into its return value;
  - the helper-call plan of `sendMessage`, executed by a method against a
    host object that logs every call.
- **The Windows backend** (`windows.dfy`):
  - `runAhk` with its output decoding and its fixed error message;
  - the `"` → `**` rewrite of pasted text;
  - the line splitting of plain parts, where `\r\n`, `\n` and `\r` are each
    one break;
  - the `selectChat` and `pageUp` scripts;
  - the Windows `sendMessage` plan, with its nested loop over lines.
- **The orchestrator** (`orchestrator.dfy`):
  - the platform switch of `new LineAutomation()`;
  - the call sequences of `getChatHistory` and `sendChatMessage`, with
    their early exits;
  - the chat-log file name and directory.
- **The MCP server** (`mcp_server.dfy`): tool dispatch, argument defaults,
  the 50 000-character history cut, reply shaping and error rewrapping.
- **The HTTP server** (`http_server.dfy`): the three POST routes with their
  400 and 500 answers.

## Abstractions

The operating system is a `Host` object (`actions.dfy`). Running the script
of one helper call appends the call to its `log`. A logged paste records
the text handed to `_sendSingleMessage`; the escaping that helper's script
applies to it (`appleEsc` on macOS, the `"` → `**` rewrite on Windows) is
modelled on its own. The outcome of each run comes from an oracle function
given at construction. The backend as the
orchestrator sees it is a `Backend` object in the same style: it keeps a
`trace` of calls and answers them from oracles indexed by trace position.
Every imperative operation is specified by a function of those inputs. The
properties of the operations are proved about those functions.

## Model

| member | source | states |
|---|---|---|
| Text.TrimSpec | src/automation/macos-line-automation.js:21-24 | `trim` leaves no JavaScript whitespace at either end; it removes only whitespace, and what is left is a contiguous slice of the input |
| Text.TrimIdempotent | src/automation/windows-line-automation.js:77 | trimming a trimmed result changes nothing |
| Text.ReplaceCharLength | src/automation/windows-line-automation.js:333 | a global one-character `replace` grows the text by the replacement's length minus one per occurrence |
| Text.ContainsAt | src/automation/windows-line-automation.js:89 | `includes` holds exactly when the needle occurs at some offset |
| Segmentation.SplitMessage | src/automation/macos-line-automation.js:233-258 | the split-and-accumulate loop yields exactly the reference segmentation `Segments(message)` once its entries are classified |
| Segmentation.GroupOfSplit | src/automation/macos-line-automation.js:237-258 | accumulating the pieces of `split(/(@\S+\s)/g)` equals the leftmost-scan segmentation |
| Segmentation.MatchIsToken | src/automation/macos-line-automation.js:237-241 | every piece the split captures passes the `^@\S+\s$` test |
| Segmentation.SegmentsJoin | src/automation/macos-line-automation.js:233-258 | the parts concatenate back to the message exactly; no character is lost or added |
| Segmentation.SegmentsWellFormed | src/automation/macos-line-automation.js:240-258 | no part is empty, no two plain parts are adjacent, and every mention part is one `@\S+\s` token |
| Segmentation.NoMentionIsOnePart | src/automation/macos-line-automation.js:233-258 | a message has only plain parts exactly when it holds no whitespace-terminated `@` token, and then it is one part (none if empty) |
| Segmentation.ContactBobExample | src/automation/macos-line-automation.js:237 | "contact @bob" is one plain part, because `@bob` has no whitespace after it |
| Segmentation.AliceBobExample | src/automation/macos-line-automation.js:237-258 | "@alice hello @bob" gives the mention "@alice " and the plain part "hello @bob" |
| Segmentation.TrimOfToken | src/automation/macos-line-automation.js:272 | `trim` of a mention token drops exactly its final whitespace character |
| Actions.Finish | src/automation/macos-line-automation.js:291-294 | `sendMessage` reports the last helper's success; its error is null on success and the helper's error otherwise |
| Actions.FrameShape | src/automation/macos-line-automation.js:260-289 | the input-box init comes first, and the plan ends in Enter exactly when `autoSend`; Enter occurs once or not at all, and the pasted texts are the body's |
| Actions.Host.Run | src/automation/macos-line-automation.js:339-362 | running one helper appends it to the log and returns the oracle's outcome for that position, which is then the host's last outcome |
| MacOS.AppleEscRoundTrip | src/automation/macos-line-automation.js:17-19 | AppleScript reads an `appleEsc`-escaped literal back as the original string |
| MacOS.AppleEscIsEscapeEach | src/automation/macos-line-automation.js:17-19 | the two global replaces equal escaping character by character (backslashes are not escaped twice) |
| MacOS.AppleEscLength | src/automation/macos-line-automation.js:17-19 | escaping adds one character per backslash and per quote |
| MacOS.Div | src/automation/macos-line-automation.js:90-91 | AppleScript `div` truncates toward zero, for negative coordinates too |
| MacOS.Center | src/automation/macos-line-automation.js:86-91 | the click point lies inside a non-empty element, at its exact center or half a pixel left of and above it |
| MacOS.ChatRowPoint | src/automation/macos-line-automation.js:109-117 | the result row is clicked 15 px above its center, which is still inside a row at least 30 px high |
| MacOS.ScrollPanePoint | src/automation/macos-line-automation.js:178-188 | the pane is clicked 20 px from its right edge and 15 px from its bottom, inside any pane larger than that |
| MacOS.MentionPopupPoint | src/automation/macos-line-automation.js:420-428 | the mention popup is clicked 10 px above the input box, a quarter of its width across |
| MacOS.SelectChatScriptSpec | src/automation/macos-line-automation.js:73-127 | the clipboard receives the chat name itself; the script clicks the search center, selects all and pastes, and clicks the result row twice before the long delay |
| MacOS.PageUpScriptCount | src/automation/macos-line-automation.js:172-203 | `pageUp(times)` sends exactly `times` up-arrow key codes and no other key code |
| MacOS.Osa | src/automation/macos-line-automation.js:21-24 | `osa` succeeds exactly when the script resolves, and its value is then the script's output trimmed (a missing output reads as ""); a rejection is rethrown unchanged |
| MacOS.HelperResult | src/automation/macos-line-automation.js:329-335 | a helper succeeds exactly when the script returned "true"; otherwise it reports 'Failed to send message', or the error's message (`String(error)` when the message is empty) |
| MacOS.SelectChatFound | src/automation/macos-line-automation.js:128-135 | `selectChat` is true exactly when the script resolved with "true" after trimming |
| MacOS.IsLineRunning | src/automation/macos-line-automation.js:42-54 | running only if the script resolved with "true"; a failed script means not running |
| MacOS.CopyAllResult | src/automation/macos-line-automation.js:160-168 | the copied text is the script's output trimmed, and it is null exactly when the script failed |
| MacOS.ActivateResult | src/automation/macos-line-automation.js:57-70 | activation succeeds exactly when the script does not reject, and it carries the error's message otherwise |
| MacOS.ThrownBy | src/automation/macos-line-automation.js:203-227 | `pageUp` and `switchToEnglish` throw exactly when their script fails |
| MacOS.MentionActions | src/automation/macos-line-automation.js:267-278 | a mention is sent as: paste " ", paste the trimmed mention plus "k", Backspace, click the popup |
| MacOS.PlanShape | src/automation/macos-line-automation.js:260-289 | one init first, Enter last exactly when `autoSend`, one popup click per mention, and `1 + parts + 3·mentions (+1)` helper calls in all |
| MacOS.PlanPastes | src/automation/macos-line-automation.js:264-285 | the pasted texts are, part by part, a plain part whole and, for a mention, " " followed by the mention without its whitespace plus "k" |
| MacOSSend.SendMessage | src/automation/macos-line-automation.js:231-295 | the helpers called are exactly `Plan(Segments(message), autoSend)`, and the result is `Finish` of the oracle's outcome for the last helper logged, so it reflects the last helper only |
| MacOSSend.SendParts | src/automation/macos-line-automation.js:264-285 | the loop over the parts appends each part's helper calls in order, and the result is the oracle's outcome for the last helper logged |
| MacOSSend.SendPart | src/automation/macos-line-automation.js:267-283 | one part's helper calls are those of its classification, and the result is the oracle's outcome for the last helper logged |
| Windows.AhkClip | src/automation/windows-line-automation.js:333 | the clipboard literal that `_sendSingleMessage` builds from its text holds no `"`, and it is one character longer per quote |
| Windows.AhkClipRoundTrip | src/automation/windows-line-automation.js:333 | for text without `*`, reading `**` back as `"` recovers the text |
| Windows.QuoteRewriteLossy | src/automation/windows-line-automation.js:333 | `"` and `**` become the same script literal, so the rewrite cannot be undone |
| Windows.AhkClipNoQuote | src/automation/windows-line-automation.js:333 | text without a quote reaches the script's clipboard literal unchanged |
| Windows.SplitLinesSpec | src/automation/windows-line-automation.js:267 | the lines contain no line-ending character, and joining them with `\n` gives the text with every `\r\n`, `\n` or `\r` as one `\n` |
| Windows.RunAhk | src/automation/windows-line-automation.js:28-84 | success exactly when the process exits normally and decoding its non-empty stderr does not throw; a trimmed text, "" for empty output, success whenever stderr is empty; every failure has the one fixed message |
| Windows.StderrDecodeFails | src/automation/windows-line-automation.js:47-81 | a non-empty stderr whose detected label iconv cannot decode makes `runAhk` throw its fixed message, so the helper fails, whatever stdout holds |
| Windows.DecodeChoice | src/automation/windows-line-automation.js:59-75 | iconv is used only for a detected label other than a UTF-8 spelling, and UTF-8 is the fallback when iconv throws |
| Windows.Utf8UpperCase | src/automation/windows-line-automation.js:64 | labels differing from 'utf-8' or 'utf8' only in case also skip iconv |
| Windows.HelperResultOfRun | src/automation/windows-line-automation.js:329-343 | a helper succeeds exactly when `runAhk` returns, with a null error, and it fails with `runAhk`'s message otherwise |
| Windows.SelectChatFound | src/automation/windows-line-automation.js:144-150 | `selectChat` is true exactly when `runAhk` returns (the process exits and its stderr decodes); nothing checks that the chat was found |
| Windows.CopyAllResult | src/automation/windows-line-automation.js:177-189 | the copied text is `runAhk`'s result as it is, and it is null exactly when the run failed |
| Windows.ClipboardEmptyPassesThrough | src/automation/windows-line-automation.js:172-184 | the "ERROR: Clipboard is empty" sentinel is returned as chat text |
| Windows.PageUpThrown | src/automation/windows-line-automation.js:213 | `pageUp` throws `runAhk`'s message exactly when the run fails |
| Windows.IsLineRunning | src/automation/windows-line-automation.js:86-94 | running exactly when the lower-cased `tasklist` output contains "line.exe"; a throwing `tasklist` means not running |
| Windows.SelectChatScriptSpec | src/automation/windows-line-automation.js:115-142 | the script clicks (x+30, y+110) and then (x+200, y+140), and sends Ctrl+Shift+F, Ctrl+A, Delete, Ctrl+V, Enter in that order |
| Windows.PageUpScriptSpec | src/automation/windows-line-automation.js:192-214 | the script clicks (x+400, y+h−100) once, then sends Tab, End and exactly `times` PgUp |
| Windows.MentionPlan | src/automation/windows-line-automation.js:258-264 | a mention token is sent as: paste " ", paste `part.trim()`, paste "k", Backspace, Shift+Enter |
| Windows.PlainPlan | src/automation/windows-line-automation.js:266-278 | a plain part pastes each non-empty line once, in order, and presses Shift+Enter between lines; Enter never occurs |
| Windows.PlainChunks | src/automation/windows-line-automation.js:266-278 | cutting a plain part's helper calls at each Shift+Enter gives one chunk per line, and chunk i is the paste of line i, or nothing when that line is empty |
| Windows.TwoLinesExample | src/automation/windows-line-automation.js:266-278 | "line1\nline2" is sent as paste "line1", Shift+Enter, paste "line2" |
| Windows.PlanShape | src/automation/windows-line-automation.js:255-285 | init first (also for an empty message), Enter last exactly when `autoSend` and nowhere else |
| WindowsSend.SendMessage | src/automation/windows-line-automation.js:232-290 | the helpers called are exactly `Plan(Segments(message), autoSend)`, and the result is `Finish` of the oracle's outcome for the last helper logged, so it reflects the last helper only |
| WindowsSend.SendParts | src/automation/windows-line-automation.js:257-280 | the loop appends each part's helper calls in order, and the result is the oracle's outcome for the last helper logged |
| WindowsSend.SendPart | src/automation/windows-line-automation.js:258-279 | one part's helper calls are those of its classification, and the result is the oracle's outcome for the last helper logged |
| WindowsSend.SendMention | src/automation/windows-line-automation.js:258-264 | a mention part makes exactly five helper calls (space, the trimmed token, `k`, Backspace, Shift+Enter), and the result is the oracle's outcome for the last helper logged |
| WindowsSend.SendLine | src/automation/windows-line-automation.js:268-277 | one pass pastes line i unless it is empty, then presses Shift+Enter unless it is the last line; the result is the oracle's outcome for the last helper logged |
| WindowsSend.SendLines | src/automation/windows-line-automation.js:267-278 | the line loop pastes non-empty lines and presses Shift+Enter between lines; the result is the oracle's outcome for the last helper logged |
| Orchestrator.SelectBackend | src/automation/line-automation.js:8-18 | 'darwin' gives the macOS backend, 'win32' the Windows one, and any other platform fails with "Unsupported platform: <platform>" |
| Orchestrator.NewLineAutomation | src/automation/line-automation.js:8-18 | construction succeeds exactly for the two platforms, with a fresh backend of the matching kind |
| Orchestrator.EnglishError | src/automation/windows-line-automation.js:216-230 | the Windows `switchToEnglish` never throws |
| Orchestrator.LineAutomation.GetChatHistory | src/automation/line-automation.js:36-78 | the calls are English, activate, select, page up, copy, cut short by a throw or a missing chat; the result is the copied text; a log file is requested only after a copy with `CHAT_LOG_ON` set to 'true' |
| Orchestrator.LineAutomation.SendChatMessage | src/automation/line-automation.js:80-88 | the calls are English, activate, select, send; it stops with `Chat "<name>" not found`, and otherwise returns the send result as it is |
| Orchestrator.NotFoundStops | src/automation/line-automation.js:40-42 | a missing chat ends both operations right after `selectChat` with `Chat "<name>" not found` |
| Orchestrator.HistorySucceeds | src/automation/line-automation.js:36-78 | `getChatHistory` returns exactly when nothing threw and the chat was found, and it returns the copied text unchanged (null included) |
| Orchestrator.SendSucceeds | src/automation/line-automation.js:80-88 | `sendChatMessage` returns exactly when nothing threw and the chat was found, and it returns the backend's result unchanged |
| Orchestrator.ActivationIgnored | src/automation/line-automation.js:39 | the result of `activateLine` never changes either operation |
| Orchestrator.WindowsEnglishNeverThrows | src/automation/windows-line-automation.js:216-230 | on Windows both operations always reach `selectChat` |
| Orchestrator.SanitizeChatName | src/automation/line-automation.js:52 | each of `<`, `>`, `:`, `"`, `/`, `\`, the vertical bar, `?`, `*`, U+0000–U+001F and U+007F becomes `_`, and every other character (CJK included) is kept |
| Orchestrator.SanitizeSafe | src/automation/line-automation.js:52 | no unsafe character is left, and sanitizing is idempotent |
| Orchestrator.FileTimestamp | src/automation/line-automation.js:50 | every `:` and `.` of the ISO time becomes `-`, and nothing else changes |
| Orchestrator.LogFileName | src/automation/line-automation.js:53 | the name is the sanitized chat name, `_`, the file timestamp of the ISO time and `.txt`, each at its own position |
| Orchestrator.LogFileNameSafe | src/automation/line-automation.js:50-53 | for an ISO timestamp the whole file name is free of unsafe characters |
| Orchestrator.LogDir | src/automation/line-automation.js:55-63 | `CHAT_LOG_PATH` when it is set and not empty, else `<cwd>/logs` |
| Orchestrator.LogFor | src/automation/line-automation.js:48-75 | a log file is written only when `CHAT_LOG_ON` is exactly 'true', and it holds the copied history |
| McpServer.ToolFor | src/server.js:283-304 | the five advertised names map to 10, 50 or 5 page-ups or to manual or auto send, and every other name is unknown |
| McpServer.ToolsListed | src/server.js:166-276 | every listed tool has a handler, and no two tools behave alike |
| McpServer.TargetDate | src/server.js:315-316 | a missing or empty date becomes the ISO date before the first 'T' |
| McpServer.TargetDateOfIso | src/server.js:316 | for an ISO timestamp the default date is its first ten characters |
| McpServer.MessageLimit | src/server.js:315 | only a missing `messageLimit` defaults to 100 |
| McpServer.HistoryText | src/server.js:322 | null becomes "", and the reply keeps at most the last 50 000 characters as a suffix, or all of a shorter history |
| McpServer.HistoryTextIdempotent | src/server.js:322 | cutting an already cut history changes nothing |
| McpServer.HistoryTextKeepsEnd | src/server.js:322 | only the last 50 000 characters of a long history matter |
| McpServer.ErrorOrNull | src/server.js:408 | an absent or empty error is reported as null |
| McpServer.HistoryResponse | src/server.js:314-338 | the history reply carries the chat name, the target date, the limit, the cut history and the locale time; a thrown error passes through |
| McpServer.SendResponse | src/server.js:394-413 | the send reply carries the backend's `success` unchanged and its error or null; a thrown error passes through |
| McpServer.Rewrap | src/server.js:305-310 | every failure becomes an internal error (-32603) whose message is "Error executing tool <name>: " followed by the original message |
| McpServer.UnknownToolRejected | src/server.js:299-310 | an unknown tool makes no backend call and fails with the wrapped method-not-found message |
| McpServer.NotFoundReported | src/server.js:279-310 | a missing chat fails every tool with the same wrapped message after exactly three backend calls |
| McpServer.SendFailureIsAReply | src/server.js:394-434 | once the backend's `sendMessage` is reached, a send tool always answers with a reply, and its `success` is the backend's |
| McpServer.LineDesktopMcpServer.HandleHistory | src/server.js:314-392 | the history handlers make the `getChatHistory` calls with their scroll count and answer with `HistoryResponse` |
| McpServer.LineDesktopMcpServer.HandleSend | src/server.js:394-434 | the send handlers make the `sendChatMessage` calls and answer with `SendResponse` |
| McpServer.LineDesktopMcpServer.CallTool | src/server.js:279-311 | the backend calls and the answer are those `CallCalls` and `CallOutcome` give; a history tool appends the log `getChatHistory` writes for its outcome, and every other name leaves the logs unchanged |
| HttpServer.HistoryRoute | src/http-server.js:14-36 | 400 'chatName is required' for a falsy chat name, 200 with the history whole, 500 with the error message on a throw |
| HttpServer.SendRoute | src/http-server.js:39-61 | 400 'chatName and message are required' unless both are truthy, 200 on any answer, 500 on a throw |
| HttpServer.SendIgnoresResult | src/http-server.js:46-53 | the route answers 200 with `success: true` even when the backend reports failure |
| HttpServer.StatusCodes | src/http-server.js:14-86 | 400 exactly on a bad body, 500 exactly when something below throws |
| HttpServer.HttpApp.GetChatHistory | src/http-server.js:14-36 | a body without a chat name makes no backend call; otherwise the calls are those of `getChatHistory` with 10 page-ups |
| HttpServer.HttpApp.SendMessage | src/http-server.js:39-86 | a bad body makes no backend call; otherwise the calls are those of `sendChatMessage` with the route's `autoSend` |

## Left out

- Script execution. Writing temporary `.ahk` files, spawning
  `osascript`/`autohotkey`, the sleeps, the real clipboard and the screen
  are not modelled. A script run is an oracle outcome, and its steps are
  a list of primitives.
- Encoding detection. chardet, iconv-lite and UTF-8 decoding are
  uninterpreted functions. Their internals are outside the model. The
  decoded stderr text is only logged, so only whether decoding it throws
  is kept.
- AutoHotkey geometry. The Windows scripts' own arithmetic is done by
  AutoHotkey at run time. The model states the click points as integer
  expressions of the window rectangle.
- `hasAccessibilityPermission`, `firstRunSetup`, the install and build
  scripts, `getChatList`, and `LineAutomation`'s one-line pass-through
  methods (`switchToEnglish`, `selectChat`, `copyAllChatToClipboard`,
  `pageUp`, `isLineRunning`, `activateLine`) are not part of this model.
  Each pass-through only forwards to the backend, whose behaviour is
  modelled.
- The UI effect of `switchToEnglish` is not modelled. Only whether it
  throws is kept.
- The MCP SDK and Express. JSON-RPC transport, JSON parsing and
  serialization, `tools/list` schemas beyond the tool names, and the
  clock's values are left out. Replies are records, and clock readings are
  parameters.
- Requests whose required arguments are missing or not strings are not
  modelled. The MCP server's `chatName` and `message` are always strings.
- Concurrency. Overlapping requests on the one `LineAutomation` are not
  modelled, and calls run one at a time.
- McpServer.UnknownToolMessage: the SDK's `McpError` message format
  `MCP error <code>: <text>` is written out as a constant. The SDK is not
  part of this model.
- McpServer.HistoryText: lengths count Unicode scalar values. `slice`
  counts UTF-16 code units, so a history with characters outside the
  Basic Multilingual Plane is cut at a different point.
- Text.LowerAscii: `toLowerCase` is modelled as ASCII lower-casing. That is
  exact for every comparison the source makes ('utf-8', 'utf8',
  'line.exe').
- Windows.SelectChatScript: the chat name is embedded in the script
  literal without escaping. A name containing `"` yields a script
  AutoHotkey rejects, and only the resulting failed run is modelled.
- Windows.AhkClip: AutoHotkey v2 reads backtick escape sequences inside a
  quoted string literal (the message at
  src/automation/windows-line-automation.js:333, the chat name at :118).
  The model stops at the literal, so a message containing `` `n `` or `` `t ``
  is not followed to the clipboard, where it arrives as a line break or a
  tab, and a trailing backtick that breaks the script is not modelled.
- Orchestrator.LineAutomation.GetChatHistory: the log file is recorded as
  a request. Creating the directory and the write itself are not modelled,
  and a failure of either is caught and has no effect on the result.
