/**
 * The MCP server over stdio (`LineDesktopMCPServer`): the five tools it
 * lists, the dispatch of a tool call to its handler, the arguments'
 * defaults, the shaping of each reply and the rewrapping of every error.
 *
 * A reply is kept as the record `JSON.stringify` would print; the
 * transport, the JSON text and the clock are outside the model (the clock's
 * readings are parameters).
 */
module McpServer {
  import opened Wrappers
  import opened Actions
  import opened Orchestrator

  /** What a tool does: read the history after `scrolls` page-ups, or send
      a message with or without pressing Enter. */
  datatype Tool = History(scrolls: nat) | SendTool(autoSend: bool)

  /** The tool names the `tools/list` handler advertises, in order. */
  const ToolNames: seq<string> := [
    "get_line_chatroom_history_default",
    "get_line_chatroom_history_long",
    "get_line_chatroom_history_short",
    "send_message_manual",
    "send_message_auto"
  ]

  /** The `switch (name)` of the `tools/call` handler. */
  function ToolFor(name: string): (t: Option<Tool>)
    ensures t.Some? <==> name in ToolNames
    ensures name == "get_line_chatroom_history_default" ==> t == Some(History(10))
    ensures name == "get_line_chatroom_history_long" ==> t == Some(History(50))
    ensures name == "get_line_chatroom_history_short" ==> t == Some(History(5))
    ensures name == "send_message_manual" ==> t == Some(SendTool(false))
    ensures name == "send_message_auto" ==> t == Some(SendTool(true))
  {
    if name == "get_line_chatroom_history_default" then Some(History(10))
    else if name == "get_line_chatroom_history_long" then Some(History(50))
    else if name == "get_line_chatroom_history_short" then Some(History(5))
    else if name == "send_message_manual" then Some(SendTool(false))
    else if name == "send_message_auto" then Some(SendTool(true))
    else None
  }

  /** Every advertised tool has a handler, and the five are distinct: the
      three history tools differ only in how far they scroll, and the two
      send tools only in whether Enter is pressed. */
  lemma ToolsListed()
    ensures forall n :: n in ToolNames ==> ToolFor(n).Some?
    ensures forall i, j :: 0 <= i < j < |ToolNames| ==> ToolFor(ToolNames[i]) != ToolFor(ToolNames[j])
  {
  }

  /** The tool arguments the handlers read (`undefined` is `None`). */
  datatype Args = Args(chatName: string, date: Option<string>, messageLimit: Option<int>, message: string)

  /** Two readings of the clock: `new Date().toISOString()` and
      `new Date().toLocaleString()`. */
  datatype Clock = Clock(iso: string, locale: string)

  /** `s.split(c)[0]`: the text before the first `c`, or all of `s`. */
  function BeforeFirst(s: string, c: char): (r: string)
    ensures c !in r
    ensures |r| <= |s| && r == s[..|r|]
    ensures |r| < |s| ==> s[|r|] == c
  {
    if s == [] || s[0] == c then [] else [s[0]] + BeforeFirst(s[1..], c)
  }

  /** `date || new Date().toISOString().split('T')[0]`: a missing or empty
      date becomes today's date in UTC. */
  function TargetDate(date: Option<string>, nowIso: string): (d: string)
    ensures date.Some? && date.value != "" ==> d == date.value
    ensures date.None? || date.value == "" ==> d == BeforeFirst(nowIso, 'T')
  {
    if date.Some? && date.value != "" then date.value else BeforeFirst(nowIso, 'T')
  }

  /** For an ISO timestamp `YYYY-MM-DDTHH:mm:ss.sssZ` the default date is
      its first ten characters. */
  lemma TargetDateOfIso(nowIso: string)
    requires |nowIso| > 10 && nowIso[10] == 'T'
    requires forall k :: 0 <= k < 10 ==> nowIso[k] != 'T'
    ensures TargetDate(None, nowIso) == nowIso[..10]
  {
  }

  /** `messageLimit = 100` in the destructuring: only a missing limit gets
      the default. */
  function MessageLimit(limit: Option<int>): (n: int)
    ensures limit.Some? ==> n == limit.value
    ensures limit.None? ==> n == 100
  {
    limit.GetOr(100)
  }

  /** The most characters of history a reply carries. */
  const MaxHistory: nat := 50000

  /** `(history || '').slice(-50000)`: null becomes empty, and a long
      history keeps only its last 50000 characters. */
  function HistoryText(history: Option<string>): (t: string)
    ensures history.None? ==> t == ""
    ensures history.Some? ==>
      && |t| == (if |history.value| <= MaxHistory then |history.value| else MaxHistory)
      && t == history.value[|history.value| - |t|..]
  {
    var h := history.GetOr("");
    if |h| <= MaxHistory then h else h[|h| - MaxHistory..]
  }

  /** Cutting is idempotent: a reply's history text is its own cut. */
  lemma HistoryTextIdempotent(history: Option<string>)
    ensures HistoryText(Some(HistoryText(history))) == HistoryText(history)
  {
  }

  /** Two histories that end the same way (in their last 50000
      characters) give the same reply text. */
  lemma HistoryTextKeepsEnd(h1: string, h2: string)
    requires |h1| >= MaxHistory && |h2| >= MaxHistory
    requires h1[|h1| - MaxHistory..] == h2[|h2| - MaxHistory..]
    ensures HistoryText(Some(h1)) == HistoryText(Some(h2))
  {
  }

  /** `result.error || null`: an absent or empty error is reported as null. */
  function ErrorOrNull(error: Option<string>): (e: Option<string>)
    ensures e.Some? <==> error.Some? && error.value != ""
    ensures e.Some? ==> e == error
  {
    if error.Some? && error.value != "" then error else None
  }

  /** The object a tool call serializes into its single text content. */
  datatype Reply =
    | HistoryReply(chatName: string, date: string, messageLimit: int, history: string, chatRoomUpdatedAt: string)
    | SendReply(success: bool, chatName: string, message: string, timestamp: string, error: Option<string>)

  /** A history handler's reply, or the error it throws. */
  function HistoryResponse(args: Args, history: Result<Option<string>, string>, clock: Clock): (r: Result<Reply, string>)
    ensures r.Failure? <==> history.Failure?
    ensures r.Failure? ==> r.error == history.error
    ensures r.Success? ==>
      && r.value.HistoryReply?
      && r.value.chatName == args.chatName
      && r.value.date == TargetDate(args.date, clock.iso)
      && r.value.messageLimit == MessageLimit(args.messageLimit)
      && r.value.history == HistoryText(history.value)
      && r.value.chatRoomUpdatedAt == clock.locale
  {
    match history
    case Failure(e) => Failure(e)
    case Success(h) =>
      Success(HistoryReply(args.chatName, TargetDate(args.date, clock.iso), MessageLimit(args.messageLimit),
                           HistoryText(h), clock.locale))
  }

  /** A send handler's reply, or the error it throws: the reply carries the
      backend's `success` as it is, so a failed send still answers
      normally. */
  function SendResponse(args: Args, sent: Result<ActionResult, string>, clock: Clock): (r: Result<Reply, string>)
    ensures r.Failure? <==> sent.Failure?
    ensures r.Failure? ==> r.error == sent.error
    ensures r.Success? ==>
      && r.value.SendReply?
      && r.value.success == sent.value.success
      && r.value.chatName == args.chatName
      && r.value.message == args.message
      && r.value.timestamp == clock.iso
      && r.value.error == ErrorOrNull(sent.value.error)
  {
    match sent
    case Failure(e) => Failure(e)
    case Success(res) =>
      Success(SendReply(res.success, args.chatName, args.message, clock.iso, ErrorOrNull(res.error)))
  }

  /** `ErrorCode.MethodNotFound` and `ErrorCode.InternalError` of JSON-RPC. */
  const MethodNotFound: int := -32601
  const InternalError: int := -32603

  /** An `McpError`: its code and its message. The SDK prefixes the text
      given to the constructor with `MCP error <code>: `. */
  datatype McpError = McpError(code: int, message: string)

  /** The message of the error thrown for a name the switch does not know. */
  function UnknownToolMessage(name: string): string {
    "MCP error -32601: Unknown tool: " + name
  }

  /** The `catch` around the switch: every error, whatever its origin,
      leaves as an internal error naming the tool. */
  function Rewrap(name: string, r: Result<Reply, string>): (o: Result<Reply, McpError>)
    ensures o.Success? <==> r.Success?
    ensures o.Success? ==> o.value == r.value
    ensures o.Failure? ==>
      && o.error.code == InternalError
      && o.error.message == "Error executing tool " + name + ": " + r.error
  {
    match r
    case Success(v) => Success(v)
    case Failure(e) => Failure(McpError(InternalError, "Error executing tool " + name + ": " + e))
  }

  /** What `tools/call` answers when its handler's calls on the backend
      start at position `n` of the trace. */
  function CallOutcome(name: string, args: Args, p: Platform, a: Answers, n: nat, clock: Clock): (r: Result<Reply, McpError>)
  {
    match ToolFor(name)
    case None => Rewrap(name, Failure(UnknownToolMessage(name)))
    case Some(History(_)) => Rewrap(name, HistoryResponse(args, HistoryOutcome(p, a, n, args.chatName).result, clock))
    case Some(SendTool(_)) => Rewrap(name, SendResponse(args, SendOutcome(p, a, n, args.chatName).result, clock))
  }

  /** The backend calls `tools/call` makes. */
  function CallCalls(name: string, args: Args, p: Platform, a: Answers, n: nat): (c: seq<Call>)
  {
    match ToolFor(name)
    case None => []
    case Some(History(times)) => HistoryCalls(args.chatName, times)[..HistoryOutcome(p, a, n, args.chatName).made]
    case Some(SendTool(autoSend)) =>
      SendCalls(args.chatName, args.message, autoSend)[..SendOutcome(p, a, n, args.chatName).made]
  }

  /** An unknown tool is an internal error that wraps the method-not-found
      error, and no backend call is made. */
  lemma UnknownToolRejected(name: string, args: Args, p: Platform, a: Answers, n: nat, clock: Clock)
    requires name !in ToolNames
    ensures CallOutcome(name, args, p, a, n, clock)
      == Failure(McpError(InternalError, "Error executing tool " + name + ": " + UnknownToolMessage(name)))
    ensures CallCalls(name, args, p, a, n) == []
  {
  }

  /** A chat that is not found fails every tool with the same internal
      error, after exactly three backend calls. */
  lemma NotFoundReported(name: string, args: Args, p: Platform, a: Answers, n: nat, clock: Clock)
    requires name in ToolNames
    requires EnglishError(p, a, n).None? && !a.found(n + 2)
    ensures CallOutcome(name, args, p, a, n, clock)
      == Failure(McpError(InternalError, "Error executing tool " + name + ": " + NotFoundMessage(args.chatName)))
    ensures CallCalls(name, args, p, a, n) == [English, Activate, Select(args.chatName)]
  {
    NotFoundStops(p, a, n, args.chatName, args.message, 0, false);
    match ToolFor(name)
    case Some(History(times)) =>
      NotFoundStops(p, a, n, args.chatName, args.message, times, false);
    case Some(SendTool(autoSend)) =>
      NotFoundStops(p, a, n, args.chatName, args.message, 0, autoSend);
  }

  /** Whenever a send tool reaches the backend's `sendMessage`, it answers
      with a reply (never an error) whose `success` is the backend's. */
  lemma SendFailureIsAReply(name: string, args: Args, p: Platform, a: Answers, n: nat, clock: Clock)
    requires ToolFor(name).Some? && ToolFor(name).value.SendTool?
    requires EnglishError(p, a, n).None? && a.found(n + 2)
    ensures CallOutcome(name, args, p, a, n, clock).Success?
    ensures CallOutcome(name, args, p, a, n, clock).value.success == a.sent(n + 3).success
  {
  }

  class LineDesktopMcpServer {
    const lineAutomation: LineAutomation

    constructor (lineAutomation: LineAutomation)
      ensures this.lineAutomation == lineAutomation
    {
      this.lineAutomation := lineAutomation;
    }

    /** The three `handleGetLineChatroomHistory*` handlers, which differ
        only in `scrolls`. */
    method HandleHistory(args: Args, scrolls: nat, clock: Clock, env: LogEnv) returns (r: Result<Reply, string>)
      modifies lineAutomation, lineAutomation.automation
      ensures var b := lineAutomation.automation;
        var o := HistoryOutcome(b.platform, b.answers, |old(b.trace)|, args.chatName);
        && b.trace == old(b.trace) + HistoryCalls(args.chatName, scrolls)[..o.made]
        && lineAutomation.logs == old(lineAutomation.logs) + Written(env, args.chatName, o.result)
        && r == HistoryResponse(args, o.result, clock)
    {
      var targetDate := TargetDate(args.date, clock.iso);
      var history := lineAutomation.GetChatHistory(args.chatName, Some(targetDate), MessageLimit(args.messageLimit), scrolls, env);
      r := HistoryResponse(args, history, clock);
    }

    /** `handleSendMessage` and `handleSendMessageAuto`. */
    method HandleSend(args: Args, autoSend: bool, clock: Clock) returns (r: Result<Reply, string>)
      modifies lineAutomation.automation
      ensures var b := lineAutomation.automation;
        var o := SendOutcome(b.platform, b.answers, |old(b.trace)|, args.chatName);
        && b.trace == old(b.trace) + SendCalls(args.chatName, args.message, autoSend)[..o.made]
        && r == SendResponse(args, o.result, clock)
    {
      var result := lineAutomation.SendChatMessage(args.chatName, args.message, autoSend);
      r := SendResponse(args, result, clock);
    }

    /** The `tools/call` request handler. */
    method CallTool(name: string, args: Args, clock: Clock, env: LogEnv) returns (r: Result<Reply, McpError>)
      modifies lineAutomation, lineAutomation.automation
      ensures var b := lineAutomation.automation;
        && b.trace == old(b.trace) + CallCalls(name, args, b.platform, b.answers, |old(b.trace)|)
        && r == CallOutcome(name, args, b.platform, b.answers, |old(b.trace)|, clock)
      ensures ToolFor(name).Some? && ToolFor(name).value.History? ==>
        var b := lineAutomation.automation;
        lineAutomation.logs == old(lineAutomation.logs)
          + Written(env, args.chatName, HistoryOutcome(b.platform, b.answers, |old(b.trace)|, args.chatName).result)
      ensures !(ToolFor(name).Some? && ToolFor(name).value.History?) ==> lineAutomation.logs == old(lineAutomation.logs)
    {
      var tool := ToolFor(name);
      var reply: Result<Reply, string>;
      match tool {
        case None =>
          reply := Failure(UnknownToolMessage(name));
        case Some(History(scrolls)) =>
          reply := HandleHistory(args, scrolls, clock, env);
        case Some(SendTool(autoSend)) =>
          reply := HandleSend(args, autoSend, clock);
      }
      r := Rewrap(name, reply);
    }
  }
}
