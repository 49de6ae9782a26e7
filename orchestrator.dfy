/**
 * The platform-independent orchestrator (`LineAutomation`): the choice of
 * backend, the order of the backend calls made by `getChatHistory` and
 * `sendChatMessage` with their early exits, and the chat-log file name.
 *
 * The backend is seen through its interface: each call is recorded in a
 * trace, and its answer is an input (`Answers`), indexed by the call's
 * position in the trace. The `MacOS` and `Windows` modules say how each
 * backend turns a script run into such an answer.
 */
module Orchestrator {
  import opened Wrappers
  import opened Actions

  /** The backend class the constructor instantiates. */
  datatype Platform = MacOSBackend | WindowsBackend

  /** `new LineAutomation()` on `process.platform`: 'darwin' gives the macOS
      backend, 'win32' the Windows one, anything else throws. */
  function SelectBackend(platform: string): (r: Result<Platform, string>)
    ensures r == Success(MacOSBackend) <==> platform == "darwin"
    ensures r == Success(WindowsBackend) <==> platform == "win32"
    ensures r.Failure? <==> platform != "darwin" && platform != "win32"
    ensures r.Failure? ==> r.error == "Unsupported platform: " + platform
  {
    if platform == "darwin" then Success(MacOSBackend)
    else if platform == "win32" then Success(WindowsBackend)
    else Failure("Unsupported platform: " + platform)
  }

  /** A call the orchestrator makes on `this.automation`. */
  datatype Call =
    | English                  // switchToEnglish()
    | Activate                 // activateLine()
    | Select(chatName: string) // selectChat(chatName)
    | Scroll(times: nat)       // pageUp(times)
    | Copy                     // copyAllChatToClipboard()
    | Send(chatName: string, message: string, autoSend: bool)  // sendMessage(...)

  /** The backend's answer to the call at each position of the trace:
      the error `switchToEnglish` throws (macOS only), the activation
      result, whether `selectChat` found the chat, the error `pageUp`
      throws, the copied text (`None` for null), and the `sendMessage`
      result. */
  datatype Answers = Answers(
    englishFails: nat -> Option<string>,
    activation: nat -> ActionResult,
    found: nat -> bool,
    pageUpFails: nat -> Option<string>,
    copied: nat -> Option<string>,
    sent: nat -> ActionResult)

  /** What `switchToEnglish` throws at call `n`: the Windows backend only
      logs a warning and returns. */
  function EnglishError(p: Platform, a: Answers, n: nat): (e: Option<string>)
    ensures p == WindowsBackend ==> e == None
  {
    if p == WindowsBackend then None else a.englishFails(n)
  }

  class Backend {
    const platform: Platform
    const answers: Answers
    var trace: seq<Call>

    constructor (platform: Platform, answers: Answers)
      ensures this.platform == platform && this.answers == answers && trace == []
    {
      this.platform := platform;
      this.answers := answers;
      trace := [];
    }

    method SwitchToEnglish() returns (err: Option<string>)
      modifies this
      ensures trace == old(trace) + [English]
      ensures err == EnglishError(platform, answers, |old(trace)|)
    {
      err := EnglishError(platform, answers, |trace|);
      trace := trace + [English];
    }

    method ActivateLine() returns (r: ActionResult)
      modifies this
      ensures trace == old(trace) + [Activate]
      ensures r == answers.activation(|old(trace)|)
    {
      r := answers.activation(|trace|);
      trace := trace + [Activate];
    }

    method SelectChat(chatName: string) returns (found: bool)
      modifies this
      ensures trace == old(trace) + [Select(chatName)]
      ensures found == answers.found(|old(trace)|)
    {
      found := answers.found(|trace|);
      trace := trace + [Select(chatName)];
    }

    method PageUp(times: nat) returns (err: Option<string>)
      modifies this
      ensures trace == old(trace) + [Scroll(times)]
      ensures err == answers.pageUpFails(|old(trace)|)
    {
      err := answers.pageUpFails(|trace|);
      trace := trace + [Scroll(times)];
    }

    method CopyAllChatToClipboard() returns (text: Option<string>)
      modifies this
      ensures trace == old(trace) + [Copy]
      ensures text == answers.copied(|old(trace)|)
    {
      text := answers.copied(|trace|);
      trace := trace + [Copy];
    }

    method SendMessage(chatName: string, message: string, autoSend: bool) returns (r: ActionResult)
      modifies this
      ensures trace == old(trace) + [Send(chatName, message, autoSend)]
      ensures r == answers.sent(|old(trace)|)
    {
      r := answers.sent(|trace|);
      trace := trace + [Send(chatName, message, autoSend)];
    }
  }

  // ---------------------------------------------------------------------
  // The two operations, as functions of the backend's answers

  /** `Chat "<name>" not found`. */
  function NotFoundMessage(chatName: string): string {
    "Chat \"" + chatName + "\" not found"
  }

  /** How many backend calls an operation made, and what it returned or
      threw. */
  datatype Outcome<T> = Outcome(made: nat, result: Result<T, string>)

  /** Every call `getChatHistory` can make, in order. */
  function HistoryCalls(chatName: string, times: nat): seq<Call> {
    [English, Activate, Select(chatName), Scroll(times), Copy]
  }

  /** Every call `sendChatMessage` can make, in order. */
  function SendCalls(chatName: string, message: string, autoSend: bool): seq<Call> {
    [English, Activate, Select(chatName), Send(chatName, message, autoSend)]
  }

  /** `getChatHistory` when its first call is number `n`: a throw from
      `switchToEnglish` or `pageUp` propagates, a chat that is not found
      stops it, and otherwise it returns the copied text. The activation
      result is not looked at. */
  function HistoryOutcome(p: Platform, a: Answers, n: nat, chatName: string): (o: Outcome<Option<string>>)
    ensures 1 <= o.made <= 5
  {
    var e := EnglishError(p, a, n);
    if e.Some? then Outcome(1, Failure(e.value))
    else if !a.found(n + 2) then Outcome(3, Failure(NotFoundMessage(chatName)))
    else if a.pageUpFails(n + 3).Some? then Outcome(4, Failure(a.pageUpFails(n + 3).value))
    else Outcome(5, Success(a.copied(n + 4)))
  }

  /** `sendChatMessage` when its first call is number `n`. */
  function SendOutcome(p: Platform, a: Answers, n: nat, chatName: string): (o: Outcome<ActionResult>)
    ensures 1 <= o.made <= 4
  {
    var e := EnglishError(p, a, n);
    if e.Some? then Outcome(1, Failure(e.value))
    else if !a.found(n + 2) then Outcome(3, Failure(NotFoundMessage(chatName)))
    else Outcome(4, Success(a.sent(n + 3)))
  }

  /** A chat that is not found ends both operations with
      `Chat "<name>" not found` right after `selectChat`: neither `pageUp`,
      `copyAllChatToClipboard` nor `sendMessage` is called. */
  lemma NotFoundStops(p: Platform, a: Answers, n: nat, chatName: string, message: string, times: nat, autoSend: bool)
    requires EnglishError(p, a, n).None? && !a.found(n + 2)
    ensures var o := HistoryOutcome(p, a, n, chatName);
      o.result == Failure(NotFoundMessage(chatName))
      && HistoryCalls(chatName, times)[..o.made] == [English, Activate, Select(chatName)]
    ensures var o := SendOutcome(p, a, n, chatName);
      o.result == Failure(NotFoundMessage(chatName))
      && SendCalls(chatName, message, autoSend)[..o.made] == [English, Activate, Select(chatName)]
  {
  }

  /** `getChatHistory` returns exactly when all five calls were made and
      neither `switchToEnglish` nor `pageUp` threw and the chat was found;
      it then returns the copied text unchanged (null included). */
  lemma HistorySucceeds(p: Platform, a: Answers, n: nat, chatName: string)
    ensures var o := HistoryOutcome(p, a, n, chatName);
      (o.result.Success? <==>
        EnglishError(p, a, n).None? && a.found(n + 2) && a.pageUpFails(n + 3).None?)
      && (o.result.Success? ==> o.made == 5 && o.result.value == a.copied(n + 4))
  {
  }

  /** `sendChatMessage` returns the backend's `sendMessage` result verbatim
      whenever it gets that far. */
  lemma SendSucceeds(p: Platform, a: Answers, n: nat, chatName: string)
    ensures var o := SendOutcome(p, a, n, chatName);
      (o.result.Success? <==> EnglishError(p, a, n).None? && a.found(n + 2))
      && (o.result.Success? ==> o.made == 4 && o.result.value == a.sent(n + 3))
  {
  }

  /** An activation failure never stops or changes either operation. */
  lemma ActivationIgnored(p: Platform, a: Answers, n: nat, chatName: string, f: nat -> ActionResult)
    ensures HistoryOutcome(p, a.(activation := f), n, chatName) == HistoryOutcome(p, a, n, chatName)
    ensures SendOutcome(p, a.(activation := f), n, chatName) == SendOutcome(p, a, n, chatName)
  {
  }

  /** On Windows, `switchToEnglish` never stops an operation. */
  lemma WindowsEnglishNeverThrows(a: Answers, n: nat, chatName: string)
    ensures HistoryOutcome(WindowsBackend, a, n, chatName).made >= 3
    ensures SendOutcome(WindowsBackend, a, n, chatName).made >= 3
  {
  }

  // ---------------------------------------------------------------------
  // Chat log file

  /** The characters `/[<>:"/\\|?*\x00-\x1f\x7f]/` matches. */
  predicate IsUnsafe(c: char) {
    c == '<' || c == '>' || c == ':' || c == '"' || c == '/' || c == '\\'
    || c == '|' || c == '?' || c == '*' || c as int <= 0x1F || c as int == 0x7F
  }

  /** `chatName.replace(/[<>:"/\\|?*\x00-\x1f\x7f]/g, '_')`: each unsafe
      character becomes `_`, every other character (CJK included) stays. */
  function SanitizeChatName(name: string): (r: string)
    ensures |r| == |name|
    ensures forall k :: 0 <= k < |name| ==> r[k] == if IsUnsafe(name[k]) then '_' else name[k]
  {
    if name == [] then []
    else [if IsUnsafe(name[0]) then '_' else name[0]] + SanitizeChatName(name[1..])
  }

  /** No unsafe character is left, and sanitizing twice is sanitizing once. */
  lemma SanitizeSafe(name: string)
    ensures forall k :: 0 <= k < |name| ==> !IsUnsafe(SanitizeChatName(name)[k])
    ensures SanitizeChatName(SanitizeChatName(name)) == SanitizeChatName(name)
  {
  }

  /** `new Date().toISOString().replace(/[:.]/g, '-')`. */
  function FileTimestamp(iso: string): (r: string)
    ensures |r| == |iso|
    ensures forall k :: 0 <= k < |iso| ==> r[k] == if iso[k] == ':' || iso[k] == '.' then '-' else iso[k]
  {
    if iso == [] then []
    else [if iso[0] == ':' || iso[0] == '.' then '-' else iso[0]] + FileTimestamp(iso[1..])
  }

  /** `${safeChatName}_${timestamp}.txt`. */
  function LogFileName(chatName: string, iso: string): (r: string)
    ensures |r| == |chatName| + |iso| + 5
    ensures r[..|chatName|] == SanitizeChatName(chatName)
    ensures r[|chatName|] == '_'
    ensures r[|chatName| + 1..|r| - 4] == FileTimestamp(iso)
    ensures r[|r| - 4..] == ".txt"
  {
    SanitizeChatName(chatName) + "_" + FileTimestamp(iso) + ".txt"
  }

  /** For an ISO timestamp (digits, `-`, `T`, `:`, `.`, `Z`) the file name
      holds no unsafe character at all. */
  lemma LogFileNameSafe(chatName: string, iso: string)
    requires forall k :: 0 <= k < |iso| ==> iso[k] == ':' || !IsUnsafe(iso[k])
    ensures forall k :: 0 <= k < |LogFileName(chatName, iso)| ==> !IsUnsafe(LogFileName(chatName, iso)[k])
  {
    var r := LogFileName(chatName, iso);
    var n := |chatName|;
    forall k | 0 <= k < |r| ensures !IsUnsafe(r[k]) {
      if k < n {
        assert r[k] == r[..n][k];
      } else if k == n {
      } else if k < |r| - 4 {
        assert r[k] == r[n + 1..|r| - 4][k - n - 1];
      } else {
        assert r[k] == r[|r| - 4..][k - (|r| - 4)];
      }
    }
  }

  /** The chat-log settings read from the environment: `CHAT_LOG_ON`,
      `CHAT_LOG_PATH` (`None` when unset), the working directory, and the
      current time as an ISO string. */
  datatype LogEnv = LogEnv(logOn: Option<string>, logPath: Option<string>, cwd: string, nowIso: string)

  /** A configured directory, or `path.join(process.cwd(), 'logs')`. */
  datatype LogDirectory = Configured(path: string) | CwdLogs(cwd: string)

  /** `CHAT_LOG_PATH` when it is set and not empty, else `<cwd>/logs`. */
  function LogDir(env: LogEnv): (d: LogDirectory)
    ensures d.Configured? <==> env.logPath.Some? && env.logPath.value != ""
    ensures d.Configured? ==> d.path == env.logPath.value
    ensures d.CwdLogs? ==> d.cwd == env.cwd
  {
    match env.logPath
    case Some(p) => if p != "" then Configured(p) else CwdLogs(env.cwd)
    case None => CwdLogs(env.cwd)
  }

  /** The file `getChatHistory` asks the file system to write. */
  datatype LogFile = LogFile(dir: LogDirectory, name: string, content: Option<string>)

  /** The log file written after a copy when `CHAT_LOG_ON` is 'true'. */
  function LogFor(env: LogEnv, chatName: string, history: Option<string>): (f: Option<LogFile>)
    ensures f.Some? <==> env.logOn == Some("true")
    ensures f.Some? ==>
      && f.value.content == history && f.value.dir == LogDir(env)
      && f.value.name == LogFileName(chatName, env.nowIso)
  {
    if env.logOn == Some("true") then Some(LogFile(LogDir(env), LogFileName(chatName, env.nowIso), history))
    else None
  }

  /** The log files a `getChatHistory` with result `r` asks for. */
  function Written(env: LogEnv, chatName: string, r: Result<Option<string>, string>): (w: seq<LogFile>)
    ensures |w| <= 1
    ensures |w| == 1 <==> r.Success? && env.logOn == Some("true")
    ensures |w| == 1 ==> Some(w[0]) == LogFor(env, chatName, r.value)
  {
    if r.Success? && env.logOn == Some("true") then [LogFor(env, chatName, r.value).value] else []
  }

  // ---------------------------------------------------------------------
  // The orchestrator object

  class LineAutomation {
    const automation: Backend
    /** The chat-log files asked of the file system, oldest first. A failed
        write is caught and only logged, so it has no effect on a result. */
    var logs: seq<LogFile>

    constructor (automation: Backend)
      ensures this.automation == automation && logs == []
    {
      this.automation := automation;
      logs := [];
    }

    /** `getChatHistory(chatName, date, messageLimit, pageUpTimes)`. The
        calls made are a prefix of `HistoryCalls`, cut where the operation
        stops; `date` and `messageLimit` take no part. A log file is asked
        for only after a copy, and only when `CHAT_LOG_ON` is 'true'. */
    method GetChatHistory(chatName: string, date: Option<string>, messageLimit: int, pageUpTimes: nat, env: LogEnv)
      returns (r: Result<Option<string>, string>)
      modifies this, automation
      ensures var o := HistoryOutcome(automation.platform, automation.answers, |old(automation.trace)|, chatName);
        && automation.trace == old(automation.trace) + HistoryCalls(chatName, pageUpTimes)[..o.made]
        && r == o.result
      ensures logs == old(logs) + Written(env, chatName, r)
    {
      var err := automation.SwitchToEnglish();
      if err.Some? {
        r := Failure(err.value);
        return;
      }
      var _ := automation.ActivateLine();
      var ok := automation.SelectChat(chatName);
      if !ok {
        r := Failure(NotFoundMessage(chatName));
        return;
      }
      err := automation.PageUp(pageUpTimes);
      if err.Some? {
        r := Failure(err.value);
        return;
      }
      var chatHistory := automation.CopyAllChatToClipboard();
      var log := LogFor(env, chatName, chatHistory);
      if log.Some? {
        logs := logs + [log.value];
      }
      r := Success(chatHistory);
    }

    /** `sendChatMessage(chatName, message, autoSend)`. */
    method SendChatMessage(chatName: string, message: string, autoSend: bool)
      returns (r: Result<ActionResult, string>)
      modifies automation
      ensures var o := SendOutcome(automation.platform, automation.answers, |old(automation.trace)|, chatName);
        && automation.trace == old(automation.trace) + SendCalls(chatName, message, autoSend)[..o.made]
        && r == o.result
    {
      var err := automation.SwitchToEnglish();
      if err.Some? {
        r := Failure(err.value);
        return;
      }
      var _ := automation.ActivateLine();
      var ok := automation.SelectChat(chatName);
      if !ok {
        r := Failure(NotFoundMessage(chatName));
        return;
      }
      var result := automation.SendMessage(chatName, message, autoSend);
      r := Success(result);
    }
  }

  /** `new LineAutomation()` on `process.platform`, with a backend that
      answers `answers`. */
  method NewLineAutomation(platform: string, answers: Answers) returns (r: Result<LineAutomation, string>)
    ensures r.Success? <==> SelectBackend(platform).Success?
    ensures r.Failure? ==> r.error == SelectBackend(platform).error
    ensures r.Success? ==>
      && fresh(r.value) && fresh(r.value.automation)
      && r.value.automation.platform == SelectBackend(platform).value
      && r.value.automation.answers == answers && r.value.automation.trace == []
      && r.value.logs == []
  {
    var choice := SelectBackend(platform);
    match choice
    case Failure(e) =>
      r := Failure(e);
    case Success(p) =>
      var b := new Backend(p, answers);
      var la := new LineAutomation(b);
      r := Success(la);
  }
}
