/**
 * The Windows backend (`WindowsLineAutomation`): the `"` → `**` rewrite of
 * pasted text, the line splitting of plain parts, the decoding choice of
 * `runAhk`, how each helper turns a script run into its return value, the
 * window-relative click points and keys of `selectChat` and `pageUp`, and
 * the action plan of `sendMessage`.
 */
module Windows {
  import opened Wrappers
  import opened Text
  import opened Segmentation
  import opened Actions

  // ---------------------------------------------------------------------
  // The quote rewrite of `_sendSingleMessage`

  /** `message.replace(/"/g, '**')`: the text the script assigns to
      `A_Clipboard`. No quote is left to end the AutoHotkey string literal
      early; every quote costs one extra character. */
  function AhkClip(s: string): (r: string)
    ensures '"' !in r
    ensures |r| == |s| + Count(s, '"')
  {
    ReplaceCharLength(s, '"', "**");
    ReplaceChar(s, '"', "**")
  }

  /** Reads `**` back as `"`. */
  function Unstar(r: string): string {
    if |r| >= 2 && r[0] == '*' && r[1] == '*' then "\"" + Unstar(r[2..])
    else if r == [] then []
    else [r[0]] + Unstar(r[1..])
  }

  /** For text without `*`, reading `**` back as `"` recovers the text, so
      the rewrite keeps every other character in its place. */
  lemma {:induction false} AhkClipRoundTrip(s: string)
    requires '*' !in s
    ensures Unstar(AhkClip(s)) == s
  {
    if s != [] {
      var head := if s[0] == '"' then "**" else [s[0]];
      ReplaceCharAppend([s[0]], s[1..], '"', "**");
      assert [s[0]] + s[1..] == s;
      assert ReplaceChar([s[0]], '"', "**") == head by {
        assert [s[0]][1..] == [];
      }
      var rest := ReplaceChar(s[1..], '"', "**");
      if s[0] == '"' {
        assert (head + rest)[2..] == rest;
      } else {
        assert (head + rest)[1..] == rest;
      }
      AhkClipRoundTrip(s[1..]);
    }
  }

  /** Text without a quote is pasted unchanged. */
  lemma {:induction false} AhkClipNoQuote(s: string)
    requires '"' !in s
    ensures AhkClip(s) == s
  {
    if s != [] {
      assert s[0] != '"';
      assert '"' !in s[1..];
      AhkClipNoQuote(s[1..]);
      assert [s[0]] + s[1..] == s;
    }
  }

  /** A quote and two asterisks become the same script literal: the
      rewrite cannot be undone when the message contains `*`. */
  lemma QuoteRewriteLossy()
    ensures AhkClip("\"") == AhkClip("**") == "**"
  {
    AhkClipNoQuote("**");
    assert ReplaceChar("\"", '"', "**") == "**" + ReplaceChar("", '"', "**");
  }

  // ---------------------------------------------------------------------
  // Line splitting of plain parts

  predicate IsBreak(c: char) {
    c == '\n' || c == '\r'
  }

  /** `part.split(/\r\n|\n|\r/)` from a line starting at `p`, scanning at
      `q`: a `\r\n` pair is one break, a lone `\n` or `\r` is another. */
  function LinesFrom(s: string, p: nat, q: nat): (lines: seq<string>)
    requires p <= q <= |s|
    ensures |lines| >= 1
    decreases |s| - q
  {
    if q == |s| then [s[p..]]
    else if s[q] == '\r' && q + 1 < |s| && s[q + 1] == '\n' then [s[p..q]] + LinesFrom(s, q + 2, q + 2)
    else if IsBreak(s[q]) then [s[p..q]] + LinesFrom(s, q + 1, q + 1)
    else LinesFrom(s, p, q + 1)
  }

  function SplitLines(s: string): seq<string> {
    LinesFrom(s, 0, 0)
  }

  /** Reference: every line ending (`\r\n`, `\n` or `\r`) written as `\n`. */
  function NormalizeBreaks(s: string): string {
    if s == [] then []
    else if |s| >= 2 && s[0] == '\r' && s[1] == '\n' then "\n" + NormalizeBreaks(s[2..])
    else if IsBreak(s[0]) then "\n" + NormalizeBreaks(s[1..])
    else [s[0]] + NormalizeBreaks(s[1..])
  }

  /** The lines joined with `\n` between them. */
  function JoinLines(lines: seq<string>): string
    requires |lines| >= 1
  {
    if |lines| == 1 then lines[0] else lines[0] + "\n" + JoinLines(lines[1..])
  }

  predicate NoBreak(t: string) {
    forall k :: 0 <= k < |t| ==> !IsBreak(t[k])
  }

  lemma {:induction false} LinesFromJoin(s: string, p: nat, q: nat)
    requires p <= q <= |s|
    ensures JoinLines(LinesFrom(s, p, q)) == s[p..q] + NormalizeBreaks(s[q..])
    decreases |s| - q
  {
    if q == |s| {
      assert s[q..] == [];
      assert s[p..] == s[p..q] + [];
    } else if s[q] == '\r' && q + 1 < |s| && s[q + 1] == '\n' {
      LinesFromJoin(s, q + 2, q + 2);
      JoinAfterBreak(s, p, q, 2);
    } else if IsBreak(s[q]) {
      LinesFromJoin(s, q + 1, q + 1);
      JoinAfterBreak(s, p, q, 1);
    } else {
      LinesFromJoin(s, p, q + 1);
      assert s[q..][1..] == s[q + 1..];
      assert s[p..q + 1] == s[p..q] + [s[q]];
    }
  }

  /** The step of `LinesFromJoin` at a break of `w` characters at `q`. */
  lemma JoinAfterBreak(s: string, p: nat, q: nat, w: nat)
    requires p <= q && q + w <= |s|
    requires w == 2 ==> s[q] == '\r' && s[q + 1] == '\n'
    requires w == 1 ==> IsBreak(s[q]) && !(s[q] == '\r' && q + 1 < |s| && s[q + 1] == '\n')
    requires w == 1 || w == 2
    requires JoinLines(LinesFrom(s, q + w, q + w)) == s[q + w..q + w] + NormalizeBreaks(s[q + w..])
    ensures JoinLines([s[p..q]] + LinesFrom(s, q + w, q + w)) == s[p..q] + NormalizeBreaks(s[q..])
  {
    var rest := LinesFrom(s, q + w, q + w);
    assert ([s[p..q]] + rest)[1..] == rest;
    assert s[q + w..q + w] == [];
    assert s[q..][w..] == s[q + w..];
    assert NormalizeBreaks(s[q..]) == "\n" + NormalizeBreaks(s[q + w..]);
  }

  lemma LinesConsNoBreak(first: string, rest: seq<string>)
    requires NoBreak(first)
    requires forall i :: 0 <= i < |rest| ==> NoBreak(rest[i])
    ensures forall i :: 0 <= i < |[first] + rest| ==> NoBreak(([first] + rest)[i])
  {
    forall i | 0 <= i < |[first] + rest| ensures NoBreak(([first] + rest)[i]) {
      if i > 0 {
        assert ([first] + rest)[i] == rest[i - 1];
      }
    }
  }

  lemma {:induction false} LinesFromNoBreak(s: string, p: nat, q: nat)
    requires p <= q <= |s|
    requires forall k :: p <= k < q ==> !IsBreak(s[k])
    ensures forall i :: 0 <= i < |LinesFrom(s, p, q)| ==> NoBreak(LinesFrom(s, p, q)[i])
    decreases |s| - q
  {
    if q == |s| {
      assert forall k :: 0 <= k < |s[p..]| ==> s[p..][k] == s[p + k];
    } else if s[q] == '\r' && q + 1 < |s| && s[q + 1] == '\n' {
      LinesFromNoBreak(s, q + 2, q + 2);
      assert forall k :: 0 <= k < |s[p..q]| ==> s[p..q][k] == s[p + k];
      LinesConsNoBreak(s[p..q], LinesFrom(s, q + 2, q + 2));
    } else if IsBreak(s[q]) {
      LinesFromNoBreak(s, q + 1, q + 1);
      assert forall k :: 0 <= k < |s[p..q]| ==> s[p..q][k] == s[p + k];
      LinesConsNoBreak(s[p..q], LinesFrom(s, q + 1, q + 1));
    } else {
      LinesFromNoBreak(s, p, q + 1);
    }
  }

  /** The lines contain no line-ending character, and joining them with
      `\n` gives the text with every line ending written as `\n`. */
  lemma SplitLinesSpec(s: string)
    ensures |SplitLines(s)| >= 1
    ensures forall i :: 0 <= i < |SplitLines(s)| ==> NoBreak(SplitLines(s)[i])
    ensures JoinLines(SplitLines(s)) == NormalizeBreaks(s)
  {
    LinesFromJoin(s, 0, 0);
    LinesFromNoBreak(s, 0, 0);
    assert s[0..0] == [] && s[0..] == s;
  }

  // ---------------------------------------------------------------------
  // runAhk: running a script and decoding its standard output

  /** How the `autohotkey` subprocess ended: its raw standard output and
      standard error, or a rejection of `execAsync` (spawn failure or a
      non-zero exit code). */
  datatype AhkExec = Exited(stdout: seq<bv8>, stderr: seq<bv8>) | ExecFailed

  /** chardet and iconv-lite, left uninterpreted: the detected label (or
      none), iconv's decoding (`None` when it throws), and UTF-8 decoding. */
  datatype Codecs = Codecs(
    detect: seq<bv8> -> Option<string>,
    iconv: (seq<bv8>, string) -> Option<string>,
    utf8: seq<bv8> -> string)

  const AhkFailed: string := "AHK execution failed. Is AutoHotkey v2 installed and in your PATH?"

  /** A label `toLowerCase` turns into 'utf-8' or 'utf8'. */
  predicate IsUtf8Label(lbl: string) {
    LowerAscii(lbl) == "utf-8" || LowerAscii(lbl) == "utf8"
  }

  /** Whether `runAhk` hands a non-empty stdout to iconv: only for a
      detected label that is non-empty and not a spelling of UTF-8. */
  predicate UsesIconv(detected: Option<string>) {
    detected.Some? && detected.value != "" && !IsUtf8Label(detected.value)
  }

  /** Whether logging a non-empty stderr throws: a detected label (any
      non-empty one, UTF-8 included) goes to iconv, outside the inner
      `try`, so a label iconv cannot decode fails the whole run. */
  predicate StderrThrows(stderr: seq<bv8>, c: Codecs) {
    var lbl := c.detect(stderr);
    stderr != [] && lbl.Some? && lbl.value != "" && c.iconv(stderr, lbl.value).None?
  }

  /** Whether `runAhk` resolves: the process exited normally and decoding
      its stderr did not throw. */
  predicate Runs(e: AhkExec, c: Codecs) {
    e.Exited? && !StderrThrows(e.stderr, c)
  }

  /** The text `runAhk` builds from a non-empty stdout, before trimming. */
  function DecodeStdout(stdout: seq<bv8>, c: Codecs): string {
    var lbl := c.detect(stdout);
    if UsesIconv(lbl) then
      match c.iconv(stdout, lbl.value)
      case Some(t) => t
      case None => c.utf8(stdout)
    else c.utf8(stdout)
  }

  /** `runAhk(script)`: the trimmed decoded stdout ("" when there is none),
      or the fixed error message whatever made the run fail. */
  function RunAhk(e: AhkExec, c: Codecs): (r: Result<string, string>)
    ensures r.Success? <==> e.Exited? && !StderrThrows(e.stderr, c)
    ensures r.Failure? ==> r.error == AhkFailed
    ensures r.Success? ==> IsTrimmed(r.value)
    ensures e.Exited? && e.stdout == [] && r.Success? ==> r.value == ""
    ensures e.Exited? && e.stderr == [] ==> r.Success?
  {
    match e
    case ExecFailed => Failure(AhkFailed)
    case Exited(out, err) =>
      if StderrThrows(err, c) then Failure(AhkFailed)
      else if out == [] then Success("")
      else TrimSpec(DecodeStdout(out, c)); Success(Trim(DecodeStdout(out, c)))
  }

  /** A run that exits normally still fails when its stderr carries a label
      iconv cannot decode, whatever its stdout holds. */
  lemma StderrDecodeFails(out: seq<bv8>, err: seq<bv8>, c: Codecs)
    requires err != [] && c.detect(err).Some? && c.detect(err).value != ""
    requires c.iconv(err, c.detect(err).value).None?
    ensures RunAhk(Exited(out, err), c) == Failure(AhkFailed)
    ensures HelperResult(Exited(out, err), c) == ActionResult(false, Some(AhkFailed))
  {
  }

  /** Which decoder produced the text: UTF-8 when nothing was detected or
      the label is UTF-8 in any letter case, iconv when it is another label
      and the conversion works, UTF-8 again when the conversion throws. */
  lemma DecodeChoice(out: seq<bv8>, err: seq<bv8>, c: Codecs)
    requires out != [] && !StderrThrows(err, c)
    ensures var lbl := c.detect(out);
      && (lbl.None? || lbl == Some("") || IsUtf8Label(lbl.value) ==>
            RunAhk(Exited(out, err), c) == Success(Trim(c.utf8(out))))
      && (UsesIconv(lbl) && c.iconv(out, lbl.value).Some? ==>
            RunAhk(Exited(out, err), c) == Success(Trim(c.iconv(out, lbl.value).value)))
      && (UsesIconv(lbl) && c.iconv(out, lbl.value).None? ==>
            RunAhk(Exited(out, err), c) == Success(Trim(c.utf8(out))))
  {
  }

  /** Upper-case spellings are UTF-8 labels too: chardet's "UTF-8" skips
      iconv. */
  lemma Utf8UpperCase()
    ensures IsUtf8Label("UTF-8") && IsUtf8Label("Utf8") && !UsesIconv(Some("UTF-8"))
  {
    assert LowerAscii("UTF-8") == "utf-8";
    assert LowerAscii("Utf8") == "utf8";
  }

  // ---------------------------------------------------------------------
  // The helpers' return values

  /** `{ success: true }`, or `{ success: false, error: e.message }` with
      the message `runAhk` throws. Used by `activateLine`,
      `_sendSingleMessageInit`, `_sendSingleMessage`,
      `_sendSingleMessageBackspace`, `_sendSingleMessageEnter` and
      `_sendShiftEnter`. */
  function HelperResult(e: AhkExec, c: Codecs): ActionResult {
    if Runs(e, c) then ActionResult(true, None) else ActionResult(false, Some(AhkFailed))
  }

  /** A helper's `try { await runAhk(script) } catch (e) { … e.message }`:
      success exactly when `runAhk` resolves, and otherwise the message it
      throws. */
  lemma HelperResultOfRun(e: AhkExec, c: Codecs)
    ensures HelperResult(e, c).success <==> RunAhk(e, c).Success?
    ensures HelperResult(e, c).success ==> HelperResult(e, c).error == None
    ensures RunAhk(e, c).Failure? ==> HelperResult(e, c).error == Some(RunAhk(e, c).error)
  {
  }

  /** `selectChat` is true whenever its script runs: nothing in the script
      reports whether the chat was found. */
  function SelectChatFound(e: AhkExec, c: Codecs): (found: bool)
    ensures found <==> Runs(e, c)
  {
    RunAhk(e, c).Success?
  }

  /** `copyAllChatToClipboard`: the script's output passed through as is
      (also "" and the "ERROR: Clipboard is empty" sentinel), or null when
      the run fails. */
  function CopyAllResult(e: AhkExec, c: Codecs): (r: Option<string>)
    ensures r.None? <==> !Runs(e, c)
    ensures r.Some? ==> Success(r.value) == RunAhk(e, c)
  {
    match RunAhk(e, c)
    case Success(t) => Some(t)
    case Failure(_) => None
  }

  const ClipboardEmpty: string := "ERROR: Clipboard is empty"

  /** The sentinel the script prints for an empty clipboard reaches the
      orchestrator as a history text, not as a failure. */
  lemma ClipboardEmptyPassesThrough(out: seq<bv8>, err: seq<bv8>, c: Codecs)
    requires out != [] && DecodeStdout(out, c) == ClipboardEmpty && !StderrThrows(err, c)
    ensures CopyAllResult(Exited(out, err), c) == Some(ClipboardEmpty)
  {
    TrimStartKeep(ClipboardEmpty);
    TrimEndKeep(ClipboardEmpty);
  }

  /** `pageUp` does not catch: a failed run throws `runAhk`'s error. */
  function PageUpThrown(e: AhkExec, c: Codecs): (r: Option<string>)
    ensures r.Some? <==> !Runs(e, c)
    ensures r.Some? ==> r.value == AhkFailed
  {
    match RunAhk(e, c)
    case Success(_) => None
    case Failure(m) => Some(m)
  }

  /** `isLineRunning`: the `tasklist` output (`None` when `execSync`
      throws) lower-cased contains "line.exe". */
  function IsLineRunning(tasklist: Option<string>): (running: bool)
    ensures tasklist.None? ==> !running
    ensures tasklist.Some? ==>
      (running <==> exists k :: OccursAt(LowerAscii(tasklist.value), "line.exe", k))
  {
    match tasklist
    case None => false
    case Some(out) => ContainsAt(LowerAscii(out), "line.exe"); Contains(LowerAscii(out), "line.exe")
  }

  // ---------------------------------------------------------------------
  // Scripts with window-relative click points

  const DelayShort: nat := 200
  const DelayMid: nat := 600

  /** The points a script clicks, in order. */
  function Clicks(steps: seq<Primitive>): seq<Point> {
    if steps == [] then []
    else (if steps[0].ClickAt? then [Point(steps[0].x, steps[0].y)] else []) + Clicks(steps[1..])
  }

  /** The key chords a script sends, in order. */
  function KeysSent(steps: seq<Primitive>): seq<string> {
    if steps == [] then []
    else (if steps[0].Keys? then [steps[0].keys] else []) + KeysSent(steps[1..])
  }

  lemma ClicksAppend(p: seq<Primitive>, q: seq<Primitive>)
    ensures Clicks(p + q) == Clicks(p) + Clicks(q)
    ensures KeysSent(p + q) == KeysSent(p) + KeysSent(q)
  {
    ClicksOnlyAppend(p, q);
    KeysOnlyAppend(p, q);
  }

  lemma {:induction false} ClicksOnlyAppend(p: seq<Primitive>, q: seq<Primitive>)
    ensures Clicks(p + q) == Clicks(p) + Clicks(q)
  {
    if p == [] {
      assert p + q == q;
    } else {
      assert (p + q)[0] == p[0];
      assert (p + q)[1..] == p[1..] + q;
      ClicksOnlyAppend(p[1..], q);
    }
  }

  lemma {:induction false} KeysOnlyAppend(p: seq<Primitive>, q: seq<Primitive>)
    ensures KeysSent(p + q) == KeysSent(p) + KeysSent(q)
  {
    if p == [] {
      assert p + q == q;
    } else {
      assert (p + q)[0] == p[0];
      assert (p + q)[1..] == p[1..] + q;
      KeysOnlyAppend(p[1..], q);
    }
  }

  lemma ScriptStep(s: seq<Primitive>, j: nat)
    requires j < |s|
    ensures Clicks(s[j..]) == (if s[j].ClickAt? then [Point(s[j].x, s[j].y)] else []) + Clicks(s[j + 1..])
    ensures KeysSent(s[j..]) == (if s[j].Keys? then [s[j].keys] else []) + KeysSent(s[j + 1..])
  {
    assert s[j..][0] == s[j] && s[j..][1..] == s[j + 1..];
  }



  /** The steps of the `selectChat` script in a window at `win`. The chat
      name goes into the script literal as it is. */
  function SelectChatScript(chatName: string, win: Rect): seq<Primitive> {
    OpenSearch(win) + EnterQuery(chatName) + OpenResult(win)
  }

  /** Click the chat list and open the search box. */
  function OpenSearch(win: Rect): seq<Primitive> {
    [Sleep(DelayShort), ClickAt(win.x + 30, win.y + 110), Sleep(DelayMid), Keys("^+f"), Sleep(DelayShort)]
  }

  /** Replace the search query with the chat name. */
  function EnterQuery(chatName: string): seq<Primitive> {
    [SetClipboard(chatName), Keys("^a"), Keys("{Delete}"), Sleep(DelayShort), Keys("^v"), Sleep(DelayMid)]
  }

  /** Run the search and click the first result. */
  function OpenResult(win: Rect): seq<Primitive> {
    [Keys("{Enter}"), Sleep(DelayShort), ClickAt(win.x + 200, win.y + 140), Sleep(DelayMid)]
  }

  lemma OpenSearchSteps(win: Rect)
    ensures Clicks(OpenSearch(win)) == [Point(win.x + 30, win.y + 110)]
    ensures KeysSent(OpenSearch(win)) == ["^+f"]
  {
    var s := OpenSearch(win);
    assert s[0..] == s && s[5..] == [];
    ScriptStep(s, 4);
    ScriptStep(s, 3);
    ScriptStep(s, 2);
    ScriptStep(s, 1);
    ScriptStep(s, 0);
  }

  lemma EnterQuerySteps(chatName: string)
    ensures Clicks(EnterQuery(chatName)) == []
    ensures KeysSent(EnterQuery(chatName)) == ["^a", "{Delete}", "^v"]
  {
    var p := [SetClipboard(chatName), Keys("^a"), Keys("{Delete}")];
    var q := [Sleep(DelayShort), Keys("^v"), Sleep(DelayMid)];
    assert Clicks(p) == [] && KeysSent(p) == ["^a", "{Delete}"] by {
      assert p[0..] == p && p[3..] == [];
      ScriptStep(p, 2);
      ScriptStep(p, 1);
      ScriptStep(p, 0);
    }
    assert Clicks(q) == [] && KeysSent(q) == ["^v"] by {
      assert q[0..] == q && q[3..] == [];
      ScriptStep(q, 2);
      ScriptStep(q, 1);
      ScriptStep(q, 0);
    }
    assert EnterQuery(chatName) == p + q;
    ClicksAppend(p, q);
  }

  lemma OpenResultSteps(win: Rect)
    ensures Clicks(OpenResult(win)) == [Point(win.x + 200, win.y + 140)]
    ensures KeysSent(OpenResult(win)) == ["{Enter}"]
  {
    var s := OpenResult(win);
    assert s[0..] == s && s[4..] == [];
    ScriptStep(s, 3);
    ScriptStep(s, 2);
    ScriptStep(s, 1);
    ScriptStep(s, 0);
  }

  /** `selectChat` clicks the chat list at (winX+30, winY+110), then the
      first search result at (winX+200, winY+140); in between it opens the
      search box (Ctrl+Shift+F), selects and deletes the old query, pastes
      the name and presses Enter. */
  lemma SelectChatScriptSpec(chatName: string, win: Rect)
    ensures Clicks(SelectChatScript(chatName, win))
      == [Point(win.x + 30, win.y + 110), Point(win.x + 200, win.y + 140)]
    ensures KeysSent(SelectChatScript(chatName, win))
      == ["^+f", "^a", "{Delete}", "^v", "{Enter}"]
  {
    OpenSearchSteps(win);
    EnterQuerySteps(chatName);
    OpenResultSteps(win);
    ClicksAppend(OpenSearch(win), EnterQuery(chatName));
    ClicksAppend(OpenSearch(win) + EnterQuery(chatName), OpenResult(win));
  }

  /** `times` repetitions of the PgUp step. */
  function PageUps(times: nat): seq<Primitive> {
    if times == 0 then [] else [Keys("{PgUp}"), Sleep(DelayShort)] + PageUps(times - 1)
  }

  /** The steps of the `pageUp(times)` script in a window at `win`. */
  function PageUpScript(win: Rect, times: nat): seq<Primitive> {
    ClickPane(win) + ToBottom() + PageUps(times)
  }

  /** Click the message pane. */
  function ClickPane(win: Rect): seq<Primitive> {
    [ClickAt(win.x + 400, win.y + win.h - 100), Sleep(DelayShort)]
  }

  /** Move the focus to the message list and jump to its end. */
  function ToBottom(): seq<Primitive> {
    [Keys("{Tab}"), Sleep(DelayShort), Keys("{End}"), Sleep(DelayShort)]
  }

  lemma ClickPaneSteps(win: Rect)
    ensures Clicks(ClickPane(win)) == [Point(win.x + 400, win.y + win.h - 100)]
    ensures KeysSent(ClickPane(win)) == []
  {
    var s := ClickPane(win);
    assert s[0..] == s && s[2..] == [];
    ScriptStep(s, 1);
    ScriptStep(s, 0);
  }

  lemma ToBottomSteps()
    ensures Clicks(ToBottom()) == []
    ensures KeysSent(ToBottom()) == ["{Tab}", "{End}"]
  {
    var s := ToBottom();
    assert s[0..] == s && s[4..] == [];
    ScriptStep(s, 3);
    ScriptStep(s, 2);
    ScriptStep(s, 1);
    ScriptStep(s, 0);
  }

  function Repeat(k: string, n: nat): (r: seq<string>)
    ensures |r| == n && forall i :: 0 <= i < n ==> r[i] == k
  {
    if n == 0 then [] else [k] + Repeat(k, n - 1)
  }

  lemma {:induction false} PageUpsKeys(times: nat)
    ensures KeysSent(PageUps(times)) == Repeat("{PgUp}", times)
    ensures Clicks(PageUps(times)) == []
  {
    if times > 0 {
      var head := [Keys("{PgUp}"), Sleep(DelayShort)];
      ClicksAppend(head, PageUps(times - 1));
      assert head[1..][1..] == [];
      PageUpsKeys(times - 1);
    }
  }

  /** `pageUp(times)` clicks the message pane 400 px right of the window's
      left edge and 100 px above its bottom, then sends Tab, End and
      exactly `times` PgUp. */
  lemma PageUpScriptSpec(win: Rect, times: nat)
    ensures Clicks(PageUpScript(win, times)) == [Point(win.x + 400, win.y + win.h - 100)]
    ensures KeysSent(PageUpScript(win, times)) == ["{Tab}", "{End}"] + Repeat("{PgUp}", times)
  {
    ClickPaneSteps(win);
    ToBottomSteps();
    PageUpsKeys(times);
    ClicksAppend(ClickPane(win), ToBottom());
    ClicksAppend(ClickPane(win) + ToBottom(), PageUps(times));
  }

  // ---------------------------------------------------------------------
  // sendMessage
  //
  // Each `Paste` records the text handed to `_sendSingleMessage`; that
  // helper's script embeds `AhkClip` of the text in the string literal it
  // assigns to the clipboard.

  /** The helper calls for a mention part `@name␠`: a space, the mention
      without its ending whitespace, the sentinel "k", Backspace, and
      Shift+Enter to accept the suggestion. */
  function MentionActions(t: string): seq<Action> {
    [Paste(" "), Paste(MentionName(t)), Paste("k"), Backspace, ShiftEnter]
  }

  /** The helper calls for line `i` of a plain part: a paste when the line
      is not empty, and Shift+Enter when it is not the last line. */
  function LineStep(lines: seq<string>, i: nat): seq<Action>
    requires i < |lines|
  {
    (if lines[i] != "" then [Paste(lines[i])] else [])
    + (if i < |lines| - 1 then [ShiftEnter] else [])
  }

  function LinesUpTo(lines: seq<string>, k: nat): seq<Action>
    requires k <= |lines|
  {
    if k == 0 then [] else LinesUpTo(lines, k - 1) + LineStep(lines, k - 1)
  }

  /** Proof-cost helper: one more pass of the line loop extends the log
      by that line's step. */
  lemma LinesUpToNext(start: seq<Action>, lines: seq<string>, i: nat)
    requires i < |lines|
    ensures start + LinesUpTo(lines, i) + LineStep(lines, i) == start + LinesUpTo(lines, i + 1)
  {
    AppendAssoc(start, LinesUpTo(lines, i), LineStep(lines, i));
  }

  function PartActions(p: Part): seq<Action> {
    match p
    case Mention(t) => MentionActions(t)
    case Plain(t) => LinesUpTo(SplitLines(t), |SplitLines(t)|)
  }

  function PartsUpTo(ps: seq<Part>, k: nat): seq<Action>
    requires k <= |ps|
  {
    if k == 0 then [] else PartsUpTo(ps, k - 1) + PartActions(ps[k - 1])
  }

  /** Every helper call `sendMessage` makes, in order. */
  function Plan(ps: seq<Part>, autoSend: bool): seq<Action> {
    Frame(PartsUpTo(ps, |ps|), autoSend)
  }

  // ---------------------------------------------------------------------
  // Properties of the plan

  /** A mention part `@name␠` becomes: paste " ", paste `part.trim()`,
      paste "k", Backspace, Shift+Enter. */
  lemma MentionPlan(t: string)
    requires IsMentionToken(t)
    ensures PartActions(Mention(t)) == [Paste(" "), Paste(Trim(t)), Paste("k"), Backspace, ShiftEnter]
  {
    TrimOfToken(t);
  }

  /** The non-empty lines, in order. */
  function NonEmptyLines(lines: seq<string>): seq<string> {
    if lines == [] then []
    else (if lines[0] != "" then [lines[0]] else []) + NonEmptyLines(lines[1..])
  }

  lemma {:induction false} NonEmptyLinesSnoc(lines: seq<string>, x: string)
    ensures NonEmptyLines(lines + [x]) == NonEmptyLines(lines) + (if x != "" then [x] else [])
  {
    if lines == [] {
      assert [] + [x] == [x];
      assert [x][1..] == [];
    } else {
      var h := if lines[0] != "" then [lines[0]] else [];
      assert (lines + [x])[0] == lines[0];
      assert (lines + [x])[1..] == lines[1..] + [x];
      NonEmptyLinesSnoc(lines[1..], x);
      AppendAssoc(h, NonEmptyLines(lines[1..]), if x != "" then [x] else []);
    }
  }

  lemma LineStepPastes(lines: seq<string>, i: nat)
    requires i < |lines|
    ensures Pastes(LineStep(lines, i)) == if lines[i] != "" then [lines[i]] else []
  {
    var a: seq<Action> := if lines[i] != "" then [Paste(lines[i])] else [];
    var b: seq<Action> := if i < |lines| - 1 then [ShiftEnter] else [];
    PastesAppend(a, b);
    if a != [] {
      PastesSingle(a[0]);
    }
    if b != [] {
      PastesSingle(ShiftEnter);
    }
  }

  lemma LineStepShiftEnters(lines: seq<string>, i: nat)
    requires i < |lines|
    ensures CountOf(ShiftEnter, LineStep(lines, i)) == if i < |lines| - 1 then 1 else 0
  {
    var a: seq<Action> := if lines[i] != "" then [Paste(lines[i])] else [];
    var b: seq<Action> := if i < |lines| - 1 then [ShiftEnter] else [];
    CountOfAppend(ShiftEnter, a, b);
    if a != [] {
      CountOfSingle(ShiftEnter, a[0]);
    }
    if b != [] {
      CountOfSingle(ShiftEnter, ShiftEnter);
    }
  }

  lemma {:induction false} LinesUpToPastes(lines: seq<string>, k: nat)
    requires k <= |lines|
    ensures Pastes(LinesUpTo(lines, k)) == NonEmptyLines(lines[..k])
  {
    if k == 0 {
      assert LinesUpTo(lines, k) == [] && lines[..k] == [];
    } else {
      LinesUpToPastes(lines, k - 1);
      LinesStepPastes(lines, k);
    }
  }

  lemma LinesStepPastes(lines: seq<string>, k: nat)
    requires 0 < k <= |lines|
    requires Pastes(LinesUpTo(lines, k - 1)) == NonEmptyLines(lines[..k - 1])
    ensures Pastes(LinesUpTo(lines, k)) == NonEmptyLines(lines[..k])
  {
    LineStepPastes(lines, k - 1);
    PastesAppend(LinesUpTo(lines, k - 1), LineStep(lines, k - 1));
    assert lines[..k] == lines[..k - 1] + [lines[k - 1]];
    NonEmptyLinesSnoc(lines[..k - 1], lines[k - 1]);
  }

  lemma {:induction false} LinesUpToShiftEnters(lines: seq<string>, k: nat)
    requires k <= |lines|
    ensures CountOf(ShiftEnter, LinesUpTo(lines, k)) == if k == |lines| && k > 0 then k - 1 else k
  {
    if k == 0 {
      assert LinesUpTo(lines, k) == [];
    } else {
      LinesUpToShiftEnters(lines, k - 1);
      LineStepShiftEnters(lines, k - 1);
      CountOfAppend(ShiftEnter, LinesUpTo(lines, k - 1), LineStep(lines, k - 1));
    }
  }

  /** No action of the plan is the final Enter. */
  predicate EnterFree(plan: seq<Action>) {
    forall i :: 0 <= i < |plan| ==> plan[i] != PressEnter
  }

  lemma EnterFreeAppend(p: seq<Action>, q: seq<Action>)
    requires EnterFree(p) && EnterFree(q)
    ensures EnterFree(p + q)
  {
    forall i | 0 <= i < |p + q| ensures (p + q)[i] != PressEnter {
      if i >= |p| {
        assert (p + q)[i] == q[i - |p|];
      }
    }
  }

  lemma {:induction false} LinesUpToNoEnter(lines: seq<string>, k: nat)
    requires k <= |lines|
    ensures EnterFree(LinesUpTo(lines, k))
  {
    if k == 0 {
      assert LinesUpTo(lines, k) == [];
    } else {
      LinesUpToNoEnter(lines, k - 1);
      EnterFreeAppend(LinesUpTo(lines, k - 1), LineStep(lines, k - 1));
    }
  }

  /** A plain part is split into lines: each non-empty line is pasted once,
      in order, empty lines are not pasted, and exactly one Shift+Enter
      separates consecutive lines. */
  lemma PlainPlan(t: string)
    ensures Pastes(PartActions(Plain(t))) == NonEmptyLines(SplitLines(t))
    ensures CountOf(ShiftEnter, PartActions(Plain(t))) == |SplitLines(t)| - 1
    ensures PressEnter !in PartActions(Plain(t))
  {
    var lines := SplitLines(t);
    LinesUpToPastes(lines, |lines|);
    LinesUpToShiftEnters(lines, |lines|);
    LinesUpToNoEnter(lines, |lines|);
    assert lines[..|lines|] == lines;
    assert EnterFree(PartActions(Plain(t)));
  }

  /** `plan` cut at every Shift+Enter: the actions before the first press,
      between consecutive presses, and after the last one. */
  function Chunks(plan: seq<Action>): (r: seq<seq<Action>>)
    ensures |r| >= 1
  {
    if plan == [] then [[]]
    else
      var init := Chunks(plan[..|plan| - 1]);
      var last := plan[|plan| - 1];
      if last == ShiftEnter then init + [[]]
      else init[..|init| - 1] + [init[|init| - 1] + [last]]
  }

  lemma ChunksBreak(p: seq<Action>)
    ensures Chunks(p + [ShiftEnter]) == Chunks(p) + [[]]
  {
    assert (p + [ShiftEnter])[..|p|] == p;
  }

  lemma ChunksExtend(p: seq<Action>, a: Action)
    requires a != ShiftEnter
    ensures Chunks(p + [a]) == Chunks(p)[..|Chunks(p)| - 1] + [Chunks(p)[|Chunks(p)| - 1] + [a]]
  {
    assert (p + [a])[..|p|] == p;
  }

  /** What one line is sent as on its own: a paste unless it is empty. */
  function LinePaste(line: string): seq<Action> {
    if line != "" then [Paste(line)] else []
  }

  /** The sends of the first `k` lines, one entry per line. */
  function LinePastes(lines: seq<string>, k: nat): seq<seq<Action>>
    requires k <= |lines|
  {
    if k == 0 then [] else LinePastes(lines, k - 1) + [LinePaste(lines[k - 1])]
  }

  lemma {:induction false} LinePastesIndex(lines: seq<string>, k: nat)
    requires k <= |lines|
    ensures |LinePastes(lines, k)| == k
    ensures forall i :: 0 <= i < k ==> LinePastes(lines, k)[i] == LinePaste(lines[i])
  {
    if k > 0 {
      LinePastesIndex(lines, k - 1);
    }
  }

  /** Adding line `k - 1` to a plan whose last chunk is still open. */
  lemma LineStepChunks(lines: seq<string>, k: nat)
    requires 0 < k <= |lines|
    requires Chunks(LinesUpTo(lines, k - 1)) == LinePastes(lines, k - 1) + [[]]
    ensures k < |lines| ==> Chunks(LinesUpTo(lines, k)) == LinePastes(lines, k) + [[]]
    ensures k == |lines| ==> Chunks(LinesUpTo(lines, k)) == LinePastes(lines, k)
  {
    var prev := LinesUpTo(lines, k - 1);
    var paste := LinePaste(lines[k - 1]);
    var done := LinePastes(lines, k - 1);
    assert LinePastes(lines, k) == done + [paste];
    if k < |lines| {
      assert LinesUpTo(lines, k) == prev + (paste + [ShiftEnter]) by {
        assert LineStep(lines, k - 1) == paste + [ShiftEnter];
      }
      BreakAfterLine(prev, done, lines[k - 1]);
    } else {
      assert LinesUpTo(lines, k) == prev + paste by {
        assert LineStep(lines, k - 1) == paste + [];
      }
      LinePasteChunks(prev, done, lines[k - 1]);
    }
  }

  /** Pasting a line and pressing Shift+Enter closes its chunk and opens
      the next one. */
  lemma BreakAfterLine(prev: seq<Action>, done: seq<seq<Action>>, line: string)
    requires Chunks(prev) == done + [[]]
    ensures Chunks(prev + (LinePaste(line) + [ShiftEnter])) == done + [LinePaste(line)] + [[]]
  {
    LinePasteChunks(prev, done, line);
    AppendAssoc(prev, LinePaste(line), [ShiftEnter]);
    ChunksBreak(prev + LinePaste(line));
  }

  /** Pasting a line fills the open last chunk. */
  lemma LinePasteChunks(prev: seq<Action>, done: seq<seq<Action>>, line: string)
    requires Chunks(prev) == done + [[]]
    ensures Chunks(prev + LinePaste(line)) == done + [LinePaste(line)]
  {
    if line != "" {
      ChunksExtend(prev, Paste(line));
      assert (done + [[]])[..|done|] == done;
      assert [] + [Paste(line)] == LinePaste(line);
    } else {
      assert prev + LinePaste(line) == prev;
    }
  }

  lemma {:induction false} LinesUpToChunks(lines: seq<string>, k: nat)
    requires k <= |lines|
    ensures k < |lines| ==> Chunks(LinesUpTo(lines, k)) == LinePastes(lines, k) + [[]]
    ensures k == |lines| ==> Chunks(LinesUpTo(lines, k)) == LinePastes(lines, k) || k == 0
  {
    if k == 0 {
      assert LinesUpTo(lines, k) == [];
    } else {
      LinesUpToChunks(lines, k - 1);
      LineStepChunks(lines, k);
    }
  }

  /** Where the Shift+Enter presses of a plain part fall: cutting its plan
      at every press gives one chunk per line, and chunk `i` is the paste
      of line `i`, or nothing when that line is empty. */
  lemma PlainChunks(t: string)
    ensures |Chunks(PartActions(Plain(t)))| == |SplitLines(t)|
    ensures forall i :: 0 <= i < |SplitLines(t)| ==>
      Chunks(PartActions(Plain(t)))[i] == LinePaste(SplitLines(t)[i])
  {
    var lines := SplitLines(t);
    LinesUpToChunks(lines, |lines|);
    LinePastesIndex(lines, |lines|);
  }

  lemma TwoLinesSplit()
    ensures SplitLines("line1\nline2") == ["line1", "line2"]
  {
    var s := "line1\nline2";
    assert LinesFrom(s, 6, 6) == ["line2"] by {
      assert LinesFrom(s, 6, 11) == [s[6..]];
      assert LinesFrom(s, 6, 10) == LinesFrom(s, 6, 11);
      assert LinesFrom(s, 6, 9) == LinesFrom(s, 6, 10);
      assert LinesFrom(s, 6, 8) == LinesFrom(s, 6, 9);
      assert LinesFrom(s, 6, 7) == LinesFrom(s, 6, 8);
      assert LinesFrom(s, 6, 6) == LinesFrom(s, 6, 7);
    }
    assert LinesFrom(s, 0, 5) == [s[0..5]] + LinesFrom(s, 6, 6);
    assert LinesFrom(s, 0, 4) == LinesFrom(s, 0, 5);
    assert LinesFrom(s, 0, 3) == LinesFrom(s, 0, 4);
    assert LinesFrom(s, 0, 2) == LinesFrom(s, 0, 3);
    assert LinesFrom(s, 0, 1) == LinesFrom(s, 0, 2);
    assert LinesFrom(s, 0, 0) == LinesFrom(s, 0, 1);
    assert s[0..5] == "line1";
  }

  lemma TwoLinePlan(t: string, a: string, b: string)
    requires SplitLines(t) == [a, b] && a != "" && b != ""
    ensures PartActions(Plain(t)) == [Paste(a), ShiftEnter, Paste(b)]
  {
    var lines := [a, b];
    assert LineStep(lines, 0) == [Paste(a), ShiftEnter];
    assert LineStep(lines, 1) == [Paste(b)];
    assert LinesUpTo(lines, 1) == [] + LineStep(lines, 0);
  }

  /** "line1\nline2" is pasted as two lines joined by one Shift+Enter,
      never as one paste with an embedded line break. */
  lemma TwoLinesExample()
    ensures PartActions(Plain("line1\nline2")) == [Paste("line1"), ShiftEnter, Paste("line2")]
  {
    TwoLinesSplit();
    TwoLinePlan("line1\nline2", "line1", "line2");
  }

  lemma MentionNoEnter(t: string)
    ensures EnterFree(MentionActions(t))
  {
  }

  lemma PartNoEnter(p: Part)
    ensures EnterFree(PartActions(p))
  {
    if p.Mention? {
      MentionNoEnter(p.text);
    } else {
      LinesUpToNoEnter(SplitLines(p.text), |SplitLines(p.text)|);
    }
  }

  lemma {:induction false} PartsUpToNoEnter(ps: seq<Part>, k: nat)
    requires k <= |ps|
    ensures EnterFree(PartsUpTo(ps, k))
  {
    if k == 0 {
      assert PartsUpTo(ps, k) == [];
    } else {
      PartsUpToNoEnter(ps, k - 1);
      PartsStepNoEnter(ps, k);
    }
  }

  lemma PartsUpToSnoc(ps: seq<Part>, k: nat, t: string)
    requires k < |ps| && ps[k] == Classify(t)
    ensures PartsUpTo(ps, k + 1) == PartsUpTo(ps, k) + PartActions(Classify(t))
  {
  }

  lemma PartsStepNoEnter(ps: seq<Part>, k: nat)
    requires 0 < k <= |ps| && EnterFree(PartsUpTo(ps, k - 1))
    ensures EnterFree(PartsUpTo(ps, k))
  {
    PartNoEnter(ps[k - 1]);
    EnterFreeAppend(PartsUpTo(ps, k - 1), PartActions(ps[k - 1]));
  }

  /** The shape of every plan: init first (also for an empty message), and
      a final Enter exactly when `autoSend` and nowhere else. */
  lemma PlanShape(ps: seq<Part>, autoSend: bool)
    ensures Plan(ps, autoSend)[0] == InitInput
    ensures autoSend <==> Plan(ps, autoSend)[|Plan(ps, autoSend)| - 1] == PressEnter
    ensures CountOf(PressEnter, Plan(ps, autoSend)) == if autoSend then 1 else 0
  {
    var body := PartsUpTo(ps, |ps|);
    PartsUpToNoEnter(ps, |ps|);
    assert PressEnter !in body;
    CountOfNotIn(PressEnter, body);
    FrameShape(body, autoSend);
  }
}

/** The imperative part of the Windows `sendMessage`: the helper calls it
    makes against the host, the nested loop over lines, and the reassigned
    `result`. */
module WindowsSend {
  import opened Wrappers
  import opened Text
  import opened Segmentation
  import opened Actions
  import opened Windows

  /** `sendMessage(chatName, message, autoSend)`: the helpers it calls are
      exactly `Plan(Segments(message), autoSend)`, and the returned record
      reflects the last helper's result only. `c` stands for chardet and
      iconv-lite, which decode every run's output. */
  method SendMessage(host: Host<AhkExec>, c: Codecs, message: string, autoSend: bool)
    returns (res: ActionResult)
    modifies host
    ensures host.log == old(host.log) + Plan(Segments(message), autoSend)
    ensures host.log != [] && res == Finish(HelperResult(host.LastOutcome(), c))
  {
    var messageParts := SplitMessage(message);
    ghost var start := host.log;
    var o := host.Run(InitInput);
    var result := HelperResult(o, c);
    result := SendParts(host, c, messageParts, result);
    ghost var body := PartsUpTo(ClassifyAll(messageParts), |messageParts|);
    if autoSend {
      o := host.Run(PressEnter);
      result := HelperResult(o, c);
    }
    FrameLog(start, body, autoSend);
    res := Finish(result);
  }

  /** The loop over `messageParts`. */
  method SendParts(host: Host<AhkExec>, c: Codecs, messageParts: seq<string>, init: ActionResult)
    returns (result: ActionResult)
    requires host.log != [] && init == HelperResult(host.LastOutcome(), c)
    modifies host
    ensures host.log == old(host.log) + PartsUpTo(ClassifyAll(messageParts), |messageParts|)
    ensures host.log != [] && result == HelperResult(host.LastOutcome(), c)
  {
    ghost var start := host.log;
    ghost var ps := ClassifyAll(messageParts);
    result := init;
    var k := 0;
    while k < |messageParts|
      invariant 0 <= k <= |messageParts|
      invariant host.log == start + PartsUpTo(ps, k)
      invariant host.log != [] && result == HelperResult(host.LastOutcome(), c)
    {
      ghost var prefix := PartsUpTo(ps, k);
      ghost var step := PartActions(Classify(messageParts[k]));
      result := SendPart(host, c, messageParts[k], result);
      PartsUpToSnoc(ps, k, messageParts[k]);
      AppendAssoc(start, prefix, step);
      k := k + 1;
    }
  }

  /** The helper calls for one entry of `messageParts`. */
  method SendPart(host: Host<AhkExec>, c: Codecs, part: string, prev: ActionResult)
    returns (result: ActionResult)
    requires host.log != [] && prev == HelperResult(host.LastOutcome(), c)
    modifies host
    ensures host.log == old(host.log) + PartActions(Classify(part))
    ensures host.log != [] && result == HelperResult(host.LastOutcome(), c)
  {
    if IsMentionToken(part) {
      assert PartActions(Classify(part)) == MentionActions(part);
      result := SendMention(host, c, part);
    } else {
      var lines := SplitLines(part);
      assert PartActions(Classify(part)) == LinesUpTo(lines, |lines|);
      result := SendLines(host, c, lines, prev);
    }
  }

  /** The five helper calls for a mention part. */
  method SendMention(host: Host<AhkExec>, c: Codecs, part: string) returns (result: ActionResult)
    requires IsMentionToken(part)
    modifies host
    ensures host.log == old(host.log) + MentionActions(part)
    ensures host.log != [] && result == HelperResult(host.LastOutcome(), c)
  {
    ghost var acts := MentionActions(part);
    var name := Trim(part);
    TrimOfToken(part);
    var o := host.Run(Paste(" "));
    o := host.Run(Paste(name));
    assert host.log == old(host.log) + acts[..2];
    o := host.Run(Paste("k"));
    assert host.log == old(host.log) + acts[..3];
    o := host.Run(Backspace);
    assert host.log == old(host.log) + acts[..4];
    o := host.Run(ShiftEnter);
    assert acts[..5] == acts;
    result := HelperResult(o, c);
  }

  /** The loop over the lines of a plain part. */
  method SendLines(host: Host<AhkExec>, c: Codecs, lines: seq<string>, prev: ActionResult)
    returns (result: ActionResult)
    requires host.log != [] && prev == HelperResult(host.LastOutcome(), c)
    modifies host
    ensures host.log == old(host.log) + LinesUpTo(lines, |lines|)
    ensures host.log != [] && result == HelperResult(host.LastOutcome(), c)
  {
    ghost var start := host.log;
    result := prev;
    var i := 0;
    while i < |lines|
      invariant 0 <= i <= |lines|
      invariant host.log == start + LinesUpTo(lines, i)
      invariant host.log != [] && result == HelperResult(host.LastOutcome(), c)
    {
      result := SendLine(host, c, lines, i, result);
      LinesUpToNext(start, lines, i);
      i := i + 1;
    }
  }

  /** One pass of the line loop: paste line `i` unless it is empty, then
      Shift+Enter unless it is the last line. */
  method SendLine(host: Host<AhkExec>, c: Codecs, lines: seq<string>, i: nat, prev: ActionResult)
    returns (result: ActionResult)
    requires i < |lines|
    requires host.log != [] && prev == HelperResult(host.LastOutcome(), c)
    modifies host
    ensures host.log == old(host.log) + LineStep(lines, i)
    ensures host.log != [] && result == HelperResult(host.LastOutcome(), c)
  {
    result := prev;
    if lines[i] != "" {
      var o := host.Run(Paste(lines[i]));
      result := HelperResult(o, c);
    }
    if i < |lines| - 1 {
      var o := host.Run(ShiftEnter);
      result := HelperResult(o, c);
    }
  }
}
