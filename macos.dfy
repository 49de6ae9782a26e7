/**
 * The macOS backend (`MacOSLineAutomation`): AppleScript string escaping,
 * element click points computed with AppleScript `div`, the scripts of
 * `selectChat` and `pageUp`, how each helper turns a script's outcome into
 * its return value, and the action plan of `sendMessage`.
 */
module MacOS {
  import opened Wrappers
  import opened Text
  import opened Segmentation
  import opened Actions

  // ---------------------------------------------------------------------
  // AppleScript string literals

  /** `appleEsc`: `replace(/\\/g, '\\\\')` then `replace(/"/g, '\\"')`. */
  function AppleEsc(s: string): string {
    ReplaceChar(ReplaceChar(s, '\\', "\\\\"), '"', "\\\"")
  }

  function EscapeChar(c: char): string {
    if c == '\\' then "\\\\" else if c == '"' then "\\\"" else [c]
  }

  /** Character-by-character form of the two passes. */
  function EscapeEach(s: string): string {
    if s == [] then [] else EscapeChar(s[0]) + EscapeEach(s[1..])
  }

  /** How AppleScript reads the body of a string literal:
      `\\` stands for `\` and `\"` for `"`. */
  function AppleUnescape(lit: string): string {
    if |lit| >= 2 && lit[0] == '\\' && (lit[1] == '\\' || lit[1] == '"') then
      [lit[1]] + AppleUnescape(lit[2..])
    else if lit == [] then []
    else [lit[0]] + AppleUnescape(lit[1..])
  }

  lemma {:induction false} AppleEscIsEscapeEach(s: string)
    ensures AppleEsc(s) == EscapeEach(s)
  {
    if s != [] {
      var first := if s[0] == '\\' then "\\\\" else [s[0]];
      var once := ReplaceChar(s[1..], '\\', "\\\\");
      assert ReplaceChar(s, '\\', "\\\\") == first + once;
      ReplaceCharAppend(first, once, '"', "\\\"");
      if s[0] == '\\' {
        assert ReplaceChar(first, '"', "\\\"") == "\\\\" by {
          assert first[1..] == "\\";
          assert first[1..][1..] == [];
        }
      } else {
        assert first[1..] == [];
      }
      AppleEscIsEscapeEach(s[1..]);
    }
  }

  /** Reading the escaped literal gives back the original string. */
  lemma {:induction false} AppleEscRoundTrip(s: string)
    ensures AppleUnescape(AppleEsc(s)) == s
  {
    AppleEscIsEscapeEach(s);
    EscapedReadsBack(s);
  }

  lemma {:induction false} EscapedReadsBack(s: string)
    ensures AppleUnescape(EscapeEach(s)) == s
  {
    if s != [] {
      var e := EscapeEach(s);
      assert e == EscapeChar(s[0]) + EscapeEach(s[1..]);
      if s[0] == '\\' || s[0] == '"' {
        assert e[2..] == EscapeEach(s[1..]);
      } else {
        assert e[1..] == EscapeEach(s[1..]);
      }
      EscapedReadsBack(s[1..]);
      assert s == [s[0]] + s[1..];
    }
  }

  /** The escaped literal grows by one character per backslash and per quote. */
  lemma {:induction false} AppleEscLength(s: string)
    ensures |AppleEsc(s)| == |s| + Count(s, '\\') + Count(s, '"')
  {
    AppleEscIsEscapeEach(s);
    EscapeEachLength(s);
  }

  lemma {:induction false} EscapeEachLength(s: string)
    ensures |EscapeEach(s)| == |s| + Count(s, '\\') + Count(s, '"')
  {
    if s != [] {
      EscapeEachLength(s[1..]);
    }
  }

  // ---------------------------------------------------------------------
  // Element rectangles and click points

  /** AppleScript `div`: integer division truncating toward zero. */
  function Div(a: int, d: int): (q: int)
    requires d > 0
    ensures a >= 0 ==> q * d <= a < q * d + d
    ensures a < 0 ==> q * d - d < a <= q * d
  {
    if a >= 0 then a / d else -((-a) / d)
  }

  /** `(x + (w div 2), y + (h div 2))`, the click point of the search field
      and of the input box. */
  function Center(r: Rect): (p: Point)
    ensures r.w >= 1 && r.h >= 1 ==> Inside(p, r)
    ensures r.w >= 0 ==> 0 <= (r.x + r.w - p.x) - (p.x - r.x) <= 1
    ensures r.h >= 0 ==> 0 <= (r.y + r.h - p.y) - (p.y - r.y) <= 1
  {
    Point(r.x + Div(r.w, 2), r.y + Div(r.h, 2))
  }

  /** The search result row is clicked 15 px above its center. */
  function ChatRowPoint(row: Rect): (p: Point)
    ensures p.x == Center(row).x && p.y == Center(row).y - 15
    ensures row.w >= 1 && row.h >= 30 ==> Inside(p, row)
  {
    Point(row.x + Div(row.w, 2), row.y + Div(row.h, 2) - 15)
  }

  /** The message pane is clicked 20 px left of its right edge and 15 px
      above its bottom edge. */
  function ScrollPanePoint(pane: Rect): (p: Point)
    ensures pane.x + pane.w - p.x == 20 && pane.y + pane.h - p.y == 15
    ensures pane.w > 20 && pane.h > 15 ==> Inside(p, pane)
  {
    Point(pane.x + (pane.w - 20), pane.y + (pane.h - 15))
  }

  /** The mention popup is clicked 10 px above the input box, a quarter of
      the way across it. */
  function MentionPopupPoint(input: Rect): (p: Point)
    ensures p.y == input.y - 10
    ensures input.w >= 0 ==>
      input.x <= p.x <= input.x + input.w && 4 * (p.x - input.x) <= input.w < 4 * (p.x - input.x) + 4
  {
    Point(input.x + Div(input.w, 4), input.y - 10)
  }

  const DelayShort: nat := 150   // `delayShort`, 0.15 s
  const DelayMid: nat := 350     // `delayMid`, 0.35 s
  const DelayLong: nat := 3000   // `delayLong`, 3 s
  const KeyCodeUp: nat := 126    // up arrow
  const KeyCodeBackspace: nat := 51

  /** What the script text that `appleEsc` built puts on the clipboard. */
  function ClipboardOf(s: string): string {
    AppleUnescape(AppleEsc(s))
  }

  /** The steps of the `selectChat` script, given the rectangles of the
      search field and of the second row of the result list. */
  function SelectChatScript(chatName: string, search: Rect, row: Rect): seq<Primitive> {
    [ SetClipboard(ClipboardOf(chatName)),
      ClickAt(Center(search).x, Center(search).y), Sleep(DelayShort),
      Keys("cmd+a"), Keys("cmd+v"), Sleep(DelayMid),
      ClickAt(ChatRowPoint(row).x, ChatRowPoint(row).y), Sleep(DelayShort),
      ClickAt(ChatRowPoint(row).x, ChatRowPoint(row).y), Sleep(DelayLong) ]
  }

  /** `selectChat` puts the chat name itself on the clipboard, clicks the
      search field's center, pastes over the selected search text, and then
      clicks the same row point twice, ending with the long delay. */
  lemma SelectChatScriptSpec(chatName: string, search: Rect, row: Rect)
    ensures var steps := SelectChatScript(chatName, search, row);
      && steps[0] == SetClipboard(chatName)
      && steps[1] == ClickAt(Center(search).x, Center(search).y)
      && steps[3] == Keys("cmd+a") && steps[4] == Keys("cmd+v")
      && steps[6] == steps[8] == ClickAt(Center(row).x, Center(row).y - 15)
      && steps[|steps| - 1] == Sleep(DelayLong)
  {
    AppleEscRoundTrip(chatName);
  }

  function UpArrows(times: nat): seq<Primitive> {
    if times == 0 then [] else [KeyCode(KeyCodeUp), Sleep(DelayShort)] + UpArrows(times - 1)
  }

  /** The steps of the `pageUp(times)` script, given the message-pane
      rectangle. */
  function PageUpScript(pane: Rect, times: nat): seq<Primitive> {
    [ ClickAt(ScrollPanePoint(pane).x, ScrollPanePoint(pane).y), Sleep(DelayLong),
      ClickAt(ScrollPanePoint(pane).x, ScrollPanePoint(pane).y) ] + UpArrows(times)
  }

  lemma {:induction false} UpArrowsCount(times: nat)
    ensures CountOf(KeyCode(KeyCodeUp), UpArrows(times)) == times
    ensures forall k :: KeyCode(k) in UpArrows(times) ==> k == KeyCodeUp
  {
    if times > 0 {
      var head := [KeyCode(KeyCodeUp), Sleep(DelayShort)];
      CountOfAppend(KeyCode(KeyCodeUp), head, UpArrows(times - 1));
      CountOfAppend(KeyCode(KeyCodeUp), [KeyCode(KeyCodeUp)], [Sleep(DelayShort)]);
      CountOfSingle(KeyCode(KeyCodeUp), KeyCode(KeyCodeUp));
      CountOfSingle(KeyCode(KeyCodeUp), Sleep(DelayShort));
      UpArrowsCount(times - 1);
    }
  }

  /** `pageUp(times)` sends exactly `times` up-arrow key events and no other
      key code. */
  lemma PageUpScriptCount(pane: Rect, times: nat)
    ensures CountOf(KeyCode(KeyCodeUp), PageUpScript(pane, times)) == times
    ensures forall k :: KeyCode(k) in PageUpScript(pane, times) ==> k == KeyCodeUp
  {
    var p := ScrollPanePoint(pane);
    var head := [ClickAt(p.x, p.y), Sleep(DelayLong), ClickAt(p.x, p.y)];
    CountOfAppend(KeyCode(KeyCodeUp), head, UpArrows(times));
    assert head == [ClickAt(p.x, p.y)] + [Sleep(DelayLong)] + [ClickAt(p.x, p.y)];
    CountOfAppend(KeyCode(KeyCodeUp), [ClickAt(p.x, p.y)] + [Sleep(DelayLong)], [ClickAt(p.x, p.y)]);
    CountOfAppend(KeyCode(KeyCodeUp), [ClickAt(p.x, p.y)], [Sleep(DelayLong)]);
    CountOfSingle(KeyCode(KeyCodeUp), ClickAt(p.x, p.y));
    CountOfSingle(KeyCode(KeyCodeUp), Sleep(DelayLong));
    UpArrowsCount(times);
  }

  // ---------------------------------------------------------------------
  // Script outcomes and the helpers' return values

  /** A JavaScript error: its `message` and what `String(error)` gives. */
  datatype JsError = JsError(message: string, shown: string)

  /** What `execAppleScript` does: resolves with a value (`None` when it is
      not a string) or rejects with an error. */
  datatype AppleOutcome = Returned(value: Option<string>) | Raised(err: JsError)

  /** `error?.message || String(error)`. */
  function ErrorText(e: JsError): string {
    if e.message != "" then e.message else e.shown
  }

  /** `osa(script)`: the trimmed string result, or the rejection rethrown. */
  function Osa(o: AppleOutcome): (r: Result<string, JsError>)
    ensures r.Success? <==> o.Returned?
    ensures r.Success? ==> IsTrimmed(r.value)
    ensures o.Returned? ==> r == Success(Trim(o.value.GetOr("")))
    ensures o.Raised? ==> r == Failure(o.err)
  {
    match o
    case Returned(v) => TrimSpec(v.GetOr("")); Success(Trim(v.GetOr("")))
    case Raised(e) => Failure(e)
  }

  /** The result of a `sendMessage` helper (`_sendSingleMessageInit`,
      `_sendSingleMessage`, `_sendSingleMessageBackspace`,
      `_sendSingleMessageEnter`, `_sendSingleMessageClickMention`). */
  function HelperResult(o: AppleOutcome): (r: ActionResult)
    ensures r.success <==> Osa(o) == Success("true")
    ensures r.success ==> r.error == None
    ensures !r.success && o.Returned? ==> r.error == Some("Failed to send message")
    ensures o.Raised? ==> r == ActionResult(false, Some(ErrorText(o.err)))
  {
    match Osa(o)
    case Success(t) =>
      if t == "true" then ActionResult(true, None)
      else ActionResult(false, Some("Failed to send message"))
    case Failure(e) => ActionResult(false, Some(ErrorText(e)))
  }

  /** `selectChat` is true only when the script ran and returned "true". */
  function SelectChatFound(o: AppleOutcome): (found: bool)
    ensures found <==> o.Returned? && Trim(o.value.GetOr("")) == "true"
  {
    Osa(o) == Success("true")
  }

  /** `isLineRunning`: true only when the process-list script ran and
      answered "true"; a failed script means not running. */
  function IsLineRunning(o: AppleOutcome): (running: bool)
    ensures running ==> o.Returned?
    ensures o.Returned? ==> (running <==> Trim(o.value.GetOr("")) == "true")
  {
    match Osa(o)
    case Success(t) => t == "true"
    case Failure(_) => false
  }

  /** `copyAllChatToClipboard`: the trimmed clipboard text, or null when
      the script failed. */
  function CopyAllResult(o: AppleOutcome): (r: Option<string>)
    ensures r == None <==> o.Raised?
    ensures r.Some? ==> IsTrimmed(r.value)
    ensures o.Returned? ==> r == Some(Trim(o.value.GetOr("")))
  {
    match Osa(o)
    case Success(t) => Some(t)
    case Failure(_) => None
  }

  /** `activateLine` runs its script directly (not through `osa`): success
      whenever the script does not reject. */
  function ActivateResult(o: AppleOutcome): (r: ActionResult)
    ensures r.success <==> o.Returned?
    ensures o.Raised? ==> r.error == Some(ErrorText(o.err))
  {
    match o
    case Returned(_) => ActionResult(true, None)
    case Raised(e) => ActionResult(false, Some(ErrorText(e)))
  }

  /** `pageUp` and `switchToEnglish` do not catch: a failed script throws
      its error out of the call. */
  function ThrownBy(o: AppleOutcome): (r: Option<string>)
    ensures r.Some? <==> o.Raised?
  {
    match o
    case Returned(_) => None
    case Raised(e) => Some(e.message)
  }

  // ---------------------------------------------------------------------
  // sendMessage

  /** The helper calls for one part. */
  function PartActions(p: Part): seq<Action> {
    match p
    case Mention(t) => [Paste(" "), Paste(MentionName(t) + "k"), Backspace, ClickMention]
    case Plain(t) => [Paste(t)]
  }

  function PartsFrom(ps: seq<Part>, k: nat): seq<Action>
    requires k <= |ps|
    decreases |ps| - k
  {
    if k == |ps| then [] else PartActions(ps[k]) + PartsFrom(ps, k + 1)
  }

  /** Every helper call `sendMessage` makes, in order. */
  function Plan(ps: seq<Part>, autoSend: bool): seq<Action> {
    Frame(PartsFrom(ps, 0), autoSend)
  }

  /** The helper calls for the first `k` entries of `messageParts`. */
  function ActionsUpTo(ts: seq<string>, k: nat): seq<Action>
    requires k <= |ts|
  {
    if k == 0 then [] else ActionsUpTo(ts, k - 1) + PartActions(Classify(ts[k - 1]))
  }

  lemma {:induction false} ActionsUpToThenFrom(ts: seq<string>, k: nat)
    requires k <= |ts|
    ensures ActionsUpTo(ts, k) + PartsFrom(ClassifyAll(ts), k) == PartsFrom(ClassifyAll(ts), 0)
  {
    if k > 0 {
      var ps := ClassifyAll(ts);
      var pre := ActionsUpTo(ts, k - 1);
      var mid := PartActions(ps[k - 1]);
      ActionsUpToThenFrom(ts, k - 1);
      PartsFromStep(ps, k - 1);
      assert ActionsUpTo(ts, k) == pre + mid;
      AppendAssoc(pre, mid, PartsFrom(ps, k));
    }
  }

  /** Proof-cost helper: one more part extends the action prefix by that
      part's actions. */
  lemma ActionsUpToStep(ts: seq<string>, k: nat)
    requires k < |ts|
    ensures ActionsUpTo(ts, k + 1) == ActionsUpTo(ts, k) + PartActions(Classify(ts[k]))
  {
  }

  lemma ActionsUpToAll(ts: seq<string>)
    ensures ActionsUpTo(ts, |ts|) == PartsFrom(ClassifyAll(ts), 0)
  {
    ActionsUpToThenFrom(ts, |ts|);
    assert PartsFrom(ClassifyAll(ts), |ts|) == [];
  }

  /** Proof-cost helper: peels the first part off a suffix of the parts. */
  lemma PartsFromStep(ps: seq<Part>, k: nat)
    requires k < |ps|
    ensures PartsFrom(ps, k) == PartActions(ps[k]) + PartsFrom(ps, k + 1)
  {
  }


  // ---------------------------------------------------------------------
  // Properties of the plan

  /** A mention part `@name␠` becomes: paste " ", paste "@name" + "k",
      backspace, click the popup. */
  lemma MentionActions(t: string)
    requires IsMentionToken(t)
    ensures PartActions(Mention(t)) == [Paste(" "), Paste(Trim(t) + "k"), Backspace, ClickMention]
  {
    TrimOfToken(t);
  }

  function MentionCount(ps: seq<Part>): nat {
    if ps == [] then 0 else (if ps[0].Mention? then 1 else 0) + MentionCount(ps[1..])
  }

  lemma PartActionsCount(a: Action, p: Part)
    requires a.Backspace? || a.ClickMention? || a.PressEnter? || a.InitInput?
    ensures CountOf(a, PartActions(p)) ==
      if p.Mention? && (a.Backspace? || a.ClickMention?) then 1 else 0
  {
    match p
    case Mention(t) =>
      var w, x, y, z := Paste(" "), Paste(MentionName(t) + "k"), Backspace, ClickMention;
      assert PartActions(p) == [w] + [x] + [y] + [z];
      CountOfAppend(a, [w] + [x] + [y], [z]);
      CountOfAppend(a, [w] + [x], [y]);
      CountOfAppend(a, [w], [x]);
      CountOfSingle(a, w);
      CountOfSingle(a, x);
      CountOfSingle(a, y);
      CountOfSingle(a, z);
    case Plain(t) =>
      CountOfSingle(a, Paste(t));
  }

  lemma {:induction false} PartsFromCounts(ps: seq<Part>, k: nat)
    requires k <= |ps|
    ensures CountOf(PressEnter, PartsFrom(ps, k)) == 0
    ensures CountOf(InitInput, PartsFrom(ps, k)) == 0
    ensures CountOf(ClickMention, PartsFrom(ps, k)) == MentionCount(ps[k..])
    ensures CountOf(Backspace, PartsFrom(ps, k)) == MentionCount(ps[k..])
    decreases |ps| - k
  {
    if k < |ps| {
      PartsFromCounts(ps, k + 1);
      assert ps[k..][0] == ps[k] && ps[k..][1..] == ps[k + 1..];
      var head := PartActions(ps[k]);
      var rest := PartsFrom(ps, k + 1);
      PartsFromStep(ps, k);
      PartActionsCount(PressEnter, ps[k]);
      PartActionsCount(InitInput, ps[k]);
      PartActionsCount(ClickMention, ps[k]);
      PartActionsCount(Backspace, ps[k]);
      CountOfAppend(PressEnter, head, rest);
      CountOfAppend(InitInput, head, rest);
      CountOfAppend(ClickMention, head, rest);
      CountOfAppend(Backspace, head, rest);
    }
  }

  lemma {:induction false} PartsFromLength(ps: seq<Part>, k: nat)
    requires k <= |ps|
    ensures |PartsFrom(ps, k)| == |ps| - k + 3 * MentionCount(ps[k..])
    decreases |ps| - k
  {
    if k < |ps| {
      PartsFromLength(ps, k + 1);
      assert ps[k..][0] == ps[k] && ps[k..][1..] == ps[k + 1..];
      PartsFromStep(ps, k);
    }
  }

  /** The shape of every plan: init first (also for an empty message), a
      final Enter exactly when `autoSend`, and four helper calls per mention
      plus one per plain part in between. */
  lemma PlanShape(ps: seq<Part>, autoSend: bool)
    ensures Plan(ps, autoSend)[0] == InitInput
    ensures CountOf(InitInput, Plan(ps, autoSend)) == 1
    ensures autoSend <==> Plan(ps, autoSend)[|Plan(ps, autoSend)| - 1] == PressEnter
    ensures CountOf(PressEnter, Plan(ps, autoSend)) == if autoSend then 1 else 0
    ensures CountOf(ClickMention, Plan(ps, autoSend)) == MentionCount(ps)
    ensures |Plan(ps, autoSend)| == 1 + |ps| + 3 * MentionCount(ps) + (if autoSend then 1 else 0)
  {
    var body := PartsFrom(ps, 0);
    PartsFromCounts(ps, 0);
    PartsFromLength(ps, 0);
    assert ps[0..] == ps;
    FrameShape(body, autoSend);
    var tail: seq<Action> := if autoSend then [PressEnter] else [];
    CountOfAppend(InitInput, [InitInput] + body, tail);
    CountOfAppend(InitInput, [InitInput], body);
    CountOfAppend(ClickMention, [InitInput] + body, tail);
    CountOfAppend(ClickMention, [InitInput], body);
  }

  /** The texts pasted for one part. */
  function PastedOf(p: Part): seq<string> {
    match p
    case Plain(t) => [t]
    case Mention(t) => [" ", MentionName(t) + "k"]
  }

  /** The texts pasted for the parts. */
  function PastedFor(ps: seq<Part>): seq<string> {
    if ps == [] then [] else PastedOf(ps[0]) + PastedFor(ps[1..])
  }

  lemma PartPastes(p: Part)
    requires p.Mention? ==> IsMentionToken(p.text)
    ensures Pastes(PartActions(p)) == PastedOf(p)
  {
    match p
    case Mention(t) =>
      MentionActions(t);
      var w, x, y, z := Paste(" "), Paste(MentionName(t) + "k"), Backspace, ClickMention;
      assert PartActions(p) == [w, x] + [y, z];
      PastesAppend([w, x], [y, z]);
      assert [w, x] == [w] + [x] && [y, z] == [y] + [z];
      PastesAppend([w], [x]);
      PastesAppend([y], [z]);
      PastesSingle(w);
      PastesSingle(x);
      PastesSingle(y);
      PastesSingle(z);
    case Plain(t) =>
      PastesSingle(Paste(t));
  }

  lemma {:induction false} PastesFrom(ps: seq<Part>, k: nat)
    requires k <= |ps|
    requires forall i :: 0 <= i < |ps| && ps[i].Mention? ==> IsMentionToken(ps[i].text)
    ensures Pastes(PartsFrom(ps, k)) == PastedFor(ps[k..])
    decreases |ps| - k
  {
    if k < |ps| {
      PastesFrom(ps, k + 1);
      assert ps[k..][0] == ps[k] && ps[k..][1..] == ps[k + 1..];
      PartsFromStep(ps, k);
      PastesAppend(PartActions(ps[k]), PartsFrom(ps, k + 1));
      PartPastes(ps[k]);
    }
  }

  /** For any message, the pasted texts are, part by part: a plain part
      verbatim (one paste, line breaks included), and for a mention " " then
      the mention without its whitespace plus the sentinel "k". */
  lemma PlanPastes(message: string, autoSend: bool)
    ensures Pastes(Plan(Segments(message), autoSend)) == PastedFor(Segments(message))
  {
    var ps := Segments(message);
    SegmentsWellFormed(message);
    PastesFrom(ps, 0);
    assert ps[0..] == ps;
    PartsFromCounts(ps, 0);
    FrameShape(PartsFrom(ps, 0), autoSend);
  }
}

/** The imperative part of `sendMessage`: the helper calls it makes against
    the host, and the reassigned `result`. */
module MacOSSend {
  import opened Wrappers
  import opened Text
  import opened Segmentation
  import opened Actions
  import opened MacOS

  /** `sendMessage(chatName, message, autoSend)`: the helpers it calls are
      exactly `Plan(Segments(message), autoSend)`, and the returned record
      reflects the last helper's result only. (`chatName` is passed to the
      helpers but not used by them, so it is not a parameter here.) */
  method SendMessage(host: Host<AppleOutcome>, message: string, autoSend: bool)
    returns (res: ActionResult)
    modifies host
    ensures host.log == old(host.log) + Plan(Segments(message), autoSend)
    ensures host.log != [] && res == Finish(HelperResult(host.LastOutcome()))
  {
    var messageParts := SplitMessage(message);
    ghost var start := host.log;
    var o := host.Run(InitInput);
    var result := HelperResult(o);
    result := SendParts(host, messageParts, result);
    ActionsUpToAll(messageParts);
    ghost var body := PartsFrom(ClassifyAll(messageParts), 0);
    if autoSend {
      o := host.Run(PressEnter);
      result := HelperResult(o);
    }
    FrameLog(start, body, autoSend);
    res := Finish(result);
  }

  /** The loop over `messageParts`; `result` is reassigned by every helper
      call, starting from the init helper's result. */
  method SendParts(host: Host<AppleOutcome>, messageParts: seq<string>, init: ActionResult)
    returns (result: ActionResult)
    requires host.log != [] && init == HelperResult(host.LastOutcome())
    modifies host
    ensures host.log == old(host.log) + ActionsUpTo(messageParts, |messageParts|)
    ensures host.log != [] && result == HelperResult(host.LastOutcome())
  {
    ghost var start := host.log;
    result := init;
    var k := 0;
    while k < |messageParts|
      invariant 0 <= k <= |messageParts|
      invariant host.log == start + ActionsUpTo(messageParts, k)
      invariant host.log != [] && result == HelperResult(host.LastOutcome())
    {
      ghost var prefix := ActionsUpTo(messageParts, k);
      ActionsUpToStep(messageParts, k);
      result := SendPart(host, messageParts[k]);
      AppendAssoc(start, prefix, PartActions(Classify(messageParts[k])));
      k := k + 1;
    }
  }


  /** The helper calls for one entry of `messageParts`: a mention token is
      typed so that LINE opens its mention popup, anything else is pasted. */
  method SendPart(host: Host<AppleOutcome>, part: string) returns (result: ActionResult)
    modifies host
    ensures host.log == old(host.log) + PartActions(Classify(part))
    ensures host.log != [] && result == HelperResult(host.LastOutcome())
  {
    var o;
    if IsMentionToken(part) {
      var name := Trim(part) + "k";
      TrimOfToken(part);
      ghost var acts := [Paste(" "), Paste(name), Backspace, ClickMention];
      assert PartActions(Classify(part)) == acts;
      o := host.Run(Paste(" "));
      o := host.Run(Paste(name));
      assert host.log == old(host.log) + acts[..2];
      o := host.Run(Backspace);
      assert host.log == old(host.log) + acts[..3];
      o := host.Run(ClickMention);
      assert host.log == old(host.log) + acts[..4];
    } else {
      o := host.Run(Paste(part));
    }
    result := HelperResult(o);
  }
}
