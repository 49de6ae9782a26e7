/**
 * The primitive actions a backend's `sendMessage` performs, the
 * `{success, error}` records the helpers return, and the host that runs the
 * generated scripts. Running a script is I/O: the host records each action
 * it is asked to run and answers with an outcome supplied as an input.
 */
module Actions {
  import opened Wrappers

  /** One helper call of `sendMessage`. `Paste(clip)` puts `clip` on the
      clipboard and pastes it. */
  datatype Action =
    | InitInput      // `_sendSingleMessageInit`: focus the input box and clear it
    | Paste(clip: string)   // `_sendSingleMessage`
    | Backspace      // `_sendSingleMessageBackspace`
    | ClickMention   // `_sendSingleMessageClickMention` (macOS)
    | ShiftEnter     // `_sendShiftEnter` (Windows)
    | PressEnter     // `_sendSingleMessageEnter`

  /** `{ success, error }`; `None` stands for `null` or a missing field. */
  datatype ActionResult = ActionResult(success: bool, error: Option<string>)

  /** The object `sendMessage` returns, built from the last helper's result:
      `{success: true, error: null}` or `{success: false, error: result.error}`. */
  function Finish(last: ActionResult): (r: ActionResult)
    ensures r.success == last.success
    ensures r.success ==> r.error == None
    ensures !r.success ==> r.error == last.error
  {
    if last.success then ActionResult(true, None) else ActionResult(false, last.error)
  }

  /** The frame every plan has: the input-box init first, the part actions,
      and a final Enter only when `autoSend`. */
  function Frame(body: seq<Action>, autoSend: bool): seq<Action> {
    [InitInput] + body + (if autoSend then [PressEnter] else [])
  }

  /** Proof-cost helper: running the init helper, the body and the
      optional Enter one after another appends `Frame(body, autoSend)`. */
  lemma FrameLog(start: seq<Action>, body: seq<Action>, autoSend: bool)
    ensures start + [InitInput] + body + (if autoSend then [PressEnter] else [])
      == start + Frame(body, autoSend)
  {
    AppendAssoc(start, [InitInput], body);
    if autoSend {
      AppendAssoc(start, [InitInput] + body, [PressEnter]);
    } else {
      assert [InitInput] + body + [] == [InitInput] + body;
    }
  }

  /** Position and size of a UI element or window, in global screen coordinates. */
  datatype Rect = Rect(x: int, y: int, w: int, h: int)

  datatype Point = Point(x: int, y: int)

  predicate Inside(p: Point, r: Rect) {
    r.x <= p.x < r.x + r.w && r.y <= p.y < r.y + r.h
  }

  /** One step of a generated script, as the host would carry it out. */
  datatype Primitive =
    | ClickAt(x: int, y: int)
    | Keys(keys: string)    // a key chord, e.g. "cmd+a" or AutoHotkey's "^a"
    | KeyCode(code: nat)    // AppleScript `key code`
    | SetClipboard(text: string)
    | Sleep(ms: nat)

  function CountOf<T(==)>(a: T, plan: seq<T>): nat {
    if plan == [] then 0 else (if plan[0] == a then 1 else 0) + CountOf(a, plan[1..])
  }

  lemma {:induction false} CountOfAppend<T>(a: T, p: seq<T>, q: seq<T>)
    ensures CountOf(a, p + q) == CountOf(a, p) + CountOf(a, q)
  {
    if p == [] {
      assert p + q == q;
    } else {
      assert (p + q)[1..] == p[1..] + q;
      CountOfAppend(a, p[1..], q);
    }
  }

  lemma {:induction false} CountOfNotIn<T>(a: T, plan: seq<T>)
    requires a !in plan
    ensures CountOf(a, plan) == 0
  {
    if plan != [] {
      assert a !in plan[1..];
      CountOfNotIn(a, plan[1..]);
    }
  }

  /** Proof-cost helper: states concatenation's associativity once so that
      loops appending to a log need not rediscover it. */
  lemma AppendAssoc<T>(a: seq<T>, b: seq<T>, c: seq<T>)
    ensures a + b + c == a + (b + c)
  {
  }

  lemma CountOfSingle<T>(a: T, x: T)
    ensures CountOf(a, [x]) == if x == a then 1 else 0
  {
    assert [x][1..] == [];
  }

  /** The texts pasted by a plan, in order. */
  function Pastes(plan: seq<Action>): seq<string> {
    if plan == [] then []
    else (if plan[0].Paste? then [plan[0].clip] else []) + Pastes(plan[1..])
  }

  lemma PastesSingle(a: Action)
    ensures Pastes([a]) == if a.Paste? then [a.clip] else []
  {
    assert [a][1..] == [];
  }

  lemma {:induction false} PastesAppend(p: seq<Action>, q: seq<Action>)
    ensures Pastes(p + q) == Pastes(p) + Pastes(q)
  {
    if p == [] {
      assert p + q == q;
    } else {
      assert (p + q)[1..] == p[1..] + q;
      PastesAppend(p[1..], q);
    }
  }

  /** Init always comes first (also for an empty message), the plan ends in
      Enter exactly when `autoSend`, and Enter is sent at most once, provided
      the part actions themselves never press Enter. */
  lemma {:induction false} FrameShape(body: seq<Action>, autoSend: bool)
    requires CountOf(PressEnter, body) == 0
    ensures |Frame(body, autoSend)| == |body| + 1 + (if autoSend then 1 else 0)
    ensures Frame(body, autoSend)[0] == InitInput
    ensures autoSend <==> Frame(body, autoSend)[|Frame(body, autoSend)| - 1] == PressEnter
    ensures CountOf(PressEnter, Frame(body, autoSend)) == if autoSend then 1 else 0
    ensures Pastes(Frame(body, autoSend)) == Pastes(body)
  {
    var tail: seq<Action> := if autoSend then [PressEnter] else [];
    CountOfAppend(PressEnter, [InitInput] + body, tail);
    CountOfAppend(PressEnter, [InitInput], body);
    PastesAppend([InitInput] + body, tail);
    PastesAppend([InitInput], body);
    assert Pastes([InitInput]) == [] && Pastes(tail) == [];
    if !autoSend && body != [] {
      var plan := Frame(body, autoSend);
      assert plan[|plan| - 1] == body[|body| - 1];
      assert body == body[..|body| - 1] + [body[|body| - 1]];
      CountOfAppend(PressEnter, body[..|body| - 1], [body[|body| - 1]]);
    }
  }

  /** The last element of a non-empty sequence, by recursion so that the
      verifier unfolds it only where a proof needs it. */
  function LastOf<T>(s: seq<T>): (r: T)
    requires s != []
    ensures r == s[|s| - 1]
  {
    if |s| == 1 then s[0] else LastOf(s[1..])
  }

  /** The operating system as the backends see it: each script run is
      recorded in `log`, and its outcome is the input `outcome` applied to
      the run's number and the action. */
  class Host<O> {
    var log: seq<Action>
    const outcome: (nat, Action) -> O

    constructor (outcome: (nat, Action) -> O)
      ensures log == [] && this.outcome == outcome
    {
      this.outcome := outcome;
      log := [];
    }

    /** Runs the script of one action. */
    method Run(a: Action) returns (o: O)
      modifies this
      ensures log == old(log) + [a]
      ensures o == outcome(|old(log)|, a)
      ensures log != [] && LastOutcome() == o
    {
      o := outcome(|log|, a);
      log := log + [a];
    }

    /** The outcome of the most recent run: the oracle's answer for the
        last logged action at its position. */
    function LastOutcome(): O
      reads this
      requires log != []
    {
      outcome(|log| - 1, LastOf(log))
    }
  }
}
