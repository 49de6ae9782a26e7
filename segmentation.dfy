/**
 * Message segmentation, shared by both backends' `sendMessage`:
 * `message.split(/(@\S+\s)/g)` followed by the accumulate-and-push loop that
 * builds `messageParts`.
 */
module Segmentation {
  import opened Text

  /** A segment of an outgoing message, as the send loop classifies it. */
  datatype Part = Plain(text: string) | Mention(text: string)

  /** Index of the first whitespace character at or after `j`, or `|s|`:
      the end of the maximal non-whitespace run starting at `j`. */
  function RunEnd(s: string, j: nat): (e: nat)
    requires j <= |s|
    ensures j <= e <= |s|
    ensures forall k :: j <= k < e ==> !IsSpace(s[k])
    ensures e < |s| ==> IsSpace(s[e])
    decreases |s| - j
  {
    if j == |s| || IsSpace(s[j]) then j else RunEnd(s, j + 1)
  }

  /** The regular expression `@\S+\s` matches at index `i` (a sticky match):
      `@`, a non-empty non-whitespace run, and a whitespace character after
      that run. A run that reaches the end of the string does not match. */
  predicate MentionAt(s: string, i: nat) {
    i + 1 < |s| && s[i] == '@' && !IsSpace(s[i + 1]) && RunEnd(s, i + 1) < |s|
  }

  /** End (exclusive) of the match at `i`: it includes the one whitespace
      character that ends the run. */
  function MatchEnd(s: string, i: nat): (e: nat)
    requires MentionAt(s, i)
    ensures i + 3 <= e <= |s|
  {
    RunEnd(s, i + 1) + 1
  }

  /** `part.match(/^@\S+\s$/)`: the whole of `t` is one mention token. */
  predicate IsMentionToken(t: string) {
    |t| >= 3 && t[0] == '@' && IsSpace(t[|t| - 1])
    && forall k :: 1 <= k < |t| - 1 ==> !IsSpace(t[k])
  }

  /** `s.split(/(@\S+\s)/g)` from a piece starting at `p`, scanning at `q`:
      every match adds the text before it and the captured match; the text
      after the last match is added at the end. */
  function SplitFrom(s: string, p: nat, q: nat): seq<string>
    requires p <= q <= |s|
    decreases |s| - q
  {
    if q == |s| then [s[p..]]
    else if MentionAt(s, q) then
      [s[p..q], s[q..MatchEnd(s, q)]] + SplitFrom(s, MatchEnd(s, q), MatchEnd(s, q))
    else SplitFrom(s, p, q + 1)
  }

  function Split(s: string): seq<string> {
    SplitFrom(s, 0, 0)
  }

  /** What the accumulate loop still produces from `pieces` when it holds
      `current` in `currentPart`. */
  function Group(pieces: seq<string>, current: string): seq<string> {
    if pieces == [] then (if current != "" then [current] else [])
    else if IsMentionToken(pieces[0]) then
      (if current != "" then [current] else []) + [pieces[0]] + Group(pieces[1..], "")
    else Group(pieces[1..], current + pieces[0])
  }

  /** Classification made by the second loop's `part.match(/^@\S+\s$/)`. */
  function Classify(t: string): Part {
    if IsMentionToken(t) then Mention(t) else Plain(t)
  }

  function ClassifyAll(ts: seq<string>): (ps: seq<Part>)
    ensures |ps| == |ts|
    ensures forall i :: 0 <= i < |ts| ==> ps[i] == Classify(ts[i])
  {
    if ts == [] then [] else [Classify(ts[0])] + ClassifyAll(ts[1..])
  }

  function PlainIfAny(t: string): seq<Part> {
    if t == "" then [] else [Plain(t)]
  }

  /** Reference segmentation by a leftmost scan: the text between mention
      matches becomes a `Plain` part when it is not empty; each match, with
      its ending whitespace, becomes a `Mention` part. */
  function SegmentsFrom(s: string, p: nat, q: nat): seq<Part>
    requires p <= q <= |s|
    decreases |s| - q
  {
    if q == |s| then PlainIfAny(s[p..])
    else if MentionAt(s, q) then
      PlainIfAny(s[p..q]) + [Mention(s[q..MatchEnd(s, q)])]
      + SegmentsFrom(s, MatchEnd(s, q), MatchEnd(s, q))
    else SegmentsFrom(s, p, q + 1)
  }

  function Segments(s: string): seq<Part> {
    SegmentsFrom(s, 0, 0)
  }

  /** The split-and-accumulate loop of `sendMessage`
      (the same code in both backends): it returns `messageParts`. */
  method SplitMessage(message: string) returns (messageParts: seq<string>)
    ensures ClassifyAll(messageParts) == Segments(message)
  {
    var parts := Split(message);
    messageParts := [];
    var currentPart := "";
    var i := 0;
    while i < |parts|
      invariant 0 <= i <= |parts|
      invariant messageParts + Group(parts[i..], currentPart) == Group(parts, "")
    {
      var part := parts[i];
      assert parts[i..][0] == part && parts[i..][1..] == parts[i + 1..];
      if IsMentionToken(part) {
        if currentPart != "" {
          messageParts := messageParts + [currentPart];
          currentPart := "";
        }
        messageParts := messageParts + [part];
      } else {
        currentPart := currentPart + part;
      }
      i := i + 1;
    }
    if currentPart != "" {
      messageParts := messageParts + [currentPart];
    }
    GroupOfSplit(message);
  }

  // ---------------------------------------------------------------------
  // Facts about matches

  /** A match is a mention token. */
  lemma MatchIsToken(s: string, i: nat)
    requires MentionAt(s, i)
    ensures IsMentionToken(s[i..MatchEnd(s, i)])
  {
    var t := s[i..MatchEnd(s, i)];
    forall k | 1 <= k < |t| - 1 ensures !IsSpace(t[k]) {
      assert t[k] == s[i + k];
    }
  }

  /** A piece of text that starts at no match is not a mention token. */
  lemma {:induction false} TokenStartsMatch(s: string, p: nat, q: nat)
    requires p <= q <= |s|
    requires IsMentionToken(s[p..q])
    ensures MentionAt(s, p)
  {
    var t := s[p..q];
    assert s[p] == t[0] && s[p + 1] == t[1] && s[q - 1] == t[|t| - 1];
    forall k | p + 1 <= k < q - 1 ensures !IsSpace(s[k]) {
      assert s[k] == t[k - p];
    }
    assert IsSpace(s[q - 1]);
  }

  lemma ClassifyAllAppend(a: seq<string>, b: seq<string>)
    ensures ClassifyAll(a + b) == ClassifyAll(a) + ClassifyAll(b)
  {
  }

  // ---------------------------------------------------------------------
  // The loop computes the reference segmentation

  /** The accumulate loop on a plain piece `x` followed by a match `m`. */
  lemma GroupPlainThenMention(x: string, m: string, rest: seq<string>)
    requires !IsMentionToken(x) && IsMentionToken(m)
    ensures ClassifyAll(Group([x, m] + rest, ""))
      == PlainIfAny(x) + [Mention(m)] + ClassifyAll(Group(rest, ""))
  {
    var pieces := [x, m] + rest;
    var front := if x != "" then [x] else [];
    assert Group(pieces, "") == Group([m] + rest, x) by {
      assert pieces[0] == x && pieces[1..] == [m] + rest;
      assert "" + x == x;
    }
    assert Group([m] + rest, x) == front + [m] + Group(rest, "") by {
      assert ([m] + rest)[0] == m && ([m] + rest)[1..] == rest;
    }
    assert ClassifyAll(front + [m]) == PlainIfAny(x) + [Mention(m)] by {
      ClassifyAllAppend(front, [m]);
    }
    ClassifyAllAppend(front + [m], Group(rest, ""));
  }

  lemma {:induction false} GroupOfSplitFrom(s: string, p: nat, q: nat)
    requires p <= q <= |s|
    requires forall k :: p <= k < q ==> !MentionAt(s, k)
    ensures ClassifyAll(Group(SplitFrom(s, p, q), "")) == SegmentsFrom(s, p, q)
    decreases |s| - q
  {
    if q == |s| {
      if p < q && IsMentionToken(s[p..]) {
        TokenStartsMatch(s, p, q);
      }
      assert "" + s[p..] == s[p..];
      assert Group([s[p..]], "") == Group([], s[p..]);
    } else if MentionAt(s, q) {
      var e := MatchEnd(s, q);
      if p < q && IsMentionToken(s[p..q]) {
        TokenStartsMatch(s, p, q);
      }
      MatchIsToken(s, q);
      GroupPlainThenMention(s[p..q], s[q..e], SplitFrom(s, e, e));
      GroupOfSplitFrom(s, e, e);
    } else {
      GroupOfSplitFrom(s, p, q + 1);
    }
  }

  lemma GroupOfSplit(s: string)
    ensures ClassifyAll(Group(Split(s), "")) == Segments(s)
  {
    GroupOfSplitFrom(s, 0, 0);
  }

  // ---------------------------------------------------------------------
  // Properties of the segmentation

  /** Concatenation of the parts' texts. */
  function Joined(ps: seq<Part>): string {
    if ps == [] then "" else ps[0].text + Joined(ps[1..])
  }

  lemma {:induction false} JoinedAppend(a: seq<Part>, b: seq<Part>)
    ensures Joined(a + b) == Joined(a) + Joined(b)
  {
    if a == [] {
      assert a + b == b;
    } else {
      assert (a + b)[1..] == a[1..] + b;
      JoinedAppend(a[1..], b);
    }
  }

  lemma JoinedPlainIfAny(x: string)
    ensures Joined(PlainIfAny(x)) == x
  {
    if x != "" {
      assert PlainIfAny(x)[1..] == [];
    }
  }

  lemma JoinedSingle(part: Part)
    ensures Joined([part]) == part.text
  {
    assert [part][1..] == [];
  }

  lemma JoinedAround(x: string, part: Part, rest: seq<Part>)
    ensures Joined(PlainIfAny(x) + [part] + rest) == x + part.text + Joined(rest)
  {
    JoinedPlainIfAny(x);
    JoinedSingle(part);
    JoinedAppend(PlainIfAny(x) + [part], rest);
    JoinedAppend(PlainIfAny(x), [part]);
  }

  /** The mention case of `JoinedFrom`, given the result for the rest. */
  lemma JoinedMentionStep(s: string, p: nat, q: nat)
    requires p <= q < |s| && MentionAt(s, q)
    requires Joined(SegmentsFrom(s, MatchEnd(s, q), MatchEnd(s, q))) == s[MatchEnd(s, q)..]
    ensures Joined(SegmentsFrom(s, p, q)) == s[p..]
  {
    var e := MatchEnd(s, q);
    JoinedAround(s[p..q], Mention(s[q..e]), SegmentsFrom(s, e, e));
    assert s[p..q] + s[q..e] == s[p..e];
    assert s[p..e] + s[e..] == s[p..];
  }

  lemma {:induction false} JoinedFrom(s: string, p: nat, q: nat)
    requires p <= q <= |s|
    ensures Joined(SegmentsFrom(s, p, q)) == s[p..]
    decreases |s| - q
  {
    if q == |s| {
      JoinedPlainIfAny(s[p..]);
    } else if MentionAt(s, q) {
      JoinedFrom(s, MatchEnd(s, q), MatchEnd(s, q));
      JoinedMentionStep(s, p, q);
    } else {
      assert SegmentsFrom(s, p, q) == SegmentsFrom(s, p, q + 1);
      JoinedFrom(s, p, q + 1);
    }
  }

  /** Round trip: the parts concatenate back to the message exactly. */
  lemma SegmentsJoin(s: string)
    ensures Joined(Segments(s)) == s
  {
    JoinedFrom(s, 0, 0);
  }

  /** The shape guarantees of the parts: none is empty, no two plain parts
      are adjacent, and each mention is `@`, non-whitespace, one whitespace. */
  predicate WellFormed(ps: seq<Part>) {
    (forall i :: 0 <= i < |ps| ==> ps[i].text != "")
    && (forall i :: 0 <= i < |ps| && ps[i].Mention? ==> IsMentionToken(ps[i].text))
    && (forall i :: 0 <= i < |ps| - 1 ==> ps[i].Mention? || ps[i + 1].Mention?)
  }

  lemma WellFormedAround(front: seq<Part>, m: Part, rest: seq<Part>)
    requires WellFormed(front) && |front| <= 1 && WellFormed(rest)
    requires m.Mention? && IsMentionToken(m.text)
    ensures WellFormed(front + [m] + rest)
  {
    var ps := front + [m] + rest;
    forall i | 0 <= i < |ps| - 1 ensures ps[i].Mention? || ps[i + 1].Mention? {
      if i > |front| {
        assert ps[i] == rest[i - |front| - 1] && ps[i + 1] == rest[i - |front|];
      }
    }
    forall i | 0 <= i < |ps| ensures ps[i].text != "" {
      if i > |front| {
        assert ps[i] == rest[i - |front| - 1];
      }
    }
    forall i | 0 <= i < |ps| && ps[i].Mention? ensures IsMentionToken(ps[i].text) {
      if i > |front| {
        assert ps[i] == rest[i - |front| - 1];
      }
    }
  }

  lemma {:induction false} WellFormedFrom(s: string, p: nat, q: nat)
    requires p <= q <= |s|
    ensures WellFormed(SegmentsFrom(s, p, q))
    decreases |s| - q
  {
    if q == |s| {
    } else if MentionAt(s, q) {
      var e := MatchEnd(s, q);
      MatchIsToken(s, q);
      WellFormedFrom(s, e, e);
      WellFormedAround(PlainIfAny(s[p..q]), Mention(s[q..e]), SegmentsFrom(s, e, e));
    } else {
      WellFormedFrom(s, p, q + 1);
    }
  }

  /** Segmentation output satisfies the three shape guarantees. */
  lemma SegmentsWellFormed(s: string)
    ensures WellFormed(Segments(s))
  {
    WellFormedFrom(s, 0, 0);
  }

  predicate NoMatchFrom(s: string, q: nat) {
    forall k :: q <= k < |s| ==> !MentionAt(s, k)
  }

  predicate AllPlain(ps: seq<Part>) {
    forall i :: 0 <= i < |ps| ==> ps[i].Plain?
  }

  lemma {:induction false} AllPlainFrom(s: string, p: nat, q: nat)
    requires p <= q <= |s|
    ensures NoMatchFrom(s, q) <==> AllPlain(SegmentsFrom(s, p, q))
    ensures NoMatchFrom(s, q) ==> SegmentsFrom(s, p, q) == PlainIfAny(s[p..])
    decreases |s| - q
  {
    if q == |s| {
    } else if MentionAt(s, q) {
      var e := MatchEnd(s, q);
      var ps := SegmentsFrom(s, p, q);
      assert ps[|PlainIfAny(s[p..q])|] == Mention(s[q..e]);
    } else {
      AllPlainFrom(s, p, q + 1);
      assert NoMatchFrom(s, q) <==> NoMatchFrom(s, q + 1);
    }
  }

  /** A message with no whitespace-terminated `@` token is one plain part
      (none when it is empty), and only such a message has no mention part. */
  lemma NoMentionIsOnePart(s: string)
    ensures NoMatchFrom(s, 0) <==> AllPlain(Segments(s))
    ensures NoMatchFrom(s, 0) ==> Segments(s) == (if s == "" then [] else [Plain(s)])
  {
    AllPlainFrom(s, 0, 0);
    assert s[0..] == s;
  }

  /** "contact @bob": the `@` run reaches the end of the string, so there is
      no mention and the message stays one plain part. */
  lemma ContactBobExample()
    ensures Segments("contact @bob") == [Plain("contact @bob")]
  {
    var s := "contact @bob";
    assert RunEnd(s, 12) == 12;
    assert RunEnd(s, 11) == 12;
    assert RunEnd(s, 10) == 12;
    assert RunEnd(s, 9) == 12;
    assert !MentionAt(s, 8);
    assert forall k :: 0 <= k < |s| && k != 8 ==> s[k] != '@';
    NoMentionIsOnePart(s);
  }

  /** The mention keeps its whitespace; a trailing `@bob` is plain text. */
  lemma AliceBobExample()
    ensures Segments("@alice hello @bob") == [Mention("@alice "), Plain("hello @bob")]
  {
    var s := "@alice hello @bob";
    LeadingAliceMatches(s);
    TrailingBobIsPlain(s);
    assert SegmentsFrom(s, 0, 0) == PlainIfAny(s[0..0]) + [Mention(s[0..7])] + SegmentsFrom(s, 7, 7);
    assert s[0..0] == "" && s[0..7] == "@alice ";
  }

  /** The match at the start of "@alice hello @bob" is "@alice ". */
  lemma LeadingAliceMatches(s: string)
    requires s == "@alice hello @bob"
    ensures MentionAt(s, 0) && MatchEnd(s, 0) == 7
  {
    assert |s| == 17;
    assert s[0] == '@' && s[1] == 'a' && s[6] == ' ';
    assert !IsSpace(s[1]);
    assert RunEnd(s, 6) == 6;
    assert RunEnd(s, 5) == 6;
    assert RunEnd(s, 4) == 6;
    assert RunEnd(s, 3) == 6;
    assert RunEnd(s, 2) == 6;
    assert RunEnd(s, 1) == 6;
  }

  /** The piece after "@alice ": its only `@` starts a run that reaches the end. */
  lemma TrailingBobIsPlain(s: string)
    requires s == "@alice hello @bob"
    ensures SegmentsFrom(s, 7, 7) == [Plain("hello @bob")]
  {
    assert RunEnd(s, 17) == 17;
    assert RunEnd(s, 16) == 17;
    assert RunEnd(s, 15) == 17;
    assert RunEnd(s, 14) == 17;
    assert !MentionAt(s, 13);
    assert forall k :: 7 <= k < |s| && k != 13 ==> s[k] != '@';
    AllPlainFrom(s, 7, 7);
    assert s[7..] == "hello @bob";
  }

  /** A mention part without its closing whitespace character. */
  function MentionName(t: string): string {
    if t == [] then t else t[..|t| - 1]
  }

  /** `part.trim()` of a mention part drops exactly its ending whitespace. */
  lemma TrimOfToken(t: string)
    requires IsMentionToken(t)
    ensures Trim(t) == t[..|t| - 1] == MentionName(t)
  {
    var u := t[..|t| - 1];
    assert t[0] == '@';
    TrimStartKeep(t);
    TrimEndDrop(t);
    assert u[|u| - 1] == t[|t| - 2];
    assert !IsSpace(t[|t| - 2]);
    TrimEndKeep(u);
  }
}
