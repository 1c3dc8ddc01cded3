/**
  Rule-based context compaction: everything before the current Run's wake-up folds into one history
  message; the current Run's earlier steps fold too when that is not enough.
 */
module Compaction {
  import opened Prelude
  import opened Messages
  import opened Completion

  const ARGUMENT_RUNES := 160
  const ANSWER_RUNES := 1000

  // ---------------------------------------------------------------------------------------------
  // Folding
  // ---------------------------------------------------------------------------------------------

  // The last result recorded for an id.
  function ResultOf(ms: seq<Message>, id: string): Option<Result> {
    if ms == [] then None
    else
      var m := ms[|ms| - 1];
      if m.ToolResult? && m.id == id then Some(m.content) else ResultOf(ms[..|ms| - 1], id)
  }

  predicate Ok(r: Option<Result>) {
    r.Some? && (r.value.Success? || (r.value.Digest? && r.value.ok))
  }

  predicate Unknown(r: Option<Result>) {
    r.Some? && r.value.Failure? && r.value.outcome == Some("unknown")
  }

  function LineOf(call: Call): Line {
    CallLine(call.name, Truncate(call.arguments, ARGUMENT_RUNES))
  }

  // What must be remembered of a mutation: that it happened, or that it may have.
  function EvidenceOf(r: Result): Evidence {
    match r
    case Success(_, evidence) => Succeeded(evidence)
    case Digest(text, _) => Succeeded(text)
    case Failure(code, message, _, _) => Uncertain(code, message)
    case Text(raw) => Succeeded(raw)
    case BareFailure => Succeeded("")
  }

  function EvidenceLineOf(call: Call, r: Result): Line {
    EvidenceLine(call.name, Truncate(call.arguments, ARGUMENT_RUNES), EvidenceOf(r))
  }

  datatype Folding = Folding(lines: seq<Line>, seen: set<Line>)

  /** compactToolCallLine: the line a call leaves behind, if any */
  function FoldCall(f: Folding, call: Call, r: Option<Result>): Folding {
    var line := LineOf(call);
    if call.name == "skill_get" && Ok(r) && line !in f.seen then
      Folding(f.lines + [SkillLine(line.name, line.arguments, r.value)], f.seen + {line})
    else if !IsMutation(call.name) then
      if !Ok(r) || line in f.seen then f else Folding(f.lines + [line], f.seen + {line})
    else if !Ok(r) && !Unknown(r) then f
    else Folding(f.lines + [EvidenceLineOf(call, r.value)], f.seen)
  }

  function FoldCalls(f: Folding, calls: seq<Call>, ms: seq<Message>): Folding {
    if calls == [] then f
    else FoldCall(FoldCalls(f, calls[..|calls| - 1], ms), calls[|calls| - 1], ResultOf(ms, calls[|calls| - 1].id))
  }

  predicate Rejected(ms: seq<Message>, i: nat)
    requires i < |ms|
  {
    ms[i].Assistant? && ms[i].calls == [] && i + 1 < |ms| && ms[i + 1].Instruction?
  }

  // One message of the folded range.
  function FoldOne(f: Folding, ms: seq<Message>, i: nat): Folding
    requires i < |ms|
  {
    var m := ms[i];
    if m.History? then Folding(f.lines + m.lines, f.seen + set line | line in m.lines)
    else if IsWake(m) then f.(lines := f.lines + [WakeLine(Shrink(m.fields))])
    else if m.Mention? then f.(lines := f.lines + [ChatLine(Truncate(m.text, ANSWER_RUNES))])
    else if Rejected(ms, i) || !m.Assistant? then f
    else
      var answered := if m.answer.Some? && m.answer.value != ""
        then f.(lines := f.lines + [AnswerLine(Truncate(m.answer.value, ANSWER_RUNES))]) else f;
      FoldCalls(answered, m.calls, ms)
  }

  function FoldUpTo(ms: seq<Message>, n: nat): Folding
    requires n <= |ms|
  {
    if n == 0 then Folding([], {}) else FoldOne(FoldUpTo(ms, n - 1), ms, n - 1)
  }

  /** foldMessages */
  function Fold(ms: seq<Message>): Message {
    History(FoldUpTo(ms, |ms|).lines)
  }

  method FoldMessages(ms: seq<Message>) returns (history: Message)
    ensures history == Fold(ms)
  {
    hide FoldCall, ResultOf;
    var results: map<string, Result> := map[];
    NoResults();
    for i := 0 to |ms|
      invariant Recorded(results, ms[..i])
    {
      assert ms[..i + 1] == ms[..i] + [ms[i]];
      RecordNext(results, ms[..i], ms[i]);
      if ms[i].ToolResult? {
        results := results[ms[i].id := ms[i].content];
      }
    }
    assert ms[..|ms|] == ms;
    var lines: seq<Line>, seen: set<Line> := [], {};
    for i := 0 to |ms|
      invariant Folding(lines, seen) == FoldUpTo(ms, i)
    {
      var m := ms[i];
      if m.History? {
        lines, seen := lines + m.lines, seen + set line | line in m.lines;
      } else if IsWake(m) {
        lines := lines + [WakeLine(Shrink(m.fields))];
      } else if m.Mention? {
        lines := lines + [ChatLine(Truncate(m.text, ANSWER_RUNES))];
      } else if !Rejected(ms, i) && m.Assistant? {
        if m.answer.Some? && m.answer.value != "" {
          lines := lines + [AnswerLine(Truncate(m.answer.value, ANSWER_RUNES))];
        }
        ghost var start := Folding(lines, seen);
        FoldNoCalls(start, ms);
        for j := 0 to |m.calls|
          invariant Folding(lines, seen) == FoldCalls(start, m.calls[..j], ms)
        {
          assert m.calls[..j + 1][..j] == m.calls[..j];
          var call := m.calls[j];
          var next := FoldCall(Folding(lines, seen), call, if call.id in results then Some(results[call.id]) else None);
          lines, seen := next.lines, next.seen;
        }
        assert m.calls[..|m.calls|] == m.calls;
      }
    }
    return History(lines);
  }

  ghost predicate Recorded(results: map<string, Result>, ms: seq<Message>) {
    forall id :: (if id in results then Some(results[id]) else None) == ResultOf(ms, id)
  }

  lemma {:induction false} NoResults()
    ensures Recorded(map[], [])
  {
  }

  lemma {:induction false} RecordNext(results: map<string, Result>, ms: seq<Message>, m: Message)
    requires Recorded(results, ms)
    ensures Recorded(if m.ToolResult? then results[m.id := m.content] else results, ms + [m])
  {
    assert (ms + [m])[..|ms|] == ms;
  }

  lemma {:induction false} FoldNoCalls(f: Folding, ms: seq<Message>)
    ensures FoldCalls(f, [], ms) == f
  {
  }

  // ---------------------------------------------------------------------------------------------
  // Choosing what to fold
  // ---------------------------------------------------------------------------------------------

  // The last wake-up message after the system prompt; 1 when there is none.
  function LastWake(ms: seq<Message>, n: nat): nat
    requires n <= |ms|
  {
    if n <= 1 then 1 else if IsWake(ms[n - 1]) then n - 1 else LastWake(ms, n - 1)
  }

  // The last assistant message beyond a position; 0 when there is none.
  function LastAnswer(ms: seq<Message>, beyond: nat, n: nat): (i: nat)
    requires n <= |ms|
    ensures i <= n
  {
    if n <= beyond + 1 then 0 else if ms[n - 1].Assistant? then n - 1 else LastAnswer(ms, beyond, n - 1)
  }

  predicate IsHistory(ms: seq<Message>, i: nat) {
    i < |ms| && ms[i].History?
  }

  // Replaces a range by its fold.
  function Replace(ms: seq<Message>, from: nat, to: nat): seq<Message>
    requires from <= to <= |ms|
  {
    ms[..from] + [Fold(ms[from..to])] + ms[to..]
  }

  datatype Compacted = Compacted(messages: seq<Message>, blocks: seq<nat>)

  predicate FoldsBefore(ms: seq<Message>) {
    var wake := LastWake(ms, |ms|);
    wake > 1 && !(wake == 2 && IsHistory(ms, 1))
  }

  predicate FoldsWithin(ms: seq<Message>, wake: nat) {
    var tail := LastAnswer(ms, wake + 1, |ms|);
    tail != 0 && !(tail == wake + 2 && IsHistory(ms, wake + 1))
  }

  lemma {:induction false} LastWakeFacts(ms: seq<Message>, n: nat)
    requires n <= |ms|
    ensures var i := LastWake(ms, n);
      && i >= 1 && (forall j | i < j < n :: !IsWake(ms[j]))
      && ((i < n && IsWake(ms[i])) || (i == 1 && forall j | 1 <= j < n :: !IsWake(ms[j])))
    decreases n
  {
    if n > 1 && !IsWake(ms[n - 1]) {
      LastWakeFacts(ms, n - 1);
    }
  }

  lemma {:induction false} LastAnswerFacts(ms: seq<Message>, beyond: nat, n: nat)
    requires n <= |ms|
    ensures var i := LastAnswer(ms, beyond, n);
      && (i != 0 ==> beyond < i < n && ms[i].Assistant? && forall j | i < j < n :: !ms[j].Assistant?)
      && (i == 0 ==> forall j | beyond < j < n :: !ms[j].Assistant?)
    decreases n
  {
    if n > beyond + 1 && !ms[n - 1].Assistant? {
      LastAnswerFacts(ms, beyond, n - 1);
    }
  }

  // The conversation after the first stage, and where its wake-up is.
  function Before(ms: seq<Message>): Compacted {
    var wake := LastWake(ms, |ms|);
    if FoldsBefore(ms) && wake <= |ms| then Compacted(Replace(ms, 1, wake), [1]) else Compacted(ms, [])
  }

  function WakeAfter(ms: seq<Message>): nat {
    if FoldsBefore(ms) then 2 else LastWake(ms, |ms|)
  }

  function Within(c: Compacted, wake: nat): Compacted {
    var tail := LastAnswer(c.messages, wake + 1, |c.messages|);
    if FoldsWithin(c.messages, wake) && wake + 1 <= tail <= |c.messages|
    then Compacted(Replace(c.messages, wake + 1, tail), c.blocks + [wake + 1]) else c
  }

  /** compactConversation */
  function Compact(ms: seq<Message>, enough: seq<Message> -> bool): Compacted {
    var first := Before(ms);
    if FoldsBefore(ms) && enough(first.messages) then first else Within(first, WakeAfter(ms))
  }

  lemma {:induction false} WakeBound(ms: seq<Message>)
    ensures var wake := LastWake(ms, |ms|); wake >= 1 && (wake > 1 ==> wake < |ms|)
  {
    LastWakeFacts(ms, |ms|);
  }

  lemma {:induction false} AnswerBound(ms: seq<Message>, beyond: nat)
    ensures var tail := LastAnswer(ms, beyond, |ms|); tail == 0 || beyond < tail < |ms|
  {
    LastAnswerFacts(ms, beyond, |ms|);
  }

  method FindWake(ms: seq<Message>) returns (wake: nat)
    ensures wake == LastWake(ms, |ms|)
  {
    wake := 1;
    var i := |ms| - 1;
    while i > 0
      invariant -1 <= i < |ms| && wake == 1 && LastWake(ms, i + 1) == LastWake(ms, |ms|)
    {
      if IsWake(ms[i]) {
        return i;
      }
      i := i - 1;
    }
  }

  method FindAnswer(ms: seq<Message>, beyond: nat) returns (tail: nat)
    ensures tail == LastAnswer(ms, beyond, |ms|)
  {
    tail := 0;
    var i := |ms| - 1;
    while i > beyond
      invariant -1 <= i < |ms| && tail == 0 && LastAnswer(ms, beyond, i + 1) == LastAnswer(ms, beyond, |ms|)
    {
      if ms[i].Assistant? {
        return i;
      }
      i := i - 1;
    }
  }

  /** The scans of the source find the ranges that Compact folds. */
  method CompactConversation(ms: seq<Message>, enough: seq<Message> -> bool) returns (c: Compacted)
    ensures c == Compact(ms, enough)
  {
    hide Fold, LastWake, LastAnswer;
    var wake := FindWake(ms);
    WakeBound(ms);
    c := Compacted(ms, []);
    if wake > 1 && !(wake == 2 && IsHistory(ms, 1)) {
      var folded := FoldMessages(ms[1..wake]);
      c := Compacted(ms[..1] + [folded] + ms[wake..], [1]);
      wake := 2;
      if enough(c.messages) {
        return;
      }
    }
    assert c == Before(ms) && wake == WakeAfter(ms);
    hide Before, WakeAfter;
    var tail := FindAnswer(c.messages, wake + 1);
    AnswerBound(c.messages, wake + 1);
    if tail != 0 && !(tail == wake + 2 && IsHistory(c.messages, wake + 1)) {
      var folded := FoldMessages(c.messages[wake + 1..tail]);
      c := Compacted(c.messages[..wake + 1] + [folded] + c.messages[tail..], c.blocks + [wake + 1]);
    }
  }

  // ---------------------------------------------------------------------------------------------
  // The protocol is kept
  // ---------------------------------------------------------------------------------------------

  // Results at the start of a conversation end before its first other message.
  lemma {:induction false} ResultsEnd(results: seq<Message>, a: seq<Message>, b: seq<Message>)
    requires AllResults(results) && results <= a + b && StartsFresh(b)
    ensures |results| <= |a|
    decreases |a|
  {
    if results != [] && a != [] {
      assert (a + b)[1..] == a[1..] + b;
      ResultsEnd(results[1..], a[1..], b);
    } else if a == [] {
      assert a + b == b;
    }
  }

  // The first block lies before the cut.
  lemma {:induction false} BlockFits(a: seq<Message>, b: seq<Message>)
    requires a != [] && Protocol(a + b) && StartsFresh(b)
    ensures |CallsOf(a[0])| < |a|
  {
    var ms, n := a + b, |CallsOf(a[0])|;
    ProtocolBlock(ms);
    assert ms[1..] == a[1..] + b;
    AnswersLength(CallsOf(ms[0]), ms[1..][..n]);
    hide Protocol, Answers;
    ResultsEnd(ms[1..][..n], a[1..], b);
  }

  lemma {:induction false} TailSlices<T>(a: seq<T>, b: seq<T>, n: nat)
    requires a != [] && n < |a|
    ensures (a + b)[0] == a[0] && (a + b)[1..][..n] == a[1..][..n] && (a + b)[1..][n..] == a[1..][n..] + b
  {
    assert (a + b)[1..] == a[1..] + b;
  }

  lemma {:induction false} BlockInside(a: seq<Message>, b: seq<Message>)
    requires a != [] && Protocol(a + b) && StartsFresh(b)
    ensures var n, tail := |CallsOf(a[0])|, a[1..];
      !a[0].ToolResult? && n <= |tail| && Answers(CallsOf(a[0]), tail[..n]) && Protocol(tail[n..] + b)
  {
    BlockFits(a, b);
    ProtocolBlock(a + b);
    hide Answers, Protocol;
    TailSlices(a, b, |CallsOf(a[0])|);
  }

  lemma {:induction false} CutAppend(a: seq<Message>, b: seq<Message>)
    requires Protocol(a + b) && StartsFresh(b)
    ensures Protocol(a) && Protocol(b)
    decreases |a|
  {
    if a == [] {
      assert a + b == b;
    } else {
      BlockInside(a, b);
      hide Protocol, Answers, StartsFresh;
      var n, tail := |CallsOf(a[0])|, a[1..];
      CutAppend(tail[n..], b);
      BlockProtocol(a[0], tail[..n], tail[n..]);
      Resplit(a, n);
    }
  }

  lemma {:induction false} Resplit<T>(a: seq<T>, n: nat)
    requires a != [] && n < |a|
    ensures a == [a[0]] + a[1..][..n] + a[1..][n..]
  {
  }

  /** A conversation that follows the protocol can be cut before any message that is not a result. */
  lemma {:induction false} Cut(ms: seq<Message>, i: nat)
    requires Protocol(ms) && i <= |ms| && (i < |ms| ==> !ms[i].ToolResult?)
    ensures Protocol(ms[..i]) && Protocol(ms[i..])
  {
    hide Protocol;
    assert ms == ms[..i] + ms[i..];
    CutAppend(ms[..i], ms[i..]);
  }

  lemma {:induction false} FoldIsHistory(ms: seq<Message>)
    ensures Fold(ms).History?
  {
  }

  lemma {:induction false} ReplaceProtocol(ms: seq<Message>, from: nat, to: nat)
    requires from <= to <= |ms| && Protocol(ms[..from]) && Protocol(ms[to..])
    ensures Protocol(Replace(ms, from, to))
  {
    hide Fold;
    var h := Fold(ms[from..to]);
    FoldIsHistory(ms[from..to]);
    OneMessage(h);
    ProtocolAppend(ms[..from], [h]);
    ProtocolAppend(ms[..from] + [h], ms[to..]);
  }

  // A message without calls can be cut off on both sides.
  lemma {:induction false} CutAround(ms: seq<Message>, i: nat)
    requires Protocol(ms) && i < |ms| && !ms[i].ToolResult? && CallsOf(ms[i]) == []
    ensures Protocol(ms[..i]) && Protocol(ms[..i + 1]) && Protocol(ms[i + 1..])
  {
    hide Protocol;
    Cut(ms, i);
    OneMessage(ms[i]);
    ProtocolAppend([ms[i]], ms[i + 1..]);
    assert ms[i..] == [ms[i]] + ms[i + 1..];
    ProtocolAppend(ms[..i], [ms[i]]);
    assert ms[..i + 1] == ms[..i] + [ms[i]];
  }

  // Every Run starts with a wake-up; without one, the message that stands for it must make no calls.
  ghost predicate Grounded(ms: seq<Message>) {
    (exists i | 1 <= i < |ms| :: IsWake(ms[i])) || |ms| < 2 || CallsOf(ms[1]) == []
  }

  lemma {:induction false} WakeIsPlain(ms: seq<Message>)
    requires Protocol(ms) && ms != [] && CallsOf(ms[0]) == [] && Grounded(ms)
    ensures var wake := LastWake(ms, |ms|);
      wake >= 1 && (wake < |ms| ==> !ms[wake].ToolResult? && CallsOf(ms[wake]) == []) && (wake > 1 ==> wake < |ms|)
  {
    LastWakeFacts(ms, |ms|);
    if |ms| >= 2 {
      CutAround(ms, 0);
      assert ms[1..][0] == ms[1];
    }
  }

  lemma {:induction false} BeforeProtocol(ms: seq<Message>)
    requires Protocol(ms) && ms != [] && CallsOf(ms[0]) == [] && Grounded(ms)
    ensures Protocol(Before(ms).messages)
    ensures var c, wake := Before(ms).messages, WakeAfter(ms);
      wake >= 1 && (wake < |c| ==> !c[wake].ToolResult? && CallsOf(c[wake]) == [])
  {
    hide Fold, Grounded;
    WakeIsPlain(ms);
    if FoldsBefore(ms) {
      var wake := LastWake(ms, |ms|);
      CutAround(ms, 0);
      Cut(ms, wake);
      ReplaceProtocol(ms, 1, wake);
      assert Replace(ms, 1, wake)[2] == ms[wake];
    }
  }

  lemma {:induction false} WithinProtocol(c: Compacted, wake: nat)
    requires Protocol(c.messages) && (wake < |c.messages| ==> !c.messages[wake].ToolResult? && CallsOf(c.messages[wake]) == [])
    ensures Protocol(Within(c, wake).messages)
  {
    hide Fold;
    var ms := c.messages;
    var tail := LastAnswer(ms, wake + 1, |ms|);
    LastAnswerFacts(ms, wake + 1, |ms|);
    if FoldsWithin(ms, wake) {
      CutAround(ms, wake);
      Cut(ms, tail);
      ReplaceProtocol(ms, wake + 1, tail);
    }
  }

  /** Compaction orphans no result and leaves no call without one. */
  lemma {:induction false} CompactKeepsProtocol(ms: seq<Message>, enough: seq<Message> -> bool)
    requires Protocol(ms) && ms != [] && CallsOf(ms[0]) == [] && Grounded(ms)
    ensures Protocol(Compact(ms, enough).messages)
  {
    hide Before, Within, Protocol, Grounded;
    BeforeProtocol(ms);
    WithinProtocol(Before(ms), WakeAfter(ms));
  }

  // Calls that are not followed by a result break the protocol.
  lemma {:induction false} CallsLackResults(ms: seq<Message>)
    requires |ms| > 1 && CallsOf(ms[0]) != [] && !ms[1].ToolResult?
    ensures !Protocol(ms)
  {
    var calls, tail := CallsOf(ms[0]), ms[1..];
    assert |calls| <= |tail| ==> tail[..|calls|][0] == ms[1];
  }

  /**
    Without a wake-up, and with calls in the message that stands for it, the protocol survives exactly
    when there is no later answer to fold up to.
   */
  lemma {:induction false} UngroundedProtocol(ms: seq<Message>, enough: seq<Message> -> bool)
    requires Protocol(ms) && ms != [] && !ms[0].ToolResult? && CallsOf(ms[0]) == [] && !Grounded(ms)
    ensures Protocol(Compact(ms, enough).messages) <==> LastAnswer(ms, 2, |ms|) == 0
  {
    hide Fold, LastAnswer, LastWake, Protocol;
    UngroundedWake(ms);
    LastAnswerFacts(ms, 2, |ms|);
    var tail := LastAnswer(ms, 2, |ms|);
    if tail != 0 {
      BrokenReplace(ms, tail);
      hide Replace;
      assert Compact(ms, enough).messages == Replace(ms, 2, tail);
    } else {
      assert Compact(ms, enough).messages == ms;
    }
  }

  lemma {:induction false} UngroundedWake(ms: seq<Message>)
    requires Protocol(ms) && ms != [] && CallsOf(ms[0]) == [] && !Grounded(ms)
    ensures LastWake(ms, |ms|) == 1 && |ms| > 2 && !ms[1].ToolResult? && ms[2].ToolResult?
  {
    LastWakeFacts(ms, |ms|);
    CutAround(ms, 0);
    assert ms[1..][0] == ms[1];
    ProtocolBlock(ms[1..]);
    assert ms[1..][1..][..|CallsOf(ms[1])|][0] == ms[2];
  }

  lemma {:induction false} BrokenReplace(ms: seq<Message>, tail: nat)
    requires 2 <= tail <= |ms| && CallsOf(ms[0]) == [] && !ms[0].ToolResult? && CallsOf(ms[1]) != []
    ensures !Protocol(Replace(ms, 2, tail))
  {
    hide Fold, Protocol;
    var r := Replace(ms, 2, tail);
    FoldIsHistory(ms[2..tail]);
    assert r[0] == ms[0] && r[1] == ms[1] && r[2].History?;
    assert r[1..][0] == r[1] && r[1..][1] == r[2];
    CallsLackResults(r[1..]);
    OneMessage(r[0]);
    assert r == [r[0]] + r[1..];
    ProtocolAppend([r[0]], r[1..]);
  }

  // ---------------------------------------------------------------------------------------------
  // What is kept verbatim
  // ---------------------------------------------------------------------------------------------

  predicate EndsWith(ms: seq<Message>, tail: seq<Message>) {
    |tail| <= |ms| && ms[|ms| - |tail|..] == tail
  }

  lemma {:induction false} ReplaceEnds(ms: seq<Message>, from: nat, to: nat, i: nat)
    requires from <= to <= i <= |ms|
    ensures EndsWith(Replace(ms, from, to), ms[i..])
    ensures |Replace(ms, from, to)| == |ms| - (to - from) + 1
  {
    hide Fold;
  }

  lemma {:induction false} EndsTrans(a: seq<Message>, b: seq<Message>, c: seq<Message>)
    requires EndsWith(a, b) && EndsWith(b, c)
    ensures EndsWith(a, c)
  {
  }

  // The last answer, seen from the end of the conversation.
  lemma {:induction false} SameAnswer(ms: seq<Message>, wake: nat)
    requires 1 <= wake < |ms|
    ensures var r := Replace(ms, 1, wake);
      && |r| == |ms| - wake + 2 && r[2..] == ms[wake..]
      && LastAnswer(r, 3, |r|) == (var t := LastAnswer(ms, wake + 1, |ms|); if t == 0 then 0 else t - wake + 2)
  {
    hide Fold;
    var r := Replace(ms, 1, wake);
    assert r[2..] == ms[wake..];
    hide Replace;
    ShiftAnswer(ms, r, wake, |ms|);
  }

  lemma {:induction false} ShiftAnswer(ms: seq<Message>, r: seq<Message>, wake: nat, n: nat)
    requires 1 <= wake < n <= |ms| && |r| == |ms| - wake + 2 && r[2..] == ms[wake..]
    ensures LastAnswer(r, 3, n - wake + 2) == (var t := LastAnswer(ms, wake + 1, n); if t == 0 then 0 else t - wake + 2)
    decreases n
  {
    if n > wake + 2 {
      assert r[n - wake + 2 - 1] == r[2..][n - wake - 1] == ms[n - 1];
      ShiftAnswer(ms, r, wake, n - 1);
    }
  }

  lemma {:induction false} ShortStays(ms: seq<Message>, enough: seq<Message> -> bool)
    requires ms != [] && LastWake(ms, |ms|) >= |ms|
    ensures Compact(ms, enough).messages == ms
  {
    LastWakeFacts(ms, |ms|);
    hide LastWake, Fold;
  }

  lemma {:induction false} WokenEnds(ms: seq<Message>, enough: seq<Message> -> bool, wake: nat, tail: nat)
    requires ms != [] && wake == LastWake(ms, |ms|) && 1 <= wake < |ms| && tail == LastAnswer(ms, wake + 1, |ms|)
    ensures var r := Compact(ms, enough).messages;
      r != [] && r[0] == ms[0] && ms[wake] in r && EndsWith(r, if tail == 0 then ms[wake..] else ms[tail..])
  {
    hide Before, Within, LastAnswer, LastWake, Replace, FoldsBefore, EndsWith, WakeAfter;
    BeforeEnds(ms, wake, tail);
    var first, w := Before(ms).messages, WakeAfter(ms);
    WithinEnds(Before(ms), w);
    if tail != 0 {
      assert first[w..][tail - wake..] == first[w + (tail - wake)..];
      assert ms[wake..][tail - wake..] == ms[tail..];
    }
  }

  /**
    The system prompt stays first, the current wake-up stays, and so does everything from the last
    answer of the Run on (or from the wake-up on, when the Run has no such answer).
   */
  lemma {:induction false} CompactKeepsEnds(ms: seq<Message>, enough: seq<Message> -> bool)
    requires ms != []
    ensures var r := Compact(ms, enough).messages;
      var wake := LastWake(ms, |ms|);
      var tail := LastAnswer(ms, wake + 1, |ms|);
      && r != [] && r[0] == ms[0]
      && (wake < |ms| ==> ms[wake] in r && EndsWith(r, if tail == 0 then ms[wake..] else ms[tail..]))
  {
    hide Compact, LastAnswer, LastWake, EndsWith;
    LastWakeFacts(ms, |ms|);
    var wake := LastWake(ms, |ms|);
    if wake < |ms| {
      WokenEnds(ms, enough, wake, LastAnswer(ms, wake + 1, |ms|));
    } else {
      ShortStays(ms, enough);
    }
  }

  lemma {:induction false} BeforeEnds(ms: seq<Message>, wake: nat, tail: nat)
    requires ms != [] && wake == LastWake(ms, |ms|) && 1 <= wake < |ms| && tail == LastAnswer(ms, wake + 1, |ms|)
    ensures var first, w := Before(ms).messages, WakeAfter(ms);
      && first != [] && first[0] == ms[0] && 1 <= w < |first| && first[w] == ms[wake]
      && first[w..] == ms[wake..] && EndsWith(first, ms[wake..]) && (tail != 0 ==> EndsWith(first, ms[tail..]) && wake < tail < |ms|)
      && (var t := LastAnswer(first, w + 1, |first|); t == if tail == 0 then 0 else tail - wake + w)
  {
    hide Fold, LastWake;
    LastAnswerFacts(ms, wake + 1, |ms|);
    if FoldsBefore(ms) {
      SameAnswer(ms, wake);
      ReplaceEnds(ms, 1, wake, wake);
      if tail != 0 {
        ReplaceEnds(ms, 1, wake, tail);
      }
      assert Replace(ms, 1, wake)[2..][0] == ms[wake];
    }
  }

  lemma {:induction false} WithinEnds(c: Compacted, w: nat)
    requires 1 <= w < |c.messages|
    ensures var ms, r := c.messages, Within(c, w).messages;
      var t := LastAnswer(ms, w + 1, |ms|);
      && r != [] && r[0] == ms[0] && ms[w] in r
      && (t == 0 ==> r == ms) && (t != 0 ==> EndsWith(r, ms[t..]) && w + 1 < t < |ms|)
  {
    hide Fold;
    var ms := c.messages;
    var t := LastAnswer(ms, w + 1, |ms|);
    LastAnswerFacts(ms, w + 1, |ms|);
    hide LastAnswer;
    if t != 0 {
      ReplaceEnds(ms, w + 1, t, t);
      assert Replace(ms, w + 1, t)[w] == ms[w] && Replace(ms, w + 1, t)[0] == ms[0];
    }
  }

  // ---------------------------------------------------------------------------------------------
  // Compaction makes progress, and stops
  // ---------------------------------------------------------------------------------------------

  function Raw(ms: seq<Message>): nat {
    if ms == [] then 0 else Raw(ms[..|ms| - 1]) + if ms[|ms| - 1].History? then 0 else 1
  }

  lemma {:induction false} RawAppend(a: seq<Message>, b: seq<Message>)
    ensures Raw(a + b) == Raw(a) + Raw(b)
    decreases |b|
  {
    if b == [] {
      assert a + b == a;
    } else {
      assert (a + b)[..|a| + |b| - 1] == a + b[..|b| - 1];
      RawAppend(a, b[..|b| - 1]);
    }
  }

  // The length of the conversation and the messages in it that are not yet folded.
  function Size(ms: seq<Message>): nat {
    |ms| + Raw(ms)
  }

  lemma {:induction false} RawOne(m: Message)
    ensures Raw([m]) == if m.History? then 0 else 1
  {
    assert [m][..0] == [];
  }

  lemma {:induction false} ReplaceShrinks(ms: seq<Message>, from: nat, to: nat)
    requires from < to <= |ms| && !(to == from + 1 && ms[from].History?)
    ensures Size(Replace(ms, from, to)) < Size(ms)
  {
    hide Fold, Raw;
    var h, mid := Fold(ms[from..to]), ms[from..to];
    FoldIsHistory(mid);
    RawOne(h);
    RawAppend(ms[..from], mid);
    RawAppend(ms[..from] + mid, ms[to..]);
    RawAppend(ms[..from], [h]);
    RawAppend(ms[..from] + [h], ms[to..]);
    assert ms == ms[..from] + mid + ms[to..];
    if to == from + 1 {
      assert mid == [ms[from]];
      RawOne(ms[from]);
    }
  }

  /** A compaction that wrote a block made the conversation smaller; one that did not left it alone. */
  lemma {:induction false} CompactShrinks(ms: seq<Message>, enough: seq<Message> -> bool)
    ensures var c := Compact(ms, enough);
      if c.blocks == [] then c.messages == ms else Size(c.messages) < Size(ms)
  {
    hide Fold, Size, LastWake, LastAnswer;
    LastWakeFacts(ms, |ms|);
    var wake := LastWake(ms, |ms|);
    if FoldsBefore(ms) {
      ReplaceShrinks(ms, 1, wake);
    }
    var first, w := Before(ms), WakeAfter(ms);
    hide Before;
    LastAnswerFacts(first.messages, w + 1, |first.messages|);
    if FoldsWithin(first.messages, w) {
      ReplaceShrinks(first.messages, w + 1, LastAnswer(first.messages, w + 1, |first.messages|));
    }
  }

  lemma {:induction false} WakeIs(ms: seq<Message>, i: nat, n: nat)
    requires 1 <= i < n <= |ms| && (IsWake(ms[i]) || i == 1) && forall j | i < j < n :: !IsWake(ms[j])
    ensures LastWake(ms, n) == i
    decreases n
  {
    if n - 1 > i {
      WakeIs(ms, i, n - 1);
    } else if !IsWake(ms[i]) {
      assert LastWake(ms, 1) == 1;
    }
  }

  lemma {:induction false} AnswerIs(ms: seq<Message>, beyond: nat, i: nat, n: nat)
    requires beyond < i < n <= |ms| && ms[i].Assistant? && forall j | i < j < n :: !ms[j].Assistant?
    ensures LastAnswer(ms, beyond, n) == i
    decreases n
  {
    if n - 1 > i {
      AnswerIs(ms, beyond, i, n - 1);
    }
  }

  // A conversation whose part before the wake-up is empty or folded.
  ghost predicate FoldedBefore(ms: seq<Message>, w: nat) {
    && 1 <= w < |ms| && (w == 1 || (w == 2 && ms[1].History?)) && (IsWake(ms[w]) || w == 1)
    && (forall j | w < j < |ms| :: !IsWake(ms[j]))
  }

  lemma {:induction false} BeforeFolds(ms: seq<Message>)
    requires LastWake(ms, |ms|) < |ms|
    ensures FoldedBefore(Before(ms).messages, WakeAfter(ms))
  {
    LastWakeFacts(ms, |ms|);
    hide LastWake, Fold;
    var wake := LastWake(ms, |ms|);
    if FoldsBefore(ms) {
      var r := Replace(ms, 1, wake);
      FoldIsHistory(ms[1..wake]);
      assert forall j | 2 <= j < |r| :: r[j] == ms[j - 2 + wake];
    }
  }

  lemma {:induction false} NothingBefore(ms: seq<Message>, w: nat)
    requires FoldedBefore(ms, w)
    ensures LastWake(ms, |ms|) == w && !FoldsBefore(ms) && Before(ms) == Compacted(ms, []) && WakeAfter(ms) == w
  {
    WakeIs(ms, w, |ms|);
  }

  lemma {:induction false} WithinFolds(c: Compacted, w: nat)
    requires FoldedBefore(c.messages, w)
    ensures var r := Within(c, w).messages; FoldedBefore(r, w) && !FoldsWithin(r, w)
  {
    hide Fold;
    var ms := c.messages;
    LastAnswerFacts(ms, w + 1, |ms|);
    if FoldsWithin(ms, w) {
      var tail := LastAnswer(ms, w + 1, |ms|);
      hide LastAnswer;
      var r := Replace(ms, w + 1, tail);
      FoldIsHistory(ms[w + 1..tail]);
      assert |r| == |ms| - tail + w + 2;
      assert r[..w + 1] == ms[..w + 1] && r[w + 1].History?;
      assert forall j | w + 2 <= j < |r| :: r[j] == ms[j - w - 2 + tail];
      assert r[1] == ms[1] && r[w] == ms[w];
      hide Replace;
      AnswerIs(r, w + 1, w + 2, |r|);
    }
  }

  /** A conversation on which both stages have run is a fixpoint: compacting it again does nothing. */
  lemma {:induction false} FullyFoldedIsFixpoint(ms: seq<Message>, enough: seq<Message> -> bool, again: seq<Message> -> bool)
    requires LastWake(ms, |ms|) < |ms| && !(FoldsBefore(ms) && enough(Before(ms).messages))
    ensures var r := Compact(ms, enough).messages; Compact(r, again) == Compacted(r, [])
  {
    hide Before, FoldsBefore, FoldsWithin, WakeAfter, FoldedBefore;
    var first, w := Before(ms), WakeAfter(ms);
    BeforeFolds(ms);
    WithinFolds(first, w);
    NothingBefore(Within(first, w).messages, w);
  }

  // ---------------------------------------------------------------------------------------------
  // Evidence survives
  // ---------------------------------------------------------------------------------------------

  ghost predicate Remembered(ms: seq<Message>, line: Line) {
    exists i :: 0 <= i < |ms| && ms[i].History? && line in ms[i].lines
  }

  // A mutation that happened, or may have.
  ghost predicate Performed(ms: seq<Message>, call: Call, r: Result) {
    && call in Calls(ms) && IsMutation(call.name)
    && ResultOf(ms, call.id) == Some(r) && (Ok(Some(r)) || Unknown(Some(r)))
  }

  // What a reader of the conversation can still tell about the mutations of the Session.
  ghost predicate Evident(ms: seq<Message>, line: Line) {
    Remembered(ms, line) || exists call, r :: Performed(ms, call, r) && line == EvidenceLineOf(call, r)
  }

  lemma {:induction false} ResultAppend(a: seq<Message>, b: seq<Message>, id: string)
    ensures ResultOf(a + b, id) == if ResultOf(b, id).Some? then ResultOf(b, id) else ResultOf(a, id)
    decreases |b|
  {
    if b == [] {
      assert a + b == a;
    } else {
      assert (a + b)[..|a| + |b| - 1] == a + b[..|b| - 1];
      ResultAppend(a, b[..|b| - 1], id);
    }
  }

  lemma {:induction false} NoResult(ms: seq<Message>, id: string)
    requires forall i | 0 <= i < |ms| :: !(ms[i].ToolResult? && ms[i].id == id)
    ensures ResultOf(ms, id) == None
    decreases |ms|
  {
    if ms != [] {
      NoResult(ms[..|ms| - 1], id);
    }
  }

  lemma {:induction false} BlockResults(calls: seq<Call>, results: seq<Message>, id: string)
    requires Answers(calls, results) && !Called(calls, id)
    ensures ResultOf(results, id) == None
  {
    forall i | 0 <= i < |results| ensures results[i].id != id {
      assert calls[i] in calls;
    }
    NoResult(results, id);
  }

  // A result belongs to a call of the same conversation.
  lemma {:induction false} UncalledResult(ms: seq<Message>, id: string)
    requires Protocol(ms) && !Called(Calls(ms), id)
    ensures ResultOf(ms, id) == None
    decreases |ms|
  {
    if ms != [] {
      ProtocolBlock(ms);
      hide Protocol, Answers, ResultOf;
      var n, tail := |CallsOf(ms[0])|, ms[1..];
      var results, rest := tail[..n], tail[n..];
      FirstCalls(ms[0], results, rest);
      BlockResults(CallsOf(ms[0]), results, id);
      UncalledResult(rest, id);
      ResultAppend([ms[0]] + results, rest, id);
      ResultAppend([ms[0]], results, id);
      assert ResultOf([ms[0]], id) == None by { NoResult([ms[0]], id); }
    }
  }

  lemma {:induction false} FirstCalls(m: Message, results: seq<Message>, rest: seq<Message>)
    ensures forall c | c in CallsOf(m) :: c in Calls([m] + results + rest)
    ensures forall c | c in Calls(rest) :: c in Calls([m] + results + rest)
  {
    CallsAppend([m] + results, rest);
    CallsAppend([m], results);
    assert [m][..0] == [];
    assert Calls([m]) == Calls([m][..0]) + CallsOf(m);
  }

  lemma {:induction false} FoldCallGrows(f: Folding, call: Call, r: Option<Result>)
    ensures f.lines <= FoldCall(f, call, r).lines
    ensures IsMutation(call.name) && (Ok(r) || Unknown(r)) ==> EvidenceLineOf(call, r.value) in FoldCall(f, call, r).lines
  {
  }

  lemma {:induction false} FoldCallsKeep(f: Folding, calls: seq<Call>, ms: seq<Message>)
    ensures f.lines <= FoldCalls(f, calls, ms).lines
    ensures forall call | call in calls && IsMutation(call.name) && (Ok(ResultOf(ms, call.id)) || Unknown(ResultOf(ms, call.id))) ::
      EvidenceLineOf(call, ResultOf(ms, call.id).value) in FoldCalls(f, calls, ms).lines
    decreases |calls|
  {
    hide FoldCall, ResultOf, EvidenceLineOf;
    if calls != [] {
      var n := |calls| - 1;
      assert calls == calls[..n] + [calls[n]];
      FoldCallsKeep(f, calls[..n], ms);
      FoldCallGrows(FoldCalls(f, calls[..n], ms), calls[n], ResultOf(ms, calls[n].id));
    }
  }

  // The lines a message must leave in the fold.
  ghost predicate Leaves(ms: seq<Message>, i: nat, line: Line)
    requires i < |ms|
  {
    || (ms[i].History? && line in ms[i].lines)
    || (exists call :: call in CallsOf(ms[i]) && IsMutation(call.name)
          && (Ok(ResultOf(ms, call.id)) || Unknown(ResultOf(ms, call.id)))
          && line == EvidenceLineOf(call, ResultOf(ms, call.id).value))
  }

  lemma {:induction false} FoldOneKeeps(f: Folding, ms: seq<Message>, i: nat)
    requires i < |ms|
    ensures f.lines <= FoldOne(f, ms, i).lines
    ensures forall line | Leaves(ms, i, line) :: line in FoldOne(f, ms, i).lines
  {
    hide FoldCalls, ResultOf, EvidenceLineOf, Truncate;
    var m := ms[i];
    if m.Assistant? {
      var answered := if m.answer.Some? && m.answer.value != ""
        then f.(lines := f.lines + [AnswerLine(Truncate(m.answer.value, ANSWER_RUNES))]) else f;
      FoldCallsKeep(answered, m.calls, ms);
    }
  }

  lemma {:induction false} FoldUpToKeeps(ms: seq<Message>, n: nat, i: nat, line: Line)
    requires i < n <= |ms| && Leaves(ms, i, line)
    ensures line in FoldUpTo(ms, n).lines
    decreases n
  {
    hide FoldOne, Leaves;
    FoldOneKeeps(FoldUpTo(ms, n - 1), ms, n - 1);
    if i < n - 1 {
      FoldUpToKeeps(ms, n - 1, i, line);
    }
  }

  lemma {:induction false} CallAt(ms: seq<Message>, call: Call)
    requires call in Calls(ms)
    ensures exists i :: 0 <= i < |ms| && call in CallsOf(ms[i])
    decreases |ms|
  {
    var n := |ms| - 1;
    if call in CallsOf(ms[n]) {
    } else {
      CallAt(ms[..n], call);
      var i :| 0 <= i < n && call in CallsOf(ms[..n][i]);
      assert ms[i] == ms[..n][i];
    }
  }

  /** Folding a range keeps a line for every mutation in it that happened or may have, and every earlier line. */
  lemma {:induction false} FoldKeepsEvidence(ms: seq<Message>, line: Line)
    requires Evident(ms, line)
    ensures line in Fold(ms).lines
  {
    hide FoldUpTo, ResultOf, EvidenceLineOf;
    if Remembered(ms, line) {
      var i :| 0 <= i < |ms| && ms[i].History? && line in ms[i].lines;
      FoldUpToKeeps(ms, |ms|, i, line);
    } else {
      var call, r :| Performed(ms, call, r) && line == EvidenceLineOf(call, r);
      CallAt(ms, call);
      var i :| 0 <= i < |ms| && call in CallsOf(ms[i]);
      assert Leaves(ms, i, line);
      FoldUpToKeeps(ms, |ms|, i, line);
    }
  }

  lemma {:induction false} RememberedIn(ms: seq<Message>, i: nat, line: Line)
    requires i < |ms| && ms[i].History? && line in ms[i].lines
    ensures Remembered(ms, line)
  {
  }

  lemma {:induction false} RememberedAppend(a: seq<Message>, b: seq<Message>, line: Line)
    ensures Remembered(a + b, line) <==> Remembered(a, line) || Remembered(b, line)
  {
    var ms := a + b;
    if Remembered(a, line) {
      var i :| 0 <= i < |a| && a[i].History? && line in a[i].lines;
      assert ms[i] == a[i];
    }
    if Remembered(b, line) {
      var i :| 0 <= i < |b| && b[i].History? && line in b[i].lines;
      assert ms[|a| + i] == b[i];
    }
    if Remembered(ms, line) {
      var i :| 0 <= i < |ms| && ms[i].History? && line in ms[i].lines;
      assert ms[i] == if i < |a| then a[i] else b[i - |a|];
      if i < |a| {
        RememberedIn(a, i, line);
      } else {
        RememberedIn(b, i - |a|, line);
      }
    }
  }

  lemma {:induction false} DistinctSplit(a: seq<Call>, b: seq<Call>, call: Call)
    requires DistinctIds(a + b)
    ensures DistinctIds(a) && DistinctIds(b)
    ensures call in a ==> !Called(b, call.id)
    ensures call in b ==> !Called(a, call.id)
  {
    var all := a + b;
    forall i, j | 0 <= i < |a| && 0 <= j < |b| ensures a[i].id != b[j].id {
      assert all[i] == a[i] && all[|a| + j] == b[j];
    }
    forall i, j | 0 <= i < j < |a| ensures a[i].id != a[j].id {
      assert all[i] == a[i] && all[j] == a[j];
    }
    forall i, j | 0 <= i < j < |b| ensures b[i].id != b[j].id {
      assert all[|a| + i] == b[i] && all[|a| + j] == b[j];
    }
  }

  // A mutation is performed in a conversation exactly when it is in the part that made the call.
  lemma {:induction false} PerformedAppend(a: seq<Message>, b: seq<Message>, call: Call, r: Result)
    requires Protocol(a) && Protocol(b) && DistinctIds(Calls(a + b))
    ensures Performed(a + b, call, r) <==> Performed(a, call, r) || Performed(b, call, r)
  {
    hide Protocol, ResultOf, Calls, Ok, Unknown, DistinctIds;
    CallsAppend(a, b);
    ResultAppend(a, b, call.id);
    DistinctSplit(Calls(a), Calls(b), call);
    if call in Calls(a) {
      UncalledResult(b, call.id);
      assert call !in Calls(b) by { NotBoth(Calls(b), call); }
    } else if call in Calls(b) {
      UncalledResult(a, call.id);
    }
  }

  lemma {:induction false} NotBoth(calls: seq<Call>, call: Call)
    requires !Called(calls, call.id)
    ensures call !in calls
  {
  }

  lemma {:induction false} EvidentAppend(a: seq<Message>, b: seq<Message>, line: Line)
    requires Protocol(a) && Protocol(b) && DistinctIds(Calls(a + b))
    ensures Evident(a + b, line) <==> Evident(a, line) || Evident(b, line)
  {
    hide Protocol, Remembered, Performed, DistinctIds, EvidenceLineOf;
    RememberedAppend(a, b, line);
    forall call, r ensures Performed(a + b, call, r) <==> Performed(a, call, r) || Performed(b, call, r) {
      PerformedAppend(a, b, call, r);
    }
  }

  lemma {:induction false} EvidentHistory(h: Message, line: Line)
    requires h.History? && line in h.lines
    ensures Evident([h], line)
  {
    RememberedIn([h], 0, line);
  }

  lemma {:induction false} HistoryCalls(h: Message)
    requires h.History?
    ensures Calls([h]) == []
  {
    assert [h][..0] == [];
  }

  lemma {:induction false} DistinctDrop(a: seq<Call>, b: seq<Call>, c: seq<Call>)
    requires DistinctIds(a + b + c)
    ensures DistinctIds(a + b) && DistinctIds(a + c)
  {
    var all := a + b + c;
    forall i, j | 0 <= i < j < |a + b| ensures (a + b)[i].id != (a + b)[j].id {
      assert all[i] == (a + b)[i] && all[j] == (a + b)[j];
    }
    forall i, j | 0 <= i < j < |a + c| ensures (a + c)[i].id != (a + c)[j].id {
      assert (a + c)[i] == if i < |a| then all[i] else all[i + |b|];
      assert (a + c)[j] == if j < |a| then all[j] else all[j + |b|];
    }
  }

  // Replacing a range by its fold loses no evidence.
  lemma {:induction false} ReplaceEvident(a: seq<Message>, mid: seq<Message>, b: seq<Message>, line: Line)
    requires Protocol(a) && Protocol(mid) && Protocol(b) && DistinctIds(Calls(a + mid + b))
    requires Evident(a + mid + b, line)
    ensures Evident(a + [Fold(mid)] + b, line)
    ensures DistinctIds(Calls(a + [Fold(mid)] + b))
  {
    hide Protocol, Fold, DistinctIds, Evident, Calls;
    var h := Fold(mid);
    FoldIsHistory(mid);
    OneMessage(h);
    CallsAppend(a + mid, b);
    CallsAppend(a, mid);
    CallsAppend(a + [h], b);
    CallsAppend(a, [h]);
    HistoryCalls(h);
    assert Calls(a) + [] == Calls(a);
    DistinctDrop(Calls(a), Calls(mid), Calls(b));
    ProtocolAppend(a, mid);
    ProtocolAppend(a, [h]);
    EvidentAppend(a + mid, b, line);
    EvidentAppend(a, mid, line);
    DistinctSplit(Calls(a), Calls(b), Call("", "", ""));
    EvidentAppend(a + [h], b, line);
    EvidentAppend(a, [h], line);
    if Evident(mid, line) {
      FoldKeepsEvidence(mid, line);
      EvidentHistory(h, line);
    }
  }

  lemma {:induction false} ReplaceKeeps(ms: seq<Message>, from: nat, to: nat, line: Line)
    requires from <= to <= |ms| && Protocol(ms[..from]) && Protocol(ms[from..to]) && Protocol(ms[to..])
    requires DistinctIds(Calls(ms)) && Evident(ms, line)
    ensures Evident(Replace(ms, from, to), line) && DistinctIds(Calls(Replace(ms, from, to)))
  {
    hide Protocol, Fold, DistinctIds, Evident, Calls;
    assert ms == ms[..from] + ms[from..to] + ms[to..];
    ReplaceEvident(ms[..from], ms[from..to], ms[to..], line);
  }

  lemma {:induction false} MiddleProtocol(ms: seq<Message>, from: nat, to: nat)
    requires from <= to <= |ms| && Protocol(ms[from..]) && (to < |ms| ==> !ms[to].ToolResult?)
    ensures Protocol(ms[from..to])
  {
    hide Protocol;
    Cut(ms[from..], to - from);
    assert ms[from..][..to - from] == ms[from..to];
  }

  lemma {:induction false} BeforeEvident(ms: seq<Message>, line: Line)
    requires Protocol(ms) && ms != [] && CallsOf(ms[0]) == [] && Grounded(ms) && DistinctIds(Calls(ms)) && Evident(ms, line)
    ensures Evident(Before(ms).messages, line) && DistinctIds(Calls(Before(ms).messages))
  {
    hide Fold, Grounded, Evident, DistinctIds, Calls, Replace, LastWake;
    WakeIsPlain(ms);
    if FoldsBefore(ms) {
      var wake := LastWake(ms, |ms|);
      CutAround(ms, 0);
      Cut(ms, wake);
      MiddleProtocol(ms, 1, wake);
      hide Protocol;
      ReplaceKeeps(ms, 1, wake, line);
    }
  }

  lemma {:induction false} WithinEvident(c: Compacted, wake: nat, line: Line)
    requires Protocol(c.messages) && (wake < |c.messages| ==> !c.messages[wake].ToolResult? && CallsOf(c.messages[wake]) == [])
    requires DistinctIds(Calls(c.messages)) && Evident(c.messages, line)
    ensures Evident(Within(c, wake).messages, line) && DistinctIds(Calls(Within(c, wake).messages))
  {
    hide Fold, Evident, DistinctIds, Calls, Replace;
    var ms := c.messages;
    var tail := LastAnswer(ms, wake + 1, |ms|);
    LastAnswerFacts(ms, wake + 1, |ms|);
    hide LastAnswer;
    if FoldsWithin(ms, wake) {
      CutAround(ms, wake);
      Cut(ms, tail);
      MiddleProtocol(ms, wake + 1, tail);
      hide Protocol;
      ReplaceKeeps(ms, wake + 1, tail, line);
    }
  }

  /** No compaction loses a mutation that happened or may have happened, nor a line that was kept before. */
  lemma {:induction false} CompactKeepsEvidence(ms: seq<Message>, enough: seq<Message> -> bool, line: Line)
    requires Protocol(ms) && ms != [] && CallsOf(ms[0]) == [] && Grounded(ms) && DistinctIds(Calls(ms)) && Evident(ms, line)
    ensures Evident(Compact(ms, enough).messages, line) && DistinctIds(Calls(Compact(ms, enough).messages))
  {
    hide Before, Within, Protocol, Grounded, Evident, DistinctIds, Calls, FoldsBefore, WakeAfter;
    BeforeProtocol(ms);
    BeforeEvident(ms, line);
    WithinEvident(Before(ms), WakeAfter(ms), line);
  }

  lemma {:induction false} CompactGrounded(ms: seq<Message>, enough: seq<Message> -> bool)
    requires ms != [] && Grounded(ms)
    ensures var r := Compact(ms, enough).messages; r != [] && r[0] == ms[0] && Grounded(r)
  {
    LastWakeFacts(ms, |ms|);
    var wake := LastWake(ms, |ms|);
    if exists i | 1 <= i < |ms| :: IsWake(ms[i]) {
      hide LastWake, LastAnswer, Replace, Fold;
      LastAnswerFacts(ms, wake + 1, |ms|);
      WokenStays(ms, enough, wake);
    } else {
      UnwokenStays(ms, enough);
    }
  }

  lemma {:induction false} WokenStays(ms: seq<Message>, enough: seq<Message> -> bool, wake: nat)
    requires ms != [] && wake == LastWake(ms, |ms|) && 1 <= wake < |ms| && IsWake(ms[wake])
    ensures var r := Compact(ms, enough).messages;
      r != [] && r[0] == ms[0] && exists i | 1 <= i < |r| :: IsWake(r[i])
  {
    hide LastWake, LastAnswer, Fold;
    var first, w := Before(ms), WakeAfter(ms);
    assert first.messages[0] == ms[0] && w >= 1 && w < |first.messages| && first.messages[w] == ms[wake];
    hide Before;
    LastAnswerFacts(first.messages, w + 1, |first.messages|);
    var r := Within(first, w).messages;
    assert r[0] == ms[0] && w < |r| && r[w] == ms[wake];
  }

  lemma {:induction false} UnwokenStays(ms: seq<Message>, enough: seq<Message> -> bool)
    requires ms != [] && (forall i | 1 <= i < |ms| :: !IsWake(ms[i])) && (|ms| < 2 || CallsOf(ms[1]) == [])
    ensures var r := Compact(ms, enough).messages; r != [] && r[0] == ms[0] && (|r| < 2 || CallsOf(r[1]) == [])
  {
    LastWakeFacts(ms, |ms|);
    hide LastWake, LastAnswer, Fold;
    LastAnswerFacts(ms, 2, |ms|);
  }

  // Any number of compactions.
  function CompactMany(ms: seq<Message>, rounds: seq<seq<Message> -> bool>): seq<Message>
    decreases |rounds|
  {
    if rounds == [] then ms
    else Compact(CompactMany(ms, rounds[..|rounds| - 1]), rounds[|rounds| - 1]).messages
  }

  /** Evidence survives any number of compactions, and the protocol with it. */
  lemma {:induction false} EvidenceSurvives(ms: seq<Message>, rounds: seq<seq<Message> -> bool>, line: Line)
    requires Protocol(ms) && ms != [] && CallsOf(ms[0]) == [] && Grounded(ms) && DistinctIds(Calls(ms)) && Evident(ms, line)
    ensures var r := CompactMany(ms, rounds);
      && Protocol(r) && r != [] && r[0] == ms[0] && Grounded(r)
      && DistinctIds(Calls(r)) && Evident(r, line)
    decreases |rounds|
  {
    hide Compact, Protocol, Grounded, Evident, DistinctIds, Calls;
    if rounds != [] {
      var n := |rounds| - 1;
      EvidenceSurvives(ms, rounds[..n], line);
      var before := CompactMany(ms, rounds[..n]);
      CompactKeepsProtocol(before, rounds[n]);
      CompactKeepsEvidence(before, rounds[n], line);
      CompactGrounded(before, rounds[n]);
    }
  }

  // Compaction only drops messages and adds histories.
  lemma {:induction false} CompactMembers(ms: seq<Message>, enough: seq<Message> -> bool, m: Message)
    requires m in Compact(ms, enough).messages
    ensures m in ms || m.History?
  {
    hide LastWake, LastAnswer, Fold;
    LastWakeFacts(ms, |ms|);
    if FoldsBefore(ms) {
      ReplaceMembers(ms, 1, LastWake(ms, |ms|));
    }
    var first, w := Before(ms), WakeAfter(ms);
    hide Before, Replace;
    LastAnswerFacts(first.messages, w + 1, |first.messages|);
    if FoldsWithin(first.messages, w) {
      ReplaceMembers(first.messages, w + 1, LastAnswer(first.messages, w + 1, |first.messages|));
    }
  }

  lemma {:induction false} ReplaceMembers(ms: seq<Message>, from: nat, to: nat)
    requires from <= to <= |ms|
    ensures forall m | m in Replace(ms, from, to) :: m in ms || m.History?
  {
    hide Fold;
    FoldIsHistory(ms[from..to]);
    forall m | m in Replace(ms, from, to) ensures m in ms || m.History? {
      assert m in ms[..from] || m == Fold(ms[from..to]) || m in ms[to..];
    }
  }

  // ---------------------------------------------------------------------------------------------
  // Every step is told
  // ---------------------------------------------------------------------------------------------

  // A read stands in the history as its own line, or as the line of the skill it fetched.
  ghost predicate Told(lines: seq<Line>, line: Line) {
    line in lines || (line.CallLine? && exists r :: SkillLine(line.name, line.arguments, r) in lines)
  }

  // What was seen before has been told.
  ghost predicate SeenTold(f: Folding) {
    forall line | line in f.seen :: Told(f.lines, line)
  }

  lemma {:induction false} ToldMore(a: seq<Line>, b: seq<Line>, line: Line)
    requires Told(a, line) && a <= b
    ensures Told(b, line)
  {
    if line !in a {
      var r :| SkillLine(line.name, line.arguments, r) in a;
      assert SkillLine(line.name, line.arguments, r) in b;
    }
  }

  lemma {:induction false} FoldCallTells(f: Folding, call: Call, r: Option<Result>)
    requires SeenTold(f)
    ensures SeenTold(FoldCall(f, call, r)) && f.lines <= FoldCall(f, call, r).lines
    ensures Ok(r) && !IsMutation(call.name) ==> Told(FoldCall(f, call, r).lines, LineOf(call))
  {
    hide Truncate, EvidenceLineOf;
    var g, line := FoldCall(f, call, r), LineOf(call);
    FoldCallGrows(f, call, r);
    if line in g.seen && line !in f.seen {
      assert g.lines[|g.lines| - 1] in g.lines;
      assert Told(g.lines, line);
    }
    forall x | x in g.seen ensures Told(g.lines, x) {
      if x in f.seen {
        ToldMore(f.lines, g.lines, x);
      }
    }
  }

  lemma {:induction false} FoldCallsTell(f: Folding, calls: seq<Call>, ms: seq<Message>)
    requires SeenTold(f)
    ensures SeenTold(FoldCalls(f, calls, ms)) && f.lines <= FoldCalls(f, calls, ms).lines
    ensures forall call | call in calls && Ok(ResultOf(ms, call.id)) && !IsMutation(call.name) ::
      Told(FoldCalls(f, calls, ms).lines, LineOf(call))
    decreases |calls|
  {
    hide FoldCall, ResultOf, LineOf, SeenTold, Told;
    if calls != [] {
      var n := |calls| - 1;
      assert calls == calls[..n] + [calls[n]];
      FoldCallsTell(f, calls[..n], ms);
      var g := FoldCalls(f, calls[..n], ms);
      FoldCallTells(g, calls[n], ResultOf(ms, calls[n].id));
      var h := FoldCalls(f, calls, ms);
      forall call | call in calls && Ok(ResultOf(ms, call.id)) && !IsMutation(call.name) ensures Told(h.lines, LineOf(call)) {
        if call in calls[..n] {
          ToldMore(g.lines, h.lines, LineOf(call));
        }
      }
    }
  }

  // What one message leaves in the history besides evidence of mutations.
  ghost predicate Accounted(ms: seq<Message>, i: nat, lines: seq<Line>)
    requires i < |ms|
  {
    var m := ms[i];
    && (IsWake(m) ==> WakeLine(Shrink(m.fields)) in lines)
    && (m.Mention? ==> ChatLine(Truncate(m.text, ANSWER_RUNES)) in lines)
    && (m.Assistant? && m.answer.Some? && m.answer.value != "" && !Rejected(ms, i) ==>
          AnswerLine(Truncate(m.answer.value, ANSWER_RUNES)) in lines)
    && (forall call | call in CallsOf(m) && Ok(ResultOf(ms, call.id)) && !IsMutation(call.name) :: Told(lines, LineOf(call)))
  }

  lemma {:induction false} AccountedMore(ms: seq<Message>, i: nat, a: seq<Line>, b: seq<Line>)
    requires i < |ms| && Accounted(ms, i, a) && a <= b
    ensures Accounted(ms, i, b)
  {
    hide Truncate, Shrink, ResultOf, Told;
    forall call | call in CallsOf(ms[i]) && Ok(ResultOf(ms, call.id)) && !IsMutation(call.name) ensures Told(b, LineOf(call)) {
      ToldMore(a, b, LineOf(call));
    }
  }

  lemma {:induction false} FoldOneTells(f: Folding, ms: seq<Message>, i: nat)
    requires i < |ms| && SeenTold(f)
    ensures var g := FoldOne(f, ms, i); SeenTold(g) && f.lines <= g.lines && Accounted(ms, i, g.lines)
  {
    hide FoldCalls, ResultOf, Truncate, Shrink, LineOf;
    var m, g := ms[i], FoldOne(f, ms, i);
    if m.Assistant? && !Rejected(ms, i) {
      var answered := if m.answer.Some? && m.answer.value != ""
        then f.(lines := f.lines + [AnswerLine(Truncate(m.answer.value, ANSWER_RUNES))]) else f;
      assert SeenTold(answered) by { SeenTells(f, answered.lines); }
      FoldCallsTell(answered, m.calls, ms);
      assert g == FoldCalls(answered, m.calls, ms);
      assert f.lines <= answered.lines <= g.lines;
      if m.answer.Some? && m.answer.value != "" {
        assert answered.lines[|f.lines|] == g.lines[|f.lines|];
        assert g.lines[|f.lines|] in g.lines;
      }
    } else if m.History? {
      forall line | line in g.seen ensures Told(g.lines, line) {
        if line in f.seen {
          ToldMore(f.lines, g.lines, line);
        }
      }
    } else {
      assert SeenTold(g) by { SeenTells(f, g.lines); }
    }
  }

  lemma {:induction false} SeenTells(f: Folding, lines: seq<Line>)
    requires SeenTold(f) && f.lines <= lines
    ensures SeenTold(f.(lines := lines))
  {
    forall line | line in f.seen ensures Told(lines, line) {
      ToldMore(f.lines, lines, line);
    }
  }

  lemma {:induction false} FoldUpToTells(ms: seq<Message>, n: nat, i: nat)
    requires i < n <= |ms|
    ensures SeenTold(FoldUpTo(ms, n)) && Accounted(ms, i, FoldUpTo(ms, n).lines)
    decreases n
  {
    hide FoldOne, Accounted, SeenTold;
    var before := FoldUpTo(ms, n - 1);
    if i < n - 1 {
      FoldUpToTells(ms, n - 1, i);
    } else if n - 1 > 0 {
      FoldUpToTells(ms, n - 1, n - 2);
    } else {
      assert SeenTold(before) by { NothingSeen(); }
    }
    FoldOneTells(before, ms, n - 1);
    if i < n - 1 {
      AccountedMore(ms, i, before.lines, FoldUpTo(ms, n).lines);
    }
  }

  lemma {:induction false} NothingSeen()
    ensures SeenTold(Folding([], {}))
  {
  }

  /** Every wake-up, tag, accepted answer and successful read of a folded range is told in the history. */
  lemma {:induction false} FoldTellsEveryStep(ms: seq<Message>, i: nat)
    requires i < |ms|
    ensures Accounted(ms, i, Fold(ms).lines)
  {
    hide FoldOne, Accounted, SeenTold;
    FoldUpToTells(ms, |ms|, i);
  }

  // ---------------------------------------------------------------------------------------------
  // Ids that are used again
  // ---------------------------------------------------------------------------------------------

  // What a result tells of a mutation that must be remembered.
  function EvidenceIn(r: Option<Result>): Option<Evidence> {
    if Ok(r) || Unknown(r) then Some(EvidenceOf(r.value)) else None
  }

  /**
    The fold looks a call's result up by its id. A mutation leaves the line of its own result, if and
    only if the last result under its id in the range tells the same.
   */
  lemma {:induction false} OwnLineIff(f: Folding, ms: seq<Message>, call: Call, own: Result)
    requires IsMutation(call.name)
    ensures FoldCall(f, call, ResultOf(ms, call.id)) == FoldCall(f, call, Some(own)) <==>
            EvidenceIn(ResultOf(ms, call.id)) == EvidenceIn(Some(own))
  {
    hide ResultOf, Truncate, EvidenceOf;
    var last := ResultOf(ms, call.id);
    var a, b := FoldCall(f, call, last), FoldCall(f, call, Some(own));
    assert |a.lines| == |f.lines| + if EvidenceIn(last).Some? then 1 else 0;
    assert |b.lines| == |f.lines| + if EvidenceIn(Some(own)).Some? then 1 else 0;
    if EvidenceIn(last).Some? && EvidenceIn(Some(own)).Some? {
      assert a.lines[|f.lines|] == EvidenceLineOf(call, last.value) && b.lines[|f.lines|] == EvidenceLineOf(call, own);
    }
  }

  // Two orders under one id.
  function SameId(first: Result, second: Result): seq<Message> {
    [Assistant(None, [Call("1", "place_order", "AAPL")]), ToolResult("1", first),
     Assistant(None, [Call("1", "place_order", "MSFT")]), ToolResult("1", second)]
  }

  lemma {:induction false} SameIdLast(first: Result, second: Result)
    ensures ResultOf(SameId(first, second), "1") == Some(second)
  {
  }

  /**
    When an id is used again, the later result stands for both calls: an order that was filled leaves no
    line once a later one is refused, and an order that was refused is told as filled.
   */
  lemma {:induction false} ReusedId()
    ensures var filled, refused := Success("filled", "filled"), Failure("REJECTED", "rejected", Some("not_executed"), 0);
      && Protocol(SameId(filled, refused)) && Fold(SameId(filled, refused)).lines == []
      && Fold(SameId(refused, filled)).lines ==
           [EvidenceLine("place_order", "AAPL", Succeeded("filled")), EvidenceLine("place_order", "MSFT", Succeeded("filled"))]
  {
    var filled, refused := Success("filled", "filled"), Failure("REJECTED", "rejected", Some("not_executed"), 0);
    SameIdProtocol(filled, refused);
    SameIdFold(filled, refused);
    SameIdFold(refused, filled);
    assert "not_executed"[0] != "unknown"[0];
    hide Fold, SameId, Protocol;
  }

  lemma {:induction false} SameIdProtocol(first: Result, second: Result)
    ensures Protocol(SameId(first, second))
  {
    var ms := SameId(first, second);
    BlockProtocol(ms[2], [ms[3]], []);
    assert [ms[2]] + [ms[3]] + [] == ms[2..];
    BlockProtocol(ms[0], [ms[1]], ms[2..]);
    assert [ms[0]] + [ms[1]] + ms[2..] == ms;
    NothingComplete();
  }

  lemma {:induction false} SameIdFold(first: Result, second: Result)
    ensures var evidence := EvidenceIn(Some(second));
      Fold(SameId(first, second)).lines == if evidence.None? then []
        else [EvidenceLine("place_order", "AAPL", evidence.value), EvidenceLine("place_order", "MSFT", evidence.value)]
  {
    var ms := SameId(first, second);
    var none := Folding([], {});
    SameIdLast(first, second);
    assert IsMutation("place_order");
    hide ResultOf, IsMutation;
    OneCall(none, ms[0].calls[0], ms);
    assert FoldUpTo(ms, 0) == none;
    var one := FoldCall(none, ms[0].calls[0], Some(second));
    assert FoldUpTo(ms, 1) == FoldOne(none, ms, 0) == one;
    assert FoldUpTo(ms, 2) == FoldOne(one, ms, 1) == one;
    OneCall(one, ms[2].calls[0], ms);
    var two := FoldCall(one, ms[2].calls[0], Some(second));
    assert FoldUpTo(ms, 3) == FoldOne(one, ms, 2) == two;
    assert FoldUpTo(ms, 4) == FoldOne(two, ms, 3) == two;
  }

  lemma {:induction false} OneCall(f: Folding, call: Call, ms: seq<Message>)
    ensures FoldCalls(f, [call], ms) == FoldCall(f, call, ResultOf(ms, call.id))
  {
    hide FoldCall, ResultOf;
    assert [call][..0] == [];
    assert FoldCalls(f, [], ms) == f;
  }

  // ---------------------------------------------------------------------------------------------
  // A conversation without a wake-up
  // ---------------------------------------------------------------------------------------------

  /** No wake-up, calls in the first message after the prompt, and a later answer: the fold orphans a result. */
  lemma {:induction false} UngroundedBreaks(enough: seq<Message> -> bool, r: Result)
    ensures var ms := [Plain("prompt"), Assistant(None, [Call("1", "get_price", "")]), ToolResult("1", r),
                       Plain("note"), Assistant(Some("done"), [])];
      Protocol(ms) && !Grounded(ms) && !Protocol(Compact(ms, enough).messages)
  {
    var ms := [Plain("prompt"), Assistant(None, [Call("1", "get_price", "")]), ToolResult("1", r),
               Plain("note"), Assistant(Some("done"), [])];
    OneMessage(ms[0]);
    BlockProtocol(ms[1], [ms[2]], ms[3..]);
    assert ms[3..] == [ms[3]] + [ms[4]];
    OneMessage(ms[3]);
    OneMessage(ms[4]);
    ProtocolAppend([ms[3]], [ms[4]]);
    assert ms[1..] == [ms[1]] + [ms[2]] + ms[3..];
    ProtocolAppend([ms[0]], ms[1..]);
    assert ms == [ms[0]] + ms[1..];
    assert !Grounded(ms);
    assert LastAnswer(ms, 2, 5) == 4;
    hide Protocol, Compact, Grounded, LastAnswer;
    UngroundedProtocol(ms, enough);
  }
}
