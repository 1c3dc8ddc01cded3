/**
  What a folded history says, in terms of the messages it was folded from: every line has its source, and
  every step that matters has its line.
 */
module FoldedHistory {
  import opened Prelude
  import opened Messages
  import opened Completion
  import opened Compaction

  // The last result recorded under an id.
  ghost predicate LastResult(ms: seq<Message>, id: string, r: Result) {
    exists i :: 0 <= i < |ms| && ms[i] == ToolResult(id, r) && forall j | i < j < |ms| :: !(ms[j].ToolResult? && ms[j].id == id)
  }

  // A message that is not a result under the id comes after.
  lemma {:induction false} LastEarlier(ms: seq<Message>, m: Message, id: string, r: Result)
    requires LastResult(ms, id, r) && !(m.ToolResult? && m.id == id)
    ensures LastResult(ms + [m], id, r)
  {
    var i :| 0 <= i < |ms| && ms[i] == ToolResult(id, r) && forall j | i < j < |ms| :: !(ms[j].ToolResult? && ms[j].id == id);
    var more := ms + [m];
    assert more[i] == ms[i];
    assert forall j | i < j < |ms| :: more[j] == ms[j];
  }

  lemma {:induction false} ResultIsLast(ms: seq<Message>, id: string)
    ensures ResultOf(ms, id).Some? ==> LastResult(ms, id, ResultOf(ms, id).value)
    ensures ResultOf(ms, id).None? ==> forall i | 0 <= i < |ms| :: !(ms[i].ToolResult? && ms[i].id == id)
    decreases |ms|
  {
    if ms != [] {
      var n := |ms| - 1;
      var front, last := ms[..n], ms[n];
      assert ms == front + [last];
      if last.ToolResult? && last.id == id {
        assert ms[n] == ToolResult(id, last.content);
      } else {
        ResultIsLast(front, id);
        hide LastResult;
        if ResultOf(front, id).Some? {
          LastEarlier(front, last, id, ResultOf(front, id).value);
        } else {
          assert forall i | 0 <= i < n :: ms[i] == front[i];
        }
      }
    }
  }

  lemma {:induction false} LastIsResult(ms: seq<Message>, id: string, r: Result)
    requires LastResult(ms, id, r)
    ensures ResultOf(ms, id) == Some(r)
  {
    ResultIsLast(ms, id);
    var i :| 0 <= i < |ms| && ms[i] == ToolResult(id, r) && forall j | i < j < |ms| :: !(ms[j].ToolResult? && ms[j].id == id);
    if ResultOf(ms, id).Some? {
      var k :| 0 <= k < |ms| && ms[k] == ToolResult(id, ResultOf(ms, id).value) && forall j | k < j < |ms| :: !(ms[j].ToolResult? && ms[j].id == id);
      assert i == k;
    }
  }

  // The tools that change something; a call without a name counts as one.
  predicate ChangesSomething(name: string) {
    name in {"create_event", "delete_event", "place_order", "cancel_order", "close_position", "set_position_stops",
             "post_chat", "memory_save", "memory_edit", ""}
  }

  predicate Succeeds(r: Result) {
    r.Success? || (r.Digest? && r.ok)
  }

  // A call that changed something, or may have.
  predicate Effective(call: Call, r: Result) {
    ChangesSomething(call.name) && (Succeeds(r) || (r.Failure? && r.outcome == Some("unknown")))
  }

  // The line names the tool, its arguments cut at 160, and what it gave: the evidence of a success, or
  // the error of an outcome that is not known.
  predicate Says(line: Line, call: Call, r: Result) {
    && line.EvidenceLine? && line.name == call.name && CutAt(call.arguments, line.arguments, 160)
    && match r
       case Success(_, evidence) => line.evidence == Succeeded(evidence)
       case Digest(text, ok) => ok && line.evidence == Succeeded(text)
       case Failure(code, message, outcome, _) => outcome == Some("unknown") && line.evidence == Uncertain(code, message)
       case _ => false
  }

  lemma {:induction false} LineSays(call: Call, r: Result)
    requires Effective(call, r)
    ensures Says(EvidenceLineOf(call, r), call, r) && IsMutation(call.name) && (Ok(Some(r)) || Unknown(Some(r)))
  {
    TruncateCuts(call.arguments, ARGUMENT_RUNES);
    hide Truncate;
  }

  lemma {:induction false} EvidentSays(call: Call, r: Option<Result>)
    requires IsMutation(call.name) && (Ok(r) || Unknown(r))
    ensures r.Some? && Effective(call, r.value)
  {
  }

  /** A mutation that succeeded or may have leaves a line that says which, with its name and arguments. */
  lemma {:induction false} FoldSaysMutations(ms: seq<Message>, call: Call, r: Result)
    requires call in Calls(ms) && Effective(call, r) && LastResult(ms, call.id, r)
    ensures exists line :: line in Fold(ms).lines && Says(line, call, r)
  {
    LastIsResult(ms, call.id, r);
    LineSays(call, r);
    hide Fold, Says, Effective, EvidenceLineOf, ResultOf, Ok, Unknown;
    assert Performed(ms, call, r);
    assert Evident(ms, EvidenceLineOf(call, r));
    FoldKeepsEvidence(ms, EvidenceLineOf(call, r));
  }

  // Some call of the conversation with such a line, or the line itself.
  ghost predicate Holds(ms: seq<Message>, line: Line) {
    Remembered(ms, line) || exists call, r :: call in Calls(ms) && Effective(call, r) && LastResult(ms, call.id, r) && Says(line, call, r)
  }

  lemma {:induction false} EvidentHolds(ms: seq<Message>, line: Line)
    requires Evident(ms, line)
    ensures Holds(ms, line)
  {
    hide Effective, Says, EvidenceLineOf, LastResult, Ok, Unknown, IsMutation;
    if !Remembered(ms, line) {
      var call, r :| Performed(ms, call, r) && line == EvidenceLineOf(call, r);
      EvidentSays(call, Some(r));
      LineSays(call, r);
      ResultIsLast(ms, call.id);
    }
  }

  /** The same after any number of compactions: the line is in the history, or a call that stands for it is there. */
  lemma {:induction false} MutationsSurvive(ms: seq<Message>, rounds: seq<seq<Message> -> bool>, call: Call, r: Result)
    requires Protocol(ms) && ms != [] && CallsOf(ms[0]) == [] && Grounded(ms) && DistinctIds(Calls(ms))
    requires call in Calls(ms) && Effective(call, r) && LastResult(ms, call.id, r)
    ensures exists line :: Says(line, call, r) && Holds(CompactMany(ms, rounds), line)
  {
    LastIsResult(ms, call.id, r);
    LineSays(call, r);
    hide Says, Effective, EvidenceLineOf, ResultOf, Ok, Unknown, Protocol, Grounded, DistinctIds, CompactMany, Holds, LastResult;
    var line := EvidenceLineOf(call, r);
    assert Performed(ms, call, r);
    assert Evident(ms, line);
    EvidenceSurvives(ms, rounds, line);
    EvidentHolds(CompactMany(ms, rounds), line);
  }

  // ---------------------------------------------------------------------------------------------
  // Every line has its source
  // ---------------------------------------------------------------------------------------------

  // An answer that was not followed by a repair instruction.
  predicate AcceptedAnswer(ms: seq<Message>, i: nat) {
    && i < |ms| && ms[i].Assistant? && ms[i].answer.Some? && ms[i].answer.value != ""
    && !(ms[i].calls == [] && i + 1 < |ms| && ms[i + 1].Instruction?)
  }

  // Where a line of a folded history comes from.
  ghost predicate Sourced(ms: seq<Message>, line: Line) {
    || Remembered(ms, line)
    || match line
       case WakeLine(fields) => exists i :: 0 <= i < |ms| && IsWake(ms[i]) && Shrunk(ms[i].fields, fields)
       case ChatLine(text) => exists i :: 0 <= i < |ms| && ms[i].Mention? && CutAt(ms[i].text, text, 1000)
       case AnswerLine(text) => exists i: nat :: AcceptedAnswer(ms, i) && CutAt(ms[i].answer.value, text, 1000)
       case CallLine(name, arguments) =>
         !ChangesSomething(name) && exists call, r :: Read(ms, call, r) && call.name == name && CutAt(call.arguments, arguments, 160)
       case SkillLine(name, arguments, result) =>
         name == "skill_get" && exists call :: Read(ms, call, result) && call.name == name && CutAt(call.arguments, arguments, 160)
       case EvidenceLine(_, _, _) =>
         exists call, r :: call in Calls(ms) && Effective(call, r) && LastResult(ms, call.id, r) && Says(line, call, r)
  }

  // A successful call.
  ghost predicate Read(ms: seq<Message>, call: Call, r: Result) {
    call in Calls(ms) && LastResult(ms, call.id, r) && Succeeds(r)
  }

  ghost predicate AllSourced(ms: seq<Message>, lines: seq<Line>) {
    forall line | line in lines :: Sourced(ms, line)
  }

  lemma {:induction false} CallSourced(ms: seq<Message>, f: Folding, call: Call)
    requires AllSourced(ms, f.lines) && call in Calls(ms)
    ensures AllSourced(ms, FoldCall(f, call, ResultOf(ms, call.id)).lines)
  {
    var r := ResultOf(ms, call.id);
    ResultIsLast(ms, call.id);
    TruncateCuts(call.arguments, ARGUMENT_RUNES);
    if IsMutation(call.name) && (Ok(r) || Unknown(r)) {
      EvidentSays(call, r);
      LineSays(call, r.value);
    }
    hide LastResult, ResultOf, Truncate, CutAt, EvidenceLineOf, Says, Effective, Remembered;
    var g := FoldCall(f, call, r);
    forall line | line in g.lines ensures Sourced(ms, line) {
      if line !in f.lines {
        assert Ok(r) ==> Read(ms, call, r.value);
        assert line == g.lines[|f.lines|];
      }
    }
  }

  lemma {:induction false} CallsSourced(ms: seq<Message>, f: Folding, calls: seq<Call>)
    requires AllSourced(ms, f.lines) && forall call | call in calls :: call in Calls(ms)
    ensures AllSourced(ms, FoldCalls(f, calls, ms).lines)
    decreases |calls|
  {
    hide FoldCall, ResultOf, AllSourced, Calls;
    if calls != [] {
      var n := |calls| - 1;
      assert calls[n] in calls;
      CallsSourced(ms, f, calls[..n]);
      CallSourced(ms, FoldCalls(f, calls[..n], ms), calls[n]);
    }
  }

  lemma {:induction false} MemberCalls(ms: seq<Message>, i: nat)
    requires i < |ms|
    ensures forall call | call in CallsOf(ms[i]) :: call in Calls(ms)
    decreases |ms|
  {
    var n := |ms| - 1;
    if i < n {
      MemberCalls(ms[..n], i);
      assert ms[..n][i] == ms[i];
    }
  }

  lemma {:induction false} PlainSourced(ms: seq<Message>, i: nat)
    requires i < |ms|
    ensures IsWake(ms[i]) ==> Sourced(ms, WakeLine(Shrink(ms[i].fields)))
    ensures ms[i].Mention? ==> Sourced(ms, ChatLine(Truncate(ms[i].text, ANSWER_RUNES)))
    ensures AcceptedAnswer(ms, i) ==> Sourced(ms, AnswerLine(Truncate(ms[i].answer.value, ANSWER_RUNES)))
    ensures ms[i].History? ==> AllSourced(ms, ms[i].lines)
  {
    hide Truncate, CutAt, Shrink, Shrunk;
    if IsWake(ms[i]) {
      ShrinkKeeps(ms[i].fields);
    } else if ms[i].Mention? {
      TruncateCuts(ms[i].text, ANSWER_RUNES);
    } else if AcceptedAnswer(ms, i) {
      TruncateCuts(ms[i].answer.value, ANSWER_RUNES);
    }
  }

  lemma {:induction false} OneSourced(ms: seq<Message>, f: Folding, i: nat)
    requires i < |ms| && AllSourced(ms, f.lines)
    ensures AllSourced(ms, FoldOne(f, ms, i).lines)
  {
    PlainSourced(ms, i);
    MemberCalls(ms, i);
    hide Sourced, Truncate, Shrink, FoldCalls, Calls;
    var m := ms[i];
    if m.Assistant? && !Rejected(ms, i) {
      var answered := if m.answer.Some? && m.answer.value != ""
        then f.(lines := f.lines + [AnswerLine(Truncate(m.answer.value, ANSWER_RUNES))]) else f;
      assert AllSourced(ms, answered.lines);
      CallsSourced(ms, answered, m.calls);
    }
  }

  lemma {:induction false} UpToSourced(ms: seq<Message>, n: nat)
    requires n <= |ms|
    ensures AllSourced(ms, FoldUpTo(ms, n).lines)
    decreases n
  {
    hide FoldOne, Sourced;
    if n > 0 {
      UpToSourced(ms, n - 1);
      OneSourced(ms, FoldUpTo(ms, n - 1), n - 1);
    }
  }

  /**
    A folded history invents nothing: each of its lines was in an earlier history, or tells of a wake-up,
    a tag, an accepted answer, a successful read or skill, or a mutation that succeeded or may have, as the
    last result under its id says.
   */
  lemma {:induction false} FoldInventsNothing(ms: seq<Message>, line: Line)
    requires line in Fold(ms).lines
    ensures Sourced(ms, line)
  {
    hide FoldUpTo, Sourced;
    UpToSourced(ms, |ms|);
  }

  // ---------------------------------------------------------------------------------------------
  // Every step has its line
  // ---------------------------------------------------------------------------------------------

  // The line of a wake-up, a tag, an accepted answer or a successful read.
  ghost predicate Leads(ms: seq<Message>, i: nat, lines: seq<Line>)
    requires i < |ms|
  {
    var m := ms[i];
    && (IsWake(m) ==> exists kept :: WakeLine(kept) in lines && Shrunk(m.fields, kept))
    && (m.Mention? ==> exists text :: ChatLine(text) in lines && CutAt(m.text, text, 1000))
    && (AcceptedAnswer(ms, i) ==> exists text :: AnswerLine(text) in lines && CutAt(m.answer.value, text, 1000))
    && (forall call, r | call in CallsOf(m) && Read(ms, call, r) && !ChangesSomething(call.name) :: ReadLine(call, lines))
  }

  ghost predicate ReadLine(call: Call, lines: seq<Line>) {
    exists arguments ::
      && CutAt(call.arguments, arguments, 160)
      && (CallLine(call.name, arguments) in lines || exists result :: SkillLine(call.name, arguments, result) in lines)
  }

  lemma {:induction false} ToldIsRead(call: Call, lines: seq<Line>)
    requires Told(lines, LineOf(call))
    ensures ReadLine(call, lines)
  {
    TruncateCuts(call.arguments, ARGUMENT_RUNES);
    hide Truncate, CutAt;
    assert LineOf(call) == CallLine(call.name, Truncate(call.arguments, ARGUMENT_RUNES));
  }

  /** Every wake-up, tag, accepted answer and successful read of a folded range has its line. */
  lemma {:induction false} FoldSaysSteps(ms: seq<Message>, i: nat)
    requires i < |ms|
    ensures Leads(ms, i, Fold(ms).lines)
  {
    FoldTellsEveryStep(ms, i);
    var m, lines := ms[i], Fold(ms).lines;
    hide Fold, Truncate, CutAt, Shrink, Shrunk, Told, LineOf, ReadLine, ResultOf;
    if IsWake(m) {
      ShrinkKeeps(m.fields);
    }
    if m.Mention? {
      TruncateCuts(m.text, ANSWER_RUNES);
    }
    if AcceptedAnswer(ms, i) {
      TruncateCuts(m.answer.value, ANSWER_RUNES);
    }
    hide LastResult;
    forall call, r | call in CallsOf(m) && Read(ms, call, r) && !ChangesSomething(call.name) ensures ReadLine(call, lines) {
      LastIsResult(ms, call.id, r);
      ToldIsRead(call, lines);
    }
  }

  // ---------------------------------------------------------------------------------------------
  // What is folded
  // ---------------------------------------------------------------------------------------------

  // The last wake-up of a conversation.
  ghost predicate WakeAt(ms: seq<Message>, w: nat) {
    1 <= w < |ms| && IsWake(ms[w]) && forall j | w < j < |ms| :: !IsWake(ms[j])
  }

  // The last assistant message beyond the one after the wake-up.
  ghost predicate TailAt(ms: seq<Message>, w: nat, tail: nat) {
    w + 1 < tail < |ms| && ms[tail].Assistant? && forall j | tail < j < |ms| :: !ms[j].Assistant?
  }

  lemma {:induction false} WakeIsLast(ms: seq<Message>, w: nat)
    requires WakeAt(ms, w)
    ensures LastWake(ms, |ms|) == w
  {
    LastWakeFacts(ms, |ms|);
  }

  lemma {:induction false} TailIsLast(ms: seq<Message>, w: nat, tail: nat)
    requires TailAt(ms, w, tail)
    ensures LastAnswer(ms, w + 1, |ms|) == tail
  {
    AnswerFound(ms, w + 1, tail, |ms|);
  }

  lemma {:induction false} AnswerFound(ms: seq<Message>, beyond: nat, tail: nat, n: nat)
    requires beyond < tail < n <= |ms| && ms[tail].Assistant? && forall j | tail < j < |ms| :: !ms[j].Assistant?
    ensures LastAnswer(ms, beyond, n) == tail
    decreases n
  {
    if n - 1 > tail {
      AnswerFound(ms, beyond, tail, n - 1);
    }
  }

  /** Everything between the prompt and the last wake-up becomes one history; if that is enough, nothing else changes. */
  lemma {:induction false} EarlierRunsAreFolded(ms: seq<Message>, enough: seq<Message> -> bool, w: nat)
    requires WakeAt(ms, w) && w > 1 && !(w == 2 && ms[1].History?)
    requires enough([ms[0]] + [Fold(ms[1..w])] + ms[w..])
    ensures Compact(ms, enough) == Compacted([ms[0]] + [Fold(ms[1..w])] + ms[w..], [1])
  {
    WakeIsLast(ms, w);
    hide LastWake, Fold, LastAnswer;
    assert ms[..1] == [ms[0]];
  }

  /** If it is not, or nothing precedes the wake-up, the steps of this Run up to its last assistant message become one too. */
  lemma {:induction false} ThisRunIsFolded(ms: seq<Message>, enough: seq<Message> -> bool, w: nat, tail: nat)
    requires WakeAt(ms, w) && TailAt(ms, w, tail) && (w == 1 || (w == 2 && ms[1].History?)) && !(tail == w + 2 && ms[w + 1].History?)
    ensures Compact(ms, enough) == Compacted(ms[..w + 1] + [Fold(ms[w + 1..tail])] + ms[tail..], [w + 1])
  {
    WakeIsLast(ms, w);
    TailIsLast(ms, w, tail);
    hide LastWake, Fold, LastAnswer;
    assert [] + [w + 1] == [w + 1];
  }

  /** Both at once. */
  lemma {:induction false} BothAreFolded(ms: seq<Message>, enough: seq<Message> -> bool, w: nat, tail: nat)
    requires WakeAt(ms, w) && w > 1 && !(w == 2 && ms[1].History?) && TailAt(ms, w, tail) && !(tail == w + 2 && ms[w + 1].History?)
    requires !enough([ms[0]] + [Fold(ms[1..w])] + ms[w..])
    ensures Compact(ms, enough).messages == [ms[0]] + [Fold(ms[1..w])] + [ms[w]] + [Fold(ms[w + 1..tail])] + ms[tail..]
  {
    WakeIsLast(ms, w);
    hide LastWake, Fold, LastAnswer;
    var h := Fold(ms[1..w]);
    var first, shift := [ms[0]] + [h] + ms[w..], tail - w + 2;
    assert ms[..1] == [ms[0]];
    assert Before(ms).messages == first && WakeAfter(ms) == 2;
    hide Before, WakeAfter;
    Shifted(ms, h, w, tail);
    TailIsLast(first, 2, shift);
  }

  // The conversation after the first fold.
  lemma {:induction false} Shifted(ms: seq<Message>, h: Message, w: nat, tail: nat)
    requires w > 1 && TailAt(ms, w, tail)
    ensures var first, shift := [ms[0]] + [h] + ms[w..], tail - w + 2;
      && TailAt(first, 2, shift) && first[..3] == [ms[0]] + [h] + [ms[w]]
      && first[3..shift] == ms[w + 1..tail] && first[shift..] == ms[tail..] && first[3] == ms[w + 1]
  {
    var first, shift := [ms[0]] + [h] + ms[w..], tail - w + 2;
    assert forall j | 2 <= j < |first| :: first[j] == ms[j + w - 2];
  }
}
