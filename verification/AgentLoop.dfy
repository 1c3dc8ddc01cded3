/**
  The loop of one Run: it asks the model, runs the tools it asks for, and ends the Run, within the
  budgets of the Session. Everything outside the loop (the clock of signals, the model, the tools) is an
  arbitrary oracle.
 */
module AgentLoop {
  import opened Prelude
  import opened Messages
  import opened Completion
  import opened Compaction
  import opened Trace
  import opened Journal

  const MAX_GENERATE_RETRIES := 3
  const MAX_FINALIZATION_RETRIES := 5

  // What the loop finds when it looks: all well, its context canceled, its Run no longer running, or
  // persistence failing.
  datatype Signal = Fine | Canceled | Gone | Broken

  datatype FinishReason = StopReason | ToolReason | OtherReason

  datatype Reply =
    | Answer(text: Option<string>, calls: seq<Call>, finish: FinishReason)
    | Error(dispatched: bool, retryable: bool)

  // What ParseFinalization makes of a final answer.
  datatype Verdict = Invalid | Accepted(failed: bool)

  datatype Oracle = Oracle(
    signals: nat -> Signal, replies: nat -> Reply, results: nat -> Result, verdicts: nat -> Verdict,
    mentions: nat -> Option<string>, budgets: nat -> Option<bool>)

  datatype Core = Core(
    messages: seq<Message>, progress: seq<TraceEntry>, modelCalls: int, toolCalls: int, decisions: int,
    finalizing: bool, attempts: int)

  datatype Flags = Flags(ended: bool, fault: bool, canceled: bool)

  // The writes so far, the ids with a result or an execution, and when finalization began.
  datatype Log = Log(journal: seq<Write>, known: set<string>, finalAt: Option<nat>)

  function Cap(limit: int): nat {
    if limit > 0 then limit else 0
  }

  predicate Stopped(f: Flags) {
    f.ended || f.fault || f.canceled
  }

  const DISABLED := Failure("TOOL_DISABLED", "disabled", Some("not_executed"), 0)
  const EXHAUSTED := Failure("MAX_TOOL_CALL_REACHED", "exhausted", Some("not_executed"), 0)

  // ---------------------------------------------------------------------------------------------
  // Invariants
  // ---------------------------------------------------------------------------------------------

  // The counters are in step with the trace and within the budgets.
  ghost predicate Counters(c: Core, maxLoop: int, maxToolCall: int) {
    && c.modelCalls == ModelCalls(c.progress) && c.toolCalls == ToolCalls(c.progress) && Numbered(c.progress, c.decisions)
    && 0 <= c.decisions <= Cap(maxLoop) && c.toolCalls <= Cap(maxToolCall)
    && 0 <= c.attempts <= MAX_FINALIZATION_RETRIES + 1 && (!c.finalizing ==> c.attempts == 0)
    && c.modelCalls <= (MAX_GENERATE_RETRIES + 1) * c.decisions + MAX_FINALIZATION_RETRIES + 1
  }

  // A conversation of the Run: a system prompt, a wake-up, and calls with distinct ids.
  ghost predicate Talk(ms: seq<Message>) {
    && ms != [] && !ms[0].ToolResult? && CallsOf(ms[0]) == [] && DistinctCalls(ms)
    && (exists i | 1 <= i < |ms| :: IsWake(ms[i]))
  }

  ghost predicate LogInv(log: Log, past: set<string>) {
    && JournalInv(log.journal, past) && past <= log.known
    && (forall id | id !in log.known :: !Ran(log.journal, id) && Unanswered(log.journal, id))
    && (log.finalAt.Some? ==> forall k | log.finalAt.value <= k < |log.journal| :: !log.journal[k].Executed?)
  }

  ghost predicate Spoken(log: Log, past: set<string>, ms: seq<Message>) {
    && Honest(log.journal, |log.journal|, past, ms)
    && (forall m | m in ms && m.ToolResult? :: m.id in log.known)
  }

  // Every known id is old, or came with an earlier reply.
  ghost predicate FromReplies(replies: nat -> Reply, clock: nat, past: set<string>, known: set<string>) {
    forall id | id in known :: id in past || exists t: nat :: t < clock && Offers(replies(t), id)
  }

  predicate Offers(r: Reply, id: string) {
    r.Answer? && Called(r.calls, id)
  }

  // The model gives every call an id of its own.
  ghost predicate FreshIds(replies: nat -> Reply, past: set<string>) {
    && (forall t: nat :: replies(t).Answer? ==> DistinctIds(replies(t).calls))
    && (forall t: nat, id | Offers(replies(t), id) :: id !in past)
    && (forall t: nat, u: nat, id | t < u && Offers(replies(t), id) :: !Offers(replies(u), id))
  }

  lemma {:induction false} NewIds(replies: nat -> Reply, clock: nat, past: set<string>, known: set<string>, id: string)
    requires FreshIds(replies, past) && FromReplies(replies, clock, past, known) && Offers(replies(clock), id)
    ensures id !in known
  {
  }

  lemma {:induction false} LaterReplies(replies: nat -> Reply, clock: nat, later: nat, past: set<string>, known: set<string>)
    requires FromReplies(replies, clock, past, known) && clock <= later
    ensures FromReplies(replies, later, past, known)
  {
    forall id | id in known && id !in past ensures exists t: nat :: t < later && Offers(replies(t), id) {
      var t: nat :| t < clock && Offers(replies(t), id);
    }
  }

  // ---------------------------------------------------------------------------------------------
  // Writes
  // ---------------------------------------------------------------------------------------------

  function Wrote(log: Log, w: Write): Log {
    log.(journal := log.journal + [w])
  }

  function Said(ms: seq<Message>, verbatim: bool): Write {
    SavedConversation(ms, StoredForm(verbatim, ms))
  }

  lemma {:induction false} UnansweredAppend(journal: seq<Write>, w: Write, id: string)
    requires Unanswered(journal, id) && (w.SavedConversation? ==> forall m | m in w.said && m.ToolResult? :: m.id != id)
    ensures Unanswered(journal + [w], id)
  {
    var more := journal + [w];
    forall k | 0 <= k < |more| && more[k].SavedConversation?
      ensures forall m | m in more[k].said && m.ToolResult? :: m.id != id
    {
      assert more[k] == if k < |journal| then journal[k] else w;
    }
  }

  // The conversation stays honest as the journal grows.
  lemma {:induction false} HonestGrows(journal: seq<Write>, w: Write, past: set<string>, ms: seq<Message>)
    requires Honest(journal, |journal|, past, ms)
    requires w.Executed? ==> forall m | m in ms && m.ToolResult? :: m.id != w.call.id
    ensures Honest(journal + [w], |journal| + 1, past, ms)
  {
    hide RanWith;
    var more := journal + [w];
    assert journal[..|journal|] == journal && more[..|journal| + 1] == more;
    forall m | m in ms ensures HonestResult(more, |journal| + 1, past, m) {
      assert HonestResult(journal, |journal|, past, m);
      if m.ToolResult? {
        RanAppend(journal, w, m.id);
        if RanWith(journal, m.id, m.content) {
          RanWithGrows(journal, w, m.id, m.content);
        }
      }
    }
  }

  // A write that runs nothing and saves only known results.
  lemma {:induction false} QuietWrite(log: Log, past: set<string>, w: Write)
    requires LogInv(log, past) && JournalInv(log.journal + [w], past) && !w.Executed?
    requires w.SavedConversation? ==> forall m | m in w.said && m.ToolResult? :: m.id in log.known
    ensures LogInv(Wrote(log, w), past)
  {
    hide JournalInv, Unanswered, Ran;
    var more := log.journal + [w];
    forall id | id !in log.known ensures !Ran(more, id) && Unanswered(more, id) {
      RanAppend(log.journal, w, id);
      UnansweredAppend(log.journal, w, id);
    }
    forall k | log.finalAt.Some? && log.finalAt.value <= k < |more| ensures !more[k].Executed? {
      assert more[k] == if k < |log.journal| then log.journal[k] else w;
    }
  }

  lemma {:induction false} ProgressWrite(log: Log, past: set<string>, c: Core, maxLoop: int, maxToolCall: int)
    requires LogInv(log, past) && Spoken(log, past, c.messages) && c.modelCalls == ModelCalls(c.progress) && c.toolCalls == ToolCalls(c.progress)
    requires Numbered(c.progress, c.decisions) && TraceTrue(log.journal, c.progress)
    ensures var after := Wrote(log, SavedProgress(c.modelCalls, c.toolCalls, c.progress, c.decisions));
      LogInv(after, past) && Spoken(after, past, c.messages) && TraceTrue(after.journal, c.progress)
  {
    hide JournalInv, Unanswered, Ran, Honest, TraceTrue;
    TraceTrueWrite(log.journal, SavedProgress(c.modelCalls, c.toolCalls, c.progress, c.decisions), c.progress);
    AppendProgress(log.journal, past, c.progress, c.decisions);
    QuietWrite(log, past, SavedProgress(c.modelCalls, c.toolCalls, c.progress, c.decisions));
    HonestGrows(log.journal, SavedProgress(c.modelCalls, c.toolCalls, c.progress, c.decisions), past, c.messages);
  }

  lemma {:induction false} EndWrite(log: Log, past: set<string>, ms: seq<Message>, ending: Ending)
    requires LogInv(log, past) && Spoken(log, past, ms)
    ensures LogInv(Wrote(log, Ended(ending)), past) && Spoken(Wrote(log, Ended(ending)), past, ms)
  {
    hide JournalInv, Unanswered, Ran, Honest;
    AppendEnd(log.journal, past, ending);
    QuietWrite(log, past, Ended(ending));
    HonestGrows(log.journal, Ended(ending), past, ms);
  }

  lemma {:induction false} TailTalk(ms: seq<Message>)
    requires ms != [] && !ms[0].ToolResult? && CallsOf(ms[0]) == [] && Partial(ms) && DistinctCalls(ms)
    ensures Partial(ms[1..]) && DistinctCalls(ms[1..])
  {
    OneMessage(ms[0]);
    ProtocolAppend([ms[0]], ms[1..]);
    assert ms == [ms[0]] + ms[1..];
    DistinctTail(ms, 1);
  }

  lemma {:induction false} ConversationWrite(log: Log, past: set<string>, ms: seq<Message>, verbatim: bool)
    requires LogInv(log, past) && Spoken(log, past, ms) && Talk(ms) && Partial(ms)
    ensures var after := Wrote(log, Said(ms[1..], verbatim)); LogInv(after, past) && Spoken(after, past, ms)
  {
    TailTalk(ms);
    hide JournalInv, Unanswered, Ran, Partial, DistinctCalls, HonestResult, StoredForm;
    var tail := ms[1..];
    assert Honest(log.journal, |log.journal|, past, tail);
    AppendConversation(log.journal, past, tail, verbatim);
    QuietWrite(log, past, Said(tail, verbatim));
    HonestGrows(log.journal, Said(tail, verbatim), past, ms);
  }

  // Running a call whose pending entry was just persisted.
  lemma {:induction false} ExecuteWrite(log: Log, past: set<string>, ms: seq<Message>, call: Call, r: Result)
    requires LogInv(log, past) && Spoken(log, past, ms) && call.id !in log.known && log.finalAt.None?
    requires log.journal != [] && Announced(log.journal + [Executed(call, r)], |log.journal|)
    ensures var after := Wrote(log, Executed(call, r)).(known := log.known + {call.id});
      LogInv(after, past) && Spoken(after, past, ms) && RanWith(after.journal, call.id, r) && OnlyWith(after.journal, call.id, r)
  {
    assert !Ran(log.journal, call.id);
    OnlyOnce(log.journal, call, r);
    hide OnlyWith;
    hide JournalInv, Unanswered, Ran, Announced, Honest;
    var w := Executed(call, r);
    var more := log.journal + [w];
    AppendExecuted(log.journal, past, call, r);
    forall id | id !in log.known + {call.id} ensures !Ran(more, id) && Unanswered(more, id) {
      RanAppend(log.journal, w, id);
      UnansweredAppend(log.journal, w, id);
    }
    HonestGrows(log.journal, w, past, ms);
    assert more[|log.journal|] == w;
  }

  // ---------------------------------------------------------------------------------------------
  // Messages
  // ---------------------------------------------------------------------------------------------

  lemma {:induction false} SayPlain(log: Log, past: set<string>, ms: seq<Message>, m: Message)
    requires Spoken(log, past, ms) && Talk(ms) && !m.ToolResult? && DistinctIds(CallsOf(m))
    ensures Spoken(log, past, ms + [m]) && Talk(ms + [m])
  {
    hide HonestResult;
    var more := ms + [m];
    forall x | x in more ensures HonestResult(log.journal, |log.journal|, past, x) {
      if x !in ms {
        assert x == m;
        assert HonestResult(log.journal, |log.journal|, past, m) by { NotAResult(log, past, m); }
      }
    }
    TalkGrows(ms, m);
  }

  lemma {:induction false} NotAResult(log: Log, past: set<string>, m: Message)
    requires !m.ToolResult?
    ensures HonestResult(log.journal, |log.journal|, past, m)
  {
  }

  lemma {:induction false} TalkGrows(ms: seq<Message>, m: Message)
    requires Talk(ms) && DistinctIds(CallsOf(m))
    ensures Talk(ms + [m])
  {
    hide DistinctIds;
    var more := ms + [m];
    forall i | 0 <= i < |more| ensures DistinctIds(CallsOf(more[i])) {
      assert more[i] == if i < |ms| then ms[i] else m;
    }
    var i :| 1 <= i < |ms| && IsWake(ms[i]);
    assert more[i] == ms[i];
  }

  // An honest result joins the conversation under an id that is now known.
  lemma {:induction false} SayResult(log: Log, past: set<string>, ms: seq<Message>, id: string, r: Result)
    requires Spoken(log, past, ms) && Talk(ms) && id in log.known
    requires RanWith(log.journal, id, r) || (Denial(r) && !Ran(log.journal, id))
    ensures Spoken(log, past, ms + [ToolResult(id, r)]) && Talk(ms + [ToolResult(id, r)])
  {
    hide RanWith, Ran;
    var m := ToolResult(id, r);
    assert log.journal[..|log.journal|] == log.journal;
    assert HonestResult(log.journal, |log.journal|, past, m);
    hide HonestResult;
    var more := ms + [m];
    forall x | x in more ensures HonestResult(log.journal, |log.journal|, past, x) {
      assert x in ms || x == m;
    }
    TalkGrows(ms, m);
  }

  // A refusal: the id becomes known without having run.
  lemma {:induction false} Refuse(log: Log, past: set<string>, ms: seq<Message>, id: string, r: Result)
    requires LogInv(log, past) && Spoken(log, past, ms) && Talk(ms) && id !in log.known && Denial(r)
    ensures var after := log.(known := log.known + {id});
      LogInv(after, past) && Spoken(after, past, ms + [ToolResult(id, r)]) && Talk(ms + [ToolResult(id, r)])
  {
    hide JournalInv, Unanswered, Ran, Honest, Talk;
    SayResult(log.(known := log.known + {id}), past, ms, id, r);
  }

  lemma {:induction false} CompactedShape(ms: seq<Message>, enough: seq<Message> -> bool)
    requires Talk(ms) && Protocol(ms)
    ensures var r := Compact(ms, enough).messages;
      Protocol(r) && r != [] && r[0] == ms[0] && exists i | 1 <= i < |r| :: IsWake(r[i])
  {
    hide Compact, Protocol, LastWake, DistinctCalls;
    assert Grounded(ms);
    CompactKeepsProtocol(ms, enough);
    LastWakeFacts(ms, |ms|);
    WokenStays(ms, enough, LastWake(ms, |ms|));
  }

  lemma {:induction false} CompactedTalk(log: Log, past: set<string>, ms: seq<Message>, enough: seq<Message> -> bool)
    requires Spoken(log, past, ms) && Talk(ms) && Protocol(ms)
    ensures var r := Compact(ms, enough).messages; Spoken(log, past, r) && Talk(r) && Protocol(r)
  {
    hide Compact, Protocol, HonestResult;
    var r := Compact(ms, enough).messages;
    CompactedShape(ms, enough);
    forall m | m in r ensures m in ms || m.History? {
      CompactMembers(ms, enough, m);
    }
    forall m | m in r ensures HonestResult(log.journal, |log.journal|, past, m) {
      if m !in ms {
        NotAResult(log, past, m);
      }
    }
    forall i | 0 <= i < |r| ensures DistinctIds(CallsOf(r[i])) {
      assert r[i] in r;
      if r[i] in ms {
        var j :| 0 <= j < |ms| && ms[j] == r[i];
      }
    }
  }

  // ---------------------------------------------------------------------------------------------
  // The loop
  // ---------------------------------------------------------------------------------------------

  class RunLoop {
    const maxLoop: int
    const maxToolCall: int
    const verbatim: bool
    const oracle: Oracle
    var core: Core
    var clock: nat
    var flags: Flags
    ghost var log: Log
    ghost const past: set<string>

    // What holds at every step of the Run.
    ghost predicate Valid()
      reads this
    {
      && Counters(core, maxLoop, maxToolCall) && Talk(core.messages)
      && LogInv(log, past) && Spoken(log, past, core.messages)
      && FromReplies(oracle.replies, clock, past, log.known) && FreshIds(oracle.replies, past)
      && (core.finalizing <==> log.finalAt.Some?) && Executions(log.journal) <= core.toolCalls
      && TraceTrue(log.journal, core.progress)
    }

    // The Run starts with its wake-up in the conversation, nothing decided and nothing written.
    constructor (maxLoop: int, maxToolCall: int, verbatim: bool, oracle: Oracle, messages: seq<Message>, notes: seq<TraceEntry>, ghost past: set<string>)
      requires Talk(messages) && FreshIds(oracle.replies, past)
      requires forall m | m in messages && m.ToolResult? :: m.id in past
      requires forall e | e in notes :: e.Note?
      ensures Valid() && fresh(this) && core.messages == messages && core.decisions == 0 && !core.finalizing
      ensures Iterations(core.progress) == {} && log == Log([], past, None) && flags == Flags(false, false, false)
      ensures this.maxLoop == maxLoop && this.maxToolCall == maxToolCall && this.verbatim == verbatim && this.oracle == oracle && this.past == past
    {
      this.maxLoop, this.maxToolCall, this.verbatim, this.oracle, this.past := maxLoop, maxToolCall, verbatim, oracle, past;
      core := Core(messages, notes, 0, 0, 0, false, 0);
      clock, flags, log := 0, Flags(false, false, false), Log([], past, None);
      new;
      OnlyNotes(notes);
    }

    method Consult() returns (s: Signal)
      requires Valid()
      modifies this
      ensures Valid() && core == old(core) && log == old(log) && flags == old(flags) && clock == old(clock) + 1
      ensures s == oracle.signals(old(clock))
    {
      hide Talk, LogInv, Spoken, Counters, FreshIds, TraceTrue;
      s := oracle.signals(clock);
      LaterReplies(oracle.replies, clock, clock + 1, past, log.known);
      clock := clock + 1;
    }

    // The row of the Run is ended.
    method WriteEnd(ending: Ending)
      requires Valid()
      modifies this
      ensures Valid() && core == old(core) && clock == old(clock)
      ensures log == Wrote(old(log), Ended(ending)) && flags == old(flags).(ended := true)
      ensures CallsRun(log.journal) == CallsRun(old(log).journal)
      ensures Closings(log.journal) == Closings(old(log).journal) + if ending.Finalized? then [ending] else []
    {
      hide Talk, LogInv, Spoken, Counters, FreshIds, FromReplies, TraceTrue;
      EndWrite(log, past, core.messages, ending);
      TraceTrueWrite(log.journal, Ended(ending), core.progress);
      ExecutionsAppend(log.journal, Ended(ending));
      log := Wrote(log, Ended(ending));
      flags := flags.(ended := true);
    }

    // persistRunFailure, and the failure path of every write: the Run ends, or the fault is latched. A
    // Run that is no longer running is not written.
    method End()
      requires Valid()
      modifies this
      ensures Valid() && core == old(core) && Stopped(flags) && clock == old(clock) + 1
      ensures log == old(log).(journal := log.journal) && Quiet(old(log).journal, log.journal)
      ensures oracle.signals(old(clock)) == Fine ==> log == Wrote(old(log), Ended(Abandoned)) && flags.ended
    {
      hide Talk, LogInv, Spoken, Counters, FreshIds, FromReplies, TraceTrue;
      var s := Consult();
      match s {
        case Broken => flags := flags.(fault := true);
        case Gone => flags := flags.(ended := true);
        case _ => WriteEnd(Abandoned);
      }
    }

    // completeFinalizedRun, or persistRunFailure for an answer that reports failure
    method Close(text: string, failed: bool)
      requires Valid()
      modifies this
      ensures Valid() && core == old(core) && Stopped(flags) && clock > old(clock)
      ensures old(log).journal <= log.journal && log == old(log).(journal := log.journal)
      ensures CallsRun(log.journal) == CallsRun(old(log).journal)
      ensures Closings(log.journal) == Closings(old(log).journal) || Closings(log.journal) == Closings(old(log).journal) + [Finalized(text, failed)]
      ensures oracle.signals(old(clock)) == Fine ==> log == Wrote(old(log), Ended(Finalized(text, failed))) && flags.ended
      ensures oracle.signals(old(clock)) == Fine ==> Closings(log.journal) == Closings(old(log).journal) + [Finalized(text, failed)]
    {
      hide Valid;
      var s := Consult();
      match s {
        case Broken =>
          if failed {
            LatchFault();
          } else {
            End();
          }
        case Gone => Leave();
        case _ => WriteEnd(Finalized(text, failed));
      }
    }

    method LatchFault()
      requires Valid()
      modifies this
      ensures Valid() && core == old(core) && log == old(log) && clock == old(clock) && flags == old(flags).(fault := true)
    {
      flags := flags.(fault := true);
    }

    method Leave()
      requires Valid()
      modifies this
      ensures Valid() && core == old(core) && log == old(log) && clock == old(clock) && flags == old(flags).(ended := true)
    {
      flags := flags.(ended := true);
    }

    // The check of the context and of the Run's status.
    method Guard() returns (go: bool)
      requires Valid()
      modifies this
      ensures Valid() && core == old(core) && clock > old(clock)
      ensures log == old(log).(journal := log.journal) && Quiet(old(log).journal, log.journal)
      ensures go ==> log == old(log) && flags == old(flags) && clock == old(clock) + 1
      ensures !go ==> Stopped(flags)
      ensures Fair(oracle.signals, old(clock), clock) ==> go
    {
      hide Talk, LogInv, Spoken, Counters, FreshIds, FromReplies, TraceTrue;
      var s := Consult();
      match s {
        case Fine => return true;
        case Canceled => flags := flags.(canceled := true);
        case Gone => flags := flags.(ended := true);
        case Broken => End();
      }
      return false;
    }

    // updateRunProgress
    method PersistProgress() returns (go: bool)
      requires Valid()
      modifies this
      ensures Valid() && core == old(core) && clock > old(clock)
      ensures log == old(log).(journal := log.journal) && Quiet(old(log).journal, log.journal)
      ensures go ==> log == Wrote(old(log), SavedProgress(core.modelCalls, core.toolCalls, core.progress, core.decisions)) && flags == old(flags)
      ensures !go ==> Stopped(flags)
      ensures Fair(oracle.signals, old(clock), clock) ==> go
    {
      hide Talk, LogInv, Spoken, FreshIds, FromReplies, TraceTrue, ModelCalls, ToolCalls, Numbered;
      var s := Consult();
      if s == Gone {
        flags := flags.(ended := true);
        return false;
      } else if s == Broken {
        End();
        return false;
      }
      ProgressWrite(log, past, core, maxLoop, maxToolCall);
      ExecutionsAppend(log.journal, SavedProgress(core.modelCalls, core.toolCalls, core.progress, core.decisions));
      hide Talk, LogInv, Spoken, Counters, FreshIds, FromReplies, TraceTrue;
      log := Wrote(log, SavedProgress(core.modelCalls, core.toolCalls, core.progress, core.decisions));
      return true;
    }

    // saveConversation: everything but the system prompt
    method SaveConversation() returns (go: bool)
      requires Valid() && Partial(core.messages)
      modifies this
      ensures Valid() && core == old(core) && clock > old(clock)
      ensures log == old(log).(journal := log.journal) && Quiet(old(log).journal, log.journal)
      ensures go ==> log == Wrote(old(log), Said(core.messages[1..], verbatim)) && flags == old(flags)
      ensures !go ==> Stopped(flags)
      ensures Fair(oracle.signals, old(clock), clock) ==> go
    {
      hide LogInv, Spoken, Counters, FreshIds, FromReplies, Partial, Executions, CallsRun, Closings, DistinctCalls, TraceTrue;
      assert core.messages != [];
      hide Talk;
      var s := Consult();
      if s == Gone {
        flags := flags.(ended := true);
        return false;
      } else if s == Broken {
        End();
        return false;
      }
      ConversationWrite(log, past, core.messages, verbatim);
      TraceTrueWrite(log.journal, Said(core.messages[1..], verbatim), core.progress);
      ExecutionsAppend(log.journal, Said(core.messages[1..], verbatim));
      log := Wrote(log, Said(core.messages[1..], verbatim));
      return true;
    }

    // An entry without a count.
    method Record(e: TraceEntry)
      requires Valid() && (e.Note? || e.ToolDenied?)
      modifies this
      ensures Valid() && core == old(core).(progress := old(core).progress + [e])
      ensures log == old(log) && flags == old(flags) && clock == old(clock)
      ensures Iterations(core.progress) == Iterations(old(core).progress)
    {
      hide Talk, LogInv, Spoken, FreshIds, FromReplies, ModelCalls, ToolCalls, Iterations, UpTo, Executions, CallsRun, Closings, TraceTrue;
      AppendEntry(core.progress, e);
      TraceTrueEntries(log.journal, core.progress, core.progress + [e]);
      core := core.(progress := core.progress + [e]);
    }

    // A message that is not a result.
    method Say(m: Message)
      requires Valid() && !m.ToolResult? && DistinctIds(CallsOf(m))
      modifies this
      ensures Valid() && core == old(core).(messages := old(core).messages + [m])
      ensures log == old(log) && flags == old(flags) && clock == old(clock)
    {
      hide LogInv, FreshIds, FromReplies, DistinctIds, ModelCalls, ToolCalls, TraceTrue;
      SayPlain(log, past, core.messages, m);
      hide Talk, Spoken;
      core := core.(messages := core.messages + [m]);
    }

    // The entry of an attempt, written before the attempt is made.
    method TraceAttempt(terminal: bool, iteration: int, number: int)
      requires Valid() && (terminal || iteration == core.decisions >= 1)
      requires core.modelCalls < (MAX_GENERATE_RETRIES + 1) * core.decisions + MAX_FINALIZATION_RETRIES + 1
      modifies this
      ensures Valid() && log == old(log) && flags == old(flags) && clock == old(clock)
      ensures core == old(core).(modelCalls := old(core).modelCalls + 1,
                                 progress := old(core).progress + [ModelCall(terminal, iteration, number, false)])
      ensures Iterations(core.progress) == Iterations(old(core).progress) + if terminal then {} else {iteration}
    {
      hide Talk, LogInv, Spoken, FreshIds, FromReplies, ModelCalls, ToolCalls, Iterations, UpTo, Executions, CallsRun, Closings, TraceTrue;
      var e := ModelCall(terminal, iteration, number, false);
      AppendEntry(core.progress, e);
      TraceTrueEntries(log.journal, core.progress, core.progress + [e]);
      core := core.(modelCalls := core.modelCalls + 1, progress := core.progress + [e]);
    }

    // A generate that was never dispatched is not a model call.
    method Retract(iteration: int, ghost before: seq<TraceEntry>)
      requires Valid() && core.progress != [] && core.progress[|core.progress| - 1].ModelCall?
      requires core.progress[..|core.progress| - 1] == before && Numbered(before, core.decisions)
      modifies this
      ensures Valid() && log == old(log) && flags == old(flags) && clock == old(clock)
      ensures core == old(core).(modelCalls := old(core).modelCalls - 1, progress := before + [Undispatched(iteration)])
      ensures Iterations(core.progress) == Iterations(before)
    {
      hide Talk, LogInv, Spoken, FreshIds, FromReplies, ModelCalls, ToolCalls, Iterations, UpTo, Executions, CallsRun, Closings, TraceTrue;
      var n := |core.progress| - 1;
      ReplaceLast(core.progress, Undispatched(iteration));
      AppendEntry(before, core.progress[n]);
      AppendEntry(before, Undispatched(iteration));
      TraceTrueEntries(log.journal, core.progress, before + [Undispatched(iteration)]);
      core := core.(modelCalls := core.modelCalls - 1, progress := core.progress[n := Undispatched(iteration)]);
    }

    // The model's reply; its calls have ids never seen before.
    method Generate() returns (reply: Reply)
      requires Valid()
      modifies this
      ensures Valid() && core == old(core) && log == old(log) && flags == old(flags) && clock == old(clock) + 1
      ensures reply == oracle.replies(old(clock)) && forall id | Offers(reply, id) :: id !in log.known
    {
      hide Talk, LogInv, Spoken, Counters, Offers, TraceTrue;
      reply := oracle.replies(clock);
      forall id | Offers(reply, id) ensures id !in log.known {
        NewIds(oracle.replies, clock, past, log.known, id);
      }
      LaterReplies(oracle.replies, clock, clock + 1, past, log.known);
      clock := clock + 1;
    }

    // One attempt: traced and persisted before it is made, and again after.
    method Attempt(terminal: bool, iteration: int, number: int, ghost before: set<int>) returns (reply: Reply, go: bool)
      requires Valid() && (terminal || iteration == core.decisions >= 1) && Deciding(core.progress, terminal, iteration, before)
      requires core.modelCalls < (MAX_GENERATE_RETRIES + 1) * core.decisions + MAX_FINALIZATION_RETRIES + 1
      modifies this
      ensures Valid() && Deciding(core.progress, terminal, iteration, before)
      ensures log == old(log).(journal := log.journal) && Quiet(old(log).journal, log.journal)
      ensures core == old(core).(progress := core.progress, modelCalls := core.modelCalls)
      ensures old(core).modelCalls <= core.modelCalls <= old(core).modelCalls + 1
      ensures !go ==> Stopped(flags)
      ensures clock >= old(clock) && (go ==> exists t: nat :: old(clock) <= t < clock && oracle.replies(t) == reply)
      ensures go ==> forall id | Offers(reply, id) :: id !in log.known
      ensures go && reply.Answer? ==> core.progress != [] && core.progress[|core.progress| - 1] == ModelCall(terminal, iteration, number, false)
      ensures go && reply.Answer? && !terminal ==> Iterations(core.progress) == before + {iteration}
      ensures Fair(oracle.signals, old(clock), clock) ==> go
    {
      hide Talk, LogInv, Spoken, FromReplies, FreshIds, Numbered, Iterations, Offers, Executions, CallsRun, Closings, UpTo, ModelCalls, ToolCalls, TraceTrue;
      assert Numbered(core.progress, core.decisions);
      hide Valid, Counters;
      reply := Error(false, false);
      go := Guard();
      if !go {
        return;
      }
      ghost var was := core.progress;
      TraceAttempt(terminal, iteration, number);
      DecidingMore(was, core.progress, terminal, iteration, before);
      assert core.progress[..|core.progress| - 1] == was;
      go := PersistProgress();
      if !go {
        return;
      }
      reply := Generate();
      if reply.Error? && !reply.dispatched {
        Retract(iteration, was);
        DecidingSame(was, core.progress, terminal, iteration, before);
      }
      hide Deciding;
      go := PersistProgress();
      if go {
        var s := Consult();
        if s == Canceled {
          Cancel();
          go := false;
        }
      }
    }

    method Cancel()
      requires Valid()
      modifies this
      ensures Valid() && core == old(core) && log == old(log) && clock == old(clock) && Stopped(flags)
    {
      flags := flags.(canceled := true);
    }

    /**
      callModel: at most `limit` attempts; each is traced before it is made. On success the
      conversation still follows the protocol and the decision has a traced call.
     */
    method CallModel(terminal: bool, iteration: int, limit: int, offset: int) returns (reply: Reply, used: int, ok: bool, ghost tries: seq<nat>)
      requires Valid() && Protocol(core.messages) && limit >= 1 && (terminal || iteration == core.decisions >= 1)
      requires core.modelCalls + limit <= (MAX_GENERATE_RETRIES + 1) * core.decisions + MAX_FINALIZATION_RETRIES + 1
      modifies this
      ensures Valid() && Protocol(core.messages)
      ensures log == old(log).(journal := log.journal) && Quiet(old(log).journal, log.journal)
      ensures core == old(core).(messages := core.messages, progress := core.progress, modelCalls := core.modelCalls)
      ensures !ok ==> Stopped(flags)
      ensures ok ==> reply.Answer? && 1 <= used <= limit && core.modelCalls <= old(core).modelCalls + used
      ensures clock >= old(clock) && (ok ==> exists t: nat :: old(clock) <= t < clock && oracle.replies(t) == reply)
      ensures !ok && Fair(oracle.signals, old(clock), clock) ==>
        && reply.Error? && (used == limit || !reply.retryable) && exists t: nat :: old(clock) <= t < clock && oracle.replies(t) == reply
      ensures ok ==> forall id | Offers(reply, id) :: id !in log.known
      ensures ok ==> core.progress != [] && core.progress[|core.progress| - 1].ModelCall?
      ensures ok && !terminal ==> Decides(core.progress[|core.progress| - 1]) && core.progress[|core.progress| - 1].iteration == iteration
      ensures ok ==> Iterations(core.progress) == Iterations(old(core).progress) + if terminal then {} else {iteration}
      ensures ok || Fair(oracle.signals, old(clock), clock) ==> Tries(oracle.replies, tries, old(clock), clock, used, reply)
    {
      hide Valid, UpTo, Iterations, Offers, Protocol, CallsRun, Closings, Tries, Retried;
      ghost var before := Iterations(core.progress);
      reply, used, tries := Error(false, false), 0, [];
      ok := Prepare();
      if !ok {
        return;
      }
      assert Deciding(core.progress, terminal, iteration, before);
      var attempt := 1;
      NothingRetried(oracle.replies, old(clock), clock);
      while true
        invariant Valid() && Protocol(core.messages) && 1 <= attempt <= limit
        invariant log == old(log).(journal := log.journal) && Quiet(old(log).journal, log.journal)
        invariant core == old(core).(messages := core.messages, progress := core.progress, modelCalls := core.modelCalls)
        invariant Deciding(core.progress, terminal, iteration, before) && clock >= old(clock)
        invariant core.modelCalls <= old(core).modelCalls + attempt - 1
        invariant Retried(oracle.replies, tries, old(clock), clock) && |tries| == attempt - 1
        decreases limit - attempt
      {
        ghost var mid := clock;
        reply, ok := Attempt(terminal, iteration, offset + attempt, before);
        used := attempt;
        if !ok {
          return;
        }
        ghost var t: nat :| mid <= t < clock && oracle.replies(t) == reply;
        TriedOnce(oracle.replies, tries, old(clock), mid, clock, t);
        tries := tries + [t];
        if reply.Answer? {
          return;
        }
        if attempt == limit || !reply.retryable {
          ghost var before := clock;
          End();
          ok := false;
          TriesLater(oracle.replies, tries, old(clock), before, clock, used, reply);
          return;
        }
        attempt := attempt + 1;
      }
    }

    // What precedes the attempts: the reservation, the model's name, compaction, and the byte bound.
    method Prepare() returns (go: bool)
      requires Valid() && Protocol(core.messages)
      modifies this
      ensures Valid() && Protocol(core.messages)
      ensures log == old(log).(journal := log.journal) && Quiet(old(log).journal, log.journal)
      ensures core == old(core).(messages := core.messages, progress := core.progress)
      ensures Iterations(core.progress) == Iterations(old(core).progress)
      ensures !go ==> Stopped(flags)
      ensures Fair(oracle.signals, old(clock), clock) ==> go
      ensures clock >= old(clock)
    {
      hide Valid, UpTo, Iterations, Protocol, CallsRun, Closings;
      go := Guard();
      if go {
        go := PersistProgress();
      }
      if !go {
        return;
      }
      var resolved := Consult();
      if resolved == Canceled {
        Cancel();
        return false;
      } else if resolved != Fine {
        Record(Note("model_resolution"));
        go := PersistProgress();
        if go {
          End();
        }
        return false;
      }
      CompactContext();
      var fits := Consult();
      if fits != Fine {
        Record(Note("context_projection"));
        go := PersistProgress();
        if go {
          End();
        }
        return false;
      }
    }

    // compactContext: when the context is over its budget, the rule-based stage
    method CompactContext()
      requires Valid() && Protocol(core.messages)
      modifies this
      ensures Valid() && Protocol(core.messages) && log == old(log) && flags == old(flags) && clock == old(clock)
      ensures core == old(core).(messages := core.messages, progress := core.progress)
      ensures Iterations(core.progress) == Iterations(old(core).progress)
      ensures oracle.budgets(clock).None? ==> core == old(core)
      ensures oracle.budgets(clock).Some? ==> exists enough :: core.messages == Compact(old(core).messages, enough).messages
    {
      hide Talk, LogInv, Spoken, FreshIds, FromReplies, Compact, Protocol, ModelCalls, ToolCalls, Iterations, TraceTrue;
      var budget := oracle.budgets(clock);
      if budget.Some? {
        var enough := (ms: seq<Message>) => budget.value;
        var c := CompactConversation(core.messages, enough);
        CompactedTalk(log, past, core.messages, enough);
        CompactShrinks(core.messages, enough);
        if c.blocks != [] {
          core := core.(messages := c.messages);
          Record(Note("context_compaction"));
        }
      }
    }

    // -------------------------------------------------------------------------------------------
    // Tool calls
    // -------------------------------------------------------------------------------------------

    // A call the Run refuses: it gets a result that says so, and a trace entry.
    method Deny(call: Call, r: Result, ghost at: nat) returns (go: bool)
      requires Valid() && call.id !in log.known && Denial(r) && at < clock && Offers(oracle.replies(at), call.id)
      modifies this
      ensures Valid() && core == old(core).(messages := old(core).messages + [ToolResult(call.id, r)],
                                            progress := old(core).progress + [ToolDenied(old(core).decisions, call.id)])
      ensures log == old(log).(journal := log.journal, known := old(log).known + {call.id}) && Quiet(old(log).journal, log.journal)
      ensures Iterations(core.progress) == Iterations(old(core).progress) && clock >= old(clock)
      ensures LastCall(core.progress) == MarkOf(old(core).progress) && old(core).progress <= core.progress
      ensures !go ==> Stopped(flags)
      ensures Fair(oracle.signals, old(clock), clock) ==> go
    {
      Refuse(log, past, core.messages, call.id, r);
      KnowMore(oracle.replies, clock, past, log.known, call.id, at);
      hide Talk, LogInv, Spoken, FreshIds, FromReplies, ModelCalls, ToolCalls, Iterations, LastCall, Offers, Denial, TraceTrue;
      core := core.(messages := core.messages + [ToolResult(call.id, r)]);
      log := log.(known := log.known + {call.id});
      LastCallAppend(core.progress, ToolDenied(core.decisions, call.id));
      Record(ToolDenied(core.decisions, call.id));
      go := PersistProgress();
    }

    // The pending entry of a tool call, persisted before the tool runs.
    method Announce(call: Call) returns (go: bool)
      requires Valid() && core.toolCalls < Cap(maxToolCall)
      modifies this
      ensures Valid() && clock >= old(clock)
      ensures core == old(core).(toolCalls := old(core).toolCalls + 1,
                                 progress := old(core).progress + [ToolCall(old(core).decisions, call.id, PENDING)])
      ensures log == old(log).(journal := log.journal) && Quiet(old(log).journal, log.journal)
      ensures Iterations(core.progress) == Iterations(old(core).progress)
      ensures go ==> log == Wrote(old(log), SavedProgress(core.modelCalls, core.toolCalls, core.progress, core.decisions))
      ensures go ==> Executions(log.journal) < core.toolCalls
      ensures !go ==> Stopped(flags)
      ensures Fair(oracle.signals, old(clock), clock) ==> go
    {
      hide Talk, LogInv, Spoken, FreshIds, FromReplies, ModelCalls, ToolCalls, Iterations, UpTo, Executions, CallsRun, Closings, TraceTrue;
      ExecutionsAppend(log.journal, SavedProgress(core.modelCalls, core.toolCalls + 1, core.progress + [ToolCall(core.decisions, call.id, PENDING)], core.decisions));
      var e := ToolCall(core.decisions, call.id, PENDING);
      AppendEntry(core.progress, e);
      TraceTrueEntries(log.journal, core.progress, core.progress + [e]);
      core := core.(toolCalls := core.toolCalls + 1, progress := core.progress + [e]);
      go := PersistProgress();
    }

    // The tool runs; only now is there a result.
    method Execute(call: Call, ghost at: nat) returns (r: Result)
      requires Valid() && !core.finalizing && call.id !in log.known && at < clock && Offers(oracle.replies(at), call.id)
      requires log.journal != [] && log.journal[|log.journal| - 1] == SavedProgress(core.modelCalls, core.toolCalls, core.progress, core.decisions)
      requires core.progress != [] && core.progress[|core.progress| - 1] == ToolCall(core.decisions, call.id, PENDING)
      requires Executions(log.journal) < core.toolCalls
      modifies this
      ensures Valid() && core == old(core) && flags == old(flags) && clock == old(clock) + 1
      ensures log == Wrote(old(log), Executed(call, r)).(known := old(log).known + {call.id})
      ensures RanWith(log.journal, call.id, r) && OnlyWith(log.journal, call.id, r) && r == oracle.results(old(clock))
      ensures CallsRun(log.journal) == CallsRun(old(log).journal) + [call] && Closings(log.journal) == Closings(old(log).journal)
    {
      r := oracle.results(clock);
      assert Announced(log.journal + [Executed(call, r)], |log.journal|);
      ExecuteWrite(log, past, core.messages, call, r);
      ExecutionsAppend(log.journal, Executed(call, r));
      PendingIsEntered(core.progress, call.id, r);
      TraceTrueWrite(log.journal, Executed(call, r), core.progress);
      KnowMore(oracle.replies, clock, past, log.known, call.id, at);
      LaterReplies(oracle.replies, clock, clock + 1, past, log.known + {call.id});
      hide Talk, LogInv, Spoken, FreshIds, FromReplies, Counters, RanWith, OnlyWith, Offers, TraceTrue;
      log := Wrote(log, Executed(call, r)).(known := log.known + {call.id});
      clock := clock + 1;
    }

    // The real result replaces the pending one in the trace and joins the conversation.
    method Answered(call: Call, r: Result) returns (go: bool)
      requires Valid() && call.id in log.known && RanWith(log.journal, call.id, r) && OnlyWith(log.journal, call.id, r)
      requires core.progress != [] && core.progress[|core.progress| - 1].ToolCall? && core.progress[|core.progress| - 1].id == call.id
      modifies this
      ensures Valid() && clock >= old(clock)
      ensures core == old(core).(progress := core.progress, messages := if go then old(core).messages + [ToolResult(call.id, r)] else old(core).messages)
      ensures var n := |old(core).progress| - 1; core.progress == old(core).progress[..n] + [old(core).progress[n].(result := r)]
      ensures go ==> RanWith(log.journal, call.id, r)
      ensures log == old(log).(journal := log.journal) && Quiet(old(log).journal, log.journal)
      ensures Iterations(core.progress) == Iterations(old(core).progress)
      ensures !go ==> Stopped(flags)
      ensures Fair(oracle.signals, old(clock), clock) ==> go
    {
      hide Talk, LogInv, Spoken, FreshIds, FromReplies, ModelCalls, ToolCalls, Iterations, UpTo, Executions, CallsRun, Closings, TraceTrue;
      var n := |core.progress| - 1;
      ghost var front := core.progress[..n];
      var e := core.progress[n].(result := r);
      ReplaceLast(core.progress, e);
      AppendEntry(front, core.progress[n]);
      AppendEntry(front, e);
      TraceTrueAnswer(log.journal, front, core.progress[n], r);
      core := core.(progress := core.progress[n := e]);
      go := PersistProgress();
      if go {
        RanWithGrows(old(log).journal, log.journal[|log.journal| - 1], call.id, r);
        SayResult(log, past, core.messages, call.id, r);
        core := core.(messages := core.messages + [ToolResult(call.id, r)]);
      }
    }

    // One call of a decision: refused when the budget is spent, otherwise run.
    method HandleCall(call: Call, ghost at: nat) returns (go: bool)
      requires Valid() && !core.finalizing && call.id !in log.known && at < clock && Offers(oracle.replies(at), call.id)
      modifies this
      ensures Valid() && clock >= old(clock) && log.known <= old(log).known + {call.id} && log.finalAt == old(log).finalAt
      ensures old(log.journal) <= log.journal && Iterations(core.progress) == Iterations(old(core).progress)
      ensures core == old(core).(messages := core.messages, progress := core.progress, toolCalls := core.toolCalls)
      ensures go && old(core).toolCalls < maxToolCall ==>
        && core.toolCalls == old(core).toolCalls + 1 && CallsRun(log.journal) == CallsRun(old(log).journal) + [call]
        && exists r :: core.messages == old(core).messages + [ToolResult(call.id, r)] && RanWith(log.journal, call.id, r)
                       && core.progress == old(core).progress + [ToolCall(old(core).decisions, call.id, r)]
                       && exists t: nat :: old(clock) <= t < clock && r == oracle.results(t)
      ensures go && old(core).toolCalls >= maxToolCall ==>
        && core.toolCalls == old(core).toolCalls && CallsRun(log.journal) == CallsRun(old(log).journal)
        && core.messages == old(core).messages + [ToolResult(call.id, EXHAUSTED)]
      ensures !go ==> Stopped(flags)
      ensures !go && CallsRun(log.journal) != CallsRun(old(log).journal) ==>
        old(core).toolCalls < maxToolCall && CallsRun(log.journal) == CallsRun(old(log).journal) + [call]
      ensures Fair(oracle.signals, old(clock), clock) ==> go
      ensures Closings(log.journal) == Closings(old(log).journal)
    {
      hide Iterations, Offers, RanWith, OnlyWith, UpTo, Executions, CallsRun, Closings, TraceTrue;
      go := Guard();
      if !go {
        return;
      }
      if core.toolCalls >= maxToolCall {
        assert Denial(EXHAUSTED);
        hide Valid, Denial;
        go := Deny(call, EXHAUSTED, at);
      } else {
        hide Valid;
        go := Announce(call);
        if !go {
          return;
        }
        var r := Execute(call, at);
        go := Answered(call, r);
      }
    }

    /**
      The tool calls of a decision, in order; the conversation is saved after each result. While the
      budget lasts each is run and answered with what it gave; the others are refused.
     */
    method RunCalls(m: Message, ghost base: seq<Message>, ghost at: nat) returns (go: bool, ghost results: seq<Message>)
      requires Valid() && !core.finalizing && m.Assistant? && m.calls != [] && DistinctIds(m.calls)
      requires core.messages == base + [m] && Protocol(base)
      requires at < clock && forall c | c in m.calls :: Offers(oracle.replies(at), c.id) && c.id !in log.known
      modifies this
      ensures Valid() && (go ==> Protocol(core.messages)) && log.finalAt == old(log).finalAt
      ensures old(log).journal <= log.journal && Iterations(core.progress) == Iterations(old(core).progress) && clock >= old(clock)
      ensures core == old(core).(messages := core.messages, progress := core.progress, toolCalls := core.toolCalls)
      ensures Closings(log.journal) == Closings(old(log).journal)
      ensures go ==> ToolsRun(old(core).toolCalls, core.toolCalls, old(log).journal, log.journal, m.calls, results, maxToolCall)
      ensures go ==> core.messages == base + [m] + results
      ensures !go ==> Stopped(flags) && ToolsCut(old(log).journal, log.journal, m.calls, maxToolCall - old(core).toolCalls)
      ensures Fair(oracle.signals, old(clock), clock) ==> go
    {
      hide Valid, UpTo, Iterations, Offers, Protocol, DistinctIds, RanWith, CallsRun, Closings, Midway, Answers, ToolsRun, ToolsCut;
      go, results := true, [];
      var i := 0;
      ghost var left := maxToolCall - core.toolCalls;
      MidwayStart(log.journal, m.calls, left);
      assert core.messages == base + [m] + [];
      while i < |m.calls|
        invariant 0 <= i <= |m.calls| && Valid() && go && at < clock && !core.finalizing && log.finalAt == old(log).finalAt
        invariant old(log).journal <= log.journal && Iterations(core.progress) == Iterations(old(core).progress)
        invariant core == old(core).(messages := core.messages, progress := core.progress, toolCalls := core.toolCalls)
        invariant core.messages == base + [m] + results
        invariant forall j | i <= j < |m.calls| :: m.calls[j].id !in log.known
        invariant clock >= old(clock) && Closings(log.journal) == Closings(old(log).journal)
        invariant Midway(old(log).journal, log.journal, m.calls, results, i, left, core.toolCalls - old(core).toolCalls)
      {
        go, results := RunNext(m, i, base, at, results, old(log).journal, old(core).toolCalls);
        if !go {
          return;
        }
        i := i + 1;
      }
      MidwayDone(old(log).journal, log.journal, m, base, results, left, core.toolCalls - old(core).toolCalls);
    }

    // The next call: run or refused, answered, and saved.
    method RunNext(m: Message, i: nat, ghost base: seq<Message>, ghost at: nat, ghost results: seq<Message>, ghost start: seq<Write>, ghost tools: int)
      returns (go: bool, ghost results': seq<Message>)
      requires Valid() && !core.finalizing && m.Assistant? && i < |m.calls| && DistinctIds(m.calls)
      requires core.messages == base + [m] + results && Protocol(base)
      requires at < clock && forall c | c in m.calls :: Offers(oracle.replies(at), c.id)
      requires forall j | i <= j < |m.calls| :: m.calls[j].id !in log.known
      requires Midway(start, log.journal, m.calls, results, i, maxToolCall - tools, core.toolCalls - tools)
      modifies this
      ensures Valid() && log.finalAt == old(log).finalAt && clock >= old(clock)
      ensures old(log).journal <= log.journal && Iterations(core.progress) == Iterations(old(core).progress)
      ensures core == old(core).(messages := core.messages, progress := core.progress, toolCalls := core.toolCalls)
      ensures Closings(log.journal) == Closings(old(log).journal)
      ensures go ==> core.messages == base + [m] + results'
      ensures go ==> forall j | i < j < |m.calls| :: m.calls[j].id !in log.known
      ensures go ==> Midway(start, log.journal, m.calls, results', i + 1, maxToolCall - tools, core.toolCalls - tools)
      ensures !go ==> Stopped(flags) && ToolsCut(start, log.journal, m.calls, maxToolCall - tools)
      ensures Fair(oracle.signals, old(clock), clock) ==> go
    {
      hide Valid, UpTo, Iterations, Offers, Protocol, DistinctIds, Partial, RanWith, CallsRun, Closings, Midway, ToolsCut;
      results' := results;
      var call := m.calls[i];
      assert call in m.calls;
      LaterIds(m.calls, i);
      ghost var before, was, left := core.messages, log.journal, maxToolCall - tools;
      MidwayBudget(start, was, m.calls, results, i, left, core.toolCalls - tools);
      go := HandleCall(call, at);
      if !go {
        MidwayCut(start, was, log.journal, m.calls, results, i, left, old(core).toolCalls - tools);
        return;
      }
      ghost var r := if old(core).toolCalls < maxToolCall then ResultRan(before, core.messages, log.journal, call.id) else EXHAUSTED;
      MidwayNext(start, was, log.journal, m, base, results, i, left, old(core).toolCalls - tools, r);
      results' := results + [ToolResult(call.id, r)];
      ghost var given := log.journal;
      go := SaveConversation();
      MidwayLater(start, given, log.journal, m.calls, results', i + 1, left, core.toolCalls - tools);
    }

    // Calls made while tools are disabled: all refused.
    method DenyCalls(m: Message, ghost base: seq<Message>, ghost at: nat) returns (go: bool)
      requires Valid() && m.Assistant? && m.calls != [] && DistinctIds(m.calls)
      requires core.messages == base + [m] && Protocol(base)
      requires at < clock && forall c | c in m.calls :: Offers(oracle.replies(at), c.id) && c.id !in log.known
      modifies this
      ensures Valid() && (go ==> Protocol(core.messages)) && log.finalAt == old(log).finalAt
      ensures Quiet(old(log).journal, log.journal) && clock >= old(clock) && Iterations(core.progress) == Iterations(old(core).progress)
      ensures core == old(core).(messages := core.messages, progress := core.progress) && old(core).progress <= core.progress
      ensures LastCall(old(core).progress) < |old(core).progress| ==> LastCall(core.progress) == LastCall(old(core).progress)
      ensures go ==> core.messages == base + [m] + Refusals(m.calls)
      ensures !go ==> Stopped(flags)
      ensures Fair(oracle.signals, old(clock), clock) ==> go
    {
      assert Denial(DISABLED);
      hide Valid, UpTo, Iterations, Offers, Protocol, DistinctIds, Partial, Denial, LastCall, CallsRun, Closings, Refusals, Answers, Quiet;
      QuietItself(log.journal);
      go := true;
      ghost var results: seq<Message> := [];
      var i := 0;
      AnswersNone(m.calls);
      assert core.messages == base + [m] + [];
      NoRefusals(m.calls);
      while i < |m.calls|
        invariant 0 <= i <= |m.calls| && Valid() && go && at < clock && log.finalAt == old(log).finalAt
        invariant Quiet(old(log).journal, log.journal) && clock >= old(clock) && Iterations(core.progress) == Iterations(old(core).progress)
        invariant core == old(core).(messages := core.messages, progress := core.progress) && old(core).progress <= core.progress
        invariant LastCall(old(core).progress) < |old(core).progress| ==> LastCall(core.progress) == LastCall(old(core).progress)
        invariant core.messages == base + [m] + results && |results| == i && Answers(m.calls, results) && results == Refusals(m.calls[..i])
        invariant forall j | i <= j < |m.calls| :: m.calls[j].id !in log.known
      {
        var call := m.calls[i];
        assert call in m.calls;
        LaterIds(m.calls, i);
        ghost var was := log.journal;
        go := Deny(call, DISABLED, at);
        QuietTogether(old(log).journal, was, log.journal);
        if !go {
          return;
        }
        AnswersNext(m.calls, results, DISABLED);
        RefusalsNext(m.calls, i);
        OneMore(base + [m], results, ToolResult(call.id, DISABLED));
        results := results + [ToolResult(call.id, DISABLED)];
        i := i + 1;
      }
      assert m.calls[..i] == m.calls;
      PartialBlock(base, m, results);
    }

    // -------------------------------------------------------------------------------------------
    // Decisions
    // -------------------------------------------------------------------------------------------

    // From here on no tool runs.
    method BeginFinalizing(attempts: int)
      requires Valid() && !core.finalizing && 0 <= attempts <= MAX_FINALIZATION_RETRIES + 1
      modifies this
      ensures Valid() && core == old(core).(finalizing := true, attempts := attempts)
      ensures log == old(log).(finalAt := Some(|old(log).journal|)) && flags == old(flags) && clock == old(clock)
    {
      hide Talk, FreshIds, FromReplies, ModelCalls, ToolCalls, JournalInv, Honest, Ran, Unanswered, TraceTrue;
      core := core.(finalizing := true, attempts := attempts);
      log := log.(finalAt := Some(|log.journal|));
    }

    // A repair instruction joins the conversation and the trace.
    method Instruct() returns (go: bool)
      requires Valid() && Protocol(core.messages)
      modifies this
      ensures Valid() && Protocol(core.messages) && Iterations(core.progress) == Iterations(old(core).progress)
      ensures core == old(core).(messages := old(core).messages + [Instruction("finalize")], progress := core.progress) && clock >= old(clock)
      ensures log == old(log).(journal := log.journal) && Quiet(old(log).journal, log.journal)
      ensures !go ==> Stopped(flags)
      ensures Fair(oracle.signals, old(clock), clock) ==> go
    {
      hide Valid, UpTo, Iterations, Protocol;
      assert DistinctIds(CallsOf(Instruction("finalize")));
      SayProtocol(core.messages, Instruction("finalize"));
      Say(Instruction("finalize"));
      Record(Note("instruction"));
      go := PersistProgress();
    }

    // The top of an iteration: is the Run still ours, is a budget spent, did a tag arrive?
    method Begin() returns (go: bool)
      requires Valid() && Protocol(core.messages)
      modifies this
      ensures Valid() && Protocol(core.messages) && Iterations(core.progress) == Iterations(old(core).progress)
      ensures core == old(core).(messages := core.messages, progress := core.progress, finalizing := core.finalizing)
      ensures log == old(log).(journal := log.journal, finalAt := log.finalAt) && Quiet(old(log).journal, log.journal) && clock >= old(clock)
      ensures old(core).finalizing ==> core.finalizing
      ensures go ==> (core.finalizing <==> old(core).finalizing || core.decisions >= maxLoop || core.toolCalls >= maxToolCall)
      ensures go ==>
        core.messages == old(core).messages + (if old(core).finalizing then [] else if core.finalizing then [Instruction("finalize")] else Tagged(core, oracle.mentions(old(clock) + 1)))
      ensures !go ==> Stopped(flags)
      ensures Fair(oracle.signals, old(clock), clock) ==> go
    {
      hide Iterations, Protocol, UpTo, Executions, CallsRun, Closings;
      go := Guard();
      if !go {
        return;
      }
      if !core.finalizing && (core.decisions >= maxLoop || core.toolCalls >= maxToolCall) {
        BeginFinalizing(0);
        hide Valid;
        go := Instruct();
        if !go {
          return;
        }
      }
      hide Valid;
      if !core.finalizing && core.decisions > 0 && oracle.mentions(clock).Some? {
        var mention := Mention(oracle.mentions(clock).value);
        assert DistinctIds(CallsOf(mention));
        SayProtocol(core.messages, mention);
        Say(mention);
        Record(Note("chat_mention"));
        ProtocolIsPartial(core.messages);
        go := SaveConversation();
        if go {
          go := PersistProgress();
        }
      }
    }

    // The last model call turns out to be a final answer: finalization starts with one attempt used.
    method TurnTerminal(iteration: int)
      requires Valid() && !core.finalizing && Latest(core.progress, iteration)
      modifies this
      ensures Valid() && core == old(core).(progress := core.progress, finalizing := true, attempts := 1)
      ensures Iterations(core.progress) == Iterations(old(core).progress)
      ensures log == old(log).(finalAt := Some(|old(log).journal|)) && flags == old(flags) && clock == old(clock)
    {
      hide Talk, LogInv, Spoken, FreshIds, FromReplies, ModelCalls, ToolCalls, Iterations, LastCall, UpTo, Executions, CallsRun, Closings, TraceTrue;
      BeginFinalizing(1);
      MarkedKeeps(core.progress, iteration);
      var marked := MarkLastTerminal(core.progress, iteration);
      MarkedTools(core.progress, iteration);
      TraceTrueEntries(log.journal, core.progress, marked);
      core := core.(progress := marked);
    }

    // An answer without tool calls: accepted, and the Run ends with it; or invalid, and it is repaired
    // while the allowance lasts.
    method HandleFinal(reply: Reply, iteration: int) returns (again: bool)
      requires Valid() && Protocol(core.messages) && reply.Answer? && (!core.finalizing ==> Latest(core.progress, iteration))
      modifies this
      ensures Valid() && Protocol(core.messages) && Iterations(core.progress) == Iterations(old(core).progress) && clock >= old(clock)
      ensures core == old(core).(messages := core.messages, progress := core.progress, finalizing := core.finalizing, attempts := core.attempts)
      ensures again ==> core.finalizing && core.attempts == if old(core).finalizing then old(core).attempts else 1
      ensures old(core).finalizing ==> core.finalizing
      ensures !again ==> Stopped(flags) && old(core).attempts <= core.attempts
      ensures CallsRun(log.journal) == CallsRun(old(log).journal)
      ensures VerdictOf(reply, oracle.verdicts(old(clock))).Invalid? ==> Quiet(old(log).journal, log.journal)
      ensures VerdictOf(reply, oracle.verdicts(old(clock))).Invalid? && again ==>
        core.messages == old(core).messages + [InvalidAnswer(reply)] + [Instruction("finalize")]
      ensures VerdictOf(reply, oracle.verdicts(old(clock))).Invalid? && !again && Fair(oracle.signals, old(clock), clock) ==>
        core.attempts > MAX_FINALIZATION_RETRIES
      ensures VerdictOf(reply, oracle.verdicts(old(clock))).Accepted? ==>
        !again && core == old(core).(messages := old(core).messages + [Assistant(reply.text, [])])
      ensures VerdictOf(reply, oracle.verdicts(old(clock))).Accepted? ==>
        Closed(old(log).journal, log.journal, reply, oracle.verdicts(old(clock)), Fair(oracle.signals, old(clock), clock))
    {
      hide Valid, UpTo, Iterations, Protocol, Latest, CallsRun, Closings, Blank;
      var verdict := if reply.text.None? || Blank(reply.text.value) || reply.finish != StopReason then Invalid else oracle.verdicts(clock);
      if verdict.Invalid? {
        again := RepairFinal(reply, iteration);
      } else {
        AcceptFinal(reply, verdict.failed);
        again := false;
      }
    }

    method RepairFinal(reply: Reply, iteration: int) returns (again: bool)
      requires Valid() && Protocol(core.messages) && reply.Answer? && (!core.finalizing ==> Latest(core.progress, iteration))
      modifies this
      ensures Valid() && Protocol(core.messages) && Iterations(core.progress) == Iterations(old(core).progress) && clock >= old(clock)
      ensures core == old(core).(messages := core.messages, progress := core.progress, finalizing := true, attempts := core.attempts)
      ensures core.attempts == if old(core).finalizing then old(core).attempts else 1
      ensures Quiet(old(log).journal, log.journal) && old(core).attempts <= core.attempts && (!again ==> Stopped(flags))
      ensures again ==> core.messages == old(core).messages + [InvalidAnswer(reply)] + [Instruction("finalize")]
      ensures !again && Fair(oracle.signals, old(clock), clock) ==> core.attempts > MAX_FINALIZATION_RETRIES
    {
      NotYetTried();
      hide Valid, UpTo, Iterations, Protocol, Latest, CallsRun, Closings, Blank;
      if !core.finalizing {
        TurnTerminal(iteration);
      }
      if core.attempts >= MAX_FINALIZATION_RETRIES + 1 {
        End();
        return false;
      }
      var said := Assistant(if reply.text.None? || Blank(reply.text.value) then Some("[invalid empty final response]") else reply.text, []);
      assert DistinctIds(CallsOf(said));
      SayProtocol(core.messages, said);
      Say(said);
      again := Instruct();
    }

    method AcceptFinal(reply: Reply, failed: bool)
      requires Valid() && Protocol(core.messages) && reply.Answer? && reply.text.Some?
      modifies this
      ensures Valid() && Protocol(core.messages) && Stopped(flags) && clock >= old(clock)
      ensures core == old(core).(messages := old(core).messages + [Assistant(reply.text, [])]) && old(log).journal <= log.journal
      ensures CallsRun(log.journal) == CallsRun(old(log).journal)
      ensures Closings(log.journal) == Closings(old(log).journal) || Closings(log.journal) == Closings(old(log).journal) + [Finalized(reply.text.value, failed)]
      ensures Fair(oracle.signals, old(clock), clock) ==> Closings(log.journal) == Closings(old(log).journal) + [Finalized(reply.text.value, failed)]
    {
      hide Valid, Protocol, CallsRun, Closings;
      var said := Assistant(reply.text, []);
      assert DistinctIds(CallsOf(said));
      SayProtocol(core.messages, said);
      Say(said);
      ProtocolIsPartial(core.messages);
      var saved := SaveConversation();
      if saved {
        Close(reply.text.value, failed);
      }
    }

    lemma NotYetTried()
      requires Valid()
      ensures core.attempts == 0 || core.finalizing
    {
      hide Talk, LogInv, Spoken, FromReplies, FreshIds, TraceTrue, Executions, Numbered;
    }

    // Calls that may not run: each is refused, and the model is told to finalize while the allowance lasts.
    method RefuseTools(m: Message, ghost base: seq<Message>, iteration: int, ghost at: nat) returns (again: bool)
      requires Valid() && m.Assistant? && m.calls != [] && DistinctIds(m.calls)
      requires core.messages == base + [m] && Protocol(base)
      requires at < clock && forall c | c in m.calls :: Offers(oracle.replies(at), c.id) && c.id !in log.known
      requires !core.finalizing ==> Latest(core.progress, iteration)
      modifies this
      ensures Valid() && (again ==> Protocol(core.messages)) && Iterations(core.progress) == Iterations(old(core).progress)
      ensures core == old(core).(messages := core.messages, progress := core.progress, finalizing := core.finalizing, attempts := core.attempts)
      ensures again ==> core.finalizing && core.attempts == if !old(core).finalizing then 1 else old(core).attempts
      ensures again ==> core.messages == base + [m] + Refusals(m.calls) + [Instruction("finalize")]
      ensures old(core).finalizing ==> core.finalizing
      ensures Quiet(old(log).journal, log.journal) && clock >= old(clock)
      ensures !again ==> Stopped(flags) && old(core).attempts <= core.attempts
      ensures Fair(oracle.signals, old(clock), clock) && !again ==> core.finalizing && core.attempts > MAX_FINALIZATION_RETRIES
    {
      NotYetTried();
      hide Valid, UpTo, Iterations, Protocol, DistinctIds, Offers, CallsRun, Closings, Refusals;
      again := DenyCalls(m, base, at);
      if !again {
        return;
      }
      if !core.finalizing {
        LatestStays(old(core).progress, core.progress, iteration);
        TurnTerminal(iteration);
      }
      if core.attempts >= MAX_FINALIZATION_RETRIES + 1 {
        End();
        return false;
      }
      again := Instruct();
    }

    // The message with the calls is saved before any of them is answered.
    method SayCalls(m: Message) returns (go: bool)
      requires Valid() && Protocol(core.messages) && m.Assistant? && m.calls != [] && DistinctIds(m.calls)
      modifies this
      ensures Valid() && core == old(core).(messages := old(core).messages + [m]) && clock > old(clock)
      ensures log == old(log).(journal := log.journal) && Quiet(old(log).journal, log.journal)
      ensures !go ==> Stopped(flags)
      ensures Fair(oracle.signals, old(clock), clock) ==> go
    {
      hide Valid, Protocol, DistinctIds, CallsRun, Closings;
      ghost var base := core.messages;
      Say(m);
      assert base + [m] + [] == core.messages;
      AnswersNone(m.calls);
      PartialBlock(base, m, []);
      go := SaveConversation();
    }

    // An answer with tool calls: run them, or refuse them all while finalizing.
    method HandleTools(reply: Reply, iteration: int, ghost at: nat) returns (again: bool, ghost results: seq<Message>)
      requires Valid() && Protocol(core.messages) && reply.Answer? && reply.calls != [] && DistinctIds(reply.calls)
      requires at < clock && oracle.replies(at) == reply && forall id | Offers(reply, id) :: id !in log.known
      requires !core.finalizing ==> Latest(core.progress, iteration)
      modifies this
      ensures Valid() && (again ==> Protocol(core.messages)) && Iterations(core.progress) == Iterations(old(core).progress)
      ensures core == old(core).(messages := core.messages, progress := core.progress, toolCalls := core.toolCalls,
                                 finalizing := core.finalizing, attempts := core.attempts)
      ensures again ==> core.attempts == if core.finalizing && !old(core).finalizing then 1 else old(core).attempts
      ensures old(core).finalizing ==> core.finalizing && core.toolCalls == old(core).toolCalls
      ensures !again ==> Stopped(flags) && old(core).attempts <= core.attempts
      ensures Closings(log.journal) == Closings(old(log).journal) && clock >= old(clock)
      ensures !old(core).finalizing && reply.finish == ToolReason ==> !core.finalizing
      ensures !old(core).finalizing && reply.finish == ToolReason && again ==>
        && ToolsRun(old(core).toolCalls, core.toolCalls, old(log).journal, log.journal, reply.calls, results, maxToolCall)
        && core.messages == old(core).messages + [Assistant(reply.text, reply.calls)] + results
      ensures !old(core).finalizing && reply.finish == ToolReason && !again ==>
        ToolsCut(old(log).journal, log.journal, reply.calls, maxToolCall - old(core).toolCalls)
      ensures old(core).finalizing || reply.finish != ToolReason ==> Quiet(old(log).journal, log.journal)
      ensures (old(core).finalizing || reply.finish != ToolReason) && again ==>
        core.finalizing && core.messages == old(core).messages + [Assistant(reply.text, reply.calls)] + Refusals(reply.calls) + [Instruction("finalize")]
      ensures Fair(oracle.signals, old(clock), clock) && !again ==> core.finalizing && core.attempts > MAX_FINALIZATION_RETRIES
    {
      NotYetTried();
      hide Valid, UpTo, Iterations, Protocol, DistinctIds, CallsRun, Closings, ToolsRun, ToolsCut, Refusals;
      results := [];
      ghost var base := core.messages;
      var m := Assistant(reply.text, reply.calls);
      forall c | c in m.calls ensures Offers(oracle.replies(at), c.id) && c.id !in log.known {
        assert Called(reply.calls, c.id);
      }
      hide Offers, Latest;
      again := SayCalls(m);
      ghost var saved := log.journal;
      ToolsAfter(old(log).journal, saved, saved, reply.calls, maxToolCall - core.toolCalls);
      hide Quiet;
      if !again {
        return;
      }
      if core.finalizing || reply.finish != ToolReason {
        again := RefuseTools(m, base, iteration, at);
        QuietTogether(old(log).journal, saved, log.journal);
      } else {
        again, results := RunCalls(m, base, at);
        ToolsAfter(old(log).journal, saved, log.journal, reply.calls, maxToolCall - old(core).toolCalls);
      }
    }

    /**
      runAgent: the Run makes at most max_loop decisions and max_tool_call executions, needs at most
      four model calls per decision and six to finalize, and always stops: with the Run ended, its
      context canceled, or the persistence fault latched. It runs the calls of every reply it takes, in
      order, while the budget lasts; only the last reply may be cut short. It closes with an answer only
      if that answer was accepted, and unless something gets in the way it ends with one, or because the
      model failed or used up the allowance.
     */
    method Run() returns (ghost turns: seq<nat>)
      requires Valid() && Protocol(core.messages) && core.decisions == 0 && core.modelCalls == 0 && !core.finalizing
      requires Iterations(core.progress) == {}
      modifies this
      ensures Valid() && Stopped(flags)
      ensures core.decisions <= Cap(maxLoop) && core.modelCalls <= 4 * Cap(maxLoop) + 6
      ensures Executions(log.journal) <= core.toolCalls <= Cap(maxToolCall)
      ensures JournalInv(log.journal, past)
      ensures Outcome(oracle, core, old(log).journal, log.journal, turns, old(clock), clock, maxToolCall - old(core).toolCalls)
    {
      hide Course, Outcome, Protocol, Iterations, UpTo, JournalInv, Valid, Quiet, Fair, Executions;
      Beginning();
      turns := [];
      ghost var budget := maxToolCall - core.toolCalls;
      StartCourse(oracle, core, log.journal, clock, budget, maxToolCall);
      var go := Start();
      if go {
        CourseLater(oracle, core, old(log).journal, old(log).journal, log.journal, turns, old(clock), old(clock), clock, budget, maxToolCall);
      } else {
        StartStops(oracle, core, old(log).journal, log.journal, old(clock), clock, budget);
      }
      while go
        invariant Valid() && (go ==> Protocol(core.messages) && Iterations(core.progress) == UpTo(core.decisions))
        invariant go ==> core.modelCalls <= (MAX_GENERATE_RETRIES + 1) * core.decisions + core.attempts
        invariant go ==> Course(oracle, core, old(log).journal, log.journal, turns, old(clock), clock, budget, maxToolCall)
        invariant !go ==> Stopped(flags) && Outcome(oracle, core, old(log).journal, log.journal, turns, old(clock), clock, budget)
        decreases if go then 1 else 0, if core.finalizing then 0 else 1, if core.finalizing then 0 else Cap(maxLoop) - core.decisions,
                  MAX_FINALIZATION_RETRIES + 1 - core.attempts
      {
        InBounds();
        go, turns := Advance(turns, old(log).journal, old(clock), budget);
        InBounds();
      }
      Bounds();
    }

    // One iteration, with the replies taken so far.
    method Advance(ghost turns: seq<nat>, ghost start: seq<Write>, ghost from: nat, ghost budget: int) returns (go: bool, ghost turns': seq<nat>)
      requires Valid() && Protocol(core.messages) && Iterations(core.progress) == UpTo(core.decisions)
      requires core.modelCalls <= (MAX_GENERATE_RETRIES + 1) * core.decisions + core.attempts
      requires Course(oracle, core, start, log.journal, turns, from, clock, budget, maxToolCall)
      modifies this
      ensures Valid() && (!go ==> Stopped(flags))
      ensures go ==> Protocol(core.messages) && Iterations(core.progress) == UpTo(core.decisions)
      ensures go ==> core.modelCalls <= (MAX_GENERATE_RETRIES + 1) * core.decisions + core.attempts
      ensures old(core).finalizing ==> core.finalizing
      ensures go && old(core).finalizing ==> core.attempts > old(core).attempts
      ensures go && !core.finalizing ==> core.decisions > old(core).decisions
      ensures go ==> Course(oracle, core, start, log.journal, turns', from, clock, budget, maxToolCall)
      ensures !go ==> Outcome(oracle, core, start, log.journal, turns', from, clock, budget)
    {
      hide Valid, Protocol, Iterations, UpTo, Turns, Obeyed, ObeyedCut, Asked, Affordable, CallsRun, Closings, Took, ToolsCut, CloseTrue, StopsForCause;
      ghost var was, tools, mid := log.journal, core.toolCalls, clock;
      turns' := turns;
      go := Iterate();
      TurnsLater(oracle.replies, turns, from, mid, clock);
      ObeyedLater(oracle.replies, start, was, log.journal, turns, budget);
      if go && !core.finalizing {
        ghost var t: nat :| mid <= t < clock && Took(oracle.replies(t), tools, core.toolCalls, was, log.journal, maxToolCall);
        TookTurn(oracle.replies, start, was, log.journal, turns, budget, t, from, mid, clock, tools, core.toolCalls, maxToolCall);
        turns' := turns + [t];
      } else if !go {
        CauseLater(oracle, start, was, log.journal, core.attempts, from, mid, clock);
        if CallsRun(log.journal) != CallsRun(was) {
          ghost var t: nat :| mid <= t < clock && Turn(oracle.replies(t)) && ToolsCut(was, log.journal, oracle.replies(t).calls, maxToolCall - tools);
          CutTurn(oracle.replies, start, was, log.journal, turns, budget, t, from, mid, tools, maxToolCall);
        }
      }
    }

    lemma Beginning()
      requires Valid() && !core.finalizing
      ensures core.attempts == 0 && UpTo(0) == {}
    {
      hide Talk, LogInv, Spoken, FromReplies, FreshIds, TraceTrue, Executions, Numbered;
    }

    lemma InBounds()
      requires Valid()
      ensures 0 <= core.decisions <= Cap(maxLoop) && 0 <= core.attempts <= MAX_FINALIZATION_RETRIES + 1
    {
      hide Talk, LogInv, Spoken, FromReplies, FreshIds, TraceTrue, Executions;
    }

    lemma Bounds()
      requires Valid()
      ensures core.decisions <= Cap(maxLoop) && core.modelCalls <= 4 * Cap(maxLoop) + 6
      ensures Executions(log.journal) <= core.toolCalls <= Cap(maxToolCall) && JournalInv(log.journal, past)
    {
      hide Talk, Spoken, FromReplies, FreshIds, TraceTrue, Executions, JournalInv;
    }

    // Before the first decision: the initial context and the conversation are stored.
    method Start() returns (go: bool)
      requires Valid() && Protocol(core.messages)
      modifies this
      ensures Valid() && core == old(core) && (!go ==> Stopped(flags))
      ensures log == old(log).(journal := log.journal) && Quiet(old(log).journal, log.journal) && clock >= old(clock)
      ensures Fair(oracle.signals, old(clock), clock) ==> go
    {
      hide Valid, Protocol;
      go := Guard();
      if go {
        ProtocolIsPartial(core.messages);
        go := SaveConversation();
      }
    }

    // One iteration of the loop.
    method Iterate() returns (again: bool)
      requires Valid() && Protocol(core.messages) && Iterations(core.progress) == UpTo(core.decisions)
      requires core.modelCalls <= (MAX_GENERATE_RETRIES + 1) * core.decisions + core.attempts
      modifies this
      ensures Valid() && (!again ==> Stopped(flags))
      ensures again ==> Protocol(core.messages) && Iterations(core.progress) == UpTo(core.decisions)
      ensures again ==> core.modelCalls <= (MAX_GENERATE_RETRIES + 1) * core.decisions + core.attempts
      ensures old(core).finalizing ==> core.finalizing
      ensures again && old(core).finalizing ==> core.attempts > old(core).attempts
      ensures clock >= old(clock) && old(core).decisions <= core.decisions <= old(core).decisions + 1
      ensures old(core).finalizing ==> core.decisions == old(core).decisions
      ensures again && !core.finalizing ==> core.decisions == old(core).decisions + 1
      ensures again && !core.finalizing ==>
        exists t: nat :: old(clock) <= t < clock && Took(oracle.replies(t), old(core).toolCalls, core.toolCalls, old(log).journal, log.journal, maxToolCall)
      ensures again && core.finalizing ==> CallsRun(log.journal) == CallsRun(old(log).journal)
      ensures old(core).finalizing ==> CallsRun(log.journal) == CallsRun(old(log).journal)
      ensures !again && CallsRun(log.journal) != CallsRun(old(log).journal) ==>
        exists t: nat :: old(clock) <= t < clock && Turn(oracle.replies(t)) && ToolsCut(old(log).journal, log.journal, oracle.replies(t).calls, maxToolCall - old(core).toolCalls)
      ensures again ==> Closings(log.journal) == Closings(old(log).journal)
      ensures CloseTrue(oracle, old(log).journal, log.journal)
      ensures !again ==> StopsForCause(oracle, old(log).journal, log.journal, core.attempts, old(clock), clock)
    {
      hide Iterations, Protocol, Talk, LogInv, Spoken, FromReplies, ModelCalls, ToolCalls, UpTo, TraceTrue;
      hide Valid, CallsRun, Closings, ToolsRun, ToolsCut, Blank, Offers;
      InBounds();
      NotYetTried();
      again := Begin();
      if !again {
        return;
      }
      if core.finalizing {
        var limit := MAX_FINALIZATION_RETRIES + 1 - core.attempts;
        if limit <= 0 {
          End();
          return false;
        }
        ghost var tries;
        var reply, used, ok;
        reply, used, ok, tries := CallModel(true, core.decisions + 1, limit, core.attempts);
        if !ok {
          return false;
        }
        UseAttempts(used);
        again := Respond(reply, core.decisions + 1);
      } else {
        ghost var before := core.decisions;
        CountDecision();
        ghost var tries;
        var reply, used, ok;
        reply, used, ok, tries := CallModel(false, core.decisions, MAX_GENERATE_RETRIES + 1, 0);
        if !ok {
          return false;
        }
        NextDecision(before);
        LastIsLatest(core.progress, core.decisions);
        ghost var mid := log.journal;
        ghost var t: nat :| old(clock) <= t < clock && oracle.replies(t) == reply;
        again := Respond(reply, core.decisions);
        ToolsAfter(old(log).journal, mid, log.journal, reply.calls, maxToolCall - old(core).toolCalls);
        assert again && !core.finalizing ==> Took(oracle.replies(t), old(core).toolCalls, core.toolCalls, old(log).journal, log.journal, maxToolCall);
      }
    }

    method UseAttempts(used: int)
      requires Valid() && core.finalizing && 0 <= used && core.attempts + used <= MAX_FINALIZATION_RETRIES + 1
      modifies this
      ensures Valid() && core == old(core).(attempts := old(core).attempts + used)
      ensures log == old(log) && flags == old(flags) && clock == old(clock)
    {
      hide Talk, LogInv, Spoken, FromReplies, FreshIds, ModelCalls, ToolCalls, TraceTrue, Executions, Numbered;
      core := core.(attempts := core.attempts + used);
    }

    method CountDecision()
      requires Valid() && 0 <= core.decisions < Cap(maxLoop) && Iterations(core.progress) == UpTo(core.decisions)
      modifies this
      ensures Valid() && core == old(core).(decisions := old(core).decisions + 1)
      ensures log == old(log) && flags == old(flags) && clock == old(clock)
    {
      hide Talk, LogInv, Spoken, FromReplies, FreshIds, ModelCalls, ToolCalls, TraceTrue, Executions, Iterations, UpTo;
      core := core.(decisions := core.decisions + 1);
    }

    // What the answer asks for.
    method Respond(reply: Reply, iteration: int) returns (again: bool)
      requires Valid() && Protocol(core.messages) && reply.Answer? && (!core.finalizing ==> Latest(core.progress, iteration))
      requires exists t: nat :: t < clock && oracle.replies(t) == reply
      requires forall id | Offers(reply, id) :: id !in log.known
      modifies this
      ensures Valid() && (again ==> Protocol(core.messages)) && Iterations(core.progress) == Iterations(old(core).progress)
      ensures core == old(core).(messages := core.messages, progress := core.progress, toolCalls := core.toolCalls,
                                 finalizing := core.finalizing, attempts := core.attempts)
      ensures again ==> core.attempts == if core.finalizing && !old(core).finalizing then 1 else old(core).attempts
      ensures again && !old(core).finalizing && reply.calls == [] ==> core.finalizing
      ensures old(core).finalizing ==> core.finalizing
      ensures !again ==> Stopped(flags)
      ensures clock >= old(clock) && (again ==> Closings(log.journal) == Closings(old(log).journal))
      ensures again && !core.finalizing ==> Turn(reply) && !old(core).finalizing
      ensures Turn(reply) && !old(core).finalizing && again ==>
        !core.finalizing && exists results :: ToolsRun(old(core).toolCalls, core.toolCalls, old(log).journal, log.journal, reply.calls, results, maxToolCall)
      ensures Turn(reply) && !old(core).finalizing && !again ==>
        ToolsCut(old(log).journal, log.journal, reply.calls, maxToolCall - old(core).toolCalls)
      ensures !Turn(reply) || old(core).finalizing ==> CallsRun(log.journal) == CallsRun(old(log).journal)
      ensures Closings(log.journal) != Closings(old(log).journal) ==>
        reply.calls == [] && exists t: nat :: Closed(old(log).journal, log.journal, reply, oracle.verdicts(t), false)
      ensures Fair(oracle.signals, old(clock), clock) && !again ==>
        Closings(log.journal) != Closings(old(log).journal) || core.attempts > MAX_FINALIZATION_RETRIES
    {
      hide Talk, LogInv, Spoken, Counters, FromReplies, FreshIds, Protocol, Iterations, DistinctIds, Offers, Latest, Executions, CallsRun, Closings, TraceTrue;
      hide ToolsRun, ToolsCut, Blank;
      ghost var at: nat :| at < clock && oracle.replies(at) == reply;
      DistinctReply(oracle.replies, past, at);
      hide Valid;
      if reply.calls == [] {
        again := HandleFinal(reply, iteration);
      } else {
        ghost var results;
        again, results := HandleTools(reply, iteration, at);
      }
    }
  }

  lemma {:induction false} OnlyNotes(notes: seq<TraceEntry>)
    requires forall e | e in notes :: e.Note?
    ensures ModelCalls(notes) == 0 && ToolCalls(notes) == 0 && Iterations(notes) == {}
    decreases |notes|
  {
    if notes != [] {
      var n := |notes| - 1;
      assert notes[n] in notes;
      OnlyNotes(notes[..n]);
    }
  }

  // Where the last model call is after an entry that is none.
  function MarkOf(progress: seq<TraceEntry>): nat {
    if LastCall(progress) == |progress| then |progress| + 1 else LastCall(progress)
  }

  lemma {:induction false} KnowMore(replies: nat -> Reply, clock: nat, past: set<string>, known: set<string>, id: string, at: nat)
    requires FromReplies(replies, clock, past, known) && at < clock && Offers(replies(at), id)
    ensures FromReplies(replies, clock, past, known + {id})
  {
  }

  lemma {:induction false} AnswersNone(calls: seq<Call>)
    ensures Answers(calls, [])
  {
  }

  lemma {:induction false} LaterIds(calls: seq<Call>, i: nat)
    requires DistinctIds(calls) && i < |calls|
    ensures forall j | i < j < |calls| :: calls[j].id != calls[i].id
  {
  }

  lemma {:induction false} PartialBlock(base: seq<Message>, m: Message, results: seq<Message>)
    requires Protocol(base) && m.Assistant? && m.calls != [] && Answers(m.calls, results)
    ensures Partial(base + [m] + results) && (|results| == |m.calls| ==> Protocol(base + [m] + results))
  {
    hide Protocol, Partial, Answers;
    OpenBlock(m, results);
    ProtocolAppend(base, [m] + results);
    assert base + [m] + results == base + ([m] + results);
  }

  // The last model call of the trace is this decision.
  ghost predicate Latest(progress: seq<TraceEntry>, iteration: int) {
    var i := LastCall(progress);
    i < |progress| && Decides(progress[i]) && progress[i].iteration == iteration
  }

  lemma {:induction false} LatestStays(before: seq<TraceEntry>, after: seq<TraceEntry>, iteration: int)
    requires Latest(before, iteration) && before <= after && LastCall(after) == LastCall(before)
    ensures Latest(after, iteration)
  {
  }

  lemma {:induction false} SayProtocol(ms: seq<Message>, m: Message)
    requires Protocol(ms) && !m.ToolResult? && CallsOf(m) == []
    ensures Protocol(ms + [m])
  {
    OneMessage(m);
    ProtocolAppend(ms, [m]);
  }

  lemma {:induction false} ProtocolIsPartial(ms: seq<Message>)
    requires Protocol(ms)
    ensures Partial(ms)
  {
    ProtocolAppend(ms, []);
    assert ms + [] == ms;
  }

  lemma {:induction false} DistinctReply(replies: nat -> Reply, past: set<string>, t: nat)
    requires FreshIds(replies, past) && replies(t).Answer?
    ensures DistinctIds(replies(t).calls)
  {
  }

  // The trace during a model call: what it was before, or with the decision at hand.
  ghost predicate Deciding(progress: seq<TraceEntry>, terminal: bool, iteration: int, before: set<int>) {
    if terminal then Iterations(progress) == before
    else before <= Iterations(progress) <= before + {iteration}
  }

  lemma {:induction false} DecidingMore(was: seq<TraceEntry>, progress: seq<TraceEntry>, terminal: bool, iteration: int, before: set<int>)
    requires Deciding(was, terminal, iteration, before)
    requires Iterations(progress) == Iterations(was) + if terminal then {} else {iteration}
    ensures Deciding(progress, terminal, iteration, before)
    ensures !terminal ==> Iterations(progress) == before + {iteration}
  {
    hide Iterations;
  }

  lemma {:induction false} DecidingSame(was: seq<TraceEntry>, progress: seq<TraceEntry>, terminal: bool, iteration: int, before: set<int>)
    requires Deciding(was, terminal, iteration, before) && Iterations(progress) == Iterations(was)
    ensures Deciding(progress, terminal, iteration, before)
  {
    hide Iterations;
  }

  lemma {:induction false} NextDecision(n: int)
    requires n >= 0
    ensures UpTo(n) + {n + 1} == UpTo(n + 1)
  {
  }

  lemma {:induction false} LastIsLatest(progress: seq<TraceEntry>, iteration: int)
    requires progress != [] && Decides(progress[|progress| - 1]) && progress[|progress| - 1].iteration == iteration
    ensures Latest(progress, iteration)
  {
  }

  // The calls a journal ran, in order, and how many.
  function CallsRun(journal: seq<Write>): seq<Call> {
    if journal == [] then []
    else
      var last := journal[|journal| - 1];
      CallsRun(journal[..|journal| - 1]) + if last.Executed? then [last.call] else []
  }

  // The accepted answers a journal ends Runs with.
  function Closings(journal: seq<Write>): seq<Ending> {
    if journal == [] then []
    else
      var last := journal[|journal| - 1];
      Closings(journal[..|journal| - 1]) + if last.Ended? && last.ending.Finalized? then [last.ending] else []
  }

  // More was written, but nothing ran and no answer was accepted.
  ghost predicate Quiet(before: seq<Write>, after: seq<Write>) {
    before <= after && CallsRun(after) == CallsRun(before) && Closings(after) == Closings(before)
  }

  // Nothing got in the way between two looks at the clock.
  ghost predicate Fair(signals: nat -> Signal, from: nat, to: nat) {
    forall t: nat | from <= t < to :: signals(t) == Fine
  }

  function Executions(journal: seq<Write>): nat {
    |CallsRun(journal)|
  }

  lemma {:induction false} ExecutionsAppend(journal: seq<Write>, w: Write)
    ensures CallsRun(journal + [w]) == CallsRun(journal) + if w.Executed? then [w.call] else []
    ensures Executions(journal + [w]) == Executions(journal) + if w.Executed? then 1 else 0
    ensures Closings(journal + [w]) == Closings(journal) + if w.Ended? && w.ending.Finalized? then [w.ending] else []
  {
    assert (journal + [w])[..|journal|] == journal;
  }

  lemma {:induction false} RanWithLater(journal: seq<Write>, later: seq<Write>, id: string, r: Result)
    requires RanWith(journal, id, r) && journal <= later
    ensures RanWith(later, id, r)
  {
    var k :| 0 <= k < |journal| && journal[k].Executed? && journal[k].call.id == id && journal[k].result == r;
    assert later[k] == journal[k];
  }

  // How many of a reply's calls the budget still allows.
  function Affordable(calls: nat, left: int): nat {
    if left <= 0 then 0 else if calls <= left then calls else left
  }

  lemma {:induction false} AffordableNext(i: nat, calls: nat, left: int)
    requires i < calls
    ensures i < Affordable(calls, left) <==> Affordable(i, left) < left
    ensures Affordable(i + 1, left) == Affordable(i, left) + if i < Affordable(calls, left) then 1 else 0
    ensures Affordable(i + 1, left) <= Affordable(calls, left) && (i < Affordable(calls, left) ==> Affordable(i, left) == i)
  {
  }

  // Exactly the first n calls ran in between.
  ghost predicate Dispatched(before: seq<Write>, after: seq<Write>, calls: seq<Call>, n: nat) {
    n <= |calls| && CallsRun(after) == CallsRun(before) + calls[..n]
  }

  lemma {:induction false} NothingDispatched(journal: seq<Write>, calls: seq<Call>, left: int)
    ensures Affordable(0, left) == 0 && Dispatched(journal, journal, calls, 0)
  {
    hide CallsRun;
    assert CallsRun(journal) + calls[..0] == CallsRun(journal);
  }

  lemma {:induction false} DispatchedNext(start: seq<Write>, before: seq<Write>, after: seq<Write>, calls: seq<Call>, i: nat, left: int)
    requires i < |calls| && Dispatched(start, before, calls, Affordable(i, left))
    ensures CallsRun(after) == CallsRun(before) ==> Dispatched(start, after, calls, Affordable(i, left))
    ensures i < Affordable(|calls|, left) && CallsRun(after) == CallsRun(before) + [calls[i]] ==>
      Dispatched(start, after, calls, Affordable(i + 1, left))
  {
    hide CallsRun;
    assert calls[..i + 1] == calls[..i] + [calls[i]];
    assert CallsRun(start) + (calls[..i] + [calls[i]]) == CallsRun(start) + calls[..i] + [calls[i]];
  }

  /**
    The calls of a reply that are run: as many as the budget allows, in order, each answered with what it
    gave; the others are refused.
   */
  ghost predicate ToolsRun(before: int, after: int, was: seq<Write>, journal: seq<Write>, calls: seq<Call>, results: seq<Message>, limit: int) {
    var n := Affordable(|calls|, limit - before);
    && after == before + n && |results| == |calls| && Dispatched(was, journal, calls, n) && Given(journal, calls, results, n)
  }

  // The Run stopped in the middle of them.
  ghost predicate ToolsCut(was: seq<Write>, journal: seq<Write>, calls: seq<Call>, left: int) {
    exists k: nat :: k <= Affordable(|calls|, left) && Dispatched(was, journal, calls, k)
  }

  lemma {:induction false} CutAt(was: seq<Write>, journal: seq<Write>, calls: seq<Call>, left: int, i: nat)
    requires i <= |calls| && Dispatched(was, journal, calls, Affordable(i, left))
    ensures ToolsCut(was, journal, calls, left)
  {
    hide Dispatched;
    assert Affordable(i, left) <= Affordable(|calls|, left);
  }

  // A quiet write before the first call changes nothing of this.
  lemma {:induction false} ToolsAfter(start: seq<Write>, was: seq<Write>, journal: seq<Write>, calls: seq<Call>, left: int)
    requires Quiet(start, was)
    ensures ToolsCut(was, journal, calls, left) ==> ToolsCut(start, journal, calls, left)
    ensures ToolsCut(start, was, calls, left) && Closings(was) == Closings(start)
    ensures forall before, after, results, limit ::
      ToolsRun(before, after, was, journal, calls, results, limit) ==> ToolsRun(before, after, start, journal, calls, results, limit)
  {
    DispatchedAfter(start, was, journal, calls);
    NothingDispatched(was, calls, left);
    DispatchedAfter(start, was, was, calls);
    hide Dispatched, Given, Affordable;
    CutAt(start, was, calls, left, 0);
  }

  lemma {:induction false} QuietItself(a: seq<Write>)
    ensures Quiet(a, a)
  {
  }

  lemma {:induction false} QuietTogether(a: seq<Write>, b: seq<Write>, c: seq<Write>)
    requires Quiet(a, b) && Quiet(b, c)
    ensures Quiet(a, c) && Closings(c) == Closings(a)
  {
  }

  lemma {:induction false} DispatchedAfter(start: seq<Write>, before: seq<Write>, after: seq<Write>, calls: seq<Call>)
    requires Quiet(start, before)
    ensures forall n: nat :: Dispatched(before, after, calls, n) <==> Dispatched(start, after, calls, n)
  {
    hide CallsRun;
  }

  lemma {:induction false} DispatchedLater(start: seq<Write>, before: seq<Write>, after: seq<Write>, calls: seq<Call>, n: nat)
    requires Dispatched(start, before, calls, n) && Quiet(before, after)
    ensures Dispatched(start, after, calls, n)
  {
  }

  // The result that joined the conversation.
  ghost function ResultRan(before: seq<Message>, after: seq<Message>, journal: seq<Write>, id: string): (r: Result)
    requires exists r :: after == before + [ToolResult(id, r)] && RanWith(journal, id, r)
    ensures after == before + [ToolResult(id, r)] && RanWith(journal, id, r)
  {
    var r :| after == before + [ToolResult(id, r)] && RanWith(journal, id, r);
    r
  }

  // The answers to calls made while tools are disabled.
  function Refusals(calls: seq<Call>): seq<Message> {
    seq(|calls|, i requires 0 <= i < |calls| => ToolResult(calls[i].id, DISABLED))
  }

  lemma {:induction false} RefusalsNext(calls: seq<Call>, i: nat)
    requires i < |calls|
    ensures Refusals(calls[..i + 1]) == Refusals(calls[..i]) + [ToolResult(calls[i].id, DISABLED)]
  {
  }

  lemma {:induction false} NoRefusals(calls: seq<Call>)
    ensures Refusals(calls[..0]) == []
  {
  }

  // Replies that were errors worth another attempt, one after the other.
  ghost predicate Retried(replies: nat -> Reply, tries: seq<nat>, from: nat, to: nat) {
    && (forall i | 0 <= i < |tries| :: from <= tries[i] < to && replies(tries[i]).Error? && replies(tries[i]).retryable)
    && (forall i, j | 0 <= i < j < |tries| :: tries[i] < tries[j])
  }

  // Such replies, then the one that counts.
  ghost predicate Tries(replies: nat -> Reply, tries: seq<nat>, from: nat, to: nat, used: int, reply: Reply) {
    && |tries| == used > 0 && Retried(replies, tries[..used - 1], from, to)
    && from <= tries[used - 1] < to && replies(tries[used - 1]) == reply && (forall i | 0 <= i < used - 1 :: tries[i] < tries[used - 1])
  }

  lemma {:induction false} NothingRetried(replies: nat -> Reply, from: nat, to: nat)
    ensures Retried(replies, [], from, to)
  {
  }

  lemma {:induction false} TriedOnce(replies: nat -> Reply, tries: seq<nat>, from: nat, mid: nat, to: nat, t: nat)
    requires Retried(replies, tries, from, mid) && from <= mid <= t < to
    ensures Tries(replies, tries + [t], from, to, |tries| + 1, replies(t))
    ensures replies(t).Error? && replies(t).retryable ==> Retried(replies, tries + [t], from, to)
  {
    assert (tries + [t])[..|tries|] == tries;
  }

  lemma {:induction false} TriesLater(replies: nat -> Reply, tries: seq<nat>, from: nat, mid: nat, to: nat, used: int, reply: Reply)
    requires Tries(replies, tries, from, mid, used, reply) && mid <= to
    ensures Tries(replies, tries, from, to, used, reply)
  {
  }

  // The tags delivered before a decision; the first decision has them in its wake-up.
  function Tagged(core: Core, mention: Option<string>): seq<Message> {
    if core.decisions > 0 && mention.Some? then [Mention(mention.value)] else []
  }

  // A final answer needs text and the stop reason; then its parsing decides.
  function VerdictOf(reply: Reply, parsed: Verdict): Verdict
    requires reply.Answer?
  {
    if reply.text.None? || Blank(reply.text.value) || reply.finish != StopReason then Invalid else parsed
  }

  // What an answer that was not accepted is kept as.
  function InvalidAnswer(reply: Reply): Message
    requires reply.Answer?
  {
    Assistant(if reply.text.None? || Blank(reply.text.value) then Some("[invalid empty final response]") else reply.text, [])
  }

  // An accepted answer ends the Run with it, unless something gets in the way.
  ghost predicate Closed(before: seq<Write>, after: seq<Write>, reply: Reply, parsed: Verdict, fair: bool)
    requires reply.Answer?
  {
    && reply.text.Some? && !Blank(reply.text.value) && reply.finish == StopReason && parsed.Accepted? && before <= after
    && (Closings(after) == Closings(before) || Closings(after) == Closings(before) + [Finalized(reply.text.value, parsed.failed)])
    && (fair ==> Closings(after) == Closings(before) + [Finalized(reply.text.value, parsed.failed)])
  }

  // An answer without calls that is accepted, and what the Run then ends with.
  predicate Accepts(reply: Reply, parsed: Verdict) {
    && reply.Answer? && reply.calls == [] && reply.finish == StopReason
    && reply.text.Some? && !Blank(reply.text.value) && parsed.Accepted?
  }

  function AnswerOf(reply: Reply, parsed: Verdict): Ending {
    if Accepts(reply, parsed) then Finalized(reply.text.value, parsed.failed) else Abandoned
  }

  // A reply whose calls were run.
  ghost predicate Took(reply: Reply, before: int, after: int, was: seq<Write>, journal: seq<Write>, limit: int) {
    Turn(reply) && exists results :: ToolsRun(before, after, was, journal, reply.calls, results, limit)
  }

  // The Run is closed only with an answer that was accepted.
  ghost predicate CloseTrue(oracle: Oracle, was: seq<Write>, journal: seq<Write>) {
    Closings(journal) != Closings(was) ==>
      exists t: nat, u: nat :: Accepts(oracle.replies(t), oracle.verdicts(u)) && Closings(journal) == Closings(was) + [AnswerOf(oracle.replies(t), oracle.verdicts(u))]
  }

  // When nothing gets in the way, a Run stops with an answer, without allowance, or after a model error.
  ghost predicate StopsForCause(oracle: Oracle, was: seq<Write>, journal: seq<Write>, attempts: int, from: nat, to: nat) {
    Fair(oracle.signals, from, to) ==>
      || Closings(journal) != Closings(was) || attempts > MAX_FINALIZATION_RETRIES
      || exists t: nat :: from <= t < to && oracle.replies(t).Error?
  }

  // How far a Run has come: the replies it took, what it ran for them, and nothing closed yet.
  ghost predicate Course(oracle: Oracle, core: Core, start: seq<Write>, journal: seq<Write>, turns: seq<nat>, from: nat, to: nat, budget: int, limit: int) {
    && from <= to && Turns(oracle.replies, turns, from, to) && |turns| <= core.decisions <= |turns| + 1
    && (!core.finalizing ==> core.decisions == |turns| && limit - core.toolCalls == budget - Affordable(|Asked(oracle.replies, turns)|, budget))
    && Obeyed(oracle.replies, start, journal, turns, budget) && Closings(journal) == Closings(start)
  }

  // What is left of it when the Run stops.
  ghost predicate Outcome(oracle: Oracle, core: Core, start: seq<Write>, journal: seq<Write>, turns: seq<nat>, from: nat, to: nat, budget: int) {
    && from <= to && Turns(oracle.replies, turns, from, to) && |turns| <= core.decisions <= |turns| + 1
    && (Obeyed(oracle.replies, start, journal, turns, budget) || ObeyedCut(oracle.replies, start, journal, turns, budget))
    && CloseTrue(oracle, start, journal) && StopsForCause(oracle, start, journal, core.attempts, from, to)
  }

  // The calls of the replies at some times, one reply after the other.
  function Asked(replies: nat -> Reply, turns: seq<nat>): seq<Call> {
    if turns == [] then []
    else
      var last := replies(turns[|turns| - 1]);
      Asked(replies, turns[..|turns| - 1]) + if last.Answer? then last.calls else []
  }

  ghost predicate Turns(replies: nat -> Reply, turns: seq<nat>, from: nat, to: nat) {
    && (forall i | 0 <= i < |turns| :: from <= turns[i] < to && Turn(replies(turns[i])))
    && (forall i, j | 0 <= i < j < |turns| :: turns[i] < turns[j])
  }

  // What ran in between is what was asked, as far as the budget allowed.
  ghost predicate Obeyed(replies: nat -> Reply, was: seq<Write>, journal: seq<Write>, turns: seq<nat>, left: int) {
    var asked := Asked(replies, turns);
    CallsRun(journal) == CallsRun(was) + asked[..Affordable(|asked|, left)]
  }

  // The same, with a part of the calls of one more reply.
  ghost predicate ObeyedCut(replies: nat -> Reply, was: seq<Write>, journal: seq<Write>, turns: seq<nat>, left: int) {
    exists mid: seq<Write>, t: nat ::
      && Obeyed(replies, was, mid, turns, left) && Turn(replies(t)) && (turns == [] || turns[|turns| - 1] < t)
      && ToolsCut(mid, journal, replies(t).calls, left - Affordable(|Asked(replies, turns)|, left))
  }

  lemma {:induction false} StartCourse(oracle: Oracle, core: Core, journal: seq<Write>, clock: nat, budget: int, limit: int)
    requires core.decisions == 0 && !core.finalizing && budget == limit - core.toolCalls
    ensures Course(oracle, core, journal, journal, [], clock, clock, budget, limit)
  {
    NothingAsked(oracle.replies, journal, budget);
  }

  lemma {:induction false} CourseLater(oracle: Oracle, core: Core, start: seq<Write>, was: seq<Write>, journal: seq<Write>, turns: seq<nat>,
                                       from: nat, mid: nat, to: nat, budget: int, limit: int)
    requires Course(oracle, core, start, was, turns, from, mid, budget, limit) && Quiet(was, journal) && mid <= to
    ensures Course(oracle, core, start, journal, turns, from, to, budget, limit)
  {
    hide CallsRun, Closings, Asked;
  }

  lemma {:induction false} StartStops(oracle: Oracle, core: Core, start: seq<Write>, journal: seq<Write>, from: nat, to: nat, budget: int)
    requires Quiet(start, journal) && from <= to && core.decisions == 0 && !Fair(oracle.signals, from, to)
    ensures Outcome(oracle, core, start, journal, [], from, to, budget)
  {
    NothingAsked(oracle.replies, start, budget);
    hide CallsRun, Closings, Asked;
  }

  lemma {:induction false} CauseLater(oracle: Oracle, start: seq<Write>, was: seq<Write>, journal: seq<Write>, attempts: int, from: nat, mid: nat, to: nat)
    requires Closings(was) == Closings(start) && from <= mid <= to
    ensures CloseTrue(oracle, was, journal) ==> CloseTrue(oracle, start, journal)
    ensures StopsForCause(oracle, was, journal, attempts, mid, to) ==> StopsForCause(oracle, start, journal, attempts, from, to)
  {
    hide Closings, Accepts, AnswerOf;
  }

  lemma {:induction false} NothingAsked(replies: nat -> Reply, journal: seq<Write>, left: int)
    ensures Obeyed(replies, journal, journal, [], left) && Affordable(|Asked(replies, [])|, left) == 0
    ensures forall from, to :: Turns(replies, [], from, to)
  {
    hide CallsRun;
    assert CallsRun(journal) + [] == CallsRun(journal);
  }

  lemma {:induction false} ObeyedLater(replies: nat -> Reply, was: seq<Write>, before: seq<Write>, after: seq<Write>, turns: seq<nat>, left: int)
    ensures Obeyed(replies, was, before, turns, left) && CallsRun(after) == CallsRun(before) ==> Obeyed(replies, was, after, turns, left)
  {
    hide CallsRun;
  }

  lemma {:induction false} TurnsLater(replies: nat -> Reply, turns: seq<nat>, from: nat, mid: nat, to: nat)
    requires Turns(replies, turns, from, mid) && mid <= to
    ensures Turns(replies, turns, from, to)
  {
  }

  lemma {:induction false} AffordableAfter(a: nat, b: nat, left: int)
    ensures Affordable(a + b, left) == Affordable(a, left) + Affordable(b, left - Affordable(a, left))
    ensures Affordable(a, left) < a ==> Affordable(b, left - Affordable(a, left)) == 0
  {
  }

  // Taking from two lists in a row.
  lemma {:induction false} TakeBothLists(a: seq<Call>, b: seq<Call>, left: int)
    ensures (a + b)[..Affordable(|a + b|, left)] == a[..Affordable(|a|, left)] + b[..Affordable(|b|, left - Affordable(|a|, left))]
  {
    AffordableAfter(|a|, |b|, left);
  }

  lemma {:induction false} AskedNext(replies: nat -> Reply, turns: seq<nat>, t: nat)
    requires Turn(replies(t))
    ensures Asked(replies, turns + [t]) == Asked(replies, turns) + replies(t).calls
  {
    assert (turns + [t])[..|turns|] == turns;
  }

  lemma {:induction false} TookTurn(replies: nat -> Reply, start: seq<Write>, was: seq<Write>, journal: seq<Write>, turns: seq<nat>, left: int, t: nat,
                                    from: nat, mid: nat, to: nat, before: int, after: int, limit: int)
    requires Obeyed(replies, start, was, turns, left) && Turns(replies, turns, from, mid) && from <= mid <= t < to
    requires Took(replies(t), before, after, was, journal, limit) && limit - before == left - Affordable(|Asked(replies, turns)|, left)
    ensures Turns(replies, turns + [t], from, to) && Obeyed(replies, start, journal, turns + [t], left)
    ensures after == before + Affordable(|Asked(replies, turns + [t])|, left) - Affordable(|Asked(replies, turns)|, left)
  {
    hide Given, CallsRun, Asked;
    var asked, calls := Asked(replies, turns), replies(t).calls;
    var results :| ToolsRun(before, after, was, journal, calls, results, limit);
    AskedNext(replies, turns, t);
    TakeBothLists(asked, calls, left);
    AffordableAfter(|asked|, |calls|, left);
    var n, k := Affordable(|asked|, left), Affordable(|calls|, limit - before);
    assert CallsRun(start) + asked[..n] + calls[..k] == CallsRun(start) + (asked[..n] + calls[..k]);
  }

  lemma {:induction false} CutTurn(replies: nat -> Reply, start: seq<Write>, was: seq<Write>, journal: seq<Write>, turns: seq<nat>, left: int, t: nat,
                                   from: nat, mid: nat, before: int, limit: int)
    requires Obeyed(replies, start, was, turns, left) && Turns(replies, turns, from, mid) && mid <= t && Turn(replies(t))
    requires ToolsCut(was, journal, replies(t).calls, limit - before) && limit - before == left - Affordable(|Asked(replies, turns)|, left)
    ensures ObeyedCut(replies, start, journal, turns, left)
  {
    hide Obeyed, ToolsCut, Asked, Affordable;
  }

  // A reply whose calls are run.
  predicate Turn(reply: Reply) {
    reply.Answer? && reply.calls != [] && reply.finish == ToolReason
  }

  // The first n calls are answered with what they gave, the others with the refusal of a spent budget.
  ghost predicate Given(journal: seq<Write>, calls: seq<Call>, results: seq<Message>, n: nat) {
    && |results| <= |calls|
    && (forall j | 0 <= j < |results| && j < n :: results[j].ToolResult? && RanWith(journal, calls[j].id, results[j].content))
    && (forall j | n <= j < |results| :: results[j] == ToolResult(calls[j].id, EXHAUSTED))
  }

  lemma {:induction false} GivenNone(journal: seq<Write>, calls: seq<Call>, n: nat)
    ensures Given(journal, calls, [], n)
  {
  }

  lemma {:induction false} GivenNext(journal: seq<Write>, later: seq<Write>, calls: seq<Call>, results: seq<Message>, n: nat, m: Message)
    requires Given(journal, calls, results, n) && journal <= later && |results| < |calls| && m.ToolResult?
    requires if |results| < n then RanWith(later, calls[|results|].id, m.content) else m == ToolResult(calls[|results|].id, EXHAUSTED)
    ensures Given(later, calls, results + [m], n)
  {
    hide RanWith;
    var more := results + [m];
    forall j | 0 <= j < |more| && j < n ensures more[j].ToolResult? && RanWith(later, calls[j].id, more[j].content) {
      if j < |results| {
        RanWithLater(journal, later, calls[j].id, results[j].content);
      }
    }
  }

  // In the middle of the calls of a reply: the first i are answered, and `used` of them ran.
  ghost predicate Midway(start: seq<Write>, journal: seq<Write>, calls: seq<Call>, results: seq<Message>, i: nat, left: int, used: int) {
    && i <= |calls| && |results| == i && Answers(calls, results) && used == Affordable(i, left)
    && Given(journal, calls, results, Affordable(|calls|, left)) && Dispatched(start, journal, calls, Affordable(i, left))
  }

  lemma {:induction false} MidwayStart(journal: seq<Write>, calls: seq<Call>, left: int)
    ensures Midway(journal, journal, calls, [], 0, left, 0)
  {
    AnswersNone(calls);
    GivenNone(journal, calls, Affordable(|calls|, left));
    NothingDispatched(journal, calls, left);
    hide Given, Dispatched, Affordable;
  }

  lemma {:induction false} MidwayBudget(start: seq<Write>, journal: seq<Write>, calls: seq<Call>, results: seq<Message>, i: nat, left: int, used: int)
    requires Midway(start, journal, calls, results, i, left, used) && i < |calls|
    ensures used < left <==> i < Affordable(|calls|, left)
  {
    hide Given, Dispatched, Answers;
    AffordableNext(i, |calls|, left);
  }

  lemma {:induction false} MidwayCut(start: seq<Write>, was: seq<Write>, journal: seq<Write>, calls: seq<Call>, results: seq<Message>, i: nat, left: int, used: int)
    requires Midway(start, was, calls, results, i, left, used) && i < |calls|
    requires CallsRun(journal) == CallsRun(was) || (used < left && CallsRun(journal) == CallsRun(was) + [calls[i]])
    ensures ToolsCut(start, journal, calls, left)
  {
    hide Given, Dispatched, Answers, CallsRun, Affordable, ToolsCut;
    AffordableNext(i, |calls|, left);
    DispatchedNext(start, was, journal, calls, i, left);
    CutAt(start, journal, calls, left, if CallsRun(journal) == CallsRun(was) then i else i + 1);
  }

  lemma {:induction false} MidwayNext(start: seq<Write>, was: seq<Write>, journal: seq<Write>, m: Message, base: seq<Message>, results: seq<Message>,
                                      i: nat, left: int, used: int, r: Result)
    requires m.Assistant? && Midway(start, was, m.calls, results, i, left, used) && i < |m.calls| && was <= journal && Protocol(base)
    requires if used < left then CallsRun(journal) == CallsRun(was) + [m.calls[i]] && RanWith(journal, m.calls[i].id, r)
             else CallsRun(journal) == CallsRun(was) && r == EXHAUSTED
    ensures var more := results + [ToolResult(m.calls[i].id, r)];
      && Midway(start, journal, m.calls, more, i + 1, left, used + if used < left then 1 else 0)
      && Partial(base + [m] + more) && base + [m] + more == base + [m] + results + [ToolResult(m.calls[i].id, r)]
  {
    hide Given, Dispatched, Answers, CallsRun, Affordable, RanWith, Protocol, Partial;
    var calls := m.calls;
    AffordableNext(i, |calls|, left);
    DispatchedNext(start, was, journal, calls, i, left);
    AnswersNext(calls, results, r);
    GivenNext(was, journal, calls, results, Affordable(|calls|, left), ToolResult(calls[i].id, r));
    OneMore(base + [m], results, ToolResult(calls[i].id, r));
    PartialBlock(base, m, results + [ToolResult(calls[i].id, r)]);
  }

  lemma {:induction false} MidwayLater(start: seq<Write>, was: seq<Write>, journal: seq<Write>, calls: seq<Call>, results: seq<Message>, i: nat, left: int, used: int)
    requires Midway(start, was, calls, results, i, left, used) && Quiet(was, journal)
    ensures Midway(start, journal, calls, results, i, left, used) && ToolsCut(start, journal, calls, left)
  {
    hide Given, Dispatched, Answers, CallsRun, Affordable, Closings;
    GivenLater(was, journal, calls, results, Affordable(|calls|, left));
    DispatchedLater(start, was, journal, calls, Affordable(i, left));
    CutAt(start, journal, calls, left, i);
  }

  lemma {:induction false} MidwayDone(start: seq<Write>, journal: seq<Write>, m: Message, base: seq<Message>, results: seq<Message>, left: int, used: int)
    requires m.Assistant? && m.calls != [] && Midway(start, journal, m.calls, results, |m.calls|, left, used) && Protocol(base)
    ensures Protocol(base + [m] + results)
    ensures forall before, after, limit | limit - before == left && after - before == used :: ToolsRun(before, after, start, journal, m.calls, results, limit)
  {
    hide Given, Dispatched, Answers, Affordable, Protocol, Partial;
    PartialBlock(base, m, results);
  }

  lemma {:induction false} GivenLater(journal: seq<Write>, later: seq<Write>, calls: seq<Call>, results: seq<Message>, n: nat)
    requires Given(journal, calls, results, n) && journal <= later
    ensures Given(later, calls, results, n)
  {
    hide RanWith;
    forall j | 0 <= j < |results| && j < n ensures RanWith(later, calls[j].id, results[j].content) {
      RanWithLater(journal, later, calls[j].id, results[j].content);
    }
  }

}
