/**
  A crash at any point of a Run: what the next Run is told of the tools that ran.
 */
module CrashSafety {
  import opened Prelude
  import opened Messages
  import opened Completion
  import opened SemanticStorage
  import opened SemanticLaws
  import opened StoredEvidence
  import opened StoredTalk
  import opened Trace
  import opened Journal

  ghost predicate Saved(journal: seq<Write>, said: seq<Message>, stored: seq<Message>) {
    exists k :: 0 <= k < |journal| && journal[k] == SavedConversation(said, stored)
  }

  // A message of a completed conversation was stored or is an explicit unknown.
  lemma {:induction false} CompletedMessage(ms: seq<Message>, m: Message)
    requires m in Complete(ms)
    ensures m in ms || (m.ToolResult? && m.content == UNKNOWN)
    decreases |ms|
  {
    if ms == [] {
      CompleteNone(ms);
    } else {
      CompleteStep(ms);
      Split(ms);
      hide Complete, Missing, Block, Completion.Rest;
      if CallsOf(ms[0]) == [] {
        if m in Complete(ms[1..]) {
          CompletedMessage(ms[1..], m);
        }
      } else {
        MissingResults(CallsOf(ms[0]), Block(ms));
        if m in Complete(Completion.Rest(ms)) {
          CompletedMessage(Completion.Rest(ms), m);
        }
      }
    }
  }

  // How a reloaded result tells of the result r: as it was, or as the digest of its tool, counted.
  ghost predicate Tells(said: seq<Message>, m: Message, r: Result)
    requires m.ToolResult?
  {
    m.content == r || exists x :: x in Parse(said) && Origin(Calls(said), x, m) && ContentOf(Calls(said), x) == r
  }

  // A result that is true: the call ran with it, or it refuses a call that did not run.
  ghost predicate True(journal: seq<Write>, id: string, r: Result) {
    RanWith(journal, id, r) || (Denial(r) && !Ran(journal, id))
  }

  // A reloaded result is an explicit unknown or tells of a true one, and refuses only what that refused.
  ghost predicate Truthful(journal: seq<Write>, said: seq<Message>, m: Message)
    requires m.ToolResult?
  {
    (m.content == UNKNOWN && m.content.Failure? && m.content.outcome == Some("unknown"))
    || exists r :: True(journal, m.id, r) && Tells(said, m, r) && (Denial(m.content) ==> Denial(r))
  }

  lemma {:induction false} SavedTrue(journal: seq<Write>, past: set<string>, k: nat, n: nat, m: Message)
    requires k <= n <= |journal| && m.ToolResult? && m.id !in past && HonestResult(journal, k, past, m)
    ensures True(journal[..n], m.id, m.content)
  {
    RanWithFurther(journal, k, n, m.id, m.content);
    if Ran(journal[..n], m.id) {
      RanPrefix(journal, n, m.id);
    }
  }

  lemma {:induction false} StoredTrue(journal: seq<Write>, past: set<string>, k: nat, n: nat, said: seq<Message>, m: Message)
    requires k <= n <= |journal| && Honest(journal, k, past, said) && m.ToolResult? && m.id !in past
    requires m in said || m in Semantic(said)
    ensures Truthful(journal[..n], said, m)
  {
    hide Semantic, Parse, HonestResult, True, Digests, Calls;
    if m in said {
      assert HonestResult(journal, k, past, m);
      SavedTrue(journal, past, k, n, m);
    } else {
      var x := OriginOf(said, m);
      var was := ToolResult(m.id, ContentOf(Calls(said), x));
      assert HonestResult(journal, k, past, was);
      SavedTrue(journal, past, k, n, was);
      assert Tells(said, m, was.content);
    }
  }

  // The results of a conversation that follows the protocol come right after their calls.
  lemma {:induction false} PartialContiguous(ms: seq<Message>)
    requires Partial(ms)
    ensures Contiguous(ms)
    decreases |ms|
  {
    if ms != [] {
      var calls, tail := CallsOf(ms[0]), ms[1..];
      var n := if |calls| <= |tail| then |calls| else |tail|;
      var rest := tail[n..];
      PartialContiguous(rest);
      assert Answers(calls, tail[..n]) by { assert tail[..|tail|] == tail; }
      forall i | 0 <= i < |ms| && ms[i].ToolResult?
        ensures i > 0 && (ms[i - 1].ToolResult? || (ms[i - 1].Assistant? && ms[i - 1].calls != []))
      {
        if 1 < i <= n {
          assert tail[..n][i - 2] == ms[i - 1];
        } else if i > n {
          assert rest[i - n - 1] == ms[i];
          assert i > n + 1 && rest[i - n - 2] == ms[i - 1];
        }
      }
    }
  }

  lemma {:induction false} PartialRereads(ms: seq<Message>)
    requires Partial(ms)
    ensures Rereadable(Parse(ms))
  {
    PartialContiguous(ms);
    ContiguousRereads(ms, 0);
    assert ms[0..] == ms;
  }

  lemma {:induction false} SavedGood(journal: seq<Write>, past: set<string>, n: nat, said: seq<Message>, stored: seq<Message>) returns (k: nat)
    requires JournalInv(journal, past) && n <= |journal| && Saved(journal[..n], said, stored)
    ensures k < n && Partial(said) && DistinctCalls(said) && Honest(journal, k, past, said)
    ensures stored == said || stored == Semantic(said)
  {
    k :| 0 <= k < n && journal[..n][k] == SavedConversation(said, stored);
    assert journal[k] == SavedConversation(said, stored);
    assert Good(journal, past, k);
  }

  /**
    Crash soundness, in either storage mode: cut a Run's writes anywhere. A saved conversation reloads as
    a valid one, and every result in it is an explicit unknown or tells of a true result, whole, digested
    or counted; a refusal tells of a refusal.
   */
  lemma {:induction false} CrashIsSound(journal: seq<Write>, past: set<string>, n: nat, said: seq<Message>, stored: seq<Message>)
    requires JournalInv(journal, past) && n <= |journal| && Saved(journal[..n], said, stored)
    ensures Protocol(Complete(stored)) && stored <= Complete(stored)
    ensures forall m | m in Complete(stored) && m.ToolResult? && m.id !in past :: Truthful(journal[..n], said, m)
  {
    hide JournalInv, Saved, Partial, Protocol, Complete, Semantic, DistinctCalls, Honest, Truthful;
    var k := SavedGood(journal, past, n, said, stored);
    ReloadsValid(said);
    forall m | m in Complete(stored) && m.ToolResult? && m.id !in past ensures Truthful(journal[..n], said, m) {
      CompletedMessage(stored, m);
      if m in stored {
        StoredTrue(journal, past, k, n, said, m);
      } else {
        UnknownIsTruthful(journal[..n], said, m);
      }
    }
  }

  lemma {:induction false} UnknownIsTruthful(journal: seq<Write>, said: seq<Message>, m: Message)
    requires m.ToolResult? && m.content == UNKNOWN
    ensures Truthful(journal, said, m)
  {
  }

  /**
    What was said of the Run's calls is true, and the stored conversation tells the same of each mutation,
    if and only if it was stored as it was said, or no two neighbouring lone failures of one mutation
    share their error and differ in their outcome.
   */
  lemma {:induction false} CrashReportsIff(journal: seq<Write>, past: set<string>, n: nat, said: seq<Message>, stored: seq<Message>)
    requires JournalInv(journal, past) && n <= |journal| && Saved(journal[..n], said, stored)
    ensures Reports(Calls(said), Parse(stored)) == Reports(Calls(said), Parse(said)) <==>
            stored == said || !Misreporting(Parse(said))
    ensures forall m | m in said && m.ToolResult? && m.id !in past :: True(journal[..n], m.id, m.content)
  {
    hide JournalInv, Saved, Partial, Semantic, DistinctCalls, HonestResult, Misreporting, Reports, Parse, Calls, True;
    var k := SavedGood(journal, past, n, said, stored);
    PartialRereads(said);
    ReportsTrueIff(said);
    forall m | m in said && m.ToolResult? && m.id !in past ensures True(journal[..n], m.id, m.content) {
      SavedTrue(journal, past, k, n, m);
    }
  }

  // ---------------------------------------------------------------------------------------------
  // A false refusal
  // ---------------------------------------------------------------------------------------------

  function OrderOf(id: string, symbol: string): Call {
    Call(id, "place_order", symbol)
  }

  function TimeoutOf(outcome: string): Result {
    Failure("TOOL_TIMEOUT", "context deadline exceeded", Some(outcome), 0)
  }

  function Pending(id: string): TraceEntry {
    ToolCall(0, id, PENDING)
  }

  // Two orders, each announced before it ran.
  function TwoOrders(): seq<Write> {
    [SavedProgress(0, 1, [Pending("1")], 0), Executed(OrderOf("1", "AAPL"), TimeoutOf("not_executed")),
     SavedProgress(0, 2, [Pending("1"), Pending("2")], 0), Executed(OrderOf("2", "MSFT"), TimeoutOf("unknown"))]
  }

  function Orders(): seq<Message> {
    TimedOut("1", "AAPL", "not_executed", 0) + TimedOut("2", "MSFT", "unknown", 0)
  }

  function Refusal(): seq<Message> {
    TimedOut("1", "AAPL", "not_executed", 1)
  }

  lemma {:induction false} PendingTrace(progress: seq<TraceEntry>)
    requires forall e | e in progress :: e.ToolCall? && e.result == PENDING
    ensures ModelCalls(progress) == 0 && ToolCalls(progress) == |progress| && Numbered(progress, 0)
    decreases |progress|
  {
    if progress != [] {
      var n := |progress| - 1;
      assert progress == progress[..n] + [progress[n]] && progress[n] in progress;
      AppendEntry(progress[..n], progress[n]);
      PendingTrace(progress[..n]);
    }
    assert Iterations(progress) == {} == UpTo(0);
  }

  lemma {:induction false} TwoOrdersInv()
    ensures JournalInv(TwoOrders(), {})
  {
    var one, two := [Pending("1")], [Pending("1"), Pending("2")];
    PendingTrace(one);
    PendingTrace(two);
    var journal := TwoOrders();
    assert journal[..0] == [] && journal[..2] == journal[..2];
    assert TraceTrue(journal[..0], one);
    assert TraceTrue(journal[..2], two) by {
      assert Pending("1") in two;
      assert Entered(two, "1", TimeoutOf("not_executed"));
    }
    forall k | 0 <= k < |journal| ensures Good(journal, {}, k) {
    }
  }

  lemma {:induction false} TwoOrdersSaid()
    ensures Partial(Orders()) && DistinctCalls(Orders()) && Honest(TwoOrders(), 4, {}, Orders())
  {
    var first, second := TimedOut("1", "AAPL", "not_executed", 0), TimedOut("2", "MSFT", "unknown", 0);
    var said := first + second;
    BlockProtocol(second[0], [second[1]], []);
    assert [second[0]] + [second[1]] + [] == second;
    BlockProtocol(first[0], [first[1]], second);
    assert [first[0]] + [first[1]] + second == said;
    assert Partial([]);
    hide Partial;
    var journal := TwoOrders();
    assert journal[..4] == journal;
    assert journal[1].Executed? && journal[3].Executed?;
    assert RanWith(journal, "1", first[1].content) && RanWith(journal, "2", second[1].content);
    forall m | m in said ensures HonestResult(journal, 4, {}, m) {
      assert m in first || m in second;
    }
  }

  // The call "2" ran and may have had its effect, yet every result of the reloaded conversation says
  // that its call was not executed.
  ghost predicate FalselyRefused(journal: seq<Write>, said: seq<Message>, stored: seq<Message>, r: Result) {
    && JournalInv(journal, {}) && Saved(journal, said, stored)
    && RanWith(journal, "2", r) && r.Failure? && r.outcome == Some("unknown")
    && forall m | m in Complete(stored) && m.ToolResult? :: Denial(m.content)
  }

  /** In semantic mode a crash after an order that may have been executed can leave nothing but refusals. */
  lemma {:induction false} FalseRefusalAfterCrash()
    ensures exists journal, said, stored, r :: FalselyRefused(journal, said, stored, r)
  {
    hide Semantic, JournalInv, TwoOrders, Orders, Refusal, Complete, Partial, DistinctCalls, Honest, Saved, RanWith, Denial;
    TwoOrdersInv();
    TwoOrdersSaid();
    TwoOrdersRan();
    var w, r := SavedConversation(Orders(), Semantic(Orders())), TimeoutOf("unknown");
    AppendConversation(TwoOrders(), {}, Orders(), false);
    RanWithGrows(TwoOrders(), w, "2", r);
    LastIsSaved(TwoOrders(), Orders(), Semantic(Orders()));
    RefusalReloads();
    assert FalselyRefused(TwoOrders() + [w], Orders(), Semantic(Orders()), r);
  }

  lemma {:induction false} LastIsSaved(journal: seq<Write>, said: seq<Message>, stored: seq<Message>)
    ensures Saved(journal + [SavedConversation(said, stored)], said, stored)
  {
    assert (journal + [SavedConversation(said, stored)])[|journal|] == SavedConversation(said, stored);
  }

  lemma {:induction false} TwoOrdersRan()
    ensures |TwoOrders()| == 4 && RanWith(TwoOrders(), "2", TimeoutOf("unknown"))
  {
    assert TwoOrders()[3] == Executed(OrderOf("2", "MSFT"), TimeoutOf("unknown"));
  }

  lemma {:induction false} RefusalReloads()
    ensures Semantic(Orders()) == Refusal()
    ensures forall m | m in Complete(Refusal()) && m.ToolResult? :: Denial(m.content)
  {
    FalseRefusal();
    hide Semantic, Parse;
    var stored := Refusal();
    var call, result := stored[0], stored[1];
    assert Answers(CallsOf(call), [result]);
    CompleteBlock(call, [result], []);
    assert [call] + [result] + [] == stored;
    NothingComplete();
    hide Complete;
    assert Complete(stored) == stored;
  }
}
