/**
  What a Run makes durable, in order, and what a crash at any point of it leaves behind.
 */
module Journal {
  import opened Prelude
  import opened Messages
  import opened Completion
  import opened SemanticStorage
  import opened Trace

  // One durable write of a Run, or one execution of a tool. decided is the loop's own decision counter
  // at the time, said the conversation as the Run knows it; neither is stored.
  datatype Write =
    | SavedProgress(modelCalls: int, toolCalls: int, progress: seq<TraceEntry>, decided: int)
    | SavedConversation(said: seq<Message>, stored: seq<Message>)
    | Executed(call: Call, result: Result)
    | Ended(ending: Ending)

  // How a Run ended: with an accepted answer, which may report failure, or without one.
  datatype Ending = Finalized(text: string, failed: bool) | Abandoned

  // saveConversation: as it was said, or what each step meant
  function StoredForm(verbatim: bool, said: seq<Message>): seq<Message> {
    if verbatim then said else Semantic(said)
  }

  ghost predicate Ran(journal: seq<Write>, id: string) {
    exists k :: 0 <= k < |journal| && journal[k].Executed? && journal[k].call.id == id
  }

  ghost predicate RanWith(journal: seq<Write>, id: string, r: Result) {
    exists k :: 0 <= k < |journal| && journal[k].Executed? && journal[k].call.id == id && journal[k].result == r
  }

  // A saved result is the true result of a call that ran before the save, or refuses one that never ran.
  // Results from before the Run, under the ids of `past`, are what they were.
  ghost predicate HonestResult(journal: seq<Write>, saved: nat, past: set<string>, m: Message)
    requires saved <= |journal|
  {
    m.ToolResult? ==> m.id in past || RanWith(journal[..saved], m.id, m.content) || (Denial(m.content) && !Ran(journal, m.id))
  }

  // A conversation whose results are honest with respect to everything written up to `saved`.
  ghost predicate Honest(journal: seq<Write>, saved: nat, past: set<string>, ms: seq<Message>)
    requires saved <= |journal|
  {
    forall m | m in ms :: HonestResult(journal, saved, past, m)
  }

  // The trace has an entry for a call that ran, still pending or with what it gave.
  predicate Entered(progress: seq<TraceEntry>, id: string, r: Result) {
    exists e :: e in progress && e.ToolCall? && e.id == id && (e.result == PENDING || e.result == r)
  }

  // Every tool that ran has its entry, and an entry with a result tells what a tool gave.
  ghost predicate TraceTrue(journal: seq<Write>, progress: seq<TraceEntry>) {
    && (forall k | 0 <= k < |journal| && journal[k].Executed? :: Entered(progress, journal[k].call.id, journal[k].result))
    && (forall e | e in progress && e.ToolCall? :: e.result == PENDING || RanWith(journal, e.id, e.result))
  }

  // A tool runs only right after its pending entry was persisted.
  ghost predicate Announced(journal: seq<Write>, k: nat)
    requires k < |journal| && journal[k].Executed?
  {
    && k > 0 && journal[k - 1].SavedProgress? && journal[k - 1].progress != []
    && var last := journal[k - 1].progress[|journal[k - 1].progress| - 1];
       last.ToolCall? && last.id == journal[k].call.id && last.result == PENDING
  }

  ghost predicate Good(journal: seq<Write>, past: set<string>, k: nat)
    requires k < |journal|
  {
    match journal[k]
    case SavedProgress(modelCalls, toolCalls, progress, decided) =>
      && modelCalls == ModelCalls(progress) && toolCalls == ToolCalls(progress) && Numbered(progress, decided)
      && TraceTrue(journal[..k], progress)
    case SavedConversation(said, stored) =>
      && Partial(said) && DistinctCalls(said) && Honest(journal, k, past, said)
      && (stored == StoredForm(true, said) || stored == StoredForm(false, said))
    case Executed(_, _) => Announced(journal, k)
    case Ended(_) => true
  }

  ghost predicate JournalInv(journal: seq<Write>, past: set<string>) {
    forall k | 0 <= k < |journal| :: Good(journal, past, k)
  }

  // ---------------------------------------------------------------------------------------------
  // Appending to the journal
  // ---------------------------------------------------------------------------------------------

  lemma {:induction false} RanAppend(journal: seq<Write>, w: Write, id: string)
    ensures Ran(journal + [w], id) <==> Ran(journal, id) || (w.Executed? && w.call.id == id)
  {
    var more := journal + [w];
    assert more[|journal|] == w;
    if Ran(journal, id) {
      var k :| 0 <= k < |journal| && journal[k].Executed? && journal[k].call.id == id;
      assert more[k] == journal[k];
    }
  }

  // What was good stays good, unless the new write runs a call that was refused.
  lemma {:induction false} StaysGood(journal: seq<Write>, past: set<string>, w: Write, k: nat)
    requires k < |journal| && Good(journal, past, k)
    requires w.Executed? && journal[k].SavedConversation? ==>
      forall m | m in journal[k].said && m.ToolResult? :: m.id != w.call.id
    ensures Good(journal + [w], past, k)
  {
    hide RanWith, TraceTrue, Semantic;
    var more := journal + [w];
    assert more[k] == journal[k] && more[..k] == journal[..k];
    if journal[k].SavedConversation? {
      forall m | m in journal[k].said ensures HonestResult(more, k, past, m) {
        assert HonestResult(journal, k, past, m);
        if m.ToolResult? {
          RanAppend(journal, w, m.id);
        }
      }
    } else if journal[k].Executed? {
      assert k > 0 && more[k - 1] == journal[k - 1];
    }
  }

  lemma {:induction false} AppendProgress(journal: seq<Write>, past: set<string>, progress: seq<TraceEntry>, decided: int)
    requires JournalInv(journal, past) && Numbered(progress, decided) && TraceTrue(journal, progress)
    ensures JournalInv(journal + [SavedProgress(ModelCalls(progress), ToolCalls(progress), progress, decided)], past)
  {
    hide Good, TraceTrue;
    var w := SavedProgress(ModelCalls(progress), ToolCalls(progress), progress, decided);
    var more := journal + [w];
    forall k | 0 <= k < |more| ensures Good(more, past, k) {
      if k < |journal| {
        StaysGood(journal, past, w, k);
      } else {
        assert more[..k] == journal;
        assert Good(more, past, k) by { GoodProgress(more, past, k, progress, decided); }
      }
    }
  }

  lemma {:induction false} GoodProgress(journal: seq<Write>, past: set<string>, k: nat, progress: seq<TraceEntry>, decided: int)
    requires k < |journal| && Numbered(progress, decided) && TraceTrue(journal[..k], progress)
    requires journal[k] == SavedProgress(ModelCalls(progress), ToolCalls(progress), progress, decided)
    ensures Good(journal, past, k)
  {
  }

  lemma {:induction false} AppendConversation(journal: seq<Write>, past: set<string>, ms: seq<Message>, verbatim: bool)
    requires JournalInv(journal, past) && Partial(ms) && DistinctCalls(ms) && Honest(journal, |journal|, past, ms)
    ensures JournalInv(journal + [SavedConversation(ms, StoredForm(verbatim, ms))], past)
  {
    hide Good;
    var w := SavedConversation(ms, StoredForm(verbatim, ms));
    var more := journal + [w];
    forall k | 0 <= k < |more| ensures Good(more, past, k) {
      if k < |journal| {
        StaysGood(journal, past, w, k);
      } else {
        GoodConversation(journal, past, ms, verbatim);
      }
    }
  }

  lemma {:induction false} GoodConversation(journal: seq<Write>, past: set<string>, ms: seq<Message>, verbatim: bool)
    requires Partial(ms) && DistinctCalls(ms) && Honest(journal, |journal|, past, ms)
    ensures Good(journal + [SavedConversation(ms, StoredForm(verbatim, ms))], past, |journal|)
  {
    hide RanWith, Partial, DistinctCalls, Semantic;
    var more := journal + [SavedConversation(ms, StoredForm(verbatim, ms))];
    assert more[..|journal|] == journal[..|journal|] == journal;
    forall m | m in ms ensures HonestResult(more, |journal|, past, m) {
      assert HonestResult(journal, |journal|, past, m);
      if m.ToolResult? {
        RanAppend(journal, SavedConversation(ms, StoredForm(verbatim, ms)), m.id);
      }
    }
  }

  // The ids under which the saved conversations hold results.
  ghost predicate Unanswered(journal: seq<Write>, id: string) {
    forall k | 0 <= k < |journal| && journal[k].SavedConversation? ::
      forall m | m in journal[k].said && m.ToolResult? :: m.id != id
  }

  lemma {:induction false} AppendExecuted(journal: seq<Write>, past: set<string>, call: Call, r: Result)
    requires JournalInv(journal, past) && Unanswered(journal, call.id)
    requires journal != [] && Announced(journal + [Executed(call, r)], |journal|)
    ensures JournalInv(journal + [Executed(call, r)], past)
  {
    hide Good;
    var w := Executed(call, r);
    var more := journal + [w];
    forall k | 0 <= k < |more| ensures Good(more, past, k) {
      if k < |journal| {
        StaysGood(journal, past, w, k);
      } else {
        assert Good(more, past, k) by { GoodExecuted(more, past, k); }
      }
    }
  }

  lemma {:induction false} GoodExecuted(journal: seq<Write>, past: set<string>, k: nat)
    requires k < |journal| && journal[k].Executed? && Announced(journal, k)
    ensures Good(journal, past, k)
  {
  }

  lemma {:induction false} AppendEnd(journal: seq<Write>, past: set<string>, ending: Ending)
    requires JournalInv(journal, past)
    ensures JournalInv(journal + [Ended(ending)], past)
  {
    hide Good;
    var more := journal + [Ended(ending)];
    forall k | 0 <= k < |more| ensures Good(more, past, k) {
      if k < |journal| {
        StaysGood(journal, past, Ended(ending), k);
      } else {
        assert Good(more, past, k) by { GoodEnd(more, past, k); }
      }
    }
  }

  lemma {:induction false} GoodEnd(journal: seq<Write>, past: set<string>, k: nat)
    requires k < |journal| && journal[k].Ended?
    ensures Good(journal, past, k)
  {
  }

  // ---------------------------------------------------------------------------------------------
  // A crash at any point
  // ---------------------------------------------------------------------------------------------

  lemma {:induction false} RanPrefix(journal: seq<Write>, n: nat, id: string)
    requires n <= |journal| && Ran(journal[..n], id)
    ensures Ran(journal, id)
  {
    var k :| 0 <= k < n && journal[..n][k].Executed? && journal[..n][k].call.id == id;
    assert journal[k] == journal[..n][k];
  }

  // Where the progress was last saved; -1 when it never was.
  function LastSave(journal: seq<Write>): (k: int)
    ensures -1 <= k < |journal| && (k >= 0 ==> journal[k].SavedProgress?)
    ensures forall j | k < j < |journal| :: !journal[j].SavedProgress?
  {
    if journal == [] then -1
    else if journal[|journal| - 1].SavedProgress? then |journal| - 1
    else LastSave(journal[..|journal| - 1])
  }

  /**
    Cut a Run's writes anywhere: every tool that ran has an entry in the last saved progress, pending or
    with what it gave, and no entry there tells of a result that no tool gave.
   */
  lemma {:induction false} TraceIsTrue(journal: seq<Write>, past: set<string>, n: nat)
    requires JournalInv(journal, past) && n <= |journal|
    ensures PENDING.Failure? && PENDING.outcome == Some("unknown")
    ensures var s := LastSave(journal[..n]);
      && (forall k | 0 <= k < n && journal[k].Executed? ::
            s >= 0 && Entered(journal[s].progress, journal[k].call.id, journal[k].result))
      && (s >= 0 ==> forall e | e in journal[s].progress && e.ToolCall? ::
            e.result == PENDING || RanWith(journal[..n], e.id, e.result))
  {
    hide RanWith, Entered;
    var s := LastSave(journal[..n]);
    if s >= 0 {
      assert journal[..n][s] == journal[s];
      assert Good(journal, past, s);
      forall e | e in journal[s].progress && e.ToolCall? ensures e.result == PENDING || RanWith(journal[..n], e.id, e.result) {
        RanWithFurther(journal, s, n, e.id, e.result);
      }
    }
    forall k | 0 <= k < n && journal[k].Executed?
      ensures s >= 0 && Entered(journal[s].progress, journal[k].call.id, journal[k].result)
    {
      assert Good(journal, past, k);
      assert journal[..n][k - 1] == journal[k - 1];
      if k < s {
        assert journal[..s][k] == journal[k];
      } else {
        assert k - 1 == s;
        PendingIsEntered(journal[s].progress, journal[k].call.id, journal[k].result);
      }
    }
  }

  lemma {:induction false} PendingIsEntered(progress: seq<TraceEntry>, id: string, r: Result)
    requires progress != []
    requires var last := progress[|progress| - 1]; last.ToolCall? && last.id == id && last.result == PENDING
    ensures Entered(progress, id, r)
  {
    assert progress[|progress| - 1] in progress;
  }

  lemma {:induction false} RanWithFurther(journal: seq<Write>, k: nat, n: nat, id: string, r: Result)
    requires k <= n <= |journal|
    ensures RanWith(journal[..k], id, r) ==> RanWith(journal[..n], id, r)
  {
    if RanWith(journal[..k], id, r) {
      var j :| 0 <= j < k && journal[..k][j].Executed? && journal[..k][j].call.id == id && journal[..k][j].result == r;
      assert journal[..n][j] == journal[..k][j];
    }
  }

  // ---------------------------------------------------------------------------------------------
  // The trace as the Run goes on
  // ---------------------------------------------------------------------------------------------

  lemma {:induction false} RanWithGrows(journal: seq<Write>, w: Write, id: string, r: Result)
    requires RanWith(journal, id, r)
    ensures RanWith(journal + [w], id, r)
  {
    var k :| 0 <= k < |journal| && journal[k].Executed? && journal[k].call.id == id && journal[k].result == r;
    assert (journal + [w])[k] == journal[k];
  }

  // A write, after which every tool that ran still has its entry.
  lemma {:induction false} TraceTrueWrite(journal: seq<Write>, w: Write, progress: seq<TraceEntry>)
    requires TraceTrue(journal, progress) && (w.Executed? ==> Entered(progress, w.call.id, w.result))
    ensures TraceTrue(journal + [w], progress)
  {
    hide RanWith, Entered;
    var more := journal + [w];
    forall k | 0 <= k < |more| && more[k].Executed? ensures Entered(progress, more[k].call.id, more[k].result) {
      assert more[k] == if k < |journal| then journal[k] else w;
    }
    forall e | e in progress && e.ToolCall? && e.result != PENDING ensures RanWith(more, e.id, e.result) {
      RanWithGrows(journal, w, e.id, e.result);
    }
  }

  // A trace that keeps the entries of tool calls, and adds only pending ones.
  lemma {:induction false} TraceTrueEntries(journal: seq<Write>, progress: seq<TraceEntry>, after: seq<TraceEntry>)
    requires TraceTrue(journal, progress)
    requires forall e | e in progress && e.ToolCall? :: e in after
    requires forall e | e in after && e.ToolCall? :: e in progress || e.result == PENDING
    ensures TraceTrue(journal, after)
  {
    hide RanWith;
    forall k | 0 <= k < |journal| && journal[k].Executed? ensures Entered(after, journal[k].call.id, journal[k].result) {
      assert Entered(progress, journal[k].call.id, journal[k].result);
    }
  }

  // The only result a call has given so far.
  ghost predicate OnlyWith(journal: seq<Write>, id: string, r: Result) {
    forall k | 0 <= k < |journal| && journal[k].Executed? && journal[k].call.id == id :: journal[k].result == r
  }

  lemma {:induction false} OnlyOnce(journal: seq<Write>, call: Call, r: Result)
    requires !Ran(journal, call.id)
    ensures OnlyWith(journal + [Executed(call, r)], call.id, r)
  {
    var more := journal + [Executed(call, r)];
    assert forall k | 0 <= k < |journal| :: more[k] == journal[k];
  }

  // The true result replaces the pending one.
  lemma {:induction false} TraceTrueAnswer(journal: seq<Write>, front: seq<TraceEntry>, e: TraceEntry, r: Result)
    requires TraceTrue(journal, front + [e]) && e.ToolCall? && RanWith(journal, e.id, r) && OnlyWith(journal, e.id, r)
    ensures TraceTrue(journal, front + [e.(result := r)])
  {
    hide RanWith;
    var before, after, f := front + [e], front + [e.(result := r)], e.(result := r);
    assert after[|front|] == f;
    forall k | 0 <= k < |journal| && journal[k].Executed? ensures Entered(after, journal[k].call.id, journal[k].result) {
      assert Entered(before, journal[k].call.id, journal[k].result);
      if journal[k].call.id == e.id {
        assert f in after && journal[k].result == r;
      } else {
        var x :| x in before && x.ToolCall? && x.id == journal[k].call.id && (x.result == PENDING || x.result == journal[k].result);
        assert x in front;
        assert x in after;
      }
    }
    forall x | x in after && x.ToolCall? ensures x.result == PENDING || RanWith(journal, x.id, x.result) {
      if x != f {
        assert x in before;
      }
    }
  }
}
