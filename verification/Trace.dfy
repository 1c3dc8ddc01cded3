/**
  The execution trace of a Run, its counters, and the decision count a restart derives from it.
 */
module Trace {
  import opened Prelude
  import opened Messages

  // The result stored before a tool runs.
  const PENDING := Failure("TOOL_INTERRUPTED", "not yet known", Some("unknown"), 0)

  // Entries that carry no count are notes: instructions, delivered tags, compactions, and failures to
  // resolve the model or to project the context.
  datatype TraceEntry =
    | ModelCall(terminal: bool, iteration: int, attempt: int, counts: bool)
    | Undispatched(iteration: int)
    | ToolCall(iteration: int, id: string, result: Result)
    | ToolDenied(iteration: int, id: string)
    | Note(kind: string)

  function ModelCalls(progress: seq<TraceEntry>): nat {
    if progress == [] then 0
    else ModelCalls(progress[..|progress| - 1]) + if progress[|progress| - 1].ModelCall? then 1 else 0
  }

  function ToolCalls(progress: seq<TraceEntry>): nat {
    if progress == [] then 0
    else ToolCalls(progress[..|progress| - 1]) + if progress[|progress| - 1].ToolCall? then 1 else 0
  }

  // A model call that stands for a decision: a terminal attempt does not, unless it was a decision
  // that turned out to be a final answer.
  predicate Decides(e: TraceEntry) {
    e.ModelCall? && (!e.terminal || e.counts)
  }

  function Iterations(progress: seq<TraceEntry>): set<int> {
    set e | e in progress && Decides(e) :: e.iteration
  }

  // The decisions 1..n, numbered without gaps.
  function UpTo(n: int): (s: set<int>)
    ensures forall k :: k in s <==> 1 <= k <= n
    decreases if n > 0 then n else 0
  {
    if n <= 0 then {} else UpTo(n - 1) + {n}
  }

  lemma {:induction false} UpToSize(n: nat)
    ensures |UpTo(n)| == n
    decreases n
  {
    if n > 0 {
      UpToSize(n - 1);
    }
  }

  lemma {:induction false} AppendEntry(progress: seq<TraceEntry>, e: TraceEntry)
    ensures ModelCalls(progress + [e]) == ModelCalls(progress) + if e.ModelCall? then 1 else 0
    ensures ToolCalls(progress + [e]) == ToolCalls(progress) + if e.ToolCall? then 1 else 0
    ensures Iterations(progress + [e]) == Iterations(progress) + if Decides(e) then {e.iteration} else {}
  {
    var more := progress + [e];
    assert more[..|progress|] == progress;
    assert forall x :: x in more <==> x in progress || x == e;
  }

  // Replacing the last entry.
  lemma {:induction false} ReplaceLast(progress: seq<TraceEntry>, e: TraceEntry)
    requires progress != []
    ensures var n := |progress| - 1; progress[n := e] == progress[..n] + [e] && progress == progress[..n] + [progress[n]]
  {
  }

  // ---------------------------------------------------------------------------------------------
  // markLastModelCallTerminal
  // ---------------------------------------------------------------------------------------------

  // The position of the last model call; the length of the trace when there is none.
  function LastCall(progress: seq<TraceEntry>): (i: nat)
    ensures i <= |progress|
    ensures i < |progress| ==> progress[i].ModelCall? && forall j | i < j < |progress| :: !progress[j].ModelCall?
    ensures i == |progress| ==> forall j | 0 <= j < |progress| :: !progress[j].ModelCall?
  {
    if progress == [] then 0
    else
      var n := |progress| - 1;
      if progress[n].ModelCall? then n
      else
        var i := LastCall(progress[..n]);
        if i == n then |progress| else i
  }

  method MarkLastTerminal(progress: seq<TraceEntry>, iteration: int) returns (marked: seq<TraceEntry>)
    ensures marked == Marked(progress, iteration)
  {
    var i := |progress| - 1;
    while i >= 0
      invariant -1 <= i < |progress| && forall j | i < j < |progress| :: !progress[j].ModelCall?
    {
      if progress[i].ModelCall? {
        assert i == LastCall(progress);
        return progress[i := ModelCall(true, iteration, 1, true)];
      }
      i := i - 1;
    }
    assert LastCall(progress) == |progress|;
    return progress;
  }

  function Marked(progress: seq<TraceEntry>, iteration: int): seq<TraceEntry> {
    var i := LastCall(progress);
    if i == |progress| then progress else progress[i := ModelCall(true, iteration, 1, true)]
  }

  lemma {:induction false} CountUpdate(progress: seq<TraceEntry>, i: nat, e: TraceEntry)
    requires i < |progress| && progress[i].ModelCall? && e.ModelCall?
    ensures ModelCalls(progress[i := e]) == ModelCalls(progress) && ToolCalls(progress[i := e]) == ToolCalls(progress)
    decreases |progress|
  {
    var n := |progress| - 1;
    if i == n {
      assert progress[i := e][..n] == progress[..n];
    } else {
      assert progress[i := e][..n] == progress[..n][i := e];
      CountUpdate(progress[..n], i, e);
    }
  }

  /** Re-marking a decision as terminal changes neither the counters nor the decisions. */
  lemma {:induction false} MarkedKeeps(progress: seq<TraceEntry>, iteration: int)
    requires LastCall(progress) < |progress| && Decides(progress[LastCall(progress)])
    requires progress[LastCall(progress)].iteration == iteration
    ensures var marked := Marked(progress, iteration);
      && ModelCalls(marked) == ModelCalls(progress) && ToolCalls(marked) == ToolCalls(progress)
      && Iterations(marked) == Iterations(progress) && |marked| == |progress|
  {
    var i := LastCall(progress);
    var e := ModelCall(true, iteration, 1, true);
    var marked := progress[i := e];
    CountUpdate(progress, i, e);
    assert marked[i] == e && progress[i] in progress && e in marked;
    forall k | k in Iterations(progress) ensures k in Iterations(marked) {
      var x :| x in progress && Decides(x) && x.iteration == k;
      var j :| 0 <= j < |progress| && progress[j] == x;
      assert marked[j] == if j == i then e else x;
      assert marked[j] in marked;
    }
    forall k | k in Iterations(marked) ensures k in Iterations(progress) {
      var x :| x in marked && Decides(x) && x.iteration == k;
      var j :| 0 <= j < |marked| && marked[j] == x;
      assert progress[j] in progress;
    }
  }

  // Re-marking leaves the entries of tool calls alone.
  lemma {:induction false} MarkedTools(progress: seq<TraceEntry>, iteration: int)
    ensures forall e: TraceEntry | e.ToolCall? :: e in Marked(progress, iteration) <==> e in progress
  {
    var i, marked := LastCall(progress), Marked(progress, iteration);
    forall e: TraceEntry | e.ToolCall? && e in progress ensures e in marked {
      var j :| 0 <= j < |progress| && progress[j] == e;
      assert marked[j] == e;
    }
    forall e: TraceEntry | e.ToolCall? && e in marked ensures e in progress {
      var j :| 0 <= j < |marked| && marked[j] == e;
      assert progress[j] == e;
    }
  }

  lemma {:induction false} LastCallAppend(progress: seq<TraceEntry>, e: TraceEntry)
    ensures LastCall(progress + [e]) == if e.ModelCall? then |progress|
      else if LastCall(progress) == |progress| then |progress| + 1 else LastCall(progress)
  {
    assert (progress + [e])[..|progress|] == progress;
  }

  // ---------------------------------------------------------------------------------------------
  // deriveDecisionCount
  // ---------------------------------------------------------------------------------------------

  /** deriveDecisionCount: distinct iterations, calls without one, and calls the trace is missing */
  method DeriveDecisionCount(progress: seq<TraceEntry>, modelCalls: int) returns (decisions: int)
    ensures decisions == |Positive(progress)| + Unnumbered(progress) + (if modelCalls > ModelCalls(progress) then modelCalls - ModelCalls(progress) else 0)
  {
    var iterations: set<int> := {};
    var traced := 0;
    decisions := 0;
    for i := 0 to |progress|
      invariant iterations == Positive(progress[..i]) && decisions == Unnumbered(progress[..i]) && traced == ModelCalls(progress[..i])
    {
      var e := progress[i];
      assert progress[..i + 1] == progress[..i] + [e];
      PositiveAppend(progress[..i], e);
      AppendEntry(progress[..i], e);
      if e.ModelCall? {
        traced := traced + 1;
        if !(e.terminal && !e.counts) {
          if e.iteration > 0 {
            iterations := iterations + {e.iteration};
          } else {
            decisions := decisions + 1;
          }
        }
      }
    }
    assert progress[..|progress|] == progress;
    decisions := decisions + |iterations|;
    if modelCalls > traced {
      decisions := decisions + modelCalls - traced;
    }
  }

  function Positive(progress: seq<TraceEntry>): set<int> {
    set k | k in Iterations(progress) && k > 0
  }

  function Unnumbered(progress: seq<TraceEntry>): nat {
    if progress == [] then 0
    else
      var e := progress[|progress| - 1];
      Unnumbered(progress[..|progress| - 1]) + if Decides(e) && e.iteration <= 0 then 1 else 0
  }

  lemma {:induction false} PositiveAppend(progress: seq<TraceEntry>, e: TraceEntry)
    ensures Positive(progress + [e]) == Positive(progress) + if Decides(e) && e.iteration > 0 then {e.iteration} else {}
    ensures Unnumbered(progress + [e]) == Unnumbered(progress) + if Decides(e) && e.iteration <= 0 then 1 else 0
  {
    AppendEntry(progress, e);
    assert (progress + [e])[..|progress|] == progress;
  }

  lemma {:induction false} AllNumbered(progress: seq<TraceEntry>)
    requires forall k | k in Iterations(progress) :: k > 0
    ensures Unnumbered(progress) == 0
    decreases |progress|
  {
    if progress != [] {
      var n := |progress| - 1;
      assert progress == progress[..n] + [progress[n]];
      AppendEntry(progress[..n], progress[n]);
      AllNumbered(progress[..n]);
    }
  }

  /** A trace whose counted calls number its decisions 1..n, with its counter in step, derives n. */
  lemma {:induction false} DerivesDecisions(progress: seq<TraceEntry>, modelCalls: int, n: nat)
    requires Iterations(progress) == UpTo(n) && modelCalls == ModelCalls(progress)
    ensures |Positive(progress)| + Unnumbered(progress) + (if modelCalls > ModelCalls(progress) then modelCalls - ModelCalls(progress) else 0) == n
  {
    assert Positive(progress) == UpTo(n);
    UpToSize(n);
    AllNumbered(progress);
  }

  // The traced decisions are all of the first n, or all but a last one that has no traced call yet.
  ghost predicate Numbered(progress: seq<TraceEntry>, n: int) {
    n >= 0 && (Iterations(progress) == UpTo(n) || Iterations(progress) == UpTo(n - 1))
  }

  /** Once a decision has a traced call, the derived count is the loop's own. */
  lemma {:induction false} DerivesLoopCounter(progress: seq<TraceEntry>, modelCalls: int, n: int)
    requires Numbered(progress, n) && modelCalls == ModelCalls(progress) && (n == 0 || n in Iterations(progress))
    ensures |Positive(progress)| + Unnumbered(progress) + (if modelCalls > ModelCalls(progress) then modelCalls - ModelCalls(progress) else 0) == n
  {
    assert Iterations(progress) == UpTo(n);
    DerivesDecisions(progress, modelCalls, n);
  }
}
