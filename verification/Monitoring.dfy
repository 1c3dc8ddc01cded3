/**
  What a Run saves is what monitoring reads: a saved trace never exceeds the count saved with it, so only
  the recorded token counts and durations can make an aggregation fail.
 */
module Monitoring {
  import opened Prelude
  import opened Trace
  import opened Journal
  import Usage
  import ToolStats

  // What a trace says of its model calls, given the details of each entry.
  function ModelTrace(progress: seq<TraceEntry>, detail: TraceEntry -> Usage.Call): seq<Usage.Call> {
    if progress == [] then []
    else
      var e := progress[|progress| - 1];
      ModelTrace(progress[..|progress| - 1], detail) + if e.ModelCall? then [detail(e)] else []
  }

  function ToolTrace(progress: seq<TraceEntry>, detail: TraceEntry -> ToolStats.TracedCall): seq<ToolStats.TracedCall> {
    if progress == [] then []
    else
      var e := progress[|progress| - 1];
      ToolTrace(progress[..|progress| - 1], detail) + if e.ToolCall? then [detail(e)] else []
  }

  lemma {:induction false} TraceLengths(progress: seq<TraceEntry>, model: TraceEntry -> Usage.Call, tool: TraceEntry -> ToolStats.TracedCall)
    ensures |ModelTrace(progress, model)| == ModelCalls(progress) && |ToolTrace(progress, tool)| == ToolCalls(progress)
    decreases |progress|
  {
    if progress != [] {
      TraceLengths(progress[..|progress| - 1], model, tool);
    }
  }

  // A Run as monitoring reads it from its row.
  datatype Row = Row(running: bool, save: Write)

  function Counted(n: int): nat {
    if n > 0 then n else 0
  }

  function UsageOf(row: Row, detail: TraceEntry -> Usage.Call): Usage.RunTrace
    requires row.save.SavedProgress?
  {
    Usage.RunTrace(Counted(row.save.modelCalls), ModelTrace(row.save.progress, detail))
  }

  function ToolsOf(row: Row, detail: TraceEntry -> ToolStats.TracedCall): ToolStats.ToolRun
    requires row.save.SavedProgress?
  {
    ToolStats.ToolRun(row.running, Counted(row.save.toolCalls), ToolTrace(row.save.progress, detail))
  }

  // The row holds a progress that some Run saved.
  ghost predicate SavedByRun(row: Row) {
    exists journal, past :: JournalInv(journal, past) && row.save in journal
  }

  lemma {:induction false} CountsMatch(row: Row, model: TraceEntry -> Usage.Call, tool: TraceEntry -> ToolStats.TracedCall)
    requires row.save.SavedProgress? && SavedByRun(row)
    ensures |UsageOf(row, model).calls| == UsageOf(row, model).modelCalls == row.save.modelCalls
    ensures |ToolsOf(row, tool).entries| == ToolsOf(row, tool).toolCalls == row.save.toolCalls
  {
    hide TraceTrue, Numbered;
    var journal, past :| JournalInv(journal, past) && row.save in journal;
    var k :| 0 <= k < |journal| && journal[k] == row.save;
    assert Good(journal, past, k);
    TraceLengths(row.save.progress, model, tool);
  }

  function UsageRuns(rows: seq<Row>, detail: TraceEntry -> Usage.Call): (runs: seq<Usage.RunTrace>)
    requires forall i | 0 <= i < |rows| :: rows[i].save.SavedProgress?
    ensures |runs| == |rows| && forall i | 0 <= i < |rows| :: runs[i] == UsageOf(rows[i], detail)
  {
    seq(|rows|, i requires 0 <= i < |rows| => UsageOf(rows[i], detail))
  }

  function ToolRuns(rows: seq<Row>, detail: TraceEntry -> ToolStats.TracedCall): (runs: seq<ToolStats.ToolRun>)
    requires forall i | 0 <= i < |rows| :: rows[i].save.SavedProgress?
    ensures |runs| == |rows| && forall i | 0 <= i < |rows| :: runs[i] == ToolsOf(rows[i], detail)
  {
    seq(|rows|, i requires 0 <= i < |rows| => ToolsOf(rows[i], detail))
  }

  /**
    Over rows that Runs saved, monitoring never reports a trace that exceeds its count: it fails exactly
    when a token count or a duration is negative or a sum does not fit.
   */
  lemma {:induction false} TracesNeverExceed(rows: seq<Row>, model: TraceEntry -> Usage.Call, tool: TraceEntry -> ToolStats.TracedCall,
                                             fallback: string, known: set<string>)
    requires forall i | 0 <= i < |rows| :: rows[i].save.SavedProgress? && SavedByRun(rows[i])
    ensures var runs := UsageRuns(rows, model);
      && (forall i | 0 <= i < |runs| :: |runs[i].calls| == runs[i].modelCalls)
      && (Usage.Acceptable(runs, fallback) <==>
            Usage.AllValid(Usage.AllCalls(runs, fallback)) && Usage.Fits(Usage.SummaryOf(Usage.AllCalls(runs, fallback))))
    ensures var runs := ToolRuns(rows, tool);
      && (forall i | 0 <= i < |runs| :: |runs[i].entries| == runs[i].toolCalls)
      && (ToolStats.Acceptable(known, runs) <==> ToolStats.Fine(ToolStats.Events(known, runs)))
  {
    hide UsageOf, ToolsOf, Usage.AllValid, Usage.AllCalls, Usage.Fits, Usage.SummaryOf, ToolStats.Fine, ToolStats.Events;
    forall i | 0 <= i < |rows|
      ensures |UsageOf(rows[i], model).calls| == UsageOf(rows[i], model).modelCalls
      ensures |ToolsOf(rows[i], tool).entries| == ToolsOf(rows[i], tool).toolCalls
    {
      CountsMatch(rows[i], model, tool);
    }
    hide SavedByRun;
  }
}
