/**
  Tool statistics of a Session: how often each tool was called, and how each call ended.
 */
module ToolStats {
  import opened Prelude

  const MAX_INT64 := 0x7fff_ffff_ffff_ffff
  const UNKNOWN_TOOL := "_unknown"

  // A traced tool call.
  datatype TracedCall = TracedCall(name: string, started: bool, ended: bool, ok: bool, duration: Option<int>)

  datatype ToolRun = ToolRun(running: bool, toolCalls: nat, entries: seq<TracedCall>)

  datatype Outcome = Success | Error | InFlight

  // One counted call: which tool it is counted under, how it ended, and how long it took.
  datatype Event = Event(name: string, outcome: Outcome, duration: Option<int>)

  datatype Stats = Stats(calls: nat, success: nat, error: nat, inFlight: nat, latency: int, samples: nat, last: Option<int>, max: Option<int>)

  const NO_STATS := Stats(0, 0, 0, 0, 0, 0, None, None)

  // ---------------------------------------------------------------------------------------------
  // What is counted
  // ---------------------------------------------------------------------------------------------

  function EventOf(known: set<string>, running: bool, e: TracedCall): Event {
    Event(if e.name in known then e.name else UNKNOWN_TOOL,
          if !e.ended && e.started then (if running then InFlight else Error) else if e.ok then Success else Error,
          e.duration)
  }

  function Traced(known: set<string>, running: bool, entries: seq<TracedCall>): seq<Event> {
    if entries == [] then []
    else Traced(known, running, entries[..|entries| - 1]) + [EventOf(known, running, entries[|entries| - 1])]
  }

  // Calls that were counted but never traced.
  function Untraced(running: bool, n: int): seq<Event>
    decreases if n > 0 then n else 0
  {
    if n <= 0 then [] else Untraced(running, n - 1) + [Event(UNKNOWN_TOOL, if running then InFlight else Error, None)]
  }

  function EventsOf(known: set<string>, run: ToolRun): seq<Event> {
    Traced(known, run.running, run.entries) + Untraced(run.running, run.toolCalls - |run.entries|)
  }

  function Events(known: set<string>, runs: seq<ToolRun>): seq<Event> {
    if runs == [] then [] else Events(known, runs[..|runs| - 1]) + EventsOf(known, runs[|runs| - 1])
  }

  function Count(events: seq<Event>, name: string, outcome: Outcome): nat {
    if events == [] then 0
    else
      var e := events[|events| - 1];
      Count(events[..|events| - 1], name, outcome) + if e.name == name && e.outcome == outcome then 1 else 0
  }

  // The calls counted under a name.
  function Calls(events: seq<Event>, name: string): nat {
    Count(events, name, Success) + Count(events, name, Error) + Count(events, name, InFlight)
  }

  // The time spent in a tool.
  function Latency(events: seq<Event>, name: string): int {
    if events == [] then 0
    else
      var e := events[|events| - 1];
      Latency(events[..|events| - 1], name) + if e.name == name && e.duration.Some? then e.duration.value else 0
  }

  lemma {:induction false} LatencyNext(events: seq<Event>, e: Event, name: string)
    ensures Latency(events + [e], name) == Latency(events, name) + if e.name == name && e.duration.Some? then e.duration.value else 0
  {
    assert (events + [e])[..|events|] == events;
  }

  // Latencies that can be summed: none negative, and no tool's sum overflows.
  ghost predicate Fine(events: seq<Event>) {
    && (forall i | 0 <= i < |events| && events[i].duration.Some? :: events[i].duration.value >= 0)
    && (forall name :: Latency(events, name) <= MAX_INT64)
  }

  lemma {:induction false} FinePrefix(events: seq<Event>, n: nat)
    requires Fine(events) && n <= |events|
    ensures Fine(events[..n])
    decreases |events| - n
  {
    if n == |events| {
      assert events[..n] == events;
    } else {
      FinePrefix(events, n + 1);
      var p, e := events[..n], events[n];
      assert events[..n + 1] == p + [e];
      assert forall i | 0 <= i < n :: p[i] == events[i];
      forall name ensures Latency(p, name) <= MAX_INT64 {
        LatencyNext(p, e, name);
        assert Latency(events[..n + 1], name) <= MAX_INT64;
      }
    }
  }

  // One more event keeps the sums fine exactly when it can be added.
  lemma {:induction false} FineNext(s: Stats, events: seq<Event>, e: Event)
    requires Fine(events) && s.latency == Latency(events, e.name)
    ensures Fine(events + [e]) <==> Add(s, e.outcome, e.duration).Some?
  {
    var more := events + [e];
    assert more[|events|] == e;
    assert forall i | 0 <= i < |events| :: more[i] == events[i];
    if Add(s, e.outcome, e.duration).Some? {
      forall name ensures Latency(more, name) <= MAX_INT64 {
        LatencyNext(events, e, name);
        assert Latency(events, name) <= MAX_INT64;
      }
    } else {
      LatencyNext(events, e, e.name);
    }
  }

  lemma {:induction false} CountNext(events: seq<Event>, e: Event, name: string, outcome: Outcome)
    ensures Count(events + [e], name, outcome) == Count(events, name, outcome) + if e.name == name && e.outcome == outcome then 1 else 0
  {
    assert (events + [e])[..|events|] == events;
  }

  // ---------------------------------------------------------------------------------------------
  // The accumulator
  // ---------------------------------------------------------------------------------------------

  // One traced call; nothing when its latency is negative or overflows
  function Add(s: Stats, outcome: Outcome, duration: Option<int>): Option<Stats> {
    var counted := s.(calls := s.calls + 1,
                      success := s.success + (if outcome == Success then 1 else 0),
                      error := s.error + (if outcome == Error then 1 else 0),
                      inFlight := s.inFlight + (if outcome == InFlight then 1 else 0));
    if duration.None? then Some(counted)
    else if duration.value < 0 || duration.value > MAX_INT64 - s.latency then None
    else Some(counted.(latency := s.latency + duration.value, samples := s.samples + 1, last := duration,
                       max := if s.max.None? || duration.value > s.max.value then duration else s.max))
  }

  // The statistics of one tool say what happened to its calls.
  ghost predicate Tells(s: Stats, events: seq<Event>, name: string) {
    && s.success == Count(events, name, Success) && s.error == Count(events, name, Error)
    && s.inFlight == Count(events, name, InFlight) && s.calls == s.success + s.error + s.inFlight
    && (s.samples > 0 <==> s.last.Some?) && (s.last.Some? <==> s.max.Some?)
    && (s.last.Some? ==> 0 <= s.last.value <= s.max.value <= s.latency) && s.latency >= 0 && s.latency == Latency(events, name)
  }

  ghost predicate Board(stats: map<string, Stats>, known: set<string>, events: seq<Event>) {
    stats.Keys == known + {UNKNOWN_TOOL} && Fine(events) && forall name | name in stats :: Tells(stats[name], events, name)
  }

  lemma {:induction false} TellsNext(s: Stats, events: seq<Event>, e: Event, name: string)
    requires Tells(s, events, name)
    ensures e.name != name ==> Tells(s, events + [e], name)
    ensures e.name == name && Add(s, e.outcome, e.duration).Some? ==> Tells(Add(s, e.outcome, e.duration).value, events + [e], name)
  {
    hide Count, Latency;
    CountNext(events, e, name, Success);
    CountNext(events, e, name, Error);
    CountNext(events, e, name, InFlight);
    LatencyNext(events, e, name);
  }

  lemma {:induction false} BoardNext(stats: map<string, Stats>, known: set<string>, events: seq<Event>, e: Event)
    requires Board(stats, known, events) && e.name in stats && Add(stats[e.name], e.outcome, e.duration).Some?
    ensures Board(stats[e.name := Add(stats[e.name], e.outcome, e.duration).value], known, events + [e])
  {
    FineNext(stats[e.name], events, e);
    hide Tells, Add, Fine;
    var next := stats[e.name := Add(stats[e.name], e.outcome, e.duration).value];
    forall name | name in next ensures Tells(next[name], events + [e], name) {
      TellsNext(stats[name], events, e, name);
    }
  }

  lemma {:induction false} TracedNext(known: set<string>, running: bool, entries: seq<TracedCall>, i: nat)
    requires i < |entries|
    ensures Traced(known, running, entries[..i + 1]) == Traced(known, running, entries[..i]) + [EventOf(known, running, entries[i])]
  {
    assert entries[..i + 1][..i] == entries[..i];
  }

  lemma {:induction false} EventsNext(known: set<string>, runs: seq<ToolRun>, i: nat)
    requires i < |runs|
    ensures Events(known, runs[..i + 1]) == Events(known, runs[..i]) + EventsOf(known, runs[i])
  {
    assert runs[..i + 1][..i] == runs[..i];
  }

  lemma {:induction false} EmptyBoard(known: set<string>)
    ensures Board(map name | name in known + {UNKNOWN_TOOL} :: NO_STATS, known, [])
  {
  }

  // The calls of one Run, on top of the events so far.
  method AddRun(stats: map<string, Stats>, known: set<string>, run: ToolRun, ghost events: seq<Event>)
    returns (ok: bool, stats': map<string, Stats>)
    requires Board(stats, known, events)
    ensures ok <==> |run.entries| <= run.toolCalls && Fine(events + EventsOf(known, run))
    ensures ok ==> Board(stats', known, events + EventsOf(known, run))
  {
    hide Board, Add, Traced, Untraced, EventsOf, Fine;
    stats' := stats;
    assert stats.Keys == known + {UNKNOWN_TOOL} by { BoardKeys(stats, known, events); }
    NothingTraced(known, run.running, run.entries);
    assert events + [] == events;
    for i := 0 to |run.entries|
      invariant stats'.Keys == known + {UNKNOWN_TOOL} && Board(stats', known, events + Traced(known, run.running, run.entries[..i]))
    {
      var e := EventOf(known, run.running, run.entries[i]);
      TracedNext(known, run.running, run.entries, i);
      ghost var done := events + Traced(known, run.running, run.entries[..i]);
      assert done + [e] == events + Traced(known, run.running, run.entries[..i + 1]);
      var added := Add(stats'[e.name], e.outcome, e.duration);
      assert Fine(done + [e]) <==> added.Some? by { BoardFine(stats', known, done, e); }
      if added.None? {
        TracedFirst(known, run, i);
        NotFine(events + EventsOf(known, run), done + [e]);
        return false, stats';
      }
      BoardNext(stats', known, done, e);
      stats' := stats'[e.name := added.value];
    }
    assert run.entries[..|run.entries|] == run.entries;
    if |run.entries| > run.toolCalls {
      return false, stats';
    }
    ghost var traced := Traced(known, run.running, run.entries);
    var outcome := if run.running then InFlight else Error;
    var n := run.toolCalls - |run.entries|;
    assert traced + Untraced(run.running, 0) == traced;
    for i := 0 to n
      invariant stats'.Keys == known + {UNKNOWN_TOOL} && Board(stats', known, events + (traced + Untraced(run.running, i)))
    {
      ghost var done := events + (traced + Untraced(run.running, i));
      UntracedNext(run.running, i);
      AddUnknown(stats'[UNKNOWN_TOOL], outcome);
      BoardNext(stats', known, done, Event(UNKNOWN_TOOL, outcome, None));
      stats' := stats'[UNKNOWN_TOOL := Add(stats'[UNKNOWN_TOOL], outcome, None).value];
      assert done + [Event(UNKNOWN_TOOL, outcome, None)] == events + (traced + Untraced(run.running, i + 1));
    }
    assert EventsOf(known, run) == traced + Untraced(run.running, n) by { EventsAre(known, run); }
    BoardIsFine(stats', known, events + EventsOf(known, run));
    return true, stats';
  }

  lemma {:induction false} BoardFine(stats: map<string, Stats>, known: set<string>, events: seq<Event>, e: Event)
    requires Board(stats, known, events) && e.name in stats
    ensures Fine(events + [e]) <==> Add(stats[e.name], e.outcome, e.duration).Some?
  {
    FineNext(stats[e.name], events, e);
  }

  lemma {:induction false} BoardIsFine(stats: map<string, Stats>, known: set<string>, events: seq<Event>)
    requires Board(stats, known, events)
    ensures Fine(events)
  {
  }

  lemma {:induction false} NotFine(all: seq<Event>, p: seq<Event>)
    requires p <= all && !Fine(p)
    ensures !Fine(all)
  {
    hide Fine;
    assert all[..|p|] == p;
    if Fine(all) {
      FinePrefix(all, |p|);
    }
  }

  lemma {:induction false} TracedPrefix(known: set<string>, running: bool, entries: seq<TracedCall>, i: nat)
    requires i <= |entries|
    ensures Traced(known, running, entries[..i]) <= Traced(known, running, entries)
    decreases |entries| - i
  {
    if i < |entries| {
      TracedNext(known, running, entries, i);
      TracedPrefix(known, running, entries, i + 1);
    } else {
      assert entries[..i] == entries;
    }
  }

  lemma {:induction false} TracedFirst(known: set<string>, run: ToolRun, i: nat)
    requires i < |run.entries|
    ensures Traced(known, run.running, run.entries[..i + 1]) <= EventsOf(known, run)
  {
    hide Traced, Untraced;
    TracedPrefix(known, run.running, run.entries, i + 1);
  }

  lemma {:induction false} BoardKeys(stats: map<string, Stats>, known: set<string>, events: seq<Event>)
    requires Board(stats, known, events)
    ensures stats.Keys == known + {UNKNOWN_TOOL}
  {
  }

  lemma {:induction false} NothingTraced(known: set<string>, running: bool, entries: seq<TracedCall>)
    ensures Traced(known, running, entries[..0]) == [] && Untraced(running, 0) == []
  {
  }

  lemma {:induction false} UntracedNext(running: bool, i: nat)
    ensures Untraced(running, i + 1) == Untraced(running, i) + [Event(UNKNOWN_TOOL, if running then InFlight else Error, None)]
  {
  }

  lemma {:induction false} AddUnknown(s: Stats, outcome: Outcome)
    ensures Add(s, outcome, None).Some?
  {
  }

  lemma {:induction false} EventsAre(known: set<string>, run: ToolRun)
    ensures EventsOf(known, run) == Traced(known, run.running, run.entries) + Untraced(run.running, run.toolCalls - |run.entries|)
  {
  }

  // What can be aggregated: no trace exceeds its count, and the latencies can be summed.
  ghost predicate Acceptable(known: set<string>, runs: seq<ToolRun>) {
    (forall i | 0 <= i < |runs| :: |runs[i].entries| <= runs[i].toolCalls) && Fine(Events(known, runs))
  }

  /**
    aggregateToolStats: succeeds exactly on acceptable Runs; every tool's calls are then its successes,
    errors and calls in flight, as the Runs recorded them.
   */
  method AggregateToolStats(known: set<string>, runs: seq<ToolRun>) returns (r: Option<map<string, Stats>>)
    ensures r.Some? <==> Acceptable(known, runs)
    ensures r.Some? ==> Board(r.value, known, Events(known, runs))
  {
    hide Board, Events, EventsOf, Fine;
    var stats := map name | name in known + {UNKNOWN_TOOL} :: NO_STATS;
    EmptyBoard(known);
    assert Events(known, runs[..0]) == [] by { NoEvents(known, runs); }
    for i := 0 to |runs|
      invariant Board(stats, known, Events(known, runs[..i]))
      invariant forall j | 0 <= j < i :: |runs[j].entries| <= runs[j].toolCalls
    {
      EventsNext(known, runs, i);
      var ok, next := AddRun(stats, known, runs[i], Events(known, runs[..i]));
      if !ok {
        if |runs[i].entries| <= runs[i].toolCalls {
          EventsPrefix(known, runs, i + 1);
          NotFine(Events(known, runs), Events(known, runs[..i + 1]));
        }
        return None;
      }
      stats := next;
    }
    assert runs[..|runs|] == runs;
    BoardIsFine(stats, known, Events(known, runs));
    return Some(stats);
  }

  lemma {:induction false} EventsPrefix(known: set<string>, runs: seq<ToolRun>, i: nat)
    requires i <= |runs|
    ensures Events(known, runs[..i]) <= Events(known, runs)
    decreases |runs| - i
  {
    if i < |runs| {
      EventsNext(known, runs, i);
      EventsPrefix(known, runs, i + 1);
    } else {
      assert runs[..i] == runs;
    }
  }

  lemma {:induction false} NoEvents(known: set<string>, runs: seq<ToolRun>)
    ensures Events(known, runs[..0]) == []
  {
  }

  // ---------------------------------------------------------------------------------------------
  // Conservation
  // ---------------------------------------------------------------------------------------------

  function SumCalls(names: seq<string>, events: seq<Event>): nat {
    if names == [] then 0 else SumCalls(names[..|names| - 1], events) + Calls(events, names[|names| - 1])
  }

  predicate NoRepeats(names: seq<string>) {
    forall i, j | 0 <= i < j < |names| :: names[i] != names[j]
  }

  lemma {:induction false} SumCallsNext(names: seq<string>, events: seq<Event>, e: Event)
    requires NoRepeats(names)
    ensures SumCalls(names, events + [e]) == SumCalls(names, events) + if e.name in names then 1 else 0
    decreases |names|
  {
    hide Count;
    if names != [] {
      var n := |names| - 1;
      assert names == names[..n] + [names[n]];
      SumCallsNext(names[..n], events, e);
      CountNext(events, e, names[n], Success);
      CountNext(events, e, names[n], Error);
      CountNext(events, e, names[n], InFlight);
    }
  }

  lemma {:induction false} SumCallsNone(names: seq<string>)
    ensures SumCalls(names, []) == 0
    decreases |names|
  {
    if names != [] {
      SumCallsNone(names[..|names| - 1]);
    }
  }

  lemma {:induction false} CallsAddUp(names: seq<string>, events: seq<Event>)
    requires NoRepeats(names) && forall i | 0 <= i < |events| :: events[i].name in names
    ensures SumCalls(names, events) == |events|
    decreases |events|
  {
    hide NoRepeats, SumCalls;
    if events == [] {
      SumCallsNone(names);
    } else {
      var n := |events| - 1;
      assert events == events[..n] + [events[n]];
      CallsAddUp(names, events[..n]);
      SumCallsNext(names, events[..n], events[n]);
    }
  }

  function Persisted(runs: seq<ToolRun>): nat {
    if runs == [] then 0 else Persisted(runs[..|runs| - 1]) + runs[|runs| - 1].toolCalls
  }

  lemma {:induction false} UntracedLength(running: bool, n: nat)
    ensures |Untraced(running, n)| == n && forall e | e in Untraced(running, n) :: e.name == UNKNOWN_TOOL
    decreases n
  {
    if n > 0 {
      UntracedLength(running, n - 1);
    }
  }

  lemma {:induction false} TracedLength(known: set<string>, running: bool, entries: seq<TracedCall>)
    ensures |Traced(known, running, entries)| == |entries|
    ensures forall e | e in Traced(known, running, entries) :: e.name in known || e.name == UNKNOWN_TOOL
    decreases |entries|
  {
    if entries != [] {
      TracedLength(known, running, entries[..|entries| - 1]);
    }
  }

  lemma {:induction false} EventsLength(known: set<string>, runs: seq<ToolRun>)
    requires forall i | 0 <= i < |runs| :: |runs[i].entries| <= runs[i].toolCalls
    ensures |Events(known, runs)| == Persisted(runs)
    ensures forall e | e in Events(known, runs) :: e.name in known || e.name == UNKNOWN_TOOL
    decreases |runs|
  {
    hide Traced, Untraced;
    if runs != [] {
      var run := runs[|runs| - 1];
      EventsLength(known, runs[..|runs| - 1]);
      UntracedLength(run.running, run.toolCalls - |run.entries|);
      TracedLength(known, run.running, run.entries);
    }
  }

  /** The calls over all tools are the calls the Runs persisted. */
  lemma {:induction false} ToolCallsConserved(known: set<string>, runs: seq<ToolRun>, names: seq<string>)
    requires forall i | 0 <= i < |runs| :: |runs[i].entries| <= runs[i].toolCalls
    requires NoRepeats(names) && forall name :: name in names <==> name in known || name == UNKNOWN_TOOL
    ensures SumCalls(names, Events(known, runs)) == Persisted(runs)
  {
    hide Events, SumCalls, Persisted;
    EventsLength(known, runs);
    var events := Events(known, runs);
    forall i | 0 <= i < |events| ensures events[i].name in names {
      assert events[i] in events;
    }
    CallsAddUp(names, events);
  }

  // What monitoring makes of a traced call: the tool it names, if known, and how it ended. A call that was
  // started and has not ended is in flight while its Run runs, and an error once it does not.
  ghost predicate CountedAs(known: set<string>, running: bool, e: TracedCall, event: Event) {
    && event.name == (if e.name in known then e.name else "_unknown") && event.duration == e.duration
    && (event.outcome == Success <==> (e.ended || !e.started) && e.ok)
    && (event.outcome == InFlight <==> e.started && !e.ended && running)
  }

  /** The counted calls of a Run: its traced calls in order, then one for each that is missing from the trace. */
  lemma {:induction false} EventsTell(known: set<string>, run: ToolRun, i: nat)
    ensures var events := EventsOf(known, run);
      && |events| == (if |run.entries| < run.toolCalls then run.toolCalls else |run.entries|)
      && (i < |run.entries| ==> CountedAs(known, run.running, run.entries[i], events[i]))
      && (|run.entries| <= i < |events| ==> events[i] == Event("_unknown", if run.running then InFlight else Error, None))
  {
    TracedTell(known, run.running, run.entries);
    UntracedTell(run.running, run.toolCalls - |run.entries|);
  }

  lemma {:induction false} TracedTell(known: set<string>, running: bool, entries: seq<TracedCall>)
    ensures |Traced(known, running, entries)| == |entries|
    ensures forall i | 0 <= i < |entries| :: CountedAs(known, running, entries[i], Traced(known, running, entries)[i])
    decreases |entries|
  {
    if entries != [] {
      TracedTell(known, running, entries[..|entries| - 1]);
    }
  }

  lemma {:induction false} UntracedTell(running: bool, n: int)
    ensures |Untraced(running, n)| == (if n > 0 then n else 0)
    ensures forall i | 0 <= i < |Untraced(running, n)| :: Untraced(running, n)[i] == Event("_unknown", if running then InFlight else Error, None)
    decreases if n > 0 then n else 0
  {
    if n > 0 {
      UntracedTell(running, n - 1);
    }
  }
}
