/**
  The background scheduler: a mutex, a one-slot wake channel, a timer, one loop goroutine and one
  worker per execution. Each action is one critical section or one channel operation, so every
  interleaving of goroutines is a sequence of actions.
 */
module EventLoop {
  import opened Prelude

  const HOUR := 3_600_000_000_000

  datatype Outcome = Returned(error: bool) | Deleted | Stopped

  // One execution of a job.
  datatype Span = Span(start: Time, end: Option<Time>)

  // One registration. born, count and spans record its history; closings counts close(done).
  datatype Job = Job(
    name: string, nextRun: Time, interval: Time, remaining: int, running: bool, deleting: bool,
    closings: nat, result: Option<Outcome>, born: Time, count: int, spans: seq<Span>, epoch: nat)

  datatype Status = Off | On | Stopping

  // Where the loop goroutine is; Waiting covers both about to block and blocked until the deadline.
  datatype Place = Nowhere | Dispatching | Waiting(deadline: Time) | Draining

  // jobs are the event objects ever allocated; the two tables hold their positions. callers and
  // workers count the threads between their unlock and their signal.
  datatype Loop = Loop(
    now: Time, jobs: seq<Job>, events: map<string, nat>, finished: map<string, nat>,
    wake: bool, callers: nat, workers: nat, status: Status, place: Place, epoch: nat, closed: set<nat>)

  predicate Done(t: Job) {
    t.closings > 0
  }

  function Initial(now: Time): Loop {
    Loop(now, [], map[], map[], false, 0, 0, Off, Nowhere, 0, {})
  }

  datatype Action =
    | Tick(now: Time)
    | Register(name: string, interval: Time, count: int)
    | Start
    | Dispatch(deadline: Time)
    | Receive
    | Timeout
    | Finish(job: nat, error: bool)
    | WorkerSignal
    | CallerSignal
    | Stop
    | Drained
    | Delete(name: string)

  // ---------------------------------------------------------------------------------------------
  // The critical sections
  // ---------------------------------------------------------------------------------------------

  predicate Registrable(l: Loop, name: string, interval: Time, count: int) {
    !Blank(name) && interval > 0 && (count > 0 || count == -1) && l.status != Stopping && name !in l.events
  }

  function NewJob(l: Loop, name: string, interval: Time, count: int): Job {
    Job(name, l.now + interval, interval, count, false, false, 0, None, l.now, count, [], 0)
  }

  function Registered(l: Loop, name: string, interval: Time, count: int): Loop {
    l.(jobs := l.jobs + [NewJob(l, name, interval, count)],
       events := l.events[name := |l.jobs|], finished := l.finished - {name}, callers := l.callers + 1)
  }

  // A job the loop may run: registered and not running.
  predicate Idle(l: Loop, i: nat) {
    i < |l.jobs| && l.jobs[i].name in l.events && l.events[l.jobs[i].name] == i
    && !l.jobs[i].deleting && l.jobs[i].remaining != 0 && !l.jobs[i].running
  }

  function Began(t: Job, now: Time, epoch: nat): Job {
    t.(remaining := if t.remaining > 0 then t.remaining - 1 else t.remaining, running := true,
       nextRun := now + t.interval, spans := t.spans + [Span(now, None)], epoch := epoch)
  }

  function Dispatched(l: Loop): seq<Job> {
    seq(|l.jobs|, i requires 0 <= i < |l.jobs| =>
      if Idle(l, i) && l.jobs[i].nextRun <= l.now then Began(l.jobs[i], l.now, l.epoch) else l.jobs[i])
  }

  // The earliest next run among the jobs left idle, at most an hour away.
  ghost predicate IsDeadline(l: Loop, deadline: Time) {
    && deadline <= l.now + HOUR
    && (forall i: nat | Idle(l, i) && l.now < l.jobs[i].nextRun :: deadline <= l.jobs[i].nextRun)
    && (deadline == l.now + HOUR || exists i: nat :: Idle(l, i) && l.now < l.jobs[i].nextRun && deadline == l.jobs[i].nextRun)
  }

  function Retired(t: Job, result: Outcome): Job {
    t.(closings := t.closings + (if Done(t) then 0 else 1), result := Some(result))
  }

  // The job leaves the active table for the finished one.
  function Retire(l: Loop, i: nat, result: Outcome): Loop
    requires i < |l.jobs|
  {
    var t := l.jobs[i];
    l.(jobs := l.jobs[i := Retired(t, result)], events := l.events - {t.name}, finished := l.finished[t.name := i])
  }

  function EndSpan(spans: seq<Span>, now: Time): seq<Span> {
    if spans == [] then [] else spans[..|spans| - 1] + [Span(spans[|spans| - 1].start, Some(now))]
  }

  function Ended(t: Job, now: Time, error: bool): Job {
    t.(running := false, result := Some(Returned(error)), spans := EndSpan(t.spans, now))
  }

  // The critical section of execute.
  function Finished(l: Loop, i: nat, error: bool): Loop
    requires i < |l.jobs|
  {
    var t := l.jobs[i];
    var l1 := l.(jobs := l.jobs[i := Ended(t, l.now, error)], workers := l.workers + 1);
    if t.deleting then Retire(l1, i, Deleted)
    else if l.status != On then Retire(l1, i, Outcome.Stopped)
    else if t.remaining == 0 then Retire(l1, i, Returned(error))
    else l1
  }

  // Stop retires every job that is not running.
  function AllRetired(l: Loop): Loop {
    l.(jobs := seq(|l.jobs|, i requires 0 <= i < |l.jobs| =>
         if Current(l, i) && !l.jobs[i].running then Retired(l.jobs[i], Outcome.Stopped) else l.jobs[i]),
       events := map name | name in l.events && (l.events[name] < |l.jobs| ==> l.jobs[l.events[name]].running) :: l.events[name],
       finished := l.finished + map name | name in l.events && l.events[name] < |l.jobs| && !l.jobs[l.events[name]].running :: l.events[name])
  }

  // The job is the one its name stands for.
  predicate Current(l: Loop, i: nat) {
    i < |l.jobs| && l.jobs[i].name in l.events && l.events[l.jobs[i].name] == i
  }

  function Halted(l: Loop): Loop {
    match l.status
    case Off => AllRetired(l)
    case On => AllRetired(l).(status := Stopping, callers := l.callers + 1)
    case Stopping => l.(callers := l.callers + 1)
  }

  function Removed(l: Loop, name: string): Loop {
    if name !in l.events || l.events[name] >= |l.jobs| then l
    else
      var i := l.events[name];
      var l1 := l.(jobs := l.jobs[i := l.jobs[i].(deleting := true)], callers := l.callers + 1);
      if l.jobs[i].running then l1 else Retire(l1, i, Deleted)
  }

  // ---------------------------------------------------------------------------------------------
  // The interleaved machine
  // ---------------------------------------------------------------------------------------------

  ghost predicate Enabled(l: Loop, a: Action) {
    match a
    case Tick(now) => l.now <= now
    case Register(_, _, _) => true
    case Start => l.status == Off
    case Dispatch(deadline) => l.place == Dispatching && (l.status == On ==> IsDeadline(l, deadline))
    case Receive => l.place.Waiting? && l.wake
    case Timeout => l.place.Waiting? && l.place.deadline <= l.now
    case Finish(i, _) => i < |l.jobs| && l.jobs[i].running
    case WorkerSignal => l.workers > 0
    case CallerSignal => l.callers > 0
    case Stop => true
    case Drained => l.place == Draining && l.workers == 0 && forall i | 0 <= i < |l.jobs| :: !l.jobs[i].running
    case Delete(_) => true
  }

  function Next(l: Loop, a: Action): Loop {
    match a
    case Tick(now) => l.(now := now)
    case Register(name, interval, count) =>
      if Registrable(l, name, interval, count) then Registered(l, name, interval, count) else l
    case Start => l.(wake := false, status := On, place := Dispatching, epoch := l.epoch + 1)
    case Dispatch(deadline) =>
      if l.status == On then l.(jobs := Dispatched(l), place := Waiting(deadline)) else l.(place := Draining)
    case Receive => l.(wake := false, place := Dispatching)
    case Timeout => l.(place := Dispatching)
    case Finish(i, error) => if i < |l.jobs| then Finished(l, i, error) else l
    case WorkerSignal => if l.workers > 0 then l.(workers := l.workers - 1, wake := true) else l
    case CallerSignal => if l.callers > 0 then l.(callers := l.callers - 1, wake := true) else l
    case Stop => Halted(l)
    case Drained => l.(status := Off, place := Nowhere, closed := l.closed + {l.epoch})
    case Delete(name) => Removed(l, name)
  }

  // ---------------------------------------------------------------------------------------------
  // Invariants
  // ---------------------------------------------------------------------------------------------

  // The last execution is open exactly while the job runs.
  ghost predicate LastOpen(spans: seq<Span>, running: bool) {
    && (running ==> spans != [])
    && (forall j | 0 <= j < |spans| :: (spans[j].end.None? <==> j == |spans| - 1 && running))
  }

  // Executions do not overlap and start at least an interval apart.
  ghost predicate Apart(spans: seq<Span>, interval: Time) {
    && (forall j | 0 <= j < |spans| && spans[j].end.Some? :: spans[j].start <= spans[j].end.value)
    && (forall j | 0 <= j < |spans| - 1 ::
          && spans[j].start + interval <= spans[j + 1].start
          && spans[j].end.Some? && spans[j].end.value <= spans[j + 1].start)
  }

  // The next run is an interval after the last start, or after the registration.
  ghost predicate Scheduled(t: Job) {
    && t.nextRun == (if t.spans == [] then t.born else t.spans[|t.spans| - 1].start) + t.interval
    && (t.spans != [] ==> t.born + t.interval <= t.spans[0].start)
  }

  ghost predicate SpanShape(t: Job) {
    t.interval > 0 && LastOpen(t.spans, t.running) && Apart(t.spans, t.interval) && Scheduled(t)
  }

  ghost predicate PastSpans(spans: seq<Span>, now: Time) {
    forall j | 0 <= j < |spans| :: spans[j].start <= now && (spans[j].end.Some? ==> spans[j].end.value <= now)
  }

  // Executions and remaining runs add up to the count.
  ghost predicate Counted(t: Job) {
    if t.count == -1 then t.remaining == -1 else t.count > 0 && t.remaining >= 0 && |t.spans| + t.remaining == t.count
  }

  ghost predicate JobInv(t: Job, now: Time) {
    SpanShape(t) && PastSpans(t.spans, now) && Counted(t)
  }

  // done is closed exactly when the job has left the active table, and only once.
  ghost predicate Tables(l: Loop) {
    && (forall name | name in l.events :: l.events[name] < |l.jobs| && l.jobs[l.events[name]].name == name)
    && (forall name | name in l.finished ::
          l.finished[name] < |l.jobs| && l.jobs[l.finished[name]].name == name && name !in l.events
          && Done(l.jobs[l.finished[name]]))
    && (forall i | 0 <= i < |l.jobs| ::
          && l.jobs[i].closings == (if Current(l, i) then 0 else 1)
          && (l.jobs[i].running ==> Current(l, i))
          && (Done(l.jobs[i]) ==> l.jobs[i].result.Some?))
  }

  // A registered job that is not running can run again, unless the loop is stopping: then there is none.
  ghost predicate Ready(l: Loop) {
    forall i | 0 <= i < |l.jobs| && Current(l, i) && !l.jobs[i].running ::
      !l.jobs[i].deleting && l.jobs[i].remaining != 0 && l.status != Stopping
  }

  ghost predicate Phases(l: Loop) {
    && (l.status == Off <==> l.place == Nowhere)
    && (l.place == Draining ==> l.status == Stopping)
    && (l.status == Off ==> l.workers == 0)
  }

  // A worker belongs to the current epoch of the loop, whose stopDone is still open.
  ghost predicate Epochs(l: Loop) {
    && (forall e | e in l.closed :: e <= l.epoch)
    && (l.status != Off ==> l.epoch !in l.closed)
    && (l.status == Off && l.epoch > 0 ==> l.epoch in l.closed)
    && (forall i | 0 <= i < |l.jobs| && l.jobs[i].running :: l.status != Off && l.jobs[i].epoch == l.epoch)
  }

  /**
    No lost wake-up: a loop that is blocked, or about to block, until a deadline has a wake token
    waiting, or some thread is about to send one, or nothing needs it before the deadline.
   */
  ghost predicate NoLostWake(l: Loop) {
    l.place.Waiting? ==>
      || l.wake || l.callers > 0 || l.workers > 0
      || (l.status == On && forall i: nat | Idle(l, i) :: l.place.deadline <= l.jobs[i].nextRun)
  }

  ghost predicate BaseInv(l: Loop) {
    && (forall i | 0 <= i < |l.jobs| :: JobInv(l.jobs[i], l.now))
    && Tables(l) && Ready(l) && Phases(l) && Epochs(l) && NoLostWake(l)
  }

  // What Wait reports: deleted exactly when it was, and a job's own outcome only when it ran out.
  ghost predicate Judged(t: Job) {
    Done(t) ==> t.result.Some? && (t.deleting <==> t.result.value == Deleted) && (t.result.value.Returned? ==> t.remaining == 0)
  }

  ghost predicate Verdicts(l: Loop) {
    forall i | 0 <= i < |l.jobs| :: Judged(l.jobs[i])
  }

  ghost predicate LoopInv(l: Loop) {
    BaseInv(l) && Verdicts(l)
  }

  lemma InitialInv(now: Time)
    ensures LoopInv(Initial(now))
  {
  }

  // ---------------------------------------------------------------------------------------------
  // One job
  // ---------------------------------------------------------------------------------------------

  lemma NewJobInv(l: Loop, name: string, interval: Time, count: int)
    requires interval > 0 && (count > 0 || count == -1)
    ensures JobInv(NewJob(l, name, interval, count), l.now)
  {
  }

  lemma OpenSpan(spans: seq<Span>, interval: Time, now: Time)
    requires LastOpen(spans, false) && Apart(spans, interval) && PastSpans(spans, now)
    requires spans != [] ==> spans[|spans| - 1].start + interval <= now
    ensures var more := spans + [Span(now, None)]; LastOpen(more, true) && Apart(more, interval) && PastSpans(more, now)
  {
    var more := spans + [Span(now, None)];
    var n := |spans|;
    assert forall j | 0 <= j < n :: more[j] == spans[j];
    assert more[n] == Span(now, None);
    forall j | 0 <= j < |more| - 1
      ensures more[j].start + interval <= more[j + 1].start && more[j].end.Some? && more[j].end.value <= more[j + 1].start
    {
      assert more[j] == spans[j];
      if j + 1 < n {
        assert more[j + 1] == spans[j + 1];
      }
    }
  }

  lemma BeganInv(t: Job, now: Time, epoch: nat)
    requires JobInv(t, now) && !t.running && t.remaining != 0 && t.nextRun <= now
    ensures JobInv(Began(t, now, epoch), now)
  {
    hide LastOpen, Apart, PastSpans;
    OpenSpan(t.spans, t.interval, now);
  }

  lemma CloseSpan(spans: seq<Span>, interval: Time, now: Time)
    requires LastOpen(spans, true) && Apart(spans, interval) && PastSpans(spans, now)
    ensures var ended := EndSpan(spans, now); LastOpen(ended, false) && Apart(ended, interval) && PastSpans(ended, now)
  {
    var ended := EndSpan(spans, now);
    var n := |spans| - 1;
    assert forall j | 0 <= j < n :: ended[j] == spans[j];
    assert ended[n] == Span(spans[n].start, Some(now));
    forall j | 0 <= j < |ended| - 1
      ensures ended[j].start + interval <= ended[j + 1].start && ended[j].end.Some? && ended[j].end.value <= ended[j + 1].start
    {
      assert spans[j + 1].start == ended[j + 1].start;
    }
  }

  lemma EndedInv(t: Job, now: Time, error: bool)
    requires JobInv(t, now) && t.running
    ensures JobInv(Ended(t, now, error), now)
  {
    assert t.spans != [];
    hide LastOpen, Apart, PastSpans;
    CloseSpan(t.spans, t.interval, now);
  }

  lemma RetiredInv(t: Job, now: Time, result: Outcome)
    requires JobInv(t, now)
    ensures JobInv(Retired(t, result), now)
  {
  }

  lemma LaterInv(t: Job, now: Time, later: Time)
    requires JobInv(t, now) && now <= later
    ensures JobInv(t, later)
  {
  }

  // ---------------------------------------------------------------------------------------------
  // Every action keeps the invariant
  // ---------------------------------------------------------------------------------------------

  ghost predicate Jobs(l: Loop) {
    forall i | 0 <= i < |l.jobs| :: JobInv(l.jobs[i], l.now)
  }

  ghost predicate Rest(l: Loop) {
    Tables(l) && Ready(l) && Phases(l) && Epochs(l) && NoLostWake(l)
  }

  lemma TickInv(l: Loop, now: Time)
    requires BaseInv(l) && l.now <= now
    ensures BaseInv(Next(l, Tick(now)))
  {
    hide JobInv;
    forall i | 0 <= i < |l.jobs| ensures JobInv(l.jobs[i], now) {
      LaterInv(l.jobs[i], l.now, now);
    }
    var l' := Next(l, Tick(now));
    assert forall i: nat :: Idle(l', i) <==> Idle(l, i);
    assert forall i: nat :: Current(l', i) <==> Current(l, i);
  }

  lemma RegisterInv(l: Loop, name: string, interval: Time, count: int)
    requires BaseInv(l) && Registrable(l, name, interval, count)
    ensures BaseInv(Registered(l, name, interval, count))
  {
    hide JobInv;
    NewJobInv(l, name, interval, count);
    var l' := Registered(l, name, interval, count);
    var n := |l.jobs|;
    assert Current(l', n);
    assert forall i: nat | i < n :: l'.jobs[i] == l.jobs[i] && (Current(l', i) <==> Current(l, i));
  }

  lemma StartInv(l: Loop)
    requires BaseInv(l) && l.status == Off
    ensures BaseInv(Next(l, Start))
  {
    hide JobInv;
    var l' := Next(l, Start);
    assert forall i: nat :: Current(l', i) <==> Current(l, i);
  }

  lemma DispatchJobs(l: Loop, deadline: Time)
    requires BaseInv(l) && l.status == On
    ensures Jobs(Next(l, Dispatch(deadline)))
  {
    hide JobInv, Began;
    var l' := Next(l, Dispatch(deadline));
    forall i | 0 <= i < |l'.jobs| ensures JobInv(l'.jobs[i], l'.now) {
      if Idle(l, i) && l.jobs[i].nextRun <= l.now {
        BeganInv(l.jobs[i], l.now, l.epoch);
      }
    }
  }

  lemma DispatchInv(l: Loop, deadline: Time)
    requires BaseInv(l) && Enabled(l, Dispatch(deadline))
    ensures BaseInv(Next(l, Dispatch(deadline)))
  {
    hide JobInv;
    var l' := Next(l, Dispatch(deadline));
    if l.status == On {
      DispatchJobs(l, deadline);
      assert forall i: nat | i < |l.jobs| :: l'.jobs[i].name == l.jobs[i].name && (Current(l', i) <==> Current(l, i));
      assert forall i: nat | Idle(l', i) :: Idle(l, i) && l'.jobs[i] == l.jobs[i] && l.now < l.jobs[i].nextRun;
    } else {
      assert forall i: nat :: Current(l', i) <==> Current(l, i);
    }
  }

  lemma LoopStepInv(l: Loop, a: Action)
    requires BaseInv(l) && Enabled(l, a) && (a.Receive? || a.Timeout? || a.WorkerSignal? || a.CallerSignal? || a.Drained?)
    ensures BaseInv(Next(l, a))
  {
    hide JobInv;
    var l' := Next(l, a);
    assert forall i: nat :: Current(l', i) <==> Current(l, i);
    assert forall i: nat :: Idle(l', i) <==> Idle(l, i);
  }

  // Retiring a current job that is not running.
  lemma RetireTables(l: Loop, i: nat, result: Outcome)
    requires Tables(l) && i < |l.jobs| && Current(l, i) && !l.jobs[i].running
    ensures Tables(Retire(l, i, result))
    ensures forall j: nat :: Current(Retire(l, i, result), j) <==> Current(l, j) && j != i
  {
    var l' := Retire(l, i, result);
    assert forall j: nat | j < |l.jobs| :: l'.jobs[j].name == l.jobs[j].name;
    forall j: nat ensures Current(l', j) <==> Current(l, j) && j != i {
    }
  }

  // Replacing a job by one with the same identity.
  lemma ReplaceTables(l: Loop, i: nat, t: Job)
    requires Tables(l) && i < |l.jobs| && Current(l, i)
    requires t.name == l.jobs[i].name && t.closings == l.jobs[i].closings
    ensures Tables(l.(jobs := l.jobs[i := t]))
    ensures forall j: nat :: Current(l.(jobs := l.jobs[i := t]), j) <==> Current(l, j)
  {
    var l' := l.(jobs := l.jobs[i := t]);
    assert forall j: nat | j < |l.jobs| :: l'.jobs[j].name == l.jobs[j].name;
  }

  lemma FinishJobs(l: Loop, i: nat, error: bool)
    requires BaseInv(l) && i < |l.jobs| && l.jobs[i].running
    ensures Jobs(Finished(l, i, error))
  {
    hide JobInv, Ended, Tables, Ready, Phases, Epochs, NoLostWake;
    var e := Ended(l.jobs[i], l.now, error);
    EndedInv(l.jobs[i], l.now, error);
    RetiredInv(e, l.now, Deleted);
    RetiredInv(e, l.now, Outcome.Stopped);
    RetiredInv(e, l.now, Returned(error));
  }

  // The job after its execution, before it may be retired.
  function AfterRun(l: Loop, i: nat, error: bool): Loop
    requires i < |l.jobs|
  {
    l.(jobs := l.jobs[i := Ended(l.jobs[i], l.now, error)], workers := l.workers + 1)
  }

  lemma AfterRunTables(l: Loop, i: nat, error: bool)
    requires Tables(l) && i < |l.jobs| && l.jobs[i].running
    ensures Tables(AfterRun(l, i, error)) && Current(AfterRun(l, i, error), i)
    ensures forall j: nat :: Current(AfterRun(l, i, error), j) <==> Current(l, j)
  {
    assert Current(l, i);
    hide Tables, Current, EndSpan;
    SignalTables(l, l.callers, l.workers + 1);
    ReplaceTables(l.(workers := l.workers + 1), i, Ended(l.jobs[i], l.now, error));
  }

  lemma FinishTables(l: Loop, i: nat, error: bool)
    requires Tables(l) && i < |l.jobs| && l.jobs[i].running
    ensures Tables(Finished(l, i, error))
    ensures forall j: nat | Current(Finished(l, i, error), j) ::
      Current(l, j) && (j == i ==> !l.jobs[i].deleting && l.status == On && l.jobs[i].remaining != 0)
  {
    hide Tables, Current, EndSpan, Retire;
    AfterRunTables(l, i, error);
    var t, l2 := l.jobs[i], AfterRun(l, i, error);
    if t.deleting {
      RetireTables(l2, i, Deleted);
    } else if l.status != On {
      RetireTables(l2, i, Outcome.Stopped);
    } else if t.remaining == 0 {
      RetireTables(l2, i, Returned(error));
    }
  }

  lemma SignalTables(l: Loop, callers: nat, workers: nat)
    requires Tables(l)
    ensures Tables(l.(callers := callers, workers := workers))
    ensures forall j: nat :: Current(l.(callers := callers, workers := workers), j) <==> Current(l, j)
  {
    var l' := l.(callers := callers, workers := workers);
    assert forall j: nat :: Current(l', j) <==> Current(l, j);
  }

  // One job changed, and somebody is about to signal.
  lemma TouchRest(l: Loop, l': Loop, i: nat)
    requires Ready(l) && Phases(l) && Epochs(l) && i < |l.jobs| == |l'.jobs|
    requires forall j: nat | j < |l.jobs| && j != i :: l'.jobs[j] == l.jobs[j]
    requires forall j: nat | Current(l', j) :: Current(l, j)
    requires l'.status == l.status && l'.place == l.place && l'.epoch == l.epoch && l'.closed == l.closed
    requires l'.callers + l'.workers > 0 && (l.status == Off ==> l'.workers == 0)
    requires l'.jobs[i].running ==> l.jobs[i].running && l'.jobs[i].epoch == l.jobs[i].epoch
    requires Current(l', i) && !l'.jobs[i].running ==>
      !l'.jobs[i].deleting && l'.jobs[i].remaining != 0 && l'.status != Stopping
    ensures Ready(l') && Phases(l') && Epochs(l') && NoLostWake(l')
  {
    hide Current;
  }

  lemma FinishShape(l: Loop, i: nat, error: bool)
    requires i < |l.jobs|
    ensures var l' := Finished(l, i, error);
      && |l'.jobs| == |l.jobs| && (forall j: nat | j < |l.jobs| && j != i :: l'.jobs[j] == l.jobs[j])
      && l'.status == l.status && l'.place == l.place && l'.epoch == l.epoch && l'.closed == l.closed && l'.now == l.now
      && l'.workers == l.workers + 1 && !l'.jobs[i].running
      && l'.jobs[i].deleting == l.jobs[i].deleting && l'.jobs[i].remaining == l.jobs[i].remaining
      && l'.jobs[i].name == l.jobs[i].name && l'.jobs[i].interval == l.jobs[i].interval
      && l'.jobs[i].count == l.jobs[i].count && l'.jobs[i].born == l.jobs[i].born
      && l'.jobs[i].spans == EndSpan(l.jobs[i].spans, l.now)
  {
    hide EndSpan;
  }

  lemma FinishInv(l: Loop, i: nat, error: bool)
    requires BaseInv(l) && i < |l.jobs| && l.jobs[i].running
    ensures BaseInv(Finished(l, i, error))
  {
    FinishJobs(l, i, error);
    FinishTables(l, i, error);
    FinishShape(l, i, error);
    hide JobInv, Tables, Ready, Phases, NoLostWake, Current, EndSpan, Finished;
    assert l.status != Off;
    hide Epochs;
    TouchRest(l, Finished(l, i, error), i);
  }

  // The job marked for deletion, before it may be retired.
  function Marked(l: Loop, i: nat): Loop
    requires i < |l.jobs|
  {
    l.(jobs := l.jobs[i := l.jobs[i].(deleting := true)], callers := l.callers + 1)
  }

  lemma MarkedTables(l: Loop, i: nat)
    requires Tables(l) && Current(l, i)
    ensures Tables(Marked(l, i)) && Current(Marked(l, i), i)
    ensures forall j: nat :: Current(Marked(l, i), j) <==> Current(l, j)
  {
    assert i < |l.jobs|;
    hide Tables, Current;
    SignalTables(l, l.callers + 1, l.workers);
    ReplaceTables(l.(callers := l.callers + 1), i, l.jobs[i].(deleting := true));
  }

  lemma DeleteTables(l: Loop, name: string)
    requires Tables(l) && name in l.events
    ensures Tables(Removed(l, name))
    ensures forall j: nat | Current(Removed(l, name), j) :: Current(l, j)
    ensures Current(Removed(l, name), l.events[name]) ==> l.jobs[l.events[name]].running
  {
    var i := l.events[name];
    assert i < |l.jobs| && Current(l, i);
    hide Current, Tables, Retire;
    MarkedTables(l, i);
    if !l.jobs[i].running {
      RetireTables(Marked(l, i), i, Deleted);
    }
  }

  lemma DeleteInv(l: Loop, name: string)
    requires BaseInv(l)
    ensures BaseInv(Removed(l, name))
  {
    hide JobInv, Ready, NoLostWake, Current;
    if name in l.events && l.events[name] < |l.jobs| {
      var i := l.events[name];
      var l' := Removed(l, name);
      DeleteTables(l, name);
      hide Tables;
      var t := l.jobs[i].(deleting := true);
      DeletingInv(l.jobs[i], l.now);
      RetiredInv(t, l.now, Deleted);
      assert forall j | 0 <= j < |l'.jobs| :: JobInv(l'.jobs[j], l'.now);
      TouchRest(l, l', i);
    }
  }

  lemma DeletingInv(t: Job, now: Time)
    requires JobInv(t, now)
    ensures JobInv(t.(deleting := true), now)
  {
  }

  // ---------------------------------------------------------------------------------------------
  // Stop
  // ---------------------------------------------------------------------------------------------

  lemma StopJobs(l: Loop)
    requires BaseInv(l)
    ensures Jobs(AllRetired(l))
  {
    hide JobInv, Retired, Tables, Ready, Phases, Epochs, NoLostWake;
    var l' := AllRetired(l);
    forall i | 0 <= i < |l'.jobs| ensures JobInv(l'.jobs[i], l'.now) {
      RetiredInv(l.jobs[i], l.now, Outcome.Stopped);
    }
  }

  lemma StopCurrent(l: Loop, i: nat)
    requires Tables(l)
    ensures Current(AllRetired(l), i) <==> Current(l, i) && l.jobs[i].running
  {
    var l' := AllRetired(l);
    if i < |l.jobs| {
      assert l'.jobs[i].name == l.jobs[i].name;
    }
  }

  // Stop moves exactly the idle jobs to the finished table.
  lemma StopTables(l: Loop)
    requires Tables(l)
    ensures Tables(AllRetired(l))
  {
    var l' := AllRetired(l);
    forall i: nat ensures Current(l', i) <==> Current(l, i) && l.jobs[i].running {
      StopCurrent(l, i);
    }
    forall name | name in l'.finished
      ensures l'.finished[name] < |l'.jobs| && l'.jobs[l'.finished[name]].name == name && name !in l'.events
      ensures Done(l'.jobs[l'.finished[name]])
    {
      if name in l.events && !l.jobs[l.events[name]].running {
        assert Current(l, l.events[name]);
      } else {
        assert name in l.finished;
      }
    }
  }

  lemma HaltedTables(l: Loop, status: Status, callers: nat)
    requires Tables(l)
    ensures Tables(l.(status := status, callers := callers))
    ensures forall j: nat :: Current(l.(status := status, callers := callers), j) <==> Current(l, j)
  {
    var l' := l.(status := status, callers := callers);
    assert forall j: nat :: Current(l', j) <==> Current(l, j);
  }

  // A second Stop only signals.
  lemma StopAgainInv(l: Loop)
    requires BaseInv(l) && l.status == Stopping
    ensures BaseInv(Halted(l))
  {
    hide JobInv, Tables, Current;
    HaltedTables(l, l.status, l.callers + 1);
  }

  // What is left after Stop is running.
  lemma StopReady(l: Loop, l': Loop)
    requires Tables(l) && Epochs(l) && l'.jobs == AllRetired(l).jobs
    requires l'.epoch == l.epoch && l'.closed == l.closed && (l'.status == Off <==> l.status == Off)
    requires forall i: nat | Current(l', i) :: Current(l, i) && l.jobs[i].running
    ensures Ready(l') && Epochs(l')
  {
    hide Tables, Current;
    assert forall i: nat | i < |l.jobs| :: l'.jobs[i].running == l.jobs[i].running && l'.jobs[i].epoch == l.jobs[i].epoch;
  }

  lemma StopInv(l: Loop)
    requires BaseInv(l)
    ensures BaseInv(Halted(l))
  {
    if l.status == Stopping {
      StopAgainInv(l);
    } else {
      StopJobs(l);
      StopTables(l);
      forall i: nat | Current(AllRetired(l), i) ensures Current(l, i) && l.jobs[i].running {
        StopCurrent(l, i);
      }
      hide JobInv, Tables, Current, Ready, Epochs, Retired;
      var l' := Halted(l);
      HaltedTables(AllRetired(l), l'.status, l'.callers);
      StopReady(l, l');
    }
  }

  lemma BaseNext(l: Loop, a: Action)
    requires BaseInv(l) && Enabled(l, a)
    ensures BaseInv(Next(l, a))
  {
    hide BaseInv, Finished, Halted, Removed, Registered, Registrable, Dispatched, IsDeadline;
    match a
    case Tick(now) => TickInv(l, now);
    case Register(name, interval, count) =>
      if Registrable(l, name, interval, count) {
        RegisterInv(l, name, interval, count);
      }
    case Start => StartInv(l);
    case Dispatch(deadline) => DispatchInv(l, deadline);
    case Finish(i, error) => FinishInv(l, i, error);
    case Stop => StopInv(l);
    case Delete(name) => DeleteInv(l, name);
    case _ => LoopStepInv(l, a);
  }

  lemma DispatchVerdicts(l: Loop, deadline: Time)
    requires Verdicts(l) && Tables(l)
    ensures Verdicts(Next(l, Dispatch(deadline)))
  {
    var l' := Next(l, Dispatch(deadline));
    forall i | 0 <= i < |l'.jobs| ensures Judged(l'.jobs[i]) {
      assert Judged(l.jobs[i]);
    }
  }

  lemma FinishVerdicts(l: Loop, i: nat, error: bool)
    requires Verdicts(l) && Tables(l) && i < |l.jobs| && l.jobs[i].running
    ensures Verdicts(Finished(l, i, error))
  {
    hide EndSpan;
    assert Current(l, i);
    var l' := Finished(l, i, error);
    FinishShape(l, i, error);
    assert Judged(l'.jobs[i]);
  }

  lemma DeleteVerdicts(l: Loop, name: string)
    requires Verdicts(l) && Tables(l)
    ensures Verdicts(Removed(l, name))
  {
    if name in l.events && l.events[name] < |l.jobs| {
      assert Current(l, l.events[name]);
      var l' := Removed(l, name);
      assert forall j: nat | j < |l.jobs| && j != l.events[name] :: l'.jobs[j] == l.jobs[j];
    }
  }

  lemma StopVerdicts(l: Loop)
    requires Verdicts(l) && Tables(l) && Ready(l)
    ensures Verdicts(Halted(l))
  {
    var l' := Halted(l);
    forall i | 0 <= i < |l'.jobs| ensures Judged(l'.jobs[i]) {
      assert Judged(l.jobs[i]);
    }
  }

  lemma NextVerdicts(l: Loop, a: Action)
    requires Verdicts(l) && Tables(l) && Ready(l) && Enabled(l, a)
    ensures Verdicts(Next(l, a))
  {
    hide Tables, Ready, Finished, Removed, Halted, Dispatched, IsDeadline, Registrable, Judged;
    if a.Dispatch? {
      DispatchVerdicts(l, a.deadline);
    } else if a.Finish? {
      FinishVerdicts(l, a.job, a.error);
    } else if a.Delete? {
      DeleteVerdicts(l, a.name);
    } else if a.Stop? {
      StopVerdicts(l);
    } else if a.Register? {
      assert Judged(NewJob(l, a.name, a.interval, a.count)) by { NewIsJudged(l, a.name, a.interval, a.count); }
    }
  }

  lemma NewIsJudged(l: Loop, name: string, interval: Time, count: int)
    ensures Judged(NewJob(l, name, interval, count))
  {
  }

  /** Every action of every goroutine keeps the invariant. */
  lemma NextInv(l: Loop, a: Action)
    requires LoopInv(l) && Enabled(l, a)
    ensures LoopInv(Next(l, a))
  {
    assert Tables(l) && Ready(l) by { hide JobInv, NoLostWake; }
    hide BaseInv, Verdicts, Tables, Ready, Next, Enabled;
    BaseNext(l, a);
    NextVerdicts(l, a);
  }

  // ---------------------------------------------------------------------------------------------
  // Behaviours
  // ---------------------------------------------------------------------------------------------

  ghost function After(l: Loop, actions: seq<Action>): Loop
    decreases |actions|
  {
    if actions == [] then l else Next(After(l, actions[..|actions| - 1]), actions[|actions| - 1])
  }

  // Every action was enabled when it was taken.
  ghost predicate Possible(l: Loop, actions: seq<Action>)
    decreases |actions|
  {
    actions == [] ||
    (var n := |actions| - 1; Possible(l, actions[..n]) && Enabled(After(l, actions[..n]), actions[n]))
  }

  /** Safety over every interleaving. */
  lemma {:induction false} AlwaysInv(l: Loop, actions: seq<Action>)
    requires LoopInv(l) && Possible(l, actions)
    ensures LoopInv(After(l, actions))
    decreases |actions|
  {
    hide LoopInv, Enabled, Next;
    if actions != [] {
      AlwaysInv(l, actions[..|actions| - 1]);
      NextInv(After(l, actions[..|actions| - 1]), actions[|actions| - 1]);
    }
  }

  // What a registration may go through: it keeps its identity, its history only grows, and once it is
  // finished nothing about it changes.
  ghost predicate Ages(t: Job, t': Job) {
    && t'.name == t.name && t'.interval == t.interval && t'.count == t.count && t'.born == t.born
    && |t.spans| <= |t'.spans| && (forall j | 0 <= j < |t.spans| :: t'.spans[j].start == t.spans[j].start)
    && (Done(t) ==> t' == t)
  }

  ghost predicate AllAge(l: Loop, l': Loop) {
    |l.jobs| <= |l'.jobs| && forall i | 0 <= i < |l.jobs| :: Ages(l.jobs[i], l'.jobs[i])
  }

  lemma FinishAges(l: Loop, i: nat, error: bool)
    requires Tables(l) && i < |l.jobs| && l.jobs[i].running
    ensures AllAge(l, Finished(l, i, error))
  {
    FinishShape(l, i, error);
    assert Current(l, i);
    hide Finished, Tables, Current;
    var l' := Finished(l, i, error);
    assert Ages(l.jobs[i], l'.jobs[i]);
  }

  lemma DeleteAges(l: Loop, name: string)
    requires Tables(l)
    ensures AllAge(l, Removed(l, name))
  {
    var l' := Removed(l, name);
    if name in l.events && l.events[name] < |l.jobs| {
      assert Current(l, l.events[name]);
      assert forall j: nat | j < |l.jobs| && j != l.events[name] :: l'.jobs[j] == l.jobs[j];
    }
  }

  lemma StopAges(l: Loop)
    requires Tables(l)
    ensures AllAge(l, Halted(l))
  {
  }

  lemma NextAges(l: Loop, a: Action)
    requires LoopInv(l) && Enabled(l, a)
    ensures AllAge(l, Next(l, a))
  {
    hide JobInv, Ready, Phases, Epochs, NoLostWake, IsDeadline, Registrable, Finished, Removed, Halted;
    if a.Finish? {
      FinishAges(l, a.job, a.error);
    } else if a.Delete? {
      DeleteAges(l, a.name);
    } else if a.Stop? {
      StopAges(l);
    }
  }

  /** A finished registration is frozen, whatever is registered under its name later. */
  lemma {:induction false} AlwaysAges(l: Loop, actions: seq<Action>)
    requires LoopInv(l) && Possible(l, actions)
    ensures AllAge(l, After(l, actions))
    decreases |actions|
  {
    hide LoopInv, Enabled, Next;
    if actions != [] {
      var n := |actions| - 1;
      AlwaysInv(l, actions[..n]);
      AlwaysAges(l, actions[..n]);
      NextAges(After(l, actions[..n]), actions[n]);
    }
  }

  // ---------------------------------------------------------------------------------------------
  // What the invariant means
  // ---------------------------------------------------------------------------------------------

  /** A job that is due is never slept on: the loop can move, or somebody is about to wake it. */
  lemma DueIsNotSleptOn(l: Loop, i: nat)
    requires LoopInv(l) && l.place.Waiting? && Idle(l, i) && l.jobs[i].nextRun <= l.now
    ensures Enabled(l, Receive) || Enabled(l, Timeout) || Enabled(l, CallerSignal) || Enabled(l, WorkerSignal)
  {
    hide JobInv, Tables, Ready, Phases, Epochs;
  }

  /** A loop asked to stop does not sleep until its deadline: it is awake or about to be woken. */
  lemma StopIsNotSleptOn(l: Loop)
    requires LoopInv(l) && l.place.Waiting? && l.status == Stopping
    ensures Enabled(l, Receive) || Enabled(l, CallerSignal) || Enabled(l, WorkerSignal)
  {
    hide JobInv, Tables, Ready, Phases, Epochs;
  }

  /** Once the stop channel of an epoch is closed no worker of that epoch runs; a stopped loop runs nothing. */
  lemma StopMeansIdle(l: Loop, i: nat)
    requires LoopInv(l) && i < |l.jobs| && l.jobs[i].running
    ensures l.status != Off && l.jobs[i].epoch !in l.closed
  {
    hide JobInv, Tables, Ready, Phases, NoLostWake;
  }

  /** A name that may be registered belongs to no running job, and at most one job of a name runs. */
  lemma NamesDoNotClash(l: Loop, name: string, interval: Time, count: int, i: nat, j: nat)
    requires LoopInv(l) && i < |l.jobs| && j < |l.jobs|
    ensures Registrable(l, name, interval, count) && l.jobs[i].name == name ==> !l.jobs[i].running
    ensures l.jobs[i].running && l.jobs[j].running && l.jobs[i].name == l.jobs[j].name ==> i == j
  {
    hide JobInv, Ready, Phases, Epochs, NoLostWake;
  }

  /** Two executions of one registration never overlap, and start a multiple of the interval apart. */
  lemma {:induction false} ExecutionsApart(t: Job, now: Time, j: nat, k: nat)
    requires JobInv(t, now) && j < k < |t.spans|
    ensures t.spans[j].start + (k - j) * t.interval <= t.spans[k].start
    ensures t.spans[j].end.Some? && t.spans[j].end.value <= t.spans[k].start
    decreases k - j
  {
    assert t.spans[j].start + t.interval <= t.spans[j + 1].start;
    if j + 1 < k {
      ExecutionsApart(t, now, j + 1, k);
      Times(k - j, t.interval);
    }
  }

  lemma Times(n: nat, interval: Time)
    requires n > 0
    ensures n * interval == (n - 1) * interval + interval
  {
  }

  /** A job with a finite count is executed at most that often, and exactly that often when it runs out. */
  lemma CountedRuns(l: Loop, i: nat)
    requires LoopInv(l) && i < |l.jobs| && l.jobs[i].count > 0
    ensures |l.jobs[i].spans| + l.jobs[i].remaining == l.jobs[i].count && 0 <= l.jobs[i].remaining
    ensures Current(l, i) && !l.jobs[i].running ==> |l.jobs[i].spans| < l.jobs[i].count
  {
    hide Tables, Phases, Epochs, NoLostWake, SpanShape;
    assert JobInv(l.jobs[i], l.now);
  }

  /** A deleted registration reports its deletion, and one that ran out its own outcome. */
  lemma OutcomesAreTrue(l: Loop, i: nat)
    requires LoopInv(l) && i < |l.jobs| && l.jobs[i].closings > 0
    ensures l.jobs[i].result.Some? && (l.jobs[i].deleting <==> l.jobs[i].result == Some(Deleted))
    ensures l.jobs[i].result.value.Returned? ==> l.jobs[i].count > 0 && |l.jobs[i].spans| == l.jobs[i].count
  {
    hide Tables, Ready, Phases, Epochs, NoLostWake, SpanShape;
    assert Judged(l.jobs[i]) && JobInv(l.jobs[i], l.now);
  }

  // ---------------------------------------------------------------------------------------------
  // What a registration reports, over its whole run
  // ---------------------------------------------------------------------------------------------

  // How often a registration has returned, and with what it returned last.
  function Returns(actions: seq<Action>, i: nat): nat {
    if actions == [] then 0
    else
      var a := actions[|actions| - 1];
      Returns(actions[..|actions| - 1], i) + if a.Finish? && a.job == i then 1 else 0
  }

  function LastReturn(actions: seq<Action>, i: nat): Option<bool> {
    if actions == [] then None
    else
      var a := actions[|actions| - 1];
      if a.Finish? && a.job == i then Some(a.error) else LastReturn(actions[..|actions| - 1], i)
  }

  // What has happened to a registration, in terms of the actions alone.
  ghost predicate Lived(t: Job, actions: seq<Action>, i: nat) {
    && Returns(actions, i) + (if t.running then 1 else 0) == |t.spans|
    && (t.result.Some? && t.result.value.Returned? ==> LastReturn(actions, i) == Some(t.result.value.error))
    && (Done(t) && t.result == Some(Outcome.Stopped) ==> Stop in actions)
    && (t.deleting ==> Delete(t.name) in actions)
  }

  ghost predicate AllLived(l: Loop, actions: seq<Action>) {
    && (forall i: nat | i < |l.jobs| :: Lived(l.jobs[i], actions, i))
    && (l.status == Stopping ==> Stop in actions)
    && (forall i: nat | i >= |l.jobs| :: Returns(actions, i) == 0)
  }

  lemma {:induction false} ReturnsNext(actions: seq<Action>, a: Action, i: nat)
    ensures Returns(actions + [a], i) == Returns(actions, i) + if a.Finish? && a.job == i then 1 else 0
    ensures LastReturn(actions + [a], i) == if a.Finish? && a.job == i then Some(a.error) else LastReturn(actions, i)
  {
    assert (actions + [a])[..|actions|] == actions;
  }

  // A job that an action does not touch.
  lemma {:induction false} LivesOn(t: Job, actions: seq<Action>, a: Action, i: nat)
    requires Lived(t, actions, i) && !(a.Finish? && a.job == i)
    ensures Lived(t, actions + [a], i)
  {
    hide Returns, LastReturn;
    ReturnsNext(actions, a, i);
  }

  lemma {:induction false} BeganLived(t: Job, actions: seq<Action>, a: Action, i: nat, now: Time, epoch: nat)
    requires Lived(t, actions, i) && !t.running && a.Dispatch?
    ensures Lived(Began(t, now, epoch), actions + [a], i)
  {
    hide Returns, LastReturn;
    ReturnsNext(actions, a, i);
  }

  lemma {:induction false} RetiredLived(t: Job, actions: seq<Action>, a: Action, i: nat)
    requires Lived(t, actions, i) && (a.Stop? || a.Delete?)
    ensures a.Stop? ==> Lived(Retired(t, Outcome.Stopped), actions + [a], i)
    ensures a == Delete(t.name) ==>
      Lived(t.(deleting := true), actions + [a], i) && Lived(Retired(t.(deleting := true), Deleted), actions + [a], i)
  {
    hide Returns, LastReturn;
    ReturnsNext(actions, a, i);
    assert a in actions + [a];
  }

  lemma {:induction false} FinishedLived(l: Loop, actions: seq<Action>, i: nat, error: bool)
    requires i < |l.jobs| && l.jobs[i].running && l.status != Off && Lived(l.jobs[i], actions, i) && (l.status == Stopping ==> Stop in actions)
    ensures Lived(Finished(l, i, error).jobs[i], actions + [Finish(i, error)], i)
  {
    hide Returns, LastReturn;
    ReturnsNext(actions, Finish(i, error), i);
  }

  lemma {:induction false} FinishLived(l: Loop, actions: seq<Action>, i: nat, error: bool)
    requires AllLived(l, actions) && i < |l.jobs| && l.jobs[i].running && l.status != Off
    ensures AllLived(Finished(l, i, error), actions + [Finish(i, error)])
  {
    var a, l' := Finish(i, error), Finished(l, i, error);
    FinishShape(l, i, error);
    FinishedLived(l, actions, i, error);
    hide Finished, Lived, Returns, LastReturn;
    forall j: nat | j < |l'.jobs| ensures Lived(l'.jobs[j], actions + [a], j) {
      if j != i {
        LivesOn(l.jobs[j], actions, a, j);
      }
    }
    forall j: nat | j >= |l.jobs| ensures Returns(actions + [a], j) == 0 {
      ReturnsNext(actions, a, j);
    }
  }

  // Every job either lives on or is changed as one of the other steps does.
  lemma {:induction false} EachLived(l: Loop, l': Loop, actions: seq<Action>, a: Action)
    requires AllLived(l, actions) && !a.Finish? && |l'.jobs| == |l.jobs|
    requires l'.status == Stopping ==> l.status == Stopping || a.Stop?
    requires forall i: nat | i < |l.jobs| :: l'.jobs[i] == l.jobs[i] || Lived(l'.jobs[i], actions + [a], i)
    ensures AllLived(l', actions + [a])
  {
    hide Lived, Returns, LastReturn;
    forall i: nat | i < |l'.jobs| ensures Lived(l'.jobs[i], actions + [a], i) {
      LivesOn(l.jobs[i], actions, a, i);
    }
    forall j: nat | j >= |l.jobs| ensures Returns(actions + [a], j) == 0 {
      ReturnsNext(actions, a, j);
    }
    assert a in actions + [a];
  }

  lemma {:induction false} RegisterLived(l: Loop, actions: seq<Action>, a: Action)
    requires AllLived(l, actions) && a.Register? && Registrable(l, a.name, a.interval, a.count)
    ensures AllLived(Registered(l, a.name, a.interval, a.count), actions + [a])
  {
    hide Returns, LastReturn;
    var l' := Registered(l, a.name, a.interval, a.count);
    forall i: nat | i < |l'.jobs| ensures Lived(l'.jobs[i], actions + [a], i) {
      ReturnsNext(actions, a, i);
      if i < |l.jobs| {
        LivesOn(l.jobs[i], actions, a, i);
      }
    }
    forall j: nat | j >= |l'.jobs| ensures Returns(actions + [a], j) == 0 {
      ReturnsNext(actions, a, j);
    }
  }

  lemma {:induction false} DispatchLived(l: Loop, actions: seq<Action>, a: Action)
    requires AllLived(l, actions) && a.Dispatch?
    ensures AllLived(Next(l, a), actions + [a])
  {
    hide Lived, Returns, LastReturn, Began;
    var l' := Next(l, a);
    forall i: nat | i < |l.jobs| ensures l'.jobs[i] == l.jobs[i] || Lived(l'.jobs[i], actions + [a], i) {
      if Idle(l, i) {
        BeganLived(l.jobs[i], actions, a, i, l.now, l.epoch);
      }
    }
    EachLived(l, l', actions, a);
  }

  lemma {:induction false} StopLived(l: Loop, actions: seq<Action>)
    requires AllLived(l, actions)
    ensures AllLived(Halted(l), actions + [Stop])
  {
    hide Lived, Returns, LastReturn, Retired;
    var l' := Halted(l);
    forall i: nat | i < |l.jobs| ensures l'.jobs[i] == l.jobs[i] || Lived(l'.jobs[i], actions + [Stop], i) {
      RetiredLived(l.jobs[i], actions, Stop, i);
    }
    EachLived(l, l', actions, Stop);
  }

  lemma {:induction false} DeleteLived(l: Loop, actions: seq<Action>, name: string)
    requires AllLived(l, actions) && Tables(l)
    ensures AllLived(Removed(l, name), actions + [Delete(name)])
  {
    hide Lived, Returns, LastReturn, Retired;
    var l' := Removed(l, name);
    forall i: nat | i < |l.jobs| ensures l'.jobs[i] == l.jobs[i] || Lived(l'.jobs[i], actions + [Delete(name)], i) {
      RetiredLived(l.jobs[i], actions, Delete(name), i);
    }
    EachLived(l, l', actions, Delete(name));
  }

  lemma {:induction false} NextLived(l: Loop, actions: seq<Action>, a: Action)
    requires LoopInv(l) && Enabled(l, a) && AllLived(l, actions)
    ensures AllLived(Next(l, a), actions + [a])
  {
    assert Tables(l) && (a.Finish? ==> l.status != Off) by {
      hide JobInv, NoLostWake;
      if a.Finish? {
        StopMeansIdle(l, a.job);
      }
    }
    hide LoopInv, Lived, Returns, LastReturn, IsDeadline, Tables, Finished, Halted, Removed, Registrable, Registered, Dispatched;
    match a
    case Finish(i, error) => FinishLived(l, actions, i, error);
    case Stop => StopLived(l, actions);
    case Delete(name) => DeleteLived(l, actions, name);
    case Dispatch(_) => DispatchLived(l, actions, a);
    case Register(name, interval, count) =>
      if Registrable(l, name, interval, count) {
        RegisterLived(l, actions, a);
      } else {
        EachLived(l, l, actions, a);
      }
    case _ => EachLived(l, Next(l, a), actions, a);
  }

  /**
    Over every interleaving: a registration has run once for each return and is running or not; the
    outcome it reports is the one its task returned last; it reports a stop only after one, and counts as
    deleted only after its name was.
   */
  lemma {:induction false} AlwaysLived(now: Time, actions: seq<Action>)
    requires Possible(Initial(now), actions)
    ensures AllLived(After(Initial(now), actions), actions)
    decreases |actions|
  {
    hide LoopInv, Enabled, Next, AllLived;
    InitialInv(now);
    if actions == [] {
      assert AllLived(Initial(now), []) by { NothingLived(now); }
    } else {
      var n := |actions| - 1;
      AlwaysLived(now, actions[..n]);
      AlwaysInv(Initial(now), actions[..n]);
      NextLived(After(Initial(now), actions[..n]), actions[..n], actions[n]);
      assert actions[..n] + [actions[n]] == actions;
    }
  }

  lemma {:induction false} NothingLived(now: Time)
    ensures AllLived(Initial(now), [])
  {
  }

  /** What Wait reports for a finished registration: its deletion, a stop, or what its task last returned. */
  lemma {:induction false} ReportsAreTrue(now: Time, actions: seq<Action>, i: nat)
    requires Possible(Initial(now), actions)
    ensures var l := After(Initial(now), actions);
      i < |l.jobs| && Done(l.jobs[i]) ==>
        && l.jobs[i].result.Some?
        && match l.jobs[i].result.value
           case Returned(error) =>
             LastReturn(actions, i) == Some(error) && l.jobs[i].count > 0 && Returns(actions, i) == l.jobs[i].count
           case Deleted => Delete(l.jobs[i].name) in actions
           case Stopped => Stop in actions && !l.jobs[i].deleting
  {
    var l := After(Initial(now), actions);
    InitialInv(now);
    AlwaysInv(Initial(now), actions);
    AlwaysLived(now, actions);
    hide After, Possible, Returns, LastReturn;
    if i < |l.jobs| && Done(l.jobs[i]) {
      OutcomesAreTrue(l, i);
      assert Lived(l.jobs[i], actions, i);
      assert !l.jobs[i].running by { DoneIsIdle(l, i); }
    }
  }

  lemma {:induction false} DoneIsIdle(l: Loop, i: nat)
    requires LoopInv(l) && i < |l.jobs| && Done(l.jobs[i])
    ensures !l.jobs[i].running
  {
    hide JobInv, Ready, Phases, Epochs, NoLostWake;
  }

  // ---------------------------------------------------------------------------------------------
  // Which registration a name stands for
  // ---------------------------------------------------------------------------------------------

  // No later registration has the name.
  ghost predicate Newest(l: Loop, i: nat) {
    i < |l.jobs| && forall j | i < j < |l.jobs| :: l.jobs[j].name != l.jobs[i].name
  }

  // The newest registration of a name is found under it: active, or finished.
  ghost predicate Standing(l: Loop) {
    forall i: nat | Newest(l, i) && Done(l.jobs[i]) ::
      l.jobs[i].name !in l.events && l.jobs[i].name in l.finished && l.finished[l.jobs[i].name] == i
  }

  lemma {:induction false} CurrentIsNewest(l: Loop, i: nat, j: nat)
    requires Tables(l) && Standing(l) && Current(l, i) && Newest(l, j) && l.jobs[j].name == l.jobs[i].name
    ensures i == j
  {
    if !Done(l.jobs[j]) {
      assert Current(l, j);
    }
  }

  // The job a name stands for is retired, or not; the others stay.
  lemma {:induction false} RetireStands(l: Loop, l': Loop, i: nat)
    requires Tables(l) && Standing(l) && Current(l, i) && |l'.jobs| == |l.jobs|
    requires forall j: nat | j < |l.jobs| :: l'.jobs[j].name == l.jobs[j].name && (j != i ==> Done(l'.jobs[j]) == Done(l.jobs[j]))
    requires if Done(l'.jobs[i]) then l'.events == l.events - {l.jobs[i].name} && l'.finished == l.finished[l.jobs[i].name := i]
             else l'.events == l.events && l'.finished == l.finished
    ensures Standing(l')
  {
    forall j: nat | Newest(l', j) && Done(l'.jobs[j])
      ensures l'.jobs[j].name !in l'.events && l'.jobs[j].name in l'.finished && l'.finished[l'.jobs[j].name] == j
    {
      assert Newest(l, j);
      if l.jobs[j].name == l.jobs[i].name {
        CurrentIsNewest(l, i, j);
      }
    }
  }

  lemma {:induction false} FinishStands(l: Loop, i: nat, error: bool)
    requires Tables(l) && Standing(l) && i < |l.jobs| && l.jobs[i].running
    ensures Standing(Finished(l, i, error))
  {
    assert Current(l, i) && !Done(l.jobs[i]);
    hide EndSpan, Tables, Current, Standing;
    RetireStands(l, Finished(l, i, error), i);
  }

  lemma {:induction false} DeleteStands(l: Loop, name: string)
    requires Tables(l) && Standing(l)
    ensures Standing(Removed(l, name))
  {
    if name in l.events {
      assert Current(l, l.events[name]);
      RetireStands(l, Removed(l, name), l.events[name]);
    }
  }

  ghost predicate NamesHold(l: Loop) {
    forall name | name in l.events :: l.events[name] < |l.jobs| && l.jobs[l.events[name]].name == name
  }

  lemma {:induction false} RetiredJob(l: Loop, j: nat)
    requires NamesHold(l) && j < |l.jobs|
    ensures var l', name := AllRetired(l), l.jobs[j].name;
      && |l'.jobs| == |l.jobs| && l'.jobs[j].name == name
      && (Done(l'.jobs[j]) ==> Done(l.jobs[j]) || (name !in l'.events && name in l'.finished && l'.finished[name] == j))
      && (name !in l.events ==> name !in l'.events && (name in l.finished ==> name in l'.finished && l'.finished[name] == l.finished[name]))
  {
  }

  lemma {:induction false} StopJob(l: Loop, j: nat)
    requires NamesHold(l) && j < |l.jobs|
    ensures var l', name := Halted(l), l.jobs[j].name;
      && |l'.jobs| == |l.jobs| && l'.jobs[j].name == name
      && (Done(l'.jobs[j]) ==> Done(l.jobs[j]) || (name !in l'.events && name in l'.finished && l'.finished[name] == j))
      && (name !in l.events ==> name !in l'.events && (name in l.finished ==> name in l'.finished && l'.finished[name] == l.finished[name]))
  {
    hide AllRetired, Done;
    RetiredJob(l, j);
  }

  lemma {:induction false} StopStands(l: Loop)
    requires Tables(l) && Standing(l)
    ensures Standing(Halted(l))
  {
    assert NamesHold(l);
    hide Tables, NamesHold;
    var l' := Halted(l);
    forall j: nat | j < |l.jobs| ensures |l'.jobs| == |l.jobs| && l'.jobs[j].name == l.jobs[j].name {
      StopJob(l, j);
    }
    assert |l'.jobs| == |l.jobs|;
    hide Halted;
    forall j: nat | Newest(l', j) && Done(l'.jobs[j])
      ensures l'.jobs[j].name !in l'.events && l'.jobs[j].name in l'.finished && l'.finished[l'.jobs[j].name] == j
    {
      StopJob(l, j);
      assert Newest(l, j);
    }
  }

  lemma {:induction false} DispatchStands(l: Loop, deadline: Time)
    requires Standing(l)
    ensures Standing(Next(l, Dispatch(deadline)))
  {
    hide Standing, Idle;
    SameStands(l, Next(l, Dispatch(deadline)));
  }

  lemma {:induction false} NextStands(l: Loop, a: Action)
    requires LoopInv(l) && Enabled(l, a) && Standing(l)
    ensures Standing(Next(l, a))
  {
    assert Tables(l) by { hide JobInv, NoLostWake; }
    hide LoopInv, IsDeadline, Tables, Finished, Halted, Removed, Registered, Registrable, Standing, Dispatched, Enabled;
    assert a.Finish? ==> a.job < |l.jobs| && l.jobs[a.job].running by { FinishEnabled(l, a); }
    match a
    case Finish(i, error) => FinishStands(l, i, error);
    case Stop => StopStands(l);
    case Delete(name) => DeleteStands(l, name);
    case Register(name, interval, count) =>
      if Registrable(l, name, interval, count) {
        RegisterStands(l, name, interval, count);
      }
    case Dispatch(deadline) => DispatchStands(l, deadline);
    case _ => SameStands(l, Next(l, a));
  }

  lemma {:induction false} FinishEnabled(l: Loop, a: Action)
    requires Enabled(l, a)
    ensures a.Finish? ==> a.job < |l.jobs| && l.jobs[a.job].running
  {
  }

  lemma {:induction false} RegisterStands(l: Loop, name: string, interval: Time, count: int)
    requires Standing(l) && Registrable(l, name, interval, count)
    ensures Standing(Registered(l, name, interval, count))
  {
    hide Registrable;
    var l' := Registered(l, name, interval, count);
    forall i: nat | Newest(l', i) && Done(l'.jobs[i])
      ensures l'.jobs[i].name !in l'.events && l'.jobs[i].name in l'.finished && l'.finished[l'.jobs[i].name] == i
    {
      assert i < |l.jobs| && l'.jobs[|l.jobs|].name == name;
      assert forall j: nat | j < |l.jobs| :: l'.jobs[j] == l.jobs[j];
      assert Newest(l, i);
    }
  }

  lemma {:induction false} SameStands(l: Loop, l': Loop)
    requires Standing(l) && |l'.jobs| == |l.jobs| && l'.events == l.events && l'.finished == l.finished
    requires forall j: nat | j < |l.jobs| :: l'.jobs[j].name == l.jobs[j].name && Done(l'.jobs[j]) == Done(l.jobs[j])
    ensures Standing(l')
  {
    forall i: nat | Newest(l', i) && Done(l'.jobs[i])
      ensures l'.jobs[i].name !in l'.events && l'.jobs[i].name in l'.finished && l'.finished[l'.jobs[i].name] == i
    {
      assert Newest(l, i);
    }
  }

  /** In every interleaving the newest registration of a name is the one found under it: active, or finished. */
  lemma {:induction false} NameStandsForNewest(now: Time, actions: seq<Action>, i: nat)
    requires Possible(Initial(now), actions)
    ensures var l := After(Initial(now), actions);
      Standing(l) && (Newest(l, i) ==> if Done(l.jobs[i]) then l.jobs[i].name in l.finished && l.finished[l.jobs[i].name] == i else Current(l, i))
    decreases |actions|
  {
    hide LoopInv, Enabled, Next, Newest, Current, Standing;
    InitialInv(now);
    AlwaysInv(Initial(now), actions);
    if actions == [] {
      assert Standing(Initial(now)) by { NobodyStands(now); }
    } else {
      var n := |actions| - 1;
      NameStandsForNewest(now, actions[..n], i);
      AlwaysInv(Initial(now), actions[..n]);
      NextStands(After(Initial(now), actions[..n]), actions[n]);
    }
    StandsFor(After(Initial(now), actions), i);
  }

  lemma {:induction false} NobodyStands(now: Time)
    ensures Standing(Initial(now))
  {
  }

  lemma {:induction false} StandsFor(l: Loop, i: nat)
    requires LoopInv(l) && Standing(l)
    ensures Newest(l, i) ==> if Done(l.jobs[i]) then l.jobs[i].name in l.finished && l.finished[l.jobs[i].name] == i else Current(l, i)
  {
    hide JobInv, Ready, Phases, Epochs, NoLostWake;
  }

  /**
    A dispatch of a running loop starts every registered job that is due and not running, deleted or used
    up, now; it leaves every other job alone.
   */
  lemma {:induction false} DueJobsStart(l: Loop, deadline: Time, i: nat)
    requires LoopInv(l) && Enabled(l, Dispatch(deadline)) && l.status == On && i < |l.jobs|
    ensures var t, t' := l.jobs[i], Next(l, Dispatch(deadline)).jobs[i];
      if !Done(t) && !t.running && !t.deleting && t.remaining != 0 && t.nextRun <= l.now
      then t'.running && t'.spans == t.spans + [Span(l.now, None)] && t'.nextRun == l.now + t.interval
      else t' == t
  {
    hide JobInv, Ready, Phases, Epochs, NoLostWake, IsDeadline;
  }

  /** Deleting a registered name marks its job; a job that does not run is finished at once, as deleted. */
  lemma {:induction false} DeleteActs(l: Loop, name: string)
    requires LoopInv(l) && name in l.events
    ensures var i := l.events[name];
      i < |l.jobs| && var t := Next(l, Delete(name)).jobs[i];
        && t.deleting && t.running == l.jobs[i].running && (!t.running ==> Done(t) && t.result == Some(Deleted))
  {
    hide JobInv, Ready, Phases, Epochs, NoLostWake;
  }

  /** Stopping a loop that runs or is off finishes every registered job that does not run, as stopped. */
  lemma {:induction false} StopActs(l: Loop, i: nat)
    requires LoopInv(l) && i < |l.jobs| && !Done(l.jobs[i]) && l.status != Stopping
    ensures var l' := Next(l, Stop);
      && (l.status == On ==> l'.status == Stopping) && |l'.jobs| == |l.jobs|
      && if l.jobs[i].running then l'.jobs[i] == l.jobs[i] else Done(l'.jobs[i]) && l'.jobs[i].result == Some(Outcome.Stopped)
  {
    hide JobInv, Ready, Phases, Epochs, NoLostWake;
  }

  /** A registration that is accepted becomes the one its name stands for, due after its interval. */
  lemma {:induction false} RegisterActs(l: Loop, name: string, interval: Time, count: int)
    requires Registrable(l, name, interval, count)
    ensures var l', i := Next(l, Register(name, interval, count)), |l.jobs|;
      && |l'.jobs| == i + 1 && Current(l', i) && Newest(l', i)
      && var t := l'.jobs[i];
         && t.name == name && t.nextRun == l.now + interval && t.interval == interval && t.remaining == count && t.count == count
         && !t.running && !t.deleting && !Done(t) && t.result.None? && t.spans == []
  {
    hide Registrable;
  }
}
