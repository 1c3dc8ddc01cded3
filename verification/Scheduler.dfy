/**
  The scheduler object: each method is one critical section of the event loop, with the loops it runs
  over its table, and takes exactly the corresponding step of the interleaved machine.
 */
module Scheduler {
  import opened Prelude
  import opened EventLoop

  datatype RegisterError = NoError | NameRequired | FunctionRequired | IntervalInvalid | CountInvalid | LoopStopping | AlreadyExist

  // What Wait finds: no registration, one that is not finished, or the outcome of one that is.
  datatype Report = NotFound | Unfinished | Reported(outcome: Outcome)

  class EventScheduler {
    var now: Time
    var jobs: seq<Job>
    var events: map<string, nat>
    var finished: map<string, nat>
    var wake: bool
    var callers: nat
    var workers: nat
    var status: Status
    var place: Place
    var epoch: nat
    var closed: set<nat>

    ghost function State(): Loop
      reads this
    {
      Loop(now, jobs, events, finished, wake, callers, workers, status, place, epoch, closed)
    }

    ghost predicate Valid()
      reads this
    {
      LoopInv(State())
    }

    constructor (now: Time)
      ensures Valid() && State() == Initial(now)
    {
      this.now, jobs, events, finished, wake, callers, workers := now, [], map[], map[], false, 0, 0;
      status, place, epoch, closed := Off, Nowhere, 0, {};
      new;
      EventLoop.InitialInv(now);
    }

    /** RegisterEvent: callable says whether a function was given */
    method RegisterEvent(name: string, callable: bool, interval: Time, count: int) returns (error: RegisterError)
      requires Valid()
      modifies this
      ensures Valid() && State() == if callable then Next(old(State()), Register(name, interval, count)) else old(State())
      ensures error == NoError <==> callable && Registrable(old(State()), name, interval, count)
      ensures error == NameRequired <==> Blank(name)
      ensures error == FunctionRequired <==> !Blank(name) && !callable
      ensures error == IntervalInvalid <==> !Blank(name) && callable && interval <= 0
      ensures error == CountInvalid <==> !Blank(name) && callable && interval > 0 && (count == 0 || count < -1)
      ensures error in {LoopStopping, AlreadyExist} ==> !Blank(name) && callable && interval > 0 && (count == -1 || count > 0)
      ensures error == LoopStopping ==> old(status) == Stopping
      ensures error == AlreadyExist ==> old(status) != Stopping && name in old(events)
    {
      hide LoopInv, Blank;
      NextInv(State(), Register(name, interval, count));
      if Blank(name) {
        return NameRequired;
      }
      if !callable {
        return FunctionRequired;
      }
      if interval <= 0 {
        return IntervalInvalid;
      }
      if count == 0 || count < -1 {
        return CountInvalid;
      }
      if status == Stopping {
        return LoopStopping;
      }
      if name in events {
        return AlreadyExist;
      }
      finished := finished - {name};
      events := events[name := |jobs|];
      jobs := jobs + [Job(name, now + interval, interval, count, false, false, 0, None, now, count, [], 0)];
      callers := callers + 1;
      return NoError;
    }

    /** Start, up to the first dispatch */
    method Start() returns (started: bool)
      requires Valid()
      modifies this
      ensures Valid() && started == (old(status) == Off)
      ensures State() == if started then Next(old(State()), Action.Start) else old(State())
    {
      hide LoopInv;
      started := status == Off;
      if started {
        NextInv(State(), Action.Start);
        wake := false;
        status := On;
        epoch := epoch + 1;
        place := Dispatching;
      }
    }

    /** dispatchDue: starts every due job and finds when to look again */
    method DispatchDue() returns (deadline: Time, stopped: bool)
      requires Valid() && place == Dispatching
      modifies this
      ensures Valid() && stopped == (old(status) != On)
      ensures !stopped ==> IsDeadline(old(State()), deadline)
      ensures State() == Next(old(State()), Dispatch(deadline))
    {
      hide LoopInv, Tables, Dispatches, Began, IsDeadline;
      ghost var before := State();
      deadline, stopped := now + HOUR, status != On;
      if stopped {
        place := Draining;
        NextInv(before, Dispatch(deadline));
        return;
      }
      TablesHold(before);
      VisitNone(before);
      var rest := events.Keys;
      while rest != {}
        invariant rest <= before.events.Keys && State() == before.(jobs := jobs)
        invariant Dispatches(before, rest, jobs, deadline)
        decreases |rest|
      {
        var name :| name in rest;
        VisitIndex(before, rest, jobs, deadline, name);
        var t := jobs[events[name]];
        VisitStep(before, rest, jobs, deadline, name);
        if t.deleting || t.remaining == 0 || t.running {
        } else if now < t.nextRun {
          if t.nextRun < deadline {
            deadline := t.nextRun;
          }
        } else {
          jobs := jobs[events[name] := Began(t, now, epoch)];
        }
        rest := rest - {name};
      }
      place := Waiting(deadline);
      VisitAll(before, jobs, deadline);
      NextInv(before, Dispatch(deadline));
    }

    /** The critical section of execute: the job has returned */
    method FinishJob(i: nat, error: bool)
      requires Valid() && i < |jobs| && jobs[i].running
      modifies this
      ensures Valid() && State() == Next(old(State()), Finish(i, error))
    {
      hide LoopInv, EndSpan;
      NextInv(State(), Finish(i, error));
      var t := jobs[i];
      jobs := jobs[i := t.(running := false, result := Some(Returned(error)), spans := EndSpan(t.spans, now))];
      workers := workers + 1;
      if t.deleting || t.remaining == 0 || status != On {
        var result := if t.deleting then Deleted else if status != On then Outcome.Stopped else Returned(error);
        jobs := jobs[i := Retired(jobs[i], result)];
        events := events - {t.name};
        finished := finished[t.name := i];
      }
    }

    // Retires every job that is not running.
    method RetireIdle()
      requires Tables(State())
      modifies this
      ensures State() == AllRetired(old(State())) && status == old(status) && callers == old(callers)
    {
      hide Retired, Tables, AllRetired, Sweeps;
      ghost var before := State();
      var rest := events.Keys;
      SweepNone(before);
      while rest != {}
        invariant rest <= before.events.Keys
        invariant State() == before.(jobs := jobs, events := events, finished := finished)
        invariant Sweeps(before, rest, jobs, events, finished)
        decreases |rest|
      {
        var name :| name in rest;
        SweepIndex(before, rest, jobs, events, finished, name);
        var i := events[name];
        SweepStep(before, rest, jobs, events, finished, name);
        if !jobs[i].running {
          jobs := jobs[i := Retired(jobs[i], Outcome.Stopped)];
          events := events - {name};
          finished := finished[name := i];
        }
        rest := rest - {name};
      }
      SweepAll(before, jobs, events, finished);
    }

    /** Stop, up to waiting for the loop to drain */
    method Stop()
      requires Valid()
      modifies this
      ensures Valid() && State() == Next(old(State()), Action.Stop)
    {
      hide LoopInv, Tables, AllRetired;
      NextInv(State(), Action.Stop);
      TablesHold(State());
      if status != Stopping {
        RetireIdle();
      }
      if status != Off {
        callers := callers + 1;
        status := Stopping;
      }
    }

    /** DelEvent */
    method DelEvent(name: string) returns (found: bool)
      requires Valid()
      modifies this
      ensures Valid() && State() == Next(old(State()), Delete(name))
      ensures found <==> name in old(events)
    {
      hide LoopInv, Tables;
      ghost var before := State();
      NextInv(before, Delete(name));
      found := name in events;
      if found {
        assert events[name] < |jobs| && jobs[events[name]].name == name by { EventIndex(before, name); }
        var i := events[name];
        jobs := jobs[i := jobs[i].(deleting := true)];
        callers := callers + 1;
        if !jobs[i].running {
          jobs := jobs[i := Retired(jobs[i], Deleted)];
          events := events - {name};
          finished := finished[name := i];
        }
      }
    }

    /** Wait, once it no longer blocks: the registration is looked up among the active, then the finished ones */
    method Wait(name: string) returns (report: Report)
      requires Valid()
      ensures report == NotFound <==> name !in events && name !in finished
      ensures report == Unfinished <==> name in events
      ensures report.Reported? ==> exists i: nat :: i < |jobs| && jobs[i].name == name && Done(jobs[i]) && jobs[i].result == Some(report.outcome)
      ensures Standing(State()) ==> forall i: nat | Newest(State(), i) && jobs[i].name == name ::
        if Done(jobs[i]) then jobs[i].result.Some? && report == Reported(jobs[i].result.value) else report == Unfinished
    {
      forall i: nat | Standing(State()) && Newest(State(), i)
        ensures if Done(jobs[i]) then jobs[i].name !in events && jobs[i].name in finished && finished[jobs[i].name] == i else Current(State(), i)
      {
        hide LoopInv;
        StandsFor(State(), i);
      }
      hide JobInv, Ready, Phases, Epochs, NoLostWake;
      if name in events {
        return Unfinished;
      }
      if name !in finished {
        return NotFound;
      }
      return Reported(jobs[finished[name]].result.value);
    }

    /** signalWake: the one-slot channel keeps at most one token */
    method SignalWake(worker: bool)
      requires Valid() && if worker then workers > 0 else callers > 0
      modifies this
      ensures Valid() && State() == Next(old(State()), if worker then WorkerSignal else CallerSignal)
    {
      hide LoopInv;
      NextInv(State(), if worker then WorkerSignal else CallerSignal);
      if worker {
        workers := workers - 1;
      } else {
        callers := callers - 1;
      }
      wake := true;
    }
  }

  // ---------------------------------------------------------------------------------------------
  // Iterating over the table in any order
  // ---------------------------------------------------------------------------------------------

  // The jobs and the deadline during dispatchDue, with the names of `rest` still to be visited.
  ghost predicate Dispatches(l: Loop, rest: set<string>, jobs: seq<Job>, deadline: Time) {
    && |jobs| == |l.jobs|
    && (forall i: nat | i < |jobs| ::
          jobs[i] == if Idle(l, i) && l.jobs[i].nextRun <= l.now && l.jobs[i].name !in rest
                      then Began(l.jobs[i], l.now, l.epoch) else l.jobs[i])
    && EarliestSoFar(l, rest, deadline)
  }

  lemma VisitNone(l: Loop)
    ensures Dispatches(l, l.events.Keys, l.jobs, l.now + HOUR)
  {
    assert forall i: nat | Idle(l, i) :: l.jobs[i].name in l.events.Keys;
  }

  lemma VisitIndex(l: Loop, rest: set<string>, jobs: seq<Job>, deadline: Time, name: string)
    requires Tables(l) && Dispatches(l, rest, jobs, deadline) && name in rest && name in l.events
    ensures l.events[name] < |jobs| && jobs[l.events[name]] == l.jobs[l.events[name]]
  {
  }

  lemma VisitStep(l: Loop, rest: set<string>, jobs: seq<Job>, deadline: Time, name: string)
    requires Tables(l) && Dispatches(l, rest, jobs, deadline) && name in rest && name in l.events
    requires l.events[name] < |jobs|
    ensures var i := l.events[name];
      var t := l.jobs[i];
      if t.deleting || t.remaining == 0 || t.running then Dispatches(l, rest - {name}, jobs, deadline)
      else if l.now < t.nextRun then
        Dispatches(l, rest - {name}, jobs, if t.nextRun < deadline then t.nextRun else deadline)
      else Dispatches(l, rest - {name}, jobs[i := Began(t, l.now, l.epoch)], deadline)
  {
    hide Began, EarliestSoFar;
    var i := l.events[name];
    assert l.jobs[i].name == name && Current(l, i);
    forall j: nat | j < |l.jobs| && Current(l, j) && j != i ensures l.jobs[j].name != name {
      OtherName(l, i, j);
    }
    hide Tables;
    if Later(l, i) {
      EarlierStep(l, rest, name, deadline);
    } else {
      KeepEarliest(l, rest, name, deadline);
    }
  }

  lemma VisitAll(l: Loop, jobs: seq<Job>, deadline: Time)
    requires Dispatches(l, {}, jobs, deadline)
    ensures jobs == Dispatched(l) && IsDeadline(l, deadline)
  {
    hide Began, EarliestSoFar, IsDeadline;
    EarliestOfAll(l, deadline);
  }

  lemma TablesHold(l: Loop)
    requires LoopInv(l)
    ensures Tables(l)
  {
  }

  lemma EventIndex(l: Loop, name: string)
    requires LoopInv(l) && name in l.events
    ensures l.events[name] < |l.jobs| && l.jobs[l.events[name]].name == name
  {
  }

  // The tables during Stop, with the names of `rest` still to be visited.
  ghost predicate Sweeps(l: Loop, rest: set<string>, jobs: seq<Job>, events: map<string, nat>, finished: map<string, nat>) {
    && |jobs| == |l.jobs|
    && (forall i: nat | i < |jobs| ::
          jobs[i] == if Current(l, i) && !l.jobs[i].running && l.jobs[i].name !in rest
                      then Retired(l.jobs[i], Outcome.Stopped) else l.jobs[i])
    && (forall name :: name in events <==> name in l.events && (name in rest || Busy(l, name)))
    && (forall name | name in events :: events[name] == l.events[name])
    && (forall name :: name in finished <==> name in l.finished || (name in l.events && name !in rest && !Busy(l, name)))
    && (forall name | name in finished ::
          finished[name] == if name in l.events && name !in rest && !Busy(l, name) then l.events[name] else l.finished[name])
  }

  // The job of the name is running.
  ghost predicate Busy(l: Loop, name: string) {
    name in l.events && (l.events[name] < |l.jobs| ==> l.jobs[l.events[name]].running)
  }

  lemma SweepNone(l: Loop)
    ensures Sweeps(l, l.events.Keys, l.jobs, l.events, l.finished)
  {
    assert forall i: nat | Current(l, i) :: l.jobs[i].name in l.events.Keys;
  }

  lemma SweepIndex(l: Loop, rest: set<string>, jobs: seq<Job>, events: map<string, nat>, finished: map<string, nat>, name: string)
    requires Tables(l) && Sweeps(l, rest, jobs, events, finished) && name in rest && name in l.events
    ensures name in events && events[name] == l.events[name] < |jobs|
    ensures jobs[events[name]] == l.jobs[l.events[name]] && l.jobs[l.events[name]].name == name
  {
    assert Current(l, l.events[name]);
  }

  lemma SweepStep(l: Loop, rest: set<string>, jobs: seq<Job>, events: map<string, nat>, finished: map<string, nat>, name: string)
    requires Tables(l) && Sweeps(l, rest, jobs, events, finished) && name in rest && name in l.events && l.events[name] < |jobs|
    ensures var i := l.events[name];
      if l.jobs[i].running then Sweeps(l, rest - {name}, jobs, events, finished)
      else Sweeps(l, rest - {name}, jobs[i := Retired(l.jobs[i], Outcome.Stopped)], events - {name}, finished[name := i])
  {
    hide Retired;
    var i, left := l.events[name], rest - {name};
    assert Current(l, i) && (Busy(l, name) <==> l.jobs[i].running);
    forall j: nat | j < |l.jobs| && Current(l, j) && j != i ensures l.jobs[j].name != name {
      OtherName(l, i, j);
    }
  }

  lemma SweptJobs(l: Loop, jobs: seq<Job>, events: map<string, nat>, finished: map<string, nat>)
    requires Sweeps(l, {}, jobs, events, finished)
    ensures jobs == AllRetired(l).jobs
  {
    hide Retired;
  }

  lemma SweptEvents(l: Loop, jobs: seq<Job>, events: map<string, nat>, finished: map<string, nat>)
    requires Tables(l) && Sweeps(l, {}, jobs, events, finished)
    ensures events == AllRetired(l).events
  {
    hide Retired;
    assert forall name :: name in events <==> name in AllRetired(l).events;
  }

  lemma SweptFinished(l: Loop, jobs: seq<Job>, events: map<string, nat>, finished: map<string, nat>)
    requires Tables(l) && Sweeps(l, {}, jobs, events, finished)
    ensures finished == AllRetired(l).finished
  {
    hide Retired;
    var all := AllRetired(l).finished;
    assert forall name | name in l.events :: (Busy(l, name) <==> l.jobs[l.events[name]].running) && l.events[name] < |l.jobs|;
    assert forall name :: name in finished <==> name in all;
    assert forall name | name in all :: finished[name] == all[name];
  }

  // Everything a visit of the whole table needs.
  lemma SweepAll(l: Loop, jobs: seq<Job>, events: map<string, nat>, finished: map<string, nat>)
    requires Tables(l) && Sweeps(l, {}, jobs, events, finished)
    ensures l.(jobs := jobs, events := events, finished := finished) == AllRetired(l)
  {
    SweptJobs(l, jobs, events, finished);
    SweptEvents(l, jobs, events, finished);
    SweptFinished(l, jobs, events, finished);
  }

  ghost predicate Later(l: Loop, i: nat) {
    Idle(l, i) && l.now < l.jobs[i].nextRun
  }

  ghost predicate EarliestSoFar(l: Loop, rest: set<string>, deadline: Time) {
    && deadline <= l.now + HOUR
    && (forall i: nat | Later(l, i) && l.jobs[i].name !in rest :: deadline <= l.jobs[i].nextRun)
    && (deadline == l.now + HOUR || exists i: nat :: Later(l, i) && deadline == l.jobs[i].nextRun)
  }

  lemma OtherName(l: Loop, i: nat, j: nat)
    requires Tables(l) && Current(l, i) && j < |l.jobs| && i != j && Current(l, j)
    ensures l.jobs[j].name != l.jobs[i].name
  {
  }

  lemma KeepEarliest(l: Loop, rest: set<string>, name: string, deadline: Time)
    requires EarliestSoFar(l, rest, deadline) && name in l.events && !Later(l, l.events[name])
    ensures EarliestSoFar(l, rest - {name}, deadline)
  {
  }

  lemma EarlierStep(l: Loop, rest: set<string>, name: string, deadline: Time)
    requires EarliestSoFar(l, rest, deadline) && name in l.events && Later(l, l.events[name])
    ensures var i := l.events[name];
      EarliestSoFar(l, rest - {name}, if l.jobs[i].nextRun < deadline then l.jobs[i].nextRun else deadline)
  {
  }

  lemma EarliestOfAll(l: Loop, deadline: Time)
    requires EarliestSoFar(l, {}, deadline)
    ensures IsDeadline(l, deadline)
  {
    forall i: nat | Idle(l, i) && l.now < l.jobs[i].nextRun ensures deadline <= l.jobs[i].nextRun {
      assert Later(l, i);
    }
    if deadline != l.now + HOUR {
      var i: nat :| Later(l, i) && deadline == l.jobs[i].nextRun;
      assert Idle(l, i);
    }
  }
}
