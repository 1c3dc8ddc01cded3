# A verified model of the Agent Server runtime

The Go `agent_server` runs trading Agents: a Session is woken by one-shot Events, each wake-up becomes a
Run, and a Run asks a model what to do, executes tools and ends. This project models that runtime and
proves what its comments and tests promise, over every run, rollback and crash.

## The parts

**Sessions, Runs, Events and triggers** (`Tables`, `Transactions`, `Statements`, `World`, `Runtime`). The
database is a value; a transaction works on a candidate that replaces the committed value or is dropped.
`World.Step` is the state machine: every critical section is one action with the fate of its transaction
(committed, rolled back with the fault latched, rolled back by cancellation, with the shards that the
rollback could not restore), and `Reopen` is a crash at any point followed by repair and recovery. `Runtime.AgentRuntime` is the object with its fields; each of
its methods runs the source's loops and is proved to take exactly that step. `Invariants`, `Preservation`,
`Safety`, `Rounds` and `Restarts` show that every action keeps the invariants; `Behaviours` states the
results over all sequences of actions, and `Damage` what rollbacks that cannot restore a shard do to them.
`Effects` and `ClaimLaws` say what each committed action does write, row by row.

**History shards** (`History`, `Staging`, `Reading`). The shard files mirror a view of the database. They
are written before the commit, undone in reverse when it fails, and repaired after a crash. Every I/O
operation may fail, undoing included.

**Conversations** (`Messages`, `Completion`, `SemanticStorage`, `SemanticLaws`, `StoredEvidence`,
`StoredTalk`, `Compaction`, `FoldedHistory`, `Projection`). The list transformations that store, repair and shrink a conversation, with
their loops, and the laws that relate them.

**The agent loop** (`Trace`, `Journal`, `AgentLoop`, `CrashSafety`). `RunLoop.Run` is the loop of one Run
against arbitrary oracles for the model, the tools and persistence. The journal records its durable writes
and tool executions in order; `CrashSafety` says what a crash at any point of it leaves for the next Run,
in both storage modes.

**The scheduler** (`EventLoop`, `Scheduler`). The background loop as interleaved steps of its goroutines,
and the object whose methods are its critical sections.

**Monitoring and matching** (`Usage`, `ToolStats`, `Monitoring`, `Matchers`, `EventTime`).

## Findings

- `semanticConversation` is documented as idempotent. It is not: two neighbouring failures of a read tool
  whose messages differ only after 300 characters are folded by a second pass, because the fold compares
  full messages while the stored digest is truncated (`SemanticLaws.NotIdempotent`). The exact condition
  is `SemanticLaws.IdempotentIff`; storage is always stable after two passes.
- Semantic storage, the default, can turn a mutation that may have been executed into a refusal.
  `failureKey` ignores the outcome and the arguments (agent/conversation.go:251-266), and `backendToolRequest`
  reports a deadline with one code and message, as `not_executed` before the request is sent and as
  `unknown` after (agent/trading_tools.go:84, agent/trading_tools.go:108). An order that was not sent followed by
  one that may have been is stored as two refusals of the first (`StoredEvidence.FalseRefusal`,
  `CrashSafety.FalseRefusalAfterCrash`). Storage tells the outcome of every mutation exactly when no two
  neighbouring lone failures of one mutation share their error and differ in their outcome
  (`StoredEvidence.ReportsTrueIff`, `CrashSafety.CrashReportsIff`).
- For the same reason the second of two neighbouring orders that may both have been executed loses its call,
  whatever it was for (`StoredEvidence.SecondOrderIsLost`). Storage keeps the call and result of every
  mutation that succeeded or may have exactly when no such failure is absorbed
  (`StoredEvidence.EvidenceKeptIff`).
- A rollback can leave an open server with a shard that contradicts the database. A staged shard whose
  restoration fails keeps its uncommitted content (`Staging.Stage.Finish`); when the rollback was caused by a
  canceled context, `roundFailureLocked` and `mutationFailureLocked` drop that error with the cancellation
  (agent/events.go:231-240, agent/events.go:371-379, agent/runtime.go:481-486). `Damage.CanceledDeletion` shows it
  for every Event of an ended Run, `Damage.OpenAndStale` gives a run of the server that gets there, and
  `Damage.AbortMirrorsIff` says exactly which aborts do it. Shards that no rollback left behind are always
  mirrored (`Behaviours.HistoryMirrors`), and a restart repairs the others.
- `compactConversation` keeps the protocol because every Run has a wake-up message. Without one, it treats
  the second message as the wake-up and may cut that message's results off
  (`Compaction.UngroundedProtocol` says exactly when, `Compaction.UngroundedBreaks` is such a conversation).
  No Run reaches this: each appends its wake-up.
- `foldMessages` looks results up by call id, and nothing checks that the model's ids are new. When an id is
  used again, the last result under it stands for every call (`Compaction.ReusedId`); a mutation leaves its
  own line exactly when that result tells the same (`Compaction.OwnLineIff`).

## How the source is read

- Ids are opaque numbers; Event ids are random in the source and never reused. Time
  is a whole number of nanoseconds. Prices are reals.
- JSON documents are datatypes. A failure key is a triple rather than a joined text. `Success` carries its
  compacted rendering; the two depths at which the source compacts a result are not distinguished. Texts
  of interruption and refusal results are abbreviated.
- A commit and a rename are atomic. `arrived`, `taken` and the journal are history variables: nothing
  reads them to decide.
- `damaged` in the state machine only observes: the shards that a rollback could not restore and that no
  commit or restart has rewritten since.
- A stored repeat count is at least two, as `addRepeat` writes it.
- A reader of a stored conversation is taken to read a failure with a count as having happened that often
  (`StoredEvidence.Reports`).
- `Runtime.AgentRuntime.FinishActive` is called once a Run is over, canceled, or persistence has failed,
  which is how `AgentLoop.RunLoop.Run` stops.
- In `SemanticLaws`, `Storable` asks that results follow their calls (`Rereadable`, implied by
  `Contiguous`), that one call id names one tool, and that a read failure carrying a repeat count is
  already truncated, as this code leaves it.

## Model

| member | source | states |
|---|---|---|
| `Matchers.CrossRefinesHistory` | agent_server/internal/events/price.go:71-97 | Over any sample sequence the one-sample crossing matcher fires exactly at the first sample that completes a crossing of the level by two consecutive strictly newer samples; until then it remembers the latest news. |
| `Matchers.PositionRefinesHistory` | agent_server/internal/events/position.go:82-127 | position_close fires exactly at the first successful snapshot that misses a position an earlier snapshot contained. |
| `Matchers.PriceVerdict` | agent_server/internal/events/price.go:52-120 | A price Event fires on a sample exactly when the condition of its kind holds, with those facts; only a crossing remembers a sample, and only a newer one. |
| `Matchers.PositionVerdict` | agent_server/internal/events/position.go:82-127 | A position Event fires exactly when the position it remembers is no longer reported, with its identity and the reason, if known. |
| `EventTime.TextOrderIsTimeOrder` | agent_server/internal/events/events.go:25-28 | For valid UTC times of years 0 to 9999 the fixed-width text sorts before another exactly when the instant (Gregorian day count and clock) is earlier. |
| `EventTime.TrimmedOrderIsWrong` | agent_server/internal/events/events.go:25-27 | The trimmed layout orders a whole second after its own first half: the fixed width is needed. |
| `Tables.TakeFirst` | agent_server/internal/agent/pending_triggers.go:31-51 | Reading the first n queued rows of a Session and deleting them by id removes exactly those rows; every other queue is untouched. |
| `Statements.RemoveRecordTx` | agent_server/internal/events/events.go:418-441 | Succeeds exactly when one active row has the id; then that row is gone and its snapshot ends the log. |
| `Statements.ClaimedOnce` | agent_server/internal/events/events.go:420-431 | An active Event is exactly one row, so claiming it is never refused. |
| `Statements.FireEventTx` | agent_server/internal/events/events.go:529-545 | Firing moves the row to the log and enqueues its trigger in one step. |
| `Statements.ClaimTx` | agent_server/internal/events/events.go:480-527 | The claim loop with appendUnique computes the claim function, never refuses an active row, and keeps the database invariant. |
| `Statements.RemoveAllTx` | agent_server/internal/events/events.go:466-478 | The expiry and clearance loops remove every listed row and cannot fail half-way. |
| `Statements.StartPendingRunTx` | agent_server/internal/agent/pending_triggers.go:19-55 | Launches exactly for a running Session with a queue; at most ten triggers, oldest first, move to the new Run. |
| `Statements.AdmitTx` | agent_server/internal/agent/events.go:327-346 | The admission loop computes the admission function over the fired Sessions. |
| `Statements.RecoverTx` | agent_server/internal/agent/recovery.go:84-119 | The recovery loop inserts the next Run of each listed Session. |
| `Statements.TargetsSince` | agent_server/internal/history/staging.go:198-226 | The loop names exactly the shards of the creating and resolving Runs of the rows logged since. |
| `Statements.TargetsOf` | agent_server/internal/history/staging.go:89-104 | The loop names exactly the shards of the positive Run ids, each once per range. |
| `Statements.RelatedRunIDs` | agent_server/internal/history/staging.go:50-86 | The Run, the creators of the Events it resolved, and the creators of the Events that started it. |
| `Statements.ClearanceRunIDs` | agent_server/internal/history/history.go:97-114 | The current Run, and the creators of every cleared Event and drained trigger. |
| `Invariants.StartPendingInv` | agent_server/internal/agent/pending_triggers.go:23-55 | The next batch of an idle running Session becomes a Run and every database invariant is kept. |
| `Invariants.FireInv` | agent_server/internal/events/events.go:529-545 | Firing an unexpired (and, for a timer, due) Event keeps every database invariant, conservation included. |
| `Preservation.ClaimInv` | agent_server/internal/events/events.go:480-527 | A claim keeps the invariant, reports no Session twice, reports every Session whose queue it extends, and forgets no Event. |
| `Preservation.ClearSessionInv` | agent_server/internal/events/events.go:443-463 | Clearing leaves the Session no Event and no queued trigger, records the drained batch, and touches no other queue. |
| `Preservation.AdmitInv` | agent_server/internal/agent/events.go:327-346 | Admission launches exactly the fired Sessions that are idle and have something queued, each once, with the next Run id. |
| `Preservation.ChangeStateInv` | agent_server/internal/agent/session.go:95-176 | A stopped or deleted Session has no running Run, no Event and no queued trigger. |
| `Preservation.StopRemembers` | agent_server/internal/agent/session.go:116-176 | A stop saves exactly what it cleared and drained and the state the last Run was left in; nothing only after a clean completed Run; a repeated stop keeps what was saved. |
| `Preservation.RecoverInv` | agent_server/internal/agent/recovery.go:84-119 | After every running Run was interrupted, recovery starts exactly one Run per listed Session. |
| `History.RangePartitions` | agent_server/internal/history/history.go:71-75 | Every Run id lies in exactly one shard range, the one Range computes. |
| `History.StagingAgrees` | agent_server/internal/history/staging.go:115-188 | Staging the shards whose view a transaction changes keeps every undamaged shard equal to the projection of the database, and repairs the ones it writes. |
| `History.AbortAgreesIff` | agent_server/internal/history/staging.go:228-251 | After an abort files that agreed still do, if and only if every shard that was written and not restored looks the same to the aborted candidate, or records no ended Run. |
| `Staging.UndoneWrite` | agent_server/internal/history/staging.go:169-187 | Undoing a write that was just made gives back the files there were before it, unless the shard is stuck; then it keeps what was written. |
| `Staging.Deduplicate` | agent_server/internal/history/staging.go:126-134 | Exactly the valid targets, each once. |
| `Staging.ProjectAll` | agent_server/internal/history/staging.go:141-162 | A projection for exactly the targets with something to record, computed from the candidate. |
| `Staging.WriteAll` | agent_server/internal/history/staging.go:167-187 | Either every file and index row is written, or the first failure undoes the files in reverse and frees the lock: the files are then the old ones, with exactly the stuck shards among those written so far holding the candidate. |
| `Staging.StageTargets` | agent_server/internal/history/staging.go:115-188 | Succeeds exactly when no needed read, write or index update fails; the lock is held after success and free after failure; undoing gives back the old files with exactly the stuck staged shards holding the candidate. |
| `Staging.Stage.Finish` | agent_server/internal/history/staging.go:228-251 | Releases the lock exactly once however often it is called; without a commit every staged shard is restored in reverse order, except that a stuck one keeps its content; reports whether there are any. |
| `Staging.Transact` | agent_server/internal/agent/history.go:31-60 | Stage, commit, finish: database and files both move to the candidate, or neither does, except for shards that were written and not restored; when staging went through and the commit did not, these are exactly the stuck staged ones. Lock acquisitions and releases balance. |
| `Reading.ValidBody` | agent_server/internal/history/validate.go:19-55 | The validation loop accepts exactly the well-formed shards of the range that record the Run. |
| `Reading.ParseRun` | agent_server/internal/history/validate.go:176-187 | Finds a record with the id exactly when there is one. |
| `Reading.ProjectionIsValid` | agent_server/internal/history/validate.go:57-135 | What the writer projects from a database satisfying the invariant, the reader accepts. |
| `Reading.ReadRun` | agent_server/internal/history/validate.go:190-225 | From any files only a validated record of an ended Run is returned; if its shard is not damaged, exactly the recorded view. |
| `Reading.RecordTells` | agent_server/internal/history/history.go:129-230 | The record of an ended Run is its row, exactly the memories it saved, and exactly the Events it created or resolved. |
| `Runtime.AgentRuntime.CommitStaged` | agent_server/internal/agent/history.go:47-60 | Commits a candidate with its shards, or leaves database and files as they were, except for the shards it could not restore. |
| `Runtime.AgentRuntime.LatchPersistenceFault` | agent_server/internal/agent/runtime.go:462-473 | Latches the fault and cancels every active Run. |
| `Runtime.AgentRuntime.Fail` | agent_server/internal/agent/events.go:228-240 | A failed transaction latches the fault unless the request itself was canceled; nothing else changes. |
| `Runtime.AgentRuntime.CreateSession` | agent_server/internal/agent/http.go:240-256 | Takes the CreateSession step; invariants kept, nothing final undone. |
| `Runtime.AgentRuntime.StartSession` | agent_server/internal/agent/http.go:556-658 | Takes the StartSession step: only a stopped Session without an active entry gets the next Run. |
| `Runtime.AgentRuntime.RetryRun` | agent_server/internal/agent/http.go:660-787 | Takes the RetryRun step: only the latest, failed Run of an idle running Session, at most three times. |
| `Runtime.AgentRuntime.ChangeSessionState` | agent_server/internal/agent/session.go:58-226 | Takes the stop or delete step: clearance, interruption, status, shards and cancellation together; a failure leaves at most its stuck shards. |
| `Runtime.AgentRuntime.CreateEvent` | agent_server/internal/agent/events.go:58-109 | Takes the guarded create step: only while its Run runs and fewer than ten Events are active. |
| `Runtime.AgentRuntime.DeleteEventByAgent` | agent_server/internal/agent/events.go:54-109 | Takes the guarded delete step, with the shards of the log row; every failure latches the fault. |
| `Runtime.AgentRuntime.DeleteEventByUser` | agent_server/internal/agent/events.go:180-226 | Takes the user delete step; a failure is dropped exactly when the request was canceled, even if a shard was not restored. |
| `Runtime.AgentRuntime.DispatchEventRound` | agent_server/internal/agent/events.go:288-346 | Takes the round step: claim, admission, shards, commit, launch; a failure rolls the whole round back and is dropped exactly when the round was canceled, even if a shard was not restored. |
| `Runtime.AgentRuntime.UpdateProgress` | agent_server/internal/agent/loop.go:813-827 | Writes progress exactly when the Run is still running. |
| `Runtime.AgentRuntime.PersistInitialContext` | agent_server/internal/agent/loop.go:829-839 | Writes the initial context exactly once, while the Run runs. |
| `Runtime.AgentRuntime.SaveConversation` | agent_server/internal/agent/conversation.go:103-124 | Writes the conversation exactly when its Run is still running. |
| `Runtime.AgentRuntime.SaveMemory` | agent_server/internal/agent/memory.go:117-158 | Records a memory only while its Run runs and the Runtime is open. |
| `Runtime.AgentRuntime.PersistTerminal` | agent_server/internal/agent/history.go:31-60 | Ends a running Run together with its shards, or leaves at most shards it could not restore; a Run that is not running is not touched. |
| `Runtime.AgentRuntime.FinishRun` | agent_server/internal/agent/memory.go:18-54 | Takes the completion, failure or interruption step, latching the fault when a failure cannot be persisted. |
| `Runtime.AgentRuntime.FinishActive` | agent_server/internal/agent/loop.go:862-872 | The goroutine leaves the registry and the next queued batch, if any, starts. |
| `Runtime.AgentRuntime.Quiesce` | agent_server/internal/agent/runtime.go:428-448 | The loop closes admission, interrupts and cancels every active Run, latches the fault for those it cannot persist, and reports an error exactly when there was a fault before or one of them failed. |
| `Runtime.ShardsOf` | agent_server/internal/agent/history.go:73-104 | Exactly the shards of the listed Runs, each once. |
| `Runtime.RepairRunHistory` | agent_server/internal/agent/history.go:71-127 | Rewrites every shard with an ended Run, one transaction each; cut short, it has changed only repaired shards. |
| `Runtime.OpenRuntime` | agent_server/internal/agent/recovery.go:25-63 | A server that opens is in the recovered state, whatever the files held; one that does not has only repaired shards. |
| `Rounds.RoundSound` | agent_server/internal/agent/events.go:288-346 | A committed round keeps every invariant, wakes every Session it queued work for, and starts no second Run for one. |
| `ClaimLaws.ClaimResolves` | agent_server/internal/events/events.go:480-527 | A claim fires exactly the unexpired Events whose condition holds of what was sampled, each with its log row and its trigger among the arrivals; every other Event stays and remembers what it must. |
| `ClaimLaws.RoundResolves` | agent_server/internal/agent/events.go:288-324 | After a committed local round every Event whose expiry had arrived has expired, every other timer that was due has fired at its due time, nothing expired or due is still active, and the rest is untouched; after a watch an Event has fired exactly when its condition held. |
| `ClaimLaws.RoundWakes` | agent_server/internal/agent/events.go:327-346 | An Event that fires starts the next Run of its Session in the same round, unless the Session already has one. |
| `Restarts.QuiesceSound` | agent_server/internal/agent/runtime.go:428-448 | Quiescence keeps every invariant for every pattern of failing interruptions and of shards they leave. |
| `Restarts.RepairAgrees` | agent_server/internal/agent/history.go:71-127 | Repair makes index and files agree with the database from any file contents. |
| `Restarts.ReopenSound` | agent_server/internal/agent/recovery.go:25-119 | Crash, any number of aborted repairs, repair and recovery restore every invariant and undo nothing final. |
| `Behaviours.StepSound` | agent_server/internal/agent/events.go:288-346 | Every action with every fate of its transaction, shards that could not be restored included, keeps the invariant and undoes nothing final. |
| `Behaviours.RunsAreSound` | agent_server/internal/agent/recovery.go:25-119 | The same for every sequence of actions. |
| `Behaviours.ReachableInv` | agent_server/internal/agent/runtime.go:189-274 | Every state reachable from an empty server satisfies the invariant. |
| `Behaviours.OneRunPerSession` | agent_server/internal/agent/pending_triggers.go:57-95 | Run ids are exactly 1..current; only the current Run of a running Session runs; the registry names it unless a fault is latched. |
| `Behaviours.StoppedIsQuiet` | agent_server/internal/agent/session.go:95-176 | In every reachable state a stopped or deleted Session has no running Run, no Event and no queued trigger. |
| `Behaviours.DeletedForever` | agent_server/internal/agent/session.go:95-100 | Deletion is absorbing over every future. |
| `Behaviours.NoLateWrites` | agent_server/internal/agent/events.go:58-69 | An ended Run is frozen in every future: row, memories and Events, and none of its later writes commits. |
| `Behaviours.ConversationAdvances` | agent_server/internal/agent/conversation.go:103-124 | The stored conversation of a Session never goes back to an earlier Run. |
| `Behaviours.TriggersConserved` | agent_server/internal/agent/pending_triggers.go:19-55 | Arrivals equal the batches taken or drained, in order, then the queue; a Run batch has 1 to 10 triggers and is stored with the Run; event triggers are exactly the fired rows. |
| `Behaviours.QueueHistoryGrows` | agent_server/internal/events/events.go:556-566 | Arrivals and batches are never rewritten, over rollbacks and crashes. |
| `Behaviours.NoStrandedWork` | agent_server/internal/agent/pending_triggers.go:66-95 | While the server is open, a running Session without an active Run has an empty queue. |
| `Behaviours.EventsResolveOnce` | agent_server/internal/events/events.go:418-545 | Active and resolved ids are disjoint and unique; what fired did so before expiry (timers not before due), what expired did so after. |
| `Behaviours.EventsAreNotForgotten` | agent_server/internal/events/events.go:418-441 | A created Event is active or in the log in every future, with its identity unchanged. |
| `Behaviours.RetryChain` | agent_server/internal/agent/http.go:727-757 | A retry with attempt k ends an unbroken chain of k failed Runs with attempts 0..k-1, and k is at most 3. |
| `Behaviours.HistoryMirrors` | agent_server/internal/agent/history.go:31-127 | In every reachable state an ended Run is indexed under its range; unless a rollback could not restore its shard, that is the projection, passes validation and records exactly that Run. |
| `Effects.SessionCreated` | agent_server/internal/agent/http.go:240-256 | A new Session is stopped and has no Run; the others are untouched. |
| `Effects.SessionStarted` | agent_server/internal/agent/http.go:556-658 | A start inserts and registers the next Run with its cause and nothing done yet; no Event, trigger or other Session changes. |
| `Effects.RunRetried` | agent_server/internal/agent/http.go:727-787 | A retry inserts and registers the next attempt, which names the first Run of its chain. |
| `Effects.SessionChanged` | agent_server/internal/agent/session.go:95-226 | A stop or delete sets the status, interrupts the running Run with its reason, logs every Event of the Session with the right outcome, empties its queue and cancels its goroutine; other Sessions keep theirs. |
| `Effects.EventCreated` | agent_server/internal/events/events.go:263-281 | The Event becomes active as asked for, with nothing remembered, exactly while fewer than ten are. |
| `Effects.DeletedForUser` | agent_server/internal/agent/events.go:180-226 | Moves exactly that Event to the log, as deleted by the user. |
| `Effects.DeletedForAgent` | agent_server/internal/events/events.go:283-297 | Moves exactly that Event to the log, as deleted by the Run. |
| `Effects.ProgressWritten` | agent_server/internal/agent/loop.go:813-827 | Sets the counters and the trace of the Run to those given, and nothing else. |
| `Effects.ContextWritten` | agent_server/internal/agent/loop.go:829-839 | The first context given is the one that stays. |
| `Effects.ConversationWritten` | agent_server/internal/agent/conversation.go:103-124 | The conversation of the Session becomes the one given, under the Run that saved it; no other changes. |
| `Effects.MemoryWritten` | agent_server/internal/agent/memory.go:119-158 | The memory is recorded under the Run that saved it, after all others. |
| `Effects.RunEnded` | agent_server/internal/agent/history.go:31-60 | The Run ends with exactly the status, summary, output and error given, at the time given. |
| `Effects.BatchStarted` | agent_server/internal/agent/pending_triggers.go:23-55 | The oldest ten triggers, or all if there are fewer, leave the queue in order and start the next Run. |
| `Effects.RunLeft` | agent_server/internal/agent/loop.go:862-872 | A goroutine that leaves gives up its entry; if triggers wait, the next batch starts in its place. |
| `Effects.Quiesced` | agent_server/internal/agent/runtime.go:428-448 | A shutdown in which nothing fails interrupts every active Run that runs, with its reason, and cancels every goroutine. |
| `Effects.Recovered` | agent_server/internal/agent/recovery.go:25-119 | A crash ends every Run that ran with its reason, leaves the others as they were, and starts the next Run of every running Session. |
| `Damage.StepDamage` | agent_server/internal/history/staging.go:228-251 | An action damages at most the shards it could not restore; a restart leaves none damaged. |
| `Damage.UndamagedAgrees` | agent_server/internal/history/staging.go:228-251 | While every rollback restores its shards, in every reachable state every ended Run has its shard, equal to the projection. |
| `Damage.AbortMirrorsIff` | agent_server/internal/agent/events.go:288-324 | An abort leaves the files in agreement if and only if each shard that was staged and stuck looks the same to the candidate, or records no ended Run. |
| `Damage.CanceledDeletion` | agent_server/internal/agent/events.go:215-240 | A canceled user deletion of an Event of an ended Run, whose shard cannot be restored, leaves the server open, the Event active and its deletion on record. |
| `Damage.OpenAndStale` | agent_server/internal/agent/events.go:371-379 | There is a run of the server that ends with it open and with a shard that contradicts its database. |
| `EventLoop.NextInv` | agent_server/internal/eventloop/eventloop.go:110-371 | Every critical section and channel operation of every goroutine keeps the invariant, no lost wake-up included. |
| `EventLoop.AlwaysInv` | agent_server/internal/eventloop/eventloop.go:110-371 | The invariant holds after every interleaving of register, start, dispatch, finish, signal, stop, delete and time. |
| `EventLoop.AlwaysAges` | agent_server/internal/eventloop/eventloop.go:133-142 | A finished registration is frozen whatever is later registered under its name; histories only grow. |
| `EventLoop.DueIsNotSleptOn` | agent_server/internal/eventloop/eventloop.go:187-204 | When the loop waits and an idle job is due, it can move or a thread is about to wake it. |
| `EventLoop.StopIsNotSleptOn` | agent_server/internal/eventloop/eventloop.go:287-304 | A loop asked to stop does not sleep until its deadline. |
| `EventLoop.StopMeansIdle` | agent_server/internal/eventloop/eventloop.go:171-184 | Once a stop channel is closed no worker of that epoch runs; a stopped loop runs nothing. |
| `EventLoop.NamesDoNotClash` | agent_server/internal/eventloop/eventloop.go:129-142 | A name that may be registered belongs to no running job; at most one job of a name runs. |
| `EventLoop.ExecutionsApart` | agent_server/internal/eventloop/eventloop.go:222-236 | Executions of one registration never overlap and start at least an interval apart, over any distance. |
| `EventLoop.OutcomesAreTrue` | agent_server/internal/eventloop/eventloop.go:249-261 | A deleted registration reports its deletion, and only then; one that reports its own outcome ran exactly its count. |
| `EventLoop.AlwaysLived` | agent_server/internal/eventloop/eventloop.go:243-265 | In every interleaving a registration has run once per return, plus once while it runs; its recorded result is what its task returned last. |
| `EventLoop.ReportsAreTrue` | agent_server/internal/eventloop/eventloop.go:307-336 | A finished registration reports what its task returned last, after exactly its count of returns; or its deletion, after its name was deleted; or a stop, after one. |
| `EventLoop.NameStandsForNewest` | agent_server/internal/eventloop/eventloop.go:307-318 | In every interleaving the newest registration of a name is the one found under it, among the active or the finished ones. |
| `EventLoop.CountedRuns` | agent_server/internal/eventloop/eventloop.go:230-233 | Executions plus remaining runs equal the count; a job that can still run has not used it up. |
| `EventLoop.DueJobsStart` | agent_server/internal/eventloop/eventloop.go:207-241 | A dispatch starts every registered job that is due and not running, deleted or used up, and leaves every other alone. |
| `EventLoop.RegisterActs` | agent_server/internal/eventloop/eventloop.go:133-145 | An accepted registration becomes the one its name stands for, first due after its interval. |
| `EventLoop.DeleteActs` | agent_server/internal/eventloop/eventloop.go:338-358 | Deleting marks the job; one that does not run is finished at once, as deleted. |
| `EventLoop.StopActs` | agent_server/internal/eventloop/eventloop.go:276-299 | Stopping finishes every registered job that does not run, as stopped, and leaves running ones alone. |
| `Scheduler.EventScheduler.RegisterEvent` | agent_server/internal/eventloop/eventloop.go:110-145 | Registers exactly when the six checks pass; otherwise returns the error of the first that fails, in the order name, function, interval, count, stopping, existing name. |
| `Scheduler.EventScheduler.Start` | agent_server/internal/eventloop/eventloop.go:147-169 | Starts exactly a stopped loop, with an empty wake channel and a new stop channel. |
| `Scheduler.EventScheduler.DispatchDue` | agent_server/internal/eventloop/eventloop.go:207-241 | In any iteration order, starts exactly the due jobs and finds the earliest next run among the others, at most an hour away. |
| `Scheduler.EventScheduler.FinishJob` | agent_server/internal/eventloop/eventloop.go:243-265 | Ends the execution and retires the job exactly when it was deleted, ran out or the loop is stopping. |
| `Scheduler.EventScheduler.RetireIdle` | agent_server/internal/eventloop/eventloop.go:287-299 | In any iteration order, retires exactly the jobs that are not running. |
| `Scheduler.EventScheduler.Stop` | agent_server/internal/eventloop/eventloop.go:276-305 | Takes the stop step of the machine in each of its three states. |
| `Scheduler.EventScheduler.DelEvent` | agent_server/internal/eventloop/eventloop.go:338-358 | Marks the job, and retires it at once unless it runs. |
| `Scheduler.EventScheduler.Wait` | agent_server/internal/eventloop/eventloop.go:307-336 | No registration, one that is not finished, or the recorded outcome; the newest registration of the name is the one reported. |
| `Scheduler.EventScheduler.SignalWake` | agent_server/internal/eventloop/eventloop.go:366-371 | Leaves exactly one token in the one-slot channel. |
| `Messages.DigestTwice` | agent_server/internal/agent/conversation.go:268-297 | A digest is final, under its own tool name or with the name lost. |
| `SemanticStorage.SemanticConversation` | agent_server/internal/agent/conversation.go:203-248 | The loop with its last failure and in-place counts computes the stepwise transformation. |
| `SemanticStorage.CollectNames` | agent_server/internal/agent/conversation.go:204-209 | The name table gives each id the name of its last call. |
| `SemanticLaws.SemanticAppend` | agent_server/internal/agent/conversation.go:201-248 | For a next Run that starts with a wake-up and shares no call, storing the whole is storing the parts. |
| `SemanticLaws.ParseRender` | agent_server/internal/agent/conversation.go:196-248 | Reading back stored steps gives those steps. |
| `SemanticLaws.ContiguousRereads` | agent_server/internal/agent/conversation.go:225-244 | Conversations whose results follow their calls are read back as they were meant. |
| `SemanticLaws.IdempotentIff` | agent_server/internal/agent/conversation.go:201-266 | Storing twice equals storing once if and only if no two neighbouring failures of a read tool differ only beyond 300 characters. |
| `SemanticLaws.NotIdempotent` | agent_server/internal/agent/conversation.go:201-202 | A concrete conversation on which the claimed idempotence fails. |
| `SemanticLaws.StableAfterTwo` | agent_server/internal/agent/conversation.go:201-248 | A third pass never changes anything. |
| `SemanticLaws.IncrementalIff` | agent_server/internal/agent/conversation.go:201-248 | Storing the stored part with the next Run appended equals storing everything, if and only if the stored part had no confusable neighbours. |
| `SemanticLaws.FailuresConserved` | agent_server/internal/agent/conversation.go:225-241 | The number of failures the lone calls stand for, repeat counts included, is conserved. |
| `StoredEvidence.EvidenceKept` | agent_server/internal/agent/conversation.go:225-273 | While nothing is absorbed, each mutation that succeeded or may have, lone or parallel, keeps its call and its result up to the repeat count. |
| `StoredEvidence.LastingKept` | agent_server/internal/agent/conversation.go:219-273 | Successful results of mutations and skills, their results among parallel calls however they ended, and all messages but wake-ups and read results are stored word for word. |
| `StoredEvidence.EvidenceKeptIff` | agent_server/internal/agent/conversation.go:225-273 | The calls and results of all mutations that succeeded or may have are kept, in order, if and only if no lone failure with an unknown outcome directly follows one of the same mutation with the same code and message. |
| `StoredEvidence.ReportsTrueIff` | agent_server/internal/agent/conversation.go:225-266 | With counts expanded, the stored conversation tells in order how each mutation ended, if and only if no two neighbouring lone failures of one mutation share code and message and differ in outcome. |
| `StoredEvidence.SecondOrderIsLost` | agent_server/internal/agent/conversation.go:225-266 | Of two neighbouring orders that timed out, whatever they were and however they ended, only the first is stored. |
| `StoredEvidence.FalseRefusal` | agent_server/internal/agent/conversation.go:225-266 | An order that was not sent and one that may have been are stored as two refusals of the first. |
| `Completion.CompleteToolResults` | agent_server/internal/agent/conversation.go:146-175 | The index loop with its table of answered ids computes the completion. |
| `Completion.CompleteAnswers` | agent_server/internal/agent/conversation.go:146-175 | After completion every call has a result directly after the message that made it. |
| `Completion.CompleteTwice` | agent_server/internal/agent/conversation.go:146-175 | Completion is idempotent. |
| `Completion.CompleteLeavesAnswered` | agent_server/internal/agent/conversation.go:146-175 | A conversation whose calls are all answered is left alone. |
| `Completion.CompleteOpenBlock` | agent_server/internal/agent/conversation.go:157-172 | A block cut after some results gets those results and an explicit unknown for each other call. |
| `Completion.PartialCompletes` | agent_server/internal/agent/conversation.go:146-175 | A conversation cut at any point completes to one that follows the protocol and extends it. |
| `StoredTalk.StoredPartial` | agent_server/internal/agent/conversation.go:203-248 | Semantic storage keeps the protocol wherever the conversation was cut. |
| `StoredTalk.ReloadsValid` | agent_server/internal/agent/conversation.go:84-124 | What a restart loads, from either storage mode, follows the protocol and extends what was stored. |
| `StoredTalk.StoredResult` | agent_server/internal/agent/conversation.go:219-297 | A stored result comes from a step under the same id: whole for a mutation or a skill; otherwise what the tool gave cut at 300 characters, or its error with the message cut the same way; up to the failures counted on it. It is never a refusal that was none. |
| `StoredTalk.StepStored` | agent_server/internal/agent/conversation.go:203-297 | Every step that is not a lone failure is stored: calls and other messages as they are, results as above, wake-ups with exactly the entries that still mean something. |
| `StoredTalk.MessagesAreSteps` | agent_server/internal/agent/conversation.go:177-198 | Every message but instructions and the answers they rejected is part of a step, and no instruction is. |
| `Compaction.FoldMessages` | agent_server/internal/agent/model_context.go:438-485 | The loops with results and seen tables compute the fold. |
| `Compaction.CompactConversation` | agent_server/internal/agent/model_context.go:405-436 | The backward scans and folds compute the compaction. |
| `Compaction.CompactKeepsProtocol` | agent_server/internal/agent/model_context.go:400-436 | No result is orphaned and no call is left without one. |
| `Compaction.UngroundedProtocol` | agent_server/internal/agent/model_context.go:405-436 | Without a wake-up and with calls in the second message, the protocol survives if and only if there is no later answer to fold up to. |
| `Compaction.UngroundedBreaks` | agent_server/internal/agent/model_context.go:405-436 | A conversation without a wake-up on which compaction orphans a result. |
| `Compaction.CompactKeepsEnds` | agent_server/internal/agent/model_context.go:400-436 | The system prompt, the last wake-up and everything from the last answer on are unchanged. |
| `Compaction.CompactShrinks` | agent_server/internal/agent/model_context.go:405-436 | A compaction that wrote a block lowers a measure; one that did not left the conversation alone. |
| `Compaction.FullyFoldedIsFixpoint` | agent_server/internal/agent/model_context.go:405-436 | A conversation on which both stages ran is a fixpoint. |
| `Compaction.FoldKeepsEvidence` | agent_server/internal/agent/model_context.go:438-522 | Every folded mutation that succeeded or may have, and every earlier line, keeps its line. |
| `Compaction.FoldTellsEveryStep` | agent_server/internal/agent/model_context.go:438-513 | Every wake-up, tag, accepted answer and successful read of a folded range is told in the history. |
| `FoldedHistory.FoldSaysMutations` | agent_server/internal/agent/model_context.go:494-522 | A folded mutation that succeeded leaves a line with its evidence, one that may have a line with its error, each with the tool and its arguments cut at 160. |
| `FoldedHistory.MutationsSurvive` | agent_server/internal/agent/model_context.go:400-522 | After any number of compactions such a line is in the history, or a call that stands for it is in the conversation. |
| `FoldedHistory.FoldInventsNothing` | agent_server/internal/agent/model_context.go:439-522 | Each line of a folded history was in an earlier one or tells of a message of the range: a wake-up, tag, accepted answer, successful read or skill with its result, or effective mutation. |
| `FoldedHistory.FoldSaysSteps` | agent_server/internal/agent/model_context.go:439-513 | Each wake-up, tag, accepted answer and successful read has a line with its text, cut where the source cuts it. |
| `FoldedHistory.EarlierRunsAreFolded` | agent_server/internal/agent/model_context.go:405-424 | Everything between the prompt and the last wake-up becomes one history; if that is enough, nothing else changes. |
| `FoldedHistory.ThisRunIsFolded` | agent_server/internal/agent/model_context.go:424-436 | With nothing to fold before it, the steps of this Run up to its last assistant message become one history. |
| `FoldedHistory.BothAreFolded` | agent_server/internal/agent/model_context.go:405-436 | When the first fold is not enough, both are done. |
| `Compaction.CompactKeepsEvidence` | agent_server/internal/agent/model_context.go:400-522 | No compaction loses evidence of a mutation. |
| `Compaction.EvidenceSurvives` | agent_server/internal/agent/model_context.go:400-522 | Evidence and protocol survive any number of compactions. |
| `Compaction.OwnLineIff` | agent_server/internal/agent/model_context.go:494-522 | A mutation leaves the line of its own result if and only if the last result under its id tells the same. |
| `Compaction.ReusedId` | agent_server/internal/agent/model_context.go:439-445 | Under a reused id a filled order leaves no line after a later refusal, and a refused one is told as filled. |
| `AgentLoop.RunLoop.Run` | agent_server/internal/agent/loop.go:193-396 | Terminates with at most max_loop decisions, max_tool_call executions and 4*max_loop+6 model calls; stops only with the Run ended, canceled or a fault latched; the journal is sound. What ran is exactly the calls of the replies it took, in order, while the budget lasted; only the last reply may be cut short. It closes only with an accepted answer, and when nothing gets in the way it stops with one, out of allowance, or after a model error. |
| `AgentLoop.RunLoop.Begin` | agent_server/internal/agent/loop.go:193-234 | Finalization starts exactly when a budget is spent, with an instruction; otherwise a tag that arrived joins the conversation and is saved before the next decision. |
| `AgentLoop.RunLoop.CallModel` | agent_server/internal/agent/loop.go:402-568 | At most `limit` attempts, each traced before it is made; all but the last were errors worth another try; when nothing gets in the way it gives up only at the limit or on an error that is not. On success the decision has a traced call and the conversation follows the protocol. |
| `AgentLoop.RunLoop.Attempt` | agent_server/internal/agent/loop.go:471-551 | One attempt is persisted before and after; an undispatched one is not counted. |
| `AgentLoop.RunLoop.Prepare` | agent_server/internal/agent/loop.go:406-466 | What precedes the attempts keeps counters and protocol; every failure ends the Run. |
| `AgentLoop.RunLoop.HandleFinal` | agent_server/internal/agent/loop.go:260-300 | An answer with text, the stop reason and an accepted verdict is saved and ends the Run with it; any other is repaired with an instruction until the allowance is used up. |
| `AgentLoop.RunLoop.HandleTools` | agent_server/internal/agent/loop.go:301-394 | Calls are saved before any is answered. Outside finalization they run as the budget allows and are answered with what they gave; otherwise every one is refused, none runs, and the model is told to finalize. |
| `AgentLoop.RunLoop.RunCalls` | agent_server/internal/agent/loop.go:332-394 | Every call gets exactly one result, in order, saved after each: the first ones, as many as the budget allows, run and are answered with what they gave, the others are refused. |
| `AgentLoop.RunLoop.HandleCall` | agent_server/internal/agent/loop.go:333-394 | While the budget lasts the call runs once and its result joins conversation and trace; with the budget spent it is refused, nothing runs and nothing is counted. |
| `AgentLoop.RunLoop.Announce` | agent_server/internal/agent/loop.go:354-369 | The pending entry is persisted before the tool runs. |
| `AgentLoop.RunLoop.Execute` | agent_server/internal/agent/loop.go:370-373 | A tool runs only right after its pending entry was persisted, under an id that never ran; its result is what the tool gave. |
| `AgentLoop.RunLoop.CompactContext` | agent_server/internal/agent/model_context.go:278-333 | Over the budget the conversation is compacted, otherwise it is left alone; protocol and honesty of the results are kept. |
| `CrashSafety.CrashIsSound` | agent_server/internal/agent/conversation.go:84-124 | For every prefix of a Run's writes and either storage mode: a saved conversation reloads as a valid one whose results are explicit unknowns or tell of a true result, whole, digested or counted; a refusal tells of a refusal. |
| `CrashSafety.CrashReportsIff` | agent_server/internal/agent/conversation.go:103-124 | What was said of the Run's calls is true, and what is stored tells the same of each mutation, if and only if it is stored verbatim or no two neighbouring lone failures of one mutation share their error and differ in outcome. |
| `CrashSafety.FalseRefusalAfterCrash` | agent_server/internal/agent/conversation.go:225-266 | In semantic mode a Run can run an order that may have been executed and reload a conversation in which every result says not executed. |
| `Journal.TraceIsTrue` | agent_server/internal/agent/loop.go:354-394 | For every prefix of a Run's writes every tool that ran has an entry in the last saved progress, pending (outcome unknown) or with its true result, and no entry there tells of a result that no tool gave. |
| `Trace.MarkLastTerminal` | agent_server/internal/agent/loop.go:786-797 | The backward loop re-marks exactly the last model call. |
| `Trace.MarkedKeeps` | agent_server/internal/agent/loop.go:786-797 | Re-marking a decision as terminal changes neither counters nor decisions. |
| `Trace.DeriveDecisionCount` | agent_server/internal/agent/session.go:425-451 | The loop counts distinct iterations, unnumbered calls and calls missing from the trace. |
| `Trace.DerivesLoopCounter` | agent_server/internal/agent/session.go:425-451 | Once a decision has a traced call, the derived count is the loop's own decision counter. |
| `Monitoring.TracesNeverExceed` | agent_server/internal/agent/monitoring.go:150-151 | Over progress that Runs saved, no trace exceeds its count: usage and tool statistics fail exactly on negative values or sums that do not fit. |
| `Projection.Classify` | agent_server/internal/agent/model_context.go:94-115 | One pass sorts the candidates by kind with the names known at each message. |
| `Projection.Stage` | agent_server/internal/agent/model_context.go:117-151 | Tries the listed messages in order while the request is too large: what was tried is an initial part of the list, and each try was needed. |
| `Projection.ProjectModelContext` | agent_server/internal/agent/model_context.go:81-154 | Meets the bound or fails only after every candidate was tried; within the bound nothing changes; contents only shrink. What is tried is an initial part of the read results, the long answers and the mutation results, oldest first, and each try was needed. |
| `Projection.TriedTells` | agent_server/internal/agent/model_context.go:117-176 | A message that is tried takes the rendering of its kind exactly when that is shorter. |
| `Usage.AddAttemptIff` | agent_server/internal/agent/monitoring.go:213-249 | A bounded addition succeeds exactly when no value is negative and the exact sum fits. |
| `Usage.AddCall` | agent_server/internal/agent/monitoring.go:140-148 | Once the Session total accepts a call, the additions per Run and per model cannot fail. |
| `Usage.AggregateUsage` | agent_server/internal/agent/monitoring.go:123-189 | Succeeds exactly when no trace exceeds its count, no value is negative and the Session totals fit; then all totals are exact sums. |
| `Usage.RunsAddUp` | agent_server/internal/agent/monitoring.go:123-166 | The sums per Run add up to the Session total. |
| `Usage.ModelsAddUp` | agent_server/internal/agent/monitoring.go:123-189 | The sums per model add up to the Session total. |
| `Usage.KnownAndUnknown` | agent_server/internal/agent/monitoring.go:213-249 | For every metric, reported and unknown calls add up to the calls, and the total is the sum of the reported values, if there are any. |
| `Usage.CallsAre` | agent_server/internal/agent/monitoring.go:123-197 | The calls of a Run are its traced ones in order, under the Session's model where none was recorded, then one without usage for each that is missing. |
| `ToolStats.AggregateToolStats` | agent_server/internal/agent/monitoring.go:386-461 | Succeeds exactly when no trace exceeds its count and the latencies can be summed; per tool, calls are successes, errors and calls in flight. |
| `ToolStats.EventsTell` | agent_server/internal/agent/monitoring.go:398-439 | Each traced call is counted once under its tool, or as unknown, as a success, an error, or in flight while its Run runs; missing calls are counted as unknown. |
| `ToolStats.ToolCallsConserved` | agent_server/internal/agent/monitoring.go:431-439 | The calls over all tools are the calls the Runs persisted. |

## Left out

- HTTP routing, request decoding, authentication and response bodies.
- Streaming from the Gateway, continuation requests and the contents of model and tool calls: arbitrary oracles.
- Chat cursors and Backend paging: a chat wake is one more trigger for an idle running Session.
- The LLM summary of a compacted history: only the rule-based stage is modelled.
- Editing and deleting memories, memory limits, skills and prompts.
- SQLite internals, schema migrations, file names and temporary files.
- JSON syntax and validation of individual fields: `Reading.ValidBody` works on decoded documents.
- The one-account-per-Session constraint of `createSession`.
- The order in which the shards of one stage are written, and the sorted order of the usage lists.
- Splitting a compacted history at line breaks: a history is a list of lines, so a line that itself contains a break is one line.
- The blocking of `Stop` and `Wait` on their channels, and their deadlines: the machine states when the channels are closed, and `Wait` is the lookup it then makes.
- Average latencies and the current-Run view of monitoring.
- Matchers.PositionRefinesHistory: snapshots that fail to load are skipped before the matcher sees them.
- AgentLoop.RunLoop.Run: identifies a call by its id, so it assumes that the model gives every tool call an id of its own; the source does not check it.
- Compaction.CompactKeepsEvidence: assumes that tool call ids are distinct across the conversation; what happens otherwise is `Compaction.OwnLineIff` and `Compaction.ReusedId`.
- Compaction.EvidenceSurvives: the same assumption.
