# Suzerain fleet manager: a verified model

Suzerain is a control plane (`crates/suzerain`) that schedules agents onto daemons
(`crates/castellan`), suspends idle agents, wakes them on demand and collects their event logs;
`crates/suzerain-client` talks to it. This project models the parts of it that carry hard
guarantees and proves them for every input, every run or every reachable state.

Check everything with `dafny verify dfyconfig.toml`.

| file | models |
|---|---|
| `JournalModel.dfy` | journal files, watermarks, prunes and the dedupe of a log batch, as values |
| `LogShipping.dfy` | the daemon's journal and the control plane's log as objects; resends |
| `ShippingProtocol.dfy` | both sides and the wire as a state machine: lost connections, resends, overlapping and dying handlers, restarts, damaged watermarks, prunes with or without an open writer |
| `ShippingRuns.dfy`, `ShippingCounterexamples.dfy` | particular runs of it: the undisturbed round, the orderly runs, and the runs that lose or repeat an event |
| `Fleet.dfy`, `Scheduler.dfy` | registry rows, suspend policy, the fit check, placement |
| `Preemption.dfy`, `ControlPlane.dfy` | placement with preemption: the meaning, and the loops over the registry proved against it |
| `Sse.dfy` | the incremental event-stream parser against whole-input parsing |
| `SseFormat.dfy` | what a sender may write into a stream, and that exactly its messages arrive |
| `Redaction.dfy` | replacement of registered secrets in journal payloads |
| `SingleFlight.dfy` | one wake shared by many waiters, in every interleaving |
| `WakeRetry.dfy` | one wake from reload to ending: the retry loop over daemons |
| `MessageQueue.dfy` | the durable message queue of an agent and its drain loop |
| `StateReports.dfy` | the registry converging on daemon reports |
| `CrashLoop.dfy` | the sliding-window crash-loop limiter |
| `Base64.dfy` | the three hand-written base64 codecs (section 4 of RFC 4648) |
| `ShellQuote.dfy` | shell quoting against a POSIX tokeniser (sections 2.2.1, 2.2.2 and 2.3 of the Shell Command Language) |
| `FileLocks.dfy` | appenders and retention pruning under the per-path lock registry |
| `Wrappers.dfy`, `Strings.dfy` | options and results; texts joined by a separator, facts about concatenation |

Code that updates things step by step is a class or a method with loops, proved equal to a
function of the old state; the lemmas are about those functions. Concurrent code is a state
machine whose steps are what happens between two awaits; `IsRun(w, steps)` says that `steps` is
an interleaving that starts in `w`, and `After(w, steps)` is where it ends. What the environment
decides (which orders succeed, when messages arrive, where a connection breaks) is a script or
a step, and the theorems hold for all of them.

## What the proofs found

- The central log can hold an event twice. `handle_logs` reads the acknowledgement before it
  takes the file lock (crates/suzerain/src/control.rs:1059-1061), and a handler that dies before
  line 1076 leaves the old value behind. `ShippingCounterexamples.OverlapRepeats` is a run in
  which a lost connection and a resend store one event twice; `LogShipping.CleanExactlyWhen` says
  exactly which batches repeat a number; `ShippingRuns.OrderlyLogIsClean` says that handlers which
  follow one another never do. No event is lost either way (`ShippingProtocol.NoEventLost`).
- The prune guard asks the supervisor, not the file. The flag of a failed provisioning is cleared
  before its last append (crates/castellan/src/supervisor.rs:343-347). A prune that misses an open
  writer replaces the file under it: what is appended after that is lost and its number is used
  again (`ShippingCounterexamples.UnguardedPruneLoses`). Exactly the events appended to the
  journal's current file survive (`NoEventLost`), and all do if the guard sees every writer
  (`ShippingProtocol.GuardKeepsWriters`).
- The watermark is written in place (crates/castellan/src/control.rs:1034). Cut off while an
  acknowledgement is being written, it does no harm, because the acknowledged events are still in
  the journal (`ShippingProtocol.TornAckIsHarmless`). Lost later, with the journal pruned empty,
  it rewinds the counter, and then an event can be lost
  (`ShippingProtocol.RewindsExactlyWhen`, `ShippingCounterexamples.ForgettingLoses`).
- Retention rewrites a log in place. Cut off, it loses exactly the lines it had still to write
  back (`FileLocks.CutLosesExactly`).
- Redaction is safe for a registered secret in every company exactly when the secret cannot
  overlap the text `[REDACTED]` (`Redaction.SafeExactlyWhenMarkerProof`). Secrets without square
  brackets are safe. A secret such as `]` followed by text can be recreated by its own redaction
  (`Redaction.OwnRedactionRecreates`). Object keys are not redacted at all.
- A full state report can leave a row with a stale state: when its id is reported, but only under
  another name, the row is neither failed nor updated (`StateReports.PromiseExactlyWhen`,
  `StateReports.RenamedIdKeepsState`).
- The client's base64 decoder accepts any text. It agrees with the strict ones exactly on texts
  of full groups of alphabet characters with at most two pads each, wherever the pads stand
  (`Base64.DecodersAgreeExactlyWhen`).
- The comment of `handle_logs` speaks of contiguous sequence numbers; the code acknowledges the
  largest number seen, gaps included, and the model follows the code.

## Model

| member | source | states |
|---|---|---|
| `ShippingProtocol.NoEventLost` | crates/castellan/src/control.rs:986-1053 | in every run of appends, ships, lost acks, resends, dying handlers, prunes under an open writer or not, reconnects, restarts and damaged watermarks, exactly the events appended to the journal's file are in the journal or stored centrally, and everything at or below the watermark is stored, in the file and in the transcript; excluded is only a watermark lost while the journal holds no event |
| `ShippingProtocol.GuardKeepsWriters` | crates/castellan/src/control.rs:1036-1049 | if the prune guard sees the open writer whenever an acknowledgement asks, every append of the run goes to the journal's file, so that none is lost |
| `ShippingCounterexamples.UnguardedPruneLoses` | crates/castellan/src/control.rs:1040-1047 | a run in which the guard misses the writer: a successful append is neither in the journal nor stored, and its number is handed out again |
| `ShippingProtocol.NumbersNeverRewind` | crates/castellan/src/journal.rs:102-138 | persisted numbers strictly increase over the whole run, and reopening at any point resumes exactly at the last of them, under the same one exclusion |
| `ShippingProtocol.ResumesAtLast` | crates/castellan/src/journal.rs:102-122 | even a journal pruned empty resumes at the last number, because of the watermark floor |
| `ShippingProtocol.RewindsExactlyWhen` | crates/castellan/src/journal.rs:104-118 | a watermark that reads back as some value leaves the next counter right if and only if the journal still holds an event or the value is what it was |
| `ShippingProtocol.TornAckIsHarmless` | crates/castellan/src/control.rs:1033-1034 | a watermark cut off while an acknowledgement is being written never has that effect |
| `ShippingCounterexamples.ForgettingLoses` | crates/castellan/src/control.rs:998-1002 | a run in which a watermark lost with the journal empty makes a new event get a used number, be skipped, acknowledged and pruned |
| `ShippingProtocol.AckAdvancesWatermark` | crates/castellan/src/control.rs:1032-1034 | every acknowledgement that reaches the waiting daemon covers its batch, so the watermark strictly advances and never passes what was issued |
| `ShippingProtocol.NothingInvented` | crates/suzerain/src/control.rs:1056-1076 | the central log and transcript only ever hold events that were appended, each under its own number |
| `ShippingRuns.RoundShipsEverything` | crates/castellan/src/control.rs:986-1053 | from every reachable state with the lock free, one undisturbed round moves the watermark to the last issued number and has everything stored |
| `ShippingRuns.RoundPrunesSuspended` | crates/castellan/src/control.rs:1036-1049 | from every such state the round leaves no event in the journal of a suspended agent that is not busy, and leaves any other journal as it was |
| `ShippingRuns.StoresAreTheBatchLoop` | crates/suzerain/src/control.rs:1056-1076 | the handler's single steps, left alone, add up to the batch function that `CentralLog.HandleBatch` computes |
| `ShippingRuns.OrderlyLogIsClean` | crates/suzerain/src/control.rs:1056-1076 | in every run whose handlers read one after the other and do not die having written, the central log is strictly increasing |
| `ShippingRuns.LockIsHeld` | crates/suzerain/src/control.rs:1060-1077 | in every run a taken file lock is held by a handler that is still there |
| `ShippingRuns.LockStays` | crates/suzerain/src/control.rs:1060-1077 | no step takes the lock from its holder; it goes only when that handler finishes or dies |
| `ShippingRuns.CounterCounts` | crates/castellan/src/journal.rs:130-146 | every append takes exactly one number, whether it is written or fails |
| `ShippingCounterexamples.OverlapRepeats` | crates/suzerain/src/control.rs:1059-1061 | a run in which a lost connection, a resend and two handlers that read before either writes leave an event in the central log twice |
| `LogShipping.Journal.Open` | crates/castellan/src/journal.rs:102-128 | the counter resumes at the larger of the largest number in the file and the watermark |
| `LogShipping.Journal.Append` | crates/castellan/src/journal.rs:130-146 | the number is consumed even when the write fails; a success appends exactly that event, unless the writer's file has been replaced, when the journal stays as it is |
| `LogShipping.Journal.PendingBatch` | crates/castellan/src/control.rs:998-1012 | the batch is exactly the events above the watermark, in order, with their true maximum |
| `LogShipping.Journal.OnAck` | crates/castellan/src/control.rs:1032-1050 | the watermark moves only when the batch is covered, and the journal is pruned only when suspended and not reported busy, past the previous prune, leaving an open writer on the replaced file |
| `LogShipping.Journal.PruneJournal` | crates/castellan/src/control.rs:1108-1131 | the file becomes its lines without the acknowledged events |
| `JournalModel.PruneIsFilter` | crates/castellan/src/control.rs:1108-1131 | reading a pruned file gives exactly the events above the mark, so pruning is invisible to shipping |
| `JournalModel.PruneKeepsPlaces` | crates/castellan/src/control.rs:1112-1121 | a prune removes a line exactly if it is an event numbered at most the mark; every other line, unparseable ones included, stays between what is left of the lines around it |
| `JournalModel.EventsKeepPlaces` | crates/castellan/src/journal.rs:102-122 | a reader takes exactly the parseable lines as events, in their places, and shipping exactly those above the mark |
| `JournalModel.PruneAgain` | crates/castellan/src/control.rs:1104-1131 | pruning a pruned journal again is one prune through the higher mark; at the same mark it changes nothing |
| `JournalModel.AckOnFields` | crates/castellan/src/control.rs:1032-1049 | an acknowledgement that does not cover the batch changes nothing; one that does becomes the watermark, and takes the acknowledged events out of the journal exactly if the agent is suspended and not busy and nothing was pruned as far before |
| `JournalModel.FirstRowKept` | crates/suzerain/src/store.rs:1558-1570 | after any events the transcript holds under each number what it held before, else the first event with that number, and nothing only if there was none |
| `LogShipping.CentralLog.HandleBatch` | crates/suzerain/src/control.rs:1056-1083 | log, transcript and acknowledgement after a batch, as a function of what was read before |
| `JournalModel.WrittenAscends` | crates/suzerain/src/control.rs:1062-1074 | for a batch in any order the numbers written strictly increase from the old acknowledgement to the new one |
| `LogShipping.ResendsLeaveLogClean` | crates/suzerain/src/control.rs:1056-1076 | any sequence of overlapping batches handled one at a time extends the log by strictly increasing numbers |
| `LogShipping.NothingSkipped` | crates/suzerain/src/control.rs:1062-1074 | of an ascending batch exactly the events above the old acknowledgement are written, and all of it is acknowledged |
| `LogShipping.CleanExactlyWhen` | crates/suzerain/src/control.rs:1059-1076 | with a stale acknowledgement the log stays strictly increasing if and only if the batch holds no event between it and the last number written |
| `LogShipping.StaleReadRepeats` | crates/suzerain/src/control.rs:1059-1061 | two handlers that read the acknowledgement before either takes the lock write an event twice |
| `Scheduler.ScanGpus` | crates/suzerain/src/scheduler.rs:264-298 | the GPU loop returns the number of matching GPUs and the largest usable memory among them |
| `Scheduler.GpuScanCounts` | crates/suzerain/src/scheduler.rs:268-288 | the scan counts exactly the indices of matching GPUs |
| `Scheduler.GpuScanIsBest` | crates/suzerain/src/scheduler.rs:286-288 | the scan's memory is attained by a matching GPU and exceeded by none, 0 when none matches |
| `Scheduler.GpuOnFields` | crates/suzerain/src/scheduler.rs:264-298 | on the reported fields: a GPU matches without a memory requirement, or if it is of a kind that reports memory and has enough free, the usage report counting before the capacity record; free memory is capped by the total |
| `Scheduler.FitMeansRoom` | crates/suzerain/src/scheduler.rs:207-298 | the fit check succeeds exactly when every required label is carried (override before report), a slot is free, every requested dimension has room beside the allocation, and enough GPUs match |
| `Scheduler.AllocationOnFields` | crates/suzerain/src/scheduler.rs:165-187 | each Provisioning, Active or Restoring agent of the daemon adds its requests and one slot to the allocation, every other row adds nothing |
| `Scheduler.FitsAntitone` | crates/suzerain/src/scheduler.rs:207-318 | whatever fits beside an allocation fits beside any smaller one |
| `Scheduler.LighterScoresHigher` | crates/suzerain/src/scheduler.rs:300-318 | the spread rule: of two loads of one daemon the lighter scores at least as high, and strictly higher when a dimension it offers is loaded less |
| `Scheduler.ScoreOnFields` | crates/suzerain/src/scheduler.rs:300-318 | the score of a fit is the free share of processors, plus that of memory, plus half that of disk, plus the best GPU's surplus memory in units of the requirement |
| `Scheduler.BetterDaemonWins` | crates/suzerain/src/scheduler.rs:73-110 | of two daemons that fit the second is chosen exactly if it scores strictly higher |
| `Scheduler.Choose` | crates/suzerain/src/scheduler.rs:73-110 | the filter, score and sort loop computes the choice |
| `Scheduler.SortedDesc` | crates/suzerain/src/scheduler.rs:102 | the stable sort permutes, is descending, and puts the first of the largest in front |
| `Scheduler.ChoiceIsOptimal` | crates/suzerain/src/scheduler.rs:73-110 | the choice is a fitting candidate of highest score, and it reports that none fits exactly when none does |
| `Scheduler.PlaceIsComplete` | crates/suzerain/src/scheduler.rs:131-203 | placement picks a daemon that is approved, online, not excluded and fits with the best score, and, if ids parse, fails exactly when no such daemon fits |
| `Scheduler.PlaceNeverOvercommits` | crates/suzerain/src/scheduler.rs:165-262 | if all daemons are within their limits they still are with the request added to the chosen one |
| `Preemption.TallyIsExact` | crates/suzerain/src/scheduler.rs:417-432 | a daemon's allocation before equals its allocation after the suspensions plus the tally of its victims |
| `Preemption.TallyAgreesWithRecomputation` | crates/suzerain/src/scheduler.rs:450-488 | after any victims, `would_fit` with the running tally answers as the fit check on the rows recomputed, so the saturating subtractions are exact |
| `Preemption.OnlyPreemptibleSuspended` | crates/suzerain/src/lifecycle.rs:82-98 | whatever the daemons answer, only Active, idle, non-exempt agents past their grace on that daemon are suspended, each once, and only if the daemon accepted |
| `Preemption.QueueMembers` | crates/suzerain/src/scheduler.rs:385-392 | the candidates are exactly the preemptible agents of the daemon |
| `Fleet.EligibleMeans` | crates/suzerain/src/lifecycle.rs:42-98 | on the row's fields: an agent may be suspended exactly if it is Active, reported not busy, the setting in force (override, else manifest) is not never, and is seconds if automatic suspension is off, and it was not woken within 300 s |
| `Fleet.TimeoutMeans` | crates/suzerain/src/lifecycle.rs:42-62 | the timeout is none for never, the setting's own seconds, and for an inherited or unreadable setting the default exactly while automatic suspension is on |
| `Fleet.IdleMeans` | crates/suzerain/src/lifecycle.rs:64-80 | idle time is what was reported plus the age of the report, 0 if none was reported, without age for an undated or future report |
| `Preemption.QueueOnFields` | crates/suzerain/src/scheduler.rs:385-392 | the queue holds each agent of the daemon that may be suspended, on its row's fields, exactly once, and no other |
| `Preemption.QueueOrderOnFields` | crates/suzerain/src/scheduler.rs:385-392 | nobody in the queue stands before an agent that has been idle longer, reported idle time and report age together |
| `Preemption.OnlyIdleRowsChange` | crates/suzerain/src/scheduler.rs:331-447 | a placement, successful or not, changes a row only to Suspended, and only of an agent that, on its fields, may be suspended and whose daemon accepted |
| `Preemption.ShortestPrefix` | crates/suzerain/src/scheduler.rs:394-432 | of a queue of agents that all accept, the victims are the shortest prefix that makes the request fit, or all of it when none does |
| `Preemption.VictimsAreShortestPrefix` | crates/suzerain/src/scheduler.rs:385-444 | whatever the daemon refuses, its victims are the shortest prefix, longest idle first, of its preemptible agents that accept that makes the request fit, or all of them when none does |
| `Preemption.RefusalsAreSkipped` | crates/suzerain/src/scheduler.rs:394-443 | a refused suspend leaves the outcome as if the agent had not been a candidate |
| `Preemption.PlacedImpliesFeasible` | crates/suzerain/src/scheduler.rs:331-342 | success means some schedulable daemon fits with all its preemptible agents that accept suspended |
| `Preemption.PreemptionIsComplete` | crates/suzerain/src/scheduler.rs:331-447 | whatever the daemons refuse, the request is placed if and only if some approved, online, not excluded daemon fits with all its agents suspended that, on their fields, may be and that accept |
| `ControlPlane.Registry.PreemptOn` | crates/suzerain/src/scheduler.rs:394-444 | the loop over one daemon's queue suspends exactly the specified victims; at each turn the tally agrees with the rows as they are |
| `ControlPlane.Registry.PreemptIdle` | crates/suzerain/src/scheduler.rs:346-447 | the loop over daemons suspends the victims of every label-feasible one and says whether there were any |
| `ControlPlane.Registry.PlaceOrPreempt` | crates/suzerain/src/scheduler.rs:331-342 | result and registry are those of the specification |
| `Sse.FindBlockEnd` | crates/suzerain-client/src/lib.rs:770-787 | the index loop computes the block boundary |
| `Sse.BlockEndIsFirst` | crates/suzerain-client/src/lib.rs:770-787 | the boundary is the first separator of either kind, and is missed only if there is none |
| `Sse.BlockEndStable` | crates/suzerain-client/src/lib.rs:770-787 | a boundary found in a prefix is the boundary in every extension |
| `Sse.BlocksIncremental` | crates/suzerain-client/src/lib.rs:744-749 | cutting complete blocks off early and carrying the rest over gives the blocks of the whole |
| `Sse.ParseBlock` | crates/suzerain-client/src/lib.rs:789-812 | the line loop computes the message of a block |
| `Sse.SseStream.Poll` | crates/suzerain-client/src/lib.rs:740-766 | each poll yields exactly the next message still to come, or ends when there is none |
| `Sse.StreamingIsWholeInput` | crates/suzerain-client/src/lib.rs:728-768 | for every sequence of chunks, end markers and transport errors the stream is the messages of the input up to its end, with the error, if any, in its place |
| `Sse.ChunkingDoesNotMatter` | crates/suzerain-client/src/lib.rs:728-812 | for every input and every split into non-empty chunks the stream yields exactly the messages of the blocks of the input, the unterminated last one included |
| `SseFormat.BlockParses` | crates/suzerain-client/src/lib.rs:789-812 | whatever mix of event, data, comment and other field lines a block holds, with or without the space, with either line end, it gives the last event name and all its data lines joined, or no message without data |
| `Sse.TrimMeans` | crates/suzerain-client/src/lib.rs:798 | trimming an event name takes away the whitespace at both ends, all of it, and nothing else |
| `SseFormat.StreamRoundTrip` | crates/suzerain-client/src/lib.rs:728-812 | whatever blocks a sender writes in the event-stream format, comments, other fields, both line ends and data-less blocks included, and however the bytes are chunked, exactly the messages of its blocks arrive, in order |
| `SseFormat.KeepAliveIsSilent` | crates/suzerain/src/web.rs:303-304 | a keep-alive comment block between or among messages yields nothing |
| `Redaction.BracketFreeIsMarkerProof` | crates/castellan/src/journal.rs:67-78 | the 12-byte minimum makes every bracket-free registered secret unable to overlap the inserted marker |
| `Redaction.ReplaceAddsNothing` | crates/castellan/src/journal.rs:84-96 | a replacement creates no new occurrence of such a secret and leaves none of the replaced one |
| `Redaction.MarkerProofNeverSurvives` | crates/castellan/src/journal.rs:84-96 | such a secret is absent at the end whatever the other secrets and their order |
| `Redaction.SafeExactlyWhenMarkerProof` | crates/castellan/src/journal.rs:84-96 | a registered secret is absent from every redacted text in every company if and only if it cannot overlap the marker |
| `Redaction.OwnRedactionRecreates` | crates/castellan/src/journal.rs:84-96 | a secret beginning with the marker's end survives its own redaction |
| `Redaction.RedactionIsTotal` | crates/castellan/src/journal.rs:18-34 | with such secrets no string value anywhere in a redacted payload contains one |
| `Redaction.CleanValueUnchanged` | crates/castellan/src/journal.rs:18-34 | a payload without secrets is unchanged |
| `Redaction.RedactionKeepsShape` | crates/castellan/src/journal.rs:18-34 | at every path a redacted payload has the same constructor, array length, object keys and non-string leaf, a string is the redaction of the old one, and there are no other paths |
| `Redaction.ReplaceFirst` | crates/castellan/src/journal.rs:84-96 | text around a secret is kept: up to the secret's first occurrence the output is the input, then comes `[REDACTED]`, then what the rest gives, for any text before and after |
| `Redaction.RedactInOrder` | crates/castellan/src/journal.rs:84-96 | secrets are replaced one after the other, in their order, each in what the earlier ones left |
| `Redaction.RegisteredSecretsNeverShip` | crates/castellan/src/journal.rs:67-96 | registering any bracket-free values keeps every one of at least 12 bytes out of every string at every path of every payload |
| `Redaction.SecretRegistry.Register` | crates/castellan/src/journal.rs:67-78 | registration replaces the agent's set by the long enough values and touches no other agent |
| `Redaction.SecretRegistry.Unregister` | crates/castellan/src/journal.rs:80-82 | removes one agent's set and no other |
| `Redaction.SecretRegistry.Redact` | crates/castellan/src/journal.rs:84-96 | the loop computes the redaction with the agent's own set |
| `SingleFlight.WakeService.Join` | crates/suzerain/src/wake.rs:109-130 | returns the agent's attempt in flight, or starts exactly one |
| `SingleFlight.WakeService.Complete` | crates/suzerain/src/wake.rs:62-65 | stores the task's result and notifies once; every other attempt and the table in flight stay as they are |
| `SingleFlight.AtMostOneWake` | crates/suzerain/src/wake.rs:109-130 | in every interleaving two unfinished wake tasks of one agent are the same task, and it is the one handed to callers |
| `SingleFlight.NoLostWakeUp` | crates/suzerain/src/wake.rs:62-75 | in every reachable state a blocked waiter can resume exactly when its task is past notifying, so none stays blocked on a completed and notified attempt |
| `SingleFlight.EveryWaiterReturns` | crates/suzerain/src/wake.rs:67-75 | in every interleaving, once the task of its attempt has notified, a waiter that does not give up is never stuck and returns what that task finished with, within three steps of its own, whatever the others do |
| `SingleFlight.NeverStuck` | crates/suzerain/src/wake.rs:67-75 | once its attempt has notified, a waiter that has not returned can always take its next step |
| `SingleFlight.OutcomeIsShared` | crates/suzerain/src/wake.rs:62-75 | all waiters that returned from one attempt returned the same outcome |
| `SingleFlight.ReturnedIsTheResult` | crates/suzerain/src/wake.rs:62-75 | in every interleaving whoever returned an outcome from an attempt returned what that attempt's task finished with |
| `SingleFlight.FinishesOnce` | crates/suzerain/src/wake.rs:109-130 | a wake task finishes at most once in a run |
| `SingleFlight.EveryoneWaitsForItsAgent` | crates/suzerain/src/wake.rs:109-130 | in every interleaving a waiter waits on an attempt for the agent of its own last call |
| `WakeRetry.SchedulerAvoidsExcluded` | crates/suzerain/src/scheduler.rs:136-142 | placement, preempting or not, never answers with an excluded daemon |
| `WakeRetry.RetriesNeverRepeat` | crates/suzerain/src/wake.rs:273-363 | the daemons ordered to start or restore the agent in one wake are pairwise distinct and at most one more than the attempts; giving up always has a reason |
| `WakeRetry.EveryEnding` | crates/suzerain/src/wake.rs:229-409 | past the retry loop without success the agent is Failed and flagged and exactly the messages then pending are failed; every success leaves it Active and unflagged on the daemon ordered last, and the queue drained, even if the drain then fails |
| `WakeRetry.OtherwiseRetries` | crates/suzerain/src/wake.rs:229-271 | a wake ends without retrying exactly if the row is gone, at the reload or after waiting for a provisioning, or is Active with its daemon connected; every other wake retries the row it was left with |
| `WakeRetry.AnswersDecideWake` | crates/suzerain/src/wake.rs:273-409 | past that a wake is what its answers make it: woken at home if that is online and accepts, with no other order; else attempt by attempt placed with exactly the failed daemons excluded, woken by the first restore answered yes, on that daemon, else Failed with the reason of the last attempt; the orders are the start at home if online, then the restores |
| `WakeRetry.WokenExactlyWhenAnswered` | crates/suzerain/src/wake.rs:277-363 | the retry loop ends woken if and only if its last order was answered yes, and every order before it was answered no |
| `WakeRetry.AttemptMarks` | crates/suzerain/src/wake.rs:333-361 | an attempt shows the row Restoring exactly if it ordered a restore that got past looking for the bundle |
| `WakeRetry.WakeTask.TryDaemons` | crates/suzerain/src/wake.rs:273-363 | the retry loop leaves the row, the orders and the last error of its specification |
| `WakeRetry.WakeTask.WakeAgent` | crates/suzerain/src/wake.rs:229-409 | a whole wake, on the stored row and queue, is the specification of which the endings are proved |
| `MessageQueue.DrainConserves` | crates/suzerain/src/wake.rs:414-441 | for all arrivals at any await, no message disappears, each taken one is prompted once in enqueue order and ends delivered, or failed with its own prompt; on success nothing is pending and everything due was taken |
| `MessageQueue.PromptsCarryBodies` | crates/suzerain/src/wake.rs:420-426 | each prompt is the bodies of the messages it took, oldest first, with the separator between |
| `MessageQueue.PromptsLayOutBodies` | crates/suzerain/src/wake.rs:420-426 | in each prompt the bodies it took stand whole and in order, the first at its start, the last at its end, with exactly `\n\n---\n\n` between |
| `Strings.JoinLaysOut` | crates/suzerain/src/wake.rs:421-425 | texts joined by a separator stand in order with exactly the separator between and nothing before or after |
| `MessageQueue.PendingPositions` | crates/suzerain/src/store.rs:1367-1374 | pending messages are exactly the unsettled ones, in id order |
| `MessageQueue.Inbox.FlushPending` | crates/suzerain/src/wake.rs:414-441 | the drain loop terminates and leaves queue, prompts and result of its specification |
| `StateReports.Registry.HandleReport` | crates/suzerain/src/control.rs:864-919 | the loops over rows and entries compute the report function |
| `StateReports.ReportsAreIsolated` | crates/suzerain/src/control.rs:890-898 | rows of other daemons are unchanged, no row appears and none changes owner |
| `StateReports.ReportsConverge` | crates/suzerain/src/control.rs:864-919 | each owned row has its last reported state, is gone if reported decommissioned, or is Failed if missing from a full report |
| `StateReports.ReportsCarryFacts` | crates/suzerain/src/control.rs:899-912 | of every surviving row of the daemon idle time and busy flag are those of the last entry about it that tells either, dated with the report, the session file is the last non-empty one told, facts not told stay as they were, and nothing but the state changes besides |
| `StateReports.ReportsAreIdempotent` | crates/suzerain/src/control.rs:864-919 | the same report again, at any later time, changes no owner and no state |
| `StateReports.PromiseExactlyWhen` | crates/suzerain/src/control.rs:868-898 | a surviving row keeps the plain promise of a full report if and only if it is mentioned, its id is not reported, or it was already terminal |
| `StateReports.RenamedIdKeepsState` | crates/suzerain/src/control.rs:868-898 | the promise fails for every live row whose id a full report gives under another name: it keeps its state |
| `CrashLoop.RestartTracks` | crates/castellan/src/supervisor.rs:790-853 | one call keeps every two recorded attempts five apart more than the window apart, whatever fails |
| `CrashLoop.LifeIsSpaced` | crates/castellan/src/supervisor.rs:495-556 | over a monitor's whole life, any crashes and any respawn results, attempts i and i+5 are more than 600 s apart |
| `CrashLoop.FiveFailuresEndIt` | crates/castellan/src/supervisor.rs:801-853 | from an empty window five failing respawns end the call in a crash loop after exactly those five if and only if they take at most 538 s beyond their backoffs |
| `CrashLoop.CallRunsOnTheClock` | crates/castellan/src/supervisor.rs:790-853 | every call: attempts at the instants given by waits of 2, 4, 8, 16, 32 and then 60 s; respawned exactly if its last attempt succeeded, and none before it did; a crash loop exactly if all failed and five attempts fall into the last 600 s at a check |
| `CrashLoop.Monitor.RestartWithBackoff` | crates/castellan/src/supervisor.rs:790-853 | the loop over the deque is the specification, and the agent is marked Failed exactly in a crash loop |
| `Base64.Base64Encode` | crates/suzerain/src/bundle.rs:173-197 | the chunk loop computes the encoding |
| `Base64.Base64Decode` | crates/castellan/src/control.rs:938-968 | the strict group loop computes the decoding, failures included |
| `Base64.ClientDecode` | crates/suzerain-client/src/lib.rs:693-722 | the lenient group loop computes the decoding |
| `Base64.DigitIsTableEntry` | crates/castellan/src/control.rs:911-920 | the ranges of the decoders are the table of the encoders |
| `Base64.RoundTrip` | crates/castellan/src/control.rs:911-968 | strict and lenient decoders invert the encoders on every byte sequence |
| `Base64.EncodeInjective` | crates/suzerain/src/bundle.rs:173-197 | different bytes never share a text |
| `Base64.EncodeIsCanonical` | crates/suzerain/src/bundle.rs:173-197 | every encoding is canonically padded, so every decoder agrees on it |
| `Base64.DecodersAgreeExactlyWhen` | crates/suzerain-client/src/lib.rs:693-722 | strict and lenient decoding give the same bytes if and only if the text, whitespace aside, is full groups of digits and pads with at most two pads each |
| `Base64.CanonicalTextsInteroperate` | crates/suzerain/src/bundle.rs:199-229 | all decoders agree on every canonically padded text, wherever whitespace is inserted |
| `Base64.WhitespaceIsIgnored` | crates/castellan/src/control.rs:938-941 | any of the five ASCII whitespace characters anywhere in a text leaves both decoders' answers unchanged |
| `Base64.StrictFailsExactlyWhen` | crates/castellan/src/control.rs:940-960 | strict decoding fails if and only if the text holds a character that is no digit, pad or whitespace |
| `Base64.GroupLayout` | crates/castellan/src/control.rs:950-968 | both decoders read full groups by the bit layout of RFC 4648, one byte less for each pad at the end |
| `ShellQuote.QuoteLexes` | crates/castellan/src/provision.rs:28-30 | wherever a quoted string stands, the shell appends exactly the string to the current word |
| `ShellQuote.QuoteRoundTrip` | crates/castellan/src/provision.rs:28-30 | a quoted string is one word equal to it, if and only if it has no NUL |
| `ShellQuote.QuoteListRoundTrip` | crates/castellan/src/provision.rs:827-832 | a space-joined list of quoted words tokenises back to exactly that list, if and only if no word has a NUL |
| `ShellQuote.InstallCommandTokens` | crates/castellan/src/provision.rs:827-837 | the install command passes each package name as one argument, unchanged |
| `FileLocks.LockRegistry.LockFor` | crates/suzerain/src/file_locks.rs:32-39 | the same lock for the same path ever after, different locks for different paths |
| `FileLocks.PruneContent` | crates/suzerain/src/retention.rs:286-317 | the line loop computes what a sweep leaves of a file |
| `FileLocks.PruneKeepsFresh` | crates/suzerain/src/retention.rs:290-312 | a sweep loses, repeats and reorders no well-formed line that is recent enough |
| `FileLocks.PruneLeaves` | crates/suzerain/src/retention.rs:286-317 | a sweep leaves a file without a dated line older than the cutoff untouched, and otherwise exactly the well-formed lines that are not older |
| `FileLocks.AppendsSurvivePruning` | crates/suzerain/src/retention.rs:286-317 | in every interleaving of appenders and pruners that may die anywhere, on every path on which no rewrite was cut off, the well-formed lines no older than any cutoff used are exactly those appended, once each, in append order: in the file, or during a rewrite in the file and the hands of its one rewriter |
| `FileLocks.CutLosesExactly` | crates/suzerain/src/retention.rs:311-312 | a rewrite that is cut off loses nothing if and only if no recent enough line was still to be written back |
| `FileLocks.CriticalSectionsExclude` | crates/suzerain/src/file_locks.rs:32-39 | in every interleaving at most one process of a path is in its critical section |
| `FileLocks.DoneSweepLeavesNoneOld` | crates/suzerain/src/retention.rs:286-317 | in every interleaving a sweep that has finished leaves no dated line older than its cutoff in the file |
| `FileLocks.BatchesAreBlocks` | crates/suzerain/src/control.rs:1062-1076 | in every interleaving the lines an appender has written under the lock stand together at the end of all appended to the path |
| `FileLocks.NeverStuck` | crates/suzerain/src/file_locks.rs:32-39 | in every interleaving a process has a next step, or waits for a lock whose holder has one |
| `FileLocks.SweepAlone` | crates/suzerain/src/retention.rs:286-317 | a sweep of a free path, left alone, has a run that ends with exactly the pruned file and every other file unchanged |
| `FileLocks.AppendAlone` | crates/suzerain/src/control.rs:1062-1076 | so has a batch of lines, which ends up at the end of its file |

## Left out

- `LogShipping.Journal.Append`: takes the payload as already redacted; redaction is proved separately.
- `Base64.Base64Decode`: the copies in castellan and in the bundle store are the same code, so one model stands for both; the three encoders differ only in spelling and have one model too.
- Integer widths: sequence numbers, resources and backoffs are unbounded; overflow of `u32` and `u64` is not modelled.
- Torn appends: a journal or log line is written whole or not at all. A prune is one step; the source writes a temporary file and renames it.
- Two writers of one journal open at once, as when a monitor outlives its agent's entry while the agent is started again, are not modelled.
- An agent restored on another daemon: that daemon's journal starts a fresh numbering, so the shipping theorems are per daemon.
- Retention and the shipping theorems are separate: "stored centrally" means written to the log file, which a later retention sweep may shorten.
- Pins: a pinned placement bypasses the fit check, so pins appear neither in placement nor in preemption.
- `Scheduler.PlaceIsComplete`: scores are reals, so ties made or broken by floating-point rounding are not captured.
- Daemon ids are compared as stored; that a parsed and re-printed endpoint id is the same text is not proved.
- Registry, store and file errors other than the ones named end the operation in the source and are not modelled.
- `WakeRetry.EveryEnding`: the row of the agent being woken is changed by the wake alone; state reports arriving during the wake are not interleaved.
- A restore that timed out is dropped; effects it may still have on the remote daemon are not modelled.
- A wake task that panics never completes its attempt; the source has no handling for it and neither has the model.
- `MessageQueue.DrainConserves`: one flush at a time; deletion of old settled messages is not interleaved.
- Session eras: a state report updates the row's session file, the table of eras is not part of this model.
- Rust's lossy UTF-8 decoding and Unicode trimming: texts are code units and whitespace is ASCII; the stream parser's separators and field names are ASCII, so blocks are not affected.
- The event-stream format beyond `event`, `data` and comment lines (`id`, `retry`, lone carriage returns) is ignored by the source too.
- Retention's timestamps are integers; parsing of RFC 3339 text is not part of this model.
- Respawning only the driver's child first and the whole machine later: both are a respawn that works or not.
- Networking, HTTP routes, the web UI, the CLI, machine boot, provisioning scripts, encryption and hashing: transport, presentation or foreign calls.
- The auto-suspend sweep, the central bundle store, catalog crawling and configuration migration: they would only add easy members.
