# msrs: a verified model of the deterministic pipeline, its watchdog and its replay gate

A service built on msrs runs a middleware transport on a driver thread and a task graph on another. The two
meet in two channels:

    driver thread -> inbound channel -> ingress -> state machine -> egress -> outbound channel

The iterating thread drains the inbound channel in batches, stamps each batch with the clock, steps a state
machine once, sends what the machine emitted, and logs the iteration. A replay gate then runs a cold machine
over the log and compares. The claim behind all of this is that the log determines the run. This project
models the pipeline, the log, the gate and the two example services (watchdog and echo), and proves that claim
together with the safety and timing properties that rest on it.

The results, over every interleaving of sends, clock readings, a transport that hangs up, and the atomic steps
of the iterating thread:

- **Conservation and order** at every intermediate step, the **meaning of a cycle**, and **bounded waiting**.
- **No false trip** and **bounded detection**, end to end, from the instant a message enters the queue. The
  bound of the former is exact, both for what an empty queue is seen to miss and for steady feeding, where a
  bounded queue makes it smaller.
- **Every live run replays**, also from a log that a crash has cut anywhere, and what was sent is what the
  log holds.
- The **gate's report is exact**. A passing gate means the log is the cold machine's own if and only if the
  encoding tells any two outputs apart (so that at most one output has none).
- The **negative control** fails at exactly the step it damages and diverges at one to three places.
- The watchdog **refines its history**, whether or not the clock goes backwards.
- The echo service answers **independently of the schedule**: every message is echoed in its place, with its number
  and its whole body, once as many iterations have finished as messages were ahead; a run stops only for a cause.
  Its replay is independent of the clock.
- Both demonstrations, in place: run live under a schedule, log, read back, replay, compare.

## Layout

| file | contents |
|---|---|
| `Basics`, `Messages`, `Machines` | 64-bit naturals, the values between tasks, deterministic step machines |
| `Channels` | what the threads share, in place, and the schedule of the other threads |
| `Effects`, `FsmTask` | the effects buffer; the two adapters and their runs |
| `Watchdog`, `WatchdogHistory` | the watchdog in place; what its state and alarms say of the past |
| `Intake`, `Pipeline`, `Delivery` | the inbound side and the whole pipeline as transition systems; what every run delivers |
| `Timing`, `TimingExact`, `SteadyTiming` | end-to-end timing of the watchdog |
| `Replay`, `LogStream`, `LiveReplay`, `NegativeControl` | the gate, the log reader, replay of live runs, the control |
| `Tasks`, `Runtime`, `WatchdogDemo` | the tasks and the iteration in place, each shown to be a run of the pipeline |
| `SinglePipeline`, `SingleDelivery`, `SingleTasks` | the one-message pipeline, what every run of it delivers, and its tasks in place |
| `EchoText`, `Echo`, `EchoDemo` | the text of an echo, the echo service and its demonstration |

A run of the pipeline is any sequence of actions: a send (ignored while a bounded queue is full), the clock
moving on, the transport hanging up, or the next atomic step of the iterating thread. A state remembers every
message ever sent with the time it was enqueued, and for each finished cycle when its drain began, when it saw
the queue empty and when it measured the backlog. The imperative code in `Tasks`, `Runtime` and `SingleTasks`
reads and writes real channels; before each of its atomic steps the other threads act as an arbitrary schedule
says. A ghost trace collects every action: its foreign part is what the schedule has said so far, and the fields
always are those of the pipeline after that trace.

Where the documentation says more than the code does, the code is followed:

- `pending` is documented as showing that input outpaces the loop (`crates/msrs-transport/src/tasks.rs:145-147`).
  It is measured after the drain, so a message sent in between is counted even when the drain found nothing
  (`BacklogOfAnEmptyCycle`). A backlog means a full batch exactly when nothing was sent between seeing the queue
  empty and measuring it (`BacklogMeansFullBatch`).
- The gate is documented as comparing encodings (`crates/msrs-core/src/replay.rs:89-95`). It compares optional
  encodings, so two outputs that cannot be encoded count as equal, and a wrong log passes
  (`UnencodableMistakePasses`, `UnencodablePasses`). Passing proves the outputs equal exactly when the encoding is
  injective (`PassingProvesExactly`).
- `Eof` is documented first as a clean end and then as also covering a truncated record
  (`crates/msrs-core/src/replay.rs:21-25`). The second is what holds; `ReadTruncated` and `CountBetraysCut` say
  exactly what survives a cut and that only the count betrays it.

## Model

| member | source | states |
|---|---|---|
| EffectsBuffer.Effects.Emit | crates/msrs-core/src/effects.rs:22-24 | the value joins the buffer after those already there |
| EffectsBuffer.Effects.Take | crates/msrs-core/src/effects.rs:32-34 | everything emitted is handed over in emission order and the buffer is empty |
| EffectsBuffer.Effects.TakeOne | crates/msrs-core/src/effects.rs:42-49 | the buffer is empty afterwards in every case; a fault exactly when more than one value was emitted, with the true count; otherwise the value or none |
| EffectsBuffer.One | crates/msrs-core/src/effects.rs:42-49 | the same reading on values: an error exactly for more than one emission, carrying the count; otherwise the result determines the buffer |
| FsmAdapters.TriggerFor | crates/msrs-core/src/fsm_task.rs:74-86 | a message with the payload if there is one; otherwise a tick at the slot's time, at the start of its range, or at the one clock reading taken for it; the clock is read for no other slot |
| FsmAdapters.FsmTask.Process | crates/msrs-core/src/fsm_task.rs:141-164 | the machine moves on in every case; a fault exactly for more than one emission, with its count; the payload is the single emission or cleared; the output time is touched only when something is forwarded; how often the clock was read |
| FsmAdapters.FsmBatchTask.Process | crates/msrs-core/src/fsm_task.rs:222-240 | everything emitted is forwarded as one batch, nothing emitted clears the payload and leaves the output time alone; how often the clock was read |
| FsmAdapters.BatchForwardsAll | crates/msrs-core/src/fsm_task.rs:222-240 | over any run the batch adapter forwards exactly what the machine emits, in order, and ends in the machine's state |
| FsmAdapters.AdaptersAgree | crates/msrs-core/src/fsm_task.rs:141-164 | while no step emits more than once, both adapters forward the same values and reach the same state without a fault |
| FsmAdapters.FaultsExactlyThere | crates/msrs-core/src/fsm_task.rs:152-161 | the single-output adapter faults exactly at the first step that emits more than once, with the true count, having forwarded all before it |
| FsmAdapters.ClockDoesNotMatter | crates/msrs-core/src/fsm_task.rs:67-86 | over slots that are all stamped, two runs with arbitrary different clocks have the same triggers, states, payloads and faults |
| FsmAdapters.UnstampedSlotsNeedTheClock | crates/msrs-core/src/fsm_task.rs:72-83 | a slot's trigger is independent of the clock if and only if it has a payload or a time |
| FsmAdapters.ClockMattersExactly | crates/msrs-core/src/fsm_task.rs:67-86 | a log of slots determines its triggers, whatever the live clock read, if and only if every slot is stamped |
| FsmAdapters.RunLogged | crates/msrs-core/src/fsm_task.rs:141-164 | the adapter run in place over stamped slots leaves the state, payloads and fault of the pure run over those slots, whatever clock readings the two were given |
| Watchdog.WatchdogStore.RecordFeed | examples/watchdog/src/watchdog.rs:59-61 | the store remembers the latest feed's time |
| Watchdog.WatchdogStore.SilentNs | examples/watchdog/src/watchdog.rs:64-66 | zero before any feed; otherwise the time since the last one, and zero for a clock behind it |
| Watchdog.WatchdogStore.Expired | examples/watchdog/src/watchdog.rs:69-71 | true exactly when there was a feed, more than the timeout ago |
| Watchdog.WatchdogCtx.OnIdle | examples/watchdog/src/watchdog.rs:102-111 | a feed arms, is recorded and raises `Armed`; a check changes nothing |
| Watchdog.WatchdogCtx.OnArmed | examples/watchdog/src/watchdog.rs:114-127 | a feed is recorded silently; a check trips exactly when the feed has expired, reporting the silence |
| Watchdog.WatchdogCtx.OnTripped | examples/watchdog/src/watchdog.rs:130-139 | a feed re-arms, is recorded and raises `Recovered`; a check changes nothing |
| Watchdog.WatchdogMachine.Handle | examples/watchdog/src/watchdog.rs:99-140 | one event through the current state's handler: the new state, store and alarms |
| Watchdog.WatchdogMachine.Step | examples/watchdog/src/watchdog.rs:167-183 | the loop over events, the check and the drain of alarms equal the loop-free closed form of a cycle; alarms are appended to the effects; nothing stays in the machine's own buffer; a tick does nothing |
| Watchdog.WatchdogMachine.Default | examples/watchdog/src/watchdog.rs:152-161 | a machine starts idle, never fed, with the default timeout |
| Watchdog.RunStepAll | crates/msrs-core/src/fsm_task.rs:55-59 | a step in isolation returns every alarm in order and leaves the closed form's state |
| WatchdogHistory.StateRefinesHistory | examples/watchdog/src/watchdog.rs:58-140 | for any cycles and any clock: idle iff no cycle was fed; tripped iff some cycle after the last fed one is stamped more than the timeout later; the store holds the last fed cycle's stamp |
| WatchdogHistory.AlarmsRefineHistory | examples/watchdog/src/watchdog.rs:99-183 | for any cycles and any clock, each alarm iff its cause in the history: `Armed` at the first fed cycle, `Recovered` at the first fed cycle after a timeout, `Tripped(d)` at the first overdue cycle with exactly that `d`; at most one a cycle |
| WatchdogHistory.TripOrigin | examples/watchdog/src/watchdog.rs:120-124 | every trip in the alarm stream is the whole answer to some cycle |
| WatchdogHistory.AlarmGrammar | examples/watchdog/src/watchdog.rs:99-183 | the alarms of any run are a prefix of Armed (Tripped Recovered)*, and the state shows where in it they stand |
| WatchdogHistory.Resynchronises | crates/msrs-core/src/replay.rs:92-95 | two watchdogs with equal timeouts and any two pasts have the same state, and raise the same later alarms, once both have seen the same fed cycle; a final-state match proves nothing |
| WatchdogHistory.TicksDoNothing | examples/watchdog/src/watchdog.rs:168-172 | a run over any triggers leaves the state and raises the alarms of the run over its cycles alone |
| WatchdogHistory.OnlyPresenceMatters | examples/watchdog/src/watchdog.rs:174-179 | runs whose cycles agree on stamps and on being fed have the same states and alarms, whatever the number of feeds, their contents and the backlog |
| WatchdogHistory.TrippedByLastStamp | examples/watchdog/src/watchdog.rs:64-71 | when stamps never decrease, tripped iff the last stamp is later than the last fed one by more than the timeout |
| WatchdogHistory.LastStampDecidesExactly | examples/watchdog/src/watchdog.rs:120-139 | for any clock: the last stamp decides whether the watchdog is tripped if and only if it is overdue itself or no stamp after the last fed one is |
| WatchdogHistory.TrippedDespiteLastStamp | examples/watchdog/src/watchdog.rs:130-139 | when they may decrease that is false: a history that stays tripped though its last stamp is within the timeout |
| Intake.EnqueueInv | crates/msrs-transport/src/driver.rs:41-48 | a send, or a send held back by a full queue, keeps the intake invariant at any phase of the drain, the capacity included |
| Intake.ElapseInv | crates/msrs-transport/src/tasks.rs:208-209 | time passing at any phase keeps the intake invariant |
| Intake.PullInv | crates/msrs-transport/src/tasks.rs:62-69 | each atomic step of a drain (pull, stop at the cap without pulling, see the queue empty, measure, stamp) keeps the intake invariant |
| Intake.HandOverInv | crates/msrs-transport/src/tasks.rs:206-213 | a stamped cycle joins the history and the next drain continues where it stopped |
| Pipeline.RunGood | crates/msrs-core/src/fsm_task.rs:222-240 | in every reachable state the machine is the cold machine's fold over the cycles so far, accepted and unsent outputs make up its emissions, and the log holds exactly the finished iterations |
| Delivery.Conservation | crates/msrs-transport/src/tasks.rs:62-69 | at every intermediate step of every run: messages sent are those of completed cycles, then those in hand, then those queued, in order; a bounded queue never exceeds its capacity |
| Delivery.CycleMeaning | crates/msrs-transport/src/tasks.rs:59-69 | a cycle's events are consecutive messages, none enqueued after the stamp; `pending` is sent minus drained when measured; below the cap, all of `pending` was enqueued after a moment in this cycle when the queue was empty |
| Delivery.BacklogOfAnEmptyCycle | crates/msrs-transport/src/tasks.rs:145-147 | a run whose cycle drained nothing and still reports a backlog |
| Delivery.BacklogMeansFullBatch | crates/msrs-transport/src/tasks.rs:145-147 | for every run and cycle: a backlog means a full batch if and only if nothing was sent between seeing the queue empty and measuring it |
| Delivery.StampsIncrease | crates/msrs-transport/src/tasks.rs:208-209 | the stamps of a live run never decrease |
| Delivery.EgressPrefix | crates/msrs-transport/src/tasks.rs:308-315 | at every moment the transport has accepted a prefix of the cold machine's emissions; all of them between iterations; after a fault all but a non-empty rest, and only if the transport hung up |
| Delivery.Disconnects | crates/msrs-transport/src/tasks.rs:54 | the transport is there exactly while no hang-up has happened |
| Delivery.BoundedWait | crates/msrs-transport/src/tasks.rs:62-69 | between cycles, a message with `i` ahead of it is in one of the next `i / maxBatch + 1` cycles, under any concurrent sends |
| Delivery.BoundedWaitByCapacity | crates/msrs-transport/src/driver.rs:41-48 | with capacity C every queued message is in one of the next ceil(C / maxBatch) cycles |
| Timing.TraceIsHistory | examples/watchdog/src/main.rs:3-9 | state and alarms of the live service are the watchdog's on the cycles of the run, and what was sent is a prefix of them |
| Timing.LiveTripped | examples/watchdog/src/watchdog.rs:120-124 | live, the machine is tripped exactly when the latest stamp is overdue |
| Timing.NoFalseTrip | crates/msrs-transport/src/tasks.rs:206-213 | if an empty queue is never seen more than `gap` after the latest feed and an empty cycle is stamped at most `delay` after seeing it, with gap + delay within the timeout, no `Tripped` is raised or sent, for any interleaving, backlog, cap and capacity |
| Timing.NoFalseTripWhileFed | examples/watchdog/src/watchdog.rs:167-183 | the same for feeds enqueued at most `gap` apart that have not stopped |
| Timing.BoundedDetection | crates/msrs-transport/src/tasks.rs:62-69 | after the last feed, with q messages queued between cycles and stamps at most `pace` apart, the machine trips by a stamp at most timeout + (ceil(q / maxBatch) + 1) * pace later and stays tripped; a trip in that time reports a silence above the timeout and at most one pace longer |
| TimingExact.TripBeyond | examples/watchdog/src/watchdog.rs:120-124 | whenever gap + delay exceeds the timeout and fits in 64 bits, a run within both bounds that trips |
| TimingExact.NoFalseTripExactly | examples/watchdog/src/watchdog.rs:64-71 | the two bounds exclude a trip over all runs if and only if together they fit in the timeout, or the timeout is the largest there is |
| SteadyTiming.RunUncrowded | crates/msrs-transport/src/driver.rs:36-48 | with capacity c, in every run, messages more than c past what a turn drained were enqueued no earlier than its stamp |
| SteadyTiming.NoSteadyTrip | crates/msrs-transport/src/tasks.rs:206-213 | feeds at most `gap` apart allow a silence of at most gap + delay, of at most (c + 1) * gap with capacity c, and of none when gap is zero; no trip when that fits in the timeout |
| SteadyTiming.SteadyTripBeyond | examples/watchdog/src/watchdog.rs:120-124 | when it does not fit, a steadily fed run that trips |
| SteadyTiming.NoSteadyTripExactly | examples/watchdog/src/watchdog.rs:64-71 | steady feeding excludes a trip over all runs if and only if that longest silence fits in the timeout, or the timeout is the largest there is |
| Replay.ReplayGate | crates/msrs-core/src/replay.rs:96-126 | the loop with its stateful step: the exact report, the machine's final state, and no report exactly when checked `p + 1` overflows |
| Replay.NoteId | crates/msrs-core/src/replay.rs:106-111 | a pair is added exactly when the id does not succeed the previous one; no report exactly when checked `p + 1` overflows |
| Replay.NoteOutput | crates/msrs-core/src/replay.rs:113-123 | optional encodings that differ count one divergence more, and the first one is kept |
| Replay.NoteRecord | crates/msrs-core/src/replay.rs:105-124 | one pass of the loop takes the exact report on k records to that on k + 1 |
| Replay.StandingAtEnd | crates/msrs-core/src/replay.rs:105-125 | after the last record the report is the exact one and nothing has overflowed |
| Replay.TallyIsCardinality | crates/msrs-core/src/replay.rs:115-116 | the running count is the number of records whose optional encodings differ, with the state threaded through all steps |
| Replay.FirstFoundIsFirst | crates/msrs-core/src/replay.rs:117-122 | the reported divergence is at the least divergent index, with that record's id, input and both outputs; none exactly when no record diverges |
| Replay.GapPositionsExact | crates/msrs-core/src/replay.rs:106-110 | the gaps are exactly the positions whose id does not succeed the previous one, each once, in order |
| Replay.GapPairsExact | crates/msrs-core/src/replay.rs:78-79 | one reported pair for each gap, holding the ids on both sides |
| Replay.NoGapsMeansConsecutive | crates/msrs-core/src/replay.rs:106-111 | no gap if and only if ids count up from the first |
| Replay.PassedExactly | crates/msrs-core/src/replay.rs:84-86 | passed if and only if the log is not empty, no record diverges and ids count up from the first |
| Replay.PassedMeansReplayed | crates/msrs-core/src/replay.rs:89-126 | with injective encodings, passed if and only if the outputs are the cold machine's answers (and the log is non-empty and consecutive) |
| Replay.UnencodablePasses | crates/msrs-core/src/replay.rs:113-114 | of two recordings of the same steps with different outputs at most one is the machine's own, and both pass when nothing can be encoded |
| Replay.UnencodableMistakePasses | crates/msrs-core/src/replay.rs:113-114 | a concrete machine and log whose outputs differ and that pass |
| Replay.ConfusedOutputsPass | crates/msrs-core/src/replay.rs:113-114 | for any two different outputs with the same encoding, or both with none, a machine and a log that pass though the log is not the machine's |
| Replay.PassingProvesExactly | crates/msrs-core/src/replay.rs:89-95 | passing proves the outputs to be the cold machine's, over all machines and logs, if and only if the encoding is injective |
| Replay.PrefixPasses | crates/msrs-core/src/replay.rs:92-95 | every non-empty prefix of a passing recording passes |
| LogStream.ReadCopperlists | crates/msrs-core/src/replay.rs:46-58 | the decode loop returns the records and the end of the recursive reading, and terminates on the bytes remaining |
| LogStream.ReadBack | crates/msrs-core/src/replay.rs:28-58 | round trip: reading what was written returns it, with a clean end |
| LogStream.ReadTruncated | crates/msrs-core/src/replay.rs:23-24 | cut at any byte, the stream yields the records that lie completely before the cut, still with a clean end |
| LogStream.CompleteWithinExact | crates/msrs-core/src/replay.rs:23-24 | those are the largest number of leading records that fit in the cut |
| LogStream.CountBetraysCut | crates/msrs-core/src/replay.rs:23-24 | the number of records is the full number if and only if nothing was cut |
| LogStream.ReadDamaged | crates/msrs-core/src/replay.rs:55 | damage after complete records is reported as an error and the records before it are kept |
| LogStream.PrefixedIsLawful | crates/msrs-core/src/replay.rs:46-57 | a length-prefixed format meets every law assumed of the record format |
| LiveReplay.LogIsReplayed | examples/watchdog/src/main.rs:109-143 | each record of a live log holds the run's cycle and the cold machine's optional batch for it |
| LiveReplay.EveryRunReplays | examples/watchdog/src/main.rs:188-193 | the log of every run with a finished iteration passes the gate, for any machine, interleaving, hang-up and encoding, with and without overflow checks |
| LiveReplay.LogHoldsWhatWasSent | examples/watchdog/src/main.rs:172-186 | between iterations the recorded batches are exactly what was sent; within one or after a fault they lack just that iteration's alarms |
| LiveReplay.NoOverflow | crates/msrs-core/src/replay.rs:107 | contiguous ids within 64 bits never overflow in the gate |
| LiveReplay.PrefixReplays | crates/msrs-core/src/replay.rs:84-86 | the first n iterations of any run replay by themselves |
| LiveReplay.CutLogReplays | crates/msrs-core/src/replay.rs:46-58 | a live log cut at any byte reads back cleanly and passes, unless no record is left |
| NegativeControl.Perturb | examples/watchdog/src/main.rs:197-206 | finds the first record that armed and clears its feeds, or reports that none did |
| NegativeControl.LiveIsHonest | examples/watchdog/src/main.rs:109-134 | recordings of live watchdog runs are the cold watchdog's answers |
| NegativeControl.BackTogether | crates/msrs-core/src/replay.rs:92-95 | the recorded and the perturbed history have the same state from the next fed cycle on |
| NegativeControl.ControlDivergesExactly | examples/watchdog/src/main.rs:195-207 | the perturbed replay diverges at a record if and only if it is the cleared one, the first overdue one before the next feed, or the next fed one |
| NegativeControl.NegativeControlFails | examples/watchdog/src/main.rs:207-215 | the control never passes; its first divergence is the cleared record, recorded `Armed` against nothing; one to three divergences |
| NegativeControl.ControlHeals | crates/msrs-core/src/replay.rs:92-95 | no record after the next fed cycle diverges: the divergence disappears, as the gate's comment warns |
| NegativeControl.LiveControlFails | examples/watchdog/src/main.rs:195-211 | every live run with a fed cycle in its log has a record to clear, and the gate fails on the result |
| Channels.Inbox.TryRecv | crates/msrs-transport/src/tasks.rs:46-48 | takes the oldest message, or nothing from an empty queue |
| Channels.Outbox.Send | crates/msrs-transport/src/tasks.rs:52-57 | accepted exactly while the other side is there |
| Channels.DisturbGrows | crates/msrs-transport/src/driver.rs:36-48 | whatever the others do, messages only join at the end, the clock does not go back, and the transport is gone exactly after a hang-up |
| Channels.HangUpIsScheduled | crates/msrs-transport/src/driver.rs:56-60 | a run hangs up only if its schedule does |
| Channels.Link.Other | crates/msrs-transport/src/driver.rs:36-48 | a foreign action on the real channels and clock: a send only while there is room, a clock that never goes back, a hang-up |
| Channels.Link.Others | crates/msrs-transport/src/driver.rs:50-66 | between two atomic steps exactly the scheduled foreign actions happen, in order |
| Tasks.EgressStep | crates/msrs-transport/src/tasks.rs:52-57 | an empty slot never fails and sends nothing; a payload is sent or fails with the channel |
| Tasks.ForeignRun | crates/msrs-transport/src/driver.rs:50-66 | any foreign actions do to the pipeline's state what they do to the channels, and leave the iterating thread's stage, machine, outputs and log alone |
| Tasks.World.Others | crates/msrs-transport/src/driver.rs:50-66 | the trace grows by the scheduled actions, and this thread's stage, machine and log stay |
| Tasks.World.TryRecv | crates/msrs-transport/src/tasks.rs:63 | after any foreign actions, the next message joins the batch, or the drain is over |
| Tasks.World.Len | crates/msrs-transport/src/tasks.rs:67 | after any foreign actions, the length read is the backlog of the cycle |
| Tasks.World.ReadClock | crates/msrs-transport/src/tasks.rs:208-209 | after any foreign actions, the reading stamps the cycle |
| Tasks.World.SendNext | crates/msrs-transport/src/tasks.rs:310-312 | after any foreign actions, the next output is accepted, or the thread stops in a fault |
| Tasks.MaxBatchOf | crates/msrs-transport/src/tasks.rs:192-199 | an error exactly for a setting of the wrong type, which is passed on, and for zero; a missing setting is the default; an accepted cap is positive and fits in 32 bits |
| Tasks.CycleStep | crates/msrs-transport/src/tasks.rs:62-69 | the drain loop performs exactly the pipeline's pulls up to the cap or the first empty one, and then measures; the trace only grows, and the others have acted once before each pull, also the empty one, and once before the measurement |
| Tasks.CycleIngressTask.Process | crates/msrs-transport/src/tasks.rs:206-213 | the slot holds the pipeline's stamped cycle and its time is the stamp; the others have acted once more, before the clock was read |
| Tasks.BatchEgressTask.Process | crates/msrs-transport/src/tasks.rs:308-315 | all values of the batch are accepted in order, the others acting before each, or a proper prefix of them and the iteration has failed |
| Runtime.Application.Produce | crates/msrs-core/src/fsm_task.rs:222-240 | ingress and machine together bring the pipeline to its sending stage, with the cycle and the batch in the two slots |
| Runtime.Application.Finish | crates/msrs-transport/src/tasks.rs:308-315 | the copperlist written holds the cycle and the batch of the two slots, and is written only if all was sent |
| Runtime.Application.RunOneIteration | examples/watchdog/src/main.rs:93-95 | an iteration adds one copperlist, or stops in a fault and adds none |
| Runtime.Application.RunLive | examples/watchdog/src/main.rs:92-97 | the log is that of the pipeline's run, whose foreign actions are the schedule's; it has one copperlist for each iteration exactly when none failed, and none fails unless the transport hung up |
| WatchdogDemo.ReplayCycles | examples/watchdog/src/main.rs:137-143 | the machine in place, stepped over a history, ends in and answers what the history says |
| WatchdogDemo.CollectAlarms | examples/watchdog/src/main.rs:172-176 | the alarms of a recording, batch after batch |
| WatchdogDemo.ReplayThrough | examples/watchdog/src/main.rs:136-143 | the gate over the machine in place gives the exact report of the recording |
| WatchdogDemo.ReplayRecording | examples/watchdog/src/main.rs:136-143 | the same with a fresh machine; no report exactly when an id overflows |
| WatchdogDemo.RunService | examples/watchdog/src/main.rs:76-105 | what was sent and logged is that of a run whose foreign actions are the schedule's; every iteration finishes unless the schedule hangs up, and the log then holds exactly what was sent |
| WatchdogDemo.RecordAndReplay | examples/watchdog/src/main.rs:145-216 | run under a schedule, log, read back and replay in place: the report passes if any iteration finished, the recorded alarms are those sent if all did, and if the watchdog armed the negative control fails as it must (given an injective encoding) |
| SinglePipeline.LiveKept | crates/msrs-transport/src/tasks.rs:120-127 | in every reachable state of the one-message pipeline: messages are conserved in order, every logged slot has a time, and the cold machine over the logged slots gives the recorded payloads |
| SinglePipeline.LogReplays | crates/msrs-core/src/fsm_task.rs:67-73 | for any machine and interleaving, replaying the recorded slots with any clock gives the recorded payloads and the values sent, without a fault |
| SingleDelivery.WaitsItsTurn | crates/msrs-transport/src/tasks.rs:46-48 | between iterations, the message with `i` ahead of it is the payload of the slot logged `i` iterations later, under any concurrent sends |
| SingleDelivery.EmptySlotMissesNothing | crates/msrs-transport/src/tasks.rs:120-124 | a slot is empty only if everything sent by any moment before its pull had already been taken |
| SingleDelivery.AllTaken | crates/msrs-transport/src/tasks.rs:120-124 | once as many iterations have finished as messages were queued, everything sent by then is in the log, in order |
| SingleDelivery.HistoryStays | crates/msrs-transport/src/tasks.rs:120-127 | what is logged and sent is never rewritten, and the clock never goes back |
| SingleDelivery.StampedInTime | crates/msrs-transport/src/tasks.rs:125 | every slot's stamp lies between the clock at any moment before it, its pull included, and the clock at any moment after |
| SingleDelivery.StampsIncrease | crates/msrs-transport/src/tasks.rs:125 | the stamps of a run never decrease and are never ahead of the clock |
| SingleDelivery.ToldTheRecordedTimes | crates/msrs-core/src/fsm_task.rs:67-86 | in every run a machine that remembers its triggers has seen, slot by slot, exactly the logged messages and the recorded times of the empty slots |
| SingleDelivery.ReplayToldTheSame | crates/msrs-core/src/fsm_task.rs:67-73 | and so has its replay, with any clock |
| SingleDelivery.Disconnects | crates/msrs-transport/src/tasks.rs:54 | the transport is there exactly while no hang-up has happened |
| SingleDelivery.StopsForCause | crates/msrs-core/src/fsm_task.rs:158-161 | a run stops only because the transport hung up with an output to send, or because the machine emitted more than once |
| SingleDelivery.StopsForGood | crates/msrs-core/src/fsm_task.rs:158-161 | a stopped run does nothing more |
| SingleTasks.ForeignRun | crates/msrs-transport/src/driver.rs:50-66 | any foreign actions do to the one-message pipeline what they do to the channels, and leave the rest alone |
| SingleTasks.SingleWorld.Others | crates/msrs-transport/src/driver.rs:50-66 | the trace grows by the scheduled actions, and this thread's progress, machine and log stay |
| SingleTasks.SingleWorld.TryRecv | crates/msrs-transport/src/tasks.rs:46-48 | the head of the real queue as the others have left it, which is then one shorter; nothing only from an empty queue; it is the pipeline's pull |
| SingleTasks.SingleWorld.ReadClock | crates/msrs-transport/src/tasks.rs:125 | the real clock as the others have left it, no earlier than before; it is the pipeline's stamp |
| SingleTasks.SingleWorld.Forward | crates/msrs-transport/src/tasks.rs:263-265 | it succeeds exactly for an empty payload or a transport that is there; the output is then sent and the iteration logged, and otherwise the thread stops |
| SingleTasks.IngressTask.Process | crates/msrs-transport/src/tasks.rs:120-127 | the slot holds the head of the queue as the others have left it, and a message that was already there in any case; its stamp is a clock reading no earlier than the call; it is the pipeline's slot |
| SingleTasks.EgressTask.Process | crates/msrs-transport/src/tasks.rs:263-265 | it succeeds exactly for an empty payload or a transport that is there, and the payload is then accepted and the iteration logged |
| SingleTasks.SingleApplication.Produce | crates/msrs-core/src/fsm_task.rs:141-164 | ingress and machine together bring the pipeline to its answer, or stop it in a fault |
| SingleTasks.SingleApplication.Finish | crates/msrs-transport/src/tasks.rs:263-265 | the iteration is logged with the slot and the payload it had, and only if the payload was sent |
| SingleTasks.SingleApplication.RunOneIteration | examples/echo/src/main.rs:110-114 | an iteration, with the other threads acting before each of its steps, is the pipeline's; it logs one slot and payload or stops |
| SingleTasks.SingleApplication.RunLive | examples/echo/src/main.rs:108-114 | the logged slots and payloads are the pipeline's; one for each iteration unless the transport hung up or the machine emitted more than once |
| EchoText.DecimalReadsBack | examples/echo/src/echo.rs:48-50 | the number is written in digits that stand for it, without a leading zero |
| EchoText.NumeralIsDecimal | examples/echo/src/echo.rs:48-50 | and there is no other way to write it so |
| EchoText.FormatExactly | examples/echo/src/echo.rs:48-50 | a text is "echo ", a numeral of the number, ": " and the whole body if and only if it is the one that is written |
| EchoText.ReadsOneWay | examples/echo/src/echo.rs:48-50 | a text determines its number and its body |
| Echo.EchoStore.Echo | examples/echo/src/echo.rs:48-50 | the text reads as the next number and the whole body |
| Echo.EchoCtx.Running | examples/echo/src/echo.rs:82-86 | the text emitted reads as the bumped count and the whole body |
| Echo.EchoMachine.Step | examples/echo/src/echo.rs:121-131 | a message bumps the count and emits one text that reads as the new count and the whole body; a tick changes and emits nothing |
| Echo.EchoTask | examples/echo/src/echo.rs:78-87 | over any slots, empty ones included, the task forwards exactly the echoes of the messages, never faults, and counts them |
| Echo.EchoesAt | examples/echo/src/echo.rs:48-50 | the i-th echo reads as number i + 1 and the whole of the i-th body |
| Echo.EchoesTellMessages | examples/echo/src/echo.rs:48-50 | equal echoes were asked for by equal messages |
| Echo.EchoesAPrefix | crates/msrs-transport/src/tasks.rs:46-48 | over every interleaving, what was sent back reads as the numbered echoes of a prefix of the messages sent, and of all of them once the queue is empty between iterations |
| Echo.EchoedInTime | crates/msrs-transport/src/tasks.rs:120-127 | once as many iterations have finished as messages were queued, every message sent by then has been echoed, in its place, with its number and its whole body |
| Echo.EchoReplays | examples/echo/src/main.rs:194-206 | the replay of a recorded echo run gives the echoes of its messages, which are those it sent |
| EchoDemo.InputOf | examples/echo/src/main.rs:177-181 | the message if there is one, otherwise a tick at exactly the recorded time; anything else is refused with what it has instead |
| EchoDemo.ReadRecorded | examples/echo/src/main.rs:170-189 | the reading loop ends at the first thing that is not a record; its inputs and outputs are those of all records before it, or it complains of the first slot that cannot be replayed |
| EchoDemo.RunStep | crates/msrs-core/src/fsm_task.rs:46-50 | the echo machine's one output, if any; the panic for several is never reached |
| EchoDemo.Replay | examples/echo/src/main.rs:194-206 | a fresh machine in place gives the values the adapter would forward for the inputs, without a fault |
| EchoDemo.LogTells | examples/echo/src/main.rs:148-206 | the log of any run can be replayed, holds what was sent, and replays to it |
| EchoDemo.RunService | examples/echo/src/main.rs:86-130 | what was sent and logged is that of a run whose foreign actions are the schedule's; every iteration finishes unless the schedule hangs up |
| EchoDemo.RecordAndReplay | examples/echo/src/main.rs:208-256 | run under a schedule, log, read back and replay in place: replayed, recorded and sent echoes are the same, and read as the numbered echoes of a prefix of the messages; every iteration is recorded unless the schedule hangs up |

## Left out

- The copper runtime itself: graph generation, slot reuse, freeze and thaw, log slabs and crash handling. One abstract iteration (ingress, machine, egress, log) stands for it. A slot starts empty each time, so the stale output time the adapters leave behind is covered by their own contracts only.
- The statig library: superstates, entry and exit actions. The machines here have none; dispatch is a switch on state and event.
- The bincode format. Encoders and decoders are parameters with stated laws, and a small concrete format shows that the laws can be met. A format whose records could take no bytes would keep the source's loop going for ever; the laws exclude it.
- LiveReplay.EveryRunReplays: takes the runtime's numbering as contiguous from any first id, and an iteration whose egress fails as leaving no copperlist; both are the copper runtime's doing.
- LogStream.ReadCopperlists: does not model opening the log and its errors, because they belong to the file system; an error's text is the decoder's own.
- Replay.ReplayGate: does not model the text of a divergence, which is kept as a record of id, input and both outputs; the step closure is a function that threads its state, and `WatchdogDemo.ReplayThrough` is the same loop over the machine in place.
- FsmAdapters.FsmTask.Process: does not model machines whose step is not a function of state and trigger; the two machines of the repository are written in place as classes and proved equal to such functions.
- Echo.EchoMachine.Step: models `count + 1` as wrapping, because builds with overflow checks abort after 2^64 - 1 messages instead.
- EchoDemo.ReadRecorded: does not model the panic's own message, which is kept as the slot's time.
- Lengths of queues, batches and logs are unbounded naturals, not machine words.
- Intake.EnqueueInv: models a send into a full queue as not yet happening; a driver that uses `try_send` and drops the message is the same run with that send absent. A capacity of zero (a rendezvous channel) is excluded from the waiting and timing results.
- Channels.Outbox.Send: models the accepting side only; when the transport takes a message out again is not part of this model.
- Replay claims for an adapter fed by another adapter's empty output, whose time is not stamped.
- Real sleeps, wall-clock schedules, printing, the `diff` process, file handling, the example feeders and their timeouts.
- `crates/msrs-core/src/rt.rs`, `crates/msrs-transport/src/registry.rs`, and the traits in `trigger.rs`, `store.rs` and `transport.rs` beyond their data: scheduler calls, a map behind a lock, and markers with one-branch facts.
