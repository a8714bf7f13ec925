# Verified model of the Pep/10 event simulator, themes, recent files and debugger loop

This project models four parts of the repository as Dafny programs and proves what they promise.

**The discrete-event simulator of `bin/simexp`** is the main part. `event_scheduler.dfy`, `allocator.dfy`,
`dispatcher.dfy`, `devices.dfy` and `simulator.dfy` are classes over arrays and mutable fields that do what
the source does, in place. Each method is tied to a function on values: `scheduler.dfy` for the scheduler,
`Pools` and `Dispatchers` for the allocator and the dispatch table, `system.dfy` for the whole machine. The
theorems are about those functions:

- `queues.dfy`, `graphs.dfy` and `protocol.dfy`: the queue edited by append, steal, swap and hole-fill; the
  doubly stored dependency graph; barriers; and, for any clients that keep to a protocol, soundness of every
  run and freedom from deadlock.
- `clocks.dfy`: the stateless jittered clock in 64-bit arithmetic.
- `sequence_waits.dfy`, `fast_path.dfy`: skipping time against waiting for an event, over the scheduler, the
  allocator and the dispatcher together.
- `system_structure.dfy`, `system_turns.dfy`, `system_views.dfy`, `system_steps.dfy`: what one turn of the
  loop does to 1 to 32 CPUs. A turn moves exactly one CPU, by a step that depends on nothing but that CPU.
- `system_progress.dfy`, `system_accounts.dfy`, `system_boot.dfy`, `system_runs.dfy`, `system_timing.dfy`,
  `system_main.dfy`, `system_stages.dfy`: what these steps add up to over whole runs.
- `system_protocol.dfy`: the machine is a client that keeps to the protocol of `protocol.dfy`.
- `bits.dfy`: the 64-bit words behind the sets of slots, and the loops over their bits.

**Themes** (`lib/settings`): the inheritance forest, the change cascade that restores the font rule, the
default palette, what items show and what each edit changes, and saving and loading. **Recent files** and the **debugger's run loop** (`Pep_ISA`) are smaller.

Every lemma carries `{:induction false}`: its proof is the one that is written down.

## What the model takes as given

- Memory is an arbitrary function from addresses to 64-bit words (the source hashes the address), and so are
  the pseudo-random word of a clock pulse and `operand << mn`, whose shift count is at least 128. The host is
  little-endian.
- The coroutine of the CPU is a state machine over its three kinds of suspension: before the first clock and
  between instructions, awaiting the opcode, awaiting the operand. The buffer of a memory request is the
  number of the CPU whose coroutine frame holds it.
- An exception is a result (`ok` is false, or `None`). What the source leaves undefined is a precondition:
  a 65th queue entry, popping an empty queue, a clock period of 0.
- A handler of the generic loop may schedule idle events and then let the running event finish, recur, hand
  over to one idle event, or await live events. `Protocol.MayDecide` states when each is allowed, and
  `SystemProtocol.RunsConform` shows that the devices of the system keep to it.
- Looking up a key outside the flat dispatch table, whose entries the source reads unchecked, counts as
  finding no handler in the theorems; the methods that dispatch require that it does not happen.
- The timing theorems assume that half the period, the jitter and 2 add up to less than the period, and that
  ticks fit in 48 bits. The refinement theorems do not: they hold for any clock and whichever event is popped.
- Device ids are those that main hands out with one clock: CPUs from 4 on, then memory.
- Qt's font objects are records; whether a font is fixed-pitch depends on its face alone, and the default mono
  font is fixed-pitch. A tick of the debugged machine is an arbitrary outcome that takes at least one tick.

## Where the code and its promises differ

- `handler_for` compares a handler's id with the size of the dispatch table, which has nothing to do with it
  (`Dispatchers.HandlerForFindsSmallIds`, `Dispatchers.LargeIdIsCutOff`).
- The header calls the dependency graph acyclic, but `pause` rejects only direct self-dependency
  (`Protocol.MutualPauseDeadlocks`); `Protocol.PauseIsAcyclicExactly` is the exact condition. An event that
  hands over is completed at once under anything that waits on it (`Protocol.HandOverReleasesWaiters`), and
  forgets all but the record under its dependees (`Graphs.LoopForgetsHandOvers`).
- `DelayAwaiter` treats skipping and waiting as interchangeable. They are exactly under the condition of
  `FastPath.PathsAgreeExactly`, and never with main's wiring, which maps no handler for Sequence events
  (`FastPath.WiredWaitThrows`).
- `Invalid` is an enumerator, so it is a known role name in a theme file, and its value, -1, passes the tests
  for the item and for its parent (`ThemeFiles.InvalidIsOutOfRange`, `ThemeFiles.LoadIsDefinedExactly`).
- A mono item without a parent may show the interface font; saving and loading such a theme changes that font
  (`ThemeEdits.MonoItemsShowFixed`, `ThemeFiles.LoadRestoresFontsExactly`). A parent with a larger role number
  is lost on loading (`ThemeFiles.LoadRestoresParentsExactly`).
- Stopping the debugger does not take back a queued execution (`Debuggers.StoppedRunGoesOn`).
- `_counters.scheduled` is declared and reported but never incremented; the model has no such counter.

## Model

| member | source | states |
|---|---|---|
| BitWords.EnableBit | core/core/ds/u64_bitset.hpp:117-120 | setting a bit adds exactly that position |
| BitWords.ClearBit | core/core/ds/u64_bitset.hpp:87-90 | resetting a bit removes exactly that position |
| BitWords.CountrZero | core/core/ds/u64_bitset.hpp:112 | finds the lowest member of a non-empty word |
| BitWords.WordOperations | core/core/ds/u64_bitset.hpp:54-120 | enable_bit, reset and union on words are insertion, removal and union on the set of slots that the word stands for |
| BitWords.LowestIsLeast | bin/simexp/event_scheduler.cpp:54-56 | `countr_zero` names the least member of the set, and `bits & (bits - 1)` is the set without it |
| BitWords.Visit | bin/simexp/event_scheduler.cpp:54-58 | the loop over the bits of a word ends, and visits every member exactly once, in ascending order |
| Schedules.CutIsRemainder | bin/simexp/event_scheduler.hpp:40 | a queue entry keeps the tick modulo 2^48 |
| Schedules.FirstMin | bin/simexp/event_scheduler.cpp:94 | the entry chosen is the first of those with the least tick |
| Schedules.Resort | bin/simexp/event_scheduler.cpp:91-95 | after resort_queue the front entry has a least tick |
| Schedules.FillContents | bin/simexp/event_scheduler.cpp:64 | filling a hole with the last entry removes exactly the entry that was there |
| EventSchedulers.EventScheduler.Skip | bin/simexp/event_scheduler.cpp:9-12 | advances the clock modulo 2^64 exactly when nothing is queued, and changes nothing else |
| EventSchedulers.EventScheduler.Schedule | bin/simexp/event_scheduler.cpp:14-21 | throws on an event whose scheduled bit is set, full queue or not, and otherwise appends it and sets the bit |
| EventSchedulers.EventScheduler.ScheduleOver | bin/simexp/event_scheduler.cpp:23-43 | throws if the dependee is scheduled; otherwise records both edges, moves the scheduled bit, and steals the dependent's place in the queue, even a full one, or takes a new place |
| EventSchedulers.EventScheduler.ResortQueue | bin/simexp/event_scheduler.cpp:91-95 | brings an entry with the least tick to the front, by the loop of std::min_element and one swap |
| EventSchedulers.EventScheduler.Pause | bin/simexp/event_scheduler.cpp:45-69 | rejects direct self-dependency; otherwise sets the scheduled bit, records all edges, and takes the event out of the queue, re-sorting only when the hole was in front |
| EventSchedulers.EventScheduler.NextEvent | bin/simexp/event_scheduler.cpp:71-79 | pops the first entry with the least tick and moves the clock to it |
| EventSchedulers.EventScheduler.Complete | bin/simexp/event_scheduler.cpp:81-89 | releases every dependent, lowest first, queues those that wait on nothing else now, and clears both edge sets of the event |
| Queues.HandedOver | bin/simexp/event_scheduler.cpp:33-42 | schedule_over gives the dependee the dependent's place, or a new one; every other event keeps its entry, and none has two |
| Queues.Descheduled | bin/simexp/event_scheduler.cpp:60-68 | pause removes the event's entry and no other |
| Queues.PopTakesLeast | bin/simexp/event_scheduler.cpp:71-79 | next_event takes an entry with the least tick, keeps every other entry, and leaves the clock at that tick |
| Queues.SizeOfQueue | bin/simexp/event_scheduler.hpp:57-62 | a queue without duplicates fits in its 64 places |
| Queues.RoomFor | bin/simexp/event_scheduler.hpp:57-62 | such a queue has room for any event that is not in it |
| Graphs.CompleteEffect | bin/simexp/event_scheduler.cpp:81-89 | what complete does to both halves of the graph |
| Graphs.OverRecords | bin/simexp/event_scheduler.cpp:23-31 | schedule_over adds exactly one dependency, to both halves of the graph, and moves exactly one scheduled bit |
| Graphs.PauseRecords | bin/simexp/event_scheduler.cpp:45-58 | pause adds exactly the dependencies on the dependees, to both halves of the graph, and sets exactly one scheduled bit |
| Graphs.SkipMovesClock | bin/simexp/event_scheduler.cpp:9-12 | skip moves the clock, in 64 bits, exactly when nothing is queued, and changes nothing else |
| Graphs.QueueCallsKeepGraph | bin/simexp/event_scheduler.cpp:14-21 | schedule and next_event leave the graph alone, and set or clear exactly one scheduled bit |
| Graphs.AlwaysConsistent | bin/simexp/event_scheduler.hpp:48-51 | after any calls in any order, whoever depends on an event is recorded under it |
| Graphs.NothingWaitsOnCompleted | bin/simexp/event_scheduler.cpp:81-89 | after any calls, completing an event leaves nothing that depends on it in either half of the graph |
| Graphs.PauseBlocks | bin/simexp/event_scheduler.cpp:45-69 | pausing an event that is free leaves it out of the queue, waiting on exactly the dependees, and adds only its own scheduled bit |
| Graphs.HandOverBlocks | bin/simexp/event_scheduler.hpp:22-23 | an event that is free and is handed over leaves the queue and waits on exactly the event it was handed to |
| Graphs.BlockedStep | bin/simexp/event_scheduler.cpp:81-89 | one call leaves a blocked event blocked, unless it completes the last event waited on; that call queues it once, at the current tick |
| Graphs.Barrier | bin/simexp/event_scheduler.hpp:24-27 | for any calls and any completion order: a paused event is out of the queue until all of its dependees have completed, and is queued once, when and at the tick at which the last of them completes |
| Graphs.GrowingBarrier | bin/simexp/event_scheduler.hpp:22-27 | the same while the event keeps being handed over and paused: it is out of the queue, waiting on exactly what is outstanding, until the call that completes the last of it, which queues it once, at that tick |
| Graphs.BothAreAwaited | bin/simexp/event_scheduler.hpp:22-23 | handed over twice, an event waits for both, whichever completes first |
| Graphs.LoopForgetsHandOvers | bin/simexp/event_loop.hpp:48-50 | but if the loop then completes the event itself, the first of the two to complete queues it |
| Protocol.PopKeepsSound | bin/simexp/event_scheduler.cpp:71-79 | popping keeps the scheduler sound, and time does not go back |
| Protocol.AddKeepsSound | bin/simexp/event_scheduler.cpp:14-21 | scheduling an idle event finds its scheduled bit clear, queues it for the tick asked for, and keeps the scheduler sound |
| Protocol.WakeQueues | bin/simexp/event_scheduler.cpp:82-87 | waking queues exactly the events that wait on nothing but the completed one, now |
| Protocol.FinishKeepsSound | bin/simexp/event_scheduler.cpp:81-89 | completing the running event keeps the scheduler sound and never overflows the queue |
| Protocol.HandOverEffect | bin/simexp/event_loop.hpp:48-50 | schedule_over on the running event and the complete that follows at once: the dependency is dropped, the record under the dependee stays |
| Protocol.CompleteHandedOver | bin/simexp/event_scheduler.cpp:81-89 | completing the dependee queues the event that was handed over to it, now |
| Protocol.HandOverKeepsSound | bin/simexp/event_loop.hpp:43-51 | handing over is sound when nothing waits on the event that hands over and the dependee is idle |
| Protocol.AwaitAllKeepsSound | bin/simexp/event_scheduler.cpp:45-69 | pausing on live events is sound when none of them waits on the paused event, directly or through others |
| Protocol.PauseIsAcyclicExactly | bin/simexp/event_scheduler.cpp:45-58 | on an acyclic graph, a pause closes no cycle if and only if none of the dependees is the paused event or waits on it through any number of others |
| Protocol.UnwaitedPauseIsAcyclic | bin/simexp/event_scheduler.cpp:47-48 | if nothing waits on the paused event, the test for direct self-dependency decides exactly whether the graph stays acyclic |
| Protocol.TurnKeepsSound | bin/simexp/event_loop.hpp:40-52 | a turn of the loop whose handler follows the protocol keeps the scheduler sound, and time does not go back |
| Protocol.EmptyQueueMeansNoneWaiting | bin/simexp/event_loop.hpp:40 | no deadlock: when the loop stops because the queue is empty, no event is waiting |
| Protocol.RunsAreSound | bin/simexp/event_loop.hpp:39-53 | over any run of clients that follow the protocol: soundness, ticks that never decrease, at most 64 queued events, no deadlock |
| Protocol.StartedRunsAreSound | bin/simexp/event_loop.hpp:39-53 | the same for every run from the start: any schedule calls on idle events, and then the loop |
| Protocol.HandOverReleasesWaiters | bin/simexp/event_loop.hpp:48-50 | an event that hands over is completed at once: of the events that wait on it, exactly those that wait on nothing else are queued now, while it still waits itself |
| Protocol.MutualPauseDeadlocks | bin/simexp/event_scheduler.cpp:47-48 | two events can pause on each other and then wait for ever, because only direct self-dependency is rejected |
| SequenceWaits.RunningIsQuiet | bin/simexp/event_scheduler.cpp:23-43 | in a sound scheduler with an empty queue, neither the running event nor an idle slot has any dependency on record |
| SequenceWaits.ScheduleAfterWait | bin/simexp/event_scheduler.cpp:23-43 | waiting for a Sequence event leaves the queue, scheduled bits and graph of a skip, two more executed events, and a clock cut to 48 bits |
| SequenceWaits.ClocksAgreeWhenTickFits | bin/simexp/event_scheduler.hpp:38-40 | the two clocks agree if and only if the target tick, modulo 2^64, is below 2^48 |
| FastPath.SkipEqualsSequence | bin/simexp/pep10isa.hpp:80-87 | under the conditions below, waiting (allocate, suspend, complete, pop, dispatch, complete, free, pop) leaves the simulator of a skip: queue, clock, graph, scheduled bits, used slots and their contents, CPUs and clocks; two more events executed, one allocated, one freed |
| FastPath.PathsAgreeExactly | bin/simexp/pep10isa.hpp:73-88 | for every dispatch table and state: skipping and waiting agree if and only if a slot is free, the waiting event recurs and nothing waits on it, the handler registered for the Sequence event ignores it, and the target tick fits in 48 bits |
| FastPath.WiredTurn | bin/simexp/event_loop.hpp:42-51 | a turn that dispatches by main's table is a turn of the simulator |
| FastPath.WiredWaitThrows | bin/simexp/main.cpp:68-69 | main registers no handler for Sequence events, so with its wiring every wait throws |
| FastPath.WaitThrowsWhereSkipSucceeds | bin/simexp/main.cpp:68-69 | the failing input: the first CPU's clock event running alone, in any configuration |
| Clocks.PortableHighWord | core/core/math/bitmanip/umulh.hpp:9-20 | the portable high-word multiplication never overflows and computes the high word of the 128-bit product |
| Clocks.JitterBound | bin/simexp/sim_clocktree.hpp:50-61 | the jitter, computed with 64-bit wrap-around, is an integer between -jitter and +jitter |
| Clocks.EdgeIsNearPulse | bin/simexp/sim_clocktree.hpp:48 | edge n is n periods, off by at most the jitter: no drift |
| Clocks.IndexAfterEdge | bin/simexp/sim_clocktree.hpp:47 | a tick less than half a period, less the jitter, after edge n belongs to pulse n |
| Clocks.IndexOfEdge | bin/simexp/sim_clocktree.hpp:28-30 | the pulse can be recovered from the tick of its edge |
| Clocks.EdgeSpacing | bin/simexp/sim_clocktree.hpp:47-48 | consecutive edges are between period - 2 jitter and period + 2 jitter apart, and increase |
| Clocks.EdgeDistance | bin/simexp/sim_clocktree.hpp:47-48 | edges k pulses apart are at most k periods and twice the jitter apart |
| Clocks.EdgesIncrease | bin/simexp/sim_clocktree.hpp:47-48 | later pulses have later edges |
| Clocks.NextTickOnEdge | bin/simexp/sim_clocktree.cpp:39-43 | from edge n, the next clock tick d cycles on is edge n + d |
| Clocks.StepsAreOneJump | bin/simexp/sim_clocktree.hpp:32-34 | m single steps from an edge reach the same tick as one jump of m cycles, for every m that fits in 8 bits |
| Clocks.NextTickIsLater | bin/simexp/sim_clocktree.cpp:39-43 | from any tick, the next clock tick is strictly later |
| Clocks.WideJitterLosesPulse | bin/simexp/sim_clocktree.hpp:42-43 | with a jitter of half the period or more, on any schedule, some noise moves the edge of a pulse out of the pulse |
| Clocks.JitterRestrictionIsExact | bin/simexp/sim_clocktree.hpp:42-43 | every edge can be traced back to its pulse, whatever the noise, if and only if the jitter is below half the period |
| Pools.FirstFree | bin/simexp/event_allocator.hpp:53 | the slot allocated is the lowest unused one |
| Pools.FreeBalances | bin/simexp/event_allocator.cpp:11-18 | free, which does not look at the used bit, keeps allocated = freed + used if and only if the slot was in use |
| Pools.AlwaysBalanced | bin/simexp/event_allocator.hpp:38-41 | allocated - freed is the number of used slots after any disciplined calls |
| Pools.AllocThenFree | bin/simexp/event_allocator.hpp:52-62 | allocating disturbs no slot in use, and freeing gives the same used slots back |
| EventAllocators.EventAllocator.Alloc | bin/simexp/event_allocator.hpp:52-62 | throws when all 64 slots are used, and otherwise takes the lowest free slot, writes it and counts |
| EventAllocators.EventAllocator.Free | bin/simexp/event_allocator.cpp:11-18 | clears the used bit and counts |
| Dispatchers.Hash | bin/simexp/event_dispatch.hpp:46-48 | the position of a key fits in 16 bits and lies in the row of its source |
| Dispatchers.HashInjective | bin/simexp/event_dispatch.hpp:46-48 | different keys have different positions |
| Dispatchers.EventDispatcher.AddHandler | bin/simexp/event_dispatch.cpp:4-8 | grows the table of handlers if need be and writes one entry |
| Dispatchers.EventDispatcher.MapHandler | bin/simexp/event_dispatch.cpp:10-15 | grows the dispatch table by whole rows if need be and writes one entry |
| Dispatchers.EventDispatcher.InstallFilter | bin/simexp/event_dispatch.hpp:61-70 | puts a filter in front of the handler that handler_for reports |
| Dispatchers.EventDispatcher.Dispatch | bin/simexp/event_dispatch.cpp:32-38 | finds the registered handler of a key, or throws |
| Dispatchers.MapChangesOneKey | bin/simexp/event_dispatch.cpp:10-15 | mapping a handler changes what the table says about that key and no other, growth included |
| Dispatchers.TableIsLastMapped | bin/simexp/event_dispatch.cpp:10-15 | after any calls the flat table is the map from each key to its last handler |
| Dispatchers.HandlerForFindsSmallIds | bin/simexp/event_dispatch.cpp:21-26 | handler_for reports the mapped handler if and only if there is none or its id is below the size of the dispatch table |
| Dispatchers.FiltersRunNewestFirst | bin/simexp/event_dispatch.hpp:56-70 | after installing any number of filters with fresh small ids, an event visits them newest to oldest and then the base handler, each once, stopping at the first rejection |
| Dispatchers.LargeIdIsCutOff | bin/simexp/event_dispatch.hpp:61-70 | a filter in front of a handler whose id is not below the table size cuts that handler off |
| Machine.SimulatorFast.Instruction | bin/simexp/main.cpp:25-43 | one turn of the loop executes the next instruction of the stream, in 3 or 6 ticks |
| Machine.SimulatorFast.Execute | bin/simexp/main.cpp:22-45 | executes up to `maxi` instructions of the stream, with the tick count that this takes; the program counter ends on the number of bytes executed, modulo 2^16 |
| Machine.PcCountsBytes | bin/simexp/main.cpp:28-37 | after any number of instructions the program counter is one byte for each unary and three for each other one, modulo 2^16 |
| Machine.InstructionEffect | bin/simexp/main.cpp:25-43 | what one instruction does to the registers, with the address and the width of its opcode and of its operand |
| Machine.StoreEffect | bin/simexp/pep10isa.hpp:14-20 | byte by byte, what memory writes into a buffer: at most 8 bytes of the word, and nothing past the length asked for |
| Machine.BytesRoundTrip | bin/simexp/pep10isa.hpp:17-18 | the bytes stored in a buffer determine the word modulo the size of the buffer |
| Machine.ReadBack | bin/simexp/main.cpp:17-21 | what the CPU reads through a one- or two-byte buffer is the low byte or half-word that SimulatorFast reads |
| Systems.Routes | bin/simexp/main.cpp:68-69 | through the flat dispatch table, the clock events, memory requests and clock updates of every CPU reach the handlers they are meant for |
| SystemStructure.SlotIsFree | bin/simexp/event_allocator.hpp:52 | while a CPU has no request outstanding, a slot is free |
| SystemStructure.OneEventEach | bin/simexp/sim_clocktree.hpp:131-133 | the queue holds exactly one event of each CPU |
| SystemSteps.StartRead | bin/simexp/pep10isa.hpp:60-69 | a CPU that awaits memory leaves exactly its request queued one tick later, in a free slot, with its clock event waiting on it |
| SystemSteps.FinishRead | bin/simexp/pep10isa.hpp:14-20 | the answer of memory reaches the coroutine that awaits it; the request's slot is freed and the CPU's clock event is queued at once |
| SystemSteps.FinishInstruction | bin/simexp/pep10isa.cpp:29-35 | the end of an instruction queues the clock event for the tick that the governor computes, through 64-bit and 48-bit arithmetic |
| SystemSteps.CpuTurn | bin/simexp/pep10isa.cpp:16-37 | resuming the coroutine, at any of its awaits, is the next step of the straight-line reading of its body |
| SystemSteps.TurnMovesOne | bin/simexp/event_loop.hpp:40-52 | a turn of the loop, whichever event it pops, raises no exception and moves exactly one CPU, by its own next step |
| SystemProgress.ClockAhead | bin/simexp/sim_clocktree.cpp:16-24 | asked for up to two ticks after edge n, the clock d cycles on is edge n + d, and later |
| SystemProgress.NextFollows | bin/simexp/pep10isa.cpp:18-30 | each step of the coroutine keeps the CPU in agreement with the straight-line simulator, whatever the clock does |
| SystemProgress.NextOnTime | bin/simexp/pep10isa.cpp:18-30 | each step keeps the CPU on time: due on the edge of its current instruction, or one or two ticks after it |
| SystemAccounts.NextTally | bin/simexp/event_loop.hpp:43-51 | every step costs one event, a slot for each request, and frees a slot for each answer |
| SystemBoot.FirstTurn | bin/simexp/sim_clocktree.cpp:26-38 | the initial UpdateClockSchedule event queues every CPU's clock event for the tick after 0, and its slot is freed |
| SystemBoot.UpdateOutcome | bin/simexp/sim_clocktree.cpp:26-38 | at any time, an update of the clocks throws exactly when a CPU is scheduled on a changed clock that was not restarted for an earlier CPU; otherwise every CPU that was not scheduled is queued for the next tick of its clock, and every other event stays as it was |
| SystemRuns.TurnKeepsInvariant | bin/simexp/event_loop.hpp:40-52 | every turn keeps the invariant of the running system |
| SystemRuns.RunsAreFaithful | bin/simexp/pep10isa.cpp:16-37 | refinement: for 1 to 32 CPUs, any memory, any clocks and whichever queued events are popped, no run raises an exception, and every CPU at an instruction boundary has the registers of SimulatorFast after as many instructions; one queued event per CPU; a clock event is never queued beside an outstanding request; every slot accounted for |
| SystemRuns.OneCpuAccounts | bin/simexp/main.cpp:75-76 | one CPU after u unary and v nonunary instructions: executed = 1 + 3u + 5v, allocated = 2 + u + 2v, freed = 1 + u + 2v |
| SystemTiming.TurnKeepsTimed | bin/simexp/event_loop.hpp:40-52 | a turn that pops an event due first keeps every CPU on time, never goes back in time, and uses up one of the finitely many turns left |
| SystemTiming.RunsAreOnTime | bin/simexp/sim_clocktree.cpp:16-43 | whole-run timing: after u unary and v nonunary instructions in whatever order a CPU's clock event is queued for exactly edge 1 + 2u + 4v, and nothing queued is overdue |
| SystemMain.SimulatorsAgree | bin/simexp/main.cpp:54-83 | when main's run stops, the CPU has executed exactly `maxi` instructions and has the registers that SimulatorFast ends with; the three counters follow from the number of unary instructions |
| SystemStages.LeadsOn | bin/simexp/event_loop.hpp:40-52 | taking one more turn extends the run that leads to the present state |
| SystemProtocol.TurnFollows | bin/simexp/event_loop.hpp:40-52 | for the scheduler, every turn of the timed system is a turn of a client that keeps to the protocol: a read hands over to the request, an answered request finishes, the end of an instruction recurs |
| SystemProtocol.FirstTurnFollows | bin/simexp/sim_clocktree.cpp:26-38 | so is the governor's turn, which schedules the idle clock events and finishes |
| SystemProtocol.RunsConform | bin/simexp/event_loop.hpp:39-53 | so any timed run of the system is a run of such clients, and leaves the scheduler sound: nothing waits in a cycle or on a dead event |
| SystemProtocol.WaitingThrows | bin/simexp/pep10isa.hpp:80-87 | in every state of the running system with one CPU (its invariant holds and its scheduler is sound), a wait in the handler of the clock event throws |
| Devices.ClockGovernor.RequestClock | bin/simexp/sim_clocktree.cpp:16-24 | schedules the device's clock event for the next tick of its clock, or throws |
| Devices.ClockGovernor.HandleEvent | bin/simexp/sim_clocktree.cpp:26-38 | starts or restarts the clock of every device, skipping those that are scheduled on an unchanged clock |
| Devices.Pep10CPU.AwaitMemory | bin/simexp/pep10isa.hpp:60-69 | allocates a request and schedules it over the CPU's event, or throws |
| Devices.Pep10CPU.HandleEvent | bin/simexp/pep10isa.cpp:16-49 | resumes the coroutine, written as a state machine over its awaits, with all its effects on the CPU, the scheduler and the allocator |
| Devices.Dram.HandleEvent | bin/simexp/pep10isa.hpp:14-20 | stores at most 8 bytes of the word into the request's buffer |
| Simulators.Simulator.Build | bin/simexp/main.cpp:62-72 | the wiring of main and init_clocks yields the initial state of the system, from which the loop can run |
| Simulators.Simulator.Deliver | bin/simexp/event_dispatch.cpp:32-38 | dispatching an event has the effect of its handler, or fails exactly when no handler is registered or the handler throws |
| Simulators.Simulator.TakeTurn | bin/simexp/event_loop.hpp:42-51 | one turn of the loop: pop, dispatch, and complete and free unless the event is still in use; it fails exactly when the dispatch throws |
| Simulators.Simulator.RunTicks | bin/simexp/event_loop.cpp:4-6 | the loop ends, at or after the given tick, in a state reached by a run of the kind above, with every CPU faithful |
| Simulators.Simulator.RunInstructions | bin/simexp/main.cpp:71-76 | the loop ends, and what main reports is what SimulatorFast computes; the program counter is the number of bytes executed, modulo 2^16 |
| Forests.AdoptionTestIsExact | lib/settings/paletteitem.cpp:337-343 | the test of setParent refuses a parent if and only if adopting it would make a cycle |
| Themes.FilledKeepsFixed | lib/settings/paletteitem.cpp:306-317 | giving items the default font makes no item lose a fixed-pitch font |
| ThemeCascades.ToldMore | lib/settings/paletteitem.cpp:289-293 | telling one more child repairs its subtree and disturbs no other |
| ThemeCascades.CascadeIsDetermined | lib/settings/paletteitem.cpp:289-293 | the outcome of a change cascade does not depend on the order in which children are told |
| ThemeEdits.EditKeepsProper | lib/settings/paletteitem.cpp:35-140 | every public edit keeps the items a forest in which each mono item with a parent shows a fixed-pitch font |
| ThemeEdits.EditsKeepProper | lib/settings/paletteitem.cpp:35-140 | so does any sequence of edits |
| ThemeEdits.EditIsLocal | lib/settings/paletteitem.cpp:58-101 | what is not under the edited item looks as before |
| ThemeEdits.OrphanShowsParent | lib/settings/paletteitem.cpp:35-46 | clearParent leaves the item with the colours that its parent showed, and its font as far as the font rule allows |
| ThemeEdits.AdoptedShowsParent | lib/settings/paletteitem.cpp:48-56 | setParent takes the parent exactly when that makes no cycle, and the item then shows the parent's colours where it has none of its own |
| ThemeEdits.StyleEditsChangeOneItem | lib/settings/paletteitem.cpp:63-140 | edits of colour and style change nothing but the item itself |
| ThemeEdits.MonoItemsShowFixed | lib/settings/paletteitem.cpp:92-101 | a mono item shows a fixed-pitch font if and only if it has a parent or a font of its own, or the interface font is fixed-pitch |
| ThemeShows.ShowsNearest | lib/settings/paletteitem.cpp:58-101 | in every respect (colours, font face, pitch and feature, and each style), an item shows what the nearest of itself and its ancestors decides that decides anything; a font of its own overrules overrides, and a root falls back on white, black and the interface font |
| ThemeShows.NearestIsUnique | lib/settings/paletteitem.cpp:58-101 | there is only one such nearest item |
| ThemeShows.MonoRoles | lib/settings/constants.cpp:46-66 | the roles that need fixed-pitch fonts are the base one and those of editors and circuits, but for row numbers and breakpoints |
| ThemeShows.OthersOnlyGetFonts | lib/settings/paletteitem.cpp:289-317 | an edit changes no other item, but that mono items without a font of their own may be given the default one |
| ThemeShows.ForegroundSet | lib/settings/paletteitem.cpp:69-73 | setForeground changes one field of one item, and the item shows the colour |
| ThemeShows.BackgroundSet | lib/settings/paletteitem.cpp:86-90 | setBackground changes one field of one item, and the item shows the colour |
| ThemeShows.ForegroundCleared | lib/settings/paletteitem.cpp:63-67 | clearForeground changes one field of one item, which shows its parent's colour or white |
| ThemeShows.BackgroundCleared | lib/settings/paletteitem.cpp:80-84 | clearBackground changes one field of one item, which shows its parent's colour or black |
| ThemeShows.StyleOverridden | lib/settings/paletteitem.cpp:122-140 | each of the four overrides sets its own style of an item that inherits its font, shows in that style only, and changes nothing else |
| ThemeShows.FontSet | lib/settings/paletteitem.cpp:110-114 | setFont makes the item show the font, or the default fixed-pitch font where the role demands one, and keeps its other fields |
| ThemeShows.FontCleared | lib/settings/paletteitem.cpp:103-108 | clearFont drops the font and all overrides, and the item shows its parent's font as it is, or the default fixed-pitch font where the role demands one |
| ThemeShows.ParentSet | lib/settings/paletteitem.cpp:48-56 | setParent leaves the item's colours and overrides alone, and gives it at most the default fixed-pitch font |
| HexColors.HexRoundTrip | lib/settings/paletteitem.cpp:206-213 | a colour written as hexadecimal text is read back unchanged |
| HexColors.TextIsRead | lib/settings/paletteitem.cpp:164-169 | any other text: the prefix is optional, capitals count, and what is empty, malformed or too large reads as 0 |
| ThemeFiles.LoadIsDefinedExactly | lib/settings/palette.cpp:71-84 | loading reads inside the palette if and only if no item that gets as far as the lookup names a negative role, which only Invalid is, as itself or as its parent |
| ThemeFiles.InvalidIsOutOfRange | lib/settings/palette.cpp:72-83 | the failing input: a file that names Invalid as a role or as a parent |
| ThemeFiles.LoadKeepsProper | lib/settings/palette.cpp:55-102 | whatever a theme file says, if loading it is defined, then afterwards the items are a forest that obeys the font rule |
| ThemeFiles.LoadRestores | lib/settings/palette.cpp:55-126 | loading a saved palette whose parents have smaller role numbers, into any palette, restores the parents and every colour shown |
| ThemeFiles.LoadRestoresParentsExactly | lib/settings/palette.cpp:79-84 | the parents are restored if and only if all of them have smaller role numbers |
| ThemeFiles.BadParentMeansRoot | lib/settings/palette.cpp:78-84 | an item whose saved parent is missing, unknown, itself or a later role is a root after loading, whatever palette it is loaded into |
| ThemeFiles.LoadRestoresFontsExactly | lib/settings/paletteitem.cpp:178-198 | the fonts shown are restored, up to font features, if and only if every mono item shows a fixed-pitch font |
| DefaultPalettes.ConstructKeepsProper | lib/settings/paletteitem.cpp:21-27 | constructing an item under an item that exists keeps the forest and the font rule |
| DefaultPalettes.DefaultsAreProper | lib/settings/palette.cpp:176-322 | the default palette, and every stage of building it, is a forest that obeys the font rule; each item has the parent, colours and overrides that the table gives |
| DefaultPalettes.DefaultItemShows | lib/settings/palette.cpp:183-322 | the text and fill colours that each of the 34 roles shows before anything is edited, inherited ones included |
| DefaultPalettes.DefaultsSurviveSaving | lib/settings/palette.cpp:55-126 | the default palette survives saving and loading, into any palette: parents, colours and, up to features, fonts |
| Palettes.Palette.constructor | lib/settings/palette.cpp:155-159 | builds the default items by the loop over roles; so every palette starts out obeying the rules |
| Palettes.Palette.IsAncestorOf | lib/settings/paletteitem.cpp:337-343 | the loop over ancestors decides whether adopting would make a cycle |
| Palettes.Palette.EmitChanged | lib/settings/paletteitem.cpp:289-293 | the change signal, delivered to the children in any order, leaves the outcome of the cascade |
| Palettes.Palette.SetParent | lib/settings/paletteitem.cpp:48-56 | setParent in place, with the cascade it causes |
| Palettes.Palette.ClearParent | lib/settings/paletteitem.cpp:35-46 | clearParent in place, with the cascade it causes |
| Palettes.Palette.SetForeground | lib/settings/paletteitem.cpp:69-73 | setForeground in place, with the cascade it causes; the item then shows the colour |
| Palettes.Palette.SetFont | lib/settings/paletteitem.cpp:110-114 | setFont in place, with the cascade it causes; what the item then shows |
| Palettes.Palette.ClearFont | lib/settings/paletteitem.cpp:103-108 | clearFont in place, with the cascade it causes |
| Palettes.Palette.OverrideStyle | lib/settings/paletteitem.cpp:122-140 | the four style overrides in place; an item that inherits its font then shows that style |
| Palettes.Palette.ToJson | lib/settings/palette.cpp:104-126 | writes every item by the loop over roles |
| Palettes.Palette.UpdateItem | lib/settings/paletteitem.cpp:154-200 | loads one item while signals are blocked |
| Palettes.Palette.UpdateFromJson | lib/settings/palette.cpp:55-102 | loads a theme file and then lets every root signal; refuses other versions; reads outside the palette exactly when an item names a negative role |
| RecentFiles.RecentFileList.Refresh | lib/settings/settings.cpp:268-278 | reads the settings into the cache, skipping what is not a recent file, and cuts it |
| RecentFiles.RecentFileList.PushRecentFile | lib/settings/settings.cpp:239-253 | removes, makes room, prepends, trims and stores: the list is the pushed file before the others, cut to the maximum |
| RecentFiles.RecentFileList.RecentFiles | lib/settings/settings.cpp:263-266 | what the user sees |
| RecentFiles.RecentFileList.SetMaxRecentFiles | lib/settings/settings.cpp:166-170 | accepts exactly 1 to 10 |
| RecentFiles.PushKeepsMostRecent | lib/settings/settings.cpp:239-253 | a push leads from the most recent list to the most recent list |
| RecentFiles.MostRecentIsDetermined | lib/settings/settings.cpp:239-253 | only one list is the most recent one for a history and a maximum |
| RecentFiles.ShownIsMostRecent | lib/settings/settings.cpp:239-278 | from an empty store and a fixed maximum of at least 1, after any pushes, queries, clearings and restarts the list is the distinct paths in most-recent-first order cut to the maximum, each with the data of its latest push |
| RecentFiles.OpEffects | lib/settings/settings.cpp:255-278 | what queries, clearing and restarts do to the cache and the settings |
| Debuggers.PepIsa.OnDeferredExecution | lib/project/pep10.cpp:725-801 | one batch, and what becomes of the state, the pause request, the counter and the queue |
| Debuggers.PepIsa.Run | lib/project/pep10.cpp:747-755 | the do-while loop of a batch: its last tick is the first that fails, hits a breakpoint, satisfies the step condition, writes or uses up 1000 ticks, or tick 0 if a pause is pending |
| Debuggers.BatchEndsAtFirst | lib/project/pep10.cpp:747-755 | the same of the batch as a function, with when it asks for a pause and when it is finished |
| Debuggers.DeliveryOutcome | lib/project/pep10.cpp:773-799 | what a delivery leaves, from its last tick: halted after a failure or a write, paused after too many batches or on request, and otherwise running in its mode with the next batch queued |
| Debuggers.BreakpointPauses | lib/project/pep10.cpp:750-753 | a breakpoint that neither fails nor writes ends the batch at that tick and pauses, with nothing new queued |
| Debuggers.StartedInMode | lib/project/pep10.cpp:595-627 | execute runs normally, continue and step debug, and stay in that mode from batch to batch |
| Debuggers.PepIsa.StepDepthHelper | lib/project/pep10.cpp:865-884 | resets the counter and queues an execution |
| Debuggers.AlwaysSettled | lib/project/pep10.cpp:595-637 | whenever no execution is queued, the state is Halted or DebugPaused, over any interleaving |
| Debuggers.BatchesAreUsedUp | lib/project/pep10.cpp:785-799 | every batch uses up one of the batches left, however stops, pauses and deliveries are interleaved |
| Debuggers.RunsEnd | lib/project/pep10.cpp:785-799 | after the last interaction that resets the counter, at most 11 batches more than are queued can run |
| Debuggers.EndlessRunIsCutShort | lib/project/pep10.cpp:785-790 | the bound is reached on a program that never stops: 12 batches from one queued execution, and then paused |
| Debuggers.PauseTakesOneTick | lib/project/pep10.cpp:629 | after a pause request the next batch executes a single tick and leaves the debugger halted or paused |
| Debuggers.StopHaltsExactlyWhenIdle | lib/project/pep10.cpp:631-637 | after a stop nothing more executes if and only if no execution was queued |
| Debuggers.StoppedRunGoesOn | lib/project/pep10.cpp:731-737 | a queued execution that finds the debugger stopped goes on, as a normal execution |

## Left out

- `ScaledClock`, `MuxClock`, several UpdateClockSchedule events and re-clocking: one initial update starts every clock, and clocks do not change during a run.
- `AccessSnooper`: a filter that counts and always accepts; the dispatcher's filters take their verdict as a parameter.
- Writes and clears of memory requests, and the event types that no device uses.
- Device names, descriptors, ownership and the ids that further clocks would take up.
- `current_scheduled`, `current_allocated`, `dump_state` and the other accessors.
- Coroutine frames, placement new, object lifetimes and raw addresses: slots and devices are named by number.
- The C++ widths of `icount`, `wcount` and the event counters, which are unbounded here; `pc` wraps at 16 bits and ticks at 64 and 48 bits as in the source.
- EventSchedulers.EventScheduler.Schedule: unless it throws, requires room in the queue, where the source would write past its array; `Queues.RoomFor` shows that a sound client always has it.
- Simulators.Simulator.TakeTurn: says nothing of the state after a turn that throws, which the source does not catch.
- Simulators.Simulator.RunTicks: the stop condition is the tick bound of `run(u64)`; arbitrary stop conditions are covered by `SystemRuns.RunsAreFaithful` and `SystemTiming.RunsAreOnTime`.
- `PaletteItem` objects are records in one list, and their links to each other are positions in it; that no two items share storage is built in.
- Editor items' macro fonts, font weights, per-platform overrides in theme files, and colours with more than 8 bits a channel.
- The text form of fonts: a saved font is the font without its features.
- Storing themes and palettes in QSettings, and copying theme files.
- Changing the maximum number of recent files in the middle of a history: the history theorem is for a fixed maximum.
- The microcode debugger `Pep_MA`, whose run loop has no step counter, and the assembler, linker and CPU models behind a debugger tick.
- The menus that enable and disable debugger commands: the debugger theorems hold for every order of commands.
