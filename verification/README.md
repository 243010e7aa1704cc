# Verification of the Saturnis bus, its drivers and its devices

This project models the deterministic shared-bus core of Saturnis, an emulator of a console with two SH-2 CPUs, and
proves properties of the model with Dafny 4.11. `dafny verify dfyconfig.toml` checks everything.

## What is modelled

**The bus arbiter** (`Bus`, `BusArbiters`, `BusBatch`, `BusTiming`, `BusAccounts`, `BusTies`, `BusOrder`,
`BusProducers`, `BusFairness`). `BusArbiters.BusArbiter` is a class with the original's fields and methods; each method
is proved to carry out a function of module `Bus` in place. The theorems are about those functions: which operations a
batch commits, in what order, how long each can be stalled, and who wins successive ties. `BusAccounts` tells a run of
commands from its trace alone, in terms of operation kinds, address ranges and the fields of the latency model: the
devices and the memory hold exactly the accepted writes, every read was answered from what had been written before it,
and every operation started when it could and held the bus for what the model charges. `BusTies` adds where in the trace
each reply stands, exactly when the tie turnaround is paid, and what halting on faults stops.

**The scripted CPU and its memory** (`Memory`, `MemoryHistory`, `ScriptedCpus`, `ScriptTiming`, `CacheTransparency`,
`NonInterference`). Committed memory, store buffer, direct-mapped cache and the blocking CPU are classes proved against
functions on values. The theorems say that cache and store buffer cannot be told from plain memory, for one CPU alone
and for two that keep out of each other's cache lines; which instructions a CPU passes without the bus, what it asks for
where it stops, and when; and what a hit, a forwarded store and a retired store are in terms of what went before.

**The two drivers.** `DualMachine` is the reference: both CPUs stopped at their next bus operation, one commit at a
time, earliest request first. `SequentialDriver.RunScriptedPair` is the single-threaded driver as a method with loops
and mutable objects, and it is proved to leave exactly the state of the reference run (`DualMachine.Finish`);
`SequentialEnding` says exactly when that run ends both scripts. The multithreaded driver is a state machine
(`ThreadedDriver`): two producer threads, request, response and progress mailboxes, done flags, the signal hub's epoch,
and the coordinator with its slots; every mailbox call, flag access, notify and wait is one step, and a schedule is any
list of thread names. The theorems quantify over all schedules:

- every schedule amounts to a run of single commits each of which is legal where it happens, so commits come in
  nondecreasing order of request time, nothing faults, and each CPU's operations are committed once and in script order;
- a schedule commits a prefix of the reference run if and only if no commit of it is a *harmful race*: the coordinator
  commits one CPU's operation while an operation the other CPU asked for at the same tick, and at least as urgent, is
  still in its mailbox (the "only if" needs a tie turnaround of at least one tick; the default is one);
- no schedule races if the reference run has no equal request times, or if the coordinator holds every operation whose
  mark it has read; if the first tie of the reference run is between operations of one class, or is there at the start,
  some schedule does race, so for such programs the schedule matters exactly when the reference run has a tie;
- the coordinator never spins while it could wait for a producer;
- no wake-up is lost: a state in which no thread can move has completed everything, and every fair infinite schedule
  gets there and stays; without ties all threads end exactly when the reference run ends both scripts.

**Devices** (`Devices`, `DeviceHistory`, `MmioLanes`, `WordBits`, `DeviceRegisters`). The register hub is a class; what
every register reads is characterised bit by bit by the history of writes, told by address, byte and bit: interrupt
status and its mask, busy flag and counters, the kept bits of each ordinary register, and big-endian memory outside the
table.

**The public arbiter** (`PublicArbiters`), and **SH-2 exception entry and return** (`Sh2Cores`, `Sh2Exceptions`) with
the core's loads, stores and byte updates (`Sh2Loads`, `Sh2Accesses`), driving the same bus model one operation per
step.

## Hypotheses and disagreements

- Times, counters and sequence numbers do not overflow (`nat`); latencies are at least one tick where a theorem needs
  bus time to advance; theorems about completeness assume that halting on faults is off, and
  `BusTies.NothingAfterFault` says what it does when it is on.
- An invalid operation trips an assertion in debug builds (src/bus/bus_arbiter.cpp:126-128). The model is the release
  build, which records a fault and goes on.
- Neither driver terminates on every input: a finished CPU's watermark stays at its clock (src/core/emulator.cpp:85-86,
  158-160), so the other CPU may be left for ever with an operation that is not earlier.
  `SequentialDriver.EmptyAgainstBarrierSpins` is the smallest such input and `SequentialEnding.EndsExactly` says exactly
  when it happens. The original loop then spins; `RunScriptedPair` returns with `finished` false.
- The tie-break of `pick_next` is not always transitive: a producer's later operation may outrank another producer's
  that outranks the first producer's earlier one, all three able to start together. `BusOrder.TransitiveExactly` says
  that this is the only way, and the order theorems ask that no commit meets it; one class per producer, or a single
  producer, is enough. `BusProducers.MixedClassesMakeACycle` is an example.
- A system-register stack form (STC.L, STS.L MACH or MACL, LDC.L, LDS.L) executed from a bus fetch advances the program
  counter when it is executed and again when its access completes (src/cpu/sh2_core.cpp:447-472, 1054-1063), so in the
  delay slot of RTE it returns one instruction too far although the comment at src/cpu/sh2_core.cpp:642-644 promises a
  return after the slot. `Sh2Exceptions.SlotLands` says that it is the only slot that does.
- The size of a cache line travels to the bus in eight bits (src/cpu/scripted_cpu.cpp:58), although a cache may have
  lines of any size. A miss therefore asks for its whole line exactly if lines are below 256 bytes
  (`ScriptTiming.LineAsked`), which is what the cache theorems ask for. With lines of a multiple of 256 it asks for
  none, and the reply fills the line with zeros around the value read (src/cpu/scripted_cpu.cpp:87-92): later reads of
  that line hit and give zero whatever the memory holds (`ScriptTiming.WideLineReadsZero`). With other sizes the line
  that comes does not fit and is reported as a fault each time (`ScriptTiming.WideLineRefused`).
- `pick_winner` prefers a write, and also the smaller access, of two requests by one master at one address
  (src/busarb/busarb.cpp:84-91); a write and a smaller read therefore win in turn by their place in the list.
- docs/libbusarb_integration.md line 11 promises a fixed priority `DMA > SH2_A > SH2_B`. The code alternates between the
  two CPUs (src/busarb/busarb.cpp:62-71); the model follows the code (`PublicArbiters.CpusTakeTurns`).

## Model

| member | source | states |
|---|---|---|
| Memory.LoadStored | src/mem/memory.cpp:102-122 | RAM read after write: the access reads back cut to its size, disjoint accesses are untouched, an access out of range stores nothing and reads zero |
| MemoryHistory.ForwardedIsNewest | src/mem/memory.cpp:22-29 | a pending store answers a read exactly if it has the same address and size and no later one has |
| MemoryHistory.RetiredIsOldest | src/mem/memory.cpp:31-40 | retiring removes the first entry with the number and leaves the others in order |
| MemoryHistory.RetiredOfNone | src/mem/memory.cpp:31-40 | and changes nothing if there is none |
| MemoryHistory.HitIsHistory | src/mem/memory.cpp:53-98 | after any fills and writes of an empty cache, an access hits exactly when it lies in one line and the last fill of that line's set was that line |
| Memory.CommittedMemory.constructor | src/mem/memory.cpp:100-100 | all bytes zero |
| Memory.CommittedMemory.Read | src/mem/memory.cpp:102-112 | the byte loop computes the big-endian value of the range, zero out of range |
| Memory.CommittedMemory.Write | src/mem/memory.cpp:114-122 | the byte loop replaces exactly the bytes of the range by the big-endian encoding |
| Memory.CommittedMemory.ReadBlock | src/mem/memory.cpp:124-133 | the copy of a block, zeros out of range |
| Memory.StoreBuffer.Push | src/mem/memory.cpp:18-20 | the entry goes to the end of the buffer |
| Memory.StoreBuffer.Forward | src/mem/memory.cpp:22-29 | the newest entry of the same address and size, if any |
| Memory.StoreBuffer.Retire | src/mem/memory.cpp:31-40 | the oldest entry with the id is removed and nothing else; the result says whether there was one |
| Memory.TinyCache.constructor | src/mem/memory.cpp:44-49 | every line invalid and of the line size |
| Memory.TinyCache.Read | src/mem/memory.cpp:53-70 | a hit gives the big-endian value held in the line, a miss or a straddling access nothing |
| Memory.TinyCache.Write | src/mem/memory.cpp:72-87 | write-update: a hit changes the bytes of the access in its line, a miss changes nothing |
| Memory.TinyCache.FillLine | src/mem/memory.cpp:89-98 | a line of the right size becomes the valid line of its set |
| BusArbiters.TraceLog.Add | src/core/trace.cpp:53-63 | an event is appended; a fault halts when halting on faults is on |
| BusArbiters.TraceLog.SetHaltOnFault | src/core/trace.cpp:11-16 | turning the halt off also clears a pending halt |
| BusArbiters.BusArbiter.constructor | src/bus/bus_arbiter.cpp:66-68 | a new arbiter: bus free at zero, no watermarks, nothing granted |
| BusArbiters.BusArbiter.UpdateProgress | src/bus/bus_arbiter.cpp:201-210 | watermarks of the two CPUs only rise, other producers change nothing |
| BusArbiters.BusArbiter.FaultResponse | src/bus/bus_arbiter.cpp:104-109 | a refusal adds a fault and an empty commit event and takes no bus time |
| BusArbiters.BusArbiter.ValidateEnqueueContract | src/bus/bus_arbiter.cpp:111-122 | an operation earlier than the producer's previous one is refused, otherwise its time is remembered |
| BusArbiters.BusArbiter.ExecuteCommit | src/bus/bus_arbiter.cpp:123-185 | the whole new state, memory, devices and trace included, and the reply of one commit |
| BusArbiters.BusArbiter.PerformAccess | src/bus/bus_arbiter.cpp:149-172 | the memory or device access of a commit, its value and the line it hands over |
| BusArbiters.BusArbiter.LatencyFor | src/bus/bus_arbiter.cpp:72-100 | base latency plus same-address contention plus tie turnaround |
| BusArbiters.BusArbiter.PickNext | src/bus/bus_arbiter.cpp:212-269 | the scan returns the fold of the replacement rule over the committable entries |
| BusArbiters.BusArbiter.DetectTie | src/bus/bus_arbiter.cpp:332-344 | a tie exactly when another committable entry has the same start and class |
| BusArbiters.BusArbiter.CommittableEntries | src/bus/bus_arbiter.cpp:317-324 | exactly the entries below the horizon, in order |
| BusArbiters.BusArbiter.EnqueueAll | src/bus/bus_arbiter.cpp:299-309 | the queue of a batch: the operations that pass the enqueue contract, with their positions |
| BusArbiters.BusArbiter.CommitNext | src/bus/bus_arbiter.cpp:313-352 | one turn of the batch loop: the next commit, or none if nothing may go on |
| BusArbiters.BusArbiter.CommitBatch | src/bus/bus_arbiter.cpp:295-356 | the loops carry out the batch function: state, results and their order |
| BusArbiters.BusArbiter.CommitPending | src/bus/bus_arbiter.cpp:358-380 | commits the batch, keeps the watermarks, and splits the queue into what was committed and what was not, in order |
| BusArbiters.BusArbiter.Commit | src/bus/bus_arbiter.cpp:271-280 | a single commit, subject to the enqueue contract and the halt; the watermarks are kept |
| BusArbiters.BusArbiter.CommitDma | src/bus/bus_arbiter.cpp:282-293 | the same for the operation made over to the DMA producer |
| BusBatch.BatchCommitsExactly | src/bus/bus_arbiter.cpp:187-210 | without a halt a batch commits exactly the enqueue-valid operations below the horizon, each once: all if tracking is off, none until both watermarks exist |
| BusBatch.PendingSplits | src/bus/bus_arbiter.cpp:358-380 | of any batch, halted or not: each result is the queue's own operation at its position, positions are distinct, what remains is the rest in original order, and both together are the queue |
| BusTiming.NextStartsFirst | src/bus/bus_arbiter.cpp:212-227 | no committable entry could start earlier than the one picked, tie-break or not |
| BusTiming.BatchWorstCaseStall | src/bus/bus_arbiter.cpp:313-349 | the k-th commit of any batch finishes within k worst-case latencies of its request or of the bus coming free |
| BusTiming.NeverIdlesWithWork | src/bus/bus_arbiter.cpp:313-349 | while an admitted operation's request time has been reached the bus does not idle |
| BusTiming.MarksAreHistory | src/bus/bus_arbiter.cpp:187-210 | over any run of commands each watermark is the highest its CPU has reported, and what they let through is what both have passed, or anything as long as neither has reported |
| BusAccounts.RunIsItsTrace | src/bus/bus_arbiter.cpp:123-185 | over any run of commands from reset, told by kinds and address ranges: devices and memory hold exactly the accepted writes of the trace, each read was answered from what had been written before it, each operation started when asked for and the bus was free and held it for the charge of its kind plus contention exactly after the same address and a turnaround for a tie, and each refusal has the reason it gives |
| BusAccounts.BusTimeConserved | src/bus/bus_arbiter.cpp:144-184 | over any such run the accepted operations tile the bus, each for what the latency model charges its kind, and the bus-free time is busy time plus idle time |
| BusAccounts.IntervalsDisjoint | src/bus/bus_arbiter.cpp:144-184 | accepted operations occupy disjoint intervals in commit order |
| BusAccounts.DefaultTimes | src/bus/bus_arbiter.hpp:43-53 | the ticks of each kind of operation under the default latency model |
| BusTies.BatchRecorded | src/bus/bus_arbiter.cpp:313-352 | every commit of any batch is the event its reply describes, and pays the tie turnaround exactly when another operation of the batch, admitted, below the horizon and not yet committed, could start at the same tick in the same class |
| BusTies.SingleRecorded | src/bus/bus_arbiter.cpp:271-280 | a single commit is recorded the same way and never pays for a tie |
| BusTies.DmaRecorded | src/bus/bus_arbiter.cpp:282-293 | an operation handed to DMA is recorded as DMA's and is otherwise what was handed over |
| BusTies.LineHandedOver | src/bus/bus_arbiter.cpp:149-172 | a read or fetch of memory that asks for its line gets the bytes of the line it lies in, zeros if that is not all in memory, and nothing else gets a line |
| BusTies.NotLetThrough | src/bus/bus_arbiter.cpp:271-280 | a single commit not let through is answered at once by the fixed word, and a halted arbiter does nothing else |
| BusTies.NothingAfterFault | src/core/trace.cpp:53-63 | with halting on faults, over any run of commands nothing is committed after the first fault |
| BusOrder.NextUnbeaten | src/bus/bus_arbiter.cpp:212-269 | for identified operations with no inversion among them the scan ends on one that no other beats |
| BusOrder.OneProducerEarliest | src/bus/bus_arbiter.cpp:230-237 | operations of one producer are taken by start, sequence number and request time whatever the policy |
| BusOrder.LastResort | src/bus/bus_arbiter.cpp:249-265 | two operations of different producers alike in CPU number, class and start go by sequence number, then by position |
| BusOrder.TransitiveExactly | src/bus/bus_arbiter.cpp:229-261 | the tie-break is transitive on identified operations if and only if no producer's later and earlier operations straddle another producer's in class and turn at one start time |
| BusOrder.NeverStraddledIsOrderly | src/bus/bus_arbiter.cpp:229-261 | a check on classes alone that rules every inversion out of a batch beforehand |
| BusOrder.OneClassOrProducerIsOrderly | src/bus/bus_arbiter.cpp:229-261 | one class per producer, or a single producer, passes that check |
| BusOrder.SubmissionOrderIrrelevant | src/bus/bus_arbiter.cpp:295-356 | if no commit meets an inversion, submissions that agree on each producer's own order commit the same sequence with the same replies and leave the same state, the trace included when nothing is refused |
| BusProducers.ProducerOrderKept | src/bus/bus_arbiter.cpp:230-237 | if no commit meets an inversion, each producer's admitted operations commit in submission order and none is refused as late if the arbiter had not gone past them |
| BusProducers.InversionBreaks | src/bus/bus_arbiter.cpp:230-261 | any inversion is where submission order matters: handed over in one order the later operation overtakes its own producer's earlier one, in another the other producer goes first |
| BusProducers.MixedClassesMakeACycle | src/bus/bus_arbiter.cpp:230-261 | a memory and a device access of one CPU around the other CPU's memory access are such an inversion, with their two outcomes |
| BusFairness.TiesAlternate | src/bus/bus_arbiter.cpp:178-180 | over any run of batches with one operation per producer and any policy, successive CPU ties are won by alternating CPUs and DMA does not disturb the turn |
| BusFairness.DefaultWinner | src/bus/bus_arbiter.cpp:56-64 | under the default policy, of operations that could start together DMA goes before a device access of a CPU and that before a memory access |
| ScriptedCpus.ScriptedCPU.constructor | src/cpu/scripted_cpu.cpp:5-6 | nothing run, nothing stored, nothing cached |
| ScriptedCpus.ScriptedCPU.Produce | src/cpu/scripted_cpu.cpp:12-63 | the run-ahead loop: state and operation at the next bus access or the end of the script |
| ScriptedCpus.ScriptedCPU.IssueWrite | src/cpu/scripted_cpu.cpp:28-38 | a store enters the buffer and the cache and becomes a bus operation |
| ScriptedCpus.ScriptedCPU.ReadLocally | src/cpu/scripted_cpu.cpp:40-52 | a cacheable read looks in the store buffer, then in the cache |
| ScriptedCpus.ScriptedCPU.ApplyResponse | src/cpu/scripted_cpu.cpp:65-95 | the reply's effect on clock, buffer, cache and last read; a line that does not fit is reported |
| ScriptTiming.RunAheadIs | src/cpu/scripted_cpu.cpp:12-63 | running ahead passes exactly the instructions that need no bus, up to the first that does, and the clock moves by the cycles computed on the way and nothing else |
| ScriptTiming.NextAskedAt | src/cpu/scripted_cpu.cpp:12-67 | each operation is asked for at the bus finish time of that CPU's previous one plus the cycles computed between the two |
| ScriptTiming.FirstAskedAt | src/cpu/scripted_cpu.cpp:12-63 | the first operation is asked for after the cycles computed before it |
| ScriptTiming.OperationAsked | src/cpu/scripted_cpu.cpp:20-60 | kind, address, size, data, sequence number and line request of the operation a CPU stops at are those of its instruction, and a write is in the store buffer under a number of its own |
| ScriptTiming.WriteAnswered | src/cpu/scripted_cpu.cpp:70-73 | the reply to a write takes that write and nothing else out of the store buffer |
| ScriptTiming.MismatchReported | src/cpu/scripted_cpu.cpp:75-94 | a reply with the wrong line is reported and leaves the cache alone; after any other reply to a cacheable read the cache holds the line read |
| ScriptTiming.UncachedAccess | src/cpu/scripted_cpu.cpp:25-60 | an access through the uncached mirror or of a device always goes to the bus, asks for no line, and neither it nor its reply looks into the cache or changes it |
| ScriptTiming.MissBringsLine | src/cpu/scripted_cpu.cpp:54-86 | a cacheable read that misses asks for its line and has it afterwards |
| ScriptTiming.LineAsked | src/cpu/scripted_cpu.cpp:56-59 | a miss asks for its whole line if and only if lines are below 256 bytes, and for none if and only if they are a multiple of 256 |
| ScriptTiming.WideLineRefused | src/cpu/scripted_cpu.cpp:78-86 | with lines above 256 bytes of any other size the line that comes does not fit: a fault is reported and the cache stays without it |
| ScriptTiming.EmptyReplyReadsZero | src/cpu/scripted_cpu.cpp:87-92 | a reply without a line leaves the rest of the line reading zero whatever the memory holds |
| ScriptTiming.WideLineReadsZero | src/cpu/scripted_cpu.cpp:40-92 | so with lines of a multiple of 256 bytes two reads of one line give the first value and then zero, where memory may hold anything |
| DualMachine.RunAheadFacts | src/cpu/scripted_cpu.cpp:12-63 | running ahead never turns the clock back and stops at the operation the script asks for, or at its end |
| DualMachine.ReplySetsClock | src/cpu/scripted_cpu.cpp:65-67 | each reply takes the CPU's clock to the moment the bus finished its operation |
| DualMachine.StepFacts | src/core/emulator.cpp:114-125 | one commit keeps the machine well-formed, shortens the remaining work and adds exactly one commit event |
| DualMachine.MarksNeverFall | src/core/emulator.cpp:85-86 | a watermark that was honest stays honest whatever is committed |
| CacheTransparency.HitReads | src/mem/memory.cpp:53-70 | a hit in a cache in step with a memory gives what the memory gives |
| CacheTransparency.UpdateKeeps | src/mem/memory.cpp:72-87 | write-update keeps the cache in step with the memory, hit or miss |
| CacheTransparency.FillKeeps | src/mem/memory.cpp:89-98 | filling a line from the memory keeps the cache in step with it |
| NonInterference.RunAheadLocal | src/cpu/scripted_cpu.cpp:12-63 | from an empty store buffer, a CPU running ahead reads what its program alone reads on plain memory |
| NonInterference.CacheIsTransparent | src/cpu/scripted_cpu.cpp:12-95 | one CPU, any script of aligned cacheable RAM accesses, any usable geometry: its reads are those of plain memory and its store buffer is empty whenever it has nothing pending |
| NonInterference.EachCpuRunsAlone | src/core/emulator.cpp:73-127 | two CPUs that write to no cache line the other touches each read what their own program reads alone, whatever the order of commits |
| DualBatch.BatchReplays | src/core/emulator.cpp:114-125 | a batch of the operations at hand under honest watermarks is a replay of single commits with the same replies |
| DualBatch.BatchIsLegal | src/bus/bus_arbiter.cpp:317-324 | honest watermarks let through only what no other CPU can still precede |
| SequentialDriver.RunScriptedPair | src/core/emulator.cpp:73-127 | the driver leaves both CPUs, the bus, memory, devices and trace as the reference run does; it finishes exactly when the CPU that is left would ask for nothing at or after the finished CPU's clock |
| SequentialDriver.Advance | src/core/emulator.cpp:78-86 | both CPUs at their next operation and both watermarks published |
| SequentialDriver.Round | src/core/emulator.cpp:92-125 | one turn of the loop is one round of the reference; it commits something exactly when the reference does |
| SequentialDriver.DeliverAll | src/core/emulator.cpp:115-125 | every reply reaches the CPU that asked |
| SequentialDriver.BatchIsRound | src/core/emulator.cpp:85-125 | under the published marks, one batch is one round of the reference |
| SequentialDriver.RoundTakesEarliest | src/core/emulator.cpp:85-125 | while both CPUs have an operation a round commits exactly the earliest ones; a lone survivor's exactly when it is earlier than the finished CPU's clock |
| SequentialDriver.EndsDoneOrSpinning | src/core/emulator.cpp:77-90 | the reference run ends with both scripts done, or with one CPU whose operation is not earlier than the finished one's clock, where a round changes nothing |
| SequentialDriver.EmptyAgainstBarrierSpins | src/core/emulator.cpp:77-90 | an empty script against a single barrier never ends: the run is over at once with the barrier pending |
| SequentialEnding.SurvivorEnds | src/core/emulator.cpp:85-90 | once one CPU has finished, the run ends both scripts if and only if the other one's remaining operations would all be asked for before the finished CPU's clock |
| SequentialEnding.EndsExactly | src/core/emulator.cpp:77-90 | the same if-and-only-if from any state, judged as the first CPU finishes |
| DualSafety.LegalRunIsOrderly | src/bus/bus_arbiter.cpp:135-142 | legal commits come in nondecreasing order of request time and never fault |
| DualSafety.OrderlyMeansSorted | src/bus/bus_arbiter.cpp:135-142 | orderly events are commits only, sorted by request time at any two positions |
| DualSafety.CommittedOnceInOrder | src/core/emulator.cpp:114-125 | each CPU's operations are committed exactly once, in script order |
| ThreadedInvariant.ProducerKeepsLane | src/core/emulator.cpp:144-177 | every producer step keeps the lane invariant and changes nothing the machine amounts to |
| ThreadedInvariant.PublishedIsHonest | src/core/emulator.cpp:153-168 | the watermark the coordinator knows never runs ahead of what the CPU can still ask for |
| ThreadedInvariant.CommitStep | src/core/emulator.cpp:233-246 | a coordinator commit carries out legal single commits on what the machine amounts to |
| ThreadedInvariant.ActKeeps | src/core/emulator.cpp:144-259 | every step of every thread keeps the invariant and carries out exactly its commits |
| ThreadedInvariant.RunReplays | src/core/emulator.cpp:129-263 | every schedule amounts to a legal run of single commits of the dual machine |
| ThreadedInvariant.StartOk | src/core/emulator.cpp:129-142 | the driver starts in the invariant |
| ThreadedDeterminism.ReferencePrefix | src/core/emulator.cpp:73-127 | commits in reference order are part of the reference run and lead to the same end |
| ThreadedDeterminism.DeviationShows | src/bus/bus_arbiter.cpp:178-183 | commits out of reference order leave a trace that is no prefix of the reference trace |
| ThreadedDeterminism.CommitInOrder | src/core/emulator.cpp:188-246 | a commit follows the reference exactly when it is not a harmful race |
| ThreadedDeterminism.FollowsReference | src/core/emulator.cpp:129-263 | a schedule commits in reference order exactly when none of its commits is a harmful race |
| ThreadedDeterminism.DeterministicWithoutRaces | src/core/emulator.cpp:129-263 | the trace is a prefix of the reference trace if, and with a tie turnaround only if, the schedule has no harmful race |
| ThreadedDeterminism.TieFreeNeverRaces | src/core/emulator.cpp:129-263 | if the reference run has no equal request times, no schedule races |
| ThreadedDeterminism.HeldInTimeNeverRaces | src/core/emulator.cpp:188-211 | if the coordinator holds every operation whose mark it has read, the schedule does not race |
| ThreadedRace.TiedStartRaces | src/core/emulator.cpp:188-211 | whenever both CPUs first ask for the same tick, some schedule races |
| ThreadedRace.TiedStartDiverges | src/core/emulator.cpp:188-211 | and leaves a trace that is no prefix of the sequential driver's |
| ThreadedFirstTie.FirstTieRaces | src/core/emulator.cpp:188-246 | some schedule races if the first tie of the reference run is there at the start, or if the operation found waiting at it is not of a higher class than the one that meets it |
| ThreadedFirstTie.SameClassIsOpen | src/core/emulator.cpp:188-246 | a first tie between operations of one class is of that kind |
| ThreadedFirstTie.ScheduleMattersExactly | src/core/emulator.cpp:129-263 | for such programs every schedule follows the reference if and only if the reference run has no tie, and with a tie turnaround every trace is a prefix of the reference trace if and only if it has none |
| ThreadedWakeups.ActStaysAwake | src/core/emulator.cpp:31-71 | no step loses a wake-up: what a sleeping thread has not read is still to be announced |
| ThreadedWakeups.RunStaysAwake | src/core/emulator.cpp:31-71 | nor does any schedule |
| ThreadedWakeups.NoLostWakeup | src/core/emulator.cpp:31-71 | in every state reachable from the start, a coordinator no notify will wake has unread messages only from a producer still to notify, and a producer no notify will wake has an unread reply only while the coordinator is still to notify |
| ThreadedWakeups.PublishedArrives | src/core/emulator.cpp:149-173 | in every reachable state the mark a producer has just published, one past its request or its clock, is known to the coordinator or in its mailbox |
| ThreadedSleep.NoBusyWaiting | src/core/emulator.cpp:230-258 | on every schedule, after a turn that did nothing the coordinator goes round again only with both operations in hand or with one whose peer has ended, and sleeps only without both |
| ThreadedSleep.HandlingIsNoticed | src/core/emulator.cpp:186-258 | a coordinator step counts as progress exactly when it takes a message out of a mailbox or puts a reply into one, and the coordinator does not sleep at the end of a turn with progress |
| ThreadedProgress.ParkedNeverAsleep | src/core/emulator.cpp:230-258 | the coordinator never sleeps through the last notify of two producers that can do no more |
| ThreadedProgress.ParkedCommitSucceeds | src/core/emulator.cpp:203-234 | with both producers parked and all mailboxes read, a commit succeeds whenever the reference has one |
| ThreadedProgress.ActNearer | src/core/emulator.cpp:144-259 | until everything is complete, the helpful thread's step lowers a rank and no other step raises it |
| ThreadedProgress.StuckMeansComplete | src/core/emulator.cpp:174-258 | if no thread can move, everything the reference commits has been committed; and all threads have ended if the scripts have |
| ThreadedProgress.FairSchedulesComplete | src/core/emulator.cpp:129-263 | every fair infinite schedule completes |
| ThreadedResults.EveryScheduleIsOrderly | src/core/emulator.cpp:129-263 | on every schedule: nondecreasing request times, no fault, each CPU's operations once and in script order |
| ThreadedResults.OneInFlight | src/core/emulator.cpp:149-173 | each CPU has at most one operation in flight, in exactly one mailbox or slot, from the push to the pop of its reply |
| ThreadedResults.ExitedMeansDelivered | src/core/emulator.cpp:252-254 | when the coordinator leaves, every operation has been committed and applied and no message is in flight |
| ThreadedResults.CompleteForEver | src/core/emulator.cpp:129-263 | once everything is committed, no schedule changes what the machine amounts to |
| ThreadedResults.StuckScheduleIsReference | src/core/emulator.cpp:129-263 | from the start, a schedule after which nothing moves has committed everything, and without ties or with operations in hand in time stands where the sequential driver ends |
| ThreadedResults.FairScheduleEqualsSequential | src/core/emulator.cpp:73-263 | without ties every fair schedule comes to stand, and stays, where the sequential driver ends; its threads end exactly when the scripts do |
| ThreadedResults.ExitedReadsOwnProgram | src/core/emulator.cpp:129-263 | programs that keep out of each other's lines read the same on every schedule, ties or not |
| ThreadedWitness.HypothesesHold | src/core/emulator.cpp:73-263 | two small programs meet the hypotheses of the determinism, progress and non-interference theorems together |
| ThreadedWitness.SpinningHappens | src/core/emulator.cpp:77-90 | a concrete pair of scripts on which the drivers never end |
| Devices.DeviceHub.Read | src/dev/devices.cpp:141-173 | a read selects its lanes from the register, latch or counter of its word |
| Devices.DeviceHub.Write | src/dev/devices.cpp:175-265 | a write's whole effect on the log, latches, counters and register map |
| Devices.DeviceHub.WriteLanes | src/dev/devices.cpp:185-264 | which part of the hub a write acts on, and how |
| Devices.DeviceHub.WriteInterrupt | src/dev/devices.cpp:185-208 | set and clear of the two interrupt latches |
| Devices.DeviceHub.WriteVdp1 | src/dev/devices.cpp:218-254 | interrupt level, command, event trigger and completion |
| Devices.DeviceHub.SignalVdp1Completion | src/dev/devices.cpp:228-234 | a completion bumps both counters, raises the interrupt and ends the command |
| DeviceHistory.BusyIsHistory | src/dev/devices.cpp:228-254 | busy exactly while the last command written is nonzero and nothing has completed since; the two counters always agree |
| DeviceHistory.LatchesAreHistory | src/dev/devices.cpp:185-226 | a latch bit is up exactly when the last write that touched it there was a set |
| DeviceHistory.StatusIsHistory | src/dev/devices.cpp:145-148 | an interrupt status bit reads 1 exactly when the last event of either latch was a set and the mask as it reads does not hide it |
| DeviceHistory.CommandStatusIsHistory | src/dev/devices.cpp:155-164 | the command status shows busy exactly while a command runs, and its completion count equals the event count |
| DeviceRegisters.InterruptStatusReads | src/dev/devices.cpp:141-148 | bit b of the interrupt status reads 1 exactly when software or a source raised it last and the last write covering bit b of the mask register did not set it there |
| DeviceRegisters.SourceReads | src/dev/devices.cpp:149-150 | bit b of the source register reads 1 exactly when a source raised it last |
| DeviceRegisters.RegisterReads | src/dev/devices.cpp:36-131 | bit b of each register that keeps what is written, with its kept bits and reset value written out: the last write covering it, or its reset value |
| DeviceRegisters.NarrowReads | src/dev/devices.cpp:103-173 | reads of one and two bytes give what a memory holding the word would |
| DeviceRegisters.CommandStatusReads | src/dev/devices.cpp:161-164 | busy flag, completions and last command in their bytes of the command status |
| DeviceRegisters.EventStatusReads | src/dev/devices.cpp:157-158 | completions and interrupt level in the event status |
| DeviceRegisters.CommandAndBridgeRead | src/dev/devices.cpp:155-160 | the command register shows the last command, the bridge the interrupt level |
| DeviceRegisters.SmpcReads | src/dev/devices.cpp:151-154 | the SMPC command register shows the last command and the result register that command under its fixed top byte, nothing before any |
| DeviceRegisters.ActingReadsZero | src/dev/devices.cpp:165-172 | the registers that only clear or trigger read zero after any writes |
| DeviceRegisters.LogIsHistory | src/dev/devices.cpp:175-176 | the log lists every write in order with time, CPU, address and value |
| WordBits.MemoryBits | src/dev/devices.cpp:103-121 | bit b of a word of big-endian memory is what the last write covering its byte put there |
| MmioLanes.LaneRead | src/dev/devices.cpp:103-121 | an aligned access reads from memory what its lanes of the surrounding word hold |
| MmioLanes.LaneWrite | src/dev/devices.cpp:181-183 | an aligned write changes exactly its lanes of the surrounding word |
| MmioLanes.OrdinaryRegisterRefinesMemory | src/dev/devices.cpp:165-264 | an aligned read of one, two or four bytes of an ordinary register gives what memory would on its writable bits and its reset value elsewhere |
| MmioLanes.PlainRegistersAreMemory | src/dev/devices.cpp:165-172 | registers outside the table are big-endian memory under any aligned writes and reads |
| PublicArbiters.Arbiter.QueryWait | src/busarb/busarb.cpp:12-18 | the wait until the bus is free, capped at 32 bits |
| PublicArbiters.Arbiter.constructor | src/busarb/busarb.cpp:8-10 | bus free at zero, nothing granted |
| PublicArbiters.Arbiter.CommitGrant | src/busarb/busarb.cpp:20-35 | the whole new state after a grant |
| PublicArbiters.Arbiter.PickWinner | src/busarb/busarb.cpp:37-94 | the scan returns the fold of the replacement rule, down to write and size, or nothing for an empty list |
| PublicArbiters.ChoiceWins | src/busarb/busarb.cpp:37-94 | that request is of the highest-ranking master at its least address |
| PublicArbiters.ChoiceIgnoresOrder | src/busarb/busarb.cpp:72-91 | without a write and a smaller read of one master at one address, the choice is the same in master, address, direction and size for any order of the list |
| PublicArbiters.ReplaceEachOther | src/busarb/busarb.cpp:84-91 | two requests take each other's place exactly when they are such a pair |
| PublicArbiters.MixedLastWins | src/busarb/busarb.cpp:84-91 | and of such a pair whichever is listed last wins |
| PublicArbiters.WinnerIgnoresOrder | src/busarb/busarb.cpp:37-94 | the winner's master and address do not depend on the order of the list |
| PublicArbiters.WinnerIs | src/busarb/busarb.cpp:45-82 | DMA first, else the CPU not granted last if both ask (SH2_A if neither was), else the one that asks; and the least address of that master |
| PublicArbiters.ChoicePrefers | src/busarb/busarb.cpp:84-91 | without mixed pairs the choice writes if any request of its master at its address does, and none of its own direction is smaller |
| PublicArbiters.CpusTakeTurns | src/busarb/busarb.cpp:62-71 | while both CPUs ask, the rounds DMA does not take go to them in turn |
| PublicArbiters.WaitIsExact | src/busarb/busarb.cpp:12-21 | the wait is exactly the delay until a grant would start if and only if the backlog fits 32 bits |
| PublicArbiters.GrantsDisjoint | src/busarb/busarb.cpp:20-31 | grants never overlap and each lasts at least a tick |
| PublicArbiters.RoundHolds | src/busarb/busarb.cpp:20-31 | each grant starts when asked for and the one before has ended, and holds the bus for the cycles of its access, at least one, plus the turnaround after a tie and the contention charge exactly after the same address |
| Sh2Cores.SH2Core.StepPending | src/cpu/sh2_core.cpp:1097-1104 | a step with a bus operation to do: issue, commit, apply |
| Sh2Cores.SH2Core.RequestException | src/cpu/sh2_core.cpp:1095-1095 | the vector is remembered until the next boundary |
| Sh2Cores.SH2Core.ProducePending | src/cpu/sh2_core.cpp:645-672 | an accepted exception pushes SR first; a pending operation is issued |
| Sh2Cores.SH2Core.ProduceAccess | src/cpu/sh2_core.cpp:680-912 | an access found in the instruction cache is issued while pc and a pending branch wait |
| Sh2Cores.SH2Core.ApplyPending | src/cpu/sh2_core.cpp:934-1068 | what the answer to each pending operation does next |
| Sh2Cores.SH2Core.WriteBack | src/cpu/sh2_core.cpp:1026-1052 | a load fills its register and advances its address register, unless that is the one it loaded |
| Sh2Cores.SH2Core.Execute | src/cpu/sh2_core.cpp:599-635 | TRAPA, RTE and any other instruction, in or out of a delay slot |
| Sh2Exceptions.ExceptionEntry | src/cpu/sh2_core.cpp:645-654 | three steps take an accepted exception into its handler with SR and PC on the stack, and to the address kept at VBR plus four times the number if that can be read |
| Sh2Exceptions.TrapaEntry | src/cpu/sh2_core.cpp:608-613 | TRAPA and three steps do the same with the address after TRAPA |
| Sh2Exceptions.SlotLands | src/cpu/sh2_core.cpp:1026-1063 | a delay slot after RTE, accessing memory or not, ends at the return address with SR restored if and only if it is not an access fetched over the bus, which ends one instruction further |
| Sh2Exceptions.ReturnRestores | src/cpu/sh2_core.cpp:992-1063 | RTE, two pops and the delay slot restore the stack pointer, SR and the return address, with the same exception |
| Sh2Exceptions.ExceptionRoundTrip | src/cpu/sh2_core.cpp:937-1063 | an exception, any handler that keeps its frame, and RTE bring back SR, R15 and PC, wherever the vector points |
| Sh2Exceptions.TrapaRoundTrip | src/cpu/sh2_core.cpp:966-1063 | the same for TRAPA, going on after it |
| Sh2Exceptions.ContextIsSingle | src/cpu/sh2_core.cpp:599-607 | a return happens exactly when there is a return context, and leaves none |
| Sh2Exceptions.NestedReturnRefused | src/cpu/sh2_core.cpp:599-607 | a handler that is itself interrupted is resumed properly, but its own RTE is then refused and falls through |
| Sh2Exceptions.StepTakesClock | src/cpu/sh2_core.cpp:934-949 | an accepted stack or vector access takes the core's clock one tick past the moment the bus finished it |
| Sh2Accesses.LoadStep | src/cpu/sh2_core.cpp:1026-1063 | a load leaves memory alone, puts what memory holds into its register and goes on past its instruction |
| Sh2Accesses.StoreStep | src/cpu/sh2_core.cpp:1054-1063 | a store changes exactly its bytes of memory and no register |
| Sh2Accesses.RmwSteps | src/cpu/sh2_core.cpp:1011-1025 | a read-modify-write takes two operations and changes exactly the byte it reads, as it names, and no register |
| Sh2Loads.LoadChanges | src/cpu/sh2_core.cpp:1026-1052 | a load changes the register it names and moves its address register past the data unless that is the one it loaded, and no other |
| Sh2Loads.LoadSets | src/cpu/sh2_core.cpp:1026-1052 | the same for SR, VBR and R15 |
| Sh2Loads.ByteLoadsWithSign | src/cpu/sh2_core.cpp:1045-1047 | a byte is loaded with its sign |
| Sh2Loads.WordLoadsWithSign | src/cpu/sh2_core.cpp:1042-1044 | a word is loaded with its sign |

## Left out

- Mutexes, condition variables and memory ordering: each mailbox call, flag access, notify and wait is one atomic step.
- A watermark published by a `ScriptedCPU` that has several operations outstanding: only the blocking use the drivers make is modelled.
- The `detail` word of fault events, the exception-entry and exception-return markers the SH-2 core adds to the trace, snapshots of CPU state and the text of the trace: the model keeps commits and faults as abstract events.
- Sh2Cores.SH2Core.Execute: instructions other than TRAPA and RTE appear as what they leave in the registers and the access they make, because the round trip holds for any of them; instruction fetch, the instruction cache and decoding are not part of this model.
- Run-ahead budgets above one, and TRAPA or RTE in a delay slot, on the SH-2 core.
- ThreadedFirstTie.FirstTieRaces: says nothing of a first tie at which the operation found waiting is of the higher class; such a tie need not race, since the coordinator may always have that operation in hand.
- SequentialDriver.RunScriptedPair: asks that scripts hold only accesses the bus accepts and that line sizes are below 256. An invalid access aborts debug builds of the original, and in release builds its refusal takes no time, so that a finished CPU's watermark can stand one tick past its clock.
- Overflow of 64-bit ticks and of 32-bit addresses of blocks.
- The trace replay tool, the windowing and file layers, the command line, the BIOS runner and the script builders.
