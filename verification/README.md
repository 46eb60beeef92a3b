# Tejas, the memory system and its timing substrate: a verified model

Tejas is an architectural simulator. This project models the parts of it whose correctness depends on many small
state changes agreeing with each other, and proves what they promise over every run.

**The DRAM command scheduler** is the core. On every RAM tick `CommandQueue.pop` picks at most one command: first
for a rank that waits for a refresh, then round robin over the queues, then (open page) by closing a bank nobody
needs. Queues hold pairs of an ACTIVATE and its column access. The controller changes its own bank table when a
command leaves; `tCMD` later the rank replays the command against a second table, written independently, and stops
the simulation at the first command it finds illegal. Notes that the controller sends to itself mark the implicit
ends of precharges, auto-precharges and refreshes. All delays are free parameters; the rules are those of DDR3
(JEDEC JESD79-3, section 4).

| module | what it holds |
|---|---|
| `DramTypes`, `CommandQueueSpec`, `BankRules` | packets, bank states, configuration; what one call of pop decides and does; what a command does to a bank on the controller's and on the rank's side |
| `CommandQueues`, `Controllers`, `Ranks` | the objects, with the scans, cursors, list surgery and counters of the program, proved against these functions |
| `DramSystem` | controller, queue, ranks and events in flight as one transition system; a run is any sequence of its states |
| `QueueShape`, `SchedulerSafety`, `SchedulerInvariant`, `Agreement`, `PendingNotes`, `DramSafety` | the invariant of all runs and what follows from it |
| `TimingRules`, `RankRules`, `IssueLog`, `NotesOwed` | the timing rules as rules about a log of commands; a rank accepts exactly what they allow, and the controller issues in keeping with them and waits no longer; which notes it is owed |
| `Progress`, `PopOrder` | what pop must do: it is idle only when all is done; what comes first, and when it closes a bank |
| `ProgramTicks`, `ProgramRuns`, `EvenTicks` | the program's own core cycle, step by step, and why its runs are runs of the transition system; runs with a RAM tick in every core cycle |
| `FewPackets`, `RaceEvents`, `RaceOpening`, `RaceClosing`, `RefreshRace` | why one timing condition is needed: without it a run of the program that ends in a refused command |
| `ConstantRefresh` | why that holds for long refresh periods only |
| `LostTransactions` | a run of the program in which a transaction is lost |
| `Conservation`, `QueueDepth`, `FourActivates`, `WorkConservation`, `RoundRobin`, `PostedCas` | properties that hold whatever the timing |
| `RefreshRotation`, `AddressMapping`, `DataBus` | the refresh counters; how an address is cut into fields; histories of the data bus |
| `TreeBarrier` | the message-passing tree barrier |
| `TimingWheel`, `Ports`, `ClockDivider`, `ClockSetup` | event queue, first-come-first-served server, rate converter, step sizes |
| `CacheArray`, `CacheHistory`, `CircularBuffer` | set-associative line array with replacement; growable ring of pooled objects |

`Config.Valid` asks for at least one rank and bank, `tFAW >= 1`, `tRFC >= 1` and `TOTAL_ROW_ACCESSES >= 1`, nothing
else. `DelaysDerived` are the equations by which the program computes the compound delays when it reads the
configuration (Tejas/src/simulator/config/XMLParser.java:780-786), over any `tRL` and `tWL`; only exactness of the
timing condition needs them.

Two systems describe a tick. In `DramSystem` pop comes before the events, these are on time but come in any order, and
pop may run any number of times: results there hold under more schedules than the program has. `ProgramTicks` is the
program's core cycle (Tejas/src/simulator/emulatorinterface/RunnableThread.java:462-534): if the RAM ticks, perhaps a
refresh request and exactly one pop; then all due events in the order of insertion; then, if the RAM has ticked, at most
one transaction enters its queue; then the clock goes on. Whether the RAM ticks is decided by the two clock counters for
any pair of clocks, and whether it asks for a refresh, and for which rank, by the refresh counters for any period; which
transactions come in is left to the environment. `ProgramRunIsRun` carries every result about states of `DramSystem`
over to the program.

Some intended properties do not follow from the code as it stands; each is stated with the exact condition:

* *No rank ever refuses a command.* A column access with auto-precharge makes the controller send itself a second
  note `tRP - 1` after its first. If the rank can be refreshed and another of its banks opened before that note is
  read, the note is taken for the end of the refresh and hides the open bank, and the next refresh is refused. The
  condition against this is `tRP <= tRFC + max(1, autopreDelay - toPreDelay)` for reads and for writes, under the
  close-page policy with more than one bank. It suffices for all delays, clocks and refresh periods
  (`ProgramNeverStops`). With the delays the program derives it always holds for writes, and it fails exactly if
  `tRP > tRFC + 1` and `tBL/2 > tRFC + min(tRTP, tCCD)` (`ConditionInConfiguredDelays`). `RankNeverRefusesIff` proves it
  necessary, too, if the RAM ticks in every core cycle, `tRRD < tRP`, and the counters ask for refreshes seldom enough:
  one rank's share of the period is at least `RaceLength`, a sum of the configured delays. In the refusing run the
  first transaction comes so late that rank 0's first request meets the race, and the refresh of its second request is
  the one that is refused. Some bound on the period is needed: with one rank and a period of one tick no row is ever
  opened, and nothing is refused whatever the delays (`NeverActivates`). `RacingConfigurationStops` names a
  configuration that fails for every period from 60 RAM ticks on; the shipped ones (`tRRD` 5, `tRP` 11, `tRFC` 88) are
  safe.
* *The tree barrier works for any number of cores.* It holds back and releases everybody if and only if the number
  of cores is `2^k - 1` with `k >= 2` (`WorksIffFullTree`).
* *Moving a pending transaction conserves transactions.* `enqueueToCommandQ` enqueues the first transaction that
  finds room and removes the head of the list; nothing is lost or doubled if and only if the queue of the head has room
  (`MoveConservesIffHead`). `FirstInLineIsLost` shows, for close page, equal clocks and delays under which no rank
  refuses anything, a run in which this happens, for any two transactions for different queues: one queue fills, then
  both arrive in the same tick.
* *An event is handled at its time.* It is handled at `max(eventTime, now)` if and only if it is added before the events
  of the current tick have been processed and is less than 1024 ticks ahead. Fetching adds events after that, while the
  clock has not yet gone on (Tejas/src/simulator/pipeline/outoforder/OutOfOrderPipeline.java:41-51): these are handled
  exactly one tick late (`AddedOnTimeIff`).
* *The RAM keeps its rate.* The rate converter is free of drift if and only if the RAM clock is not the faster one
  (`DriftFreeIff`).

## Model

| member | source | states |
|---|---|---|
| RefreshRace.RankNeverRefusesIff | Tejas/src/simulator/dram/MainMemoryDRAMController.java:124-161 | For equal clocks, tRRD < tRP and a refresh period long enough for the race: over all runs of program ticks, with the requests of the refresh counters, no rank ever refuses a command, if and only if (close page, several banks) a refresh outlasts the second note of a closing bank |
| RefreshRace.RefusedWhenRacing | Tejas/src/simulator/emulatorinterface/RunnableThread.java:462-534 | Wherever the condition fails by a margin that ACTIVATEs of one rank can keep, and one rank's share of the refresh period is at least the length of the race, a run of program ticks with the counters' own requests and one pop in every core cycle ends in a refused command |
| RefreshRace.RacingConfigurationStops | Tejas/src/simulator/dram/MainMemoryDRAMController.java:137-153 | A concrete configuration with delays derived as the program does: for equal clocks and every refresh period of at least 60 RAM ticks a run of program ticks ends in a refused command |
| ConstantRefresh.NeverActivates | Tejas/src/simulator/dram/MainMemoryDRAMController.java:287-300 | With one rank and a refresh period of one RAM tick, for any delays and clocks: in every run no row is ever open for the controller or the rank, only refreshes are sent, and none is refused |
| RefreshRace.ConditionInConfiguredDelays | Tejas/src/simulator/config/XMLParser.java:780-786 | With the delays derived as the program does, the condition fails exactly if close page, several banks, tRP > tRFC + 1 and tBL/2 > tRFC + min(tRTP, tCCD) |
| ProgramRuns.ProgramNeverStops | Tejas/src/simulator/emulatorinterface/RunnableThread.java:462-534 | Under the condition no rank refuses a command in any run of the program, whatever the two clocks and the refresh period |
| ProgramRuns.ProgramRunIsRun | Tejas/src/simulator/emulatorinterface/RunnableThread.java:462-534 | Every run of program ticks, with events in the order of insertion, ends in the same controller, queue, rank and event state as some run of the transition system |
| ProgramRuns.TickReady | Tejas/src/simulator/emulatorinterface/RunnableThread.java:462-534 | After every tick the next one is possible: tables, queues and pending transactions keep their shape |
| DramSafety.RankNeverRefuses | Tejas/src/simulator/dram/Rank.java:99-272 | Under that condition no check of the rank fires in any run, and with no command on its way both bank tables agree bank by bank: rank times at most tCMD later, idle unless the controller has the row open, same open row |
| DramSafety.NothingStranded | Tejas/src/simulator/dram/CommandQueue.java:276-331 | In every run a bank whose ACTIVATE went out without its column access yet is open on that row, has no row hits counted, and still has that access in its queue |
| DramSafety.OrphanIsOwed | Tejas/src/simulator/dram/CommandQueue.java:352-380 | Conversely, a queued column access without its ACTIVATE in front is the one its bank owes, and nothing for that bank and row stands before it |
| DramSafety.OwedUntilServed | Tejas/src/simulator/dram/CommandQueue.java:506-558 | From any state of a run to the next the debt stays, or exactly that column access is issued; no refresh, hit-first or precharge step and no other access to the bank comes first |
| DramSafety.ColumnsInOrder | Tejas/src/simulator/dram/CommandQueue.java:293-307 | For every bank and row: the column accesses that entered, in order, are those issued, in order, followed by those still queued, although open page lets row hits overtake |
| SchedulerSafety.ChooseGood | Tejas/src/simulator/dram/CommandQueue.java:138-234 | In every sound state whatever pop chooses is legal for the bank it goes to, leaves each ACTIVATE with its access, and never drops an ACTIVATE whose bank owes an access |
| SchedulerInvariant.PopSound | Tejas/src/simulator/dram/CommandQueue.java:239-673 | A call of pop followed by the controller's state update keeps the scheduler's invariant: bank states, hit counters, owed accesses and queue shape fit each other |
| Progress.BusyUntilDone | Tejas/src/simulator/dram/CommandQueue.java:239-673 | In every run, with no command and no note on its way, no window full and all times of the table past: pop returns null if and only if all queues are empty, no refresh waits and no bank is open |
| Progress.RowAccessesLimited | Tejas/src/simulator/dram/CommandQueue.java:526-553 | In every run at most TOTAL_ROW_ACCESSES + 1 column accesses go to a bank between its ACTIVATE and its next PRECHARGE or REFRESH |
| PopOrder.RefreshFirst | Tejas/src/simulator/dram/CommandQueue.java:424-492 | A rank that waits for its refresh and has all banks closed and rested gets it at once, whatever else waits |
| PopOrder.HeldRankDrains | Tejas/src/simulator/dram/CommandQueue.java:424-492 | In every run, while its refresh waits, a rank gets nothing but that refresh, PRECHARGEs and column accesses that its banks are owed |
| PopOrder.ClosedOnlyIfUnwanted | Tejas/src/simulator/dram/CommandQueue.java:599-639 | Unless its rank waits for a refresh, a bank is closed only if open, closable, out of row accesses or wanted by nobody, and only if no queue has an offer; the next search starts there |
| PopOrder.ClosedInTurn | Tejas/src/simulator/dram/CommandQueue.java:599-639 | The bank closed is the first closable one on the way from the precharge cursor, less than one round away |
| Agreement.IssueKeepsAgreement | Tejas/src/simulator/dram/MainMemoryDRAMController.java:327-503 | A command the controller allows is accepted by the rank tCMD later, and the two independently updated tables agree again |
| Agreement.UpdateAgreesIffTimely | Tejas/src/simulator/dram/MainMemoryDRAMController.java:147-153 | A state-update note keeps the tables in agreement if and only if no bank of the rank is open when it passes for the end of a refresh |
| IssueLog.RulesObeyed | Tejas/src/simulator/dram/MainMemoryDRAMController.java:327-503 | In every run, whatever the delays, each issued command has waited for every earlier one as long as the timing rules demand: tRC, tRRD, tRP, tRFC, tRCD - tAL, tRAS, read and write to precharge, auto-precharge, and on the bus column to column within a rank and across ranks |
| IssueLog.NoLongerThanDemanded | Tejas/src/simulator/dram/MainMemoryDRAMController.java:327-503 | In every state of a run a bank's activation and precharge times, and the column times of a bank that may be accessed, are past if and only if all these waits are over |
| NotesOwed.PhasesEnd | Tejas/src/simulator/dram/MainMemoryDRAMController.java:135-159 | In every run, whatever the delays: a bank that closes itself, is precharging or is refreshed has a note pending, due exactly at the end of that phase, and no phase outlasts it |
| RankRules.AcceptsIffLegal | Tejas/src/simulator/dram/Rank.java:99-272 | After any log of legal commands a rank accepts a command if and only if the log leaves the right row open or closed and all waits for earlier commands are over |
| PendingNotes.DeliveredIsTimely | Tejas/src/simulator/dram/MainMemoryDRAMController.java:135-159 | While the notes in flight satisfy their invariant, every note delivered on time is harmless in that sense |
| PendingNotes.UpdateNotesOK | Tejas/src/simulator/dram/MainMemoryDRAMController.java:137-145 | Reading a note, and sending the second one, keeps the invariant of the notes in flight, given that refreshes last long enough |
| Conservation.ActivatesKeepTheirAccess | Tejas/src/simulator/dram/CommandQueue.java:531-548 | In every run, whatever the timing, a queued ACTIVATE is immediately followed by its own column access |
| Conservation.NothingLostOrDuplicated | Tejas/src/simulator/dram/CommandQueue.java:105-134 | In every run each column access entered as often as it was issued plus as often as it waits, and it waits in its own queue only |
| QueueDepth.QueuesNeverOverflow | Tejas/src/simulator/dram/CommandQueue.java:105-134 | In every run no queue is longer than its depth, so its overflow is never reported |
| QueueDepth.AdmittedIffItFits | Tejas/src/simulator/dram/CommandQueue.java:748-752 | A transaction is let in exactly if its queue with both packets is no longer than its depth |
| FourActivates.AtMostFourActivates | Tejas/src/simulator/dram/CommandQueue.java:247-266 | Any tFAW consecutive calls of pop, anywhere in any run, activate at most four rows of a rank |
| FourActivates.CountdownListExact | Tejas/src/simulator/dram/CommandQueue.java:664-669 | The countdown list is strictly increasing within 1..tFAW and as long as the number of ACTIVATEs in the last tFAW calls, so dropping only the head is enough |
| WorkConservation.IdleIffNothingToDo | Tejas/src/simulator/dram/CommandQueue.java:585-642 | Pop returns null if and only if the waiting refresh needs nothing, no queue of a rank free to serve offers a packet, and (open page) no bank may be closed |
| WorkConservation.OffersMeaning | Tejas/src/simulator/dram/CommandQueue.java:347-382 | A queue offers something exactly if its rank is not held for a refresh and some packet in it is eligible |
| WorkConservation.ServedInTurn | Tejas/src/simulator/dram/CommandQueue.java:499-585 | The queue served is the first on the way from the cursor with anything to offer, at most one round away; if none is served, none of all queues offers |
| PostedCas.FlagAlternates | Tejas/src/simulator/dram/CommandQueue.java:647-661 | In every run with additive latency exactly every second command moves the round on, without it every command does |
| PostedCas.RoundMovesOn | Tejas/src/simulator/dram/CommandQueue.java:655-661 | After a command the next round starts at the bank just served while its pair is incomplete, else one bank further |
| RoundRobin.NthBankCycles | Tejas/src/simulator/dram/CommandQueue.java:676-715 | Under either policy the walk over the banks returns to its start after exactly numRanks * numBanks steps and not earlier, so the scans end |
| RoundRobin.NthBankReaches | Tejas/src/simulator/dram/CommandQueue.java:599-639 | Every bank is asked within one such round |
| RoundRobin.NthQueueReaches | Tejas/src/simulator/dram/CommandQueue.java:564-583 | Every queue is asked within one scan, whether a rank has one queue or one per bank |
| CommandQueues.CommandQueue.Pop | Tejas/src/simulator/dram/CommandQueue.java:239-673 | The imperative pop, with its nested scans and in-place edits, computes the packet and the whole new queue state of the specification on which all run properties are proved |
| CommandQueues.CommandQueue.SlideWindows | Tejas/src/simulator/dram/CommandQueue.java:247-266 | All countdowns of all ranks lose one; a head that reached zero leaves; nothing else changes |
| CommandQueues.CommandQueue.ServeRefresh | Tejas/src/simulator/dram/CommandQueue.java:424-492 | The refresh phase under both policies: the choice made, its effect, and no effect when the rank is not ready |
| CommandQueues.CommandQueue.ScanQueue | Tejas/src/simulator/dram/CommandQueue.java:506-558 | The scan ends at the first packet that is issuable and not held back by a pair or an earlier access to its row |
| CommandQueues.CommandQueue.FindQueue | Tejas/src/simulator/dram/CommandQueue.java:340-409 | The do-while over the queues ends at the first queue with an offer, or back at its start with the cursor unmoved |
| CommandQueues.CommandQueue.TakeOut | Tejas/src/simulator/dram/CommandQueue.java:526-553 | The packet leaves, with the ACTIVATE before it exactly if that is dropped, in which case the hit counter grows; the rest of the queue keeps its order |
| CommandQueues.CommandQueue.FindIdleBank | Tejas/src/simulator/dram/CommandQueue.java:599-639 | The precharge cursor ends at the first bank that may be closed, or back at its start |
| CommandQueues.CommandQueue.Enqueue | Tejas/src/simulator/dram/CommandQueue.java:105-134 | The packet is appended to its own queue, all others stay; the error is reported exactly when the depth is exceeded |
| Ranks.Rank.HandleCommand | Tejas/src/simulator/dram/Rank.java:99-272 | The rank stops the simulator exactly if the command is not legal after the log of those it took; otherwise the log and its table are extended by it, and only reads send data |
| DataBus.GrantedOnce | Tejas/src/simulator/dram/Rank.java:278-304 | In every history in which a deferred event is handled again at the time it was given, each read's data are granted exactly once or still wait |
| DataBus.LateOnlyIfBusy | Tejas/src/simulator/dram/Rank.java:278-304 | There a burst takes its time, overlaps none, and starts later than its data were ready only if the bus was occupied without a gap up to its start |
| DataBus.HandlingCounts | Tejas/src/simulator/dram/Rank.java:278-304 | Every event handled lowers the number that may still be handled, so no event is sent away for ever |
| DataBus.AllGranted | Tejas/src/simulator/dram/Rank.java:278-304 | From every state of a history handling the waiting events grants them all |
| Ranks.RankMirrorsSystem | Tejas/src/simulator/dram/Rank.java:99-272 | What the rank object checks and does to its array is what the transition system checks and does to that rank, other ranks untouched |
| Controllers.Controller.OneCycleOperation | Tejas/src/simulator/dram/MainMemoryDRAMController.java:283-528 | One tick: refresh request, pop, state update, posted events and counters, as the specification's functions of the old state |
| Controllers.OneCycleIsSteps | Tejas/src/simulator/dram/MainMemoryDRAMController.java:283-528 | That tick is one or two steps of the transition system, so its run properties hold of the controller object |
| Controllers.Controller.IssueCommand | Tejas/src/simulator/dram/MainMemoryDRAMController.java:327-512 | The nested loops over ranks and banks update the whole table as the rules say, and post the note and the command with their times |
| Controllers.Controller.HandleStateUpdate | Tejas/src/simulator/dram/MainMemoryDRAMController.java:124-161 | What a state-update event does to the bank or the whole rank, and the follow-up event counted from the event's own time |
| Controllers.Controller.EnqueueToCommandQ | Tejas/src/simulator/dram/MainMemoryDRAMController.java:238-278 | The first pending transaction with room for a pair enters its queue as a pair, and the head of the pending list goes; otherwise nothing changes |
| Controllers.MoveConservesIffHead | Tejas/src/simulator/dram/MainMemoryDRAMController.java:242-272 | That move neither loses nor doubles a transaction if and only if the queue of the head of the pending list has room for a pair |
| LostTransactions.FirstInLineIsLost | Tejas/src/simulator/dram/MainMemoryDRAMController.java:238-278 | Under close page, for equal clocks, delays under which no rank refuses a command and any two transactions for different queues, a run of program ticks in whose last tick both arrive: the first is then in no queue, not pending and on the way to no rank, the second has entered and is still pending |
| RefreshRotation.RequestSchedule | Tejas/src/simulator/dram/MainMemoryDRAMController.java:287-297 | Rank i asks for a refresh exactly at the ticks q(i+1) + mP, for every m |
| RefreshRotation.CursorAtLeast | Tejas/src/simulator/dram/MainMemoryDRAMController.java:521-524 | The cursor always stands at the strictly least count, and no count passes zero unserved |
| RefreshRotation.SharesFitPeriod | Tejas/src/simulator/dram/MainMemoryDRAMController.java:97-101 | The truncated shares of all ranks fit into the truncated period, for any real period |
| AddressMapping.DecodeComposes | Tejas/src/simulator/dram/MainMemoryDRAMController.java:606-678 | In both layouts the decoded fields are in range and recompose, with dropped low and unused high bits, to the address |
| AddressMapping.ComposeDecodes | Tejas/src/simulator/dram/MainMemoryDRAMController.java:598-678 | Every combination of in-range fields is hit, by the composed address |
| AddressMapping.DecodeInjective | Tejas/src/simulator/dram/MainMemoryDRAMController.java:567-696 | Addresses that agree in all fields, high bits and low bits are equal |
| AddressMapping.FieldsByPosition | Tejas/src/simulator/dram/MainMemoryDRAMController.java:606-678 | The address is the sum of its fields, each at its own bit: column below bank, rank and row under open page, bank and rank below column and row under close page |
| AddressMapping.XorIsLowBits | Tejas/src/simulator/dram/MainMemoryDRAMController.java:611-615 | Shifting right and back and taking the exclusive or with the word extracts exactly the low bits |
| AddressMapping.ChannelIsRoute | Tejas/src/simulator/memorysystem/Cache.java:447-479 | The channel the controller decodes is the one the cache routed the request to, under both policies |
| TreeBarrier.CoreBcastBus.HandleEvent | Tejas/src/simulator/generic/CoreBcastBus.java:22-90 | What handling an arrival or a release does to the counters, the posted messages and the activated cores |
| TreeBarrier.FirstLeafIsPower | Tejas/src/simulator/generic/CoreBcastBus.java:52-53 | The leaf level that the program takes from a logarithm starts at half the greatest power of two not above its argument |
| TreeBarrier.ReleasedOnceAndNotEarly | Tejas/src/simulator/generic/CoreBcastBus.java:23-90 | For n = 2^k - 1, k >= 2, and any delivery order: no core is activated before all have arrived, and none twice |
| TreeBarrier.DeliveriesBounded | Tejas/src/simulator/generic/CoreBcastBus.java:53-89 | No run ever has more than 3n - 1 messages delivered or in flight |
| TreeBarrier.DrainedMeansReleased | Tejas/src/simulator/generic/CoreBcastBus.java:26-89 | All arrived and nothing in flight: every core was activated exactly once, after exactly 3n - 1 deliveries |
| TreeBarrier.ExtraCoresUnsafe | Tejas/src/simulator/generic/CoreBcastBus.java:52-63 | With cores beyond the full tree some run releases the root before the last core has arrived |
| TreeBarrier.WorksIffFullTree | Tejas/src/simulator/generic/CoreBcastBus.java:45-90 | The barrier is safe and live, over all runs, if and only if n = 2^k - 1 with k >= 2 |
| TimingWheel.EventQueue.AddEvent | Tejas/src/simulator/generic/EventQueue.java:31-41 | At any time, also after the events of the tick were processed: adding to the wheel's list is adding to the agenda ordered by insertion |
| TimingWheel.EventQueue.ProcessEvents | Tejas/src/simulator/generic/EventQueue.java:43-59 | Draining the current list, including what handlers add to it, and turning the wheel is one tick of the agenda |
| TimingWheel.WheelTickExactIff | Tejas/src/simulator/generic/EventQueue.java:35-40 | The wheel returns an event at max(eventTime, clock) if and only if it is added before the tick's events were processed and less than 1024 ahead; exactly one tick late if added afterwards; early if further ahead |
| TimingWheel.AddedOnTimeIff | Tejas/src/simulator/pipeline/outoforder/OutOfOrderPipeline.java:41-51 | In every history with one processing per clock tick, the event added next will be handled at its time if and only if the tick's events are not processed yet and it is less than 1024 ahead; otherwise, if less than 1024 ahead, one tick late |
| TimingWheel.HandledExactlyThePast | Tejas/src/simulator/generic/EventQueue.java:43-59 | In every history of additions at any time, processing and clock steps: what was added for a past turn of the wheel was handled once, in insertion order; nothing for a later turn was |
| TimingWheel.TickHandlesAllDue | Tejas/src/simulator/generic/EventQueue.java:50-55 | After a tick everything due by then was handled, including what handlers added during the tick |
| TimingWheel.TickHandlesOnlyDue | Tejas/src/simulator/generic/EventQueue.java:50-55 | During a tick only events due in that very tick are handled |
| Ports.Port.Put | Tejas/src/simulator/generic/Port.java:69-102 | The scan finds the first earliest-free server, reserves it, and the event leaves after transfer and latency |
| Ports.Earliest | Tejas/src/simulator/generic/Port.java:74-82 | The server chosen is free no later than any other, and strictly earlier than those before it |
| Ports.TransfersDisjointAndInOrder | Tejas/src/simulator/generic/Port.java:84-95 | For requests in order of time: no two transfers overlap on a server, they start in order, none before its request |
| Ports.NeverDelayedWhileFree | Tejas/src/simulator/generic/Port.java:72-95 | A transfer starts later than asked only if every server was busy up to its start |
| ClockDivider.Divider.Simulate | Tejas/src/simulator/emulatorinterface/RunnableThread.java:476-509 | The ticks counted over any number of cycles are those of the specification |
| ClockDivider.TicksExact | Tejas/src/simulator/emulatorinterface/RunnableThread.java:476-495 | For 0 < RAM clock <= core clock, after any n cycles exactly ceil(n * ram / core) RAM ticks, across every reset |
| ClockDivider.DriftFreeIff | Tejas/src/simulator/emulatorinterface/RunnableThread.java:480-493 | The count is exact for every n if and only if the RAM is not the faster clock |
| ClockSetup.ComputeHCF | Tejas/src/simulator/generic/GlobalClock.java:127-158 | The counting loop ends with the greatest common divisor |
| ClockSetup.ComputeLCM | Tejas/src/simulator/generic/GlobalClock.java:167-186 | The search ends with the least common multiple |
| ClockSetup.StepSizes | Tejas/src/simulator/generic/GlobalClock.java:162-194 | The step sizes are positive, step times frequency is the same for all cores, and no other such steps are smaller anywhere |
| CacheArray.Cache.Fill | Tejas/src/simulator/memorysystem/Cache.java:751-823 | Which line is replaced, what is evicted, when the program stops, and that every other line stays; the array invariant is kept |
| CacheArray.Cache.Lookup | Tejas/src/simulator/memorysystem/Cache.java:702-719 | The loop finds the place of the address's line or none |
| CacheArray.Cache.AccessAndMark | Tejas/src/simulator/memorysystem/Cache.java:743-749 | A hit needs a valid line and changes only its time stamp; a miss changes nothing |
| CacheArray.Cache.UpdateStateOfCacheLine | Tejas/src/simulator/memorysystem/Cache.java:845-850 | The line of the address changes its state, nothing else, and keeps its tag even when invalidated |
| CacheArray.Cache.IsThereAnUnlockedOrInvalidEntryInCacheSet | Tejas/src/simulator/memorysystem/Cache.java:999-1029 | The guard holds exactly if some line of the set has the address, is vacant, or is unlocked |
| CacheArray.TagAndSetNameBlock | Tejas/src/simulator/memorysystem/Cache.java:672-691 | Two addresses share tag and set exactly if they lie in the same block |
| CacheArray.FillConsistent | Tejas/src/simulator/memorysystem/Cache.java:751-823 | A fill keeps each tag at most once per set, each line in the set of its address, and all time stamps different |
| CacheArray.AccessIsExact | Tejas/src/simulator/memorysystem/Cache.java:702-719 | Lookup succeeds exactly if some line holds the block, and names the only line that does |
| CacheArray.FillHolds | Tejas/src/simulator/memorysystem/Cache.java:743-823 | After a fill exactly the chosen place holds the block; every other block is held where it was, unless there |
| CacheArray.FillSucceedsIff | Tejas/src/simulator/memorysystem/Cache.java:763-806 | The fill's abort is reached exactly if the block is absent and every line of the set is locked and, in a NUCA bank, valid |
| CacheArray.ValidLinesLeaveAsVictims | Tejas/src/simulator/memorysystem/Cache.java:763-815 | A valid line is overwritten by another block only as the victim handed out, and there is a victim only if no line of the set is invalid and free |
| CacheArray.GuardIsSound | Tejas/src/simulator/memorysystem/Cache.java:392-402 | Behind the guard the fill always finds a line, and the line it evicts is not locked |
| CacheArray.GuardIsExact | Tejas/src/simulator/memorysystem/Cache.java:999-1029 | The guard holds if and only if some line of the set has the address, is unlocked or, in a NUCA bank, is invalid |
| CacheArray.VictimIsLeastRecent | Tejas/src/simulator/memorysystem/Cache.java:785-802 | The evicted line is valid, unlocked, and strictly older than every other unlocked line of its set |
| CacheHistory.LookupFindsLastFilled | Tejas/src/simulator/memorysystem/Cache.java:702-823 | After any sequence of fills, hits and state changes, a lookup finds exactly the place last filled with the block |
| CacheHistory.StateIsLastGiven | Tejas/src/simulator/memorysystem/Cache.java:845-850 | After any such sequence every line is in the state its place was last given, by the fill into it or by a change of state that named its block |
| CacheHistory.HitsIffLive | Tejas/src/simulator/memorysystem/Cache.java:693-749 | After any such sequence an access hits if and only if some place was last filled with the block and last given a state other than INVALID; then it marks that place, else it changes nothing |
| CacheHistory.EvictsLeastRecentlyMarked | Tejas/src/simulator/memorysystem/Cache.java:726-729 | After any such sequence the victim is the unlocked place of its set whose last mark lies furthest back in the history |
| CacheHistory.GuardedFillNeverStops | Tejas/src/simulator/memorysystem/Cache.java:610-614 | After any such sequence neither the abort of the fill nor that for evicting a locked line can be reached behind the guard |
| CircularBuffer.GenericCircularBuffer.constructor | Tejas/src/simulator/generic/GenericCircularBuffer.java:23-45 | A closed ring of distinct elements and objects, all in stock; a single element that is its own successor if made for fewer than two |
| CircularBuffer.GenericCircularBuffer.Append | Tejas/src/simulator/generic/GenericCircularBuffer.java:47-60 | The object joins the end of the stock exactly if the stock is not at capacity |
| CircularBuffer.GenericCircularBuffer.RemoveObjectAtHead | Tejas/src/simulator/generic/GenericCircularBuffer.java:62-114 | The oldest object leaves, through growth too; null, overflow and endless recursion exactly where the program has them; a buffer made for fewer than two objects hands out the same one for ever |
| CircularBuffer.GenericCircularBuffer.Splice | Tejas/src/simulator/generic/GenericCircularBuffer.java:91-110 | Splicing keeps one closed ring of currentMaxBufferSize elements whose stretch from head to tail has currentSize |
| CircularBuffer.InstructionPool.BorrowObject | Tejas/src/simulator/generic/CustomInstructionPool.java:106-114 | The object handed out is the oldest in stock and held by nobody else; the call returns if the pool starts with five or more |
| CircularBuffer.InstructionPool.ReturnObject | Tejas/src/simulator/generic/CustomInstructionPool.java:116-124 | If only borrowed objects come back there is always room, and no object is in stock twice |

## Left out

- RefreshRace.RankNeverRefusesIff: necessity is proved for a RAM tick in every core cycle, `tRRD < tRP` and a refresh period that leaves the race its time; which shorter periods leave room for a race is not stated. With a slower RAM, and with ACTIVATEs spaced more than a precharge apart, the condition still suffices, but whether it is needed depends on where the RAM ticks fall and on how long write delays and the traffic of other ranks can hold back a read; no closed condition is claimed there.
- IssueLog.RulesObeyed: a column access that closes its bank takes the place of what earlier accesses demand of that bank's columns, as in the program, which then waits for the bank's ACTIVATE instead; with extreme delays that may be the shorter wait.
- Progress.BusyUntilDone: proved for the timings under which no rank ever refuses a command.
- DramSafety.ColumnsInOrder: proved, like the other results on owed accesses, for the timings under which no rank ever refuses a command; once a rank's state is misjudged, order is not claimed.
- ProgramRuns.ProgramRunIsRun: program ticks handle every note and every command at its time, however far ahead it was posted, while the program's event queue does so only below 1024 core cycles ahead (`WheelTickExactIff`); longer delays are not covered.
- The delays are natural numbers; a CPU so much faster than the RAM that a derived delay becomes negative is not covered.
- CircularBuffer.InstructionPool.BorrowObject: the pool is made for at least two objects; what a buffer made for fewer does is in the contract of its removal.
- Ports.Port.Put: first come first served only; an unlimited port reserves nothing, and the program does nothing for a priority-based one.
- CacheArray.Cache.Fill: the clone handed out as the evicted line keeps its tag; the program rewrites the tag of that clone, which nobody reads.
- TimingWheel.EventQueue.ProcessEvents: the handlers' additions during one tick are a finite list given beforehand; a handler that adds to its own tick for ever keeps the program in its loop.
- The order of events within a tick and the number of pops per tick are left open in the transition system, and fixed in the program's tick.
- Bank states, cache lines and the two-dimensional tables are values in maps, sequences and arrays; aliasing of the records themselves is not captured. Controller and queue do share one bank table object.
- The queues of the command queue are sequences in a map rather than nested lists; edits of a list in place are assignments of a new sequence.
- POWER_DOWN is never entered and `nextPowerUp` never used; both are without effect in the program, too.
- The data packet of a write, the rank's record of incoming writes and its own refresh flag as set by the controller decide nothing and are omitted; response events to the caches are not modelled. One channel is modelled.
- A refresh request overwrites one that is still pending, so that not every request leads to a REFRESH; only the schedule of requests is proved.
- Widths of integers and their overflow; addresses are non-negative, logarithms of powers of two exact, a fifth of the pool size is integer division.
- The test identifier of packets made by the queue is zero.
- Tree barrier: one episode, as the counters are never reset; the arrival messages come from code that is not part of this model, one per core. Delays of the bus are subsumed under any order of delivery.
- Cache: coherence directory, miss-status registers (a set of locked blocks here), write policies, NUCA placement, multi-level traffic and the caches' event handling.
- Lock table, generic pooled list, load-store queues, translation buffers, network, pipelines, emulator interface, statistics, energy, configuration files and all output.
