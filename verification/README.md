# Proofs about SESC

SESC is a cycle-level simulator of multiprocessors. This project models six of its stateful
parts in Dafny and proves what each of them promises, over every run and not for one call only.

* **DDR2 channel** (`DDR2State`, `DDR2Trace`, `DDR2Rows`, `DDR2Queue`, `DDR2Service`, `DDR2Commands`,
  `DDR2Waiting`, `DDR2Bus`, `DDR2Conflict`, `DDR2Starvation`, `DDR2Draining`, `DDR2FirstReady`,
  `DDR2Mapping`, `DDR2Guards`, `DDR2Answers`, `DDR2Controller`). A bounded scheduling queue with a
  free list, banks, ranks, ten timing guards, and the first-come and first-ready schedulers.
* **Priority scheduler** (`Sched`, `SchedFair`, `SchedRenice`, `SchedPrefix`, `SchedPlaces`, `SchedOrder`,
  `SchedRuns`, `SchedEvents`, `SchedSystem`). The sorted process queue, pinning, the recursive
  eviction, changes of priority and the available processors.
* **Wake-up network** (`Wakeup`, `WakeupRuns`, `WakeupOrder`, `WakeupSystem`). The register alias table, the store
  buffer, the lists of waiting instructions and the loop that puts loads back.
* **Barrier** (`Barrier`). The sense-reversing barrier for any number of threads.
* **Heap allocator** (`Heap`, `HeapRuns`, `HeapPlaces`, `HeapSystem`). Best fit, placed allocation, joining on both
  sides, two indexes over one free set.
* **Fetch pipeline** (`Fetch`, `FetchRuns`, `FetchCycles`, `FetchSystem`). Buckets requested in order, answered in any
  order, put back in order, delayed, and fed to the reorder buffer.

Each part has the same shape. A state is a value, and each operation is a function on it. The class
in the module named last runs the code's own loops and branches, updates its fields in place, and is
proved equal to these functions. The results are lemmas about all sequences of events.
`Options`, `Products` and `Pigeonhole` hold what several parts share.

Where the code and its comments disagree, the model follows the code:

* `OSSim::setPriority` calls a greater number "better"; the queue treats smaller numbers as better.
* `roundUp` says nothing of sizes near the end of the word; they round to 0. What follows from that
  is stated exactly in `HeapRuns.WrappedRequest`, `HeapRuns.AllocateKept` and
  `HeapRuns.AllocateAtKeptExactly`. The simulated `malloc` asks for one byte when asked for none
  (`libmint/subst.cpp:3835-3836`), which is the guard these conditions call for.
* With a pinned process about, `OSSim::setPriority` swaps with one process and looks no further, so it
  can leave a processor idle that a waiting process may use. When it does is stated exactly in
  `SchedRenice.SetPriorityFairExactly`; `SchedRuns.CarelessRenice` is such a run.
* A placed heap request compares the end asked for after it has wrapped around. What that does is stated
  exactly in `HeapRuns.AllocateAtExact` and `HeapRuns.AllocateAtKeptExactly`.
* The first-ready scheduler serves everything only if `tRCD` is at most `tRAS`, or there is one slot.
  Otherwise two requests for one bank can stop the channel. Nothing checks that; the exact condition,
  once nothing more arrives, is `DDR2FirstReady.FirstReadyServesExactly`. While requests keep arriving,
  service is proved for one slot (`DDR2FirstReady.OneSlotServes`), and for more only the direction that
  streams of reads or writes starve a request (`DDR2Starvation.FirstReadyStarves`).
* No overlap on the DDR2 data bus rests on `tCCD` covering a burst. Nothing checks that; the exact
  condition is `DDR2Bus.BurstsDisjointExactly`.

Conventions: a DDR2 request carries a number, given in order of arrival, in place of its object's
identity. Times are unbounded integers, so that a guard written as "now minus (last minus tWL)",
which the code evaluates modulo 2^64, is the same test here. The shifts and masks of the address
mapping are divisions and remainders. Histories (commands sent, requests completed, instructions
issued) are kept beside the state because the results speak of them. In the fetch pipeline the length
of such a history stands for the code's counter of requests, and in the wake-up network an instruction
may execute once its history says it was sent on; no other operation reads one.

## Model

| member | source | states |
|---|---|---|
| DDR2Controller.DDR2.constructor | libmem/DDR2.cpp:630-748 | a new channel: every bank closed, every slot free and once in the free list, nothing waiting, all times 0 |
| DDR2Controller.DDR2.Arrive | libmem/DDR2.cpp:751-773 | the request is last in the arrival queue; nothing else changes |
| DDR2Controller.DDR2.Enqueue | libmem/DDR2.cpp:776-891 | the first waiting request takes the first free slot, with rank, bank and row decoded from its address, flags from the bank it goes to, and the current time; which place that is for every page is DDR2Mapping.PageEnqueued |
| DDR2Controller.DDR2.UpdateQueueState | libmem/DDR2.cpp:894-918 | every valid slot gets the pending flags its bank calls for, every other slot stays |
| DDR2Controller.DDR2.CanIssuePrecharge | libmem/DDR2.cpp:400-420 | true exactly if write recovery, read-to-precharge and activate-to-precharge times are over |
| DDR2Controller.DDR2.CanIssueActivate | libmem/DDR2.cpp:423-450 | true exactly if refresh, precharge, other-bank and same-bank activate times are over |
| DDR2Controller.DDR2.CanIssueRead | libmem/DDR2.cpp:936-962 | true exactly if the row is named as open, the rank keeps its distances, and every other rank has left the bus |
| DDR2Controller.DDR2.CanIssueWrite | libmem/DDR2.cpp:965-992 | true exactly if the row is named as open, the rank keeps its distances, and the bus turnaround and output switching are over |
| DDR2Controller.DDR2.Precharge | libmem/DDR2.cpp:996-1001 | the new state is the old one with the bank closed, the counter of active banks down by one, and all three precharge times set |
| DDR2Controller.DDR2.Activate | libmem/DDR2.cpp:1004-1009 | the new state is the old one with the row open, the counter up by one, and all three activate times set |
| DDR2Controller.DDR2.Read | libmem/DDR2.cpp:1012-1017 | only the read times of bank, rank and channel change |
| DDR2Controller.DDR2.Write | libmem/DDR2.cpp:1020-1025 | only the write times of bank, rank and channel change |
| DDR2Controller.DDR2.Retire | libmem/DDR2.cpp:102-126 | the slot is reset but for its time stamp and goes to the end of the free list |
| DDR2Controller.DDR2.CanServe | libmem/DDR2.cpp:1060-1133 | true exactly if the next command the reference needs passes its guard |
| DDR2Controller.DDR2.Serve | libmem/DDR2.cpp:1060-1171 | sends the one command the reference needs; flags are recomputed after a row command, the slot is freed after a read or write |
| DDR2Controller.DDR2.ScheduleFCFS | libmem/DDR2.cpp:1028-1181 | the scan finds the first valid slot in (age, slot) order, and only that one may send a command |
| DDR2Controller.DDR2.OldestReady | libmem/DDR2.cpp:1196-1279 | the scan finds the first ready slot in (age, slot) order, among reads and writes or among row commands |
| DDR2Controller.DDR2.ScheduleFRFCFS | libmem/DDR2.cpp:1184-1435 | with a reference queued, serves the oldest ready read or write, and without one the oldest ready row command |
| DDR2Controller.DDR2.UpdatePowerState | libmem/DDR2.cpp:592-627 | the power state follows from clock enable, exit speed and the counter test |
| DDR2Controller.DDR2.UpdatePowerStates | libmem/DDR2.cpp:1452-1454 | every rank updates its power state; nothing else changes |
| DDR2Controller.DDR2.EnqueueArrivals | libmem/DDR2.cpp:1523-1526 | waiting requests take slots in arrival order until none waits or no slot is free |
| DDR2Controller.DDR2.DramCycle | libmem/DDR2.cpp:1446-1529 | clock, power states, arrivals, then one first-come decision |
| DDR2Controller.DDR2.Clock | libmem/DDR2.cpp:1440-1538 | acts only on multiples of the clock ratio, and then as one DRAM cycle; the request it completes comes back one DRAM cycle after the last data cycle of the burst of the very command it sent |
| DDR2State.PickIsFirst | libmem/DDR2.cpp:1039-1048 | the scan with a strict comparison ends at the eligible slot that comes before every other one in (age, slot) order, and at none exactly if no eligible slot is old enough |
| DDR2Mapping.PageEnqueued | libmem/DDR2.cpp:804-830 | page-interleaved mapping: for every rank, bank, row and offset, the request for that offset of page (row * banks + bank) * ranks + rank is enqueued at exactly that rank, bank and row, as a write exactly for a write or a push, with the time it came |
| DDR2Mapping.SamePlaceExactly | libmem/DDR2.cpp:804-816 | two addresses share rank, bank and row if and only if they lie in one page |
| DDR2Guards.GuardsExactly | libmem/DDR2.cpp:400-500 | in every run, for every command and moment from now on: the guards let it pass if and only if every earlier command is as far back as its kind, bank and rank require, an activate comes after tRFC, and a read or write is for the row last activated |
| DDR2Guards.NoActivateBefore | libmem/DDR2.cpp:423-428 | no activate of a run comes before tRFC |
| DDR2Guards.ExactRun | libmem/DDR2.cpp:996-1025 | in every run banks, ranks and the channel remember exactly the time of the last command of each kind sent to them, and each bank the row last activated |
| DDR2Answers.CompletedAsAsked | libmem/DDR2.cpp:1060-1171 | in every run the k-th completed request got the k-th read or write sent: a write exactly for a write or a push, to the rank, bank and row of its address, after it entered the queue |
| DDR2Answers.AnsweredAfterBurst | libmem/DDR2.cpp:1109-1163 | on the processor clock, in every run: answers come in the order of the reads and writes, each at multiplier times the end of the burst of the command that its request asked for, read or write, judged by the trace |
| DDR2Answers.AnswersApart | libmem/DDR2.cpp:1109-1163 | where the least distance between two reads covers a burst, answers are at least one burst apart |
| DDR2Answers.FreeSlotsReset | libmem/DDR2.cpp:102-126 | in every run a free slot holds nothing of the request that used it last but its time stamp |
| DDR2Service.FirstComeServes | libmem/DDR2.cpp:1028-1181 | the first-come scheduler sends a command if and only if the oldest reference of an earlier cycle is ready, and then its own; otherwise nothing changes |
| DDR2Trace.TimingSafety | libmem/DDR2.cpp:400-500 | in every run, under any mix of the two schedulers, every pair of commands, however far apart, keeps the distance the memory parts require for its kinds, bank and rank; at most one command a cycle |
| DDR2Trace.GuardSpaces | libmem/DDR2.cpp:922-992 | a guard that looks at the last command of each kind spaces the new command from every earlier one |
| DDR2Bus.BurstsNeverOverlap | libmem/DDR2.cpp:453-500 | if the least distance between two reads covers a burst (two cycles with one slot, else one, or tCCD), no two data bursts of a run overlap, over all ranks, and data moves in command order |
| DDR2Bus.BurstsDisjointExactly | libmem/DDR2.cpp:936-992 | for every queue size: no run has overlapping bursts if and only if the least distance between two reads, which is max(1, tCCD) and with one slot max(2, tCCD), covers a burst |
| DDR2Bus.OverlappingRun | libmem/DDR2.cpp:466-469 | builds a run of two reads with overlapping bursts whenever it does not, for every queue size |
| DDR2Bus.FirstReadyServes | libmem/DDR2.cpp:1184-1323 | the first-ready scheduler sends nothing exactly if no queued reference could send anything, and otherwise serves the best candidate |
| DDR2Rows.RowSafety | libmem/DDR2.cpp:1060-1105 | in every run a read or write finds its own row open, an activate a closed bank, a precharge an open one, judged from the commands alone |
| DDR2Rows.FlagsAgree | libmem/DDR2.cpp:818-826 | in every reachable state the cached flags of every valid reference equal what its bank says |
| DDR2Rows.CounterAgreesWithScan | libmem/DDR2.cpp:592-627 | in every reachable state the counter test gives each of the five power states exactly when clock enable, exit speed and the scan over all banks call for it |
| DDR2Queue.Conservation | libmem/DDR2.cpp:776-799 | the free list is exactly the invalid slots, once each; requests leave the arrival queue in order; every one that left is queued or completed, exactly once |
| DDR2Queue.InOnePlace | libmem/DDR2.cpp:776-799 | requests are told apart: in every run each one that arrived waits, is queued, or has completed, in one place and once, and nothing else is anywhere |
| DDR2Queue.FcfsCompletesInOrder | libmem/DDR2.cpp:1039-1048 | under the first-come scheduler completion follows the time stamps |
| DDR2Service.GuardOpens | libmem/DDR2.cpp:400-500 | every guard opens at the latest its own bound after the last command of any kind |
| DDR2Service.QueuedIsServed | libmem/DDR2.cpp:1028-1181 | first come: every queued request itself, not one like it, completes within queueSize times (precharge bound + activate bound + read/write bound) cycles, whatever arrives, and only once |
| DDR2Service.OldestIsServed | libmem/DDR2.cpp:1028-1181 | first come: the oldest request completes within one such span, once |
| DDR2Commands.OldestTakesThreeCommands | libmem/DDR2.cpp:1028-1181 | first come: the oldest request stays chosen until it completes; all that is sent meanwhile is at most one precharge and at most one activate for it, then exactly its read or write |
| DDR2Waiting.WaitingIsServed | libmem/DDR2.cpp:1523-1529 | first come: a request still waiting at position p of the arrival queue itself completes within p + 2 queueSize + 1 spans, once |
| DDR2Draining.FirstReadyServesAll | libmem/DDR2.cpp:1184-1435 | first ready, once nothing more arrives: with one slot, or if tRCD is at most max(1, tRAS), everything that is queued or waits completes, once, within (waiting + queueSize) times (read/write bound + (queueSize + 1) row bounds + max(1, tRCD)) cycles, wherever a run has got to |
| DDR2FirstReady.FirstReadyServesExactly | libmem/DDR2.cpp:1184-1435 | first ready, once nothing more arrives: everything is served within that bound, or ever, from wherever a run has got to, if and only if there is one slot or tRCD is at most max(1, tRAS) |
| DDR2FirstReady.FirstReadyStops | libmem/DDR2.cpp:1184-1435 | otherwise, for every such channel, a run of two requests for one bank after which the first-ready scheduler completes nothing, however many cycles follow |
| DDR2FirstReady.OneSlotServes | libmem/DDR2.cpp:1184-1435 | with one slot, under any mix of the two schedulers and whatever arrives, a request waiting at position p completes, once, within p + 3 spans |
| DDR2Starvation.FirstReadyStarves | libmem/DDR2.cpp:1184-1323 | first ready, while requests keep arriving, two slots or more: if the next read of an open row may always be sent by the time a read lets its bank be precharged, or the next write by the time a write does, then for every n there is a run after which a queued request for another row stays queued for n more cycles, while one of the stream is served at least every gap |
| SchedSystem.RunningProcs.constructor | libcore/RunningProcs.cpp:35-40 | no process, every processor idle and available; the invariant holds |
| SchedSystem.RunningProcs.QueueGet | libcore/ProcessId.cpp:61-78 | the first ready process in the queue that may use the processor |
| SchedSystem.RunningProcs.PassWorse | libcore/ProcessId.cpp:84-106 | the walk forward past strictly worse priorities: where it ends, and the last running process passed whose processor may be used |
| SchedSystem.RunningProcs.QueuePromote | libcore/ProcessId.cpp:80-119 | the process moves forward past strictly worse priorities; answers the last running process passed whose processor it may use |
| SchedSystem.RunningProcs.QueueDemote | libcore/ProcessId.cpp:122-158 | the process moves back past priorities no worse; answers the first ready process passed that may use its processor |
| SchedSystem.RunningProcs.Splice | libcore/ProcessId.cpp:108-117 | the entry moves to its new place and the others keep their order |
| SchedSystem.RunningProcs.BecomeReady | libcore/ProcessId.h:256-263 | the process is ready and in the queue behind its priority group; answers the process it could evict |
| SchedSystem.RunningProcs.BecomeNonReady | libcore/ProcessId.h:265-272 | the process is invalid and out of the queue |
| SchedSystem.RunningProcs.SwitchIn | libcore/RunningProcs.cpp:265-274 | the process runs on the processor, which is no longer available; one that may not migrate is pinned there |
| SchedSystem.RunningProcs.SwitchOut | libcore/RunningProcs.cpp:276-287 | the process is ready again and the processor available |
| SchedSystem.RunningProcs.GetAvailableProcessor | libcore/RunningProcs.cpp:289-312 | the first available processor, or else the first idle one |
| SchedSystem.RunningProcs.MakeRunnable | libcore/RunningProcs.cpp:168-213 | the new state of the scheduling function, which keeps the invariant and terminates since fewer queued processes are worse with every eviction; what becomes of everybody is SchedPlaces.GetsFreePlace, ReplacesLast and WaitsItsTurn |
| SchedSystem.RunningProcs.MakeNonRunnable | libcore/RunningProcs.cpp:215-240 | the process is invalid, and its processor goes to the best ready process that may use it |
| SchedSystem.RunningProcs.SetPriority | libcore/OSSim.cpp:557-596 | new priority, new place, and a swap with the running or ready process passed; keeps the invariant |
| SchedSystem.RunningProcs.Reposition | libcore/ProcessId.h:319-336 | the new priority and place in the queue, and the process to swap with |
| Sched.EvictionShrinks | libcore/RunningProcs.cpp:168-213 | the evicted process meets the precondition of the recursive call, and fewer queued processes are worse than it |
| Sched.ReprioritizeKept | libcore/ProcessId.h:319-336 | a change of priority keeps the queue sorted, without repetition, and in step with states and processors |
| SchedPlaces.GetsFreePlace | libcore/RunningProcs.cpp:174-196 | a process whose own processor is idle runs there; else, if it is not pinned, on the first idle one in the order of seeking; and no other process and no other processor changes |
| SchedPlaces.ReplacesLast | libcore/RunningProcs.cpp:198-208 | with no such processor it runs in place of the last process in the queue that is worse and runs where it may; nobody as good as it changes, however far evictions spread, and the evicted one becomes runnable anew |
| SchedPlaces.WaitsItsTurn | libcore/RunningProcs.cpp:211-213 | with nobody to replace either it is ready, keeps the processor of its choice, and nothing else changes |
| SchedOrder.JoinsBehindGroup | libcore/ProcessId.cpp:80-119 | however far evictions spread, it enters the queue behind all that are no worse, whose order stays, and in front of all that are worse |
| SchedOrder.EntersInOrder | libcore/ProcessId.cpp:80-119 | where it evicts nobody, the queue is the old one with it put in there |
| SchedOrder.HandsOn | libcore/RunningProcs.cpp:215-234 | a running process leaves: the first in the queue that waits for its processor runs there, nobody else changes, and the others keep their order |
| SchedOrder.LeavesIdle | libcore/RunningProcs.cpp:215-234 | if nobody waits for it, the processor is idle and nobody else changes |
| SchedOrder.WaitingLeaves | libcore/RunningProcs.cpp:235-239 | a waiting process leaves the queue, and nothing else changes |
| SchedOrder.RenicedPlace | libcore/ProcessId.cpp:80-158 | a queued process with a new priority moves behind all that are no worse than that and in front of all that are worse; the others stay in order |
| SchedOrder.PromotionTakes | libcore/OSSim.cpp:582-595 | a ready process made better takes the processor of the last running one in front of it that is worse and runs where it may, which is ready again; nobody else changes |
| SchedOrder.DemotionGives | libcore/OSSim.cpp:569-581 | a running process made worse leaves its processor to the first ready one behind it that is no worse than the new priority and may use it; nobody else changes |
| SchedOrder.NobodySwaps | libcore/OSSim.cpp:557-596 | if there is none, a new priority changes that priority alone |
| SchedFair.MakeRunnableFair | libcore/RunningProcs.cpp:168-213 | with pinned processes: keeps that no ready process is strictly better than a running one on a processor it may use, and that none may use an idle processor |
| SchedFair.MakeNonRunnableFair | libcore/RunningProcs.cpp:215-240 | keeps the same two |
| SchedFair.QueueGetIsBest | libcore/ProcessId.cpp:61-78 | the process fetched is at least as good as every ready process that may use the processor |
| SchedFair.AtMostOneStops | libcore/RunningProcs.cpp:168-213 | however long the chain of evictions, at most one process loses its processor for good, and it is strictly worse than the new one |
| SchedRenice.SetPriorityFairExactly | libcore/OSSim.cpp:557-596 | pinned processes included: a change of priority keeps both properties if and only if the process that loses its processor has nowhere else to go, and nobody of the old priority is left on the wrong side of the one moved |
| SchedRuns.FairAlways | libcore/RunningProcs.cpp:168-240 | pinned processes and changes of priority included: both properties hold throughout a run if and only if each change of priority meets that condition in the state it finds; no other event can break them |
| SchedRuns.CarelessRenice | libcore/OSSim.cpp:557-596 | a run in which one does not: the process made worse waits while a processor it may use is idle |
| SchedEvents.EventsMean | libcore/OSSim.cpp:515-555 | in every run each event leaves its process stopped, suspended, waiting, gone or runnable as it should, with the priority asked for; nobody else becomes runnable or stops being so, and no event touches their priorities, rights to migrate or counts |
| SchedEvents.CountsAlways | libcore/OSSim.cpp:752-810 | in every run a process is suspended exactly if its count of suspensions is 1, and the count is 0 otherwise |
| SchedPrefix.MakeRunnablePrefix | libcore/RunningProcs.cpp:168-213 | with migratable processes the running ones stay exactly the first of the queue |
| SchedPrefix.MakeNonRunnablePrefix | libcore/RunningProcs.cpp:215-240 | the same when a process leaves |
| SchedPrefix.SetPriorityPrefix | libcore/OSSim.cpp:557-596 | the same when a priority changes |
| SchedRuns.RunningIsPrefix | libcore/RunningProcs.cpp:168-240 | with migratable processes, in every run, changes of priority included, the running processes are exactly the first min(n, processors) of a queue sorted by priority that holds exactly the runnable ones, each on a processor of its own |
| Barrier.SharedBarrier.constructor | libapp/sesc_locks.c:113-126 | count and gsense are 0, all threads outside |
| Barrier.SharedBarrier.FetchInc | libapp/sesc_thread.c:398-421 | answers the old value and adds one, in one step |
| Barrier.SharedBarrier.Act | libapp/sesc_locks.c:140-168 | one access of one thread to the shared words, as the transition relation of the runs has it |
| Barrier.KeptStep | libapp/sesc_locks.c:140-168 | every atomic step of every thread keeps the invariant on count, sense and places |
| Barrier.Safety | libapp/sesc_locks.c:140-168 | for any number of threads and any interleaving: no thread returns from its k-th call before all have incremented k times; no thread is more than one episode ahead |
| Barrier.Reusable | libapp/sesc_locks.c:113-168 | whenever all threads are out, count is 0 again and all have completed the same number of calls |
| Barrier.NeverStuck | libapp/sesc_locks.c:140-168 | in every reachable state some thread can do more than look at gsense again |
| Barrier.UsefulIsWork | libapp/sesc_locks.c:140-168 | a call takes exactly four useful steps, an episode one more |
| Barrier.EpisodesEnd | libapp/sesc_locks.c:140-168 | more than n(4k+2)+k+1 useful steps mean more than k episodes and at least k returns of every thread |
| HeapSystem.HeapManager.constructor | libll/HeapManager.cpp:4-12 | one free block, in both indexes; the invariant holds |
| HeapSystem.HeapManager.InsertFree | libll/HeapManager.cpp:32-33 | the block is in both free indexes |
| HeapSystem.HeapManager.EraseFree | libll/HeapManager.cpp:28-29 | the block is out of both free indexes |
| HeapSystem.HeapManager.InsertBusy | libll/HeapManager.cpp:30-36 | the block is busy, and the high-water mark covers it |
| HeapSystem.HeapManager.Allocate | libll/HeapManager.cpp:18-38 | the new state and the answer of best fit |
| HeapSystem.HeapManager.AllocateAt | libll/HeapManager.cpp:40-84 | the new state and the answer of placed allocation with front and back chop, or of plain allocation; sums and differences wrap around as words do; what that means in every case is HeapPlaces.PlacedTakes and PlacedElsewhere |
| HeapSystem.HeapManager.Deallocate | libll/HeapManager.cpp:86-121 | the new state with two-sided joining, and the recorded size |
| Heap.RoundUpFits | libll/HeapManager.h:36-38 | the rounded size is the least multiple of 32 that holds the request; it is 0 exactly for 0 and for the last sizes below the end of the word |
| Heap.TilesCover | libll/HeapManager.cpp:18-121 | the tiling of the invariant means that every address of the region is in exactly one block |
| Heap.DeallocateIs | libll/HeapManager.cpp:86-121 | the neighbour searches join the freed block to exactly the free blocks that touch it, in both indexes |
| Heap.DeallocateKept | libll/HeapManager.cpp:86-121 | deallocation keeps the invariant |
| HeapRuns.BestFitFits | libll/HeapManager.cpp:21-27 | plain allocation takes the smallest free block that is long enough, the lowest of several |
| HeapRuns.AllocateKept | libll/HeapManager.cpp:18-38 | plain allocation keeps the invariant if and only if the rounded size is not 0 or nothing is free |
| HeapRuns.AllocateAtKeptExactly | libll/HeapManager.cpp:40-84 | placed allocation keeps the invariant if and only if the rounded size is not 0 and the end asked for does not wrap into the free block found, or nothing is free, or the place is a busy block right behind a free one |
| HeapRuns.WrappedPlaceExists | libll/HeapManager.cpp:53-56 | an input whose end wraps: nearly a whole word is answered inside a region of 64 bytes, and the invariant is lost |
| HeapRuns.KeptAlways | libll/HeapManager.cpp:18-121 | in every run busy and free blocks tile the region, free blocks never touch, both indexes hold the same set |
| HeapRuns.AllocateComplete | libll/HeapManager.cpp:18-38 | plain allocation answers 0 exactly if no contiguous free run of the rounded size exists, and otherwise the start of one |
| HeapRuns.AllocateAtExact | libll/HeapManager.cpp:40-84 | placed allocation answers the address asked for exactly if the rounded range there is wholly free, or its end wraps into the free block found |
| HeapPlaces.FreeIsRest | libll/HeapManager.cpp:18-121 | an address of the region is free if and only if no busy block holds it |
| HeapPlaces.AllocateTakes | libll/HeapManager.cpp:18-38 | plain allocation takes the start of the shortest sufficient free block, the lowest of several, and records the size asked for; without one it answers 0 and changes nothing |
| HeapPlaces.PlacedTakes | libll/HeapManager.cpp:40-84 | where the rounded range asked for is wholly free, placed allocation makes exactly that range busy and records the rounded size |
| HeapPlaces.PlacedElsewhere | libll/HeapManager.cpp:45-58 | where it is not, and the end does not wrap in, placed allocation is plain allocation, state and answer |
| HeapPlaces.PlacedComplete | libll/HeapManager.cpp:40-84 | so placed allocation answers 0 if and only if no free run of the rounded size exists anywhere, and then changes nothing |
| HeapPlaces.FreeGivesBack | libll/HeapManager.cpp:86-121 | deallocation takes the block out of the busy ones, answers its recorded size, and changes no other block and no mark |
| HeapPlaces.FreedAt | libll/HeapManager.cpp:86-121 | afterwards exactly what was free and the extent of the block is free |
| HeapPlaces.MovesOnlyIfBlocked | libmint/subst.cpp:3975-3982 | a block freed and placed again with any size stays where it is if and only if everything behind it up to its new end is free; otherwise it goes where plain allocation puts it, and is lost only if, its own place counted as free, no run of the new size exists |
| HeapRuns.FreeUndoesAllocate | libll/HeapManager.cpp:18-121 | deallocating right after plain allocation restores both free indexes and the busy blocks exactly |
| HeapRuns.FreeUndoesAllocateAt | libll/HeapManager.cpp:40-121 | the same after placed allocation, unless the end asked for wraps |
| HeapRuns.FreeingAllRestores | libll/HeapManager.cpp:86-121 | freeing all live blocks, in any order, gives back one free block |
| HeapRuns.ShrinksInPlace | libmint/subst.cpp:3975-3982 | a block freed and placed again with a size not above its recorded one stays where it is, as the caller of realloc asserts |
| HeapRuns.WrappedRequest | libll/HeapManager.h:36-38 | a request that wraps to 0 when rounded should fail; it does exactly if nothing is free |
| HeapRuns.AlignedAlways | libll/HeapManager.h:17-18 | if the places asked for are multiples of 32, every block of every run starts at one |
| HeapRuns.MarkIsGreatestEnd | libll/HeapManager.cpp:35-36 | the high-water mark is the greatest end of any block that was ever busy |
| WakeupSystem.Window.constructor | libcore/Processor.cpp:37-50 | no instruction, empty tables; the invariant holds |
| WakeupSystem.Window.AddSrc | libcore/DInst.h:217-272 | the entry is last in the producer's list, and its instruction waits for one operand more |
| WakeupSystem.Window.GetNextPending | libcore/DInst.h:200-213 | the first entry leaves the list, and its instruction waits for one operand less |
| WakeupSystem.Window.Send | libcore/DepWindow.cpp:172-197 | the instruction is sent on once more |
| WakeupSystem.Window.GetEntry | libcore/LDSTBuffer.cpp:100-162 | a load queues up behind the last store to its word: of another context always, of its own only before that executed; a store becomes the last one |
| WakeupSystem.Window.AwaitRegister | libcore/Processor.cpp:219-239 | the instruction queues up behind the instruction the alias table names, if any |
| WakeupSystem.Window.Rename | libcore/Processor.cpp:214-245 | both operands are looked up, the destination is entered |
| WakeupSystem.Window.AddInst | libcore/Processor.cpp:191-253 | the new instruction waits for exactly the producers found, and without any is sent on at once |
| WakeupSystem.Window.Visit | libcore/DepWindow.cpp:229-290 | one turn of the loop: an operand is delivered, or a remote load is put back |
| WakeupSystem.Window.Drain | libcore/DepWindow.cpp:223-290 | the loop ends, having gone exactly once through the list, though it only compares with the first load put back |
| WakeupSystem.Window.Executed | libcore/DInst.cpp:102-112 | the alias table forgets the instruction, and its list is gone through |
| WakeupSystem.Window.Release | libcore/DInst.cpp:341-362 | one turn of the loop at destruction: a remote load is released |
| WakeupSystem.Window.AwakeRemoteInstructions | libcore/DInst.cpp:341-362 | everyone still in the list is a remote load, and is released |
| WakeupSystem.Window.Destroy | libcore/DInst.cpp:286-303 | the list ends up empty |
| WakeupSystem.Window.Retire | libcore/Resource.cpp:479-544 | a store leaves the store buffer; anything else is destroyed |
| Wakeup.FoundRight | libcore/Processor.cpp:214-241 | what is found at rename are exactly the program's own producers that have not delivered |
| Wakeup.KeptAlways | libcore/Processor.cpp:191-253 | the invariant on lists, counts, alias table and store buffer in every run |
| WakeupRuns.RenameAwaits | libcore/Processor.cpp:214-241 | a new instruction waits for an operand exactly if the program has a source for it that has not executed or, a store of another context, has not left the store buffer |
| WakeupRuns.UsedStep | libcore/DepWindow.cpp:200-291 | an operand stops being waited for only at an event after which its source has delivered it: executed or, a store of another context, performed |
| WakeupRuns.SentExactly | libcore/DepWindow.cpp:123-135 | in every run an instruction is sent on at most once, and it has been exactly if the last older writer of each register and the last older store to its word have delivered, a store of another context by being performed unless it had left the store buffer before the load was renamed |
| WakeupRuns.NoLostWakeup | libcore/DepWindow.cpp:200-291 | once its producers have delivered, the instruction has been sent on |
| WakeupRuns.SentWithLastOperand | libcore/DepWindow.cpp:276-289 | it is sent on at the very event that delivers the last operand it waits for: none of those still waited for was delivered before, all are after |
| WakeupRuns.AliasNeverExecuted | libcore/DInst.cpp:102-109 | a readable register is never looked up to an executed instruction; the table names the last writer |
| WakeupRuns.OldestIsReady | libcore/DepWindow.cpp:123-135 | in every run the oldest unexecuted instruction can execute exactly if it does not wait for a store of another context |
| WakeupRuns.NeverStuck | libcore/GProcessor.cpp:389-412 | in every run, while an instruction is unfinished, some instruction can execute, retire or be performed |
| WakeupRuns.EventsFinish | libcore/GProcessor.cpp:389-412 | every such event of a run lowers a measure of at most 3n |
| WakeupRuns.WindowDrains | libcore/GProcessor.cpp:389-412 | from wherever a run has got to, at most 3n such events finish all n instructions |
| WakeupRuns.ExecuteLeavesRemote | libcore/DepWindow.cpp:223-273 | execution leaves in the list exactly the remote loads, in their old order |
| WakeupOrder.FlagsExactly | libcore/DInst.cpp:286-303 | in every run an event brings forward the instruction it is for, by its own stage, and no other; renaming adds one instruction at no stage |
| WakeupOrder.RetiresInOrder | libcore/GProcessor.cpp:389-412 | in every run the instructions of a core retire in program order, each after it executed |
| WakeupOrder.ListsInOrder | libcore/DInst.h:217-272 | in every run those that wait for an instruction stand in its list in program order, so the oldest is released first |
| WakeupOrder.ForwardedExactly | libcore/LDSTBuffer.cpp:147-153 | in every run a load is marked as forwarded if and only if the last older store to its word is of its own context and had not retired when the load was renamed |
| FetchSystem.PipeQueue.constructor | libcore/Pipeline.cpp:49-77 | all buckets in the pool, all requests allowed; the invariant holds |
| FetchSystem.PipeQueue.NewItem | libcore/Pipeline.cpp:125-142 | a bucket from the pool, numbered in request order, if a request may be made |
| FetchSystem.PipeQueue.Fetch | libcore/FetchEngine.cpp:481-548 | the next instructions go into the new bucket, if there is one; when there is one is FetchCycles.FetchesExactly |
| FetchSystem.PipeQueue.DoneItem | libcore/Pipeline.cpp:190-196 | the bucket is back in the pool |
| FetchSystem.PipeQueue.Append | libcore/Pipeline.cpp:163-167 | the bucket next in order goes to the buffer, or to the pool if empty |
| FetchSystem.PipeQueue.Top | libcore/Pipeline.cpp:174-175 | a received bucket with the least place in order |
| FetchSystem.PipeQueue.ClearItems | libcore/Pipeline.cpp:172-188 | buckets that came early are taken in as long as they are next in order |
| FetchSystem.PipeQueue.ReadyItem | libcore/Pipeline.cpp:150-170 | an answer: the bucket is held back, or taken in with those that waited for it |
| FetchSystem.PipeQueue.NextItem | libcore/Pipeline.cpp:198-249 | the head of the buffer exactly if it is due |
| FetchSystem.PipeQueue.Push | libcore/GProcessor.cpp:272-281 | one instruction from the bucket at the head to the reorder buffer |
| FetchSystem.PipeQueue.Issue | libcore/GProcessor.cpp:241-291 | the nested loops issue up to the issue width, or until the back end refuses, and answer how many; how many that is exactly is FetchCycles.IssuesExactly |
| FetchSystem.PipeQueue.DecodeStage | libcore/Processor.cpp:171-181 | with room for a whole bucket, the one that is due moves to the instruction queue |
| FetchSystem.PipeQueue.AdvanceClock | libcore/Processor.cpp:147-189 | fetch, decode and rename of one cycle; keeps the invariant |
| FetchRuns.KeptAlways | libcore/Pipeline.cpp:125-249 | the invariant in every run, whatever order the cache answers in |
| FetchRuns.InOrderDelivery | libcore/GProcessor.cpp:241-291 | what reached the reorder buffer is always a prefix of what was fetched |
| FetchRuns.BucketsConserved | libcore/Pipeline.cpp:49-77 | each of the length + 1 + maxReqs buckets is in exactly one place; requests under way and allowed add up; the buffer never holds more than its capacity of 2 length + 1 + maxReqs |
| FetchRuns.RoomConserved | libcore/Processor.cpp:171-186 | room and instructions in the instruction queue add up to its size, and the room is never negative |
| FetchRuns.HeldBackOnlyForUnanswered | libcore/Pipeline.cpp:172-188 | a bucket is held back only for an earlier unanswered one; once all are answered, everything fetched is issued or in line |
| FetchRuns.NotBeforeTime | libcore/Pipeline.cpp:211-215 | no bucket reaches the instruction queue before its answer time plus the pipeline length |
| FetchRuns.IssuedInTime | libcore/Processor.cpp:147-189 | while fetching goes on and the cache answers in any order: an instruction answered in order is issued within length + 1 cycles for each one up to it not yet issued, plus one length |
| FetchRuns.EverythingIsIssued | libcore/Processor.cpp:147-189 | once all requests are answered, everything fetched so far is issued within length + 1 cycles per instruction plus one length, whatever is fetched meanwhile |
| FetchCycles.FetchesExactly | libcore/Processor.cpp:151-161 | in every run a cycle with work fetches exactly n instructions in a new request if and only if fewer than maxReqs requests are unanswered and not all buckets are in use; otherwise it fetches nothing |
| FetchCycles.IssuesExactly | libcore/Processor.cpp:170-186 | in every run a cycle moves the first answered bucket on if and only if it has been in the pipeline for its length and the instruction queue could take a whole bucket more, and issues exactly the least of the issue width, what the back end accepts and what the queue then holds |
| FetchCycles.TakenInExactly | libcore/Pipeline.cpp:150-188 | in every run what was issued or stands in line is exactly what was fetched before the first unanswered request |
| FetchCycles.RequestsReachLimit | libcore/Pipeline.cpp:125-142 | for every configuration some run has maxReqs requests unanswered at once, and none has more |
| FetchCycles.HeldBackExactly | libcore/Pipeline.cpp:150-170 | some run holds a bucket back if and only if more than one request is allowed at a time |

## Left out

- DDR2Starvation.FirstReadyStarves: for endless arrivals and two slots or more it goes one way. Streams to other banks and ranks, and turning the bus between reads and writes, can hold a request back too, and which configurations serve every request is not stated.
- DDR2 refresh: the clock does not call it, so the last refresh stays at time 0.
- DDR2 statistics, energy, log streams, and the time stamps and flags that only feed them.
- Several DDR2 channels: they share one clock that channel 0 advances; the model is one channel that advances its own.
- DDR2 banks, ranks and queue slots are records in arrays and sequences, not objects, so aliasing between them is not captured.
- DDR2 channel-level times are not set by the constructor shown; the model starts them at 0.
- The arrival queue's linked list is a sequence; a request's route back up the memory hierarchy is its return time only.
- Processors with several flows (SMT): the available set does not count flows; one flow each is modelled.
- `eventYield`, `contextSwitch` and `sysconf` on a queued process: they swap or re-pin directly and promise no global order.
- Processes are records in a table and the queue is a sequence of their numbers; the list of processors with work left, statistics and the processors' own pipelines are not modelled.
- An exit that wakes its parent is two events, the exit and the wake-up.
- The barrier's IRIX, `NOSPIN_DOSUSPEND` and profiling variants, its yield every thousand looks, and memory orders weaker than sequential consistency. All n threads pass the same n.
- Semaphores, flags, locks and the native thread table.
- HeapSystem.HeapManager.AllocateAt: places below 0 of the signed address type are not among its inputs; no free block lies at or below one, so such a call is a plain allocation. A region lies within the addresses that are not negative.
- Reference counting of heaps; the three ordered sets are maps and a set with searches for the least and greatest entry.
- Wake-up times, ports, clusters and latencies: only the order of events is kept, and any instruction sent on may execute next.
- Silently killed instructions, fakes, replay, in-order cores, and the `TASKSCALAR`, `TLS` and `SESC_MISPATH` variants.
- WakeupSystem.Window.GetEntry: does not mark an overwritten store of the same context as dead, because only a statistics counter reads the mark.
- WakeupSystem.Window.Visit: leaves out the branch for an instruction not yet issued, because every instruction in a list has been issued by the time its producer executes.
- The recycling of instructions through their pool; the intrusive lists are sequences.
- Stalls for lack of window or register entries: a renamed instruction is one that got through.
- FetchSystem.PipeQueue.Issue: how many instructions the back end accepts before it stalls is an input, because its resources are not modelled.
- FetchSystem.PipeQueue.NextItem: does not pass over buckets marked clean, because what marks them, a squash, is not modelled.
- FetchSystem.PipeQueue.Fetch: how many instructions a fetch obtains is an input, and they are numbered in fetch order, because the instruction stream is not modelled.
- FastQueue's ring buffer is a sequence, with its capacity as a bound that is proved.
- Caches, TLBs, prefetchers, branch prediction, instruction decoding, ELF reading and the Markov models.
