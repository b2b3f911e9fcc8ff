# A verified model of the suspenders coroutine runtime and its QUIC transport

`include/suspenders.h` is a coroutine runtime: coroutines pinned to workers, one shared
wait protocol, channels and select, locks, task queues, timers. `include/suspenders_quic.h`
adds a small QUIC transport. This project models the parts whose correctness rests on
interleavings, in-place data structures or wire formats, and proves what they promise for
every input and every run.

Two forms are used. Code that runs alone or under a lock is a method or a class, specified
by functions on sequences. Code that races is a transition system: every predicate that
relates `s` to `s'` is one atomic access or one critical section, a run is any sequence of
such steps from an initial state, and the theorems speak about every state or step of
every run. Steps are sequentially consistent.

| file | what it models |
|---|---|
| `TicketLock.dfy` | the 32-bit ticket lock, one step per atomic access |
| `WaitList.dfy`, `Ring.dfy` | the intrusive waiter list and the byte ring of a channel, in place |
| `WaitProtocol.dfy` | park, grant, wake and the `waker_busy` handshake, one step per store; single, batch and outside deciders |
| `Channels.dfy`, `ChannelInvariant.dfy`, `ChannelFifo.dfy`, `ChannelTheorems.dfy` | any number of channels and actors: blocking, try and foreign-thread operations, close, cancel, deadlines, select |
| `ChannelAnswers.dfy`, `SelectScan.dfy`, `ChannelProgress.dfy` | why a call failed, which cases a select tries, and that nobody is stuck |
| `Mutex.dfy`, `RwLock.dfy` | the two locks as classes, and runs of them with condition variables, cancels and deadlines |
| `Wakeups.dfy` | one worker among others: inbox, `wake_inflight`, `pending_wake`, ready and injector lists, reaping, shutdown |
| `Fleet.dfy` | any number of such workers at once, over one injector, from spawn to shutdown |
| `Parking.dfy` | `parked`, the wake fd, the re-check before sleeping, run completion, shutdown kicks |
| `TaskQueue.dfy`, `TaskQueueInvariant.dfy`, `TaskQueueTheorems.dfy`, `TaskQueueOrder.dfy` | submissions, drainers, barriers and their order, destroy, `s_queue_work` |
| `TimerHeap.dfy` | the array heap, arming, removal from the middle, the firing pass |
| `Varint.dfy`, `TransportParams.dfy` | variable-length integers and transport parameters |
| `PacketWindow.dfy` | the 64-bit receive mask, ACK frames and the retransmission flight |
| `Reassembly.dfy`, `Frames.dfy`, `QuicStreams.dfy` | STREAM and CRYPTO reassembly, frame parsing, `quic_write` to `quic_read` over a bad network |

The proofs compose. The wait protocol shows that a decided wait is decided once and that its
decider is gone before the call returns; the lock, channel and queue machines then take a
decision as one step. `Rings.Ring.Contents` is the `ring` of a channel and
`WaitLists.WaitList.nodes` a waiter list of the machines; both locks withdraw a waiter by the
same `Lists.Remove` that the list implements. The mutex's exclusion and the condition
variable's atomic release are what lets a critical section of a task queue be one step, and the
ledger of a channel, by which exactly the completed sends pass values on in order, what lets the
acceptance of a task be one.

Where the code and its comments differ, the code is followed:

- A comment at `include/suspenders.h:2587` says that a non-empty rwlock queue is headed by a
  writer. Under a writer it need not be (`ReaderHeadsUnderWriter`). For a lock without a writer
  it is so all along a run if and only if no cancel or deadline withdraws a head writer with a
  reader behind it (`WriterHeadsQueue`); `ReaderHeadsAfterCancel` is a run in which one does.
- `suspenders_rwlock_unlock` does not ask who calls it. Exclusion and the queue invariant hold
  for any caller; the counters are those of the holders all along a run if and only if nobody but
  a holder unlocks a held lock (`CountedIff`), and `StrayUnlock` is a run in which a writer gets in
  beside a reader.
- `s_quic_put_varint` accepts every 64-bit value and drops the two top bits of values from
  2^62 on; `RoundTripIff` states the exact limit.
- The barrier comment at `include/suspenders.h:4570` speaks of every earlier task. A drainer holds
  its task between the channel and the queue's mutex, so with two drainers or more a barrier can
  begin before a task accepted ahead of it (`BarrierOvertakes`). Accepted order around barriers
  holds in every run if and only if the concurrency is 1 (`AcceptedOrderIff`), and in any run a
  task begins before a barrier if and only if it was counted when the barrier's drainer claimed
  the queue (`BeforeBarrierIff`).
- The transport advertises a stream limit of 8 MiB and keeps 256 KiB. A chunk in order is taken if
  and only if it ends within 256 KiB (`ChunkTakenIff`), so a writer within the advertised limit can
  end the connection (`WithinLimitRefused`).
- A retransmitted slice that overlaps the receiver's position only partly is refused, although its
  bytes are right (`SliceTakenIff`); the peer modelled here never sends one.
- The try scan of a select computes `(r + i) % n` in 32 bits, so that it wraps when the random r is
  close to 2^32, tries some case twice and leaves out another. It tries every case if and only if
  it does not wrap or n divides 2^32 (`ScanCoversIff`), and exactly then a select off a coroutine
  that fails with PERM has found none of its cases ready (`FoundNothingIff`).
- Duplicate packets are recognised only within 64 of the largest number (`OldDuplicatePasses`).

## Model

| member | source | states |
|---|---|---|
| `TicketLock.ExclusionAndOrder` | include/suspenders.h:430-458 | with at most 2^32 threads, in every run and across any number of wraparounds at most one thread is inside, and threads enter in the order they drew tickets |
| `TicketLock.ExclusionFailsBeyond` | include/suspenders.h:435-458 | for every larger number of threads there is a run with two threads inside at once, so the bound is exact |
| `WaitLists.WaitList.Push` | include/suspenders.h:1485-1490 | the chain stands for the old queue followed by the node; head, tail and links stay consistent |
| `WaitLists.WaitList.Pop` | include/suspenders.h:1492-1500 | the oldest node leaves unlinked; null exactly from an empty queue |
| `WaitLists.WaitList.RemoveNode` | include/suspenders.h:1502-1514 | the node leaves from any position, the others keep their order and the tail is repaired; a node that is not linked changes nothing |
| `Lists.RemoveKeepsOrder` | include/suspenders.h:1502-1514 | whatever survives a removal keeps its relative order |
| `Rings.Ring.Push` | include/suspenders.h:2013-2018 | whatever the wrap, the element is appended to the queue of byte strings and no other element changes |
| `Rings.Ring.Pop` | include/suspenders.h:2020-2025 | the oldest element comes out and the rest keeps its order |
| `WaitProtocol.DecidedOnce` | include/suspenders.h:1517-1621 | in every run a wait is decided at most once, and its node is linked exactly while it is undecided (but for nodes the lock holder has just unlinked) |
| `WaitProtocol.ReturnsDecided` | include/suspenders.h:1564-1596 | a blocked call returns only after its one decision, with its node on no list |
| `WaitProtocol.NeverTouchedAfterReturn` | include/suspenders.h:1542-1621 | once the call has returned no decider, batch or outside deciders included, holds the node, and the decider of that wait is past its last use of the structure's lock |
| `ChannelFifo.NextIsFifo` | include/suspenders.h:1997-2227 | every step, on every channel, is a step of one FIFO queue made of the ring and the undecided parked senders: append by an offer, take the head by a receive, hand over on an empty queue, or withdraw parked values of one actor that did not complete; nothing is appended once closed; the value of a completed send is appended, handed over, or moves from the front of the parked values |
| `ChannelFifo.NextLedger` | include/suspenders.h:2065-2170 | a value gets past parking exactly by a send that completes with OK and is received exactly by a receive that completes with OK, which gets that value; at most one of each in a step |
| `ChannelTheorems.RunIsFifo` | include/suspenders.h:2065-2420 | the same for every transition of every run, selects included |
| `ChannelTheorems.FifoInEveryRun` | include/suspenders.h:460-462 | what the completed receives got, then the ring, is exactly what the completed sends sent, in order of completion; live receivers mean an empty ring, live senders on an unlocked channel a full one; a closed unlocked channel has no waiters |
| `ChannelTheorems.NoMissedPartner` | include/suspenders.h:2065-2170 | nobody waits beside a partner: an undecided wait means the channel is open and empty (full) and no other actor waits on the other side |
| `ChannelTheorems.ReturnedCall` | include/suspenders.h:2267-2420 | over every whole call, one refused before it starts included: an index with OK names the one step of the call at which the value of that case entered its channel, or left it for the caller; CLOSED names a case that the call found closed and, for a receive, with nothing buffered and no parked sender left; with CLOSED or a failure no step of the call moved a value of its |
| `ChannelAnswers.FailedCall` | include/suspenders.h:2065-2420 | why any call of any run failed: FULL and EMPTY are for try operations whose open channel was, at a step of the call, full without a waiting receiver, or had nothing to get; PERM for an operation off a coroutine in the same situation, or a select there all of whose attempts met it; CLOSED for a close of a closed channel; CANCELED and TIMEDOUT for a call refused in its first step with that error, or with a cancel or expired deadline of that caller among its steps; there is no other failure |
| `ChannelAnswers.GivenUpWaitFails` | include/suspenders.h:1603-1643 | conversely, a plain wait that is canceled, or whose deadline passes, while undecided fails with exactly that error |
| `ChannelAnswers.QuietCall` | include/suspenders.h:2196-2227 | a call that answers plain OK is a close, and one of its steps took its channel from open to closed |
| `ChannelAnswers.BlocksAfterScan` | include/suspenders.h:2279-2298 | a select goes on to register only after each attempt of its scan has found its case not ready |
| `SelectScan.ScanCoversIff` | include/suspenders.h:2280-2285 | for every r and n, the scan tries every case if and only if r + n is at most 2^32 or n divides 2^32 |
| `SelectScan.FoundNothingIff` | include/suspenders.h:2279-2296 | in every run a select off a coroutine that fails with PERM has found each case not ready, if and only if r and n meet that condition |
| `SelectScan.UnsafeFoundNothing` | include/suspenders.h:2279-2296 | for every r and n that do not, a run in which it fails although one case is ready throughout |
| `ChannelProgress.NobodyStuck` | include/suspenders.h:1997-2420 | in every reachable state an actor in a call awaits a counterpart that is not there, or has a step to take, or waits for one other actor to leave a critical section or a decider window, and that one has a step to take |
| `ChannelTheorems.ReturnedLeavesNothing` | include/suspenders.h:2370-2420 | a returned call, select or plain, has no node on any list and no decider has one open |
| `ChannelTheorems.AtMostOneEffect` | include/suspenders.h:2249-2420 | also mid-call a call has had at most one effect, and none while a node of it is undecided |
| `ChannelTheorems.LinkedWhileUndecided` | include/suspenders.h:2065-2170 | the node of a plain wait is on some list if and only if the wait is parked and undecided |
| `ChannelInvariant.NextInv` | include/suspenders.h:1985-2420 | every step keeps the invariant of actors, locks, lists, decider windows and rings |
| `Mutexes.Mutex.TryLock` | include/suspenders.h:2442-2456 | acquires exactly a free mutex |
| `Mutexes.Mutex.Lock` | include/suspenders.h:2458-2485 | takes a free mutex, refuses its owner, queues anyone else at the end |
| `Mutexes.Mutex.Unlock` | include/suspenders.h:2523-2549 | refuses a caller that does not own it; hands a waited-for mutex to the longest waiter and frees it otherwise |
| `Mutexes.Mutex.Withdraw` | include/suspenders.h:1603-1621 | a cancel or deadline removes one waiter, hands nothing over and leaves no waiter on a free mutex |
| `Mutexes.OwnershipInEveryRun` | include/suspenders.h:2442-2549 | at most one coroutine owns the mutex or believes to; queued exactly while undecided; a free mutex has no waiter, whatever was canceled |
| `Mutexes.LockReturnsDecided` | include/suspenders.h:2458-2485 | a lock call that blocked returns OK if and only if its caller then owns the mutex |
| `Mutexes.AnsweredAtOnce` | include/suspenders.h:2442-2549 | trylock and lock that return at once answer OK exactly if nobody owned the mutex, unlock exactly to the owner; without OK nothing changes hands |
| `Mutexes.LockCause` | include/suspenders.h:2458-2485 | over a whole blocked lock call: it is pending up to one step and decided from then on; it returns OK if and only if that step is the owner's unlock or release with the caller first in the queue, CANCELED or TIMEDOUT if and only if it is that withdrawal of the caller |
| `Mutexes.HandoffInOrder` | include/suspenders.h:2523-2549 | ownership passes to the earliest parked waiter that was not withdrawn, or to an arrival that finds nobody owning or waiting |
| `Mutexes.CondWaitReturnsOwning` | include/suspenders.h:2489-2521 | a `cond_wait` returns with its caller owning the mutex on every path, with the status that ended the condition wait, however often the re-lock is canceled |
| `Mutexes.CondWaitCause` | include/suspenders.h:2695-2720 | over a whole `cond_wait` on condition k: it is pending up to one step and over from then on; it returns OK if and only if that step is a signal or broadcast of k, CANCELED or TIMEDOUT if and only if it is that withdrawal of the caller |
| `Mutexes.CondRefused` | include/suspenders.h:2695-2709 | called by anyone but the owner it fails with PERM and changes neither the mutex, nor a condition list, nor any other coroutine |
| `Mutexes.CondWaiterListed` | include/suspenders.h:2711-2717 | a pending condition wait is listed from before the mutex is released, so no later signal misses it |
| `Mutexes.SignalWakesOldest` | include/suspenders.h:2723-2755 | a signal ends the oldest pending wait, a broadcast every one |
| `RwLocks.RwLock.TryRdLock` | include/suspenders.h:2561-2575 | shares the lock exactly when no writer holds it and nobody is queued |
| `RwLocks.RwLock.RdLock` | include/suspenders.h:2577-2597 | shares the lock under the same condition, queues otherwise |
| `RwLocks.RwLock.TryWrLock` | include/suspenders.h:2603-2617 | takes a free lock without looking at the queue, which is then empty |
| `RwLocks.RwLock.WrLock` | include/suspenders.h:2619-2637 | takes a free lock, queues otherwise |
| `RwLocks.RwLock.GrantReaders` | include/suspenders.h:2663-2685 | hands the lock to exactly the readers before the first queued writer |
| `RwLocks.RwLock.Unlock` | include/suspenders.h:2643-2686 | drops one hold; a lock that becomes free goes to the head writer or the leading readers; refuses a lock nobody holds |
| `RwLocks.RwLock.Withdraw` | include/suspenders.h:1603-1621 | a cancel or deadline removes one waiter and leaves no waiter on a free lock |
| `RwLocks.ExclusionInEveryRun` | include/suspenders.h:2561-2686 | in every run, whoever unlocks, a writer or readers but never both, and nobody is queued on a free lock, whatever was canceled |
| `RwLocks.HoldersInEveryRun` | include/suspenders.h:2561-2686 | as long as only holders unlock, the counters are those of the holders, one writer or any number of readers |
| `RwLocks.UnlockCounts` | include/suspenders.h:2643-2686 | an unlock of a held lock keeps the counters equal to the holders if and only if its caller is one |
| `RwLocks.CountedIff` | include/suspenders.h:2643-2686 | the counters are those of the holders all along a run if and only if nobody but a holder unlocks a held lock |
| `RwLocks.StrayUnlock` | include/suspenders.h:2643-2686 | a run in which an unlock by somebody else lets a writer in beside a reader |
| `RwLocks.NoOvertaking` | include/suspenders.h:2561-2686 | whoever acquires the lock, by any call, arrived before everybody who stays parked |
| `RwLocks.WriterHeadsQueue` | include/suspenders.h:2585-2592 | all along a run the queue of a lock without a writer is headed by a writer if and only if no step withdraws a head writer with a reader behind it |
| `RwLocks.WriterHeadsStep` | include/suspenders.h:1603-1621 | the same for one step: from a queue headed by a writer exactly that withdrawal loses it |
| `RwLocks.ReaderHeadsUnderWriter` | include/suspenders.h:2585-2592 | a run in which a reader heads the queue while a writer holds the lock |
| `RwLocks.ReaderHeadsAfterCancel` | include/suspenders.h:2585-2592 | a run in which a cancel leaves a reader at the head of a lock held by readers |
| `Wakeups.NoLostWake` | include/suspenders.h:1032-1047 | a decided wait whose decider is done is never left suspended without its coroutine in the inbox, in the list being drained or delivered, in the hands of a thread that is pushing it, or with a pending wake about to be redelivered |
| `Wakeups.ReapedUnreferenced` | include/suspenders.h:4867-5025 | a coroutine that is reaped is in no inbox and no drain list and no decider is on its way to it |
| `Wakeups.ReadyLinkedOnce` | include/suspenders.h:1420-1445 | a coroutine is READY exactly when it is linked once in exactly one of the ready and injector lists |
| `Fleet.NoLostWake` | include/suspenders.h:4939-5023 | over all workers: whatever worker a coroutine is pinned to, a decided wait whose decider is done is never left suspended without a wake on its way, and only its owner has it |
| `Fleet.ExactlyOnePlace` | include/suspenders.h:4867-4931 | over all workers a coroutine is in exactly one of injector, live lists, zombie lists and destroyed, and no list holds it twice |
| `Fleet.ReadyInOneList` | include/suspenders.h:1420-1445 | a coroutine is linked in the ready list of one worker at most, once, and never there and in the injector |
| `Fleet.ReadyExactlyLinked` | include/suspenders.h:1943-1972 | while the workers run, READY means linked in the injector or in the ready list of a worker |
| `Fleet.AllDestroyedOnce` | include/suspenders.h:5307-5327 | when every worker has stopped, every coroutine ever spawned was destroyed exactly once |
| `Parking.BlockedInboxEmpty` | include/suspenders.h:5043-5066 | a worker blocked without a wake token has an empty inbox, unless a producer is still about to signal it |
| `Parking.InjectorAttended` | include/suspenders.h:1948-1966 | a non-empty injector has a worker that will look at it, a pending token, or a spawner still searching |
| `Parking.RunCompletionSeen` | include/suspenders.h:4986-4993 | the caller of run does not sleep on while the last coroutine or task has finished, unless its signal is on the way |
| `Parking.ShutdownReachesAll` | include/suspenders.h:5283-5306 | after the kicks of shutdown every helper still blocked has its token |
| `TaskQueueTheorems.WorkAccounting` | include/suspenders.h:4672-4685 | `s_queue_work` is the number of tasks in submission, in a channel or with a drainer, and the last two are exactly what channels and drainers hold |
| `TaskQueueTheorems.BarrierRunsAlone` | include/suspenders.h:4560-4592 | while a barrier's body runs no other body of its queue runs, and whatever was active when it claimed the queue is over and uncounted |
| `TaskQueueTheorems.NothingBeginsUnderBarrier` | include/suspenders.h:4567-4592 | from a barrier's claim to its end no body of the queue begins but its own, and that only when nothing is active |
| `TaskQueueTheorems.SleeperHasWaker` | include/suspenders.h:4572-4589 | a drainer asleep in the section always has another drainer that runs, ends or is about to run and will wake it |
| `TaskQueueTheorems.RunsOnceBeforeFree` | include/suspenders.h:4770-4777 | an accepted task runs at most once, and exactly once before queue_destroy frees the queue |
| `TaskQueueTheorems.SerialOrder` | include/suspenders.h:4590-4594 | with concurrency 1 there is one drainer and tasks begin in the order they were accepted |
| `TaskQueueOrder.BarrierOrder` | include/suspenders.h:4567-4592 | the tasks begun before a barrier are, for the rest of the run, exactly those that had begun when its drainer claimed the queue |
| `TaskQueueOrder.BeforeBarrierIff` | include/suspenders.h:4567-4592 | a task begins before a barrier if and only if it had been counted when the barrier's drainer claimed the queue |
| `TaskQueueOrder.BarrierOvertakes` | include/suspenders.h:4560-4576 | for every concurrency from 2 on, a run in which a barrier begins before a task accepted ahead of it |
| `TaskQueueOrder.AcceptedOrderIff` | include/suspenders.h:4560-4594 | every run keeps accepted order around barriers if and only if the concurrency is 1 |
| `TaskQueueTheorems.DequeuedInOrder` | include/suspenders.h:4560-4566 | with any concurrency tasks leave the channel once each, in the order they were accepted |
| `TaskQueueTheorems.CompleteMeansFinished` | include/suspenders.h:4986-4993 | one worker, no foreign threads: both counters zero means every non-daemon coroutine is done and every submitted task was refused or has run once |
| `TaskQueueTheorems.NoUnderflow` | include/suspenders.h:4544-4592 | a drainer that ends a task finds its counters positive |
| `TaskQueueInvariant.NextInv` | include/suspenders.h:4544-4785 | every step keeps counters, channels, claims and drainers consistent |
| `HeapOrder.SiftUpHeap` | include/suspenders.h:4306-4313 | sifting up restores a heap that is wrong only at one entry against its parent |
| `HeapOrder.SiftDownHeap` | include/suspenders.h:4315-4329 | sifting down restores a heap that is wrong only at one entry against its children |
| `HeapOrder.SiftBoth` | include/suspenders.h:4350-4363 | sift down then up restores a heap whose one entry is arbitrary, at any place |
| `HeapOrder.RootIsMin` | include/suspenders.h:4435-4438 | the root of a heap is due no later than any entry |
| `Timers.TimerQueue.SiftUpFrom` | include/suspenders.h:4306-4313 | the array becomes the sifted sequence |
| `Timers.TimerQueue.SiftDownFrom` | include/suspenders.h:4315-4329 | the array becomes the sifted sequence |
| `Timers.TimerQueue.EnsureCap` | include/suspenders.h:4283-4298 | there is room and the entries are the same |
| `Timers.TimerQueue.Push` | include/suspenders.h:4331-4338 | a heap again, with exactly this timer more |
| `Timers.TimerQueue.Pop` | include/suspenders.h:4340-4348 | a heap again, with exactly the timer less that is due first |
| `Timers.TimerQueue.Remove` | include/suspenders.h:4350-4363 | a heap again, without the timer if it was in, unchanged otherwise |
| `Timers.TimerQueue.ArmTimer` | include/suspenders.h:4386-4393 | the timer is active and in the heap, once |
| `Timers.TimerQueue.DisarmTimer` | include/suspenders.h:4395-4399 | the timer is inactive and not in the heap; an inactive one changes nothing |
| `Timers.TimerQueue.RunCallback` | include/suspenders.h:4449-4453 | a callback's actions take effect in order, and whatever expired timer disappears was disarmed by one of them |
| `Timers.TimerQueue.FireExpired` | include/suspenders.h:4435-4454 | the pass ends, fires every expired timer once, earliest first, unless an earlier callback disarmed it (so all of them when none disarms), leaves nothing expired, and leaves the timers that firing these and running their callbacks leaves |
| `Timers.DueAgain` | include/suspenders.h:4441-4443 | a repeating timer of p milliseconds that fired in a pass is due again p times 1000 times 1000 nanoseconds after it, unless a callback disarms it |
| `Varints.PutVarint` | include/suspenders_quic.h:168-184 | writes the encoding exactly when it fits and touches no other byte |
| `Varints.GetVarint` | include/suspenders_quic.h:186-198 | succeeds exactly when the whole integer is there, gives its value and the position behind it |
| `Varints.DecodeEncode` | include/suspenders_quic.h:161-198 | for every 64-bit value and every suffix, decoding consumes exactly the encoding and gives the value modulo 2^62 |
| `Varints.RoundTripIff` | include/suspenders_quic.h:161-198 | the round trip is exact if and only if the value is below 2^62 |
| `Varints.EncodingIsMinimal` | include/suspenders_quic.h:161-166 | no byte string that decodes to a value is shorter than its encoding |
| `TransportParams.PutParams` | include/suspenders_quic.h:477-520 | writes the parameters if and only if there is room |
| `TransportParams.TakeParams` | include/suspenders_quic.h:522-552 | the loop computes the parsing function, error exits included |
| `TransportParams.ParamsRoundTrip` | include/suspenders_quic.h:477-552 | parsing what a peer wrote succeeds if and only if the connection ids match, and recovers both stream limits |
| `PacketWindow.Receiver.NoteRx` | include/suspenders_quic.h:1075-1096 | the mask update computes the window function and reports a duplicate exactly when its bit is set |
| `PacketWindow.Receiver.EncodeAck` | include/suspenders_quic.h:1103-1122 | the scan finds the run of set bits that ends at the largest number |
| `PacketWindow.WindowExact` | include/suspenders_quic.h:1075-1096 | after any arrivals the mask is exactly the set of received numbers among the last 64 |
| `PacketWindow.DuplicateIff` | include/suspenders_quic.h:1091-1093 | a packet counts as duplicate if and only if it arrived before and is within 64 of the largest |
| `PacketWindow.OldDuplicatePasses` | include/suspenders_quic.h:1089-1094 | an arrival sequence whose repeated packet passes as new |
| `PacketWindow.AckCoversReceived` | include/suspenders_quic.h:1103-1122 | an ACK covers only received numbers, down to the first gap or the end of the window |
| `PacketWindow.AckCoversIff` | include/suspenders_quic.h:1103-1122 | an ACK covers a number if and only if it and every larger number up to the largest arrived, within the window |
| `PacketWindow.TakenAckClearsIff` | include/suspenders_quic.h:1124-1130 | in every run taking an ACK clears the flight if and only if it is live and in the acknowledged range, and changes nothing else |
| `PacketWindow.ArrivedAckClearsIff` | include/suspenders_quic.h:1103-1130 | from the peer's window to the flight: an ACK sent in one step and taken in a later one clears the flight if and only if the peer had opened its packet and every later one up to its largest, within the window |
| `PacketWindow.LatestAckClears` | include/suspenders_quic.h:1103-1130 | the ACK of a peer that has opened the flight's packet and nothing newer clears the flight |
| `PacketWindow.ClearedWasOpened` | include/suspenders_quic.h:1124-1130 | in every run with late, repeated or lost ACKs, a flight is cleared only if the peer opened that very packet |
| `Reassembly.StreamReceiver.Input` | include/suspenders_quic.h:1041-1073 | the growing buffer takes exactly the next bytes, ignores what it has, refuses gaps; inside the limit growing never fails |
| `Reassembly.StreamReceiver.Read` | include/suspenders_quic.h:1718-1724 | hands out the next bytes, as many as asked for and there |
| `Reassembly.CryptoReceiver.Input` | include/suspenders_quic.h:1018-1039 | the buffer takes exactly the next bytes and every complete message is handed on, until the handshake refuses one |
| `Reassembly.DispatchFramed` | include/suspenders_quic.h:1030-1038 | the messages handed on are the framing of the bytes parsed, and no complete message stays behind |
| `Reassembly.FramingUnique` | include/suspenders_quic.h:1030-1038 | messages framed from a prefix of a framed stream are the first messages of that stream |
| `Reassembly.StreamStaysPrefix` | include/suspenders_quic.h:1063-1072 | whatever slices of a byte stream arrive, the received bytes stay a prefix of it and none already received changes |
| `Reassembly.SliceTakenIff` | include/suspenders_quic.h:1041-1073 | a slice of the peer's stream is taken if and only if it ends within the buffer and begins at the receiver's position or was received before; then the receiver holds the stream as far as it ever reached, and FIN is kept; a gap, a partial overlap or an overrun changes nothing |
| `Reassembly.CryptoStaysPrefix` | include/suspenders_quic.h:1018-1039 | the same for CRYPTO bytes, with the messages framed |
| `Frames.ParseFrames` | include/suspenders_quic.h:1132-1200 | the loop computes the parsing function on every byte string: ACK ranges and ECN counts, CRYPTO, all STREAM types, close, and every error exit |
| `Frames.PacketRoundTrip` | include/suspenders_quic.h:1132-1200 | parsing the bytes of any list of frames, also those only a peer sends (ACKs with further ranges and ECN counts, STREAM frames of other streams, without offset, with FIN), does to the receiver what the frames mean, in order, up to the first refused or closing one |
| `Frames.OpenPacketRoundTrip` | include/suspenders_quic.h:1173-1192 | the same when the last frame is a STREAM frame without a length, whose data reach to the end of the packet |
| `QuicStreams.BuildChunk` | include/suspenders_quic.h:1739-1753 | the buffer of a chunk never overflows and holds the ACK and the STREAM frame |
| `QuicStreams.Writer.Write` | include/suspenders_quic.h:1726-1759 | commits a prefix of its argument and adds exactly the packets that carry it: consecutive chunks from the old offset on, each with the ACK of its turn; it succeeds if and only if the argument ends within the peer's limit and every packet can be sent, and otherwise stops where the next chunk would pass the limit or could not be sent |
| `QuicStreams.WrittenArrives` | include/suspenders_quic.h:1726-1759 | a receiver that holds what was committed before a write, and has room, holds what is committed after it once it has parsed the new packets in order |
| `QuicStreams.ReadIsPrefix` | include/suspenders_quic.h:1689-1759 | under any loss, duplication and reordering of packets the bytes read are a prefix of the bytes written |
| `QuicStreams.ChunkTakenIff` | include/suspenders_quic.h:1041-1073 | the packet of a chunk that arrives in order parses without error if and only if the chunk ends within the receiver's buffer |
| `QuicStreams.AllTakenIff` | include/suspenders_quic.h:1041-1073 | without loss a receiver takes all chunks of its peer if and only if their total stays within its buffer |
| `QuicStreams.WithinLimitRefused` | include/suspenders_quic.h:1726-1737 | chunks within the advertised limit of 8 MiB that the receiver refuses |
| `QuicStreams.MessagesArePrefix` | include/suspenders_quic.h:1018-1039 | however the CRYPTO bytes were cut and repeated, the messages handed on are the peer's first messages, in order |

## Left out

- Context switches, stacks, fibers and sanitizer hooks: a switch is a step boundary.
- The io_uring, kqueue, poll and Windows backends, sockets and hose transports: a backend wait is "sleep until a token or a timeout".
- OpenSSL, key schedule, packet protection, certificates and the handshake's own messages: opening a packet delivers frames that were sent, and the handshake is an arbitrary function that accepts or refuses messages.
- The allocator and out-of-memory paths, except where a full buffer is an error of the code.
- C memory orders: steps are sequentially consistent.
- QoS levels, priority inheritance and preemption order: a ready list may be served in any order, so nothing is claimed about priorities.
- The wait group: its batch grant is the batch decider of the wait protocol; its counter would only add easy members. `queue_destroy` waits for it as a counter.
- `queue_sync`, `queue_after`, the global queues and queues released outside a coroutine: thin wrappers over submission.
- `struct buf`, cleanup handlers, identity calls, the pool wrapper and error strings: easy members.
- Select's random choice is an arbitrary 32-bit number; fairness and liveness under starvation are not claimed.
- Clocks and deadlines: a deadline may pass at any time; timer deadlines are unbounded naturals, so the overflow of `now + period` is not modelled.
- Lifetime rules of callers: a caller of resume or cancel keeps the coroutine alive for the call, a callback does not arm a timer that is already active (the model skips it), a queue outlives its submitters, and nothing is spawned once a worker has left its loop for good.
- A channel element is one value in the channel machine; its bytes are in `Rings`.
- Stream flow control beyond the initial limit, FIN from this side and stream ids other than 0: the code sends none.
- Packet numbers are below 2^32, the width of the wire field; the code does not reconstruct longer ones.
- `Varints.PutVarint`: returns 0 instead of -1 when the value does not fit.
