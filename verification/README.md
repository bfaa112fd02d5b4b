# Verified models of the small concurrency algorithms

The repository collects concurrency algorithms in C++. This project models the six groups whose threads
follow a real protocol, and proves what they promise:

- the Treiber stack with hazard pointers (`LockFree/HazardPointerStack`);
- the single-producer single-consumer ring buffer with sleep and wake-up, and its spinning first version
  (`ProducerConsumer/spsc_daugaard`);
- `LightweightSemaphore`, a counter over a kernel semaphore;
- the second and the third solution of the readers-writers problem;
- three seqlocks (spin lock, naive, rigtorp);
- the buffered `Channel` and the multiple-producer single-consumer queue.

## How a group is modelled

Each group has two parts.

The **transition system** (`...Model`, `...ReadersWriters`) has one transition for each atomic load, store,
exchange or lock operation, and one for each access of shared memory that another thread may interfere
with (bytes of the ring, words of a seqlock payload, slots of a queue, nodes of the stack). What a mutex
protects without waiting is one transition. Any number of threads move, in any order: `IsRun(run)` says that
`run` is a finite sequence of states, each reached from the one before by a transition of some thread, and a
theorem about `run.s` for every run is a statement about every reachable state. Fields marked as history are
written by the transitions and never read by them.

The **code** (`...Code`, `HazardStack`, `RingBuffer`) is a class with the fields of the original and a method
for each of its functions, with the same branches and loops. Between two accesses a method calls `Interfere`
(`Sleep` in the channel): its contract lets other threads make any finite number of steps, and a caller knows
no more than that. Every access commits one transition to the ghost field `run`, so each execution of a
method is a run of the transition system and all theorems apply to it. What a thread has done so far is a
function of the run (`Events`, `Did`, `Given`), and a method states exactly what its call adds to it: the
operation is done once, and the result is what the thread's own step found. Loops terminate because every retry is
paid for by a step of another thread. A method that has to block returns, with the program counter at which
the thread waits, if what it waits for is still not there when the others pause.

Memory is sequentially consistent. Counters and positions are unbounded unless a theorem is about their word
size: the ring, whose machine on words of 64 bits goes in step with the unbounded one (`RingWords`), and the
seqlocks, whose counter is kept modulo any even number, 2^32 and 2^64 among them.

`Runs`, `Options`, `Counting`, `Modular` and `Bits` hold finite runs, optional values, sums over threads,
remainders and bit masks.

## Where the code does not keep what one may expect

- **Ring buffer.** The reader publishes a skipped tail only with its next read, so both sides can be parked for
  ever. For a sequence of messages that are positive multiples of their alignment, each finished before the
  next, this can happen if and only if some message, with the tail it skips, ends more than one buffer length
  after the end of the message before it (`RingDeadlock.DeadlocksExactly`; the places are a function of the
  message sequence). With a bound on the length of the messages, whatever the bound, it
  can happen if and only if the bound is more than half of the buffer and more than one byte
  (`RingDeadlock.HalfIsExact`).
- **Hazard slots.** With more threads than the 50 slots a `topAndPop` can throw for want of a slot; with at most
  as many threads as slots it never does, although slots change hands while a thread searches
  (`HazardSlots.SlotsSuffice`).
- **Naive and rigtorp seqlock.** Two overlapping stores make the counter even in mid-write, and a load returns
  a mix of two values (`NaiveStoresOverlap`, `RigtorpStoresOverlap`). A version returns only whole values if and
  only if it is the one with the spin lock or stores do not overlap (`LoadsWholeExactly`). All three need less
  than a whole turn of the counter within one load (`TornAfterWrap`).
- **MPSC queue.** A failed commit exchange overwrites the index, and the producer then commits an index it did
  not reserve. The queue is first in, first out as long as every index is committed after its slot was written
  (`MpscTheorems.FirstInFirstOut`), and this is exact: a commit of a slot not written yet, whatever the slot
  holds, has a continuation that is not first in, first out although all its further commits are of written
  slots (`MpscFifo.CommitMatters`, `PopsUnwritten`). A queue of `n` slots with `p` producers is first in, first
  out on all its runs if and only if there is at most one producer or one slot (`MpscFifo.FifoExactly`).
  The invariant in the comment at `ProducerConsumer/mpsc_queue_test/mpsc_queue.h:17` has commit and reserve
  the wrong way round: commit never passes reserve (`MpscTheorems.Indices`).

## Model

| member | source | states |
|---|---|---|
| HazardTheorems.NoUseAfterFree | LockFree/HazardPointerStack/main.cpp:81-146 | in every run, with any number of threads and with addresses handed out again, no thread is about to dereference or delete a stack node or a retired node that is not allocated |
| HazardTheorems.ConfirmedStaysAllocated | LockFree/HazardPointerStack/main.cpp:131-136 | a node published in a hazard slot and confirmed against head stays allocated, and the slot keeps holding it, until the thread changes the slot |
| HazardTheorems.Linearizable | LockFree/HazardPointerStack/main.cpp:120-146 | the events at the compare-and-swaps and confirming loads replay as a legal LIFO history whose contents are the nodes reached from head; each call linearizes exactly once and returns what it linearized; "empty" only when the stack was |
| HazardTheorems.PopInstallsSuccessor | LockFree/HazardPointerStack/main.cpp:129-136 | no ABA: a winning pop installs the node that follows the head at that moment |
| HazardTheorems.OnePlace | LockFree/HazardPointerStack/main.cpp:79-107 | every allocated node is in exactly one of: private to a pusher, on the stack, with its popper, on the retired list, detached by one sweep; so it is deleted at most once and sweeps lose and duplicate nothing |
| HazardSlots.SlotsSuffice | LockFree/HazardPointerStack/main.cpp:21-54 | for every number of threads: no run has the exception for want of a slot if and only if there are at most as many threads as slots |
| HazardStack.LockFreeStack.Push | LockFree/HazardPointerStack/main.cpp:120-124 | adds exactly the call, the linearization and the return of this value to the events of the thread; retries only after another thread changed head |
| HazardStack.LockFreeStack.TopAndPop | LockFree/HazardPointerStack/main.cpp:126-146 | adds exactly one operation to the events of the thread: call, pop and return of the value popped, or call, empty and the exception while head is null, or call and the exception for want of a slot |
| HazardStack.LockFreeStack.Publish | LockFree/HazardPointerStack/main.cpp:128-137 | leaves the loop with head confirmed and the hazard published, or throws when the confirmed head is null; adds the events of the empty stack, or none |
| HazardStack.LockFreeStack.Dispose | LockFree/HazardPointerStack/main.cpp:138-145 | clears the hazard, deletes or retires the node and sweeps, then returns the data of the node; adds the return, and nothing else |
| HazardStack.LockFreeStack.ClaimSlot | LockFree/HazardPointerStack/main.cpp:42-54 | takes the first slot in order that is found free, each slot before it having been found taken during the call; or none, after all were found taken |
| HazardStack.LockFreeStack.ReleaseSlot | LockFree/HazardPointerStack/main.cpp:58-61 | clears the pointer, then the id; the thread has no slot afterwards |
| HazardStack.LockFreeStack.IsInUse | LockFree/HazardPointerStack/main.cpp:88-93 | true when one slot was found to hold the node during the call, false when each slot was found not to, reading one slot at a time while others run |
| HazardStack.LockFreeStack.AddToRetiredNodes | LockFree/HazardPointerStack/main.cpp:81-85 | the retired node leaves the thread's hands for the list exactly once; retries only after another change of the list |
| HazardStack.LockFreeStack.DeleteUnusedNodes | LockFree/HazardPointerStack/main.cpp:97-107 | every detached node is deleted or put back: the thread carries none at the end |
| RingTheorems.ReadsWhatWasWritten | ProducerConsumer/spsc_daugaard/v2/RingBuffer_v2.hpp:104-132 | the reader has received exactly the bytes of the first messages in order, in every interleaving of single bytes, and never passes the writer's published position |
| RingTheorems.SamePlaces | ProducerConsumer/spsc_daugaard/v2/RingBuffer_v2.hpp:104-125 | writer and reader compute the same aligned, contiguous, in-bounds place and lap for a message, from the message sequence alone |
| RingTheorems.UnreleasedStays | ProducerConsumer/spsc_daugaard/v2/RingBuffer_v2.hpp:127-156 | a written message stays intact in the buffer until the reader has released it |
| RingTheorems.Handshake | ProducerConsumer/spsc_daugaard/v2/RingBuffer_v2.hpp:140-179 | per direction, flag + semaphore + signal under way is one inside a wait request and zero outside, through every cancel race; a parked side whose flag is up faces a publisher about to see it, or a position that has not moved from the sample; the sample was not enough |
| RingTheorems.HalfFits | ProducerConsumer/spsc_daugaard/v2/RingBuffer_v2.hpp:104-110 | a positive multiple of its alignment of at most half the buffer fits from every position, wrap included, once the reader has caught up |
| RingDeadlock.HalfIsExact | ProducerConsumer/spsc_daugaard/v2/RingBuffer_v2.hpp:134-147 | for every power-of-two buffer and every bound: messages of at most that many bytes can leave both sides parked for ever, each message having been finished before the next, if and only if the bound is more than half the buffer and more than one byte |
| RingTheorems.BothStuck | ProducerConsumer/spsc_daugaard/v2/RingBuffer_v2.hpp:134-156 | if both sides are parked with no wake-up under way, they wait for the same message and it does not fit although everything before it is released |
| RingTheorems.BothStuckForever | ProducerConsumer/spsc_daugaard/v2/RingBuffer_v2.hpp:140-180 | two sides parked with no wake-up under way have no transition left |
| RingTheorems.NeverBothStuck | ProducerConsumer/spsc_daugaard/v2/RingBuffer_v2.hpp:134-180 | with messages of at most half the buffer, each finished before the next, writer and reader are never both parked for ever |
| RingDeadlock.DeadlocksExactly | ProducerConsumer/spsc_daugaard/v2/RingBuffer_v2.hpp:104-156 | for every message sequence: some run ends with both sides parked and no transition left, each message having been finished before the next, if and only if some message does not fit at its place although everything before it is released |
| RingTheorems.StuckWriterWaitsForWork | ProducerConsumer/spsc_daugaard/v2/RingBuffer_v2.hpp:127-156 | a parked writer is about to be woken, or there is a published message the reader has not released |
| RingTheorems.StuckReaderWaitsForWork | ProducerConsumer/spsc_daugaard/v2/RingBuffer_v2.hpp:112-117 | a parked reader is about to be woken, or the message it wants is not published |
| RingDeadlock.MoreThanHalfDeadlocks | ProducerConsumer/spsc_daugaard/v2/RingBuffer_v2.hpp:127-156 | for every buffer and every bound of more than half of it and more than one byte, some messages within the bound have a run that parks both sides with no transition left |
| RingTheorems.Version2RefinesVersion1 | ProducerConsumer/spsc_daugaard/v1/RingBuffer_v1.hpp:109-167 | every step of version 2 is a step of the spinning version on positions and bytes, or none |
| RingTheorems.RunRefinesVersion1 | ProducerConsumer/spsc_daugaard/v1/RingBuffer_v1.hpp:109-167 | every run of version 2 has a run of version 1 with the same buffer, published positions and received messages |
| RingTheorems.SameDecisionOnWords | ProducerConsumer/spsc_daugaard/v1/RingBuffer_v1.hpp:141-166 | with buffer and messages below 2^62 bytes, positions modulo 2^64 decide every wait as unbounded ones would: the signed comparison with the cast end, the limit taken over, and the re-check before sleeping |
| RingWords.WordsInStep | ProducerConsumer/spsc_daugaard/v2/RingBuffer_v2.hpp:72-180 | each run of the machine that computes in words of 64 bits, mask formula and wrapping positions included, however long, has a run on unbounded positions in step with it: same transitions, same state but for the positions taken modulo 2^64 |
| RingWords.RunsInStep | ProducerConsumer/spsc_daugaard/v2/RingBuffer_v2.hpp:72-180 | each run on unbounded positions has a run on words in step with it |
| RingWords.ReadsOnWords | ProducerConsumer/spsc_daugaard/v2/RingBuffer_v2.hpp:104-180 | on words: the reader receives exactly the bytes of the first messages in order |
| RingWords.NeverBothStuckOnWords | ProducerConsumer/spsc_daugaard/v2/RingBuffer_v2.hpp:134-180 | on words: with messages of at most half the buffer, each finished before the next, writer and reader are never both parked for ever |
| Bits.AlignIsLeast | ProducerConsumer/spsc_daugaard/v1/RingBuffer_v1.hpp:76-81 | the mask formula gives the least multiple of a power-of-two alignment not below its argument |
| RingBuffer.RingBuffer.constructor | ProducerConsumer/spsc_daugaard/v2/RingBuffer_v2.hpp:58-67 | starts a run: both sides at the start, the writer with the whole buffer as its limit, the reader with none |
| RingBuffer.RingBuffer.Prepare | ProducerConsumer/spsc_daugaard/v2/RingBuffer_v2.hpp:104-125 | aligns and takes the space within the cached limit, or waits for it; is a run of the machine; parked only with the semaphore at zero |
| RingBuffer.RingBuffer.GetBufferSpace | ProducerConsumer/spsc_daugaard/v2/RingBuffer_v2.hpp:140-156 | ends with the space, or parked with the semaphore at zero; goes round again only after the other side published or signalled |
| RingBuffer.RingBuffer.Sleep | ProducerConsumer/spsc_daugaard/v2/RingBuffer_v2.hpp:148-154 | request, re-check, cancel or wait: ready to sample again only after a publication or signal of the other side, or parked with the semaphore at zero |
| RingBuffer.RingBuffer.Resume | ProducerConsumer/spsc_daugaard/v2/RingBuffer_v2.hpp:154-155 | a parked side takes the token if there is one and goes on in the loop; it stays parked only with the semaphore at zero |
| RingBuffer.RingBuffer.Write | ProducerConsumer/spsc_daugaard/v2/RingBuffer_v2.hpp:22-34 | writes the next message of the sequence byte by byte, once, and publishes nothing; or returns parked, with no token to take |
| RingBuffer.RingBuffer.Read | ProducerConsumer/spsc_daugaard/v2/RingBuffer_v2.hpp:43-54 | the bytes found are those of the message written, while the writer interferes, and nothing is released; or returns parked, with no token to take |
| RingBuffer.RingBuffer.Finish | ProducerConsumer/spsc_daugaard/v2/RingBuffer_v2.hpp:112-132 | publishes base + pos once, so everything copied is done, takes the flag once, and signals if and only if it was set |
| RingBuffer.RingBuffer.SignalOther | ProducerConsumer/spsc_daugaard/v2_std_semaphore/RingBuffer_v2.hpp:109-129 | the binary semaphore is zero when it is released and one afterwards |
| SemaphoreModel.Balance | ProducerConsumer/spsc_daugaard/v2/sema.h:129-173 | sleepers - kernel tokens - releases owed is always max(0, -m_count); tokens never exceed sleepers; waits passed never exceed initial + signalled |
| SemaphoreModel.NoLostWakeup | ProducerConsumer/spsc_daugaard/v2/sema.h:145-173 | if a thread sleeps while no token is there and none is owed, every permit has been taken |
| SemaphoreModel.PermitWakes | ProducerConsumer/spsc_daugaard/v2/sema.h:145-173 | if a thread sleeps while a permit is left, a sleeper can take a token or a thread can release one |
| SemaphoreModel.RefinesCounting | ProducerConsumer/spsc_daugaard/v2/sema.h:156-173 | every transition is one of a counting semaphore: wait returns only by taking a permit that is there, tryWait takes at most one, signal(n) adds n at once |
| SemaphoreCode.LightweightSemaphore.TryWait | ProducerConsumer/spsc_daugaard/v2/sema.h:156-161 | takes one permit if it returns true; otherwise none, having found none or lost one exchange |
| SemaphoreCode.LightweightSemaphore.WaitWithPartialSpinning | ProducerConsumer/spsc_daugaard/v2/sema.h:129-149 | after at most 10000 attempts subtracts; takes exactly one permit, once, or sleeps having taken none, with no token in the kernel semaphore |
| SemaphoreCode.LightweightSemaphore.Wait | ProducerConsumer/spsc_daugaard/v2/sema.h:163-165 | takes exactly one permit, once, or the thread sleeps with no token in the kernel semaphore |
| SemaphoreCode.LightweightSemaphore.Signal | ProducerConsumer/spsc_daugaard/v2/sema.h:167-173 | gives exactly n permits at once and performs all the releases it owes |
| SecondReadersWriters.Exclusion | ProducerConsumer/second_readers_writers/main.cpp:72-126 | at most one writer is between acquiring and releasing resource, and then no reader is inside |
| SecondReadersWriters.NoReleaseWhileFree | ProducerConsumer/second_readers_writers/main.cpp:29-126 | whenever a semaphore or mutex is released, its count is zero |
| SecondReadersWriters.TakenInOrder | ProducerConsumer/second_readers_writers/main.cpp:72-148 | what readers have taken, followed by the queue, is what writers have written, in order |
| SecondReadersWriters.AnnouncedHolds | ProducerConsumer/second_readers_writers/main.cpp:33-51 | a writer that has counted itself in, and is past the acquisition of readTry, is one of a group that holds it |
| SecondReadersWriters.ReadersBarred | ProducerConsumer/second_readers_writers/main.cpp:86-107 | while the group holds readTry, it is taken and no reader is between its acquisition and release |
| SecondReadersWriters.WritersPreferred | ProducerConsumer/second_readers_writers/main.cpp:29-126 | while the group holds readTry, readers only leave, and the hold ends only with the last writer's release |
| SecondReadersWriters.NoDeadlock | ProducerConsumer/second_readers_writers/main.cpp:29-148 | in every reachable state with an unfinished thread, some unfinished thread can step |
| SecondReadersWritersCode.SecondSolution.StartWrite | ProducerConsumer/second_readers_writers/main.cpp:29-51 | returns with nobody else writing or reading, or blocked at an acquisition whose semaphore is at zero |
| SecondReadersWritersCode.SecondSolution.EndWrite | ProducerConsumer/second_readers_writers/main.cpp:53-70 | counts the writer out by a run of the machine, in which the last one gives readTry back; on return the counts are the numbers of counted threads; or blocked at an acquisition |
| SecondReadersWritersCode.SecondSolution.Writer | ProducerConsumer/second_readers_writers/main.cpp:72-84 | a writer that returns has written its value during the call, once; blocked on the way in it has written nothing |
| SecondReadersWritersCode.SecondSolution.StartRead | ProducerConsumer/second_readers_writers/main.cpp:86-107 | returns with no writer writing, or blocked at an acquisition whose semaphore is at zero |
| SecondReadersWritersCode.SecondSolution.EndRead | ProducerConsumer/second_readers_writers/main.cpp:109-126 | counts the reader out by a run of the machine, in which the last one gives resource back; on return the counts are the numbers of counted threads; or blocked at an acquisition |
| SecondReadersWritersCode.SecondSolution.Reader | ProducerConsumer/second_readers_writers/main.cpp:128-148 | the result is what the one read of this call took: the front of the queue, or nothing if the queue was empty at that moment; blocked on the way in it has taken nothing |
| ThirdReadersWriters.Exclusion | ProducerConsumer/third_readers_writers/main.cpp:32-99 | at most one writer writes, and then no reader reads; at most one thread waits for resource |
| ThirdReadersWriters.NoReleaseWhileFree | ProducerConsumer/third_readers_writers/main.cpp:32-99 | whenever a semaphore or mutex is released, serviceQueue included, its count is zero |
| ThirdReadersWriters.TakenInOrder | ProducerConsumer/third_readers_writers/main.cpp:46-121 | what readers have taken, followed by the queue, is what writers have written, in order |
| ThirdReadersWriters.ServedInOrder | ProducerConsumer/third_readers_writers/main.cpp:20-39 | serviceQueue, which is first come, first served by assumption, admits in the order of arrival: one that stands behind k others passes it after exactly those, however the run goes on |
| ThirdReadersWriters.AdmittedAfterThoseInLine | ProducerConsumer/third_readers_writers/main.cpp:59-80 | between a thread's arrival and its passing of serviceQueue exactly those pass that were in line when it arrived |
| ThirdReadersWriters.EnteredInOrder | ProducerConsumer/third_readers_writers/main.cpp:32-80 | readers and writers get the resource in the order of arrival: all that passed serviceQueue are inside or have been, but for at most one thread, which is in service |
| ThirdReadersWriters.EntersAfterThoseAhead | ProducerConsumer/third_readers_writers/main.cpp:32-80 | between a thread's arrival and its entry to the resource exactly those enter that were in line, or in service and not yet inside, when it arrived; the bound is the length of the line and one |
| ThirdReadersWriters.NoDeadlock | ProducerConsumer/third_readers_writers/main.cpp:32-121 | in every reachable state with an unfinished thread, some unfinished thread can step |
| ThirdReadersWritersCode.ThirdSolution.StartWrite | ProducerConsumer/third_readers_writers/main.cpp:32-39 | returns with nobody else writing or reading, or blocked: at a semaphore that is at zero, or in line behind another thread or before a taken serviceQueue |
| ThirdReadersWritersCode.ThirdSolution.Writer | ProducerConsumer/third_readers_writers/main.cpp:46-57 | a writer that returns has written its value during the call, once; blocked it has written nothing |
| ThirdReadersWritersCode.ThirdSolution.PutBack | ProducerConsumer/third_readers_writers/main.cpp:41-56 | the write itself and endWrite: the value is written once and the resource given back |
| ThirdReadersWritersCode.ThirdSolution.StartRead | ProducerConsumer/third_readers_writers/main.cpp:59-80 | returns with no writer writing, or blocked: at a semaphore that is at zero, or in line behind another thread or before a taken serviceQueue |
| ThirdReadersWritersCode.ThirdSolution.EndRead | ProducerConsumer/third_readers_writers/main.cpp:82-99 | counts the reader out by a run of the machine, in which the last one gives resource back; on return the count is the number of counted readers; or blocked at an acquisition |
| ThirdReadersWritersCode.ThirdSolution.Reader | ProducerConsumer/third_readers_writers/main.cpp:101-121 | the result is what the one read of this call took: the front of the queue, or nothing if the queue was empty at that moment; blocked on the way in it has taken nothing |
| ThirdReadersWritersCode.ThirdSolution.Admit | ProducerConsumer/third_readers_writers/main.cpp:34 | the thread in front, and no other, passes serviceQueue when it is free |
| SeqlockTheorems.OneStoreAtATime | SeqLock/seqlock_spinlock/Seqlock.hpp:24-39 | stores do not overlap, by the spin lock or by the assumption of one writer |
| SeqlockTheorems.ReturnsCompleteValue | SeqLock/seqlock_spinlock/Seqlock.hpp:14-55 | a load that returns after fewer than modulus changes of the counter has the value of the last completed store, never a mix of words, and the counter has not changed at all |
| SeqlockTheorems.LoadIsAtomic | SeqLock/seqlock_spinlock/Seqlock.hpp:14-22 | against any stores, the value returned is the one that was complete at the accepted sample |
| SeqlockTheorems.NaiveStoresOverlap | SeqLock/seqlock_naive/Seqlock.hpp:11-31 | for every even modulus, a run with two overlapping stores in which a load returns a mix although the counter never changes during it |
| SeqlockTheorems.RigtorpStoresOverlap | SeqLock/seqlock_rigtorp/rigtorp/Seqlock.hpp:54-74 | the same for two stores that loaded the same sequence number |
| SeqlockTheorems.LoadsWholeExactly | SeqLock/seqlock_rigtorp/rigtorp/Seqlock.hpp:34-74 | for each version and every even modulus: on all runs every load in which the counter changes less than modulus times returns a value stored whole, if and only if the version has the spin lock or stores do not overlap |
| SeqlockTheorems.TornAfterWrap | SeqLock/seqlock_naive/Seqlock.hpp:11-34 | the bound is exact, for all three versions: for every even modulus, a load during which the counter changes modulus times can return a mix, even with one writer |
| SeqlockCode.Seqlock.Lock | SeqLock/seqlock_spinlock/SpinLock.cpp:4-8 | ends owning the flag, or still waiting with the flag set |
| SeqlockCode.Seqlock.Unlock | SeqLock/seqlock_spinlock/SpinLock.cpp:10-13 | clears the flag and gives up ownership |
| SeqlockCode.Seqlock.Store | SeqLock/seqlock_spinlock/Seqlock.hpp:24-39 | a store that returns has added its value to the completed ones; for the naive and rigtorp versions, if no other store is going on; once; waits only while the flag is set |
| SeqlockCode.Seqlock.StoreOdd | SeqLock/seqlock_rigtorp/rigtorp/Seqlock.hpp:67-69 | rigtorp opens a store with a load and a separate store of the counter |
| SeqlockCode.Seqlock.ReadEnter | SeqLock/seqlock_spinlock/Seqlock.hpp:41-49 | samples until the counter is even (rigtorp: accepts any), the sample lying within the call; stalls only on an odd counter |
| SeqlockCode.Seqlock.ReadLeave | SeqLock/seqlock_spinlock/Seqlock.hpp:51-55 | accepts exactly an unchanged even counter, and then the copy is the last complete value unless the counter wrapped |
| SeqlockCode.Seqlock.Load | SeqLock/seqlock_spinlock/Seqlock.hpp:14-22 | loads once and returns the last complete value, unless the counter wrapped since a moment within the call; stalls only on an odd counter |
| ChannelModel.FirstInFirstOut | ProducerConsumer/producer_consumer_channel/channel.tpp:4-101 | the queue never exceeds capacity; received followed by queued is sent, in order |
| ChannelModel.NoLostWakeup | ProducerConsumer/producer_consumer_channel/channel.tpp:26-31 | while a receiver sleeps the channel is open and there are no more values than woken receivers; while a sender sleeps, no more free places than woken senders |
| ChannelModel.WokenForIt | ProducerConsumer/producer_consumer_channel/channel.tpp:73-81 | a sleeping receiver beside a value, or sender beside a free place, has a woken thread that can enter |
| ChannelModel.NeverBothAsleep | ProducerConsumer/producer_consumer_channel/channel.tpp:26-81 | a sender and a receiver never sleep while no thread is woken |
| ChannelModel.CloseDrains | ProducerConsumer/producer_consumer_channel/channel.tpp:75-113 | on every continuation of a run with a closed channel nothing more is sent, what is received grows along what was sent, and nobody is asleep |
| ChannelModel.ClosedCallsReturn | ProducerConsumer/producer_consumer_channel/channel.tpp:4-83 | with a closed channel every call in progress has a step, and each of its steps returns; receive finds nothing if and only if all sent has been received, else it gets the front value |
| ChannelCode.Channel.Send | ProducerConsumer/producer_consumer_channel/channel.tpp:4-37 | sends the value, once, or is refused by a closed channel, or sleeps while the channel is open and every free place has a woken sender |
| ChannelCode.Channel.TrySend | ProducerConsumer/producer_consumer_channel/channel.tpp:46-59 | never sleeps; fails only if the channel is closed or full, else the value is last in the queue, sent once |
| ChannelCode.Channel.Receive | ProducerConsumer/producer_consumer_channel/channel.tpp:62-83 | receives one value during the call, or nothing from a closed and drained channel, or sleeps while the channel is open and every value has a woken receiver |
| ChannelCode.Channel.TryReceive | ProducerConsumer/producer_consumer_channel/channel.tpp:92-101 | never sleeps; receives one value, or nothing only if all sent has been received |
| ChannelCode.Channel.Close | ProducerConsumer/producer_consumer_channel/channel.tpp:104-113 | leaves the channel closed and nobody asleep |
| MpscTheorems.Indices | ProducerConsumer/mpsc_queue_test/mpsc_queue.h:57-95 | read <= commit <= reserve <= read + capacity, and reserve - commit is the number of producers between their exchanges, despite stale loads |
| MpscTheorems.RefusedOnlyWhenFull | ProducerConsumer/mpsc_queue_test/mpsc_queue.h:59-65 | push gives up only if the ring is fully reserved when it loads readIndex |
| MpscTheorems.FirstInFirstOut | ProducerConsumer/mpsc_queue_test/mpsc_queue.h:67-95 | if each index is committed after its slot was written, or each producer commits its own, pop yields every message once, in reservation order |
| MpscTheorems.OwnIsDisciplined | ProducerConsumer/mpsc_queue_test/mpsc_queue.h:67-75 | committing one's own index implies committing a written slot |
| MpscTheorems.SlotsDistinct | ProducerConsumer/mpsc_queue_test/mpsc_queue.h:69 | a producer about to write has a slot that no unread message and no other reservation shares |
| MpscFifo.CommitMatters | ProducerConsumer/mpsc_queue_test/mpsc_queue.h:71-72 | exact condition, for every disciplined run and its next commit: all continuations with disciplined commits are first in, first out if and only if the slot committed has been written |
| MpscFifo.UnwrittenCommitBreaks | ProducerConsumer/mpsc_queue_test/mpsc_queue.h:57-95 | after any run, a commit of a slot not written yet has a continuation, with every further commit of a written slot, in which what is popped is not what was reserved |
| MpscFifo.FifoExactly | ProducerConsumer/mpsc_queue_test/mpsc_queue.h:57-95 | for every capacity and number of producers: all runs are first in, first out if and only if there is at most one producer or one slot |
| MpscFifo.PopsUnwritten | ProducerConsumer/mpsc_queue_test/mpsc_queue.h:71-74 | for every capacity and number of producers above one, a run in which a producer commits another's index and the consumer pops a slot never written |
| MpscCode.MpscQueue.Push | ProducerConsumer/mpsc_queue_test/mpsc_queue.h:57-78 | on success exactly one reservation of the message by this thread, one write of its slot and one commit, and the commit index has grown; or one refusal, with the ring fully reserved |
| MpscCode.MpscQueue.CommitIndex | ProducerConsumer/mpsc_queue_test/mpsc_queue.h:71-75 | ends with a commit, so the commit index has grown; waits only while other indices move; commits once |
| MpscCode.MpscQueue.Pop | ProducerConsumer/mpsc_queue_test/mpsc_queue.h:81-95 | takes the slot of readIndex and moves on by one; or nothing, only if readIndex has reached the commit index; the message reserved there if commits came after writes |

## Left out

- Weak memory: orders weaker than sequential consistency, notably the relaxed re-check in the ring and the racy payload copy of the seqlocks, are not modelled.
- Kernel semaphores, mutexes, condition variables and `atomic::wait` are abstract steps; interrupted system calls are not modelled.
- Progress of single threads: deadlock freedom is the existence of a step, and methods end if the other threads make finitely many steps; schedulers and fairness are not modelled.
- Word sizes of `m_count`, of the MPSC indices, of `readCount` and `writeCount`: all unbounded.
- Several stacks of one element type share the hazard slots in the original; the model has one stack.
- Failing allocations, and constructors or copies of elements that throw.
- `RingBuffer::Reset` on a buffer in use, and the build without alignment.
- RingTheorems.SameDecisionOnWords: buffers and messages of 2^62 bytes and more, for which the signed casts can turn negative, are excluded.
- RingWords.WordsInStep: buffers, messages and alignments of 2^62 bytes and more are excluded.
- Messages whose size and alignment differ between writer and reader: the original asks for a match.
- The unbuffered channel: `send` and `receive` both decrement `waitingReceivers` there.
- `Selector`, `async_send`, `async_receive`, and the second channel variant with one condition variable.
- SeqlockCode.Seqlock.ReadEnter: returns stalled when the counter is odd while the others pause, where the original spins on.
- SeqlockCode.Seqlock.Load: gives up when the counter is odd while the others pause, where the original spins on.
- RingBuffer.RingBuffer.Prepare: the class works on unbounded positions and the aligned position itself; `RingWords` and `Bits.AlignIsLeast` carry this over to words and the mask formula.
- The simpler stacks, queues, monitors, the other readers-writers solutions, seqlocks built on library locks, thread pools, futures, event loops and benchmarks: they would add easier members only.
- Printing, sleeping and the `main` functions.
