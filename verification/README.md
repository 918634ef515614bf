# Kernel objects and terminal packets, verified

A Dafny model of two parts of the TRACE32 demo tree.

The first is the Zephyr kernel under `Trace32_H7/TRACE32/demo/zephyr/src/kernel`, one processor,
each section under a lock taken as one step:

- **Pipes** (`Rings`, `PipeStreams`, `PipeSpec`, `PipeAnswers`, `Pipes`, `PipeRuns`, `PipeReturns`): `PipeSpec`
  says what a put and a get do to ring, readers and writers, and `PipeAnswers` when they return and when
  they wait; `Pipes` is the code with its buffer, indices and copy loops; `PipeRuns` proves that whole
  runs are a byte stream, `PipeReturns` what blocked calls return.
- **Timeouts and timers** (`Clocks`, `Timeouts`, `Timers`, `OneShots`): `Clocks` is a table of absolute
  expiries; `Timeouts` is the delta list proved to be that table; `Timers` adds periodic timers,
  `OneShots` those without a period.
- **Scheduler** (`RunQueues`, `RbQueues`, `SchedState`, `SchedSteps`, `SchedEffects`, `SchedPreempts`,
  `SchedLines`, `SchedWindows`, `Scheduler`): the order of threads, the two run queues, each call as a
  step of the state, what each does to its thread, who keeps the processor, the order of wait queues and
  of the run queue, and the code that takes those steps on state bytes, 32-bit deadlines and a lock
  count that counts down.
- **Mutexes** (`Mutexes`, `MutexCounts`, `MutexTables`, `MutexRuns`, `MutexLoans`, `MutexRules`): locked
  sections, lock counts, the code on thread and mutex objects, runs, loans of priority across mutexes, and the two rules at the head
  of mutex.c that keep them.
- **Message queues** (`MsgQSpec`, `MsgQueues`), **memory slabs** (`Slabs`, `MemSlabs`),
  **polling** (`Polls`, `Pollers`): values and whole runs first, the code second.

The second is the TRACE32 terminal packet layer (`T32Packets`, `T32Replies`, `T32Terminals`): packets
with a checksum, over a shared buffer that carries them in chunks.

Where the source keeps state in place, a class keeps it in fields and arrays, and each method is
proved to take the step that the theorems about runs speak of. The wait for a scheduler decision
that the code cannot see (where in a wait queue a thread goes, when a timeout strikes, what a
callback does, what the hardware clock says, what a block's holder writes) is a parameter, so
every theorem holds for all of them.

`dafny verify dfyconfig.toml` checks the project.

## What does not hold, and when it does

- A timeout callback that reads a running hardware clock on the last announced tick can make the
  batching of announces matter (`Clocks.BatchingNeedsRest`). `Clocks.Batching` gives a condition under
  which it does not, and `Clocks.FireSame` shows that condition to be exact for each single firing. What
  is exact for a whole announce is the condition on the record of all additions and aborts
  (`Clocks.BatchingRecord`), which is stricter (`Clocks.StartedAndCancelled`).
- For the same reason a periodic timer tied with another on the last announced tick drifts by the
  ticks elapsed (`Timers.TiedTimersDrift`); `Timers.DriftExact` says by how much in every run, and
  `Timers.NoDrift` that this is the only way.
- Deadlines more than half the 32-bit range apart are not even ordered (`RunQueues.CmpNeedsWindow`);
  the 32-bit difference is the true one exactly inside it (`RunQueues.WrappedDifference`). The rest of
  the scheduler's structure does not depend on deadlines.
- A thread added to the tree queue when its key counter wraps can be overtaken
  (`RbQueues.WraparoundBreaksFifo`), exactly until keys are renumbered (`RbQueues.OvertakenIff`).
- A deadline change does not refresh the cached thread (`SchedSteps.DeadlineLeavesCacheBehind`,
  exactly when: `SchedSteps.DeadlineCacheIff`); every other call keeps it fresh.
- A cooperative thread, or one that has locked the scheduler, loses the processor when it suspends
  another thread while a higher one is ready (`SchedPreempts.SuspendPreempts`, exactly when:
  `SchedPreempts.SuspendHoldsIff`); aborts and priority changes refresh the cache in the same way.
- A change of priority leaves a waiting thread where it stands in its wait queue
  (`SchedLines.PrioLineIff` says exactly when that is out of order).
- move_thread_to_end_of_prio_q queues even a thread that cannot run (`SchedSteps.MoveToEndIff`).
- Priority inheritance is exact unless the priority to be lent is above the ceiling
  (`MutexRuns.LendsExactly`, `MutexRuns.GivesBackExactly`). A thread above the ceiling can even be
  lowered to it by a waiter that gives up. With two mutexes a loan can be lost
  (`MutexRuns.SecondMutexLosesLoan`, exactly when: `MutexLoans.NextBackedIff`), and released out of
  order a thread can keep a borrowed priority (`MutexRuns.OutOfOrderLeaks`, exactly when:
  `MutexRuns.ReleaseBaseIff`). Of the two rules in the comment at the head of mutex.c the first alone,
  release in reverse order, is enough for priorities to be given back; it takes both for releases to
  cost no loan (`MutexRules.LoansStandByTheRules`).
- A message queue with room for no message mixes readers and writers in its wait queue
  (`MsgQSpec.OneKindIff`); nothing is handed over then.
- A slab of two or more blocks of size 0 passes the alignment check, and its free list is a circle
  (`MemSlabs.Init`). A block freed twice is on the list twice (`Slabs.FreeIff`).
- A change of priority leaves a poller's events where they are (`Polls.RerankMisplaces`, exactly when
  that is out of order: `Polls.RerankIff`).
- A packet is not read back as sent if a chunk has 2^24 bytes or more, which a packet just below the
  length limit in a buffer of that size reaches, or if its data is empty and its payload is not: a
  data length of 0 asks the reader for everything (`T32Packets.EndToEnd`).

## Model

| member | source | states |
|---|---|---|
| `PipeRuns.EveryRun` | Trace32_H7/TRACE32/demo/zephyr/src/kernel/pipes.c:326-697 | Every run of puts, gets and timeouts keeps the waiting invariant (readers wait only on an empty pipe without writers; writers with unsent bytes only on a full ring) and conserves bytes: accepted = delivered + in the pipe + taken back, where delivered is what gets returned and what the descriptors of waiting readers gained. |
| `PipeRuns.OrderlyRun` | Trace32_H7/TRACE32/demo/zephyr/src/kernel/pipes.c:326-697 | While writers queue in turn and take nothing back, a run is a first-in first-out stream: accepted = what came to readers, by return or in their descriptors, followed by the ring and the waiting writers' bytes; through direct copies, wrap-around and refill. |
| `PipeRuns.StepKeeps` | Trace32_H7/TRACE32/demo/zephyr/src/kernel/pipes.c:380-697 | One call of any kind keeps the invariant and the byte balance, and keeps the order unless a writer blocks ahead of another or withdraws. |
| `PipeSpec.GetIsFifo` | Trace32_H7/TRACE32/demo/zephyr/src/kernel/pipes.c:531-697 | A get that is not refused hands over exactly the first min(n, length) bytes of the stream and leaves the rest, and keeps the waiting invariant. |
| `PipeAnswers.GetAnswers` | Trace32_H7/TRACE32/demo/zephyr/src/kernel/pipes.c:531-722 | Which answer a get gives, each exactly when: -EINVAL, -EIO with nothing taken, a wait exactly if it may, got less than it asked for and no minimum above 0 is met, and otherwise 0 with the number of bytes. |
| `PipeAnswers.GetReleases` | Trace32_H7/TRACE32/demo/zephyr/src/kernel/pipes.c:589-650 | Every waiting writer is let go or waits on, with the bytes it had; it is let go, with everything sent, exactly if its last byte is among those taken and the walk comes by it. |
| `PipeSpec.PutInOrder` | Trace32_H7/TRACE32/demo/zephyr/src/kernel/pipes.c:380-529 | A put's bytes go in order to the waiting readers, whose descriptors gain exactly those, then to the ring, then into its own unsent remainder; nothing already stored moves. |
| `PipeAnswers.PutAnswers` | Trace32_H7/TRACE32/demo/zephyr/src/kernel/pipes.c:380-529 | Which answer a put gives, each exactly when: -EINVAL for a minimum above the whole; -EIO if it may not wait and the room is below the minimum (nothing happened then); otherwise as many bytes are taken as there is room for, and it waits exactly if it may, some are left, and those taken do not make up a minimum above 0; if not it returns 0 and their number. |
| `PipeSpec.PutServes` | Trace32_H7/TRACE32/demo/zephyr/src/kernel/pipes.c:326-378 | The readers woken and those still waiting are the readers that waited, in their order; together they gained exactly the first bytes of the data, and each kept what it had. |
| `PipeStreams.SatisfiedFirst` | Trace32_H7/TRACE32/demo/zephyr/src/kernel/pipes.c:355-363 | Readers are served front first, so those woken stand ahead of those still waiting. |
| `PipeSpec.FillInOrder` | Trace32_H7/TRACE32/demo/zephyr/src/kernel/pipes.c:326-378 | What the readers gain, read front to back, is exactly a prefix of the data put. |
| `PipeSpec.FillKeeps` | Trace32_H7/TRACE32/demo/zephyr/src/kernel/pipes.c:202-219 | A reader keeps what it has and trades wanted bytes for delivered ones. |
| `PipeSpec.TakeStream` | Trace32_H7/TRACE32/demo/zephyr/src/kernel/pipes.c:589-626 | Taking n bytes drops exactly the first n bytes of ring and writers together. |
| `PipeSpec.RefillStream` | Trace32_H7/TRACE32/demo/zephyr/src/kernel/pipes.c:628-650 | Moving blocked writers' bytes into the ring leaves the stream as it was, and the ring is full while writers hold bytes. |
| `PipeSpec.TakeAll` | Trace32_H7/TRACE32/demo/zephyr/src/kernel/pipes.c:589-626 | A get that wants more than there is releases every waiting writer and empties the ring. |
| `PipeSpec.GetEmpties` | Trace32_H7/TRACE32/demo/zephyr/src/kernel/pipes.c:531-650 | A get that asks for more than there is, and does not wait, empties ring and writers. |
| `PipeSpec.PutByWalk` | Trace32_H7/TRACE32/demo/zephyr/src/kernel/pipes.c:247-266 | Serving only the readers the bounded walk visits is serving all of them. |
| `PipeSpec.TakeByWalk` | Trace32_H7/TRACE32/demo/zephyr/src/kernel/pipes.c:247-266 | Reading only from the writers the bounded walk visits is the full take. |
| `PipeSpec.RefillByWalk` | Trace32_H7/TRACE32/demo/zephyr/src/kernel/pipes.c:628-650 | Refilling only from the writers the bounded walk visits is the full refill. |
| `PipeSpec.RefusedByWalk` | Trace32_H7/TRACE32/demo/zephyr/src/kernel/pipes.c:380-440 | The room the walk sees decides -EIO as the room of all readers would. |
| `PipeStreams.DrainFlat` | Trace32_H7/TRACE32/demo/zephyr/src/kernel/pipes.c:202-219 | Draining n bytes takes exactly the first n bytes of the writers' bytes, in queue order. |
| `PipeStreams.WalkEnough` | Trace32_H7/TRACE32/demo/zephyr/src/kernel/pipes.c:222-266 | A walk that stops after n bytes reaches every writer that a drain of n bytes touches. |
| `Pipes.Pipe.constructor` | Trace32_H7/TRACE32/demo/zephyr/src/kernel/pipes.c:39-61 | A new pipe is empty and valid. |
| `Pipes.Pipe.BufferParts` | Trace32_H7/TRACE32/demo/zephyr/src/kernel/pipes.c:268-294 | The stretches found from the two indices follow one another around the ring and cover what is asked for. |
| `Pipes.Pipe.Store` | Trace32_H7/TRACE32/demo/zephyr/src/kernel/pipes.c:326-378 | A copy at the write index appends to the ring's contents. |
| `Pipes.Pipe.Fetch` | Trace32_H7/TRACE32/demo/zephyr/src/kernel/pipes.c:607-614 | A copy at the read index removes the first bytes of the ring's contents. |
| `Pipes.Pipe.PipeWrite` | Trace32_H7/TRACE32/demo/zephyr/src/kernel/pipes.c:326-378 | The copy loop moves min(bytes, room) bytes: sources drained front first, readers filled front first, the rest appended to the ring. |
| `Pipes.Pipe.CopyOnce` | Trace32_H7/TRACE32/demo/zephyr/src/kernel/pipes.c:337-374 | Each round of the copy loop keeps what the loop will end with, and uses up a descriptor. |
| `Pipes.Pipe.WalkReaders` | Trace32_H7/TRACE32/demo/zephyr/src/kernel/pipes.c:222-266 | The readers visited and the room they offer. |
| `Pipes.Pipe.WalkWriters` | Trace32_H7/TRACE32/demo/zephyr/src/kernel/pipes.c:222-266 | The writers visited and the bytes they hold. |
| `Pipes.Pipe.Put` | Trace32_H7/TRACE32/demo/zephyr/src/kernel/pipes.c:380-529 | The ring, both wait queues, the woken readers and the result are those of the specified put, which answer is given exactly as `PipeAnswers.PutAnswers` says, and the indices stay consistent. |
| `Pipes.Pipe.GetInternal` | Trace32_H7/TRACE32/demo/zephyr/src/kernel/pipes.c:531-697 | The ring, both wait queues, the woken writers, the bytes and the result are those of the specified get. |
| `Pipes.Pipe.Get` | Trace32_H7/TRACE32/demo/zephyr/src/kernel/pipes.c:699-722 | As GetInternal, with -EINVAL for an impossible minimum, and the answer exactly as `PipeAnswers.GetAnswers` says. |
| `Pipes.Pipe.RefillRing` | Trace32_H7/TRACE32/demo/zephyr/src/kernel/pipes.c:628-650 | The refill moves writers' bytes behind the ring's contents and releases nobody. |
| `Pipes.Pipe.Flush` | Trace32_H7/TRACE32/demo/zephyr/src/kernel/pipes.c:108-119 | SIZE_MAX bytes are dropped from the stream; if it holds fewer, ring and writers are empty afterwards. |
| `Pipes.Pipe.BufferFlush` | Trace32_H7/TRACE32/demo/zephyr/src/kernel/pipes.c:132-146 | As many bytes as the ring can hold are dropped. |
| `Pipes.Pipe.ReadAvail` | Trace32_H7/TRACE32/demo/zephyr/src/kernel/pipes.c:739-763 | The number computed from the indices is the number of bytes stored. |
| `Pipes.Pipe.WriteAvail` | Trace32_H7/TRACE32/demo/zephyr/src/kernel/pipes.c:776-801 | The number computed from the indices is the free room. |
| `PipeReturns.PutWakes` | Trace32_H7/TRACE32/demo/zephyr/src/kernel/pipes.c:308-320 | Every reader a put wakes has what it asked for and returns 0; nobody who waits asks for a minimum above the whole. |
| `PipeReturns.GetWakes` | Trace32_H7/TRACE32/demo/zephyr/src/kernel/pipes.c:308-320 | Every writer a get wakes has sent all it had and returns 0. |
| `PipeReturns.FairInEveryRun` | Trace32_H7/TRACE32/demo/zephyr/src/kernel/pipes.c:308-320 | In every run nobody waits for a minimum above what was asked for, and whoever the next call wakes has all it asked for, or has sent all it had, and returns 0. |
| `PipeReturns.ReaderTimesOut` | Trace32_H7/TRACE32/demo/zephyr/src/kernel/pipes.c:679-697 | In any run, a reader whose wait times out keeps what it got and returns 0 exactly if that is at least its minimum; it leaves the wait queue, nothing else changes, and the balance of bytes holds. |
| `PipeReturns.WriterTimesOut` | Trace32_H7/TRACE32/demo/zephyr/src/kernel/pipes.c:492-513 | In any run, a writer whose wait times out takes back exactly the bytes still in its descriptor: the stream loses those and no others, and it returns 0 exactly if what was taken is at least its minimum. |
| `Clocks.AnnounceExact` | Trace32_H7/TRACE32/demo/zephyr/src/kernel/timeout.c:210-259 | An announce to tick n fires exactly the timeouts ever added that expire by n and were not aborted first, those added by callbacks included, in order of expiry with ties in order of adding, and ends at tick n. |
| `Clocks.Announce` | Trace32_H7/TRACE32/demo/zephyr/src/kernel/timeout.c:210-259 | The announce loop on the table ends for all callbacks, at the announced tick, with the books kept, nothing due left and firings only added. |
| `Clocks.Batching` | Trace32_H7/TRACE32/demo/zephyr/src/kernel/timeout.c:62-81 | Announcing in two batches or in one gives the same firings and the same table, if every firing of the first batch has ticks left to announce, or sees none elapsed, or runs a callback that for no timeout reads the clock in its last action on it. |
| `Clocks.BatchingRecord` | Trace32_H7/TRACE32/demo/zephyr/src/kernel/timeout.c:62-81 | With the record of all additions and aborts compared as well, it is the same if and only if every firing of the first batch has ticks left, or sees none elapsed, or runs a callback that reads no clock at all. |
| `Clocks.FireSame` | Trace32_H7/TRACE32/demo/zephyr/src/kernel/timeout.c:230-243 | One firing leaves the same firings and the same table whether the announce ends at its tick or later, if and only if ticks are left, or none elapsed, or for no timeout the last action of the callback reads the clock. |
| `Clocks.FireSameRecord` | Trace32_H7/TRACE32/demo/zephyr/src/kernel/timeout.c:230-243 | It leaves the same record of additions and aborts as well, if and only if ticks are left, or none elapsed, or the callback reads no clock at all; otherwise two additions with one number differ. |
| `Clocks.ReadingMatters` | Trace32_H7/TRACE32/demo/zephyr/src/kernel/timeout.c:116-123 | A callback leaves the same table with and without ticks elapsed if and only if for no timeout its last action starts one that is relative or counted from the uptime. |
| `Clocks.ReadingRecorded` | Trace32_H7/TRACE32/demo/zephyr/src/kernel/timeout.c:116-123 | It leaves the same record of additions if and only if it starts no such timeout at all. |
| `Clocks.StartedAndCancelled` | Trace32_H7/TRACE32/demo/zephyr/src/kernel/timeout.c:99-157 | The two conditions are not the same: a timeout started and cancelled in one callback is seen in the record of additions and nowhere else. |
| `Clocks.AlwaysSteady` | Trace32_H7/TRACE32/demo/zephyr/src/kernel/timeout.c:62-81 | With the hardware at rest inside announces, or callbacks that read no clock, the conditions of both batching theorems always hold. |
| `Clocks.BatchingNeedsRest` | Trace32_H7/TRACE32/demo/zephyr/src/kernel/timeout.c:230-250 | A callback that sees the running hardware clock can make batching matter: a concrete table where it does. |
| `Clocks.EveryRun` | Trace32_H7/TRACE32/demo/zephyr/src/kernel/timeout.c:99-259 | In every run of adds, aborts and announces, each timeout ever added has fired exactly if its tick has come and it was not aborted. |
| `Clocks.FireKeeps` | Trace32_H7/TRACE32/demo/zephyr/src/kernel/timeout.c:230-243 | Each firing makes progress (time moves on, or one timeout fewer is due now) whatever its callback adds, so the loop ends. |
| `Clocks.OthersUntouched` | Trace32_H7/TRACE32/demo/zephyr/src/kernel/timeout.c:99-156 | Starting or aborting one timeout leaves every other pending timeout pending with its expiry. |
| `Clocks.AddKeeps` | Trace32_H7/TRACE32/demo/zephyr/src/kernel/timeout.c:99-142 | Adding keeps the table in order of expiry, ties in order of adding. |
| `Clocks.AddDue` | Trace32_H7/TRACE32/demo/zephyr/src/kernel/timeout.c:99-142 | A timeout that waits for ever is not added; any other is pending beside those that were, due the ticks asked for and one after the uptime, or at the tick asked for but not before the next. |
| `Clocks.AbortKeeps` | Trace32_H7/TRACE32/demo/zephyr/src/kernel/timeout.c:144-157 | Aborting keeps the table in order and records what was aborted. |
| `Timeouts.TimeoutQueue.SysClockAnnounce` | Trace32_H7/TRACE32/demo/zephyr/src/kernel/timeout.c:210-259 | The delta list, curr_tick and the firings after the loop are those of the reference table's announce. |
| `Timeouts.TimeoutQueue.AddTimeout` | Trace32_H7/TRACE32/demo/zephyr/src/kernel/timeout.c:99-142 | Insertion into the delta list is insertion of the absolute expiry into the table. |
| `Timeouts.TimeoutQueue.FindSlot` | Trace32_H7/TRACE32/demo/zephyr/src/kernel/timeout.c:125-132 | The walk stops where the table puts the new expiry, with the delta that is left. |
| `Timeouts.TimeoutQueue.Insert` | Trace32_H7/TRACE32/demo/zephyr/src/kernel/timeout.c:125-137 | Splitting a delta keeps every other absolute expiry. |
| `Timeouts.TimeoutQueue.Remove` | Trace32_H7/TRACE32/demo/zephyr/src/kernel/timeout.c:53-60 | Handing the delta on keeps every other absolute expiry. |
| `Timeouts.TimeoutQueue.AbortTimeout` | Trace32_H7/TRACE32/demo/zephyr/src/kernel/timeout.c:144-157 | 0 exactly if the timeout was linked, which then is gone; -EINVAL otherwise, with nothing changed. |
| `Timeouts.TimeoutQueue.RunCallback` | Trace32_H7/TRACE32/demo/zephyr/src/kernel/timeout.c:230-243 | A callback's calls change the list as they change the table. |
| `Timeouts.TimeoutQueue.TakeFirst` | Trace32_H7/TRACE32/demo/zephyr/src/kernel/timeout.c:230-242 | The first node leaves with curr_tick at its own expiry. |
| `Timeouts.TimeoutQueue.TimeoutRem` | Trace32_H7/TRACE32/demo/zephyr/src/kernel/timeout.c:159-171 | The sum of deltas is the distance to the table's expiry. |
| `Timeouts.TimeoutQueue.TimeoutExpires` | Trace32_H7/TRACE32/demo/zephyr/src/kernel/timeout.c:186-198 | The table's expiry, or the current tick for a timeout that is not linked. |
| `Timeouts.TimeoutQueue.TimeoutRemaining` | Trace32_H7/TRACE32/demo/zephyr/src/kernel/timeout.c:173-184 | The ticks left from now, hardware clock included. |
| `Timeouts.DeltasNonNegative` | Trace32_H7/TRACE32/demo/zephyr/src/kernel/timeout.c:245-250 | All deltas are non-negative, and outside an announce the first is at least 1. |
| `Timers.NoDrift` | Trace32_H7/TRACE32/demo/zephyr/src/kernel/timer.c:51-78 | Over every run, however ticks are batched, a periodic timer's k-th firing is at first + k * stride and it is due next on the beat, if and only if none of its own firings saw ticks elapsed. |
| `Timers.DriftExact` | Trace32_H7/TRACE32/demo/zephyr/src/kernel/timer.c:51-78 | Over every run the timer is due exactly as many ticks behind its beat as its own firings saw elapsed. |
| `Timers.TiedTimersDrift` | Trace32_H7/TRACE32/demo/zephyr/src/kernel/timer.c:51-78 | Tied with another on the last announced tick a timer does drift: due at 16 instead of 11. |
| `Timers.RestNeverDrifts` | Trace32_H7/TRACE32/demo/zephyr/src/kernel/timeout.c:62-81 | With the hardware at rest inside announces no run delays a timer. |
| `Timers.StartOnBeat` | Trace32_H7/TRACE32/demo/zephyr/src/kernel/timer.c:139-181 | A timer started with a duration is first due that long (at least a tick) after the uptime; one started at an absolute tick, then (at least at the next); on its beat either way. |
| `Timers.FireOnBeat` | Trace32_H7/TRACE32/demo/zephyr/src/kernel/timer.c:27-78 | A firing of the timer itself keeps the beat if and only if ticks are left to announce, or none are reported elapsed. |
| `OneShots.OneShot` | Trace32_H7/TRACE32/demo/zephyr/src/kernel/timer.c:27-109 | Over every run of calls that leave it alone, a timer without a period that is due fires exactly once, at its tick and once that has come, and is pending no more. |
| `OneShots.HandlerDoes` | Trace32_H7/TRACE32/demo/zephyr/src/kernel/timer.c:27-78 | The expiry handler does nothing to the list if the timer was started anew or has no period; otherwise the timer is due one stride after the uptime and every other timeout stays. |
| `OneShots.StrideIsPeriod` | Trace32_H7/TRACE32/demo/zephyr/src/kernel/timer.c:51-78 | The stride of a periodic timer is its period; an absolute period counts as one tick. |
| `Timers.KTimer.Start` | Trace32_H7/TRACE32/demo/zephyr/src/kernel/timer.c:139-181 | Restarting aborts the old timeout, resets the status and adds the adjusted one. |
| `Timers.KTimer.Stop` | Trace32_H7/TRACE32/demo/zephyr/src/kernel/timer.c:194-216 | A running timer is gone from the list and wakes its first waiter; one that is not running stays as it is. |
| `Timers.KTimer.ExpirationHandler` | Trace32_H7/TRACE32/demo/zephyr/src/kernel/timer.c:27-109 | A timer restarted meanwhile is left alone; otherwise a periodic one is added again, one stride after the uptime it reads, the status counts on, and the first waiter is woken. An absolute period counts as one tick. |
| `RunQueues.WrappedDifference` | Trace32_H7/TRACE32/demo/zephyr/src/kernel/sched.c:51-82 | The 32-bit difference of two deadlines is the true one if and only if that fits into 32 signed bits. |
| `RunQueues.CmpIsOrder` | Trace32_H7/TRACE32/demo/zephyr/src/kernel/sched.c:51-82 | Within half the 32-bit range the comparison is priority, then true deadline. |
| `RunQueues.CmpIsTotalPreorder` | Trace32_H7/TRACE32/demo/zephyr/src/kernel/sched.c:51-82 | Within the window it is total, antisymmetric and transitive. |
| `RunQueues.CmpNeedsWindow` | Trace32_H7/TRACE32/demo/zephyr/src/kernel/sched.c:51-82 | Outside the window three deadlines go round in a circle. |
| `RunQueues.AddSorted` | Trace32_H7/TRACE32/demo/zephyr/src/kernel/sched.c:103-119 | Insertion keeps the list sorted, ties first come first served. |
| `RunQueues.RemoveSorted` | Trace32_H7/TRACE32/demo/zephyr/src/kernel/priority_queues.c:11-18 | Removal keeps the list sorted. |
| `RunQueues.SlotInLine` | Trace32_H7/TRACE32/demo/zephyr/src/kernel/sched.c:103-119 | A newcomer in its slot keeps a list in which nobody stands behind one it beats. |
| `RunQueues.ChangeInLineIff` | Trace32_H7/TRACE32/demo/zephyr/src/kernel/sched.c:762-787 | Such a list survives a change of one rank in place if and only if that one is near the others, not behind one it beats and not in front of one that beats it. |
| `RbQueues.AddKeeps` | Trace32_H7/TRACE32/demo/zephyr/src/kernel/priority_queues.c:51-72 | Adding, with renumbering at wrap-around, keeps the tree strictly ordered with pairwise distinct keys, and first come first served, except that a thread added at a wrap-around may be overtaken by later equals; it stays behind all earlier ones. |
| `RbQueues.OvertakenIff` | Trace32_H7/TRACE32/demo/zephyr/src/kernel/priority_queues.c:51-72 | A newcomer overtakes an equal if and only if that one holds the top key, which only a thread added at the last wrap-around does. |
| `RbQueues.RenumberKeeps` | Trace32_H7/TRACE32/demo/zephyr/src/kernel/priority_queues.c:66-70 | Renumbering keeps the order of the tree and frees the upper keys. |
| `RbQueues.RbQueue.Renumber` | Trace32_H7/TRACE32/demo/zephyr/src/kernel/priority_queues.c:66-70 | The loop gives each thread its place in the tree as key, and the counter goes on behind the last. |
| `RbQueues.WraparoundBreaksFifo` | Trace32_H7/TRACE32/demo/zephyr/src/kernel/priority_queues.c:57-71 | In every tree the thread added at a wrap-around is overtaken by an equal that comes after it. |
| `RbQueues.RbQueue.AddThread` | Trace32_H7/TRACE32/demo/zephyr/src/kernel/priority_queues.c:51-72 | The tree and the counter after an add, with the invariant kept. |
| `RbQueues.RbQueue.RemoveAt` | Trace32_H7/TRACE32/demo/zephyr/src/kernel/priority_queues.c:74-83 | The tree after a removal; an emptied tree restarts the counter. |
| `SchedSteps.EveryRun` | Trace32_H7/TRACE32/demo/zephyr/src/kernel/sched.c:174-1438 | In every run of all the calls: QUEUED exactly for members of the run queue; pended_on names the one wait queue holding a thread, once; queued threads are ready; every ready thread but idle is queued; the dead stay dead and are never queued again; and the run queue is sorted, ties first come first served, as long as threads queued since it was last empty were within half the 32-bit range of those queued. |
| `SchedSteps.CacheInEveryRun` | Trace32_H7/TRACE32/demo/zephyr/src/kernel/sched.c:231-378 | In every run without deadline changes the cached thread is the head of the run queue (idle if empty), or the current thread while it may not be preempted, and it can run. |
| `SchedPreempts.KeepsProcessor` | Trace32_H7/TRACE32/demo/zephyr/src/kernel/sched.c:352-378 | A running thread that may not be preempted (cooperative, or with the scheduler locked) has the processor for as long as no call is forced, whatever threads become ready: forced are its own waits, sleeps and yields, the unlock that makes it preemptible, and suspensions, aborts and priority changes, which refresh the cache regardless. |
| `SchedPreempts.HoldsOn` | Trace32_H7/TRACE32/demo/zephyr/src/kernel/sched.c:352-378 | One call that is not forced leaves the processor with such a thread. |
| `SchedPreempts.ForcedTakesBest` | Trace32_H7/TRACE32/demo/zephyr/src/kernel/sched.c:352-378 | After a forced call the cached thread is the best one. |
| `SchedPreempts.PreemptibleGivesWay` | Trace32_H7/TRACE32/demo/zephyr/src/kernel/sched.c:352-378 | In every run without deadline changes, whenever the current thread may be preempted or cannot run, the best thread is to run next. |
| `SchedPreempts.LockHolds` | Trace32_H7/TRACE32/demo/zephyr/src/kernel/sched.c:836-843 | A running thread that locks the scheduler may not be preempted from then on. |
| `SchedPreempts.SuspendHoldsIff` | Trace32_H7/TRACE32/demo/zephyr/src/kernel/sched.c:1322-1345 | Through the suspension of another thread a thread that may not be preempted keeps the processor if and only if no third thread is ahead of it in the run queue. |
| `SchedPreempts.SuspendPreempts` | Trace32_H7/TRACE32/demo/zephyr/src/kernel/sched.c:1322-1345 | A concrete state in which a cooperative thread that suspends another loses the processor to a higher one. |
| `SchedWindows.SortedInEveryRun` | Trace32_H7/TRACE32/demo/zephyr/src/kernel/sched.c:51-119 | As long as all deadlines lie within half the 32-bit range, and so without deadlines, the run queue is sorted in every run: priority, then deadline, then arrival. |
| `SchedLines.FirstIsBest` | Trace32_H7/TRACE32/demo/zephyr/src/kernel/sched.c:603-614 | In every run in which threads join wait queues whose deadlines are near theirs, and waiting threads change rank only so far that they fit where they wait, the thread woken first is one that no other in its wait queue beats. |
| `SchedLines.PerformKeepsLine` | Trace32_H7/TRACE32/demo/zephyr/src/kernel/sched.c:402-1438 | One such call of any kind keeps every wait queue in line. |
| `SchedLines.PrioLineIff` | Trace32_H7/TRACE32/demo/zephyr/src/kernel/sched.c:762-787 | A change of priority keeps every wait queue in line if and only if the thread fits where it waits; it is not moved. |
| `SchedEffects.OnlyTheAbleRun` | Trace32_H7/TRACE32/demo/zephyr/src/kernel/sched.c:402-418 | In every run a thread other than idle is queued exactly if it is not pending, suspended, dead or unstarted and has no timeout; and so is what is cached able to run. |
| `SchedSteps.DeadlineLeavesCacheBehind` | Trace32_H7/TRACE32/demo/zephyr/src/kernel/sched.c:1062-1082 | A deadline change alone does leave the cache behind: a concrete good state. |
| `SchedSteps.DeadlineCacheIff` | Trace32_H7/TRACE32/demo/zephyr/src/kernel/sched.c:1062-1082 | The cache stays fresh through a deadline change if and only if the thread is not queued, or the current thread may not be preempted, or it is the cached thread and still beats the next, or it is another and does not beat the cached one. |
| `SchedSteps.DeadlineKeeps` | Trace32_H7/TRACE32/demo/zephyr/src/kernel/sched.c:1062-1082 | A deadline change keeps everything but the freshness of the cache. |
| `SchedSteps.PerformKeeps` | Trace32_H7/TRACE32/demo/zephyr/src/kernel/sched.c:402-1438 | One call of any kind keeps the structure, and unless it is a deadline change an up-to-date cache stays so. |
| `SchedSteps.ReadyKeeps` | Trace32_H7/TRACE32/demo/zephyr/src/kernel/sched.c:402-418 | Readying a thread keeps the structure and an up-to-date cache. |
| `SchedSteps.WakeKeeps` | Trace32_H7/TRACE32/demo/zephyr/src/kernel/sched.c:737-760 | Waking a thread keeps the structure and an up-to-date cache. |
| `SchedSteps.WakeReleases` | Trace32_H7/TRACE32/demo/zephyr/src/kernel/sched.c:737-760 | A woken thread is on no wait queue and has no timeout, and is queued exactly if nothing else stops it. |
| `SchedSteps.TimeoutKeeps` | Trace32_H7/TRACE32/demo/zephyr/src/kernel/sched.c:658-698 | A thread timeout keeps the structure, for pending, sleeping, not yet started and dead threads. |
| `SchedSteps.StartKeeps` | Trace32_H7/TRACE32/demo/zephyr/src/kernel/sched.c:436-448 | Starting a thread keeps the structure. |
| `SchedSteps.SuspendKeeps` | Trace32_H7/TRACE32/demo/zephyr/src/kernel/sched.c:528-552 | Suspending keeps the structure and leaves an up-to-date cache. |
| `SchedSteps.ResumeKeeps` | Trace32_H7/TRACE32/demo/zephyr/src/kernel/sched.c:558-576 | Resuming keeps the structure. |
| `SchedSteps.WakeupKeeps` | Trace32_H7/TRACE32/demo/zephyr/src/kernel/sched.c:1233-1261 | Waking a sleeper keeps the structure, also when it sleeps without a timeout. |
| `SchedSteps.PendKeeps` | Trace32_H7/TRACE32/demo/zephyr/src/kernel/sched.c:603-631 | Waiting, on a wait queue or on none, keeps the structure and an up-to-date cache. |
| `SchedSteps.PendWaits` | Trace32_H7/TRACE32/demo/zephyr/src/kernel/sched.c:603-631 | A thread that waits is pending, off the run queue and on its wait queue, if it has one; and the best thread runs. |
| `SchedSteps.SleepKeeps` | Trace32_H7/TRACE32/demo/zephyr/src/kernel/sched.c:1131-1163 | Sleeping keeps the structure and an up-to-date cache. |
| `SchedSteps.SleepSleeps` | Trace32_H7/TRACE32/demo/zephyr/src/kernel/sched.c:1131-1163 | A sleeping thread is off the run queue with its timeout armed, and the best thread runs. |
| `SchedSteps.YieldKeeps` | Trace32_H7/TRACE32/demo/zephyr/src/kernel/sched.c:1106-1121 | Yielding keeps the structure and an up-to-date cache. |
| `SchedSteps.YieldMoves` | Trace32_H7/TRACE32/demo/zephyr/src/kernel/sched.c:1106-1121 | A thread that yields is last of its equals, deadlines in the window, and the best thread runs. |
| `SchedSteps.MoveToEndKeeps` | Trace32_H7/TRACE32/demo/zephyr/src/kernel/sched.c:319-326 | Moving a queued thread keeps the structure and leaves an up-to-date cache. |
| `SchedSteps.MoveToEndIff` | Trace32_H7/TRACE32/demo/zephyr/src/kernel/sched.c:319-326 | Moving any thread keeps the structure if and only if it can run; one that cannot would be queued all the same. |
| `SchedSteps.MoveToEndMoves` | Trace32_H7/TRACE32/demo/zephyr/src/kernel/sched.c:319-326 | A thread moved to the end is last of its equals, deadlines in the window. |
| `SchedSteps.PrioSetKeeps` | Trace32_H7/TRACE32/demo/zephyr/src/kernel/sched.c:762-787 | A priority change keeps the run queue sorted and the cache up to date. |
| `SchedSteps.AbortKeeps` | Trace32_H7/TRACE32/demo/zephyr/src/kernel/sched.c:1322-1394 | Aborting keeps the structure and leaves an up-to-date cache. |
| `SchedSteps.AbortEnds` | Trace32_H7/TRACE32/demo/zephyr/src/kernel/sched.c:1322-1394 | An aborted thread is dead and on no queue, its join queue is empty, and all who joined it are free. |
| `SchedSteps.UnpendAllEmpties` | Trace32_H7/TRACE32/demo/zephyr/src/kernel/sched.c:1298-1308 | unpend_all leaves the queue empty and takes nobody onto another. |
| `SchedSteps.JoinKeeps` | Trace32_H7/TRACE32/demo/zephyr/src/kernel/sched.c:1407-1438 | Joining keeps the structure on every return; only a caller that comes to wait must be able to. |
| `SchedSteps.LockKeeps` | Trace32_H7/TRACE32/demo/zephyr/src/kernel/sched.c:836-843 | Locking the scheduler keeps the structure and the cache. |
| `SchedSteps.UnlockKeeps` | Trace32_H7/TRACE32/demo/zephyr/src/kernel/sched.c:845-861 | Unlocking keeps the structure and refreshes the cache. |
| `SchedSteps.AnySwitchKeeps` | Trace32_H7/TRACE32/demo/zephyr/src/kernel/sched.c:863-881 | Switching to the cached thread at any moment keeps everything. |
| `SchedSteps.WaitsIffListed` | Trace32_H7/TRACE32/demo/zephyr/src/kernel/sched.c:587-613 | pended_on is a queue exactly if that queue holds the thread. |
| `SchedEffects.StartDoes` | Trace32_H7/TRACE32/demo/zephyr/src/kernel/sched.c:436-448 | A thread not yet started is started; nothing else changes, and of any other thread nothing at all. |
| `SchedEffects.ResumeDoes` | Trace32_H7/TRACE32/demo/zephyr/src/kernel/sched.c:558-576 | A suspended thread no longer is; nothing else changes, and of any other thread nothing at all. |
| `SchedEffects.WakeupDoes` | Trace32_H7/TRACE32/demo/zephyr/src/kernel/sched.c:1233-1261 | A thread that sleeps, with a timeout or for ever, and waits for nothing is awake; nothing else changes, and any other thread is left alone. |
| `SchedEffects.SuspendDoes` | Trace32_H7/TRACE32/demo/zephyr/src/kernel/sched.c:528-552 | The thread is suspended, without a timeout and off the run queue, whatever it was doing; it stays on its wait queue, and no other thread changes. |
| `SchedEffects.WakeDoes` | Trace32_H7/TRACE32/demo/zephyr/src/kernel/sched.c:737-760 | The thread is off its wait queue and has no timeout; it is queued exactly if nothing else stops it, and no other thread changes. |
| `SchedEffects.WakeFirstDoes` | Trace32_H7/TRACE32/demo/zephyr/src/kernel/sched.c:737-751 | The first thread of the wait queue is woken so, and the rest of the queue stays; nothing happens on an empty one. |
| `SchedEffects.TimeoutDoes` | Trace32_H7/TRACE32/demo/zephyr/src/kernel/sched.c:658-698 | The thread waits, sleeps and delays its start no longer; of a dead one only the timeout goes, and without a timeout nothing happens. |
| `SchedEffects.PrioSetDoes` | Trace32_H7/TRACE32/demo/zephyr/src/kernel/sched.c:762-787 | The priority changes and nothing else; the thread is queued exactly if it can run. |
| `SchedEffects.DeadlineDoes` | Trace32_H7/TRACE32/demo/zephyr/src/kernel/sched.c:1062-1082 | The deadline changes and nothing else, the cache included. |
| `SchedEffects.MoveToEndDoes` | Trace32_H7/TRACE32/demo/zephyr/src/kernel/sched.c:319-326 | No thread changes but for its place in the run queue. |
| `SchedEffects.LocksDo` | Trace32_H7/TRACE32/demo/zephyr/src/kernel/sched.c:836-861 | Locking counts up, unlocking counts down, and one undoes the other. |
| `SchedEffects.SleepDoes` | Trace32_H7/TRACE32/demo/zephyr/src/kernel/sched.c:1131-1163 | The current thread is suspended with its timeout armed and off the run queue, no other thread and no wait queue changes, and the best of the others runs. |
| `SchedEffects.PendDoes` | Trace32_H7/TRACE32/demo/zephyr/src/kernel/sched.c:603-631 | The current thread is pending on that queue, behind those it does not beat and in front of one it beats, and on no other; no other thread changes, and the best of the others runs. |
| `SchedEffects.JoinDoes` | Trace32_H7/TRACE32/demo/zephyr/src/kernel/sched.c:1407-1438 | The caller waits exactly for a living thread, unless it may not wait, or would wait for itself or for one that waits for it; otherwise nothing happens. |
| `SchedEffects.YieldDoes` | Trace32_H7/TRACE32/demo/zephyr/src/kernel/sched.c:1106-1121 | No thread changes but for its place in the run queue, and the best thread runs. |
| `SchedEffects.UnpendAllDoes` | Trace32_H7/TRACE32/demo/zephyr/src/kernel/sched.c:1298-1308 | Each thread that waits on the queue is woken, and nobody else. |
| `SchedEffects.AbortDoes` | Trace32_H7/TRACE32/demo/zephyr/src/kernel/sched.c:1322-1394 | The thread is dead and on no queue, each thread that joined it is woken, and everybody else is as before; of a dead thread nothing is left to do. |
| `Scheduler.Kernel.FindSlot` | Trace32_H7/TRACE32/demo/zephyr/src/kernel/sched.c:103-119 | The walk stops at the newcomer's place. |
| `SchedState.EnqueueKeeps` | Trace32_H7/TRACE32/demo/zephyr/src/kernel/sched.c:174-186 | Queueing a ready thread keeps bits, queues and, in the window, the order. |
| `SchedState.DequeueKeeps` | Trace32_H7/TRACE32/demo/zephyr/src/kernel/sched.c:188-194 | Dequeueing keeps bits, queues and order, and the thread is gone from the run queue. |
| `SchedState.WaitAddKeeps` | Trace32_H7/TRACE32/demo/zephyr/src/kernel/sched.c:603-614 | Joining a wait queue, or none, keeps bits and queues. |
| `SchedState.WaitRemoveKeeps` | Trace32_H7/TRACE32/demo/zephyr/src/kernel/sched.c:642-656 | Leaving a wait queue keeps bits and queues. |
| `SchedState.CacheIsBest` | Trace32_H7/TRACE32/demo/zephyr/src/kernel/sched.c:352-378 | A refreshed cache is up to date: the best thread where preemption is allowed, and otherwise the current thread while it can run and may not be preempted. |
| `Scheduler.BitChanges` | Trace32_H7/TRACE32/demo/zephyr/src/kernel/sched.c:174-194 | Setting or clearing one bit of the state byte changes that bit of the thread and no other. |
| `Scheduler.MasksDecide` | Trace32_H7/TRACE32/demo/zephyr/src/kernel/sched.c:402-418 | One mask decides whether a thread is ready; one comparison of priority and lock count as a 16-bit word, whether it may be preempted. |
| `Scheduler.CompareRanks` | Trace32_H7/TRACE32/demo/zephyr/src/kernel/sched.c:51-82 | Comparing 32-bit deadlines is the comparison of ranks. |
| `Scheduler.LockCounts` | Trace32_H7/TRACE32/demo/zephyr/src/kernel/sched.c:836-861 | Counting the byte down locks once more if and only if it is not at 1; counting it up unlocks. |
| `Scheduler.Kernel.Signal` | Trace32_H7/TRACE32/demo/zephyr/src/kernel/sched.c:737-751 | The first waiter of an object is woken; the structure and the cache hold. |
| `Scheduler.Kernel.ThreadTimeout` | Trace32_H7/TRACE32/demo/zephyr/src/kernel/sched.c:658-698 | The state after z_thread_timeout; the structure and the cache hold. |
| `Scheduler.Kernel.Start` | Trace32_H7/TRACE32/demo/zephyr/src/kernel/sched.c:436-448 | The state after z_sched_start; the structure and the cache hold. |
| `Scheduler.Kernel.Suspend` | Trace32_H7/TRACE32/demo/zephyr/src/kernel/sched.c:528-552 | The state after suspension; the structure and the cache hold. |
| `Scheduler.Kernel.Resume` | Trace32_H7/TRACE32/demo/zephyr/src/kernel/sched.c:558-576 | The state after resumption; the structure and the cache hold. |
| `Scheduler.Kernel.Wakeup` | Trace32_H7/TRACE32/demo/zephyr/src/kernel/sched.c:1233-1261 | Bytes, queues and cache after k_wakeup decode to the specified step; a thread asleep for ever is told by its state byte alone. |
| `Scheduler.Kernel.PendCurrent` | Trace32_H7/TRACE32/demo/zephyr/src/kernel/sched.c:700-720 | Bytes, queues and cache after z_pend_curr and its switch decode to the specified step; the structure and the cache hold. |
| `Scheduler.Kernel.Sleep` | Trace32_H7/TRACE32/demo/zephyr/src/kernel/sched.c:1131-1163 | The state after z_tick_sleep and its switch; the structure and the cache hold. |
| `Scheduler.Kernel.Yield` | Trace32_H7/TRACE32/demo/zephyr/src/kernel/sched.c:1106-1121 | The state after k_yield and its switch; the structure and the cache hold. |
| `Scheduler.Kernel.MoveToEnd` | Trace32_H7/TRACE32/demo/zephyr/src/kernel/sched.c:319-326 | Bytes, queues and cache after moving a thread that can run decode to the specified step. |
| `Scheduler.Kernel.PrioSet` | Trace32_H7/TRACE32/demo/zephyr/src/kernel/sched.c:762-787 | The state after z_thread_prio_set; the structure and the cache hold. |
| `Scheduler.Kernel.DeadlineSet` | Trace32_H7/TRACE32/demo/zephyr/src/kernel/sched.c:1062-1082 | The 32-bit deadline and the queues after the call decode to the specified step with the full deadline; the structure holds and the cached thread can still run. |
| `Scheduler.Kernel.UnpendAll` | Trace32_H7/TRACE32/demo/zephyr/src/kernel/sched.c:1298-1308 | The loop empties the wait queue and readies its threads in order. |
| `Scheduler.Kernel.Abort` | Trace32_H7/TRACE32/demo/zephyr/src/kernel/sched.c:1322-1394 | The state after an abort, joiners woken; the structure and the cache hold. |
| `Scheduler.Kernel.JoinThread` | Trace32_H7/TRACE32/demo/zephyr/src/kernel/sched.c:1407-1438 | Which of 0, -EBUSY, -EDEADLK or a wait it is, each exactly when; only a wait changes anything. |
| `Scheduler.Kernel.Lock` | Trace32_H7/TRACE32/demo/zephyr/src/kernel/sched.c:836-843 | The byte after counting down decodes to one lock more; it must not be at 1. |
| `Scheduler.Kernel.Unlock` | Trace32_H7/TRACE32/demo/zephyr/src/kernel/sched.c:845-861 | The byte after counting up decodes to one lock less, and the cache is refreshed. |
| `Scheduler.Kernel.Swap` | Trace32_H7/TRACE32/demo/zephyr/src/kernel/sched.c:863-881 | The cached thread becomes the current one; the structure and the cache hold. |
| `MutexRuns.NestedRestores` | Trace32_H7/TRACE32/demo/zephyr/src/kernel/mutex.c:16-26 | In every run over any number of mutexes, recursive locks, hand-overs and timeouts in which mutexes are released in reverse order, a thread that owns none has the priority it started with. |
| `MutexRuns.PrioritiesReturn` | Trace32_H7/TRACE32/demo/zephyr/src/kernel/mutex.c:16-26 | The same, more generally: it is enough that the mutex got first is let go last, or that the one got second was got at the same priority. |
| `MutexRuns.ReleaseBaseIff` | Trace32_H7/TRACE32/demo/zephyr/src/kernel/mutex.c:254-277 | A release keeps the thread's base priority in reach if and only if that holds of it. |
| `MutexRuns.EveryRun` | Trace32_H7/TRACE32/demo/zephyr/src/kernel/mutex.c:105-284 | In every run, nested or not, a mutex has waiters only while it is locked and owned, and a thread waits for one mutex at most, once. |
| `MutexRuns.SingleInherits` | Trace32_H7/TRACE32/demo/zephyr/src/kernel/mutex.c:82-198 | In every run of one mutex the owner is at least as high as every waiter, up to the ceiling, and the queue is in priority order. |
| `MutexRuns.SingleExact` | Trace32_H7/TRACE32/demo/zephyr/src/kernel/mutex.c:82-198 | If no thread is above the ceiling, then whenever no timed-out waiter has yet to adjust, the owner's priority is exactly the higher of its own and the first waiter's. |
| `MutexRuns.LendsExactly` | Trace32_H7/TRACE32/demo/zephyr/src/kernel/mutex.c:82-103 | A new waiter lends its priority exactly unless it is higher than the owner and above the ceiling. |
| `MutexRuns.GivesBackExactly` | Trace32_H7/TRACE32/demo/zephyr/src/kernel/mutex.c:172-185 | After a timed-out waiter's adjustment the owner has what it deserves exactly if nobody waits or that priority is not above the ceiling. |
| `MutexRuns.HandedOver` | Trace32_H7/TRACE32/demo/zephyr/src/kernel/mutex.c:254-277 | At the last unlock the best waiter takes over with its own priority, and no waiter left is higher; with none, the mutex is free. |
| `MutexRuns.FreshInherits` | Trace32_H7/TRACE32/demo/zephyr/src/kernel/mutex.c:55-70 | A fresh mutex meets the conditions of the single-mutex theorems. |
| `MutexRuns.OutOfOrderLeaks` | Trace32_H7/TRACE32/demo/zephyr/src/kernel/mutex.c:16-26 | Released out of order, a thread can end up owning nothing at a borrowed priority: a concrete run. |
| `MutexRuns.SecondMutexLosesLoan` | Trace32_H7/TRACE32/demo/zephyr/src/kernel/mutex.c:16-26 | Even nested, a second mutex acquired before the loan takes the loan away when it is released: a concrete run. |
| `MutexLoans.LoansStand` | Trace32_H7/TRACE32/demo/zephyr/src/kernel/mutex.c:82-284 | In every run over any number of mutexes all of whose steps are solvent, every owner is at least as high as every thread that waits for it, up to the ceiling. |
| `MutexLoans.LoansStandFromFresh` | Trace32_H7/TRACE32/demo/zephyr/src/kernel/mutex.c:55-284 | The same from initialised mutexes on. |
| `MutexRules.LoansStandByTheRules` | Trace32_H7/TRACE32/demo/zephyr/src/kernel/mutex.c:16-26 | From initialised mutexes on, in every run that follows both rules of the nested model (release in reverse order; priority is lent only while nothing acquired since was acquired at a lower one), releases cost no loan: every owner is at least as high as every thread that waits for it, up to the ceiling. |
| `MutexRules.TopCovers` | Trace32_H7/TRACE32/demo/zephyr/src/kernel/mutex.c:254-277 | Under both rules the release of the mutex acquired last leaves its owner, back at owner_orig_prio, at least as high as every thread that waits for a mutex it keeps. |
| `MutexRules.RulesAreSolvent` | Trace32_H7/TRACE32/demo/zephyr/src/kernel/mutex.c:16-26 | A step by the rules is solvent. |
| `MutexRules.NextLadder` | Trace32_H7/TRACE32/demo/zephyr/src/kernel/mutex.c:105-284 | Every step, releases in any order included, keeps it true that waiters for a mutex lent their priority before the mutexes acquired since, if it lends in time itself. |
| `MutexLoans.NextBackedIff` | Trace32_H7/TRACE32/demo/zephyr/src/kernel/mutex.c:82-284 | A step keeps every loan if and only if it is solvent: an owner raised does not itself wait for one it now outranks, one lowered still covers all who wait for what it keeps, and the one that takes over leads its queue. |
| `MutexLoans.LoanKept` | Trace32_H7/TRACE32/demo/zephyr/src/kernel/mutex.c:254-277 | Another mutex keeps its loans through a release if and only if it is someone else's, or owner_orig_prio of the mutex released, up to the ceiling, is at least as high as every waiter. |
| `MutexLoans.ReleaseBackedIff` | Trace32_H7/TRACE32/demo/zephyr/src/kernel/mutex.c:254-277 | All loans stand after a release if and only if that holds of every mutex kept, and the new owner leads its queue. |
| `MutexLoans.WaitBackedIff` | Trace32_H7/TRACE32/demo/zephyr/src/kernel/mutex.c:147-158 | All loans stand after a new wait if and only if the owner raised does not wait for one it now outranks. |
| `MutexLoans.GiveUpBackedIff` | Trace32_H7/TRACE32/demo/zephyr/src/kernel/mutex.c:172-185 | All loans stand after a waiter gave up if and only if the owner at its new priority still covers its waiters and is covered itself. |
| `Mutexes.NextKeeps` | Trace32_H7/TRACE32/demo/zephyr/src/kernel/mutex.c:105-284 | Every locked section keeps queues, owners and the lists of held mutexes consistent; a count is 0 exactly without an owner. |
| `MutexCounts.CountIsDepth` | Trace32_H7/TRACE32/demo/zephyr/src/kernel/mutex.c:116-124 | In every run, while a thread owns a mutex the count moves by its own locks and unlocks and by nothing else. |
| `MutexCounts.MatchingUnlock` | Trace32_H7/TRACE32/demo/zephyr/src/kernel/mutex.c:105-284 | From the step by which a thread comes to own a mutex to the step by which it no longer does, it unlocks as often as it locks (coming to own counting as one), and the last step is an unlock of its own. |
| `MutexCounts.LockThenUnlock` | Trace32_H7/TRACE32/demo/zephyr/src/kernel/mutex.c:116-250 | Locking an owned mutex once more and unlocking it changes nothing. |
| `MutexCounts.LockAnswers` | Trace32_H7/TRACE32/demo/zephyr/src/kernel/mutex.c:105-158 | A lock is granted exactly if the mutex is free or the caller's, and counted; otherwise a caller that may not wait is turned away with nothing changed, and one that may waits behind those at least as high. |
| `MutexCounts.UnlockAnswers` | Trace32_H7/TRACE32/demo/zephyr/src/kernel/mutex.c:211-284 | Only the owner's last unlock lets a mutex go, of any number: its priority is put back, the first waiter owns the mutex at its own priority and runs, and nothing else changes. |
| `MutexTables.MutexTable.Lock` | Trace32_H7/TRACE32/demo/zephyr/src/kernel/mutex.c:105-158 | The objects after the call, owner pointer, count, priorities and wait queue, stand for the specified step; which of 0, -EBUSY or a wait it is, each exactly when; and lock_count grows by one exactly if the lock is granted. |
| `MutexTables.MutexTable.GiveUp` | Trace32_H7/TRACE32/demo/zephyr/src/kernel/mutex.c:166-198 | The objects after a timed-out waiter's adjustment stand for the specified step. |
| `MutexTables.MutexTable.Unlock` | Trace32_H7/TRACE32/demo/zephyr/src/kernel/mutex.c:211-284 | The objects after the call stand for the specified step; and which of 0, -EINVAL or -EPERM it is, each exactly when; errors change nothing. |
| `MutexTables.MutexTable.TimeOut` | Trace32_H7/TRACE32/demo/zephyr/src/kernel/sched.c:658-687 | The waiter is found and taken off the wait queue; the objects stand for the specified step. |
| `MutexTables.MutexTable.FindSeat` | Trace32_H7/TRACE32/demo/zephyr/src/kernel/sched.c:103-119 | The walk over the waiting threads stops at the newcomer's place. |
| `MutexTables.MutexTable.constructor` | Trace32_H7/TRACE32/demo/zephyr/src/kernel/mutex.c:55-70 | Initialised mutexes stand for free ones without waiters. |
| `MsgQSpec.EveryRun` | Trace32_H7/TRACE32/demo/zephyr/src/kernel/msg_q.c:124-395 | In every run of a queue that can hold a message, whoever waits is a reader of an empty queue or a writer to a full one, and no message is lost, made up or doubled: accepted = delivered, by return or by copy to a waiting reader, + in the line + dropped. |
| `MsgQSpec.OrderlyRun` | Trace32_H7/TRACE32/demo/zephyr/src/kernel/msg_q.c:124-282 | While writers queue in turn and nothing is purged or given up, messages come out in the order they went in. |
| `MsgQSpec.OneKindIff` | Trace32_H7/TRACE32/demo/zephyr/src/kernel/msg_q.c:124-282 | The waiters are of one kind in every run if and only if the queue can hold a message. |
| `MsgQSpec.PutJoinsLine` | Trace32_H7/TRACE32/demo/zephyr/src/kernel/msg_q.c:124-184 | A put appends to the line of stored and pending messages, or its message is copied to the first waiting reader (there is no line then), or it fails exactly when the queue is full. |
| `MsgQSpec.PutAnswers` | Trace32_H7/TRACE32/demo/zephyr/src/kernel/msg_q.c:124-184 | Which answer a put gives, each exactly when: -ENOMSG to a full queue without waiting, a wait with the caller and its message at its place, a hand-over to the first waiter, or the message stored; and who is left waiting. |
| `MsgQSpec.GetAnswers` | Trace32_H7/TRACE32/demo/zephyr/src/kernel/msg_q.c:216-282 | Which answer a get gives, each exactly when: -ENOMSG on an empty queue without waiting, a wait with the caller at its place, or the first message, with the first waiter, no longer waiting, refilling the queue. |
| `MsgQSpec.GetTakesFirst` | Trace32_H7/TRACE32/demo/zephyr/src/kernel/msg_q.c:216-282 | A get takes exactly the first message of the line, and a queue with waiting writers stays full. |
| `MsgQSpec.PutKeeps` | Trace32_H7/TRACE32/demo/zephyr/src/kernel/msg_q.c:124-184 | A put keeps the waiting invariant, and hands over to readers only. |
| `MsgQSpec.GetKeeps` | Trace32_H7/TRACE32/demo/zephyr/src/kernel/msg_q.c:216-282 | A get keeps the waiting invariant, and stores messages of writers only. |
| `MsgQueues.MsgQueue.constructor` | Trace32_H7/TRACE32/demo/zephyr/src/kernel/msg_q.c:39-63 | A new queue is empty and valid. |
| `MsgQueues.MsgQueue.Store` | Trace32_H7/TRACE32/demo/zephyr/src/kernel/msg_q.c:150-157 | Copying to the write pointer and moving it on, with wrap-around, appends a message. |
| `MsgQueues.MsgQueue.Take` | Trace32_H7/TRACE32/demo/zephyr/src/kernel/msg_q.c:229-234 | Copying from the read pointer and moving it on, with wrap-around, removes the first message. |
| `MsgQueues.MsgQueue.Put` | Trace32_H7/TRACE32/demo/zephyr/src/kernel/msg_q.c:124-184 | Buffer, pointers, count, wait queue and result, with the message copied to a waiting reader, are those of the specified put, and the answer is exactly as `MsgQSpec.PutAnswers` says. |
| `MsgQueues.MsgQueue.Get` | Trace32_H7/TRACE32/demo/zephyr/src/kernel/msg_q.c:216-282 | Buffer, pointers, count, wait queue and result are those of the specified get, and the answer is exactly as `MsgQSpec.GetAnswers` says. |
| `MsgQueues.MsgQueue.PeekAt` | Trace32_H7/TRACE32/demo/zephyr/src/kernel/msg_q.c:330-363 | The message with index idx, on either side of the wrap-around; -ENOMSG exactly if there is none. |
| `MsgQueues.MsgQueue.Locate` | Trace32_H7/TRACE32/demo/zephyr/src/kernel/msg_q.c:341-350 | The address computed is the slot of the message with that index. |
| `MsgQueues.MsgQueue.Peek` | Trace32_H7/TRACE32/demo/zephyr/src/kernel/msg_q.c:296-317 | The first message; -ENOMSG exactly if there is none. |
| `MsgQueues.MsgQueue.Purge` | Trace32_H7/TRACE32/demo/zephyr/src/kernel/msg_q.c:376-395 | Every waiter is woken, in order, and the queue is empty. |
| `Slabs.EveryRun` | Trace32_H7/TRACE32/demo/zephyr/src/kernel/mem_slab.c:208-283 | In every run of allocs, waits, timeouts and frees of held blocks, every block is on the free list once or held by one thread, the list has num_blocks - num_used blocks, and threads wait only while it is empty. |
| `Slabs.AllocKeeps` | Trace32_H7/TRACE32/demo/zephyr/src/kernel/mem_slab.c:208-251 | An alloc hands out a block nobody holds, and fails or waits only while all are held. |
| `Slabs.AllocAnswers` | Trace32_H7/TRACE32/demo/zephyr/src/kernel/mem_slab.c:208-251 | Which answer an alloc gives, each exactly when: a block for the caller while fewer than all are held, -ENOMEM without waiting, or the caller waits at its place. |
| `Slabs.LastFreedFirst` | Trace32_H7/TRACE32/demo/zephyr/src/kernel/mem_slab.c:208-283 | The block freed last is handed out first, and a block given back at once leaves the slab as it was. |
| `Slabs.FreeKeeps` | Trace32_H7/TRACE32/demo/zephyr/src/kernel/mem_slab.c:253-283 | A freed block goes to the first waiter, or back on the list if there is none. |
| `Slabs.FreeIff` | Trace32_H7/TRACE32/demo/zephyr/src/kernel/mem_slab.c:253-283 | Freeing keeps the books if and only if somebody holds the block; one that is free already would be on the list twice. |
| `Slabs.Adds` | Trace32_H7/TRACE32/demo/zephyr/src/kernel/mem_slab.c:208-283 | Free and held blocks add up to all blocks. |
| `MemSlabs.MemSlab.CreateFreeList` | Trace32_H7/TRACE32/demo/zephyr/src/kernel/mem_slab.c:104-124 | The loop threads every block into a list that ends, the last block first; blocks of size 0 give a list that does not end once there are two. |
| `MemSlabs.SelfLinkNeverEnds` | Trace32_H7/TRACE32/demo/zephyr/src/kernel/mem_slab.c:118-122 | What blocks of size 0 leave, a head linked to itself, is the start of no list that ends. |
| `MemSlabs.MemSlab.LinkBlock` | Trace32_H7/TRACE32/demo/zephyr/src/kernel/mem_slab.c:118-122 | One round puts the next block in front of the list. |
| `MemSlabs.MemSlab.Alloc` | Trace32_H7/TRACE32/demo/zephyr/src/kernel/mem_slab.c:208-251 | The head of the list is taken off it and handed out, or NULL; the list in memory still ends and holds the free blocks. |
| `MemSlabs.MemSlab.Free` | Trace32_H7/TRACE32/demo/zephyr/src/kernel/mem_slab.c:253-283 | A direct hand-off leaves list and num_used alone; otherwise the block becomes the head and num_used drops by one. |
| `MemSlabs.MemSlab.Write` | Trace32_H7/TRACE32/demo/zephyr/src/kernel/mem_slab.c:104-124 | Whatever a holder writes into its block, link word included, the free list stands. |
| `MemSlabs.Init` | Trace32_H7/TRACE32/demo/zephyr/src/kernel/mem_slab.c:172-206 | -EINVAL exactly for a misaligned block size or buffer; otherwise a slab with every block free; a block size of 0 passes, and its list does not end once there are two blocks. |
| `Polls.PollLeavesNothing` | Trace32_H7/TRACE32/demo/zephyr/src/kernel/poll.c:288-353 | Under any interleaving of polls and signals: after k_poll returned none of its events is in any list; a return of 0 means an event has a state; the registered events are a prefix of the array. |
| `Polls.EveryRun` | Trace32_H7/TRACE32/demo/zephyr/src/kernel/poll.c:175-465 | Between any two locked sections lists and pollers agree: linked events are armed, wait for that object, are listed once, and belong to the registered part. |
| `Polls.SignalEndsWait` | Trace32_H7/TRACE32/demo/zephyr/src/kernel/poll.c:265-286 | A waiting poll has every event linked; the signal that reaches one ends the wait with 0, or -EINTR for a cancellation, and sets the state. |
| `Polls.CodeOf` | Trace32_H7/TRACE32/demo/zephyr/src/kernel/poll.c:288-353 | Which code a poll comes to, step by step and each exactly when: 0 or -EAGAIN after registration, -EAGAIN by its timeout, 0 or -EINTR by a signal to one of its events; and from then on the code stands. |
| `Polls.CodeStands` | Trace32_H7/TRACE32/demo/zephyr/src/kernel/poll.c:288-353 | Once known, the code is what the poll returns, whatever happens meanwhile. |
| `Polls.BeginOf` | Trace32_H7/TRACE32/demo/zephyr/src/kernel/poll.c:288-306 | A poll starts with its events as the caller left them, nothing registered or linked, and nobody else affected. |
| `Polls.StateOf` | Trace32_H7/TRACE32/demo/zephyr/src/kernel/poll.c:234-286 | A step adds to the state of an event the flag of its object when that is found available, the flag of a signal that reaches it, and nothing otherwise. |
| `Polls.StatesGrow` | Trace32_H7/TRACE32/demo/zephyr/src/kernel/poll.c:234-286 | What an event has to report is never lost while its poll lasts. |
| `Polls.FirstIsBest` | Trace32_H7/TRACE32/demo/zephyr/src/kernel/poll.c:112-134 | In every run in which events join lists they can be compared with, and priorities change only so far that a poller's linked events fit where they stand, the event an object signals first belongs to a poller that no other in its list beats. |
| `Polls.RerankIff` | Trace32_H7/TRACE32/demo/zephyr/src/kernel/sched.c:762-787 | A change of a poller's priority keeps every list in order if and only if each of its linked events still fits between its neighbours. |
| `Polls.RerankMisplaces` | Trace32_H7/TRACE32/demo/zephyr/src/kernel/sched.c:762-787 | A change of priority can leave a list out of order: a poller raised above the one in front of it stays behind. |
| `Polls.ShortCut` | Trace32_H7/TRACE32/demo/zephyr/src/kernel/poll.c:112-134 | The look at the tail finds the place the walk would find, and the list stays in order. |
| `Polls.RegisterKeeps` | Trace32_H7/TRACE32/demo/zephyr/src/kernel/poll.c:234-263 | One round of registration keeps the agreement. |
| `Polls.ClearKeeps` | Trace32_H7/TRACE32/demo/zephyr/src/kernel/poll.c:175-226 | One round of clearing keeps the agreement, and the event it clears is in no list. |
| `Polls.CheckKeeps` | Trace32_H7/TRACE32/demo/zephyr/src/kernel/poll.c:308-335 | The decision to return, give up or wait keeps the agreement. |
| `Polls.SignalKeeps` | Trace32_H7/TRACE32/demo/zephyr/src/kernel/poll.c:441-478 | A signal at any moment keeps the agreement. |
| `Pollers.PollKernel.FindSlot` | Trace32_H7/TRACE32/demo/zephyr/src/kernel/poll.c:112-134 | Tail first, then the walk: the place in the list. |
| `Pollers.PollKernel.RegisterRound` | Trace32_H7/TRACE32/demo/zephyr/src/kernel/poll.c:242-260 | One round of register_events is the specified step, and lists and pollers still agree. |
| `Pollers.PollKernel.CheckPolling` | Trace32_H7/TRACE32/demo/zephyr/src/kernel/poll.c:308-335 | The decision to return, give up or wait is the specified step, and lists and pollers still agree. |
| `Pollers.PollKernel.ClearRound` | Trace32_H7/TRACE32/demo/zephyr/src/kernel/poll.c:175-226 | One round of clear_event_registrations with its unlink loop, or the return, is the specified step, and lists and pollers still agree. |
| `Pollers.PollKernel.HandleObjPollEvents` | Trace32_H7/TRACE32/demo/zephyr/src/kernel/poll.c:441-478 | Taking the object's first event off its list and waking its poller is the specified step at any moment, and lists and pollers still agree. |
| `Pollers.PollKernel.Poll` | Trace32_H7/TRACE32/demo/zephyr/src/kernel/poll.c:288-335 | k_poll with nobody interfering reports exactly the events whose objects are available, returns 0 if there are any, and otherwise returns -EAGAIN or waits with all events registered. |
| `Pollers.PollKernel.RegisterEvents` | Trace32_H7/TRACE32/demo/zephyr/src/kernel/poll.c:234-263 | The loop reports exactly the events whose objects are available, and polling goes on exactly if there are none. |
| `Pollers.PollKernel.ClearRegistrations` | Trace32_H7/TRACE32/demo/zephyr/src/kernel/poll.c:217-226 | The loop ends with the given code and leaves the states as they are. |
| `T32Packets.EndToEnd` | Trace32_H7/TRACE32/demo/arm/etc/semihosting_arm_syscalls/t32term.c:69-178 | A packet cut into chunks and read back is accepted as sent, if and only if its length and its longest chunk are below 2^24 and its data is not empty before a payload. |
| `T32Packets.PacketRoundTrip` | Trace32_H7/TRACE32/demo/arm/etc/semihosting_arm_syscalls/t32term.c:117-178 | Without the chunks: read back as sent if and only if the length is below 2^24 and the data is not empty before a payload. |
| `T32Packets.TransportRoundTrip` | Trace32_H7/TRACE32/demo/arm/etc/semihosting_arm_syscalls/t32term_memory.c:65-155 | The chunks read are the bytes written if and only if the smaller of buffer and package is below 2^24 bytes. |
| `T32Packets.ImageRead` | Trace32_H7/TRACE32/demo/arm/etc/semihosting_arm_syscalls/t32term_memory.c:65-155 | The reader of a control word finds the writer's chunk if and only if it is shorter than 2^24 bytes. |
| `T32Packets.CutJoins` | Trace32_H7/TRACE32/demo/arm/etc/semihosting_arm_syscalls/t32term_memory.c:65-106 | Cutting a package loses nothing and fills every chunk but the last. |
| `T32Packets.ParseWhole` | Trace32_H7/TRACE32/demo/arm/etc/semihosting_arm_syscalls/t32term.c:180-183 | Read without a data length, data and payload come back as one. |
| `T32Replies.AcceptsIff` | Trace32_H7/TRACE32/demo/arm/etc/semihosting_arm_syscalls/t32term.c:117-178 | Of all streams, those accepted are exactly a start byte 2, a field that states the length, data and payload of that length, their sum and 3; with the data, the payload, the count and the rest these give. |
| `T32Replies.RejectsIff` | Trace32_H7/TRACE32/demo/arm/etc/semihosting_arm_syscalls/t32term.c:117-178 | Those rejected are exactly the ones with another start byte, after two bytes, or with other closing bytes, after all of them. |
| `T32Replies.AnswerStands` | Trace32_H7/TRACE32/demo/arm/etc/semihosting_arm_syscalls/t32term.c:117-178 | An answer once given does not depend on what comes behind it. |
| `T32Replies.PacketReads` | Trace32_H7/TRACE32/demo/arm/etc/semihosting_arm_syscalls/t32term.c:69-110 | A packet is laid out so, with a length of one byte up to 252 and of four above. |
| `T32Replies.ControlWord` | Trace32_H7/TRACE32/demo/arm/etc/semihosting_arm_syscalls/t32term_memory.c:65-106 | A control word states the length of a chunk in one byte exactly up to 252, and in three above. |
| `T32Packets.ChangedByteRejected` | Trace32_H7/TRACE32/demo/arm/etc/semihosting_arm_syscalls/t32term.c:156-170 | With any one byte of data, payload, checksum or end mark replaced, a packet is rejected, however the reader splits it. |
| `T32Packets.Low3Number` | Trace32_H7/TRACE32/demo/arm/etc/semihosting_arm_syscalls/t32term.c:76-80 | Three length bytes give back the length modulo 2^24. |
| `T32Terminals.Writer.PutPacketEx` | Trace32_H7/TRACE32/demo/arm/etc/semihosting_arm_syscalls/t32term.c:69-110 | What the host takes is the packet cut into chunks, and both static counters are 0 afterwards. |
| `T32Terminals.Writer.PutBlock` | Trace32_H7/TRACE32/demo/arm/etc/semihosting_arm_syscalls/t32term_memory.c:65-106 | No byte is lost, whatever size was announced; a block that keeps to its package leaves in full chunks, the last as soon as the package is complete. |
| `T32Terminals.Writer.PutSome` | Trace32_H7/TRACE32/demo/arm/etc/semihosting_arm_syscalls/t32term_memory.c:78-105 | One round of the loop. |
| `T32Terminals.Writer.Finish` | Trace32_H7/TRACE32/demo/arm/etc/semihosting_arm_syscalls/t32term_memory.c:90-101 | Control word and chunk are in the buffer the host takes. |
| `T32Terminals.Reader.GetBlock` | Trace32_H7/TRACE32/demo/arm/etc/semihosting_arm_syscalls/t32term_memory.c:124-155 | The next n bytes of the stream, whatever chunks they came in. |
| `T32Terminals.Reader.NextFrame` | Trace32_H7/TRACE32/demo/arm/etc/semihosting_arm_syscalls/t32term_memory.c:131-138 | A new chunk does not change the stream. |
| `T32Terminals.Reader.CopyOut` | Trace32_H7/TRACE32/demo/arm/etc/semihosting_arm_syscalls/t32term_memory.c:140-152 | One round of the loop takes bytes off the front of the stream. |
| `T32Terminals.Reader.GetPacketEx` | Trace32_H7/TRACE32/demo/arm/etc/semihosting_arm_syscalls/t32term.c:117-178 | Acceptance, data, payload and count are those of the specified parser, which says what is left unread, and of which `T32Replies.AcceptsIff` and `T32Replies.RejectsIff` say what it accepts and rejects. |
| `T32Terminals.Checksum` | Trace32_H7/TRACE32/demo/arm/etc/semihosting_arm_syscalls/t32term.c:92-101 | The loops compute the sum of header, data and payload modulo 256. |
| `T32Terminals.Header` | Trace32_H7/TRACE32/demo/arm/etc/semihosting_arm_syscalls/t32term.c:69-91 | The header is the start byte and the length field, with its share of the checksum. |
| `T32Terminals.SendAndReceive` | Trace32_H7/TRACE32/demo/arm/etc/semihosting_arm_syscalls/t32term.c:69-178 | Sent through one buffer and received through another, data and payload arrive unchanged, for every buffer size above the control word, under the condition of `T32Packets.EndToEnd`. |

## Left out

- Everything under CONFIG_SMP, inter-processor interrupts, spinlock checks and atomics.
- System-call wrappers, tracing, object cores, statistics, initialisation at boot, and the allocating and clean-up calls of each object.
- The other kernel objects (semaphores, stacks, queues, condition variables, futexes, events, mailboxes, heaps): the same wait and hand-off with lighter properties.
- Demand paging, memory domains, and the allocator in `malloc/t32mem.c`.
- The drivers and servers around the terminal layer, the unblocked variants of its transport, the type-ahead buffer and T32_Term_Errno.
- Pipes: descriptors and callers' buffers are values, so aliasing between a caller's buffer and the ring is not captured; a reader blocked with a NULL buffer is not modelled; sums of waiting bytes do not wrap at SIZE_MAX; poll events raised by a pipe are not.
- Wait queues of pipes, message queues and slabs: the place a blocked thread takes is a parameter, not computed from priorities; the scheduler and mutex models compute it.
- Timeouts: ticks are unbounded; next_timeout and the programming of the timer hardware are not modelled; nor are a timer's stop and expiry functions, other than as further calls of its callback.
- Callbacks are a table of the calls they make, by firing, timeout and tick; what they read off the clock enters through relative timeouts and those counted from the uptime.
- Scheduler: no time slicing, no MetaIRQs, no thread options; priorities fit into a signed byte; lists are sequences; arrival, the numbering of queueings and the window are bookkeeping. z_is_thread_ready, should_preempt and the list library are small definitions of this model; their headers are not part of the repository.
- Timers.KTimer.Stop: the stop function is not called; what it does would be further actions of the caller.
- Timers.KTimer.ExpirationHandler: the expiry function is not called; what it does would be further actions of the callback.
- SchedSteps.MoveToEndKeeps: speaks of a thread that is queued; for all others see `SchedSteps.MoveToEndIff`.
- Scheduler.Kernel.MoveToEnd: speaks of a thread that can run; for all others see `SchedSteps.MoveToEndIff`.
- MutexRules.LoansStandByTheRules: what an owner that itself waits, a waiter that gives up and a thread that takes over need beside the two rules is asked of the run (`Settles`); `MutexLoans.NextBackedIff` says it is needed.
- RbQueues: the red-black tree is a sequence in tree order; `late` is bookkeeping.
- Mutexes: whether a section reschedules is not modelled; the wait queue's place is found by priority alone; lock counts do not wrap; deadlines do not break ties in the wait queue; owners are not aborted while they hold a mutex; priorities change through mutexes only. z_get_new_prio_with_ceiling is a small definition of this model.
- MsgQueues.MsgQueue.Put: the copy to a waiting reader is the message in the result, not a write to that thread's memory.
- MemSlabs: memory is counted in words from the start of the buffer, and NULL is -1.
- MemSlabs.MemSlab.Free: speaks of blocks that are held; for others see `Slabs.FreeIff`.
- Polls: work items that poll (k_work_poll) are not modelled; object availability is a set that changes at any moment.
- T32Terminals: lengths are unbounded integers, a long is four bytes, and the host takes each chunk as soon as it is signalled.
- T32Terminals.Reader.GetPacketEx: asks that the bytes arrive; until then the source waits.
