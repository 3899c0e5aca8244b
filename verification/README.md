# Models of the operating-systems labs

Dafny models of the programs in this repository whose correctness is not visible
from any one function, and proofs of what those programs promise. Check everything with

    dafny verify dfyconfig.toml

## What is modelled

**EventLock** is the Windows readers/writers program (`5-semestr/lab6/main.cpp`): one mutex,
two manual-reset events, and any number of readers and writers with any number of iterations.
A thread is a program counter named after the source line it is about to execute. Statements
that are not interlocked or kernel operations are split: `++read_count` is a load and a store,
so "no lost update" and "no underflow" are theorems. `read_count` and `writ_count` are 32-bit. The proofs
rest on one invariant over all threads, kept by every step (`StepInv`). From it come the reachable-state
theorem, deadlock freedom, a bound on every run, and the exact final state of every maximal run.
**Overtaking** says when and how often readers overtake a writer that has announced itself.

**SysVSem** is `semop()` as the System Interfaces volume of POSIX.1-2017 describes it: an
array of operations in order, all of it or none of it. **ProdCons** (`5-semestr/lab5/task1.c`) and **SemLock**
(`5-semestr/lab5/task2.c`) run the programs' own operation arrays through it, with any numbers of
processes, any quotas and any capacity N of at least 1. Every access to shared memory is a
step of its own, also inside the critical section. `produced`, `consumed` and `announced` in ProdCons and `printed`
in SemLock and EventLock record what the programs store, load and print. **PrintLog** says what it means for printed lines
to be in order; **Tally** holds the sums over processes that all invariants are made of.

**Fortune** is the fortune cookie module (`6-semestr/lab4/part2/fortune.c`), and **CookieJar** proves that it refines a plain list
of cookies with a cursor and an offset, over any writes, short reads and faults. **TreeWalk** is the directory walk (`6-semestr/lab2/main.c`), over any
finite tree, path and handler, with the working directory as state. **Paths** is what `lstat` and `chdir` make of a path, which may go
through up to 40 symbolic links, as in Linux. **SharedOffset** is the alternating read through two
buffered streams on one descriptor (`6-semestr/lab5/1.c`). **MemProbe** is the memory sizing
loop, the hexadecimal printer and the timer interrupt (`5-semestr/lab2/main.asm`); the sizing procedure is called
with interrupts on, so any number of timer interrupts may come between any two of its instructions.

The classes `Program`, `Module`, `Walker`, `Stream` and `Machine` hold the programs' variables and
update them in place; each method's postcondition ties the new state to the specification
functions, and the lemmas are about those.

## Where the code does not do what one would expect

- A counted writer does not stop every reader: one that is already past line 33 of `5-semestr/lab6/main.cpp` may still overtake it.
  That is possible exactly while the writer waits for its turn and some reader is past that line (`Overtaking.OvertakingIff`), and in
  the worst case of all runs as often as there are readers with an iteration to do, once each (`Overtaking.WorstOvertaking`).
- `StopWrite` (`5-semestr/lab6/main.cpp:47`) increments `waiting_writers`, so every run ends with that counter at the number of
  writes rather than 0 (`EventLock.MaximalRun`).
- `SEM_WW` in `5-semestr/lab5/task2.c` never holds readers back: it is raised and lowered inside one array, so nobody ever sees it above 0.
  Readers can enter while a writer stays blocked exactly when there are at least two of them (`SemLock.StarvationIff`), and then
  any number of times (`SemLock.StarvationFromInit`).
- The producers and consumers all finish exactly when the consumers' total is at most the producers' total and falls short of it by at most N
  (`ProdCons.FinishIff`). The totals in `main` are equal.
- The buffer of `5-semestr/lab5/task1.c` starts 8 ints into a segment of N + 2 ints, because lines 126-127 step by `sizeof(int)` ints. A maximal run
  stays within what was asked for if and only if nothing or at least 6 items less than N are to be produced
  (`ProdCons.SegmentIff`); with the N = 9 and the 9 items of `main` no run does (`ProdCons.MainLeavesSegment`). "No access outside the buffer"
  below is about a segment that has room for all that is produced.
- A read of an empty pot that copies anything leaves `next_fortune` past the cookies (`Fortune.ReadStays`, `Fortune.EmptyPotRead`), and the
  next cookie written loses its first bytes (`Fortune.FirstBytesSkipped`). These reads, and no other calls, break the property that
  a lap reads the pot exactly once (`Fortune.Laps`).
- Line 26 of `6-semestr/lab4/part2/fortune.c` accepts one byte more than line 76 allocates, and an empty write to an empty pot; `Fortune.WriteStays`
  says exactly which writes stay within the allocation, `Fortune.NewPotOverflow` gives one that does not.
- A faulting read does change `next_fortune` when it was due to wrap, because line 49 of `6-semestr/lab4/part2/fortune.c` comes before the
  copy. The next read does not notice (`Fortune.FaultIsInvisible`), but if a cookie is written in between, the next read starts over instead of
  giving the new cookie (`Fortune.FaultThenWrite`).
- Line 78 of `6-semestr/lab2/main.c` ends in a comment whose slashes are missing; it is read as a comment.
- The directory walk leaves a directory by `chdir("..")`, so it gives the working directory back only from a directory right below it
  (`TreeWalk.Restored` says exactly when, for any path, and `TreeWalk.RestoredByName` for a single name). The recursive calls all use
  names of entries and do restore it.
- A full walk reports an unreadable directory twice, as a directory and as unreadable, so after a failure `ndir` counts it.
- The memory size shown is right exactly from 1 MB up to but not including 4 GB (`MemProbe.SizeIsRight`): the loop starts at
  100001h and cannot reach the last byte.
- `new_int08` does not save EDI: it returns with 158 in it (`MemProbe.Machine.TimerTick`). `compute_memory` runs with interrupts on. The
  size it prints can be read from the screen if no timer interrupt comes from `mov edi,20` to the store of the last digit, and, provided the
  leftmost of the eight cells held no hexadecimal digit before, only then (`MemProbe.Machine.ComputeMemory`; lines 276-277 clear the screen, so the
  program meets the proviso). With an interrupt at every instruction it cannot be read (`MemProbe.Machine.ComputeUnderFire`).

## Model

| member | source | states |
|---|---|---|
| EventLock.Program.constructor | 5-semestr/lab6/main.cpp:82-98 | both events start signalled, the mutex free, all counters 0, every thread at its loop head |
| EventLock.Program.ReaderStep | 5-semestr/lab6/main.cpp:31-68 | one statement of a reader does to the variables exactly one step of the protocol |
| EventLock.Program.WriterStep | 5-semestr/lab6/main.cpp:19-80 | one statement of a writer does to the variables exactly one step of the protocol |
| EventLock.Program.ReleaseMutex | 5-semestr/lab6/main.cpp:24 | only the owner's release frees the mutex |
| EventLock.StepInv | 5-semestr/lab6/main.cpp:19-80 | every step of every thread keeps the invariant: the mutex has the owner the program counters say, loaded values stay current, the six counters are sums over the threads, the events agree with the counts, the log is in order |
| EventLock.StepEvents | 5-semestr/lab6/main.cpp:22-56 | each event is signalled exactly when the other side's count is 0, except between an event change and the counter change that belongs to it |
| EventLock.WaitsIff | 5-semestr/lab6/main.cpp:21-39 | an unfinished thread waits if and only if it is at the mutex and another thread owns it, or on line 33 with `event_read` off, or on line 26 with `event_write` off |
| EventLock.WaitsForCounted | 5-semestr/lab6/main.cpp:21-39 | with the mutex free: if and only if it is on line 33 and a writer is counted, or on line 26 and a reader is |
| EventLock.ProgramOrder | 5-semestr/lab6/main.cpp:19-79 | every step goes on by exactly one line, past `SetEvent` unless the count is 0; no line is skipped or repeated |
| EventLock.MoveLog | 5-semestr/lab6/main.cpp:63-75 | lines 63 and 75 print one line in the name of the thread that runs them, a read and a write, and no other line prints |
| EventLock.RunPrints | 5-semestr/lab6/main.cpp:58-80 | over any run, every thread has printed a line for each of its reads or writes, and nobody else has printed any |
| EventLock.ReachableStates | 5-semestr/lab6/main.cpp:19-75 | in every reachable state: each counter counts the threads between its own lines; with the mutex free each event tells whether the other side is empty; at most one reader is active; nobody waits while owning the mutex; every release is by the owner; no decrement underflows; critical sections exclude each other; printed values are in order; every thread has printed its own reads or writes |
| EventLock.OneActive | 5-semestr/lab6/main.cpp:39-55 | `active_readers` is 0 or 1, and the active reader owns the mutex |
| EventLock.NoUnderflow | 5-semestr/lab6/main.cpp:48-54 | neither unsigned decrement wraps |
| EventLock.BlockedEvent | 5-semestr/lab6/main.cpp:26-39 | with the mutex free, behind an `event_write` that is off stands a counted reader that can run, otherwise behind an `event_read` that is off a counted writer that can run |
| EventLock.DeadlockFree | 5-semestr/lab6/main.cpp:19-80 | while any thread is unfinished, some thread can take a step |
| EventLock.RunBound | 5-semestr/lab6/main.cpp:58-80 | a run, whatever its schedule, is no longer than the steps its threads have left: every run is finite |
| EventLock.FinishedIsFinal | 5-semestr/lab6/main.cpp:46-80 | when all are finished `value` and `waiting_writers` are the number of writes, all else is as at the start, and the log has one line per write |
| EventLock.MaximalRun | 5-semestr/lab6/main.cpp:46-80 | every run that cannot go on has finished all threads and is in that final state, whatever the schedule; every reader has printed a read, and every writer a write, for each of its iterations |
| EventLock.UniformQuota | 5-semestr/lab6/main.cpp:61-73 | with one ITER the writes are writers times iterations |
| Overtaking.GateShut | 5-semestr/lab6/main.cpp:22-33 | from its `++writ_count` to its `--writ_count` a writer keeps `event_read` off, and no reader passes line 33 |
| Overtaking.WriteGateShut | 5-semestr/lab6/main.cpp:26-54 | from its `++read_count` to its `--read_count` a reader keeps `event_write` off, and no writer passes line 26 |
| Overtaking.WritersKeptOut | 5-semestr/lab6/main.cpp:26-54 | over any run during which a reader is counted no writer passes line 26, and only the writers that were past it write, once each |
| Overtaking.BoundedBypass | 5-semestr/lab6/main.cpp:19-50 | meanwhile a reader starts reading at most once, and only if it was already past its wait |
| Overtaking.TotalBypass | 5-semestr/lab6/main.cpp:19-50 | meanwhile all reader entries together use up the readers that were past the wait when it began, and none join them |
| Overtaking.Drain | 5-semestr/lab6/main.cpp:24-41 | a writer waiting for its turn can be overtaken by all of them: the bound is attained |
| Overtaking.TurnShutsOut | 5-semestr/lab6/main.cpp:27-48 | once the writer has the mutex for its write, nobody starts reading until it has counted itself out |
| Overtaking.OvertakingIff | 5-semestr/lab6/main.cpp:19-50 | in a reachable state a counted writer can be overtaken if and only if it has not passed line 27 and some reader is past line 33 |
| Overtaking.WorstOvertaking | 5-semestr/lab6/main.cpp:19-80 | over all runs from the start, the greatest number of reader entries while one writer is counted is the number of readers with an iteration to do |
| EventLock.Program.RunToEnd | 5-semestr/lab6/main.cpp:100-107 | the program under an arbitrary scheduler ends, in the final state and with those lines printed |
| PrintLog.LogAfter | 5-semestr/lab6/main.cpp:75 | a write line showing one more than the writes so far, or a read line showing the writes so far, keeps the log in order |
| PrintLog.NeverDecreases | 5-semestr/lab5/task2.c:60-73 | values printed never decrease over a run |
| SysVSem.ApplyNet | 5-semestr/lab5/task2.c:25-47 | an operation array that goes through moves every semaphore by its net change |
| SysVSem.ApplyWhen | 5-semestr/lab5/task2.c:25-47 | it goes through exactly when every operation is ready on what the earlier ones leave behind; otherwise nothing happens |
| SysVSem.TwoOps | 5-semestr/lab5/task1.c:30-33 | two operations on different semaphores are done together or not at all |
| ProdCons.ProducerArrays | 5-semestr/lab5/task1.c:30-31 | `producer_start` waits for an empty slot and the lock together; `producer_stop` never waits |
| ProdCons.ConsumerArrays | 5-semestr/lab5/task1.c:32-33 | `consumer_start` waits for a full slot and the lock together; `consumer_stop` never waits |
| ProdCons.Program.constructor | 5-semestr/lab5/task1.c:125-151 | the positions lie in ints 0 and 4 of the segment and are 0, the buffer starts at int 8; the initial semaphores are 1, N and 0; every process is at its loop head with its own `output` of 97 |
| ProdCons.Program.Poke | 5-semestr/lab5/task1.c:42 | a store into the buffer leaves the positions alone |
| ProdCons.Program.Semop | 5-semestr/lab5/task1.c:37-61 | all of the array or nothing, and the caller learns which |
| ProdCons.Program.ProducerStep | 5-semestr/lab5/task1.c:35-83 | a scheduled producer takes exactly one step of the protocol, or waits and changes nothing |
| ProdCons.Program.ConsumerStep | 5-semestr/lab5/task1.c:52-101 | a scheduled consumer takes exactly one step of the protocol, or waits and changes nothing |
| ProdCons.Conservation | 5-semestr/lab5/task1.c:30-65 | EMPTY + FULL + (1 - BINARY) = N; the positions differ by at least FULL and at most N - EMPTY, and by exactly FULL when nobody is inside |
| ProdCons.Exclusive | 5-semestr/lab5/task1.c:37-64 | at most one process is between its two `semop` calls |
| ProdCons.ReadsBehindStores | 5-semestr/lab5/task1.c:42-58 | no more loads than stores; a consumer about to load has an item that was stored and not loaded |
| ProdCons.StoresFit | 5-semestr/lab5/task1.c:42 | a producer about to store has a slot left in a buffer as long as the total produced |
| ProdCons.StuckProduced | 5-semestr/lab5/task1.c:67-102 | a maximal run produces all there is to produce, or N more than is wanted if that is less |
| ProdCons.SegmentIff | 5-semestr/lab5/task1.c:16-127 | every maximal run stays within the N + 2 ints asked for if and only if nothing or at least 6 items less than N are to be produced |
| ProdCons.MainLeavesSegment | 5-semestr/lab5/task1.c:14-151 | with N = 9 and 9 items no maximal run does |
| ProdCons.StepHistory | 5-semestr/lab5/task1.c:41-59 | every step keeps: the k-th store went to slot k and is still there, the k-th load and the k-th line printed by a producer took the k-th stored value from slot k, and every producer has stored 97, 98, ... as characters, in order |
| ProdCons.ToCharIs | 5-semestr/lab5/task1.c:41 | `char cur` is the number from -128 to 127 that agrees with `output` modulo 256 |
| ProdCons.LettersAre | 5-semestr/lab5/task1.c:12-45 | the letters of a producer are 97, 98, ..., 127, and then the `char` wraps to -128 |
| ProdCons.StepWho | 5-semestr/lab5/task1.c:42-58 | every step keeps: a producer prints the very item it stored, and every process has stored or loaded as often as it has gone through |
| ProdCons.StepInv | 5-semestr/lab5/task1.c:35-102 | every step keeps the whole invariant |
| ProdCons.ReachableStates | 5-semestr/lab5/task1.c:35-65 | in every reachable state: conservation of slots; positions between 0 and N apart; what was consumed is a prefix of what was produced; each producer's items are consumed in the order 97, 98, ...; what producers print are the items stored, by whoever stored them; every process has stored or loaded as often as it has gone through; no access is outside a buffer as long as the total produced |
| ProdCons.StuckShape | 5-semestr/lab5/task1.c:35-65 | where nobody can move, nobody is inside, unfinished producers wait with EMPTY 0 and unfinished consumers with FULL 0 |
| ProdCons.WaitsIff | 5-semestr/lab5/task1.c:37-61 | an unfinished process waits if and only if it is at its start array and the lock or the slots it needs are 0 |
| ProdCons.StuckIff | 5-semestr/lab5/task1.c:67-102 | where nobody can move, all are finished if and only if the totals satisfy consumed <= produced <= consumed + N |
| ProdCons.FinishIff | 5-semestr/lab5/task1.c:67-151 | so a maximal run from the start finishes everybody if and only if the quotas given to the forks satisfy that |
| ProdCons.NeverStuck | 5-semestr/lab5/task1.c:146-151 | with such totals some process can always move until all are finished |
| ProdCons.RunBound | 5-semestr/lab5/task1.c:67-102 | run length plus steps left to make is the same all along a run: every run is finite, and all that finish are equally long |
| ProdCons.SharesAreAll | 5-semestr/lab5/task1.c:41-45 | the items of the single producers make up all items, as multisets |
| ProdCons.MaximalRun | 5-semestr/lab5/task1.c:41-102 | with such totals every maximal run finishes all processes; each has stored or loaded its quota; what was produced is, as a multiset, the union of the ranges 97, 98, ... over the quotas; what was consumed is the front of it, in the order produced; the semaphores are 1, N - left over, left over; with other totals no maximal run finishes all |
| ProdCons.EqualTotals | 5-semestr/lab5/task1.c:146-151 | with equal totals everything produced is consumed and the semaphores are back at 1, N, 0 |
| ProdCons.Program.RunToEnd | 5-semestr/lab5/task1.c:106-164 | the program under an arbitrary scheduler ends, in that state |
| SemLock.StartReadArray | 5-semestr/lab5/task2.c:25-31 | `start_read` is "wait for WW = 0 and AW = 0, then AR + 1" for all semaphore values |
| SemLock.StartWriteArray | 5-semestr/lab5/task2.c:37-43 | `start_write` is "wait for AW = 0 and AR = 0, then AW + 1" for all semaphore values |
| SemLock.StopArrays | 5-semestr/lab5/task2.c:33-47 | the stop arrays take one from AR or AW, and wait when there is none |
| SemLock.Program.constructor | 5-semestr/lab5/task2.c:127-150 | all semaphores and the shared value start at 0, every process at its loop head |
| SemLock.Program.Semop | 5-semestr/lab5/task2.c:57-75 | all of the array or nothing, and the caller learns which |
| SemLock.Program.Schedule | 5-semestr/lab5/task2.c:54-80 | a scheduled process takes exactly one step of the protocol, or waits and changes nothing |
| SemLock.StepInv | 5-semestr/lab5/task2.c:54-80 | every step keeps the lock and data invariants |
| SemLock.StepData | 5-semestr/lab5/task2.c:59-73 | between the load and the store of `(*shm)++` nobody else writes, so no increment is lost and printed values are in order |
| SemLock.RunInv | 5-semestr/lab5/task2.c:54-80 | the shared value never decreases over a run and no printed line is taken back |
| SemLock.InsideRuns | 5-semestr/lab5/task2.c:62-75 | a process inside can always run: the stop arrays never block |
| SemLock.WaitsIff | 5-semestr/lab5/task2.c:25-80 | a process waits if and only if it is at its start array and, for a reader, a writer is inside, for a writer, anybody is |
| SemLock.ProgramOrder | 5-semestr/lab5/task2.c:54-80 | every step goes on by exactly one line, and from the last to the first |
| SemLock.RunPrints | 5-semestr/lab5/task2.c:57-75 | over any run: every pass of a start array leads to one line by that process, and of a writer to one increment |
| SemLock.EveryPassPrints | 5-semestr/lab5/task2.c:54-80 | from the start of the program: the lines of a process, one more if it is about to print, are as many as its passes, and so are the increments of a writer |
| SemLock.ReachableStates | 5-semestr/lab5/task2.c:54-80 | in every reachable state: AW is the writers inside and at most 1, AR the readers inside, never both positive; WW and WR are 0; the shared value is the completed increments; printed values are in order and never decrease; stop arrays never block; some process can run |
| SemLock.HandOver | 5-semestr/lab5/task2.c:25-43 | with one reader inside and one outside, the second can enter before the first leaves, and a writer stays blocked throughout |
| SemLock.Starvation | 5-semestr/lab5/task2.c:25-47 | for every n there is a run with n reader entries during all of which a waiting writer is blocked |
| SemLock.StarvationFromInit | 5-semestr/lab5/task2.c:54-80 | such runs exist from the start of the program, with two readers and a writer |
| SemLock.OneReaderWaits | 5-semestr/lab5/task2.c:25-43 | a single reader never enters while a writer is blocked |
| SemLock.StarvationIff | 5-semestr/lab5/task2.c:25-80 | from the start, a run with a reader entry during which a waiting writer is blocked throughout exists if and only if there are at least two readers |
| SemLock.Program.Run | 5-semestr/lab5/task2.c:108-150 | under any schedule the program stays in safe states |
| Fortune.Module.constructor | 6-semestr/lab4/part2/fortune.c:71-83 | MAX_COOKIE_LENGTH cleared bytes between two bytes that are somebody else's, both indices 0 |
| Fortune.Module.CopyIn | 6-semestr/lab4/part2/fortune.c:32 | the bytes that arrive, and zeros for the others, land at `cookie_index` one by one, and no other byte of memory changes |
| Fortune.Module.FortuneWrite | 6-semestr/lab4/part2/fortune.c:22-39 | too long a write fails with ENOSPC and changes nothing; a fault fails with EFAULT and changes neither index nor cookies; otherwise the bytes are appended with the last one replaced by NUL; an empty write to an empty pot puts the NUL before the pot |
| Fortune.WriteStays | 6-semestr/lab4/part2/fortune.c:26-37 | an accepted write stores only within the MAX_COOKIE_LENGTH bytes allocated if and only if it leaves the one byte too many unused and is not an empty write to an empty pot |
| Fortune.ChangesOnlyStores | 6-semestr/lab4/part2/fortune.c:32-37 | a write, faulty or not, changes no cell of the pot but those |
| Fortune.NewPotOverflow | 6-semestr/lab4/part2/fortune.c:26-37 | a write of MAX_COOKIE_LENGTH + 1 bytes to a new pot is accepted and stores behind the allocation |
| Fortune.Module.FortuneRead | 6-semestr/lab4/part2/fortune.c:41-61 | only a read at position 0 does anything; it copies from `next_fortune`, wrapped, up to the NUL or `len`, and moves on by what was copied |
| Fortune.StrLen | 6-semestr/lab4/part2/fortune.c:51 | the distance to the first NUL |
| Fortune.GoodIsReadable | 6-semestr/lab4/part2/fortune.c:48-51 | `strlen` always meets a NUL inside the pot, and below `cookie_index` when there are cookies |
| Fortune.ReadStays | 6-semestr/lab4/part2/fortune.c:48-57 | a read leaves `next_fortune` at most `cookie_index` if and only if there are cookies, or `len` is 0, or the copy faults |
| Fortune.EmptyPotRead | 6-semestr/lab4/part2/fortune.c:48-57 | a read of at least one byte of an empty pot moves `next_fortune` past `cookie_index`, in a new pot to 1 |
| Fortune.FirstBytesSkipped | 6-semestr/lab4/part2/fortune.c:36-57 | after that, reads of the first cookie written skip as many bytes, unless it is no longer than that |
| Fortune.FaultIsInvisible | 6-semestr/lab4/part2/fortune.c:48-57 | a faulting copy leaves the state unchanged if and only if no wrap was due, and a read right after it gives the same either way |
| Fortune.FaultThenWrite | 6-semestr/lab4/part2/fortune.c:36-57 | with a write in between, the fault makes no difference if and only if no wrap was due |
| Fortune.LapStep | 6-semestr/lab4/part2/fortune.c:22-61 | a write, read or fault keeps "the bytes copied since the last wrap are the pot up to `next_fortune`" if and only if it is not an effective read of an empty pot; no cookie is ever overwritten |
| Fortune.Laps | 6-semestr/lab4/part2/fortune.c:22-61 | over any run, with any short reads: that holds all along if and only if no effective read of an empty pot is made, and then at a wrap the bytes copied since the wrap before are exactly the pot |
| Fortune.CookiesStay | 6-semestr/lab4/part2/fortune.c:22-61 | over any run whatever, cookies once written stay |
| CookieJar.JoinSplit | 6-semestr/lab4/part2/fortune.c:36-37 | joining the pieces of a pot cut at its NULs gives back the pot |
| CookieJar.SplitJoin | 6-semestr/lab4/part2/fortune.c:36-37 | cutting joined cookies at the NULs gives back the cookies |
| CookieJar.WriteRefines | 6-semestr/lab4/part2/fortune.c:22-39 | a write adds to the list the pieces between its NULs; without an interior NUL, one cookie: the bytes written but the last |
| CookieJar.ReadRefines | 6-semestr/lab4/part2/fortune.c:41-61 | a read takes what is left of the cookie at the cursor with its NUL, or the front of that if `len` is less, and moves the cursor and the offset on, from the last cookie back to the first; a read of an empty pot leaves pot and list in step if and only if `len` is 0 |
| CookieJar.ExecRefines | 6-semestr/lab4/part2/fortune.c:22-61 | a write, short read or fault does to the pot what it does to the list of cookies if and only if it is not an effective read of an empty pot, and then copies the same bytes |
| CookieJar.RunRefines | 6-semestr/lab4/part2/fortune.c:22-61 | over any run, the pot stays in step with the list of cookies if and only if there is no effective read of an empty pot, and then the bytes copied call by call are those the list gives |
| CookieJar.Cyclic | 6-semestr/lab4/part2/fortune.c:48-58 | from index 0 the k-th long enough read returns cookie k mod n |
| TreeWalk.Walker.constructor | 6-semestr/lab2/main.c:22 | all counters start at 0 |
| TreeWalk.Walker.Count | 6-semestr/lab2/main.c:95-129 | `counter` adds one to the counter of the kind it is given and to no other, and answers 0 or -1 |
| TreeWalk.Walker.Invoke | 6-semestr/lab2/main.c:63-75 | one call of the handler, recorded; with `counter` the counters go on counting the calls |
| TreeWalk.Walker.DoPath | 6-semestr/lab2/main.c:55-93 | for any tree, path and handler: the calls made are the pre-order of the tree up to the first non-zero answer, which is returned; the working directory is left as `Leaves` says |
| TreeWalk.Walker.DoEntries | 6-semestr/lab2/main.c:78-85 | the loop over the entries: their walks in directory order up to the first non-zero answer, in a working directory that each of them gives back |
| TreeWalk.Restored | 6-semestr/lab2/main.c:77-87 | the working directory comes back if and only if the walk did not go in, or went into something right below, or from the root to itself |
| TreeWalk.RestoredByName | 6-semestr/lab2/main.c:77-87 | for a single name: if and only if it is not "." or "..", or the working directory is the root, or the walk did not go in |
| Paths.LocateName | 6-semestr/lab2/main.c:62-77 | a single name leads one step on from the working directory |
| Paths.ComponentsJoin | 6-semestr/lab2/main.c:62-77 | the components of two paths joined by "/" are those of the one and then those of the other |
| Paths.LocateAbsolute | 6-semestr/lab2/main.c:33-62 | a path that starts with "/" does not depend on the working directory |
| Paths.LocateRootName | 6-semestr/lab2/main.c:33-62 | "/" and a name lead to the entry of the root |
| Paths.LocateMore | 6-semestr/lab2/main.c:62-87 | a path to a directory, "/" and a name lead to that directory for ".", to the one above for "..", and otherwise to its entry |
| Paths.DownAndUp | 6-semestr/lab2/main.c:77-87 | down into a directory and up by ".." leads back |
| Paths.LocateSlash | 6-semestr/lab2/main.c:62-77 | a "/" at the end asks for a directory |
| Paths.LocateNothing | 6-semestr/lab2/main.c:62 | the empty path leads nowhere, and no path leads on from a file or a name that is not there |
| Paths.ThroughLink | 6-semestr/lab2/main.c:62-77 | a symbolic link inside a path stands for its target, seen from the directory it is in, and uses up one of the links that may be followed |
| Paths.LinkLoop | 6-semestr/lab2/main.c:62-77 | a link to itself leads nowhere |
| TreeWalk.DirectoryFirst | 6-semestr/lab2/main.c:71-85 | a directory is called before its entries, and each entry after the ones before it in the directory |
| TreeWalk.UnreadableReported | 6-semestr/lab2/main.c:71-75 | every report of an unreadable directory comes right after its call as a directory |
| TreeWalk.OfferCuts | 6-semestr/lab2/main.c:71-92 | "up to the first non-zero answer": a prefix of the calls, all answered 0 but the last if the walk was stopped, all of them if it was not |
| TreeWalk.OfferConcat | 6-semestr/lab2/main.c:78-85 | a walk stopped in one child does not go on to the next |
| TreeWalk.ChildTarget | 6-semestr/lab2/main.c:77-83 | after `chdir`, the relative name of an entry means that entry |
| TreeWalk.HitsInTree | 6-semestr/lab2/main.c:95-129 | counting the calls of a full walk by kind counts the nodes of that kind |
| TreeWalk.AnswersInTree | 6-semestr/lab2/main.c:95-129 | `counter` answers 0 to every call if and only if every node can be examined and every directory read |
| TreeWalk.TotalIsLength | 6-semestr/lab2/main.c:35 | every call answered 0 is counted by exactly one of the seven counters |
| TreeWalk.CallsAreNodes | 6-semestr/lab2/main.c:55-93 | an accessible tree takes one call for each node |
| TreeWalk.WalkEnds | 6-semestr/lab2/main.c:55-129 | with `counter`: 0 if and only if accessible, then each counter is the nodes of its kind and the sum is the nodes; otherwise -1, and the sum is the calls before the failing one |
| TreeWalk.Walker.Run | 6-semestr/lab2/main.c:33-38 | the same for the program, whose total is at least 1 |
| SharedOffset.Description.Read | 6-semestr/lab5/1.c:21 | `read` takes the next bytes and moves the shared offset over them |
| SharedOffset.Stream.constructor | 6-semestr/lab5/1.c:23-29 | a stream starts with an empty buffer |
| SharedOffset.Stream.Scan | 6-semestr/lab5/1.c:35 | the next buffered byte; an empty buffer is first refilled from the shared offset; end of file if that gives nothing |
| SharedOffset.Turn | 6-semestr/lab5/1.c:34-42 | one round: a byte from each stream, in this order, with the flags set as `fscanf` returns |
| SharedOffset.TurnKeeps | 6-semestr/lab5/1.c:33-43 | a round moves bytes from the two buffers and the file to the output and loses none |
| SharedOffset.PlanMoves | 6-semestr/lab5/1.c:33-43 | with equal buffers a round shows the front of the shuffle still to come |
| SharedOffset.LoopStep | 6-semestr/lab5/1.c:32-43 | each round keeps the loop invariant, and what is left shrinks by what was shown |
| SharedOffset.ShuffleAt | 6-semestr/lab5/1.c:32-43 | where each byte of the output comes from, block by block, the ragged last one included |
| SharedOffset.FullBlock | 6-semestr/lab5/1.c:32-43 | in a full block of 2B bytes outputs 2r and 2r + 1 are bytes r and B + r |
| SharedOffset.ShufflePermutes | 6-semestr/lab5/1.c:32-43 | the shuffle is a permutation of the file |
| SharedOffset.Alternate | 6-semestr/lab5/1.c:18-45 | the loop ends; its output is a permutation of the file for any two buffer sizes, and the shuffle for equal ones |
| MemProbe.Machine.Store | 5-semestr/lab2/main.asm:231-234 | a store to an absent byte changes nothing |
| MemProbe.Machine.CreateNumber | 5-semestr/lab2/main.asm:87-95 | a digit becomes its character, with the colour |
| MemProbe.Machine.PrintDigit | 5-semestr/lab2/main.asm:107-114 | the lowest digit goes to the screen, EAX is rotated by it |
| MemProbe.Machine.PrintEax | 5-semestr/lab2/main.asm:98-119 | with interrupts off: eight hexadecimal characters that read back to EAX, nothing else on the screen changed, and EAX, ECX and DX as before |
| MemProbe.RorDigits | 5-semestr/lab2/main.asm:112 | rotating the register rotates its digits |
| MemProbe.ReadValue | 5-semestr/lab2/main.asm:107-114 | the characters of the digits, right to left, read back to the number |
| MemProbe.HexCharIs | 5-semestr/lab2/main.asm:87-95 | the character of a digit is the one hexadecimal notation has for it, with capital letters, and reads back to the digit |
| MemProbe.ReadHexPlaces | 5-semestr/lab2/main.asm:107-114 | reading is positional: "10" is sixteen, and a zero in front makes no difference |
| MemProbe.Count32Is | 5-semestr/lab2/main.asm:168-169 | a 32-bit counter after k increments is the sum as long as it fits, agrees with it modulo 2^32, and is back at its start after 2^32 |
| MemProbe.Machine.Boundary | 5-semestr/lab2/main.asm:142-180 | between two instructions any number of timer interrupts may come: they keep all registers but EDI, and print only in their own cells |
| MemProbe.InStepNext | 5-semestr/lab2/main.asm:107-114 | one more digit with interrupts on, 10 or 11 instructions: in its place if and only if no timer interrupt has come since EDI was set, otherwise astray, outside the cells of the size |
| MemProbe.PlacedShows | 5-semestr/lab2/main.asm:244-246 | the number can be read from its eight cells when all digits are in place, and only then unless the leftmost cell held a digit before |
| MemProbe.Machine.LiveDigit | 5-semestr/lab2/main.asm:107-114 | one round of `prcyc1` takes 10 instructions, 11 for a letter; the digit is stored after 7 or 8, where EDI points if no timer interrupt came before, otherwise at 158 |
| MemProbe.Machine.LivePrint | 5-semestr/lab2/main.asm:98-119 | with interrupts on: a digit is in place if and only if no timer interrupt came before the clock of its store, which `StoreTime` gives from the digits; EAX, ECX and DX as before |
| MemProbe.Machine.LiveSize | 5-semestr/lab2/main.asm:221-237 | the sizing loop leaves every byte as it was and stops at the first absent byte, whatever interrupts come, after 7 instructions for each byte present |
| MemProbe.Machine.ComputeMemory | 5-semestr/lab2/main.asm:220-248 | whatever timer interrupts come: every byte of memory is as before, EAX is the address where probing stops divided by 2^20, and `time_08` has gone up by the interrupts that came; the screen shows the size if and, unless the leftmost cell already held a digit, only if none comes at the instructions from `mov edi,20` to the last store, whose numbers `LiveFrom` and `LiveTo` give from the memory installed |
| MemProbe.Machine.ComputeUnderFire | 5-semestr/lab2/main.asm:159-248 | with an interrupt at every instruction, on a screen without a digit in the leftmost cell, the size cannot be read |
| MemProbe.SizeIsRight | 5-semestr/lab2/main.asm:224-242 | that is the number of megabytes installed if and only if there is 1 MB or more and less than 4 GB |
| MemProbe.Machine.TimerTick | 5-semestr/lab2/main.asm:159-179 | the interrupt shows the count and adds one, from 0FFFFFFFFh back to 0; all registers but EDI come back |
| MemProbe.Machine.Ticks | 5-semestr/lab2/main.asm:159-179 | k interrupts add k to `time_08` modulo 2^32, and the screen shows the count the last one found |

## Left out

- EventLock: sleeps, thread creation and `WaitForMultipleObjects`; `value` and the interlocked counters are unbounded integers; memory is sequentially consistent; fewer than 2^32 threads.
- EventLock and SemLock: fairness of the scheduler and of the kernel's queues; the results hold for every schedule.
- ProdCons.Program.constructor: the segment mapped has room for all that is produced; `ProdCons.SegmentIff` says when the N + 2 ints asked for have.
- ProdCons.Program.ProducerStep: `output` and `i` are unbounded integers; `char cur` has eight bits and a sign.
- ProdCons and SemLock: failures of `semop`, the upper limit on semaphore values, signals, `fork` and `shmget` errors, and sleeps.
- Fortune.Module.constructor: of the memory around the pot, one byte on each side is modelled; no accepted write reaches further.
- Fortune: the `len` returned on line 60 is not the number of bytes copied; the model returns it as the code does and gives the bytes copied as a result of its own. `copy_from_user` pads with zeros what does not arrive; a faulting `copy_to_user` is taken to copy nothing.
- Fortune: the `/proc` entries, allocation failures and module unloading.
- TreeWalk.Walker.DoPath: a directory can be searched even when it cannot be read; `chdir` succeeds where `opendir` has; nothing else changes the tree during the walk.
- TreeWalk: kinds of file outside the seven; `closedir` errors; the printed lines, their depth and the percentages.
- SharedOffset.Stream.Scan: a C library may use less of the buffer than it is given; the sizes here are what one refill asks for. Read errors are left out.
- MemProbe: mode switching, descriptor tables, the interrupt controllers and port I/O.
- MemProbe.Machine.ComputeMemory: the keyboard interrupt, which gives back all registers and prints elsewhere, the bus and the cache; an absent byte always reads as 00h or 0FFh.
- MemProbe.Machine.TimerTick: segment registers. `compute_memory` has DS on the flat segment while interrupts are on, and `new_int08` does not reload it; it reaches `time_08` through CS (line 23). `time_08`, the stack and the screen, all below the bytes probed, are not part of the modelled memory.
- `5-semestr/lab6/a.c`: its read event starts signalled (line 104), so exclusion between readers and writers is not a property of it.
- `5-semestr/lab5/v2.c`: the protocol of `task1.c` with a letter pointer that is never set.
- `6-semestr/lab4/part2/main.c`: a simpler pot without the bound check and the wrap.
- `6-semestr/lab6/part_02/server.c`: sockets, and a slot table that loses descriptors.
- Daemon set-up, `/proc` dumps, the other kernel modules, pipe and fork demos: system calls in sequence.
