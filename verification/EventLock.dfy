/** Readers and writers on one mutex and two manual-reset events
    (5-semestr/lab6/main.cpp). A thread is a program counter named after the
    source line it is about to execute; every C statement that is not a single
    interlocked or kernel operation is split into its load and its store. */
module EventLock {
  import opened Options
  import opened PrintLog
  import opened Tally

  /** Program counters of a reader: lines 31-67. */
  datatype ReaderPc =
    | R61 | R32 | R33 | R35 | R36 | R37Load | R37Store | R38 | R39 | R40 | R41
    | R63 | R53 | R54Load | R54Store | R54Set | R55 | R67

  /** Program counters of a writer: lines 19-29, 46-50 and 70-79. */
  datatype WriterPc =
    | W73 | W20 | W21 | W22 | W23Load | W23Store | W24 | W26 | W27 | W28
    | W75Load | W75Store | W47 | W48Load | W48Store | W48Set | W49 | W79

  /** A thread: where it is, the register holding its last load, its loop variable
      and its number of iterations (ITER in the source, the same for all threads). */
  datatype Thread =
    | Reader(rpc: ReaderPc, reg: int, i: nat, quota: nat)
    | Writer(wpc: WriterPc, reg: int, i: nat, quota: nat)

  /** The global variables and kernel objects. */
  datatype Shared = Shared(
    mutex: Option<nat>,
    eventRead: bool,
    eventWrite: bool,
    readCount: int,
    writCount: int,
    activeReaders: int,
    waitingReaders: int,
    waitingWriters: int,
    value: int,
    printed: seq<Line>)

  datatype State = State(g: Shared, threads: seq<Thread>)

  const WORD: int := 0x1_0000_0000

  // Increment and decrement of an `unsigned int`.
  function Inc32(x: int): int { (x + 1) % WORD }
  function Dec32(x: int): int { (x - 1) % WORD }

  // ---------------------------------------------------------------- the steps

  /** A thread is blocked on the mutex while somebody owns it and on an event
      while it is not signalled; every other statement can run. */
  predicate CanRun(g: Shared, th: Thread) {
    match th
    case Reader(pc, _, _, _) =>
      (match pc
       case R67 => false
       case R33 => g.eventRead
       case R35 => g.mutex.None?
       case R39 => g.mutex.None?
       case _ => true)
    case Writer(pc, _, _, _) =>
      (match pc
       case W79 => false
       case W26 => g.eventWrite
       case W21 => g.mutex.None?
       case W27 => g.mutex.None?
       case _ => true)
  }

  /** ReleaseMutex does nothing when the caller is not the owner. */
  function Release(g: Shared, t: nat): Shared {
    if g.mutex == Some(t) then g.(mutex := None) else g
  }

  /** What reader `t` does next to the shared state and to itself. */
  function ReaderMove(t: nat, g: Shared, th: Thread): (Shared, Thread)
    requires th.Reader? && CanRun(g, th)
  {
    match th.rpc
    case R61 => (g, th.(rpc := if th.i < th.quota then R32 else R67))
    case R32 => (g.(waitingReaders := g.waitingReaders + 1), th.(rpc := R33))
    case R33 => (g, th.(rpc := R35))
    case R35 => (g.(mutex := Some(t)), th.(rpc := R36))
    case R36 => (g.(eventWrite := false), th.(rpc := R37Load))
    case R37Load => (g, th.(rpc := R37Store, reg := g.readCount))
    case R37Store => (g.(readCount := Inc32(th.reg)), th.(rpc := R38))
    case R38 => (Release(g, t), th.(rpc := R39))
    case R39 => (g.(mutex := Some(t)), th.(rpc := R40))
    case R40 => (g.(waitingReaders := g.waitingReaders - 1), th.(rpc := R41))
    case R41 => (g.(activeReaders := g.activeReaders + 1), th.(rpc := R63))
    case R63 => (g.(printed := g.printed + [Line(t, false, g.value)]), th.(rpc := R53))
    case R53 => (g.(activeReaders := g.activeReaders - 1), th.(rpc := R54Load))
    case R54Load => (g, th.(rpc := R54Store, reg := g.readCount))
    case R54Store => (g.(readCount := Dec32(th.reg)), th.(rpc := if Dec32(th.reg) == 0 then R54Set else R55))
    case R54Set => (g.(eventWrite := true), th.(rpc := R55))
    case R55 => (Release(g, t), th.(rpc := R61, i := th.i + 1))
  }

  /** What writer `t` does next to the shared state and to itself. */
  function WriterMove(t: nat, g: Shared, th: Thread): (Shared, Thread)
    requires th.Writer? && CanRun(g, th)
  {
    match th.wpc
    case W73 => (g, th.(wpc := if th.i < th.quota then W20 else W79))
    case W20 => (g.(waitingWriters := g.waitingWriters + 1), th.(wpc := W21))
    case W21 => (g.(mutex := Some(t)), th.(wpc := W22))
    case W22 => (g.(eventRead := false), th.(wpc := W23Load))
    case W23Load => (g, th.(wpc := W23Store, reg := g.writCount))
    case W23Store => (g.(writCount := Inc32(th.reg)), th.(wpc := W24))
    case W24 => (Release(g, t), th.(wpc := W26))
    case W26 => (g, th.(wpc := W27))
    case W27 => (g.(mutex := Some(t)), th.(wpc := W28))
    case W28 => (g.(waitingWriters := g.waitingWriters - 1), th.(wpc := W75Load))
    case W75Load => (g, th.(wpc := W75Store, reg := g.value))
    case W75Store =>
      (g.(value := th.reg + 1, printed := g.printed + [Line(t, true, th.reg + 1)]), th.(wpc := W47))
    case W47 => (g.(waitingWriters := g.waitingWriters + 1), th.(wpc := W48Load))
    case W48Load => (g, th.(wpc := W48Store, reg := g.writCount))
    case W48Store => (g.(writCount := Dec32(th.reg)), th.(wpc := if Dec32(th.reg) == 0 then W48Set else W49))
    case W48Set => (g.(eventRead := true), th.(wpc := W49))
    case W49 => (Release(g, t), th.(wpc := W73, i := th.i + 1))
  }

  function Move(t: nat, g: Shared, th: Thread): (Shared, Thread)
    requires CanRun(g, th)
  {
    if th.Reader? then ReaderMove(t, g, th) else WriterMove(t, g, th)
  }

  predicate Enabled(s: State, t: nat) {
    t < |s.threads| && CanRun(s.g, s.threads[t])
  }

  function Next(s: State, t: nat): State
    requires Enabled(s, t)
  {
    var (g, th) := Move(t, s.g, s.threads[t]);
    State(g, s.threads[t := th])
  }

  predicate Finished(th: Thread) {
    if th.Reader? then th.rpc.R67? else th.wpc.W79?
  }

  predicate AtStart(th: Thread) {
    th.i == 0 && if th.Reader? then th.rpc.R61? else th.wpc.W73?
  }

  /** The state `Handles_go` and `Create_Threads` set up: both events signalled,
      the mutex free, all counters 0, every thread at its loop head. A process
      has fewer than 2^32 threads, since Windows numbers them with a DWORD. */
  predicate Init(s: State) {
    && s.g == Shared(None, true, true, 0, 0, 0, 0, 0, 0, [])
    && |s.threads| < WORD
    && forall t :: 0 <= t < |s.threads| ==> AtStart(s.threads[t])
  }

  // ------------------------------------------------------------ the invariant

  /** Lines between a successful wait for the mutex and its release. */
  predicate Owns(th: Thread) {
    match th
    case Reader(pc, _, _, _) =>
      pc in {R36, R37Load, R37Store, R38, R40, R41, R63, R53, R54Load, R54Store, R54Set, R55}
    case Writer(pc, _, _, _) =>
      pc in {W22, W23Load, W23Store, W24, W28, W75Load, W75Store, W47, W48Load, W48Store, W48Set, W49}
  }

  predicate MutexInv(s: State) {
    && (s.g.mutex.Some? ==> s.g.mutex.value < |s.threads|)
    && forall t :: 0 <= t < |s.threads| ==> (Owns(s.threads[t]) <==> s.g.mutex == Some(t))
  }

  /** What a thread may rely on about its own register and loop variable. */
  predicate LocalOk(g: Shared, th: Thread) {
    && th.i <= th.quota
    && match th
       case Reader(pc, reg, i, quota) =>
         && (pc !in {R61, R67} ==> i < quota)
         && (pc == R67 ==> i == quota)
         && (pc in {R37Store, R54Store} ==> reg == g.readCount)
         && (pc == R54Set ==> g.readCount == 0)
       case Writer(pc, reg, i, quota) =>
         && (pc !in {W73, W79} ==> i < quota)
         && (pc == W79 ==> i == quota)
         && (pc in {W23Store, W48Store} ==> reg == g.writCount)
         && (pc == W75Store ==> reg == g.value)
         && (pc == W48Set ==> g.writCount == 0)
  }

  predicate LocalInv(s: State) {
    forall t :: 0 <= t < |s.threads| ==> LocalOk(s.g, s.threads[t])
  }

  /** A writer that has reset `event_read` but not yet counted itself, or has
      counted itself out but not yet set the event again. */
  predicate ReadLag(th: Thread) {
    th.Writer? && th.wpc in {W23Load, W23Store, W48Set}
  }

  predicate WriteLag(th: Thread) {
    th.Reader? && th.rpc in {R37Load, R37Store, R54Set}
  }

  /** `event_read` is signalled exactly when no writer is counted, `event_write`
      exactly when no reader is, except where thread `th` is in between. */
  predicate EventsAgree(g: Shared, th: Thread) {
    && (g.eventRead <==> g.writCount == 0 && !ReadLag(th))
    && (g.eventWrite <==> g.readCount == 0 && !WriteLag(th))
  }

  predicate EventInv(s: State)
    requires MutexInv(s)
  {
    match s.g.mutex
    case Some(t) => EventsAgree(s.g, s.threads[t])
    case None => (s.g.eventRead <==> s.g.writCount == 0) && (s.g.eventWrite <==> s.g.readCount == 0)
  }

  // Who is counted by which counter.
  /** Readers between the increment on line 37 and the decrement on line 54. */
  function InReadCount(th: Thread): int {
    Counted(th.Reader? && th.rpc in {R38, R39, R40, R41, R63, R53, R54Load, R54Store})
  }

  /** Writers between the increment on line 23 and the decrement on line 48. */
  function InWritCount(th: Thread): int {
    Counted(th.Writer? && th.wpc in {W24, W26, W27, W28, W75Load, W75Store, W47, W48Load, W48Store})
  }

  function Waiting(th: Thread): int {
    Counted(th.Reader? && th.rpc in {R33, R35, R36, R37Load, R37Store, R38, R39, R40})
  }

  function Active(th: Thread): int {
    Counted(th.Reader? && th.rpc in {R63, R53})
  }

  /** A writer counts itself once while it waits and once more, for ever, per write. */
  function WriterWaits(th: Thread): int {
    if th.Reader? then 0
    else (th.i
          + Counted(th.wpc in {W21, W22, W23Load, W23Store, W24, W26, W27, W28})
          + Counted(th.wpc in {W48Load, W48Store, W48Set, W49}))
  }

  /** Writes a thread has completed. */
  function WritesDone(th: Thread): int {
    if th.Reader? then 0
    else th.i + Counted(th.wpc in {W47, W48Load, W48Store, W48Set, W49})
  }

  predicate CountInv(s: State) {
    && |s.threads| < WORD
    && s.g.readCount == Sum(s.threads, InReadCount)
    && s.g.writCount == Sum(s.threads, InWritCount)
    && s.g.waitingReaders == Sum(s.threads, Waiting)
    && s.g.activeReaders == Sum(s.threads, Active)
    && s.g.waitingWriters == Sum(s.threads, WriterWaits)
    && s.g.value == Sum(s.threads, WritesDone)
  }

  predicate LogInv(g: Shared) {
    g.value == Sum(g.printed, WriteLine) && PrintedInOrder(g.printed)
  }

  predicate Inv(s: State) {
    MutexInv(s) && LocalInv(s) && EventInv(s) && CountInv(s) && LogInv(s.g)
  }

  lemma InitInv(s: State)
    requires Init(s)
    ensures Inv(s)
  {
    SumZero(s.threads, InReadCount);
    SumZero(s.threads, InWritCount);
    SumZero(s.threads, Waiting);
    SumZero(s.threads, Active);
    SumZero(s.threads, WriterWaits);
    SumZero(s.threads, WritesDone);
  }

  // Facts about one move, with no other thread in sight.

  /** Who owns the mutex after a move. */
  lemma MoveMutex(t: nat, g: Shared, th: Thread)
    requires CanRun(g, th) && (Owns(th) <==> g.mutex == Some(t))
    ensures var (g', th') := Move(t, g, th);
            && (Owns(th') <==> g'.mutex == Some(t))
            && (g'.mutex == g.mutex || (g.mutex.None? && Owns(th')) || (Owns(th) && g'.mutex.None?))
  {
  }

  lemma MoveLocal(t: nat, g: Shared, th: Thread)
    requires CanRun(g, th) && LocalOk(g, th)
    ensures LocalOk(Move(t, g, th).0, Move(t, g, th).1)
  {
  }

  /** Only the owner of the mutex changes the variables the mutex guards. */
  lemma MoveGuarded(t: nat, g: Shared, th: Thread)
    requires CanRun(g, th) && !Owns(th)
    ensures Move(t, g, th).0 == g.(mutex := Move(t, g, th).0.mutex,
                                   waitingReaders := Move(t, g, th).0.waitingReaders,
                                   waitingWriters := Move(t, g, th).0.waitingWriters)
  {
  }

  // The two `unsigned` counts move with their weights, as long as they cannot wrap.

  lemma MoveReadCount(t: nat, g: Shared, th: Thread)
    requires CanRun(g, th) && LocalOk(g, th)
    requires InReadCount(th) <= g.readCount <= WORD - 2 + InReadCount(th)
    ensures Move(t, g, th).0.readCount - g.readCount == InReadCount(Move(t, g, th).1) - InReadCount(th)
  {
  }

  lemma MoveWritCount(t: nat, g: Shared, th: Thread)
    requires CanRun(g, th) && LocalOk(g, th)
    requires InWritCount(th) <= g.writCount <= WORD - 2 + InWritCount(th)
    ensures Move(t, g, th).0.writCount - g.writCount == InWritCount(Move(t, g, th).1) - InWritCount(th)
  {
  }

  /** The interlocked counters and `value` move with their weights. */
  lemma MoveReaderTallies(t: nat, g: Shared, th: Thread)
    requires CanRun(g, th) && LocalOk(g, th)
    ensures var (g', th') := Move(t, g, th);
            && g'.waitingReaders - g.waitingReaders == Waiting(th') - Waiting(th)
            && g'.activeReaders - g.activeReaders == Active(th') - Active(th)
  {
  }

  lemma MoveWriterTallies(t: nat, g: Shared, th: Thread)
    requires CanRun(g, th) && LocalOk(g, th)
    ensures var (g', th') := Move(t, g, th);
            && g'.waitingWriters - g.waitingWriters == WriterWaits(th') - WriterWaits(th)
  {
  }

  lemma MoveValue(t: nat, g: Shared, th: Thread)
    requires CanRun(g, th) && LocalOk(g, th)
    ensures var (g', th') := Move(t, g, th);
            && g'.value - g.value == WritesDone(th') - WritesDone(th)
  {
  }

  /** A move of the owner keeps the events in step with the counts. */
  lemma MoveEvents(t: nat, g: Shared, th: Thread)
    requires CanRun(g, th) && LocalOk(g, th) && g.mutex == Some(t) && Owns(th)
    requires EventsAgree(g, th)
    requires InReadCount(th) <= g.readCount && InWritCount(th) <= g.writCount
    requires InReadCount(Move(t, g, th).1) <= Move(t, g, th).0.readCount
    requires InWritCount(Move(t, g, th).1) <= Move(t, g, th).0.writCount
    ensures EventsAgree(Move(t, g, th).0, Move(t, g, th).1)
  {
  }

  // -------------------------------------------------- the invariant is inductive

  lemma CountsAfter(s: State, t: nat, g: Shared, th: Thread)
    requires CountInv(s) && t < |s.threads|
    requires g.readCount - s.g.readCount == InReadCount(th) - InReadCount(s.threads[t])
    requires g.writCount - s.g.writCount == InWritCount(th) - InWritCount(s.threads[t])
    requires g.waitingReaders - s.g.waitingReaders == Waiting(th) - Waiting(s.threads[t])
    requires g.activeReaders - s.g.activeReaders == Active(th) - Active(s.threads[t])
    requires g.waitingWriters - s.g.waitingWriters == WriterWaits(th) - WriterWaits(s.threads[t])
    requires g.value - s.g.value == WritesDone(th) - WritesDone(s.threads[t])
    ensures CountInv(State(g, s.threads[t := th]))
  {
    SumUpdate(s.threads, InReadCount, t, th);
    SumUpdate(s.threads, InWritCount, t, th);
    SumUpdate(s.threads, Waiting, t, th);
    SumUpdate(s.threads, Active, t, th);
    SumUpdate(s.threads, WriterWaits, t, th);
    SumUpdate(s.threads, WritesDone, t, th);
  }

  lemma StepCounts(s: State, t: nat)
    requires LocalInv(s) && CountInv(s) && Enabled(s, t)
    ensures CountInv(Next(s, t))
  {
    SumCounts(s.threads, InReadCount, t);
    SumCounts(s.threads, InWritCount, t);
    MoveReadCount(t, s.g, s.threads[t]);
    MoveWritCount(t, s.g, s.threads[t]);
    MoveReaderTallies(t, s.g, s.threads[t]);
    MoveWriterTallies(t, s.g, s.threads[t]);
    MoveValue(t, s.g, s.threads[t]);
    CountsAfter(s, t, Move(t, s.g, s.threads[t]).0, Move(t, s.g, s.threads[t]).1);
  }

  lemma StepLocals(s: State, t: nat)
    requires MutexInv(s) && LocalInv(s) && Enabled(s, t)
    ensures MutexInv(Next(s, t)) && LocalInv(Next(s, t))
  {
    MoveMutex(t, s.g, s.threads[t]);
    MoveLocal(t, s.g, s.threads[t]);
    if !Owns(s.threads[t]) { MoveGuarded(t, s.g, s.threads[t]); }
  }

  lemma EventsAfter(s: State, t: nat, g: Shared, th: Thread)
    requires t < |s.threads| && MutexInv(s) && EventInv(s) && MutexInv(State(g, s.threads[t := th]))
    requires Owns(s.threads[t]) ==> EventsAgree(g, th)
    requires !Owns(s.threads[t]) ==>
               && g.eventRead == s.g.eventRead && g.writCount == s.g.writCount
               && g.eventWrite == s.g.eventWrite && g.readCount == s.g.readCount
               && !ReadLag(th) && !WriteLag(th)
               && (g.mutex == s.g.mutex || (s.g.mutex.None? && g.mutex == Some(t)))
    ensures EventInv(State(g, s.threads[t := th]))
  {
  }

  lemma MoveNewOwner(t: nat, g: Shared, th: Thread)
    requires CanRun(g, th) && !Owns(th)
    ensures !ReadLag(Move(t, g, th).1) && !WriteLag(Move(t, g, th).1)
  {
  }

  lemma StepEvents(s: State, t: nat)
    requires MutexInv(s) && LocalInv(s) && EventInv(s) && CountInv(s) && Enabled(s, t)
    requires MutexInv(Next(s, t)) && CountInv(Next(s, t))
    ensures EventInv(Next(s, t))
  {
    var (g, th) := Move(t, s.g, s.threads[t]);
    MoveMutex(t, s.g, s.threads[t]);
    if Owns(s.threads[t]) {
      SumCounts(s.threads, InReadCount, t);
      SumCounts(s.threads, InWritCount, t);
      SumCounts(s.threads[t := th], InReadCount, t);
      SumCounts(s.threads[t := th], InWritCount, t);
      MoveEvents(t, s.g, s.threads[t]);
    } else {
      MoveGuarded(t, s.g, s.threads[t]);
      MoveNewOwner(t, s.g, s.threads[t]);
    }
    EventsAfter(s, t, g, th);
  }

  lemma StepLog(t: nat, g: Shared, th: Thread)
    requires CanRun(g, th) && LocalOk(g, th) && LogInv(g)
    ensures LogInv(Move(t, g, th).0)
  {
    if th.Reader? && th.rpc == R63 {
      LogAfter(g.printed, Line(t, false, g.value));
    } else if th.Writer? && th.wpc == W75Store {
      LogAfter(g.printed, Line(t, true, th.reg + 1));
    }
  }

  lemma StepInv(s: State, t: nat)
    requires Inv(s) && Enabled(s, t)
    ensures Inv(Next(s, t))
  {
    StepLocals(s, t);
    StepCounts(s, t);
    StepEvents(s, t);
    StepLog(t, s.g, s.threads[t]);
  }

  // ---------------------------------------------------------------------- runs

  /** A schedule names, step by step, the thread that moves. */
  predicate Runs(s: State, sched: seq<nat>)
    decreases |sched|
  {
    sched == [] || (Enabled(s, sched[0]) && Runs(Next(s, sched[0]), sched[1..]))
  }

  function After(s: State, sched: seq<nat>): State
    requires Runs(s, sched)
    decreases |sched|
  {
    if sched == [] then s else After(Next(s, sched[0]), sched[1..])
  }

  lemma {:induction false} RunInv(s: State, sched: seq<nat>)
    requires Inv(s) && Runs(s, sched)
    ensures Inv(After(s, sched))
    ensures |After(s, sched).threads| == |s.threads|
    decreases |sched|
  {
    if sched != [] {
      StepInv(s, sched[0]);
      RunInv(Next(s, sched[0]), sched[1..]);
    }
  }

  predicate AtWait(th: Thread) {
    if th.Reader? then th.rpc in {R33, R35, R39} else th.wpc in {W21, W26, W27}
  }

  predicate AtRelease(th: Thread) {
    if th.Reader? then th.rpc in {R38, R55} else th.wpc in {W24, W49}
  }

  predicate AtDecrement(th: Thread) {
    if th.Reader? then th.rpc == R54Store else th.wpc == W48Store
  }

  /** At most one reader is active, and then it is alone in the critical section. */
  lemma OneActive(s: State)
    requires Inv(s)
    ensures 0 <= s.g.activeReaders <= 1
    ensures forall t :: 0 <= t < |s.threads| && Active(s.threads[t]) == 1 ==> s.g.mutex == Some(t)
  {
    SumCounts(s.threads, Active, 0);
    if s.g.activeReaders > 1 {
      SumPair(s.threads, Active);
    }
  }

  /** Neither `--read_count` nor `--writ_count` ever wraps below zero. */
  lemma NoUnderflow(s: State, t: nat)
    requires Inv(s) && t < |s.threads| && AtDecrement(s.threads[t])
    ensures s.threads[t].reg > 0 && Dec32(s.threads[t].reg) == s.threads[t].reg - 1
  {
    assert LocalOk(s.g, s.threads[t]);
    SumCounts(s.threads, InReadCount, t);
    SumCounts(s.threads, InWritCount, t);
  }

  /** What holds in every reachable state. */
  ghost predicate Safe(s: State) {
    // every counter counts its threads, and the lines printed are in order
    && CountInv(s)
    && 0 <= s.g.activeReaders <= 1
    && PrintedInOrder(s.g.printed)
    // with the mutex free, each event tells whether the other side is empty
    && (s.g.mutex.None? ==>
          (s.g.eventRead <==> s.g.writCount == 0) && (s.g.eventWrite <==> s.g.readCount == 0))
    // nobody waits while it owns the mutex, every release is by the owner, no decrement wraps
    && (forall t :: 0 <= t < |s.threads| ==>
          && (AtWait(s.threads[t]) ==> s.g.mutex != Some(t))
          && (AtRelease(s.threads[t]) ==> s.g.mutex == Some(t))
          && (AtDecrement(s.threads[t]) ==> s.threads[t].reg > 0))
    // reading and writing are mutually exclusive
    && (forall t, u :: 0 <= t < u < |s.threads| ==> !(Owns(s.threads[t]) && Owns(s.threads[u])))
  }

  lemma InvSafe(s: State)
    requires Inv(s)
    ensures Safe(s)
  {
    OneActive(s);
    forall t | 0 <= t < |s.threads| && AtDecrement(s.threads[t]) ensures s.threads[t].reg > 0 {
      NoUnderflow(s, t);
    }
  }

  lemma NobodyCounted(ths: seq<Thread>, w: Thread -> int)
    requires forall j :: 0 <= j < |ths| ==> 0 <= w(ths[j]) <= 1
    requires Sum(ths, w) == 0
    ensures forall j :: 0 <= j < |ths| ==> w(ths[j]) == 0
  {
    SumBound(ths, w);
  }

  lemma SomebodyCounted(ths: seq<Thread>, w: Thread -> int)
    requires forall j :: 0 <= j < |ths| ==> 0 <= w(ths[j]) <= 1
    requires Sum(ths, w) != 0
    ensures exists j :: 0 <= j < |ths| && w(ths[j]) == 1
  {
    SumBound(ths, w);
    SumWitness(ths, w);
  }

  // -------------------------------------------------------------- who has to wait

  predicate AtMutex(th: Thread) {
    if th.Reader? then th.rpc in {R35, R39} else th.wpc in {W21, W27}
  }

  predicate AtReadGate(th: Thread) { th.Reader? && th.rpc == R33 }

  predicate AtWriteGate(th: Thread) { th.Writer? && th.wpc == W26 }

  /** An unfinished thread waits exactly at the mutex while somebody owns it, on line 33 while
      `event_read` is off and on line 26 while `event_write` is off. */
  lemma WaitsIff(s: State, t: nat)
    requires Inv(s) && t < |s.threads| && !Finished(s.threads[t])
    ensures !Enabled(s, t) <==>
            || (AtMutex(s.threads[t]) && exists o :: 0 <= o < |s.threads| && o != t && Owns(s.threads[o]))
            || (AtReadGate(s.threads[t]) && !s.g.eventRead)
            || (AtWriteGate(s.threads[t]) && !s.g.eventWrite)
  {
    if s.g.mutex.Some? { assert Owns(s.threads[s.g.mutex.value]); }
  }

  /** With the mutex free: on line 33 exactly while a writer is counted, on line 26 exactly
      while a reader is. */
  lemma WaitsForCounted(s: State, t: nat)
    requires Inv(s) && t < |s.threads| && !Finished(s.threads[t]) && s.g.mutex.None?
    ensures !Enabled(s, t) <==>
            || (AtReadGate(s.threads[t]) && exists w :: 0 <= w < |s.threads| && InWritCount(s.threads[w]) == 1)
            || (AtWriteGate(s.threads[t]) && exists r :: 0 <= r < |s.threads| && InReadCount(s.threads[r]) == 1)
  {
    if s.g.writCount == 0 { NobodyCounted(s.threads, InWritCount); } else { SomebodyCounted(s.threads, InWritCount); }
    if s.g.readCount == 0 { NobodyCounted(s.threads, InReadCount); } else { SomebodyCounted(s.threads, InReadCount); }
  }

  // ---------------------------------------------------------- deadlock freedom

  /** The owner of the mutex can always run. */
  lemma OwnerRuns(g: Shared, th: Thread)
    requires Owns(th)
    ensures CanRun(g, th)
  {
  }

  /** With the mutex free, a signalled-off event has a counted thread behind it that can run. */
  lemma BlockedEvent(s: State)
    requires Inv(s) && s.g.mutex.None?
    ensures !s.g.eventWrite ==> exists t: nat :: Enabled(s, t) && InReadCount(s.threads[t]) == 1
    ensures s.g.eventWrite && !s.g.eventRead ==> exists t: nat :: Enabled(s, t) && InWritCount(s.threads[t]) == 1
  {
    if !s.g.eventWrite {
      SumCounts(s.threads, InReadCount, 0);
      SumWitness(s.threads, InReadCount);
      var t :| 0 <= t < |s.threads| && InReadCount(s.threads[t]) > 0;
      assert s.threads[t].rpc == R39;
      assert Enabled(s, t);
    } else if !s.g.eventRead {
      SumCounts(s.threads, InWritCount, 0);
      SumWitness(s.threads, InWritCount);
      var t :| 0 <= t < |s.threads| && InWritCount(s.threads[t]) > 0;
      assert s.threads[t].wpc in {W26, W27};
      assert Enabled(s, t);
    }
  }

  /** No deadlock: while some thread is unfinished, some thread can run. */
  lemma DeadlockFree(s: State, u: nat)
    requires Inv(s) && u < |s.threads| && !Finished(s.threads[u])
    ensures exists t :: Enabled(s, t)
  {
    if s.g.mutex.Some? {
      OwnerRuns(s.g, s.threads[s.g.mutex.value]);
      assert Enabled(s, s.g.mutex.value);
    } else if !Enabled(s, u) {
      BlockedEvent(s);
    }
  }

  // ------------------------------------------------------------ who prints what

  /** Reads a thread has printed. */
  function ReadsDone(th: Thread): int {
    if th.Writer? then 0 else th.i + Counted(th.rpc in {R53, R54Load, R54Store, R54Set, R55})
  }

  /** Every line is printed by a thread, and every thread has printed a line for each of its
      reads or writes. */
  ghost predicate PrintInv(s: State) {
    && (forall k :: 0 <= k < |s.g.printed| ==> s.g.printed[k].who < |s.threads|)
    && (forall t :: 0 <= t < |s.threads| ==> Prints(s.g.printed, t, s.threads[t]))
  }

  predicate Prints(log: seq<Line>, t: nat, th: Thread) {
    Sum(log, By(t, false)) == ReadsDone(th) && Sum(log, By(t, true)) == WritesDone(th)
  }

  lemma InitPrints(s: State)
    requires Init(s)
    ensures PrintInv(s)
  {
  }

  /** Line 63 and line 75 print a line of the thread that runs them, and nothing else does. */
  lemma MoveLog(t: nat, g: Shared, th: Thread)
    requires CanRun(g, th)
    ensures var (g', th') := Move(t, g, th);
            && g'.printed == (if ReadsDone(th') + WritesDone(th') == ReadsDone(th) + WritesDone(th) then g.printed
                              else g.printed + [Line(t, th.Writer?, g'.value)])
            && ReadsDone(th') - ReadsDone(th) == Counted(th.Reader? && g'.printed != g.printed)
            && WritesDone(th') - WritesDone(th) == Counted(th.Writer? && g'.printed != g.printed)
  {
  }

  lemma MovePrints(t: nat, g: Shared, th: Thread, u: nat, other: Thread)
    requires CanRun(g, th) && Prints(g.printed, u, other) && (u == t ==> other == th)
    ensures Prints(Move(t, g, th).0.printed, u, if u == t then Move(t, g, th).1 else other)
  {
    var g' := Move(t, g, th).0;
    MoveLog(t, g, th);
    if g'.printed != g.printed {
      var l := Line(t, th.Writer?, g'.value);
      SumAppend(g.printed, By(u, false), l);
      SumAppend(g.printed, By(u, true), l);
    }
  }

  lemma StepPrints(s: State, t: nat)
    requires PrintInv(s) && Enabled(s, t)
    ensures PrintInv(Next(s, t))
  {
    var n := Next(s, t);
    MoveLog(t, s.g, s.threads[t]);
    forall u | 0 <= u < |n.threads| ensures Prints(n.g.printed, u, n.threads[u]) {
      MovePrints(t, s.g, s.threads[t], u, s.threads[u]);
    }
  }

  /** Over a run from the start, every thread has printed what it has read or written. */
  lemma {:induction false} RunPrints(s: State, sched: seq<nat>)
    requires PrintInv(s) && Runs(s, sched)
    ensures PrintInv(After(s, sched))
    decreases |sched|
  {
    if sched != [] {
      StepPrints(s, sched[0]);
      RunPrints(Next(s, sched[0]), sched[1..]);
    }
  }

  lemma ReachableStates(s0: State, sched: seq<nat>)
    requires Init(s0) && Runs(s0, sched)
    ensures Safe(After(s0, sched)) && PrintInv(After(s0, sched))
  {
    InitInv(s0);
    InitPrints(s0);
    RunInv(s0, sched);
    RunPrints(s0, sched);
    InvSafe(After(s0, sched));
  }

  // ---------------------------------------------------------------- termination

  /** How far into its loop body a thread is. */
  function Position(th: Thread): nat {
    match th
    case Reader(pc, _, _, _) =>
      (match pc
       case R61 => 0 case R32 => 1 case R33 => 2 case R35 => 3 case R36 => 4
       case R37Load => 5 case R37Store => 6 case R38 => 7 case R39 => 8 case R40 => 9
       case R41 => 10 case R63 => 11 case R53 => 12 case R54Load => 13 case R54Store => 14
       case R54Set => 15 case R55 => 16 case R67 => 1)
    case Writer(pc, _, _, _) =>
      (match pc
       case W73 => 0 case W20 => 1 case W21 => 2 case W22 => 3 case W23Load => 4
       case W23Store => 5 case W24 => 6 case W26 => 7 case W27 => 8 case W28 => 9
       case W75Load => 10 case W75Store => 11 case W47 => 12 case W48Load => 13
       case W48Store => 14 case W48Set => 15 case W49 => 16 case W79 => 1)
  }

  /** Every step goes on by one line; from line 48 or 54 past `SetEvent` unless the count is 0,
      and from the last line of the body, or from the end of the loop, where a loop goes. */
  lemma ProgramOrder(t: nat, g: Shared, th: Thread)
    requires CanRun(g, th)
    ensures var (g', th') := Move(t, g, th);
            && th'.Reader? == th.Reader? && th'.quota == th.quota
            && (Position(th) == 16 ==> Position(th') == 0 && th'.i == th.i + 1)
            && (Position(th) < 16 ==> th'.i == th.i)
            && (Position(th) == 0 ==> (Finished(th') <==> th.i >= th.quota) && Position(th') == 1)
            && (0 < Position(th) < 16 && Position(th) != 14 ==> Position(th') == Position(th) + 1 && !Finished(th'))
            && (Position(th) == 14 ==>
                  Position(th') == if (if th.Reader? then g'.readCount else g'.writCount) == 0 then 15 else 16)
  {
  }

  /** A bound on the steps a thread still has to make. */
  function StepsLeft(th: Thread): int {
    1 + 17 * (th.quota - th.i) - Position(th)
  }

  lemma LeftBound(g: Shared, th: Thread)
    requires LocalOk(g, th)
    ensures StepsLeft(th) >= 0
    ensures StepsLeft(th) == 0 <==> Finished(th)
  {
  }

  lemma MoveLeft(t: nat, g: Shared, th: Thread)
    requires CanRun(g, th) && LocalOk(g, th)
    ensures StepsLeft(Move(t, g, th).1) < StepsLeft(th)
  {
  }

  function Work(s: State): int { Sum(s.threads, StepsLeft) }

  function WriterQuota(th: Thread): int { if th.Writer? then th.quota else 0 }

  lemma WorkBound(s: State)
    requires LocalInv(s)
    ensures Work(s) >= 0
  {
    forall t | 0 <= t < |s.threads| ensures StepsLeft(s.threads[t]) >= 0 {
      LeftBound(s.g, s.threads[t]);
    }
    SumBound(s.threads, StepsLeft);
  }

  lemma StepWork(s: State, t: nat)
    requires LocalInv(s) && Enabled(s, t) && LocalInv(Next(s, t))
    ensures 0 <= Work(Next(s, t)) < Work(s)
  {
    MoveLeft(t, s.g, s.threads[t]);
    SumUpdate(s.threads, StepsLeft, t, Move(t, s.g, s.threads[t]).1);
    WorkBound(Next(s, t));
  }

  lemma MoveQuota(t: nat, g: Shared, th: Thread)
    requires CanRun(g, th)
    ensures WriterQuota(Move(t, g, th).1) == WriterQuota(th)
  {
  }

  lemma StepQuota(s: State, t: nat)
    requires Enabled(s, t)
    ensures |Next(s, t).threads| == |s.threads|
    ensures Sum(Next(s, t).threads, WriterQuota) == Sum(s.threads, WriterQuota)
  {
    MoveQuota(t, s.g, s.threads[t]);
    SumUpdate(s.threads, WriterQuota, t, Move(t, s.g, s.threads[t]).1);
  }

  lemma Advance(s: State, t: nat)
    requires Inv(s) && Enabled(s, t)
    ensures Inv(Next(s, t)) && 0 <= Work(Next(s, t)) < Work(s)
    ensures |Next(s, t).threads| == |s.threads|
    ensures Sum(Next(s, t).threads, WriterQuota) == Sum(s.threads, WriterQuota)
  {
    StepInv(s, t);
    StepWork(s, t);
    StepQuota(s, t);
  }

  /** No run is longer than the work at its start: from `Init`, at most
      17 steps per iteration and one more per thread. */
  lemma {:induction false} RunBound(s: State, sched: seq<nat>)
    requires Inv(s) && Runs(s, sched)
    ensures |sched| + Work(After(s, sched)) <= Work(s)
    decreases |sched|
  {
    if sched != [] {
      StepInv(s, sched[0]);
      StepWork(s, sched[0]);
      RunBound(Next(s, sched[0]), sched[1..]);
    }
  }

  // ------------------------------------------------------------ the end of a run

  lemma {:induction false} RunQuotas(s: State, sched: seq<nat>)
    requires Runs(s, sched)
    ensures Sum(After(s, sched).threads, WriterQuota) == Sum(s.threads, WriterQuota)
    decreases |sched|
  {
    if sched != [] {
      StepQuota(s, sched[0]);
      RunQuotas(Next(s, sched[0]), sched[1..]);
    }
  }

  /** Everything is back where it started, except that `value` counts all the
      writes and, because `StopWrite` increments it, so does `waiting_writers`. */
  ghost predicate Final(s: State, writes: int) {
    && (forall t :: 0 <= t < |s.threads| ==> Finished(s.threads[t]))
    && s.g == Shared(None, true, true, 0, 0, 0, 0, writes, writes, s.g.printed)
    && Sum(s.g.printed, WriteLine) == writes && PrintedInOrder(s.g.printed)
  }

  lemma FinishedIsFinal(s: State)
    requires Inv(s) && forall t :: 0 <= t < |s.threads| ==> Finished(s.threads[t])
    ensures Final(s, Sum(s.threads, WriterQuota))
  {
    SumZero(s.threads, InReadCount);
    SumZero(s.threads, InWritCount);
    SumZero(s.threads, Waiting);
    SumZero(s.threads, Active);
    forall t | 0 <= t < |s.threads|
      ensures WriterWaits(s.threads[t]) == WritesDone(s.threads[t]) == WriterQuota(s.threads[t])
    {
      assert LocalOk(s.g, s.threads[t]);
    }
    SumSame(s.threads, WriterWaits, WriterQuota);
    SumSame(s.threads, WritesDone, WriterQuota);
  }

  /** At the end every reader has printed a read, and every writer a write, for each iteration. */
  ghost predicate AllPrinted(s: State) {
    forall t :: 0 <= t < |s.threads| ==>
      && Sum(s.g.printed, By(t, false)) == (if s.threads[t].Reader? then s.threads[t].quota else 0)
      && Sum(s.g.printed, By(t, true)) == (if s.threads[t].Writer? then s.threads[t].quota else 0)
  }

  lemma FinishedPrinted(s: State)
    requires LocalInv(s) && PrintInv(s) && forall t :: 0 <= t < |s.threads| ==> Finished(s.threads[t])
    ensures AllPrinted(s)
  {
    forall t | 0 <= t < |s.threads|
      ensures ReadsDone(s.threads[t]) == if s.threads[t].Reader? then s.threads[t].quota else 0
      ensures WritesDone(s.threads[t]) == if s.threads[t].Writer? then s.threads[t].quota else 0
    {
      assert LocalOk(s.g, s.threads[t]);
    }
  }

  /** Every maximal run, whatever the schedule, ends in the same final state. */
  lemma MaximalRun(s0: State, sched: seq<nat>)
    requires Init(s0) && Runs(s0, sched)
    requires forall t :: !Enabled(After(s0, sched), t)
    ensures Final(After(s0, sched), Sum(s0.threads, WriterQuota)) && AllPrinted(After(s0, sched))
  {
    InitInv(s0);
    InitPrints(s0);
    RunInv(s0, sched);
    RunPrints(s0, sched);
    RunQuotas(s0, sched);
    var s := After(s0, sched);
    forall t | 0 <= t < |s.threads| ensures Finished(s.threads[t]) {
      if !Finished(s.threads[t]) { DeadlockFree(s, t); }
    }
    FinishedIsFinal(s);
    FinishedPrinted(s);
  }

  function IsWriter(th: Thread): int { Counted(th.Writer?) }

  /** With one ITER for all, the writes are writers times iterations. */
  lemma {:induction false} UniformQuota(ths: seq<Thread>, iter: nat)
    requires forall t :: 0 <= t < |ths| ==> ths[t].quota == iter
    ensures Sum(ths, WriterQuota) == Sum(ths, IsWriter) * iter
  {
    if ths != [] {
      UniformQuota(ths[1..], iter);
      if ths[0].Writer? {
        assert (1 + Sum(ths[1..], IsWriter)) * iter == iter + Sum(ths[1..], IsWriter) * iter;
      }
    }
  }

  // ---------------------------------------------------------------- the program

  /** The program itself: global variables, and threads that update them in place. */
  class Program {
    var singleMut: Option<nat>
    var eventRead: bool
    var eventWrite: bool
    var readCount: int
    var writCount: int
    var activeReaders: int
    var waitingReaders: int
    var waitingWriters: int
    var value: int
    var printed: seq<Line>
    var threads: seq<Thread>

    function View(): State
      reads this
    {
      State(Shared(singleMut, eventRead, eventWrite, readCount, writCount, activeReaders,
                   waitingReaders, waitingWriters, value, printed),
            threads)
    }

    /** `Handles_go` and `Create_Threads`. */
    constructor (readers: nat, writers: nat, iter: nat)
      requires readers + writers < WORD
      ensures Init(View())
      ensures |threads| == readers + writers
      ensures forall t :: 0 <= t < |threads| ==> threads[t].quota == iter && (threads[t].Writer? <==> t < writers)
    {
      singleMut, eventRead, eventWrite := None, true, true;
      readCount, writCount, value := 0, 0, 0;
      activeReaders, waitingReaders, waitingWriters := 0, 0, 0;
      printed := [];
      threads := seq(writers + readers, t => if t < writers then Writer(W73, 0, 0, iter) else Reader(R61, 0, 0, iter));
    }

    method ReleaseMutex(t: nat)
      modifies this`singleMut
      ensures View().g == Release(old(View().g), t)
    {
      if singleMut == Some(t) { singleMut := None; }
    }

    method ReaderStep(t: nat)
      requires Enabled(View(), t) && threads[t].Reader?
      modifies this
      ensures View() == Next(old(View()), t)
    {
      var th := threads[t];
      var at, reg, i := th.rpc, th.reg, th.i;
      match th.rpc {
        case R61 => at := if th.i < th.quota then R32 else R67;
        case R32 => waitingReaders, at := waitingReaders + 1, R33;
        case R33 => at := R35;
        case R35 => singleMut, at := Some(t), R36;
        case R36 => eventWrite, at := false, R37Load;
        case R37Load => reg, at := readCount, R37Store;
        case R37Store => readCount, at := Inc32(th.reg), R38;
        case R38 => ReleaseMutex(t); at := R39;
        case R39 => singleMut, at := Some(t), R40;
        case R40 => waitingReaders, at := waitingReaders - 1, R41;
        case R41 => activeReaders, at := activeReaders + 1, R63;
        case R63 => printed, at := printed + [Line(t, false, value)], R53;
        case R53 => activeReaders, at := activeReaders - 1, R54Load;
        case R54Load => reg, at := readCount, R54Store;
        case R54Store => readCount := Dec32(th.reg); at := if readCount == 0 then R54Set else R55;
        case R54Set => eventWrite, at := true, R55;
        case R55 => ReleaseMutex(t); i, at := i + 1, R61;
      }
      threads := threads[t := Reader(at, reg, i, th.quota)];
    }

    method WriterStep(t: nat)
      requires Enabled(View(), t) && threads[t].Writer?
      modifies this
      ensures View() == Next(old(View()), t)
    {
      var th := threads[t];
      var at, reg, i := th.wpc, th.reg, th.i;
      match th.wpc {
        case W73 => at := if th.i < th.quota then W20 else W79;
        case W20 => waitingWriters, at := waitingWriters + 1, W21;
        case W21 => singleMut, at := Some(t), W22;
        case W22 => eventRead, at := false, W23Load;
        case W23Load => reg, at := writCount, W23Store;
        case W23Store => writCount, at := Inc32(th.reg), W24;
        case W24 => ReleaseMutex(t); at := W26;
        case W26 => at := W27;
        case W27 => singleMut, at := Some(t), W28;
        case W28 => waitingWriters, at := waitingWriters - 1, W75Load;
        case W75Load => reg, at := value, W75Store;
        case W75Store => value := th.reg + 1; printed, at := printed + [Line(t, true, value)], W47;
        case W47 => waitingWriters, at := waitingWriters + 1, W48Load;
        case W48Load => reg, at := writCount, W48Store;
        case W48Store => writCount := Dec32(th.reg); at := if writCount == 0 then W48Set else W49;
        case W48Set => eventRead, at := true, W49;
        case W49 => ReleaseMutex(t); i, at := i + 1, W73;
      }
      threads := threads[t := Writer(at, reg, i, th.quota)];
    }

    /** `main` under an arbitrary scheduler: it always reaches the final state. */
    method RunToEnd()
      requires Init(View())
      modifies this
      ensures Final(View(), Sum(old(threads), WriterQuota)) && AllPrinted(View())
    {
      InitInv(View());
      InitPrints(View());
      while exists u :: 0 <= u < |threads| && !Finished(threads[u])
        invariant Inv(View()) && PrintInv(View()) && Sum(threads, WriterQuota) == Sum(old(threads), WriterQuota)
        decreases Work(View())
      {
        ghost var u: nat :| u < |threads| && !Finished(threads[u]);
        DeadlockFree(View(), u);
        var t: nat :| t < |threads| && Enabled(View(), t);
        Advance(View(), t);
        StepPrints(View(), t);
        if threads[t].Reader? { ReaderStep(t); } else { WriterStep(t); }
      }
      FinishedIsFinal(View());
      FinishedPrinted(View());
    }
  }
}
