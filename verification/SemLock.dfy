/** Readers and writers on one semaphore set (5-semestr/lab5/task2.c). The four
    operation arrays run through the `semop()` interpreter; `(*shm)++` on line 59
    is a load and a store. */
module SemLock {
  import opened Options
  import opened PrintLog
  import opened SysVSem
  import opened Tally

  // The semaphores of the set: active writers, waiting writers, active readers, waiting readers.
  const AW: nat := 0
  const WW: nat := 1
  const AR: nat := 2
  const WR: nat := 3

  type Sems = s: seq<nat> | |s| == 4 witness [0, 0, 0, 0]

  const START_READ := [SemBuf(WR, 1), SemBuf(WW, 0), SemBuf(AW, 0), SemBuf(WR, -1), SemBuf(AR, 1)]
  const STOP_READ := [SemBuf(AR, -1)]
  const START_WRITE := [SemBuf(WW, 1), SemBuf(AW, 0), SemBuf(AR, 0), SemBuf(WW, -1), SemBuf(AW, 1)]
  const STOP_WRITE := [SemBuf(AW, -1)]

  // What the arrays amount to, whatever the semaphores hold.

  lemma StartReadArray(s: Sems)
    ensures Apply(s, START_READ) ==
            if s[WW] == 0 && s[AW] == 0 then Some(s[AR := s[AR] + 1]) else None
  {
    var s1 := s[WR := s[WR] + 1];
    var last := [SemBuf(AR, 1)];
    var rest := [SemBuf(WR, -1)] + last;
    assert START_READ == [SemBuf(WR, 1)] + ([SemBuf(WW, 0)] + ([SemBuf(AW, 0)] + rest));
    ApplyStep(s, SemBuf(WR, 1), [SemBuf(WW, 0)] + ([SemBuf(AW, 0)] + rest));
    ApplyStep(s1, SemBuf(WW, 0), [SemBuf(AW, 0)] + rest);
    ApplyStep(s1, SemBuf(AW, 0), rest);
    ApplyStep(s1, SemBuf(WR, -1), last);
    ApplyStep(s, SemBuf(AR, 1), []);
    assert last == last + [];
    assert s1[WW := s1[WW] + 0] == s1 == s1[AW := s1[AW] + 0];
    assert s1[WR := s1[WR] - 1] == s;
  }

  lemma StartWriteArray(s: Sems)
    ensures Apply(s, START_WRITE) ==
            if s[AW] == 0 && s[AR] == 0 then Some(s[AW := 1]) else None
  {
    var s1 := s[WW := s[WW] + 1];
    var last := [SemBuf(AW, 1)];
    var rest := [SemBuf(WW, -1)] + last;
    assert START_WRITE == [SemBuf(WW, 1)] + ([SemBuf(AW, 0)] + ([SemBuf(AR, 0)] + rest));
    ApplyStep(s, SemBuf(WW, 1), [SemBuf(AW, 0)] + ([SemBuf(AR, 0)] + rest));
    ApplyStep(s1, SemBuf(AW, 0), [SemBuf(AR, 0)] + rest);
    ApplyStep(s1, SemBuf(AR, 0), rest);
    ApplyStep(s1, SemBuf(WW, -1), last);
    ApplyStep(s, SemBuf(AW, 1), []);
    assert last == last + [];
    assert s1[AW := s1[AW] + 0] == s1 == s1[AR := s1[AR] + 0];
    assert s1[WW := s1[WW] - 1] == s;
  }

  lemma StopArrays(s: Sems)
    ensures Apply(s, STOP_READ) == if s[AR] >= 1 then Some(s[AR := s[AR] - 1]) else None
    ensures Apply(s, STOP_WRITE) == if s[AW] >= 1 then Some(s[AW := s[AW] - 1]) else None
  {
    assert STOP_READ == [SemBuf(AR, -1)] + [] && STOP_WRITE == [SemBuf(AW, -1)] + [];
    ApplyStep(s, SemBuf(AR, -1), []);
    ApplyStep(s, SemBuf(AW, -1), []);
  }

  // ---------------------------------------------------------------- the steps

  datatype WriterPc = W57 | W59Load | W59Store | W60 | W62
  datatype ReaderPc = R71 | R73 | R75

  /** `stores` counts the increments of `*shm` the writer has completed. */
  datatype Proc =
    | Writer(wpc: WriterPc, reg: int, stores: nat)
    | Reader(rpc: ReaderPc)

  datatype Shared = Shared(sems: Sems, shm: int, printed: seq<Line>)
  datatype State = State(g: Shared, procs: seq<Proc>)

  /** The operation array a process is about to pass to `semop`; [] at other lines. */
  function Ops(p: Proc): (ops: seq<SemBuf>)
    ensures InSet(ops, 4)
  {
    match p
    case Writer(pc, _, _) => if pc.W57? then START_WRITE else if pc.W62? then STOP_WRITE else []
    case Reader(pc) => if pc.R71? then START_READ else if pc.R75? then STOP_READ else []
  }

  predicate CanRun(g: Shared, p: Proc) { Apply(g.sems, Ops(p)).Some? }

  /** What process `i` does next to the shared state and to itself. */
  function Move(i: nat, g: Shared, p: Proc): (Shared, Proc)
    requires CanRun(g, p)
  {
    var g' := g.(sems := Apply(g.sems, Ops(p)).value);
    match p
    case Writer(pc, reg, stores) =>
      (match pc
       case W57 => (g', p.(wpc := W59Load))
       case W59Load => (g', p.(wpc := W59Store, reg := g.shm))
       case W59Store => (g'.(shm := reg + 1), p.(wpc := W60, stores := stores + 1))
       case W60 => (g'.(printed := g.printed + [Line(i, true, g.shm)]), p.(wpc := W62))
       case W62 => (g', p.(wpc := W57)))
    case Reader(pc) =>
      (match pc
       case R71 => (g', p.(rpc := R73))
       case R73 => (g'.(printed := g.printed + [Line(i, false, g.shm)]), p.(rpc := R75))
       case R75 => (g', p.(rpc := R71)))
  }

  predicate Enabled(s: State, i: nat) {
    i < |s.procs| && CanRun(s.g, s.procs[i])
  }

  function Next(s: State, i: nat): State
    requires Enabled(s, i)
  {
    var (g, p) := Move(i, s.g, s.procs[i]);
    State(g, s.procs[i := p])
  }

  predicate AtStart(p: Proc) {
    match p
    case Writer(pc, _, stores) => pc.W57? && stores == 0
    case Reader(pc) => pc.R71?
  }

  /** What `main` sets up. */
  predicate Init(s: State) {
    && s.g == Shared([0, 0, 0, 0], 0, [])
    && forall i :: 0 <= i < |s.procs| ==> AtStart(s.procs[i])
  }

  // ------------------------------------------------------------ the invariant

  /** Between `start_write` and `stop_write`. */
  function WriterInside(p: Proc): int { Counted(p.Writer? && !p.wpc.W57?) }

  /** Between `start_read` and `stop_read`. */
  function ReaderInside(p: Proc): int { Counted(p.Reader? && !p.rpc.R71?) }

  function Stores(p: Proc): int { if p.Writer? then p.stores else 0 }

  /** Stored but not yet printed. */
  function Unprinted(p: Proc): int { Counted(p.Writer? && p.wpc.W60?) }

  predicate LockInv(s: State) {
    && s.g.sems[WW] == 0 && s.g.sems[WR] == 0
    && s.g.sems[AW] == Sum(s.procs, WriterInside)
    && s.g.sems[AR] == Sum(s.procs, ReaderInside)
    && s.g.sems[AW] <= 1 && (s.g.sems[AW] == 0 || s.g.sems[AR] == 0)
  }

  /** The loaded value is still current when it is stored back. */
  predicate RegOk(g: Shared, p: Proc) {
    p.Writer? && p.wpc.W59Store? ==> p.reg == g.shm
  }

  predicate DataInv(s: State) {
    && s.g.shm == Sum(s.procs, Stores)
    && s.g.shm == Sum(s.g.printed, WriteLine) + Sum(s.procs, Unprinted)
    && PrintedInOrder(s.g.printed)
    && forall i :: 0 <= i < |s.procs| ==> RegOk(s.g, s.procs[i])
  }

  predicate Inv(s: State) { LockInv(s) && DataInv(s) }

  lemma InitInv(s: State)
    requires Init(s)
    ensures Inv(s)
  {
    SumZero(s.procs, WriterInside);
    SumZero(s.procs, ReaderInside);
    SumZero(s.procs, Stores);
    SumZero(s.procs, Unprinted);
  }

  /** What a move does to the semaphores, in words of who is inside. */
  lemma MoveSems(i: nat, g: Shared, p: Proc)
    requires CanRun(g, p)
    ensures var (g', p') := Move(i, g, p);
            && g'.sems[WW] == g.sems[WW] && g'.sems[WR] == g.sems[WR]
            && g'.sems[AW] + WriterInside(p) == g.sems[AW] + WriterInside(p')
            && g'.sems[AR] + ReaderInside(p) == g.sems[AR] + ReaderInside(p')
            && (WriterInside(p') > WriterInside(p) ==> g.sems[AW] == 0 && g.sems[AR] == 0)
            && (ReaderInside(p') > ReaderInside(p) ==> g.sems[AW] == 0)
  {
    StartReadArray(g.sems);
    StartWriteArray(g.sems);
    StopArrays(g.sems);
  }

  lemma StepLock(s: State, i: nat)
    requires LockInv(s) && Enabled(s, i)
    ensures LockInv(Next(s, i))
  {
    MoveSems(i, s.g, s.procs[i]);
    SumUpdate(s.procs, WriterInside, i, Next(s, i).procs[i]);
    SumUpdate(s.procs, ReaderInside, i, Next(s, i).procs[i]);
  }

  /** A writer inside is alone: nobody else is inside. */
  lemma WriterAlone(s: State, i: nat, j: nat)
    requires LockInv(s) && i < |s.procs| && j < |s.procs| && i != j
    requires WriterInside(s.procs[i]) == 1
    ensures WriterInside(s.procs[j]) == 0 && ReaderInside(s.procs[j]) == 0
  {
    SumCounts(s.procs, WriterInside, i);
    SumCounts(s.procs, ReaderInside, j);
    if WriterInside(s.procs[j]) == 1 {
      SumTwo(s.procs, WriterInside, if i < j then i else j, if i < j then j else i);
    }
  }

  lemma AloneUnprinted(s: State, i: nat)
    requires LockInv(s) && i < |s.procs| && WriterInside(s.procs[i]) + ReaderInside(s.procs[i]) == 1
    ensures Sum(s.procs, Unprinted) == Unprinted(s.procs[i])
  {
    forall j | 0 <= j < |s.procs| && j != i ensures Unprinted(s.procs[j]) == 0 {
      if WriterInside(s.procs[j]) == 1 { WriterAlone(s, j, i); }
    }
    SumAlone(s.procs, Unprinted, i);
  }

  lemma StepData(s: State, i: nat)
    requires Inv(s) && Enabled(s, i)
    ensures DataInv(Next(s, i))
  {
    var n := Next(s, i);
    SumUpdate(s.procs, Stores, i, n.procs[i]);
    SumUpdate(s.procs, Unprinted, i, n.procs[i]);
    assert RegOk(s.g, s.procs[i]);
    if n.g.printed != s.g.printed {
      AloneUnprinted(s, i);
      LogAfter(s.g.printed, n.g.printed[|s.g.printed|]);
    }
    forall j | 0 <= j < |n.procs| ensures RegOk(n.g, n.procs[j]) {
      if j != i {
        assert RegOk(s.g, s.procs[j]);
        if WriterInside(s.procs[i]) == 1 { WriterAlone(s, i, j); }
      }
    }
  }

  lemma StepInv(s: State, i: nat)
    requires Inv(s) && Enabled(s, i)
    ensures Inv(Next(s, i))
  {
    StepLock(s, i);
    StepData(s, i);
  }

  // ---------------------------------------------------------------------- runs

  predicate Runs(s: State, sched: seq<nat>)
    decreases |sched|
  {
    sched == [] || (Enabled(s, sched[0]) && Runs(Next(s, sched[0]), sched[1..]))
  }

  function After(s: State, sched: seq<nat>): State
    requires Runs(s, sched)
    decreases |sched|
  {
    if sched == [] then s else After(Next(s, sched[0]), sched[1..])
  }

  /** The invariant over a run; the shared value never decreases, nor is a printed line taken back. */
  lemma {:induction false} RunInv(s: State, sched: seq<nat>)
    requires Inv(s) && Runs(s, sched)
    ensures Inv(After(s, sched))
    ensures |After(s, sched).procs| == |s.procs|
    ensures s.g.shm <= After(s, sched).g.shm && s.g.printed <= After(s, sched).g.printed
    decreases |sched|
  {
    if sched != [] {
      StepInv(s, sched[0]);
      assert RegOk(s.g, s.procs[sched[0]]);
      RunInv(Next(s, sched[0]), sched[1..]);
    }
  }

  predicate AtStop(p: Proc) {
    if p.Writer? then p.wpc.W62? else p.rpc.R75?
  }

  /** What holds in every reachable state. */
  ghost predicate Safe(s: State) {
    // AW and AR count the processes inside, one writer or any number of readers
    && s.g.sems[AW] == Sum(s.procs, WriterInside) <= 1
    && s.g.sems[AR] == Sum(s.procs, ReaderInside)
    && !(s.g.sems[AW] > 0 && s.g.sems[AR] > 0)
    // the waiting counts are raised and lowered inside one atomic array: nobody ever sees them
    && s.g.sems[WW] == 0 && s.g.sems[WR] == 0
    // no increment is lost, and the lines printed are in order
    && s.g.shm == Sum(s.procs, Stores)
    && PrintedInOrder(s.g.printed)
    // the stop arrays never block
    && (forall i :: 0 <= i < |s.procs| && AtStop(s.procs[i]) ==> Enabled(s, i))
    // somebody can always run
    && (s.procs != [] ==> exists i :: Enabled(s, i))
  }

  /** A process inside can always run. */
  lemma InsideRuns(s: State, i: nat)
    requires LockInv(s) && i < |s.procs| && WriterInside(s.procs[i]) + ReaderInside(s.procs[i]) == 1
    ensures Enabled(s, i)
  {
    StopArrays(s.g.sems);
    SumCounts(s.procs, WriterInside, i);
    SumCounts(s.procs, ReaderInside, i);
  }

  lemma InvSafe(s: State)
    requires Inv(s)
    ensures Safe(s)
  {
    StartReadArray(s.g.sems);
    StartWriteArray(s.g.sems);
    forall i | 0 <= i < |s.procs| && WriterInside(s.procs[i]) + ReaderInside(s.procs[i]) == 1
      ensures Enabled(s, i)
    {
      InsideRuns(s, i);
    }
    if s.procs != [] && !Enabled(s, 0) {
      if s.g.sems[AW] > 0 { SumWitness(s.procs, WriterInside); } else { SumWitness(s.procs, ReaderInside); }
    }
  }

  /** Every reachable state is safe, and values read never decrease over a run. */
  lemma ReachableStates(s0: State, sched: seq<nat>)
    requires Init(s0) && Runs(s0, sched)
    ensures Safe(After(s0, sched))
    ensures var log := After(s0, sched).g.printed;
            forall j, k :: 0 <= j <= k < |log| ==> log[j].shown <= log[k].shown
  {
    InitInv(s0);
    RunInv(s0, sched);
    InvSafe(After(s0, sched));
    var log := After(s0, sched).g.printed;
    forall j, k | 0 <= j <= k < |log| ensures log[j].shown <= log[k].shown {
      NeverDecreases(log, j, k);
    }
  }

  // ------------------------------------------------------------ who prints what

  /** Where in its loop a process is. */
  function Place(p: Proc): nat {
    match p
    case Writer(pc, _, _) =>
      (match pc case W57 => 0 case W59Load => 1 case W59Store => 2 case W60 => 3 case W62 => 4)
    case Reader(pc) => (match pc case R71 => 0 case R73 => 1 case R75 => 2)
  }

  /** Every step goes on by one line, and from the last to the first. */
  lemma ProgramOrder(i: nat, g: Shared, p: Proc)
    requires CanRun(g, p)
    ensures var p' := Move(i, g, p).1;
            && p'.Reader? == p.Reader?
            && Place(p') == (Place(p) + 1) % (if p.Writer? then 5 else 3)
  {
  }

  /** A process waits at its start array only: a reader exactly while a writer is inside, a
      writer exactly while anybody is. */
  lemma WaitsIff(s: State, i: nat)
    requires Inv(s) && i < |s.procs|
    ensures !Enabled(s, i) <==>
            && Place(s.procs[i]) == 0
            && exists j :: 0 <= j < |s.procs| &&
                 (WriterInside(s.procs[j]) == 1 || (s.procs[i].Writer? && ReaderInside(s.procs[j]) == 1))
  {
    StartReadArray(s.g.sems);
    StartWriteArray(s.g.sems);
    if Place(s.procs[i]) != 0 { InsideRuns(s, i); }
    SumBound(s.procs, WriterInside);
    SumBound(s.procs, ReaderInside);
    if s.g.sems[AW] > 0 { SumWitness(s.procs, WriterInside); }
    if s.g.sems[AR] > 0 { SumWitness(s.procs, ReaderInside); }
  }

  /** How often process `i` passes its start array during a run. */
  function Passes(s: State, sched: seq<nat>, i: nat): nat
    requires Runs(s, sched)
    decreases |sched|
  {
    if sched == [] then 0
    else Counted(sched[0] == i && Place(s.procs[i]) == 0) + Passes(Next(s, sched[0]), sched[1..], i)
  }

  /** Inside, but the line for this visit is not yet printed. */
  function ToPrint(p: Proc): int { Counted(if p.Writer? then p.wpc in {W59Load, W59Store, W60} else p.rpc.R73?) }

  /** Inside, but `*shm` is not yet incremented. */
  function ToStore(p: Proc): int { Counted(p.Writer? && p.wpc in {W59Load, W59Store}) }

  /** Lines process `i` has printed; a writer prints write lines and a reader read lines. */
  function Printed(log: seq<Line>, i: nat, isWriter: bool): int { Sum(log, By(i, isWriter)) }

  /** One step: a pass is followed by one store of a writer, and by one line of its own kind. */
  lemma MovePrints(i: nat, g: Shared, p: Proc, u: nat, isWriter: bool)
    requires CanRun(g, p)
    ensures var (g', p') := Move(i, g, p);
            var mine := u == i && isWriter == p.Writer?;
            && Printed(g'.printed, u, isWriter) - Printed(g.printed, u, isWriter) ==
               (if mine then Counted(Place(p) == 0) + ToPrint(p) - ToPrint(p') else 0)
            && Stores(p') - Stores(p) + ToStore(p') - ToStore(p) == Counted(p.Writer? && Place(p) == 0)
  {
    var g' := Move(i, g, p).0;
    if g'.printed != g.printed { SumAppend(g.printed, By(u, isWriter), Line(i, p.Writer?, g.shm)); }
  }

  /** Over any run: each pass of a start array has led to one line by that process and, for a
      writer, to one increment, or is about to. */
  lemma {:induction false} RunPrints(s: State, sched: seq<nat>, i: nat)
    requires Runs(s, sched) && i < |s.procs|
    ensures var t := After(s, sched);
            var isWriter := s.procs[i].Writer?;
            && |t.procs| == |s.procs| && t.procs[i].Writer? == isWriter
            && Printed(t.g.printed, i, isWriter) + ToPrint(t.procs[i]) ==
               Printed(s.g.printed, i, isWriter) + ToPrint(s.procs[i]) + Passes(s, sched, i)
            && Printed(t.g.printed, i, !isWriter) == Printed(s.g.printed, i, !isWriter)
            && (isWriter ==> Stores(t.procs[i]) + ToStore(t.procs[i]) ==
                             Stores(s.procs[i]) + ToStore(s.procs[i]) + Passes(s, sched, i))
    decreases |sched|
  {
    if sched != [] {
      MovePrints(sched[0], s.g, s.procs[sched[0]], i, s.procs[i].Writer?);
      MovePrints(sched[0], s.g, s.procs[sched[0]], i, !s.procs[i].Writer?);
      ProgramOrder(sched[0], s.g, s.procs[sched[0]]);
      RunPrints(Next(s, sched[0]), sched[1..], i);
    }
  }

  /** From the start of the program: a process that is not about to has printed a line for
      every pass, and a writer has made an increment for every pass. */
  lemma EveryPassPrints(s0: State, sched: seq<nat>, i: nat)
    requires Init(s0) && Runs(s0, sched) && i < |s0.procs|
    ensures var t := After(s0, sched);
            && |t.procs| == |s0.procs|
            && Printed(t.g.printed, i, s0.procs[i].Writer?) + ToPrint(t.procs[i]) == Passes(s0, sched, i)
            && Printed(t.g.printed, i, !s0.procs[i].Writer?) == 0
            && (s0.procs[i].Writer? ==> Stores(t.procs[i]) + ToStore(t.procs[i]) == Passes(s0, sched, i))
  {
    RunPrints(s0, sched, i);
  }

  // ---------------------------------------------------------- writers can starve

  /** Readers `r1` (inside) and `r2` (outside) hand over `n` times: the one outside
      enters before the one inside prints and leaves. */
  function Relay(r1: nat, r2: nat, n: nat): seq<nat>
    decreases n
  {
    if n == 0 then [] else [r2, r1, r1] + Relay(r2, r1, n - 1)
  }

  /** Writer `w` stands at `start_write` and cannot pass it, from start to end of a run. */
  predicate Blocked(s: State, sched: seq<nat>, w: nat)
    requires Runs(s, sched)
    decreases |sched|
  {
    && w < |s.procs| && s.procs[w].Writer? && s.procs[w].wpc == W57 && !Enabled(s, w)
    && (sched == [] || Blocked(Next(s, sched[0]), sched[1..], w))
  }

  /** How many times a reader passes `start_read` during a run. */
  function Entries(s: State, sched: seq<nat>): nat
    requires Runs(s, sched)
    decreases |sched|
  {
    if sched == [] then 0
    else Counted(s.procs[sched[0]].Reader? && s.procs[sched[0]].rpc == R71)
         + Entries(Next(s, sched[0]), sched[1..])
  }

  predicate At(s: State, i: nat, pc: ReaderPc) {
    i < |s.procs| && s.procs[i].Reader? && s.procs[i].rpc == pc
  }

  predicate Waits(s: State, w: nat) {
    w < |s.procs| && s.procs[w].Writer? && s.procs[w].wpc == W57
  }

  /** With reader `r1` inside, nobody can write and everybody can read. */
  lemma ReaderHoldsDoor(s: State, r1: nat, r2: nat, w: nat)
    requires Inv(s) && r1 < |s.procs| && ReaderInside(s.procs[r1]) == 1
    ensures Enabled(s, r1)
    ensures At(s, r2, R71) ==> Enabled(s, r2)
    ensures Waits(s, w) ==> !Enabled(s, w)
  {
    SumCounts(s.procs, ReaderInside, r1);
    StartReadArray(s.g.sems);
    StartWriteArray(s.g.sems);
    InsideRuns(s, r1);
  }

  lemma ReaderStep(s: State, r: nat)
    requires Inv(s) && Enabled(s, r) && s.procs[r].Reader?
    ensures Inv(Next(s, r))
    ensures Next(s, r).procs ==
            s.procs[r := Reader(match s.procs[r].rpc case R71 => R73 case R73 => R75 case R75 => R71)]
  {
    StepInv(s, r);
  }

  /** One step of a reader while the writer is blocked. */
  lemma BlockedStep(s: State, i: nat, w: nat, rest: seq<nat>)
    requires Enabled(s, i) && Waits(s, w) && !Enabled(s, w) && s.procs[i].Reader?
    requires Runs(Next(s, i), rest) && Blocked(Next(s, i), rest, w)
    ensures Runs(s, [i] + rest) && Blocked(s, [i] + rest, w)
    ensures Entries(s, [i] + rest) == Counted(At(s, i, R71)) + Entries(Next(s, i), rest)
  {
    assert ([i] + rest)[1..] == rest;
  }

  /** The three steps of one hand-over. */
  lemma HandOver(s: State, r1: nat, r2: nat, w: nat) returns (a: State, b: State, c: State)
    requires Inv(s) && r1 != r2 && At(s, r1, R73) && At(s, r2, R71) && Waits(s, w)
    ensures Enabled(s, r2) && !Enabled(s, w) && a == Next(s, r2) && At(a, r1, R73) && Waits(a, w)
    ensures Enabled(a, r1) && !Enabled(a, w) && b == Next(a, r1) && At(b, r1, R75) && Waits(b, w)
    ensures Enabled(b, r1) && !Enabled(b, w) && c == Next(b, r1)
    ensures Inv(c) && At(c, r2, R73) && At(c, r1, R71) && Waits(c, w)
  {
    ReaderHoldsDoor(s, r1, r2, w);
    a := Next(s, r2);
    ReaderStep(s, r2);
    ReaderHoldsDoor(a, r1, r2, w);
    b := Next(a, r1);
    ReaderStep(a, r1);
    ReaderHoldsDoor(b, r1, r2, w);
    c := Next(b, r1);
    ReaderStep(b, r1);
  }

  /** A run with `k` reader entries, on all of which writer `w` is blocked. */
  predicate Starves(s: State, sched: seq<nat>, w: nat, k: nat) {
    Runs(s, sched) && Blocked(s, sched, w) && Entries(s, sched) == k
  }

  lemma BlockedNow(s: State, r: nat, w: nat)
    requires Inv(s) && At(s, r, R73) && Waits(s, w)
    ensures Starves(s, [], w, 0)
  {
    ReaderHoldsDoor(s, r, r, w);
  }

  /** One hand-over, in front of any blocked run. */
  lemma Round(s: State, r1: nat, r2: nat, w: nat) returns (c: State)
    requires Inv(s) && r1 != r2 && At(s, r1, R73) && At(s, r2, R71) && Waits(s, w)
    ensures Inv(c) && At(c, r2, R73) && At(c, r1, R71) && Waits(c, w)
    ensures forall rest: seq<nat>, k: nat :: Starves(c, rest, w, k) ==> Starves(s, [r2, r1, r1] + rest, w, k + 1)
  {
    var a, b;
    a, b, c := HandOver(s, r1, r2, w);
    forall rest: seq<nat>, k: nat | Starves(c, rest, w, k)
      ensures Starves(s, [r2, r1, r1] + rest, w, k + 1)
    {
      BlockedStep(b, r1, w, rest);
      BlockedStep(a, r1, w, [r1] + rest);
      BlockedStep(s, r2, w, [r1] + ([r1] + rest));
      assert [r2, r1, r1] + rest == [r2] + ([r1] + ([r1] + rest));
    }
  }

  /** Waiting writers do not hold readers back: with two readers there are runs with any
      number of reader entries, both readers taking turns, that a writer spends
      blocked at `start_write`. */
  lemma {:induction false} Starvation(s: State, r1: nat, r2: nat, w: nat, n: nat)
    requires Inv(s) && r1 != r2 && At(s, r1, R73) && At(s, r2, R71) && Waits(s, w)
    ensures Starves(s, Relay(r1, r2, n), w, n)
    decreases n
  {
    if n == 0 {
      BlockedNow(s, r1, w);
    } else {
      var c := Round(s, r1, r2, w);
      Starvation(c, r2, r1, w, n - 1);
      assert Relay(r1, r2, n) == [r2, r1, r1] + Relay(r2, r1, n - 1);
    }
  }

  /** From the start of the program: one reader enters, then the relay runs. */
  lemma StarvationFromInit(s0: State, r1: nat, r2: nat, w: nat, n: nat)
    requires Init(s0) && r1 != r2 && At(s0, r1, R71) && At(s0, r2, R71) && Waits(s0, w)
    ensures Runs(s0, [r1]) && Starves(After(s0, [r1]), Relay(r1, r2, n), w, n)
  {
    InitInv(s0);
    StartReadArray(s0.g.sems);
    StepInv(s0, r1);
    Starvation(Next(s0, r1), r1, r2, w, n);
    assert [r1][1..] == [];
  }

  function IsReader(p: Proc): int { Counted(p.Reader?) }

  lemma {:induction false} RunReaders(s: State, sched: seq<nat>)
    requires Runs(s, sched)
    ensures Sum(After(s, sched).procs, IsReader) == Sum(s.procs, IsReader)
    decreases |sched|
  {
    if sched != [] {
      SumUpdate(s.procs, IsReader, sched[0], Next(s, sched[0]).procs[sched[0]]);
      RunReaders(Next(s, sched[0]), sched[1..]);
    }
  }

  /** A reader that enters past a blocked writer finds another reader inside. */
  lemma EntersBesideReader(s: State, i: nat, w: nat)
    requires Inv(s) && Enabled(s, i) && At(s, i, R71) && Waits(s, w) && !Enabled(s, w)
    ensures Sum(s.procs, IsReader) >= 2
  {
    StartReadArray(s.g.sems);
    StartWriteArray(s.g.sems);
    SumWitness(s.procs, ReaderInside);
    var k :| 0 <= k < |s.procs| && ReaderInside(s.procs[k]) > 0;
    SumTwo(s.procs, IsReader, if i < k then i else k, if i < k then k else i);
  }

  /** A single reader never enters past a blocked writer. */
  lemma {:induction false} OneReaderWaits(s: State, sched: seq<nat>, w: nat)
    requires Inv(s) && Sum(s.procs, IsReader) <= 1 && Runs(s, sched) && Blocked(s, sched, w)
    ensures Entries(s, sched) == 0
    decreases |sched|
  {
    if sched != [] {
      var i := sched[0];
      if At(s, i, R71) { EntersBesideReader(s, i, w); }
      StepInv(s, i);
      SumUpdate(s.procs, IsReader, i, Next(s, i).procs[i]);
      OneReaderWaits(Next(s, i), sched[1..], w);
    }
  }

  /** After a run `before`, a run `during` on which a reader enters while writer `w` is blocked. */
  predicate EnteredPast(s0: State, before: seq<nat>, during: seq<nat>, w: nat) {
    && Runs(s0, before) && Runs(After(s0, before), during)
    && Blocked(After(s0, before), during, w) && Entries(After(s0, before), during) > 0
  }

  lemma TwoReadersPast(s0: State, w: nat) returns (before: seq<nat>, during: seq<nat>)
    requires Init(s0) && Waits(s0, w) && Sum(s0.procs, IsReader) >= 2
    ensures EnteredPast(s0, before, during, w)
  {
    SumPair(s0.procs, IsReader);
    var r1: nat, r2: nat :| r1 < r2 < |s0.procs| && IsReader(s0.procs[r1]) == 1 && IsReader(s0.procs[r2]) == 1;
    StarvationFromInit(s0, r1, r2, w, 1);
    before, during := [r1], Relay(r1, r2, 1);
  }

  lemma OneReaderNotPast(s0: State, before: seq<nat>, during: seq<nat>, w: nat)
    requires Init(s0) && EnteredPast(s0, before, during, w)
    ensures Sum(s0.procs, IsReader) >= 2
  {
    InitInv(s0);
    RunInv(s0, before);
    RunReaders(s0, before);
    if Sum(s0.procs, IsReader) <= 1 { OneReaderWaits(After(s0, before), during, w); }
  }

  /** Readers can enter past a blocked writer exactly when there are at least two of them;
      and then, by the relay, any number of times. */
  lemma StarvationIff(s0: State, w: nat)
    requires Init(s0) && Waits(s0, w)
    ensures (exists before, during :: EnteredPast(s0, before, during, w)) <==> Sum(s0.procs, IsReader) >= 2
  {
    if before, during :| EnteredPast(s0, before, during, w) {
      OneReaderNotPast(s0, before, during, w);
    }
    if Sum(s0.procs, IsReader) >= 2 {
      var before, during := TwoReadersPast(s0, w);
    }
  }

  // ---------------------------------------------------------------- the program

  /** The shared memory, the semaphore set and the processes that update them in place. */
  class Program {
    var sems: Sems
    var shm: int
    var printed: seq<Line>
    var procs: seq<Proc>

    function View(): State
      reads this
    {
      State(Shared(sems, shm, printed), procs)
    }

    constructor (writers: nat, readers: nat)
      ensures Init(View()) && |procs| == writers + readers
      ensures forall i :: 0 <= i < |procs| ==> (procs[i].Writer? <==> i < writers)
    {
      sems, shm, printed := [0, 0, 0, 0], 0, [];
      procs := seq(writers + readers, i => if i < writers then Writer(W57, 0, 0) else Reader(R71));
    }

    /** The system call: all of the array, or nothing and the caller waits. */
    method Semop(ops: seq<SemBuf>) returns (done: bool)
      requires InSet(ops, 4)
      modifies this`sems
      ensures done == Apply(old(sems), ops).Some?
      ensures sems == if done then Apply(old(sems), ops).value else old(sems)
    {
      var after := Apply(sems, ops);
      done := after.Some?;
      if done { sems := after.value; }
    }

    /** Process `i` is given the processor; it stays where it is if its `semop` has to wait. */
    method Schedule(i: nat)
      requires i < |procs|
      modifies this
      ensures View() == if old(Enabled(View(), i)) then Next(old(View()), i) else old(View())
    {
      match procs[i] {
        case Writer(W57, reg, n) =>
          var ok := Semop(START_WRITE);
          if ok { procs := procs[i := Writer(W59Load, reg, n)]; }
        case Writer(W59Load, _, n) =>
          procs := procs[i := Writer(W59Store, shm, n)];
        case Writer(W59Store, reg, n) =>
          shm := reg + 1;
          procs := procs[i := Writer(W60, reg, n + 1)];
        case Writer(W60, reg, n) =>
          printed := printed + [Line(i, true, shm)];
          procs := procs[i := Writer(W62, reg, n)];
        case Writer(W62, reg, n) =>
          var ok := Semop(STOP_WRITE);
          if ok { procs := procs[i := Writer(W57, reg, n)]; }
        case Reader(R71) =>
          var ok := Semop(START_READ);
          if ok { procs := procs[i := Reader(R73)]; }
        case Reader(R73) =>
          printed := printed + [Line(i, false, shm)];
          procs := procs[i := Reader(R75)];
        case Reader(R75) =>
          var ok := Semop(STOP_READ);
          if ok { procs := procs[i := Reader(R71)]; }
      }
    }

    /** Any schedule, however long, keeps the program safe. */
    method Run(sched: seq<nat>)
      requires Init(View())
      requires forall k :: 0 <= k < |sched| ==> sched[k] < |procs|
      modifies this
      ensures Safe(View()) && |procs| == |old(procs)|
    {
      InitInv(View());
      for k := 0 to |sched|
        invariant Inv(View()) && |procs| == |old(procs)|
      {
        if Enabled(View(), sched[k]) { StepInv(View(), sched[k]); }
        Schedule(sched[k]);
      }
      InvSafe(View());
    }
  }
}
