/** How often readers overtake a writer that has announced itself: while a writer is
    counted in `writ_count` (5-semestr/lab6/main.cpp:23-48), readers that are already
    past their wait for `event_read` may still read. */
module Overtaking {
  import opened EventLock
  import opened Options
  import opened Tally

  // ----------------------------------------------------------- an upper bound

  /** Writer `w` stays between its `++writ_count` and its `--writ_count` at every step. */
  predicate Held(s: State, sched: seq<nat>, w: nat)
    requires Runs(s, sched)
    decreases |sched|
  {
    sched == [] ||
    (w < |s.threads| && InWritCount(s.threads[w]) == 1 && Held(Next(s, sched[0]), sched[1..], w))
  }

  /** A reader past its wait for `event_read` and not yet reading. */
  function PastGate(th: Thread): int {
    Counted(th.Reader? && th.rpc in {R35, R36, R37Load, R37Store, R38, R39, R40, R41})
  }

  /** How often reader `r` starts reading during a run. */
  function Entries(s: State, sched: seq<nat>, r: nat): nat
    requires Runs(s, sched)
    decreases |sched|
  {
    if sched == [] then 0
    else Counted(sched[0] == r && s.threads[r].Reader? && s.threads[r].rpc == R41)
         + Entries(Next(s, sched[0]), sched[1..], r)
  }

  /** While a writer is counted, the gate is shut. */
  lemma GateShut(s: State, w: nat, r: nat)
    requires Inv(s) && w < |s.threads| && InWritCount(s.threads[w]) == 1
    ensures !s.g.eventRead
    ensures r < |s.threads| && s.threads[r].Reader? && s.threads[r].rpc == R33 ==> !Enabled(s, r)
  {
    SumCounts(s.threads, InWritCount, w);
  }

  lemma MoveGate(t: nat, g: Shared, th: Thread)
    requires CanRun(g, th) && !g.eventRead
    ensures PastGate(Move(t, g, th).1) == PastGate(th) - Counted(th.Reader? && th.rpc == R41)
  {
  }

  /** While writer `w` is counted, reader `r` starts reading at most once, and
      only if it was already past the gate. */
  lemma {:induction false} BoundedBypass(s: State, sched: seq<nat>, w: nat, r: nat)
    requires Inv(s) && Runs(s, sched) && Held(s, sched, w) && r < |s.threads|
    ensures |After(s, sched).threads| == |s.threads|
    ensures Entries(s, sched, r) + PastGate(After(s, sched).threads[r]) == PastGate(s.threads[r])
    decreases |sched|
  {
    if sched != [] {
      var t := sched[0];
      GateShut(s, w, t);
      MoveGate(t, s.g, s.threads[t]);
      StepInv(s, t);
      BoundedBypass(Next(s, t), sched[1..], w, r);
    }
  }

  /** How often any reader starts reading during a run. */
  function AllEntries(s: State, sched: seq<nat>): nat
    requires Runs(s, sched)
    decreases |sched|
  {
    if sched == [] then 0
    else Counted(s.threads[sched[0]].Reader? && s.threads[sched[0]].rpc == R41)
         + AllEntries(Next(s, sched[0]), sched[1..])
  }

  /** Readers past the gate are used up by the entries and nobody joins them, so writer
      `w` is overtaken at most as often as there are readers past the gate at the start. */
  lemma {:induction false} TotalBypass(s: State, sched: seq<nat>, w: nat)
    requires Inv(s) && Runs(s, sched) && Held(s, sched, w)
    ensures AllEntries(s, sched) + Sum(After(s, sched).threads, PastGate) == Sum(s.threads, PastGate)
    ensures AllEntries(s, sched) <= Sum(s.threads, PastGate)
    decreases |sched|
  {
    if sched == [] {
      SumCounts(s.threads, PastGate, 0);
    } else {
      var t := sched[0];
      GateShut(s, w, t);
      MoveGate(t, s.g, s.threads[t]);
      SumUpdate(s.threads, PastGate, t, Next(s, t).threads[t]);
      SumCounts(s.threads, PastGate, 0);
      StepInv(s, t);
      TotalBypass(Next(s, t), sched[1..], w);
    }
  }

  // ------------------------------------------------------- and the other way round

  /** While a reader is counted, no writer passes line 26. */
  lemma WriteGateShut(s: State, r: nat, w: nat)
    requires Inv(s) && r < |s.threads| && InReadCount(s.threads[r]) == 1
    ensures !s.g.eventWrite
    ensures w < |s.threads| && AtWriteGate(s.threads[w]) ==> !Enabled(s, w)
  {
    SumCounts(s.threads, InReadCount, r);
  }

  /** Reader `r` stays between its `++read_count` and its `--read_count` at every step. */
  predicate ReaderHeld(s: State, sched: seq<nat>, r: nat)
    requires Runs(s, sched)
    decreases |sched|
  {
    sched == [] ||
    (r < |s.threads| && InReadCount(s.threads[r]) == 1 && ReaderHeld(Next(s, sched[0]), sched[1..], r))
  }

  /** Writers past line 26 that have not yet written. */
  function PastWriteGate(th: Thread): int {
    Counted(th.Writer? && th.wpc in {W27, W28, W75Load, W75Store})
  }

  /** How often any writer passes line 26 during a run. */
  function GatePasses(s: State, sched: seq<nat>): nat
    requires Runs(s, sched)
    decreases |sched|
  {
    if sched == [] then 0
    else Counted(AtWriteGate(s.threads[sched[0]])) + GatePasses(Next(s, sched[0]), sched[1..])
  }

  /** How often any writer stores `value` during a run. */
  function Writes(s: State, sched: seq<nat>): nat
    requires Runs(s, sched)
    decreases |sched|
  {
    if sched == [] then 0
    else Counted(s.threads[sched[0]].Writer? && s.threads[sched[0]].wpc == W75Store)
         + Writes(Next(s, sched[0]), sched[1..])
  }

  lemma MoveWriteGate(t: nat, g: Shared, th: Thread)
    requires CanRun(g, th) && !g.eventWrite
    ensures !AtWriteGate(th)
    ensures PastWriteGate(Move(t, g, th).1) == PastWriteGate(th) - Counted(th.Writer? && th.wpc == W75Store)
  {
  }

  /** While reader `r` is counted no writer passes line 26, so only the writers already past
      it can write, each once. */
  lemma {:induction false} WritersKeptOut(s: State, sched: seq<nat>, r: nat)
    requires Inv(s) && Runs(s, sched) && ReaderHeld(s, sched, r)
    ensures GatePasses(s, sched) == 0
    ensures Writes(s, sched) + Sum(After(s, sched).threads, PastWriteGate) == Sum(s.threads, PastWriteGate)
    ensures After(s, sched).g.value == s.g.value + Writes(s, sched)
    decreases |sched|
  {
    if sched != [] {
      var t := sched[0];
      WriteGateShut(s, r, t);
      MoveWriteGate(t, s.g, s.threads[t]);
      assert LocalOk(s.g, s.threads[t]);
      SumUpdate(s.threads, PastWriteGate, t, Next(s, t).threads[t]);
      StepInv(s, t);
      WritersKeptOut(Next(s, t), sched[1..], r);
    }
  }

  // -------------------------------------------------- when overtaking is possible

  /** A run during which writer `w` is counted and readers start reading `k` times. */
  predicate Overtakes(s: State, sched: seq<nat>, w: nat, k: int) {
    Runs(s, sched) && Held(s, sched, w) && AllEntries(s, sched) == k
  }

  /** A counted writer that has not yet passed its second wait for the mutex. */
  predicate BeforeTurn(th: Thread) {
    th.Writer? && th.wpc in {W24, W26, W27}
  }

  lemma Prepend(s: State, t: nat, rest: seq<nat>)
    requires Enabled(s, t) && Runs(Next(s, t), rest)
    ensures Runs(s, [t] + rest) && After(s, [t] + rest) == After(Next(s, t), rest)
  {
    assert ([t] + rest)[1..] == rest;
  }

  lemma PrependHeld(s: State, t: nat, rest: seq<nat>, w: nat)
    requires Enabled(s, t) && Runs(Next(s, t), rest) && Held(Next(s, t), rest, w)
    requires w < |s.threads| && InWritCount(s.threads[w]) == 1
    ensures Runs(s, [t] + rest) && Held(s, [t] + rest, w)
    ensures After(s, [t] + rest) == After(Next(s, t), rest)
  {
    assert ([t] + rest)[1..] == rest;
  }

  /** While writer `w` waits for its turn and readers are past the gate, some step brings
      the readers on: a release by the owner of the mutex, or one of those readers. */
  lemma SomebodyBringsOn(s: State, w: nat) returns (t: nat)
    requires Inv(s) && w < |s.threads| && BeforeTurn(s.threads[w]) && Sum(s.threads, PastGate) > 0
    ensures Enabled(s, t) && BeforeTurn(Next(s, t).threads[w])
  {
    if s.threads[w].wpc == W24 {
      t := w;
    } else if s.g.mutex.Some? {
      t := s.g.mutex.value;
      OwnerRuns(s.g, s.threads[t]);
    } else {
      SumWitness(s.threads, PastGate);
      t :| 0 <= t < |s.threads| && PastGate(s.threads[t]) > 0;
      assert s.threads[t].rpc in {R35, R39};
    }
  }

  lemma {:induction false} DrainRun(s: State, w: nat) returns (sched: seq<nat>)
    requires Inv(s) && w < |s.threads| && BeforeTurn(s.threads[w])
    ensures Runs(s, sched) && Held(s, sched, w) && Sum(After(s, sched).threads, PastGate) == 0
    decreases Work(s)
  {
    SumCounts(s.threads, PastGate, 0);
    if Sum(s.threads, PastGate) == 0 {
      sched := [];
    } else {
      var t := SomebodyBringsOn(s, w);
      Advance(s, t);
      var rest := DrainRun(Next(s, t), w);
      PrependHeld(s, t, rest, w);
      sched := [t] + rest;
    }
  }

  /** All the readers past the gate can overtake the writer: the bound is attained. */
  lemma Drain(s: State, w: nat) returns (sched: seq<nat>)
    requires Inv(s) && w < |s.threads| && BeforeTurn(s.threads[w])
    ensures Overtakes(s, sched, w, Sum(s.threads, PastGate))
  {
    sched := DrainRun(s, w);
    TotalBypass(s, sched, w);
  }

  /** Once writer `w` has the mutex for its write, nobody starts reading until it has
      counted itself out. */
  lemma {:induction false} TurnShutsOut(s: State, sched: seq<nat>, w: nat)
    requires Inv(s) && Runs(s, sched) && Held(s, sched, w)
    requires w < |s.threads| && InWritCount(s.threads[w]) == 1 && !BeforeTurn(s.threads[w])
    ensures AllEntries(s, sched) == 0
    decreases |sched|
  {
    if sched != [] {
      var t := sched[0];
      StepInv(s, t);
      assert s.g.mutex == Some(w);
      assert t != w ==> !Owns(s.threads[t]);
      if sched[1..] != [] { TurnShutsOut(Next(s, t), sched[1..], w); }
    }
  }

  /** Readers can overtake a counted writer exactly when it still waits for its turn and
      some reader is past the gate. */
  lemma OvertakingIff(s: State, w: nat)
    requires Inv(s) && w < |s.threads| && InWritCount(s.threads[w]) == 1
    ensures (exists sched :: Runs(s, sched) && Held(s, sched, w) && AllEntries(s, sched) > 0) <==>
            BeforeTurn(s.threads[w]) && Sum(s.threads, PastGate) > 0
  {
    if sched :| Runs(s, sched) && Held(s, sched, w) && AllEntries(s, sched) > 0 {
      TotalBypass(s, sched, w);
      if !BeforeTurn(s.threads[w]) { TurnShutsOut(s, sched, w); }
    }
    if BeforeTurn(s.threads[w]) && Sum(s.threads, PastGate) > 0 {
      var sched := Drain(s, w);
      assert Runs(s, sched) && Held(s, sched, w) && AllEntries(s, sched) > 0;
    }
  }

  // ------------------------------------------------------------ the worst case

  /** A reader with an iteration to do. */
  function Eager(th: Thread): int { Counted(th.Reader? && th.quota > 0) }

  lemma {:induction false} RunEager(s: State, sched: seq<nat>)
    requires Runs(s, sched)
    ensures Sum(After(s, sched).threads, Eager) == Sum(s.threads, Eager)
    ensures |After(s, sched).threads| == |s.threads|
    decreases |sched|
  {
    if sched != [] {
      var n := Next(s, sched[0]);
      SumUpdate(s.threads, Eager, sched[0], n.threads[sched[0]]);
      RunEager(n, sched[1..]);
    }
  }

  /** Only readers with an iteration to do get past the gate. */
  lemma GateBound(s: State)
    requires Inv(s)
    ensures Sum(s.threads, PastGate) <= Sum(s.threads, Eager)
  {
    forall t | 0 <= t < |s.threads| ensures PastGate(s.threads[t]) <= Eager(s.threads[t]) {
      assert LocalOk(s.g, s.threads[t]);
    }
    SumMono(s.threads, PastGate, Eager, 0);
  }

  lemma {:induction false} RunsConcat(s: State, a: seq<nat>, b: seq<nat>)
    requires Runs(s, a) && Runs(After(s, a), b)
    ensures Runs(s, a + b) && After(s, a + b) == After(After(s, a), b)
    decreases |a|
  {
    if a == [] {
      assert a + b == b;
    } else {
      assert (a + b)[1..] == a[1..] + b;
      RunsConcat(Next(s, a[0]), a[1..], b);
    }
  }

  lemma PassGate(s: State, r: nat)
    requires r < |s.threads| && s.threads[r].Reader? && s.threads[r].rpc == R32 && s.g.eventRead
    ensures Runs(s, [r, r])
    ensures After(s, [r, r]) ==
            State(s.g.(waitingReaders := s.g.waitingReaders + 1), s.threads[r := s.threads[r].(rpc := R35)])
  {
    var a := Next(s, r);
    Prepend(a, r, []);
    Prepend(s, r, [r]);
    assert [r] + [] == [r] && [r] + [r] == [r, r];
  }

  /** Three steps take a reader past the gate. */
  lemma ReaderToGate(s: State, r: nat)
    requires r < |s.threads| && s.threads[r].Reader? && s.threads[r].rpc == R61
    requires s.threads[r].i < s.threads[r].quota && s.g.eventRead
    ensures Runs(s, [r, r, r])
    ensures After(s, [r, r, r]) ==
            State(s.g.(waitingReaders := s.g.waitingReaders + 1), s.threads[r := s.threads[r].(rpc := R35)])
  {
    var a := Next(s, r);
    PassGate(a, r);
    Prepend(s, r, [r, r]);
    assert [r] + [r, r] == [r, r, r];
  }

  lemma ToCount(s: State, w: nat)
    requires w < |s.threads| && s.threads[w].Writer? && s.threads[w].wpc == W22
    ensures Runs(s, [w, w, w])
    ensures After(s, [w, w, w]).threads ==
            s.threads[w := Writer(W24, s.g.writCount, s.threads[w].i, s.threads[w].quota)]
  {
    var a := Next(s, w);
    var b := Next(a, w);
    Prepend(b, w, []);
    Prepend(a, w, [w]);
    Prepend(s, w, [w, w]);
    assert [w] + [] == [w] && [w] + [w] == [w, w] && [w] + [w, w] == [w, w, w];
  }

  /** Six steps take a writer from its loop head past `++writ_count`. */
  lemma WriterAnnounces(s: State, w: nat)
    requires w < |s.threads| && s.threads[w].Writer? && s.threads[w].wpc == W73
    requires s.threads[w].i < s.threads[w].quota && s.g.mutex.None?
    ensures Runs(s, [w, w, w, w, w, w])
    ensures After(s, [w, w, w, w, w, w]).threads ==
            s.threads[w := Writer(W24, s.g.writCount, s.threads[w].i, s.threads[w].quota)]
  {
    var a := Next(s, w);
    var b := Next(a, w);
    var c := Next(b, w);
    ToCount(c, w);
    Prepend(b, w, [w, w, w]);
    Prepend(a, w, [w] + [w, w, w]);
    Prepend(s, w, [w] + ([w] + [w, w, w]));
    assert [w] + ([w] + ([w] + [w, w, w])) == [w, w, w, w, w, w];
  }

  function Gathered(th: Thread): Thread {
    if Eager(th) == 1 then th.(rpc := R35) else th
  }

  /** From the start, the readers among the first `n` threads have gone past the gate. */
  predicate GatheredUpTo(s0: State, s: State, n: nat) {
    && s.g == s0.g.(waitingReaders := s.g.waitingReaders)
    && |s.threads| == |s0.threads|
    && forall t :: 0 <= t < |s.threads| ==> s.threads[t] == if t < n then Gathered(s0.threads[t]) else s0.threads[t]
  }

  lemma {:induction false} Gather(s0: State, n: nat) returns (sched: seq<nat>)
    requires Init(s0) && n <= |s0.threads|
    ensures Runs(s0, sched) && GatheredUpTo(s0, After(s0, sched), n)
    decreases n
  {
    if n == 0 {
      sched := [];
    } else {
      var r := n - 1;
      var before := Gather(s0, r);
      var s := After(s0, before);
      if Eager(s0.threads[r]) == 1 {
        ReaderToGate(s, r);
        RunsConcat(s0, before, [r, r, r]);
        sched := before + [r, r, r];
      } else {
        sched := before;
      }
    }
  }

  /** Every reader with an iteration to do goes past the gate, and then writer `w` counts itself. */
  lemma WorstStart(s0: State, w: nat) returns (before: seq<nat>)
    requires Init(s0) && w < |s0.threads| && s0.threads[w].Writer? && s0.threads[w].quota > 0
    ensures Runs(s0, before) && |After(s0, before).threads| == |s0.threads|
    ensures BeforeTurn(After(s0, before).threads[w])
    ensures Sum(After(s0, before).threads, PastGate) == Sum(s0.threads, Eager)
  {
    var gather := Gather(s0, |s0.threads|);
    var s := After(s0, gather);
    WriterAnnounces(s, w);
    RunsConcat(s0, gather, [w, w, w, w, w, w]);
    before := gather + [w, w, w, w, w, w];
    SumMatch(After(s0, before).threads, s0.threads, PastGate, Eager);
  }

  /** How many times readers overtake writer `w` in the worst case: once for each reader
      with an iteration to do, never more, and there are runs where it is that many. */
  lemma WorstOvertaking(s0: State, w: nat)
    requires Init(s0) && w < |s0.threads| && s0.threads[w].Writer? && s0.threads[w].quota > 0
    ensures forall before, during ::
              Runs(s0, before) && Runs(After(s0, before), during) && Held(After(s0, before), during, w) ==>
              AllEntries(After(s0, before), during) <= Sum(s0.threads, Eager)
    ensures exists before, during ::
              Runs(s0, before) && Overtakes(After(s0, before), during, w, Sum(s0.threads, Eager))
  {
    InitInv(s0);
    forall before, during |
      Runs(s0, before) && Runs(After(s0, before), during) && Held(After(s0, before), during, w)
      ensures AllEntries(After(s0, before), during) <= Sum(s0.threads, Eager)
    {
      RunInv(s0, before);
      RunEager(s0, before);
      TotalBypass(After(s0, before), during, w);
      GateBound(After(s0, before));
    }
    var before := WorstStart(s0, w);
    RunInv(s0, before);
    var during := Drain(After(s0, before), w);
    assert Overtakes(After(s0, before), during, w, Sum(s0.threads, Eager));
  }
}
