/** Producers and consumers on a shared buffer and three semaphores
    (5-semestr/lab5/task1.c). Every access to shared memory is a step of its own. */
module ProdCons {
  import opened Options
  import opened SysVSem
  import opened Tally

  const BINARY: nat := 0
  const EMPTY: nat := 1
  const FULL: nat := 2

  type Sems = s: seq<nat> | |s| == 3 witness [0, 0, 0]

  const PRODUCER_START := [SemBuf(EMPTY, -1), SemBuf(BINARY, -1)]
  const PRODUCER_STOP := [SemBuf(BINARY, 1), SemBuf(FULL, 1)]
  const CONSUMER_START := [SemBuf(FULL, -1), SemBuf(BINARY, -1)]
  const CONSUMER_STOP := [SemBuf(BINARY, 1), SemBuf(EMPTY, 1)]

  lemma ProducerArrays(s: Sems)
    ensures Apply(s, PRODUCER_START) ==
            if s[EMPTY] >= 1 && s[BINARY] >= 1
            then Some(s[EMPTY := s[EMPTY] - 1][BINARY := s[BINARY] - 1]) else None
    ensures Apply(s, PRODUCER_STOP) == Some(s[BINARY := s[BINARY] + 1][FULL := s[FULL] + 1])
  {
    TwoOps(s, SemBuf(EMPTY, -1), SemBuf(BINARY, -1));
    TwoOps(s, SemBuf(BINARY, 1), SemBuf(FULL, 1));
  }

  lemma ConsumerArrays(s: Sems)
    ensures Apply(s, CONSUMER_START) ==
            if s[FULL] >= 1 && s[BINARY] >= 1
            then Some(s[FULL := s[FULL] - 1][BINARY := s[BINARY] - 1]) else None
    ensures Apply(s, CONSUMER_STOP) == Some(s[BINARY := s[BINARY] + 1][EMPTY := s[EMPTY] + 1])
  {
    TwoOps(s, SemBuf(FULL, -1), SemBuf(BINARY, -1));
    TwoOps(s, SemBuf(BINARY, 1), SemBuf(EMPTY, 1));
  }

  // ---------------------------------------------------------------- the steps

  datatype ProducerPc = P76 | P37 | P41 | P42Load | P42Store | P43Load | P43Print | P44 | P45Load | P45Store | P46 | P81
  datatype ConsumerPc = C95 | C54 | C58Load | C58Read | C59Load | C59Store | C61 | C99

  /** A process: where it is, its registers, its loop variable and its COUNT. A
      producer owns a private copy of `output`, made by `fork`. */
  datatype Proc =
    | Producer(ppc: ProducerPc, cur: int, pos: int, output: int, i: nat, quota: nat)
    | Consumer(cpc: ConsumerPc, pos: int, i: nat, quota: nat)

  /** A store into the buffer, or a load from it. */
  datatype Item = Item(who: nat, slot: int, value: int)

  /** Shared memory and semaphores. `produced` and `consumed` record the buffer's history, and
      `announced` the items producers print. */
  datatype Shared = Shared(
    sems: Sems,
    posProducer: int,
    posConsumer: int,
    buffer: seq<int>,
    produced: seq<Item>,
    announced: seq<Item>,
    consumed: seq<Item>)

  datatype State = State(g: Shared, procs: seq<Proc>)

  function Ops(p: Proc): (ops: seq<SemBuf>)
    ensures InSet(ops, 3)
  {
    match p
    case Producer(pc, _, _, _, _, _) => if pc.P37? then PRODUCER_START else if pc.P46? then PRODUCER_STOP else []
    case Consumer(pc, _, _, _) => if pc.C54? then CONSUMER_START else if pc.C61? then CONSUMER_STOP else []
  }

  predicate Finished(p: Proc) {
    if p.Producer? then p.ppc.P81? else p.cpc.C99?
  }

  predicate CanRun(g: Shared, p: Proc) {
    !Finished(p) && Apply(g.sems, Ops(p)).Some?
  }

  // The memory access `shm_buffer[i]`; outside the segment it has no effect here,
  // and the invariant shows that it never is.
  function Put(buffer: seq<int>, i: int, v: int): seq<int> {
    if 0 <= i < |buffer| then buffer[i := v] else buffer
  }

  function Get(buffer: seq<int>, i: int): int {
    if 0 <= i < |buffer| then buffer[i] else 0
  }

  /** `char cur = output`: eight bits with a sign. */
  function ToChar(x: int): int { (x + 128) % 256 - 128 }

  function ProducerMove(me: nat, g: Shared, p: Proc): (Shared, Proc)
    requires p.Producer? && CanRun(g, p)
  {
    match p.ppc
    case P76 => (g, p.(ppc := if p.i < p.quota then P37 else P81))
    case P37 => (g.(sems := Apply(g.sems, PRODUCER_START).value), p.(ppc := P41))
    case P41 => (g, p.(ppc := P42Load, cur := ToChar(p.output)))
    case P42Load => (g, p.(ppc := P42Store, pos := g.posProducer))
    case P42Store =>
      (g.(buffer := Put(g.buffer, p.pos, p.cur), produced := g.produced + [Item(me, p.pos, p.cur)]),
       p.(ppc := P43Load))
    case P43Load => (g, p.(ppc := P43Print, pos := g.posProducer))
    case P43Print =>
      (g.(announced := g.announced + [Item(me, p.pos, Get(g.buffer, p.pos))]), p.(ppc := P44))
    case P44 => (g, p.(ppc := P45Load, output := p.output + 1))
    case P45Load => (g, p.(ppc := P45Store, pos := g.posProducer))
    case P45Store => (g.(posProducer := p.pos + 1), p.(ppc := P46))
    case P46 => (g.(sems := Apply(g.sems, PRODUCER_STOP).value), p.(ppc := P76, i := p.i + 1))
  }

  function ConsumerMove(me: nat, g: Shared, p: Proc): (Shared, Proc)
    requires p.Consumer? && CanRun(g, p)
  {
    match p.cpc
    case C95 => (g, p.(cpc := if p.i < p.quota then C54 else C99))
    case C54 => (g.(sems := Apply(g.sems, CONSUMER_START).value), p.(cpc := C58Load))
    case C58Load => (g, p.(cpc := C58Read, pos := g.posConsumer))
    case C58Read => (g.(consumed := g.consumed + [Item(me, p.pos, Get(g.buffer, p.pos))]), p.(cpc := C59Load))
    case C59Load => (g, p.(cpc := C59Store, pos := g.posConsumer))
    case C59Store => (g.(posConsumer := p.pos + 1), p.(cpc := C61))
    case C61 => (g.(sems := Apply(g.sems, CONSUMER_STOP).value), p.(cpc := C95, i := p.i + 1))
  }

  function Move(me: nat, g: Shared, p: Proc): (Shared, Proc)
    requires CanRun(g, p)
  {
    if p.Producer? then ProducerMove(me, g, p) else ConsumerMove(me, g, p)
  }

  predicate Enabled(s: State, t: nat) {
    t < |s.procs| && CanRun(s.g, s.procs[t])
  }

  function Next(s: State, t: nat): State
    requires Enabled(s, t)
  {
    var (g, p) := Move(t, s.g, s.procs[t]);
    State(g, s.procs[t := p])
  }

  function ProducerQuota(p: Proc): int { if p.Producer? then p.quota else 0 }

  function ConsumerQuota(p: Proc): int { if p.Consumer? then p.quota else 0 }

  predicate AtStart(p: Proc) {
    p.i == 0 && if p.Producer? then p.ppc.P76? && p.output == 97 else p.cpc.C95?
  }

  /** What `main` sets up, for a capacity `n` and a segment that has a slot for
      every item, since the positions never wrap. */
  predicate Init(s: State, n: nat) {
    && n >= 1
    && s.g == Shared([1, n, 0], 0, 0, s.g.buffer, [], [], [])
    && (forall t :: 0 <= t < |s.procs| ==> AtStart(s.procs[t]))
    && Sum(s.procs, ProducerQuota) <= |s.g.buffer|
  }

  // -------------------------------------------------------------- who is where

  function Inside(p: Proc): int {
    Counted(if p.Producer? then p.ppc !in {P76, P37, P81} else p.cpc !in {C95, C54, C99})
  }

  // What each process has contributed, so far, to each shared quantity.
  function FullShare(p: Proc): int { if p.Producer? then p.i else -(p.i as int) - Inside(p) }
  function EmptyShare(p: Proc): int { if p.Producer? then -(p.i as int) - Inside(p) else p.i }
  function PutShare(p: Proc): int { if p.Producer? then p.i + Counted(p.ppc == P46) else 0 }
  function TakenShare(p: Proc): int { if p.Consumer? then p.i + Counted(p.cpc == C61) else 0 }
  function StoredShare(p: Proc): int {
    if p.Producer? then p.i + Counted(p.ppc in {P43Load, P43Print, P44, P45Load, P45Store, P46}) else 0
  }
  function AnnouncedShare(p: Proc): int {
    if p.Producer? then p.i + Counted(p.ppc in {P44, P45Load, P45Store, P46}) else 0
  }
  function ReadShare(p: Proc): int {
    if p.Consumer? then p.i + Counted(p.cpc in {C59Load, C59Store, C61}) else 0
  }

  // ------------------------------------------------------------ the invariant

  predicate CountInv(s: State, n: nat) {
    && s.g.sems[BINARY] == 1 - Sum(s.procs, Inside)
    && s.g.sems[FULL] == Sum(s.procs, FullShare)
    && s.g.sems[EMPTY] == n + Sum(s.procs, EmptyShare)
    && s.g.posProducer == Sum(s.procs, PutShare)
    && s.g.posConsumer == Sum(s.procs, TakenShare)
    && |s.g.produced| == Sum(s.procs, StoredShare)
    && |s.g.announced| == Sum(s.procs, AnnouncedShare)
    && |s.g.consumed| == Sum(s.procs, ReadShare)
    && Sum(s.procs, ProducerQuota) <= |s.g.buffer|
  }

  /** What a process may rely on about its registers. */
  predicate LocalOk(g: Shared, p: Proc) {
    && p.i <= p.quota
    && match p
       case Producer(pc, cur, pos, output, i, quota) =>
         && (pc !in {P76, P81} ==> i < quota)
         && (pc == P81 ==> i == quota)
         && output == 97 + i + Counted(pc in {P45Load, P45Store, P46})
         && (pc in {P42Load, P42Store} ==> cur == ToChar(output))
         && (pc in {P42Store, P43Print, P45Store} ==> pos == g.posProducer)
       case Consumer(pc, pos, i, quota) =>
         && (pc !in {C95, C99} ==> i < quota)
         && (pc == C99 ==> i == quota)
         && (pc in {C58Read, C59Store} ==> pos == g.posConsumer)
  }

  predicate LocalInv(s: State) {
    forall t :: 0 <= t < |s.procs| ==> LocalOk(s.g, s.procs[t])
  }

  /** The values process `who` stored, in order. */
  function Mine(items: seq<Item>, who: nat): seq<int> {
    if items == [] then []
    else
      var last := items[|items| - 1];
      Mine(items[..|items| - 1], who) + if last.who == who then [last.value] else []
  }

  /** 97, 98, 99, ... as characters. */
  function Letters(n: nat): seq<int> { seq(n, k => ToChar(97 + k)) }

  /** What a `char` makes of an `int`: the one in its range that agrees modulo 256. */
  lemma ToCharIs(x: int)
    ensures -128 <= ToChar(x) <= 127 && (ToChar(x) - x) % 256 == 0
    ensures -128 <= x <= 127 ==> ToChar(x) == x
  {
  }

  /** The first 31 letters are 97 to 127; after that the `char` wraps. */
  lemma LettersAre(n: nat, k: nat)
    requires k < n
    ensures |Letters(n)| == n && -128 <= Letters(n)[k] <= 127 && (Letters(n)[k] - (97 + k)) % 256 == 0
    ensures k <= 30 ==> Letters(n)[k] == 97 + k
    ensures k == 31 ==> Letters(n)[k] == -128
  {
    ToCharIs(97 + k);
  }

  /** Slot k was written by the k-th store and still holds its value; the k-th load and the
      k-th line printed by a producer took that value from slot k; each producer has stored its own letters in order. */
  predicate HistoryInv(s: State) {
    && |s.g.consumed| <= |s.g.produced| <= |s.g.buffer| && |s.g.announced| <= |s.g.produced|
    && (forall k :: 0 <= k < |s.g.produced| ==>
          && s.g.produced[k].slot == k && s.g.produced[k].who < |s.procs|
          && s.procs[s.g.produced[k].who].Producer?
          && s.g.buffer[k] == s.g.produced[k].value)
    && (forall k :: 0 <= k < |s.g.consumed| ==>
          s.g.consumed[k].slot == k && s.g.consumed[k].value == s.g.produced[k].value)
    && (forall k :: 0 <= k < |s.g.announced| ==>
          s.g.announced[k].slot == k && s.g.announced[k].value == s.g.produced[k].value)
    && (forall t :: 0 <= t < |s.procs| && s.procs[t].Producer? ==>
          Mine(s.g.produced, t) == Letters(StoredShare(s.procs[t])))
  }

  predicate Inv(s: State, n: nat) {
    CountInv(s, n) && LocalInv(s) && HistoryInv(s)
  }

  lemma InitCounts(s: State, n: nat)
    requires Init(s, n)
    ensures CountInv(s, n)
  {
    SumZero(s.procs, Inside);
    SumZero(s.procs, FullShare);
    SumZero(s.procs, EmptyShare);
    SumZero(s.procs, PutShare);
    SumZero(s.procs, TakenShare);
    SumZero(s.procs, StoredShare);
    SumZero(s.procs, AnnouncedShare);
    SumZero(s.procs, ReadShare);
  }

  lemma InitInv(s: State, n: nat)
    requires Init(s, n)
    ensures Inv(s, n)
  {
    InitCounts(s, n);
  }

  // Facts about one move.

  lemma MoveSems(me: nat, g: Shared, p: Proc)
    requires CanRun(g, p)
    ensures var (g', p') := Move(me, g, p);
            && g'.sems[BINARY] + Inside(p') == g.sems[BINARY] + Inside(p)
            && g'.sems[FULL] - FullShare(p') == g.sems[FULL] - FullShare(p)
            && g'.sems[EMPTY] - EmptyShare(p') == g.sems[EMPTY] - EmptyShare(p)
  {
    ProducerArrays(g.sems);
    ConsumerArrays(g.sems);
  }

  lemma MovePositions(me: nat, g: Shared, p: Proc)
    requires CanRun(g, p) && LocalOk(g, p)
    ensures var (g', p') := Move(me, g, p);
            && g'.posProducer - g.posProducer == PutShare(p') - PutShare(p)
            && g'.posConsumer - g.posConsumer == TakenShare(p') - TakenShare(p)
            && |g'.produced| - |g.produced| == StoredShare(p') - StoredShare(p)
            && |g'.announced| - |g.announced| == AnnouncedShare(p') - AnnouncedShare(p)
            && |g'.consumed| - |g.consumed| == ReadShare(p') - ReadShare(p)
            && |g'.buffer| == |g.buffer|
            && ProducerQuota(p') == ProducerQuota(p) && ConsumerQuota(p') == ConsumerQuota(p)
            && p'.Producer? == p.Producer?
  {
  }

  lemma MoveLocal(me: nat, g: Shared, p: Proc)
    requires CanRun(g, p) && LocalOk(g, p)
    ensures LocalOk(Move(me, g, p).0, Move(me, g, p).1)
  {
  }

  /** Outside, a process touches nothing but the semaphores. */
  lemma MoveOutside(me: nat, g: Shared, p: Proc)
    requires CanRun(g, p) && Inside(p) == 0
    ensures Move(me, g, p).0 == g.(sems := Move(me, g, p).0.sems)
  {
  }

  /** At most one process is inside. */
  lemma Exclusive(s: State, n: nat, t: nat, u: nat)
    requires CountInv(s, n) && t < |s.procs| && u < |s.procs| && t != u && Inside(s.procs[t]) == 1
    ensures Inside(s.procs[u]) == 0
  {
    if Inside(s.procs[u]) == 1 {
      SumTwo(s.procs, Inside, if t < u then t else u, if t < u then u else t);
    }
  }

  lemma CountsAfter(s: State, n: nat, t: nat, g: Shared, p: Proc)
    requires CountInv(s, n) && t < |s.procs|
    requires g.sems[BINARY] + Inside(p) == s.g.sems[BINARY] + Inside(s.procs[t])
    requires g.sems[FULL] - FullShare(p) == s.g.sems[FULL] - FullShare(s.procs[t])
    requires g.sems[EMPTY] - EmptyShare(p) == s.g.sems[EMPTY] - EmptyShare(s.procs[t])
    requires g.posProducer - s.g.posProducer == PutShare(p) - PutShare(s.procs[t])
    requires g.posConsumer - s.g.posConsumer == TakenShare(p) - TakenShare(s.procs[t])
    requires |g.produced| - |s.g.produced| == StoredShare(p) - StoredShare(s.procs[t])
    requires |g.announced| - |s.g.announced| == AnnouncedShare(p) - AnnouncedShare(s.procs[t])
    requires |g.consumed| - |s.g.consumed| == ReadShare(p) - ReadShare(s.procs[t])
    requires |g.buffer| == |s.g.buffer| && ProducerQuota(p) == ProducerQuota(s.procs[t])
    ensures CountInv(State(g, s.procs[t := p]), n)
  {
    SumUpdate(s.procs, Inside, t, p);
    SumUpdate(s.procs, FullShare, t, p);
    SumUpdate(s.procs, EmptyShare, t, p);
    SumUpdate(s.procs, PutShare, t, p);
    SumUpdate(s.procs, TakenShare, t, p);
    SumUpdate(s.procs, StoredShare, t, p);
    SumUpdate(s.procs, AnnouncedShare, t, p);
    SumUpdate(s.procs, ReadShare, t, p);
    SumUpdate(s.procs, ProducerQuota, t, p);
  }

  lemma StepCounts(s: State, n: nat, t: nat)
    requires CountInv(s, n) && LocalInv(s) && Enabled(s, t)
    ensures CountInv(Next(s, t), n)
  {
    MoveSems(t, s.g, s.procs[t]);
    MovePositions(t, s.g, s.procs[t]);
    CountsAfter(s, n, t, Move(t, s.g, s.procs[t]).0, Move(t, s.g, s.procs[t]).1);
  }

  lemma StepLocal(s: State, n: nat, t: nat)
    requires CountInv(s, n) && LocalInv(s) && Enabled(s, t)
    ensures LocalInv(Next(s, t))
  {
    var (g, p) := Move(t, s.g, s.procs[t]);
    MoveLocal(t, s.g, s.procs[t]);
    forall u | 0 <= u < |s.procs| && u != t ensures LocalOk(g, s.procs[u]) {
      assert LocalOk(s.g, s.procs[u]);
      if Inside(s.procs[t]) == 1 {
        Exclusive(s, n, t, u);
      } else {
        MoveOutside(t, s.g, s.procs[t]);
      }
    }
  }

  // How the shared quantities stand to each other.

  function Unposted(p: Proc): int { StoredShare(p) - PutShare(p) }
  function Unannounced(p: Proc): int { StoredShare(p) - AnnouncedShare(p) }
  function Unpassed(p: Proc): int { ReadShare(p) - TakenShare(p) }
  function ReadPlusFull(p: Proc): int { ReadShare(p) + FullShare(p) }
  function TakenPlusFull(p: Proc): int { TakenShare(p) + FullShare(p) }
  function PutPlusEmpty(p: Proc): int { PutShare(p) + EmptyShare(p) }
  function FullPlusEmpty(p: Proc): int { FullShare(p) + EmptyShare(p) }
  function Nothing(p: Proc): int { 0 }

  lemma SlotsConserved(s: State, n: nat)
    requires CountInv(s, n)
    ensures s.g.sems[EMPTY] + s.g.sems[FULL] + 1 == n + s.g.sems[BINARY]
  {
    SumPlus(s.procs, FullShare, EmptyShare, FullPlusEmpty);
    SumPlus(s.procs, FullPlusEmpty, Inside, Nothing);
    SumZero(s.procs, Nothing);
  }

  lemma AheadByFull(s: State, n: nat)
    requires CountInv(s, n)
    ensures s.g.sems[FULL] <= s.g.posProducer - s.g.posConsumer
  {
    SumPlus(s.procs, TakenShare, FullShare, TakenPlusFull);
    SumMono(s.procs, TakenPlusFull, PutShare, 0);
  }

  lemma AheadWithinCapacity(s: State, n: nat)
    requires CountInv(s, n)
    ensures s.g.posProducer - s.g.posConsumer <= n - s.g.sems[EMPTY]
  {
    SumPlus(s.procs, PutShare, EmptyShare, PutPlusEmpty);
    SumMono(s.procs, PutPlusEmpty, TakenShare, 0);
  }

  /** A slot is empty, full, or in the hands of the one process inside; so the
      positions are never further apart than the capacity. */
  lemma Conservation(s: State, n: nat)
    requires CountInv(s, n)
    ensures s.g.sems[EMPTY] + s.g.sems[FULL] + 1 == n + s.g.sems[BINARY]
    ensures s.g.sems[FULL] <= s.g.posProducer - s.g.posConsumer <= n - s.g.sems[EMPTY]
    ensures s.g.sems[BINARY] == 1 ==> s.g.sems[FULL] == s.g.posProducer - s.g.posConsumer
  {
    SlotsConserved(s, n);
    AheadByFull(s, n);
    AheadWithinCapacity(s, n);
  }

  /** The slots loaded are slots stored, with at least one to spare for a consumer about to load. */
  lemma ReadsBehindStores(s: State, n: nat, t: nat)
    requires CountInv(s, n) && t < |s.procs|
    ensures |s.g.consumed| <= |s.g.produced|
    ensures s.procs[t].Consumer? && s.procs[t].cpc == C58Read ==> |s.g.consumed| < |s.g.produced|
  {
    SumPlus(s.procs, ReadShare, FullShare, ReadPlusFull);
    SumMono(s.procs, ReadPlusFull, StoredShare, t);
  }

  /** The stores fit the buffer, with at least one slot to spare for a producer about to store. */
  lemma StoresFit(s: State, n: nat, t: nat)
    requires CountInv(s, n) && LocalInv(s) && t < |s.procs|
    ensures |s.g.produced| <= |s.g.buffer|
    ensures s.procs[t].Producer? && s.procs[t].ppc == P42Store ==> |s.g.produced| < |s.g.buffer|
  {
    forall j | 0 <= j < |s.procs| ensures StoredShare(s.procs[j]) <= ProducerQuota(s.procs[j]) {
      assert LocalOk(s.g, s.procs[j]);
    }
    assert LocalOk(s.g, s.procs[t]);
    SumMono(s.procs, StoredShare, ProducerQuota, t);
  }

  /** Whoever is inside knows how many stores and loads there have been. */
  lemma InsideKnows(s: State, n: nat, t: nat)
    requires CountInv(s, n) && t < |s.procs| && Inside(s.procs[t]) == 1
    ensures |s.g.produced| - s.g.posProducer == Unposted(s.procs[t])
    ensures |s.g.produced| - |s.g.announced| == Unannounced(s.procs[t])
    ensures |s.g.consumed| - s.g.posConsumer == Unpassed(s.procs[t])
  {
    forall u | 0 <= u < |s.procs| && u != t
      ensures Unposted(s.procs[u]) == 0 && Unannounced(s.procs[u]) == 0 && Unpassed(s.procs[u]) == 0
    {
      Exclusive(s, n, t, u);
    }
    SumAlone(s.procs, Unposted, t);
    SumAlone(s.procs, Unannounced, t);
    SumAlone(s.procs, Unpassed, t);
    SumPlus(s.procs, Unposted, PutShare, StoredShare);
    SumPlus(s.procs, Unannounced, AnnouncedShare, StoredShare);
    SumPlus(s.procs, Unpassed, TakenShare, ReadShare);
  }

  /** Only line 42 stores, line 43 prints and line 58 loads. */
  lemma MoveElsewhere(me: nat, g: Shared, p: Proc)
    requires CanRun(g, p) && !(p.Producer? && p.ppc in {P42Store, P43Print}) && !(p.Consumer? && p.cpc == C58Read)
    ensures var (g', p') := Move(me, g, p);
            && g'.produced == g.produced && g'.consumed == g.consumed && g'.buffer == g.buffer
            && g'.announced == g.announced
            && p'.Producer? == p.Producer? && StoredShare(p') == StoredShare(p)
  {
  }

  lemma HistoryAfter(s: State, t: nat, g: Shared, p: Proc)
    requires HistoryInv(s) && t < |s.procs|
    requires g.produced == s.g.produced && g.consumed == s.g.consumed && g.buffer == s.g.buffer
    requires g.announced == s.g.announced
    requires p.Producer? == s.procs[t].Producer? && StoredShare(p) == StoredShare(s.procs[t])
    ensures HistoryInv(State(g, s.procs[t := p]))
  {
  }

  lemma PrintHistory(s: State, t: nat)
    requires HistoryInv(s) && Enabled(s, t) && s.procs[t].Producer? && s.procs[t].ppc == P43Print
    requires s.procs[t].pos == |s.g.announced| < |s.g.produced|
    ensures HistoryInv(Next(s, t))
  {
  }

  lemma LoadHistory(s: State, t: nat)
    requires HistoryInv(s) && Enabled(s, t) && s.procs[t].Consumer? && s.procs[t].cpc == C58Read
    requires s.procs[t].pos == |s.g.consumed| < |s.g.produced|
    ensures HistoryInv(Next(s, t))
  {
  }

  lemma StoreMine(s: State, t: nat, u: nat)
    requires HistoryInv(s) && Enabled(s, t) && s.procs[t].Producer? && s.procs[t].ppc == P42Store
    requires s.procs[t].cur == ToChar(97 + s.procs[t].i) && u < |s.procs| && s.procs[u].Producer?
    ensures Mine(Next(s, t).g.produced, u) == Letters(StoredShare(Next(s, t).procs[u]))
  {
    var p, items := s.procs[t], s.g.produced;
    assert (items + [Item(t, p.pos, p.cur)])[..|items|] == items;
    if u == t { assert Letters(p.i + 1) == Letters(p.i) + [ToChar(97 + p.i)]; }
  }

  lemma StoreHistory(s: State, t: nat)
    requires HistoryInv(s) && Enabled(s, t) && s.procs[t].Producer? && s.procs[t].ppc == P42Store
    requires s.procs[t].pos == |s.g.produced| < |s.g.buffer| && s.procs[t].cur == ToChar(97 + s.procs[t].i)
    ensures HistoryInv(Next(s, t))
  {
    var n := Next(s, t);
    forall u | 0 <= u < |n.procs| && n.procs[u].Producer?
      ensures Mine(n.g.produced, u) == Letters(StoredShare(n.procs[u]))
    {
      StoreMine(s, t, u);
    }
  }

  lemma StepHistory(s: State, n: nat, t: nat)
    requires Inv(s, n) && Enabled(s, t)
    ensures HistoryInv(Next(s, t))
  {
    var p := s.procs[t];
    assert LocalOk(s.g, p);
    if p.Producer? && p.ppc == P42Store {
      InsideKnows(s, n, t);
      StoresFit(s, n, t);
      StoreHistory(s, t);
    } else if p.Producer? && p.ppc == P43Print {
      InsideKnows(s, n, t);
      PrintHistory(s, t);
    } else if p.Consumer? && p.cpc == C58Read {
      InsideKnows(s, n, t);
      ReadsBehindStores(s, n, t);
      LoadHistory(s, t);
    } else {
      MoveElsewhere(t, s.g, p);
      HistoryAfter(s, t, Move(t, s.g, p).0, Move(t, s.g, p).1);
    }
  }

  lemma StepInv(s: State, n: nat, t: nat)
    requires Inv(s, n) && Enabled(s, t)
    ensures Inv(Next(s, t), n)
  {
    StepCounts(s, n, t);
    StepLocal(s, n, t);
    StepHistory(s, n, t);
  }

  // ---------------------------------------------------------------------- runs

  predicate Runs(s: State, sched: seq<nat>)
    decreases |sched|
  {
    sched == [] || (Enabled(s, sched[0]) && Runs(Next(s, sched[0]), sched[1..]))
  }

  function After(s: State, sched: seq<nat>): State
    requires Runs(s, sched)
    decreases |sched|
  {
    if sched == [] then s else After(Next(s, sched[0]), sched[1..])
  }

  /** What every step keeps, apart from the invariant: the processes and their quotas. */
  predicate SameQuotas(s: State, s': State) {
    && |s.procs| == |s'.procs|
    && (forall t :: 0 <= t < |s.procs| ==>
          s.procs[t].Producer? == s'.procs[t].Producer? && s.procs[t].quota == s'.procs[t].quota)
  }

  lemma MoveQuota(me: nat, g: Shared, p: Proc)
    requires CanRun(g, p)
    ensures Move(me, g, p).1.quota == p.quota && Move(me, g, p).1.Producer? == p.Producer?
  {
  }

  lemma StepQuotas(s: State, t: nat)
    requires Enabled(s, t)
    ensures SameQuotas(s, Next(s, t))
  {
    MoveQuota(t, s.g, s.procs[t]);
  }

  lemma QuotasCompose(a: State, b: State, c: State)
    requires SameQuotas(a, b) && SameQuotas(b, c)
    ensures SameQuotas(a, c)
  {
    forall t | 0 <= t < |a.procs|
      ensures a.procs[t].Producer? == c.procs[t].Producer? && a.procs[t].quota == c.procs[t].quota
    {
      assert a.procs[t].quota == b.procs[t].quota;
    }
  }

  lemma {:induction false} RunInv(s: State, n: nat, sched: seq<nat>)
    requires Inv(s, n) && Runs(s, sched)
    ensures Inv(After(s, sched), n) && SameQuotas(s, After(s, sched))
    decreases |sched|
  {
    if sched != [] {
      var s1 := Next(s, sched[0]);
      StepInv(s, n, sched[0]);
      StepQuotas(s, sched[0]);
      RunInv(s1, n, sched[1..]);
      QuotasCompose(s, s1, After(s1, sched[1..]));
    }
  }

  predicate InRange(g: Shared, p: Proc) {
    && (p.Producer? && p.ppc in {P42Store, P43Print} ==> 0 <= p.pos < |g.buffer|)
    && (p.Consumer? && p.cpc == C58Read ==> 0 <= p.pos < |g.buffer|)
  }

  /** What holds in every reachable state. */
  ghost predicate Safe(s: State, n: nat) {
    // no slot is lost or made up
    && s.g.sems[EMPTY] + s.g.sems[FULL] + 1 == n + s.g.sems[BINARY]
    && 0 <= s.g.posProducer - s.g.posConsumer <= n
    // the history of the buffer, and with it what was consumed is a prefix of what was produced
    && HistoryInv(s)
    // each producer's items are consumed in the order 97, 98, 99, ...
    && (forall t :: 0 <= t < |s.procs| && s.procs[t].Producer? ==>
          Mine(s.g.produced[..|s.g.consumed|], t) <= Letters(StoredShare(s.procs[t])))
    // no access to the buffer is out of range
    && (forall t :: 0 <= t < |s.procs| ==> InRange(s.g, s.procs[t]))
  }

  lemma {:induction false} MinePrefix(items: seq<Item>, k: nat, who: nat)
    requires k <= |items|
    ensures Mine(items[..k], who) <= Mine(items, who)
    decreases |items| - k
  {
    if k < |items| {
      assert items[..k + 1][..k] == items[..k];
      MinePrefix(items, k + 1, who);
    } else {
      assert items[..k] == items;
    }
  }

  lemma InvSafe(s: State, n: nat)
    requires Inv(s, n)
    ensures Safe(s, n)
  {
    Conservation(s, n);
    forall t | 0 <= t < |s.procs| ensures InRange(s.g, s.procs[t]) {
      assert LocalOk(s.g, s.procs[t]);
      if Inside(s.procs[t]) == 1 {
        InsideKnows(s, n, t);
        StoresFit(s, n, t);
        ReadsBehindStores(s, n, t);
      }
    }
    forall t | 0 <= t < |s.procs| && s.procs[t].Producer?
      ensures Mine(s.g.produced[..|s.g.consumed|], t) <= Letters(StoredShare(s.procs[t]))
    {
      MinePrefix(s.g.produced, |s.g.consumed|, t);
    }
  }

  // ----------------------------------------------------------------- who does what

  /** Items handled by one process. */
  function By(who: nat): Item -> int { (x: Item) => Counted(x.who == who) }

  /** Between its store and its `printf`. */
  predicate ToAnnounce(p: Proc) { p.Producer? && p.ppc in {P43Load, P43Print} }

  predicate LastBy(items: seq<Item>, who: nat) {
    items != [] && items[|items| - 1].who == who
  }

  /** A producer prints the very item it stored, and every process has stored or loaded as
      often as it has gone through. */
  ghost predicate WhoInv(s: State) {
    && s.g.announced <= s.g.produced
    && (forall t :: 0 <= t < |s.procs| && ToAnnounce(s.procs[t]) ==> LastBy(s.g.produced, t))
    && (forall t :: 0 <= t < |s.procs| ==> Handled(s.g, t, s.procs[t]))
  }

  predicate Handled(g: Shared, t: nat, p: Proc) {
    Sum(g.produced, By(t)) == StoredShare(p) && Sum(g.consumed, By(t)) == ReadShare(p)
  }

  lemma InitWho(s: State, n: nat)
    requires Init(s, n)
    ensures WhoInv(s)
  {
  }

  /** Line 42 stores one item, line 43 prints one and line 58 loads one, each of the process that runs it. */
  lemma MoveLogs(me: nat, g: Shared, p: Proc)
    requires CanRun(g, p)
    ensures var (g', p') := Move(me, g, p);
            && g'.produced == (if p.Producer? && p.ppc == P42Store
                               then g.produced + [Item(me, p.pos, p.cur)] else g.produced)
            && g'.announced == (if p.Producer? && p.ppc == P43Print
                                then g.announced + [Item(me, p.pos, Get(g.buffer, p.pos))] else g.announced)
            && g'.consumed == (if p.Consumer? && p.cpc == C58Read
                               then g.consumed + [Item(me, p.pos, Get(g.buffer, p.pos))] else g.consumed)
            && StoredShare(p') - StoredShare(p) == Counted(p.Producer? && p.ppc == P42Store)
            && ReadShare(p') - ReadShare(p) == Counted(p.Consumer? && p.cpc == C58Read)
            && (ToAnnounce(p') ==> ToAnnounce(p) || (p.Producer? && p.ppc == P42Store))
  {
  }

  lemma HandledOne(g: Shared, g': Shared, x: Item, u: nat, p: Proc, p': Proc)
    requires Handled(g, u, p)
    requires (g'.produced == g.produced && StoredShare(p') == StoredShare(p))
          || (g'.produced == g.produced + [x] && StoredShare(p') == StoredShare(p) + By(u)(x))
    requires (g'.consumed == g.consumed && ReadShare(p') == ReadShare(p))
          || (g'.consumed == g.consumed + [x] && ReadShare(p') == ReadShare(p) + By(u)(x))
    ensures Handled(g', u, p')
  {
    SumAppend(g.produced, By(u), x);
    SumAppend(g.consumed, By(u), x);
  }

  lemma MoveHandled(me: nat, g: Shared, p: Proc, u: nat, other: Proc)
    requires CanRun(g, p) && Handled(g, u, other) && (u == me ==> other == p)
    ensures Handled(Move(me, g, p).0, u, if u == me then Move(me, g, p).1 else other)
  {
    var (g', p') := Move(me, g, p);
    MoveLogs(me, g, p);
    var x := if p.Producer? then Item(me, p.pos, p.cur) else Item(me, p.pos, Get(g.buffer, p.pos));
    HandledOne(g, g', x, u, other, if u == me then p' else other);
  }

  /** The item a producer prints is the last one stored. */
  lemma AnnouncesOwn(s: State, n: nat, t: nat)
    requires Inv(s, n) && WhoInv(s) && t < |s.procs| && s.procs[t].Producer? && s.procs[t].ppc == P43Print
    ensures s.g.announced + [Item(t, s.procs[t].pos, Get(s.g.buffer, s.procs[t].pos))] == s.g.produced
  {
    InsideKnows(s, n, t);
    assert LocalOk(s.g, s.procs[t]);
    var k := |s.g.announced|;
    assert s.g.produced[k] == Item(t, s.procs[t].pos, Get(s.g.buffer, s.procs[t].pos));
    assert s.g.produced == s.g.produced[..k] + [s.g.produced[k]];
  }

  lemma StepAnnounced(s: State, n: nat, t: nat)
    requires Inv(s, n) && WhoInv(s) && Enabled(s, t)
    ensures Next(s, t).g.announced <= Next(s, t).g.produced
  {
    MoveLogs(t, s.g, s.procs[t]);
    if s.procs[t].Producer? && s.procs[t].ppc == P43Print { AnnouncesOwn(s, n, t); }
  }

  /** Whoever is about to print its item was the last to store. */
  lemma StepLast(s: State, n: nat, t: nat, u: nat)
    requires CountInv(s, n) && Enabled(s, t) && u < |s.procs| && ToAnnounce(Next(s, t).procs[u])
    requires ToAnnounce(s.procs[u]) ==> LastBy(s.g.produced, u)
    ensures LastBy(Next(s, t).g.produced, u)
  {
    MoveLogs(t, s.g, s.procs[t]);
    if u != t && s.procs[t].Producer? && s.procs[t].ppc == P42Store { Exclusive(s, n, t, u); }
  }

  lemma StepWho(s: State, n: nat, t: nat)
    requires Inv(s, n) && WhoInv(s) && Enabled(s, t)
    ensures WhoInv(Next(s, t))
  {
    var s' := Next(s, t);
    StepAnnounced(s, n, t);
    forall u | 0 <= u < |s'.procs| && ToAnnounce(s'.procs[u])
      ensures LastBy(s'.g.produced, u)
    {
      StepLast(s, n, t, u);
    }
    forall u | 0 <= u < |s'.procs| ensures Handled(s'.g, u, s'.procs[u]) {
      MoveHandled(t, s.g, s.procs[t], u, s.procs[u]);
    }
  }

  lemma {:induction false} RunWho(s: State, n: nat, sched: seq<nat>)
    requires Inv(s, n) && WhoInv(s) && Runs(s, sched)
    ensures WhoInv(After(s, sched))
    decreases |sched|
  {
    if sched != [] {
      StepInv(s, n, sched[0]);
      StepWho(s, n, sched[0]);
      RunWho(Next(s, sched[0]), n, sched[1..]);
    }
  }

  lemma ReachableStates(s0: State, n: nat, sched: seq<nat>)
    requires Init(s0, n) && Runs(s0, sched)
    ensures Safe(After(s0, sched), n) && WhoInv(After(s0, sched))
  {
    InitInv(s0, n);
    InitWho(s0, n);
    RunInv(s0, n, sched);
    RunWho(s0, n, sched);
    InvSafe(After(s0, sched), n);
  }

  /** An unfinished process waits exactly at its start array, while the lock or the slots it
      needs are 0. */
  lemma WaitsIff(s: State, t: nat)
    requires t < |s.procs| && !Finished(s.procs[t])
    ensures !Enabled(s, t) <==>
            if s.procs[t].Producer? then s.procs[t].ppc == P37 && (s.g.sems[EMPTY] == 0 || s.g.sems[BINARY] == 0)
            else s.procs[t].cpc == C54 && (s.g.sems[FULL] == 0 || s.g.sems[BINARY] == 0)
  {
    ProducerArrays(s.g.sems);
    ConsumerArrays(s.g.sems);
  }

  // ------------------------------------------------- when everybody can finish

  predicate AllFinished(s: State) {
    forall t :: 0 <= t < |s.procs| ==> Finished(s.procs[t])
  }

  ghost predicate Stuck(s: State) {
    forall t :: !Enabled(s, t)
  }

  /** A process that is stuck is finished or waits for a slot, and then nobody is inside. */
  lemma StuckShape(s: State, n: nat)
    requires Inv(s, n) && Stuck(s)
    ensures s.g.sems[BINARY] == 1
    ensures forall t :: 0 <= t < |s.procs| && !Finished(s.procs[t]) ==>
              if s.procs[t].Producer? then s.procs[t].ppc == P37 && s.g.sems[EMPTY] == 0
              else s.procs[t].cpc == C54 && s.g.sems[FULL] == 0
  {
    ProducerArrays(s.g.sems);
    ConsumerArrays(s.g.sems);
    forall t | 0 <= t < |s.procs| ensures Inside(s.procs[t]) == 0 {
      assert !Enabled(s, t);
    }
    SumZero(s.procs, Inside);
    forall t | 0 <= t < |s.procs| && !Finished(s.procs[t])
      ensures if s.procs[t].Producer? then s.procs[t].ppc == P37 && s.g.sems[EMPTY] == 0
              else s.procs[t].cpc == C54 && s.g.sems[FULL] == 0
    {
      assert !Enabled(s, t);
    }
  }

  lemma AtRest(s: State, n: nat, t: nat)
    requires Inv(s, n) && Stuck(s) && t < |s.procs|
    ensures PutShare(s.procs[t]) <= ProducerQuota(s.procs[t])
    ensures TakenShare(s.procs[t]) <= ConsumerQuota(s.procs[t])
    ensures s.procs[t].i == s.procs[t].quota <==> Finished(s.procs[t])
    ensures PutShare(s.procs[t]) + TakenShare(s.procs[t]) == s.procs[t].i
  {
    StuckShape(s, n);
    assert LocalOk(s.g, s.procs[t]);
  }

  /** Positions against quotas: level exactly when the processes of that side are finished. */
  lemma ProducersAtRest(s: State, n: nat)
    requires Inv(s, n) && Stuck(s)
    ensures s.g.posProducer <= Sum(s.procs, ProducerQuota)
    ensures s.g.posProducer == Sum(s.procs, ProducerQuota) <==>
            forall t :: 0 <= t < |s.procs| && s.procs[t].Producer? ==> Finished(s.procs[t])
  {
    forall t | 0 <= t < |s.procs|
      ensures PutShare(s.procs[t]) <= ProducerQuota(s.procs[t])
      ensures s.procs[t].Producer? ==> (PutShare(s.procs[t]) == ProducerQuota(s.procs[t]) <==> Finished(s.procs[t]))
    {
      AtRest(s, n, t);
    }
    SumMono(s.procs, PutShare, ProducerQuota, 0);
    if t :| 0 <= t < |s.procs| && s.procs[t].Producer? && !Finished(s.procs[t]) {
      SumMono(s.procs, PutShare, ProducerQuota, t);
    } else {
      SumSame(s.procs, PutShare, ProducerQuota);
    }
  }

  lemma ConsumersAtRest(s: State, n: nat)
    requires Inv(s, n) && Stuck(s)
    ensures s.g.posConsumer <= Sum(s.procs, ConsumerQuota)
    ensures s.g.posConsumer == Sum(s.procs, ConsumerQuota) <==>
            forall t :: 0 <= t < |s.procs| && s.procs[t].Consumer? ==> Finished(s.procs[t])
  {
    forall t | 0 <= t < |s.procs|
      ensures TakenShare(s.procs[t]) <= ConsumerQuota(s.procs[t])
      ensures s.procs[t].Consumer? ==> (TakenShare(s.procs[t]) == ConsumerQuota(s.procs[t]) <==> Finished(s.procs[t]))
    {
      AtRest(s, n, t);
    }
    SumMono(s.procs, TakenShare, ConsumerQuota, 0);
    if t :| 0 <= t < |s.procs| && s.procs[t].Consumer? && !Finished(s.procs[t]) {
      SumMono(s.procs, TakenShare, ConsumerQuota, t);
    } else {
      SumSame(s.procs, TakenShare, ConsumerQuota);
    }
  }

  /** A run that cannot go on has finished all processes exactly when the consumers want no
      more than is produced, and leave behind no more than the buffer's capacity. */
  lemma StuckIff(s: State, n: nat)
    requires Inv(s, n) && n >= 1 && Stuck(s)
    ensures AllFinished(s) <==>
            Sum(s.procs, ConsumerQuota) <= Sum(s.procs, ProducerQuota) <= Sum(s.procs, ConsumerQuota) + n
  {
    StuckShape(s, n);
    ProducersAtRest(s, n);
    ConsumersAtRest(s, n);
    Conservation(s, n);
  }

  lemma {:induction false} SameSums(s: State, s': State)
    requires SameQuotas(s, s')
    ensures Sum(s.procs, ProducerQuota) == Sum(s'.procs, ProducerQuota)
    ensures Sum(s.procs, ConsumerQuota) == Sum(s'.procs, ConsumerQuota)
    decreases |s.procs|
  {
    if s.procs != [] {
      SameSums(State(s.g, s.procs[1..]), State(s'.g, s'.procs[1..]));
    }
  }

  /** From the start of the program: the totals decide whether a run that cannot go on is done. */
  lemma FinishIff(s0: State, n: nat, sched: seq<nat>)
    requires Init(s0, n) && Runs(s0, sched) && Stuck(After(s0, sched))
    ensures var made, wanted := Sum(s0.procs, ProducerQuota), Sum(s0.procs, ConsumerQuota);
            AllFinished(After(s0, sched)) <==> wanted <= made <= wanted + n
  {
    InitInv(s0, n);
    RunInv(s0, n, sched);
    SameSums(s0, After(s0, sched));
    StuckIff(After(s0, sched), n);
  }

  /** With such totals, the equal ones of `main` among them, nobody is ever left waiting. */
  lemma NeverStuck(s0: State, n: nat, sched: seq<nat>, t: nat)
    requires Init(s0, n) && Runs(s0, sched)
    requires Sum(s0.procs, ConsumerQuota) <= Sum(s0.procs, ProducerQuota) <= Sum(s0.procs, ConsumerQuota) + n
    requires t < |After(s0, sched).procs| && !Finished(After(s0, sched).procs[t])
    ensures exists u :: Enabled(After(s0, sched), u)
  {
    InitInv(s0, n);
    RunInv(s0, n, sched);
    var s := After(s0, sched);
    SameSums(s0, s);
    if Stuck(s) { StuckIff(s, n); }
  }

  // ---------------------------------------------------------------- termination

  function Position(p: Proc): nat {
    match p
    case Producer(pc, _, _, _, _, _) =>
      (match pc
       case P76 => 0 case P37 => 1 case P41 => 2 case P42Load => 3 case P42Store => 4
       case P43Load => 5 case P43Print => 6 case P44 => 7 case P45Load => 8 case P45Store => 9 case P46 => 10
       case P81 => 1)
    case Consumer(pc, _, _, _) =>
      (match pc
       case C95 => 0 case C54 => 1 case C58Load => 2 case C58Read => 3
       case C59Load => 4 case C59Store => 5 case C61 => 6 case C99 => 1)
  }

  /** Steps a process still has to make. */
  function StepsLeft(p: Proc): int {
    1 + (if p.Producer? then 11 else 7) * (p.quota - p.i) - Position(p)
  }

  function Work(s: State): int { Sum(s.procs, StepsLeft) }

  /** Every step is one step less to make. */
  lemma MoveLeft(me: nat, g: Shared, p: Proc)
    requires CanRun(g, p) && LocalOk(g, p)
    ensures StepsLeft(Move(me, g, p).1) == StepsLeft(p) - 1
  {
  }

  lemma WorkBound(s: State)
    requires LocalInv(s)
    ensures Work(s) >= 0
  {
    forall t | 0 <= t < |s.procs| ensures StepsLeft(s.procs[t]) >= 0 {
      assert LocalOk(s.g, s.procs[t]);
    }
    SumBound(s.procs, StepsLeft);
  }

  lemma Advance(s: State, n: nat, t: nat)
    requires Inv(s, n) && Enabled(s, t)
    ensures Inv(Next(s, t), n) && SameQuotas(s, Next(s, t))
    ensures 0 <= Work(Next(s, t)) == Work(s) - 1
  {
    StepInv(s, n, t);
    StepQuotas(s, t);
    assert LocalOk(s.g, s.procs[t]);
    MoveLeft(t, s.g, s.procs[t]);
    SumUpdate(s.procs, StepsLeft, t, Next(s, t).procs[t]);
    WorkBound(Next(s, t));
  }

  /** No run is longer than the work at its start. */
  lemma {:induction false} RunBound(s: State, n: nat, sched: seq<nat>)
    requires Inv(s, n) && Runs(s, sched)
    ensures |sched| + Work(After(s, sched)) == Work(s) && Work(After(s, sched)) >= 0
    decreases |sched|
  {
    if sched == [] {
      WorkBound(s);
    } else {
      Advance(s, n, sched[0]);
      RunBound(Next(s, sched[0]), n, sched[1..]);
    }
  }

  // ------------------------------------------------------------- the end of a run

  function Values(items: seq<Item>): seq<int> {
    seq(|items|, k requires 0 <= k < |items| => items[k].value)
  }

  /** What each process stored, as a bag. */
  function Share(items: seq<Item>): nat -> multiset<int> { (who: nat) => multiset(Mine(items, who)) }

  lemma MineAppend(items: seq<Item>, x: Item, who: nat)
    ensures multiset(Mine(items + [x], who)) ==
            if who == x.who then multiset(Mine(items, who)) + multiset{x.value} else multiset(Mine(items, who))
  {
    assert (items + [x])[..|items|] == items;
    if x.who == who {
      assert Mine(items + [x], who) == Mine(items, who) + [x.value];
    } else {
      assert Mine(items + [x], who) == Mine(items, who);
    }
  }

  lemma PoolAppend(items: seq<Item>, x: Item, m: nat)
    requires x.who < m
    ensures Pool(Share(items + [x]), m) == Pool(Share(items), m) + multiset{x.value}
  {
    var f, g := Share(items), Share(items + [x]);
    forall i: nat | i < m ensures g(i) == if i == x.who then f(i) + multiset{x.value} else f(i) {
      MineAppend(items, x, i);
    }
    PoolAdd(f, g, x.who, multiset{x.value}, m);
  }

  lemma ValuesAppend(items: seq<Item>, x: Item)
    ensures multiset(Values(items + [x])) == multiset(Values(items)) + multiset{x.value}
  {
    assert Values(items + [x]) == Values(items) + [x.value];
  }

  /** The shares of all processes make up all the items. */
  lemma {:induction false} SharesAreAll(items: seq<Item>, m: nat)
    requires forall k :: 0 <= k < |items| ==> items[k].who < m
    ensures Pool(Share(items), m) == multiset(Values(items))
    decreases |items|
  {
    if items == [] {
      PoolEmpty(Share(items), m);
    } else {
      var init, x := items[..|items| - 1], items[|items| - 1];
      assert items == init + [x];
      SharesAreAll(init, m);
      PoolAppend(init, x, m);
      ValuesAppend(init, x);
    }
  }

  /** The letters each process is to produce: 97, 98, ... up to its quota. */
  function Range(procs: seq<Proc>): nat -> multiset<int> {
    (t: nat) => if t < |procs| then multiset(Letters(ProducerQuota(procs[t]))) else multiset{}
  }

  lemma {:induction false} MineOfNobody(items: seq<Item>, who: nat)
    requires forall k :: 0 <= k < |items| ==> items[k].who != who
    ensures Mine(items, who) == []
    decreases |items|
  {
    if items != [] { MineOfNobody(items[..|items| - 1], who); }
  }

  /** A finished process has stored its whole range. */
  lemma MineIsRange(s: State, t: nat)
    requires LocalInv(s) && HistoryInv(s) && t < |s.procs| && Finished(s.procs[t])
    ensures Mine(s.g.produced, t) == Letters(ProducerQuota(s.procs[t]))
  {
    assert LocalOk(s.g, s.procs[t]);
    if s.procs[t].Consumer? { MineOfNobody(s.g.produced, t); }
  }

  /** When all is done: what was produced is, as a multiset, what every producer was to
      produce; what was consumed is the front of it, in the order produced; and the
      semaphores and positions tell how much is left over. */
  ghost predicate Final(s: State, n: nat) {
    var made, wanted := Sum(s.procs, ProducerQuota), Sum(s.procs, ConsumerQuota);
    && AllFinished(s)
    && |s.g.produced| == made >= wanted >= 0
    && multiset(Values(s.g.produced)) == Pool(Range(s.procs), |s.procs|)
    && Values(s.g.consumed) == Values(s.g.produced)[..wanted]
    && s.g.sems[BINARY] == 1 && s.g.sems[EMPTY] == n - (made - wanted) && s.g.sems[FULL] == made - wanted
    && s.g.posProducer == made && s.g.posConsumer == wanted
  }

  lemma FinishedShares(s: State, t: nat)
    requires LocalInv(s) && AllFinished(s) && t < |s.procs|
    ensures StoredShare(s.procs[t]) == PutShare(s.procs[t]) == ProducerQuota(s.procs[t])
    ensures ReadShare(s.procs[t]) == TakenShare(s.procs[t]) == ConsumerQuota(s.procs[t])
  {
    assert LocalOk(s.g, s.procs[t]);
  }

  lemma FinishedCounts(s: State, n: nat)
    requires Inv(s, n) && AllFinished(s)
    ensures var made, wanted := Sum(s.procs, ProducerQuota), Sum(s.procs, ConsumerQuota);
            |s.g.produced| == s.g.posProducer == made && |s.g.consumed| == s.g.posConsumer == wanted
  {
    forall t | 0 <= t < |s.procs|
      ensures StoredShare(s.procs[t]) == PutShare(s.procs[t]) == ProducerQuota(s.procs[t])
      ensures ReadShare(s.procs[t]) == TakenShare(s.procs[t]) == ConsumerQuota(s.procs[t])
    {
      FinishedShares(s, t);
    }
    SumSame(s.procs, StoredShare, ProducerQuota);
    SumSame(s.procs, PutShare, ProducerQuota);
    SumSame(s.procs, ReadShare, ConsumerQuota);
    SumSame(s.procs, TakenShare, ConsumerQuota);
  }

  lemma FinishedSems(s: State, n: nat)
    requires Inv(s, n) && AllFinished(s)
    ensures var left := s.g.posProducer - s.g.posConsumer;
            s.g.sems[BINARY] == 1 && s.g.sems[EMPTY] == n - left && s.g.sems[FULL] == left
  {
    SumZero(s.procs, Inside);
    Conservation(s, n);
  }

  lemma FinishedPool(s: State)
    requires LocalInv(s) && HistoryInv(s) && AllFinished(s)
    ensures multiset(Values(s.g.produced)) == Pool(Range(s.procs), |s.procs|)
  {
    forall t | 0 <= t < |s.procs| ensures Mine(s.g.produced, t) == Letters(ProducerQuota(s.procs[t])) {
      MineIsRange(s, t);
    }
    PoolSame(Share(s.g.produced), Range(s.procs), |s.procs|);
    SharesAreAll(s.g.produced, |s.procs|);
  }

  /** What was consumed is the front of what was produced. */
  lemma ConsumedFront(s: State)
    requires HistoryInv(s)
    ensures Values(s.g.consumed) == Values(s.g.produced)[..|s.g.consumed|]
  {
  }

  lemma FinishedIsFinal(s: State, n: nat)
    requires Inv(s, n) && AllFinished(s)
    ensures Final(s, n)
  {
    FinishedCounts(s, n);
    FinishedSems(s, n);
    FinishedPool(s);
    ConsumedFront(s);
  }

  lemma WholeFront(a: seq<int>, b: seq<int>, k: nat)
    requires k == |a| && b == a[..k]
    ensures a == b
  {
  }

  /** At the end every producer has stored, and every consumer loaded, its quota. */
  ghost predicate AllHandled(s: State) {
    forall t :: 0 <= t < |s.procs| ==>
      && Sum(s.g.produced, By(t)) == ProducerQuota(s.procs[t])
      && Sum(s.g.consumed, By(t)) == ConsumerQuota(s.procs[t])
  }

  lemma FinishedHandled(s: State)
    requires LocalInv(s) && WhoInv(s) && AllFinished(s)
    ensures AllHandled(s)
  {
    forall t | 0 <= t < |s.procs|
      ensures StoredShare(s.procs[t]) == ProducerQuota(s.procs[t]) && ReadShare(s.procs[t]) == ConsumerQuota(s.procs[t])
    {
      FinishedShares(s, t);
    }
  }

  /** With equal totals nothing is left over. */
  lemma EqualTotals(s: State, n: nat)
    requires Final(s, n) && Sum(s.procs, ProducerQuota) == Sum(s.procs, ConsumerQuota)
    ensures Values(s.g.consumed) == Values(s.g.produced)
    ensures multiset(Values(s.g.consumed)) == Pool(Range(s.procs), |s.procs|)
    ensures s.g.sems[BINARY] == 1 && s.g.sems[EMPTY] == n && s.g.sems[FULL] == 0
  {
    var made, taken := Values(s.g.produced), Values(s.g.consumed);
    WholeFront(made, taken, Sum(s.procs, ConsumerQuota));
    assert taken == made;
  }

  /** Every maximal run ends in the final state, unless the totals leave somebody waiting. */
  lemma MaximalRun(s0: State, n: nat, sched: seq<nat>)
    requires Init(s0, n) && Runs(s0, sched) && Stuck(After(s0, sched))
    ensures SameQuotas(s0, After(s0, sched))
    ensures var made, wanted := Sum(s0.procs, ProducerQuota), Sum(s0.procs, ConsumerQuota);
            if wanted <= made <= wanted + n then Final(After(s0, sched), n) && AllHandled(After(s0, sched))
            else !AllFinished(After(s0, sched))
  {
    InitInv(s0, n);
    InitWho(s0, n);
    RunInv(s0, n, sched);
    RunWho(s0, n, sched);
    FinishIff(s0, n, sched);
    if AllFinished(After(s0, sched)) {
      FinishedIsFinal(After(s0, sched), n);
      FinishedHandled(After(s0, sched));
    }
  }

  // What a scheduler that runs to the end needs.

  lemma SomebodyRuns(s0: State, s: State, n: nat)
    requires Inv(s, n) && SameQuotas(s0, s) && n >= 1 && !AllFinished(s)
    requires Sum(s0.procs, ConsumerQuota) <= Sum(s0.procs, ProducerQuota) <= Sum(s0.procs, ConsumerQuota) + n
    ensures exists t: nat :: Enabled(s, t)
  {
    SameSums(s0, s);
    if Stuck(s) { StuckIff(s, n); }
  }

  lemma AdvanceFrom(s0: State, s: State, n: nat, t: nat)
    requires Inv(s, n) && WhoInv(s) && SameQuotas(s0, s) && Enabled(s, t)
    ensures Inv(Next(s, t), n) && WhoInv(Next(s, t)) && SameQuotas(s0, Next(s, t))
    ensures 0 <= Work(Next(s, t)) < Work(s)
  {
    Advance(s, n, t);
    StepWho(s, n, t);
    QuotasCompose(s0, s, Next(s, t));
  }

  lemma AllDone(s0: State, s: State, n: nat)
    requires Inv(s, n) && WhoInv(s) && SameQuotas(s0, s) && AllFinished(s)
    ensures Final(s, n) && AllHandled(s)
    ensures Pool(Range(s.procs), |s.procs|) == Pool(Range(s0.procs), |s0.procs|)
  {
    FinishedIsFinal(s, n);
    FinishedHandled(s);
    PoolSame(Range(s0.procs), Range(s.procs), |s.procs|);
  }

  // ------------------------------------------------------- the segment as requested

  // Lines 126 and 127 step by sizeof(int) ints.
  const POS_CONSUMER: nat := 4
  const BUFFER: nat := 8

  /** Line 16 asks for N + 2 ints. */
  predicate InSegment(n: nat, slot: int) {
    0 <= BUFFER + slot < n + 2
  }

  predicate AllInSegment(items: seq<Item>, n: nat) {
    forall k :: 0 <= k < |items| ==> InSegment(n, items[k].slot)
  }

  lemma StoresInSegment(items: seq<Item>, n: nat)
    requires forall k :: 0 <= k < |items| ==> items[k].slot == k
    ensures AllInSegment(items, n) <==> items == [] || |items| + 6 <= n
  {
    if items != [] { assert items[|items| - 1].slot == |items| - 1; }
  }

  /** Where nobody can move, every store has been posted. */
  lemma StuckCount(s: State, n: nat)
    requires Inv(s, n) && Stuck(s)
    ensures |s.g.produced| == s.g.posProducer
  {
    StuckShape(s, n);
    forall t | 0 <= t < |s.procs| ensures StoredShare(s.procs[t]) == PutShare(s.procs[t]) {
      AtRest(s, n, t);
    }
    SumSame(s.procs, StoredShare, PutShare);
  }

  /** How much is produced in the end: all, or as much as is taken and the buffer holds. */
  lemma StuckProduced(s: State, n: nat)
    requires Inv(s, n) && n >= 1 && Stuck(s)
    ensures var made, wanted := Sum(s.procs, ProducerQuota), Sum(s.procs, ConsumerQuota);
            |s.g.produced| == if made <= wanted + n then made else wanted + n
  {
    StuckCount(s, n);
    StuckShape(s, n);
    ProducersAtRest(s, n);
    ConsumersAtRest(s, n);
    Conservation(s, n);
  }

  /** Every maximal run stays within the ints asked for exactly when nothing or at least 6
      items less than N are to be produced. */
  lemma SegmentIff(s0: State, n: nat, sched: seq<nat>)
    requires Init(s0, n) && Runs(s0, sched) && Stuck(After(s0, sched))
    ensures AllInSegment(After(s0, sched).g.produced, n) <==>
            Sum(s0.procs, ProducerQuota) == 0 || Sum(s0.procs, ProducerQuota) + 6 <= n
  {
    InitInv(s0, n);
    RunInv(s0, n, sched);
    SameSums(s0, After(s0, sched));
    StuckProduced(After(s0, sched), n);
    SumBound(s0.procs, ConsumerQuota);
    StoresInSegment(After(s0, sched).g.produced, n);
  }

  /** For one, `main`: with N = 9 and 9 items to produce, every maximal run leaves them. */
  lemma MainLeavesSegment(s0: State, sched: seq<nat>)
    requires Init(s0, 9) && Runs(s0, sched) && Stuck(After(s0, sched))
    requires Sum(s0.procs, ProducerQuota) == 9
    ensures !AllInSegment(After(s0, sched).g.produced, 9)
  {
    SegmentIff(s0, 9, sched);
  }

  // ---------------------------------------------------------------- the program

  /** The shared segment and the semaphore set, updated in place by the processes. */
  class Program {
    var sems: Sems
    const segment: array<int>  // the positions at 0 and POS_CONSUMER, the buffer from BUFFER on
    var produced: seq<Item>
    var announced: seq<Item>
    var consumed: seq<Item>
    var procs: seq<Proc>

    predicate Mapped() { segment.Length >= BUFFER }

    function View(): State
      requires Mapped()
      reads this, segment
    {
      State(Shared(sems, segment[0], segment[POS_CONSUMER], segment[BUFFER..], produced, announced, consumed), procs)
    }

    /** `main`: the segment, the initial semaphore values and the forks. */
    constructor (n: nat, segment: array<int>, procs: seq<Proc>)
      requires n >= 1 && BUFFER + Sum(procs, ProducerQuota) <= segment.Length
      requires BUFFER <= segment.Length
      requires forall t :: 0 <= t < |procs| ==> AtStart(procs[t])
      modifies segment
      ensures Mapped() && Init(View(), n) && this.procs == procs && this.segment == segment
    {
      sems, produced, announced, consumed := [1, n, 0], [], [], [];
      this.segment, this.procs := segment, procs;
      new;
      segment[0], segment[POS_CONSUMER] := 0, 0;
    }

    /** The system call: all of the array, or nothing and the caller waits. */
    method Semop(ops: seq<SemBuf>) returns (done: bool)
      requires InSet(ops, 3)
      modifies this`sems
      ensures done == Apply(old(sems), ops).Some?
      ensures sems == if done then Apply(old(sems), ops).value else old(sems)
    {
      var after := Apply(sems, ops);
      done := after.Some?;
      if done { sems := after.value; }
    }

    /** `shm_buffer[pos] = cur` */
    method Poke(pos: int, cur: int)
      requires Mapped()
      modifies segment
      ensures segment[0] == old(segment[0]) && segment[POS_CONSUMER] == old(segment[POS_CONSUMER])
      ensures segment[BUFFER..] == Put(old(segment[BUFFER..]), pos, cur)
    {
      if 0 <= pos < segment.Length - BUFFER { segment[BUFFER + pos] := cur; }
    }

    /** Producer `t` is given the processor; it stays where it is if its `semop` has to wait. */
    method ProducerStep(t: nat)
      requires Mapped() && t < |procs| && procs[t].Producer?
      modifies this, segment
      ensures View() == if old(Enabled(View(), t)) then Next(old(View()), t) else old(View())
    {
      var p := procs[t];
      var at, cur, pos, output, i := p.ppc, p.cur, p.pos, p.output, p.i;
      match p.ppc {
        case P76 => at := if i < p.quota then P37 else P81;
        case P37 => var ok := Semop(PRODUCER_START); at := if ok then P41 else P37;
        case P41 => cur, at := ToChar(output), P42Load;
        case P42Load => pos, at := segment[0], P42Store;
        case P42Store =>
          Poke(pos, cur);
          produced, at := produced + [Item(t, pos, cur)], P43Load;
        case P43Load => pos, at := segment[0], P43Print;
        case P43Print =>
          announced, at := announced + [Item(t, pos, Get(segment[BUFFER..], pos))], P44;
        case P44 => output, at := output + 1, P45Load;
        case P45Load => pos, at := segment[0], P45Store;
        case P45Store => segment[0] := pos + 1; at := P46;
        case P46 => var ok := Semop(PRODUCER_STOP); if ok { i, at := i + 1, P76; }
        case P81 =>
      }
      procs := procs[t := Producer(at, cur, pos, output, i, p.quota)];
    }

    /** Consumer `t` is given the processor. */
    method ConsumerStep(t: nat)
      requires Mapped() && t < |procs| && procs[t].Consumer?
      modifies this, segment
      ensures View() == if old(Enabled(View(), t)) then Next(old(View()), t) else old(View())
    {
      var p := procs[t];
      var at, pos, i := p.cpc, p.pos, p.i;
      match p.cpc {
        case C95 => at := if i < p.quota then C54 else C99;
        case C54 => var ok := Semop(CONSUMER_START); at := if ok then C58Load else C54;
        case C58Load => pos, at := segment[POS_CONSUMER], C58Read;
        case C58Read =>
          consumed, at := consumed + [Item(t, pos, Get(segment[BUFFER..], pos))], C59Load;
        case C59Load => pos, at := segment[POS_CONSUMER], C59Store;
        case C59Store => segment[POS_CONSUMER] := pos + 1; at := C61;
        case C61 => var ok := Semop(CONSUMER_STOP); if ok { i, at := i + 1, C95; }
        case C99 =>
      }
      procs := procs[t := Consumer(at, pos, i, p.quota)];
    }

    /** The whole program under an arbitrary scheduler: when no more is wanted than made, and
        no more left over than fits, it always reaches the final state. */
    method RunToEnd(n: nat)
      requires Mapped() && Init(View(), n)
      requires Sum(procs, ConsumerQuota) <= Sum(procs, ProducerQuota) <= Sum(procs, ConsumerQuota) + n
      modifies this, segment
      ensures Final(View(), n) && AllHandled(View()) && SameQuotas(old(View()), View())
      ensures Pool(Range(procs), |procs|) == Pool(Range(old(procs)), |old(procs)|)
    {
      ghost var s0, s := View(), View();
      InitInv(s, n);
      InitWho(s, n);
      while exists u :: 0 <= u < |procs| && !Finished(procs[u])
        invariant s == View() && Inv(s, n) && WhoInv(s) && SameQuotas(s0, s)
        decreases Work(s)
      {
        SomebodyRuns(s0, s, n);
        var t: nat :| t < |procs| && Enabled(View(), t);
        AdvanceFrom(s0, s, n, t);
        s := Next(s, t);
        if procs[t].Producer? { ProducerStep(t); } else { ConsumerStep(t); }
      }
      AllDone(s0, s, n);
    }
  }
}
