/** The fortune cookie pot of a kernel module (6-semestr/lab4/part2/fortune.c):
    an append-only byte array, read cyclically. */
module Fortune {
  import opened Bytes

  const ENOSPC: int := 28
  const EFAULT: int := 14

  // ------------------------------------------------------------- specification

  /** `cookie_pot`, `cookie_index` and `next_fortune`. */
  datatype Pot = Pot(mem: seq<byte>, index: nat, next: nat) {
    /** The cookies written so far, each ended by a NUL. */
    function Contents(): seq<byte>
      requires index <= |mem|
    {
      mem[..index]
    }

    /** What every operation keeps: the cookies end with a NUL, and without cookies there
        is still a NUL somewhere for `strlen` to find. */
    predicate Good() {
      && index <= |mem|
      && if index > 0 then mem[index - 1] == 0 else 0 in mem
    }
  }

  /** `memcpy`: `bytes` over `mem` from `at` on. */
  function Overlay(mem: seq<byte>, at: nat, bytes: seq<byte>): seq<byte>
    requires at + |bytes| <= |mem|
  {
    mem[..at] + bytes + mem[at + |bytes|..]
  }

  lemma OverlayEnd(mem: seq<byte>, at: nat, bytes: seq<byte>)
    requires at + |bytes| <= |mem| && bytes != []
    ensures Overlay(mem, at, bytes)[at + |bytes| - 1 := 0] == Overlay(mem, at, bytes[..|bytes| - 1] + [0])
  {
  }

  /** `strlen(&mem[at])`, or the rest of `mem` when there is no NUL. */
  function StrLen(mem: seq<byte>, at: nat): (n: nat)
    requires at <= |mem|
    ensures at + n <= |mem| && (at + n < |mem| ==> mem[at + n] == 0)
    ensures forall i :: at <= i < at + n ==> mem[i] != 0
    decreases |mem| - at
  {
    if at == |mem| || mem[at] == 0 then 0 else 1 + StrLen(mem, at + 1)
  }

  /** The space check on line 26 lets in one byte more than MAX_COOKIE_LENGTH = |mem| - 1. */
  function Space(p: Pot): int { |p.mem| - p.index }

  /** A write that fits; its last byte becomes the NUL. An empty one puts the NUL where
      the last cookie already has it. */
  function Written(p: Pot, buf: seq<byte>): Pot
    requires p.Good() && |buf| <= Space(p)
  {
    if buf == [] then p
    else Pot(Overlay(p.mem, p.index, buf[..|buf| - 1] + [0]), p.index + |buf|, p.next)
  }

  /** Where a fresh read starts. */
  function Start(p: Pot): nat { if p.next >= p.index then 0 else p.next }

  /** How many bytes a fresh read of at most `len` bytes copies, if the copy does not fault. */
  function ReadSize(p: Pot, len: nat): nat
    requires Start(p) <= |p.mem|
  {
    var l := StrLen(p.mem, Start(p)) + 1;
    if l > len then len else l
  }

  /** `strlen` meets a NUL inside the array. */
  predicate Readable(p: Pot) {
    Start(p) <= |p.mem| && Start(p) + StrLen(p.mem, Start(p)) < |p.mem|
  }

  /** The pot after a fresh read, and the bytes copied. */
  function Fetch(p: Pot, len: nat, ok: bool): (Pot, seq<byte>)
    requires Readable(p)
  {
    var l := if ok then ReadSize(p, len) else 0;
    (p.(next := Start(p) + l), p.mem[Start(p)..Start(p) + l])
  }

  // ------------------------------------------------------- what one write touches

  /** The cells an accepted write of `len` bytes stores to. */
  predicate Stores(p: Pot, len: nat, cell: int) {
    p.index <= cell < p.index + len || cell == p.index + len - 1
  }

  /** An accepted write stays within the MAX_COOKIE_LENGTH = |mem| - 1 bytes allocated exactly
      when it does not use the one byte too many, and is not an empty write to an empty pot. */
  lemma WriteStays(p: Pot, len: nat)
    requires p.Good() && len <= Space(p)
    ensures (forall cell :: Stores(p, len, cell) ==> 0 <= cell < |p.mem| - 1) <==>
            len < Space(p) && (len > 0 || p.index > 0)
  {
    assert Stores(p, len, p.index + len - 1);
  }

  /** For one: a write of MAX_COOKIE_LENGTH + 1 bytes to a new pot is accepted, and stores
      behind the bytes allocated. */
  lemma NewPotOverflow(mem: seq<byte>)
    requires 0 in mem
    ensures |mem| <= Space(Pot(mem, 0, 0)) && Stores(Pot(mem, 0, 0), |mem|, |mem| - 1)
  {
  }

  // -------------------------------------------------------- what one read does

  lemma GoodIsReadable(p: Pot)
    requires p.Good()
    ensures Readable(p)
    ensures p.index > 0 ==> Start(p) + StrLen(p.mem, Start(p)) < p.index
  {
    if p.index > 0 {
      assert p.mem[p.index - 1] == 0;
    } else {
      var i :| 0 <= i < |p.mem| && p.mem[i] == 0;
    }
  }

  /** A read stays within the cookies exactly when there are cookies, or nothing is to be copied. */
  lemma ReadStays(p: Pot, len: nat, ok: bool)
    requires p.Good()
    ensures Readable(p)
    ensures Fetch(p, len, ok).0.next <= p.index <==> p.index > 0 || len == 0 || !ok
  {
    GoodIsReadable(p);
  }

  /** The family that fails: every effective read of an empty pot moves `next_fortune` past
      `cookie_index`; in a new pot, to 1. */
  lemma EmptyPotRead(p: Pot, len: nat)
    requires p.Good() && p.index == 0 && len >= 1
    ensures Readable(p)
    ensures Fetch(p, len, true).0 == p.(next := ReadSize(p, len)) && ReadSize(p, len) >= 1
    ensures p.mem[0] == 0 ==> ReadSize(p, len) == 1
  {
    GoodIsReadable(p);
  }

  /** What it costs: of the first cookie written after it, as many bytes are skipped, unless
      it is no longer than that; in a new pot, the first byte of any cookie but an empty one. */
  lemma FirstBytesSkipped(p: Pot, len: nat, buf: seq<byte>)
    requires p.Good() && p.index == 0 && len >= 1 && 1 <= |buf| <= Space(p)
    ensures Readable(p)
    ensures var q := Fetch(p, len, true).0;
            && Start(Written(q, buf)) == (if |buf| > ReadSize(p, len) then ReadSize(p, len) else 0)
            && (p.mem[0] == 0 ==> (Start(Written(q, buf)) == 0 <==> |buf| == 1))
  {
    GoodIsReadable(p);
    EmptyPotRead(p, len);
  }

  /** A faulting copy moves `next_fortune` only if it was due to wrap, and a read right
      after it is the same as if it had not happened. */
  lemma FaultIsInvisible(p: Pot, len: nat, len': nat, ok: bool)
    requires p.Good()
    ensures Readable(p)
    ensures var q := Fetch(p, len, false).0;
            && Fetch(p, len, false).1 == []
            && (q == p <==> p.next < p.index || p.next == 0)
            && Readable(q) && Fetch(q, len', ok) == Fetch(p, len', ok)
  {
    GoodIsReadable(p);
  }

  /** But a write in between tells: without the fault the next read starts with what was
      written, after it with the first cookie again. */
  lemma FaultThenWrite(p: Pot, len: nat, buf: seq<byte>)
    requires p.Good() && 1 <= |buf| <= Space(p)
    ensures Readable(p)
    ensures var q := Fetch(p, len, false).0;
            && (p.next == p.index > 0 ==> Start(Written(p, buf)) == p.index && Start(Written(q, buf)) == 0)
            && (Written(p, buf) == Written(q, buf) <==> p.next < p.index || p.next == 0)
  {
    GoodIsReadable(p);
  }

  // --------------------------------------------------- a run reads the pot once per lap

  /** A call into the module. A copy into the pot is whole when all of `buf` has arrived; `ok`
      is a copy out of the pot that does not fault. */
  datatype Op =
    | Write(buf: seq<byte>, arrived: nat)
    | Read(len: nat, ok: bool)

  /** What `copy_from_user` makes of `buf` when only part of it arrives: it pads with zeros. */
  function Padded(buf: seq<byte>, arrived: nat): (b: seq<byte>)
    ensures |b| == |buf|
  {
    seq(|buf|, i requires 0 <= i < |buf| => if i < arrived then buf[i] else 0)
  }

  /** A faulting write changes only bytes behind the cookies, and ends them with a NUL. */
  function Faulted(p: Pot, buf: seq<byte>, arrived: nat): (q: Pot)
    requires p.Good() && arrived < |buf| <= Space(p)
    ensures q.Good() && q == p.(mem := q.mem) && q.mem[..p.index] == p.Contents()
  {
    var q := p.(mem := Overlay(p.mem, p.index, Padded(buf, arrived)));
    assert q.mem[p.index + |buf| - 1] == 0;
    q
  }

  /** The pot after one call. */
  function Exec(p: Pot, op: Op): (q: Pot)
    requires p.Good()
    ensures q.Good() && |q.mem| == |p.mem|
  {
    match op
    case Write(buf, arrived) =>
      if |buf| > Space(p) then p
      else if arrived < |buf| then Faulted(p, buf, arrived)
      else Written(p, buf)
    case Read(len, ok) => GoodIsReadable(p); Fetch(p, len, ok).0
  }

  /** The bytes a call copies out. */
  function Copied(p: Pot, op: Op): seq<byte>
    requires p.Good()
  {
    match op
    case Write(_, _) => []
    case Read(len, ok) => GoodIsReadable(p); Fetch(p, len, ok).1
  }

  /** The bytes copied out since `next_fortune` last went back to 0. */
  function Lap(p: Pot, lap: seq<byte>, op: Op): seq<byte>
    requires p.Good()
  {
    (if op.Read? && p.next >= p.index then [] else lap) + Copied(p, op)
  }

  /** No read of an empty pot that copies anything. */
  predicate Allowed(p: Pot, op: Op) {
    op.Read? ==> p.index > 0 || op.len == 0 || !op.ok
  }

  /** The bytes of this lap are exactly the pot up to `next_fortune`. */
  predicate OnTrack(p: Pot, lap: seq<byte>) {
    p.Good() && p.next <= p.index && lap == p.mem[..p.next]
  }

  lemma CutCut(mem: seq<byte>, n: nat, k: nat)
    requires k <= n <= |mem|
    ensures mem[..n][..k] == mem[..k]
  {
  }

  lemma LapWrite(p: Pot, lap: seq<byte>, buf: seq<byte>, arrived: nat)
    requires OnTrack(p, lap)
    ensures var q := Exec(p, Write(buf, arrived));
            OnTrack(q, lap) && p.index <= q.index && q.mem[..p.index] == p.Contents()
  {
    var q := Exec(p, Write(buf, arrived));
    assert q.mem[..p.index] == p.Contents();
    CutCut(q.mem, p.index, p.next);
    CutCut(p.mem, p.index, p.next);
  }

  lemma CutTwice(mem: seq<byte>, a: nat, b: nat)
    requires a <= b <= |mem|
    ensures mem[..b] == mem[..a] + mem[a..b]
  {
  }

  /** A read moves `next_fortune` over the bytes it copies, all of them cookies. */
  lemma FetchWithin(p: Pot, len: nat, ok: bool)
    requires p.Good() && (p.index > 0 || len == 0 || !ok)
    ensures Readable(p)
    ensures var (q, out) := Fetch(p, len, ok);
            && q == p.(next := q.next) && Start(p) <= q.next <= p.index
            && out == p.mem[Start(p)..q.next]
  {
    GoodIsReadable(p);
  }

  lemma LapRead(p: Pot, lap: seq<byte>, len: nat, ok: bool)
    requires OnTrack(p, lap) && Allowed(p, Read(len, ok))
    ensures OnTrack(Exec(p, Read(len, ok)), Lap(p, lap, Read(len, ok)))
  {
    FetchWithin(p, len, ok);
    CutTwice(p.mem, Start(p), Fetch(p, len, ok).0.next);
  }

  /** A call leaves the lap on track exactly when it is allowed, and keeps all cookies. */
  lemma LapStep(p: Pot, lap: seq<byte>, op: Op)
    requires OnTrack(p, lap)
    ensures OnTrack(Exec(p, op), Lap(p, lap, op)) <==> Allowed(p, op)
    ensures p.index <= Exec(p, op).index && Exec(p, op).mem[..p.index] == p.Contents()
  {
    match op
    case Write(buf, arrived) => LapWrite(p, lap, buf, arrived);
    case Read(len, ok) =>
      GoodIsReadable(p);
      ReadStays(p, len, ok);
      if Allowed(p, op) { LapRead(p, lap, len, ok); }
  }

  predicate AllAllowed(p: Pot, ops: seq<Op>)
    requires p.Good()
    decreases |ops|
  {
    ops == [] || (Allowed(p, ops[0]) && AllAllowed(Exec(p, ops[0]), ops[1..]))
  }

  function ExecAll(p: Pot, ops: seq<Op>): (q: Pot)
    requires p.Good()
    ensures q.Good()
    decreases |ops|
  {
    if ops == [] then p else ExecAll(Exec(p, ops[0]), ops[1..])
  }

  function LapAll(p: Pot, lap: seq<byte>, ops: seq<Op>): seq<byte>
    requires p.Good()
    decreases |ops|
  {
    if ops == [] then lap else LapAll(Exec(p, ops[0]), Lap(p, lap, ops[0]), ops[1..])
  }

  /** The lap is on track now and after every call. */
  predicate AlwaysOnTrack(p: Pot, lap: seq<byte>, ops: seq<Op>)
    requires p.Good()
    decreases |ops|
  {
    OnTrack(p, lap) && (ops == [] || AlwaysOnTrack(Exec(p, ops[0]), Lap(p, lap, ops[0]), ops[1..]))
  }

  /** Over any run of writes, short reads and faults without an effective read of an empty
      pot, and over no other: no byte is skipped, repeated or made up, so when a lap is
      complete what was read in it is the whole pot. */
  lemma {:induction false} Laps(p: Pot, lap: seq<byte>, ops: seq<Op>)
    requires OnTrack(p, lap)
    ensures AlwaysOnTrack(p, lap, ops) <==> AllAllowed(p, ops)
    ensures var q, out := ExecAll(p, ops), LapAll(p, lap, ops);
            AllAllowed(p, ops) ==> OnTrack(q, out) && (q.next == q.index ==> out == q.Contents())
    decreases |ops|
  {
    if ops != [] {
      LapStep(p, lap, ops[0]);
      if Allowed(p, ops[0]) { Laps(Exec(p, ops[0]), Lap(p, lap, ops[0]), ops[1..]); }
    }
  }

  /** A write, faulty or not, changes no cell but those it stores to. */
  lemma ChangesOnlyStores(p: Pot, buf: seq<byte>, arrived: nat, cell: nat)
    requires p.Good() && cell < |p.mem|
    ensures Exec(p, Write(buf, arrived)).mem[cell] != p.mem[cell] ==>
              |buf| <= Space(p) && Stores(p, |buf|, cell)
  {
  }

  lemma ExecKeeps(p: Pot, op: Op)
    requires p.Good()
    ensures p.index <= Exec(p, op).index && Exec(p, op).mem[..p.index] == p.Contents()
  {
  }

  /** Cookies once written stay, whatever is called. */
  lemma {:induction false} CookiesStay(p: Pot, ops: seq<Op>)
    requires p.Good()
    ensures p.index <= ExecAll(p, ops).index && ExecAll(p, ops).mem[..p.index] == p.Contents()
    decreases |ops|
  {
    if ops != [] {
      var q := Exec(p, ops[0]);
      CookiesStay(q, ops[1..]);
      CutCut(ExecAll(q, ops[1..]).mem, q.index, p.index);
      CutCut(q.mem, q.index, p.index);
      ExecKeeps(p, ops[0]);
    }
  }

  /** A whole copy and the NUL: what a write leaves. */
  lemma WrittenIs(p: Pot, buf: seq<byte>)
    requires p.Good() && |buf| <= Space(p)
    ensures var mem := Overlay(p.mem, p.index, buf);
            Written(p, buf) ==
            Pot(if p.index + |buf| == 0 then mem else mem[p.index + |buf| - 1 := 0], p.index + |buf|, p.next)
  {
    if buf != [] {
      OverlayEnd(p.mem, p.index, buf);
    } else {
      assert Overlay(p.mem, p.index, buf) == p.mem;
    }
  }

  /** What a write call leaves, in words of the copy and the NUL. */
  lemma WriteOutcome(p: Pot, buf: seq<byte>, arrived: nat)
    requires p.Good() && p.index <= |p.mem|
    ensures Exec(p, Write(buf, arrived)) ==
            if |buf| > Space(p) then p
            else
              var mem, index := Overlay(p.mem, p.index, Padded(buf, arrived)), p.index + |buf|;
              if arrived < |buf| then p.(mem := mem)
              else Pot(if index == 0 then mem else mem[index - 1 := 0], index, p.next)
  {
    if |buf| <= Space(p) && arrived >= |buf| {
      assert Padded(buf, arrived) == buf;
      WrittenIs(p, buf);
    }
  }

  /** What a read call does, in words of the bytes it copies. */
  lemma ReadLength(p: Pot, len: nat, ok: bool) returns (l: nat)
    requires p.Good()
    ensures Start(p) + StrLen(p.mem, Start(p)) < |p.mem|
    ensures var n := StrLen(p.mem, Start(p)) + 1; l == if !ok then 0 else if n > len then len else n
    ensures Exec(p, Read(len, ok)) == p.(next := Start(p) + l)
    ensures Copied(p, Read(len, ok)) == p.mem[Start(p)..Start(p) + l]
  {
    GoodIsReadable(p);
    l := if ok then ReadSize(p, len) else 0;
  }

  // ----------------------------------------------------------------- the module

  /** The module's globals, updated in place by its two file operations. `cookie_pot` is
      allocated within a memory that goes on on both sides. */
  class Module {
    const memory: array<byte>  // the byte before the pot, the pot, and the byte behind it
    var cookieIndex: nat
    var nextFortune: nat

    predicate Mapped() { memory.Length >= 3 }

    function View(): Pot
      requires Mapped()
      reads this, memory
    {
      Pot(memory[1..], cookieIndex, nextFortune)
    }

    /** `fortune_init`: a cleared pot, between two bytes that are somebody else's. */
    constructor (maxCookieLength: nat, before: byte, behind: byte)
      requires maxCookieLength >= 1
      ensures Mapped() && fresh(memory) && memory.Length == maxCookieLength + 2 && memory[0] == before
      ensures View() == Pot(seq(maxCookieLength, _ => 0) + [behind], 0, 0) && View().Good()
    {
      memory := new byte[maxCookieLength + 2](
        i => if i == 0 then before else if i <= maxCookieLength then 0 else behind);
      cookieIndex, nextFortune := 0, 0;
      new;
      assert memory[1..] == seq(maxCookieLength, _ => 0) + [behind];
      assert memory[1..][0] == 0;
    }

    /** `copy_from_user(&cookie_pot[cookie_index], buf, len)`, of which only some bytes may arrive. */
    method CopyIn(buf: seq<byte>, arrived: nat) returns (missing: nat)
      requires Mapped() && 1 + cookieIndex + |buf| <= memory.Length
      modifies memory
      ensures missing == if arrived < |buf| then |buf| - arrived else 0
      ensures memory[0] == old(memory[0])
      ensures memory[1..] == Overlay(old(memory[1..]), cookieIndex, Padded(buf, arrived))
      ensures forall i :: 0 <= i < |buf| ==> memory[1 + cookieIndex + i] == if i < arrived then buf[i] else 0
      ensures forall i :: 0 <= i < memory.Length && !(1 + cookieIndex <= i < 1 + cookieIndex + |buf|) ==>
                memory[i] == old(memory[i])
    {
      var bytes := Padded(buf, arrived);
      forall i | 0 <= i < |bytes| { memory[1 + cookieIndex + i] := bytes[i]; }
      missing := if arrived < |buf| then |buf| - arrived else 0;
    }

    /** `cookie_index += len; cookie_pot[cookie_index - 1] = 0;` */
    method Terminate(len: nat)
      requires Mapped() && cookieIndex + len < memory.Length
      modifies this`cookieIndex, memory
      ensures cookieIndex == old(cookieIndex) + len
      ensures memory[0] == if cookieIndex == 0 then 0 else old(memory[0])
      ensures memory[1..] == if cookieIndex == 0 then old(memory[1..]) else old(memory[1..])[cookieIndex - 1 := 0]
    {
      cookieIndex := cookieIndex + len;
      memory[cookieIndex] := 0;
    }

    method FortuneWrite(buf: seq<byte>, arrived: nat) returns (ret: int)
      requires Mapped() && View().Good()
      modifies this`cookieIndex, memory
      ensures View() == Exec(old(View()), Write(buf, arrived)) && View().Good()
      ensures ret == if |buf| > Space(old(View())) then -ENOSPC else if arrived < |buf| then -EFAULT else |buf|
      ensures memory[0] == if buf == [] && old(cookieIndex) == 0 then 0 else old(memory[0])
    {
      ghost var p := View();
      WriteOutcome(p, buf, arrived);
      var spaceAvailable := memory.Length - 2 - cookieIndex + 1;
      if |buf| > spaceAvailable { return -ENOSPC; }
      var missing := CopyIn(buf, arrived);
      if missing != 0 { return -EFAULT; }
      Terminate(|buf|);
      return |buf|;
    }

    /** Lines 51 to 57: copy up to the NUL or `len` bytes, and move on by what was copied. */
    method CopyOut(len: nat, ok: bool) returns (copied: seq<byte>)
      requires Mapped() && nextFortune < |memory[1..]|
      requires nextFortune + StrLen(memory[1..], nextFortune) < |memory[1..]|
      modifies this`nextFortune
      ensures var l := StrLen(memory[1..], old(nextFortune)) + 1;
              nextFortune == old(nextFortune) + if !ok then 0 else if l > len then len else l
      ensures copied == memory[1..][old(nextFortune)..nextFortune]
    {
      var l := StrLen(memory[1..], nextFortune) + 1;
      if l > len { l := len; }
      if !ok { l := 0; }
      copied := memory[1..][nextFortune..nextFortune + l];
      nextFortune := nextFortune + l;
    }

    /** `ppos` is the file position; only a read at 0 does anything. */
    method FortuneRead(len: nat, ppos: nat, ok: bool) returns (ret: nat, ppos': nat, copied: seq<byte>)
      requires Mapped() && View().Good()
      modifies this`nextFortune
      ensures ppos > 0 ==> ret == 0 && ppos' == ppos && copied == [] && View() == old(View())
      ensures ppos == 0 ==>
                && ret == len && ppos' == 1
                && View() == Exec(old(View()), Read(len, ok)) && copied == Copied(old(View()), Read(len, ok))
    {
      if ppos > 0 { return 0, ppos, []; }
      ghost var p := View();
      ghost var l := ReadLength(p, len, ok);
      if nextFortune >= cookieIndex { nextFortune := 0; }
      assert View() == p.(next := Start(p));
      copied := CopyOut(len, ok);
      assert View() == p.(next := Start(p) + l);
      return len, 1, copied;
    }
  }
}
