/** Sizing the memory, printing a register and counting timer ticks in protected
    mode (5-semestr/lab2/main.asm). */
module MemProbe {
  import opened Bytes

  type dword = x: int | 0 <= x < 0x1_0000_0000

  const MEGABYTE: dword := 0x10_0000

  /** A 32-bit counter that stood at `start`, after `k` increments. */
  function Count32(start: nat, k: nat): dword { (start + k) % 0x1_0000_0000 }

  /** The 32-bit number that agrees with `start + k` modulo 2^32: the sum itself as long as it
      fits, and back at the start after 2^32. */
  lemma Count32Is(start: nat, k: nat)
    ensures (start + k - Count32(start, k)) % 0x1_0000_0000 == 0
    ensures start + k < 0x1_0000_0000 ==> Count32(start, k) == start + k
    ensures start < 0x1_0000_0000 && k == 0x1_0000_0000 ==> Count32(start, k) == start
  {
  }

  lemma Count32Join(start: nat, a: nat, b: nat)
    ensures Count32(Count32(start, a), b) == Count32(start, a + b)
  {
  }

  lemma CountOne(start: dword)
    ensures Count32(start, 1) == if start == 0xFFFF_FFFF then 0 else start + 1
  {
  }

  // ------------------------------------------------------- hexadecimal digits

  type Digit = d: int | 0 <= d < 16

  function Pow16(n: nat): (p: nat)
    ensures p >= 1
  {
    if n == 0 then 1 else 16 * Pow16(n - 1)
  }

  /** The number with these digits, the least significant first. */
  function Value(d: seq<Digit>): nat {
    if d == [] then 0 else d[0] + 16 * Value(d[1..])
  }

  function Digits(x: nat, n: nat): (d: seq<Digit>)
    ensures |d| == n
  {
    if n == 0 then [] else [x % 16] + Digits(x / 16, n - 1)
  }

  lemma {:induction false} ValueDigits(x: nat, n: nat)
    requires x < Pow16(n)
    ensures Value(Digits(x, n)) == x
  {
    if n > 0 { ValueDigits(x / 16, n - 1); }
  }

  lemma SixteenTimes(x: nat, p: nat)
    ensures 16 * (x * p) == x * (16 * p)
  {
  }

  lemma {:induction false} ValueSnoc(d: seq<Digit>, x: Digit)
    ensures Value(d + [x]) == Value(d) + x * Pow16(|d|)
  {
    if d == [] {
      assert [] + [x] == [x];
    } else {
      assert (d + [x])[1..] == d[1..] + [x];
      ValueSnoc(d[1..], x);
      SixteenTimes(x, Pow16(|d| - 1));
    }
  }

  lemma {:induction false} ValueBound(d: seq<Digit>)
    ensures Value(d) < Pow16(|d|)
  {
    if d != [] { ValueBound(d[1..]); }
  }

  const SEL_FLAT_DS: nat := 8

  /** A register after a load of its lower half. */
  function WithLow(x: dword, low: nat): dword
    requires low < 0x1_0000
  {
    x / 0x1_0000 * 0x1_0000 + low
  }

  /** `ror eax, 4` */
  function Ror4(x: dword): dword { x / 16 + x % 16 * 0x1000_0000 }

  lemma Pow16Of7()
    ensures Pow16(7) == 0x1000_0000
  {
    assert Pow16(3) == 0x1000;
    assert Pow16(5) == 0x10_0000;
  }

  lemma RorParts(x: Digit, v: nat)
    requires v < 0x1000_0000
    ensures x + 16 * v < 0x1_0000_0000
    ensures Ror4(x + 16 * v) == v + x * 0x1000_0000 && (x + 16 * v) % 16 == x
  {
    assert (x + 16 * v) / 16 == v;
  }

  /** The eight digits of a register. */
  function DigitsOf(x: dword): (d: seq<Digit>)
    ensures |d| == 8 && Value(d) == x
  {
    Pow16Of7();
    ValueDigits(x, 8);
    Digits(x, 8)
  }

  /** Rotating the register rotates its digits. */
  lemma RorDigits(d: seq<Digit>)
    requires |d| == 8
    ensures Value(d) < 0x1_0000_0000
    ensures Value(d[1..] + [d[0]]) == Ror4(Value(d)) && Value(d) % 16 == d[0]
  {
    Pow16Of7();
    ValueBound(d[1..]);
    ValueSnoc(d[1..], d[0]);
    RorParts(d[0], Value(d[1..]));
  }

  /** The digits after `k` rotations; after 8 they are back. */
  function Rotated(d: seq<Digit>, k: nat): seq<Digit>
    requires k <= |d|
  {
    d[k..] + d[..k]
  }

  lemma RotatedStep(d: seq<Digit>, k: nat)
    requires |d| == 8 && k < 8
    ensures Value(Rotated(d, k)) < 0x1_0000_0000 && Value(Rotated(d, k)) % 16 == d[k]
    ensures Ror4(Value(Rotated(d, k))) == Value(Rotated(d, k + 1))
  {
    var r := Rotated(d, k);
    RorDigits(r);
    assert r[1..] + [r[0]] == Rotated(d, k + 1);
  }

  lemma RotatedBack(d: seq<Digit>)
    requires |d| == 8
    ensures Rotated(d, 0) == d && Rotated(d, 8) == d
  {
  }

  /** What `create_number` makes of a digit. */
  function HexChar(d: Digit): byte { if d < 10 then d + 48 else d + 55 }

  predicate IsHex(c: byte) { 48 <= c <= 57 || 65 <= c <= 70 }

  /** The digit a hexadecimal character stands for. */
  function Unhex(c: byte): Digit
    requires IsHex(c)
  {
    if c <= 57 then c - 48 else c - 55
  }

  const HEX := "0123456789ABCDEF"

  /** The characters are those of hexadecimal notation. */
  lemma HexCharIs(d: Digit)
    ensures HexChar(d) == HEX[d] as int && IsHex(HexChar(d)) && Unhex(HexChar(d)) == d
  {
  }

  /** The number a reader makes of characters, the most significant first. */
  function ReadHex(s: seq<byte>): nat
    requires forall i :: 0 <= i < |s| ==> IsHex(s[i])
    decreases |s|
  {
    if s == [] then 0 else 16 * ReadHex(s[..|s| - 1]) + Unhex(s[|s| - 1])
  }

  /** Hexadecimal notation is positional: "10" is sixteen, and a zero in front makes no difference. */
  lemma ReadHexPlaces(s: seq<byte>)
    requires forall i :: 0 <= i < |s| ==> IsHex(s[i])
    ensures ReadHex([49, 48]) == 16
    ensures ReadHex([48] + s) == ReadHex(s)
    decreases |s|
  {
    assert [49, 48][..1] == [49] && [49][..0] == [];
    if s == [] {
      assert [48][..0] == [];
    } else {
      assert ([48] + s)[..|s|] == [48] + s[..|s| - 1];
      ReadHexPlaces(s[..|s| - 1]);
    }
  }

  lemma {:induction false} ReadValue(s: seq<byte>, d: seq<Digit>)
    requires |s| == |d| && forall i :: 0 <= i < |s| ==> s[i] == HexChar(d[|s| - 1 - i])
    ensures forall i :: 0 <= i < |s| ==> IsHex(s[i])
    ensures ReadHex(s) == Value(d)
    decreases |s|
  {
    if s != [] { ReadValue(s[..|s| - 1], d[1..]); }
  }

  // --------------------------------------------------------- what is on the screen

  /** Where the sizing loop stops for `m` bytes of memory: at the first absent byte from
      100001h on, or when ECX has counted down to the last address. */
  function StopsAt(m: nat): dword {
    if m <= 0x10_0001 then 0x10_0001 else if m < 0xFFFF_FFFF then m else 0xFFFF_FFFF
  }

  /** The megabytes shown are the megabytes installed exactly from 1 MB up to but not
      including 4 GB. */
  lemma SizeIsRight(m: nat)
    requires m <= 0x1_0000_0000
    ensures StopsAt(m) / MEGABYTE == m / MEGABYTE <==> MEGABYTE <= m < 0x1_0000_0000
  {
  }

  /** The 8 characters, left to right, of a number printed with EDI at `at`. */
  function Cells(screen: seq<byte>, at: nat): seq<byte>
    requires at + 173 < |screen|
  {
    seq(8, i requires 0 <= i < 8 => screen[at + 158 + 2 * i])
  }

  /** The screen shows a number, in colour 46h. */
  ghost predicate Shown(screen: seq<byte>, at: nat, number: nat)
    requires at + 173 < |screen|
  {
    && (forall i :: 0 <= i < 8 ==> IsHex(Cells(screen, at)[i]))
    && ReadHex(Cells(screen, at)) == number
    && (forall i :: 0 <= i < 8 ==> screen[at + 159 + 2 * i] == 0x46)
  }

  /** The screen shows a number, and is otherwise as it was. */
  ghost predicate Shows(screen: seq<byte>, before: seq<byte>, at: nat, number: nat)
    requires at + 173 < |screen| == |before|
  {
    && Shown(screen, at, number)
    && (forall j :: 0 <= j < |screen| && !(at + 158 <= j < at + 174) ==> screen[j] == before[j])
  }

  /** A number printed over another one. */
  lemma ShowsOver(screen: seq<byte>, middle: seq<byte>, before: seq<byte>, at: nat, first: nat, second: nat)
    requires at + 173 < |screen| == |middle| == |before|
    requires Shows(middle, before, at, first) && Shows(screen, middle, at, second)
    ensures Shows(screen, before, at, second)
  {
  }

  /** The screen after `k` timer interrupts that found the count at `start`. */
  ghost predicate CountShown(screen: seq<byte>, before: seq<byte>, start: nat, k: nat) {
    && |screen| == |before| == 4000
    && if k == 0 then screen == before else Shows(screen, before, 2, Count32(start, k - 1))
  }

  lemma CountShownNext(screen: seq<byte>, middle: seq<byte>, before: seq<byte>, start: nat, k: nat)
    requires CountShown(middle, before, start, k) && |screen| == 4000
    requires Shows(screen, middle, 2, Count32(start, k))
    ensures CountShown(screen, before, start, k + 1)
  {
    if k > 0 {
      ShowsOver(screen, middle, before, 2, Count32(start, k - 1), Count32(start, k));
    }
  }

  /** The `k` lowest digits are on the screen, from the right. */
  ghost predicate Printed(screen: seq<byte>, before: seq<byte>, at: nat, d: seq<Digit>, k: nat)
  {
    && k <= |d| == 8 && at + 173 < |screen| == |before|
    && (forall i :: 0 <= i < k ==> screen[at + 172 - 2 * i] == HexChar(d[i]) && screen[at + 173 - 2 * i] == 0x46)
    && (forall j :: 0 <= j < |screen| && !(at + 174 - 2 * k <= j < at + 174) ==> screen[j] == before[j])
  }

  lemma PrintedStep(screen: seq<byte>, before: seq<byte>, at: nat, d: seq<Digit>, k: nat)
    requires Printed(screen, before, at, d, k) && k < 8
    ensures Printed(screen[at + 172 - 2 * k := HexChar(d[k])][at + 173 - 2 * k := 0x46], before, at, d, k + 1)
  {
  }

  lemma DigitCells(screen: seq<byte>, at: nat, d: seq<Digit>, i: nat)
    requires at + 173 < |screen| && |d| == 8 && i < 8
    requires forall k :: 0 <= k < 8 ==> screen[at + 172 - 2 * k] == HexChar(d[k]) && screen[at + 173 - 2 * k] == 0x46
    ensures Cells(screen, at)[i] == HexChar(d[7 - i]) && screen[at + 159 + 2 * i] == 0x46
  {
    var k := 7 - i;
    assert screen[at + 172 - 2 * k] == HexChar(d[k]) && screen[at + 173 - 2 * k] == 0x46;
  }

  lemma DigitsShown(screen: seq<byte>, at: nat, d: seq<Digit>)
    requires at + 173 < |screen| && |d| == 8
    requires forall k :: 0 <= k < 8 ==> screen[at + 172 - 2 * k] == HexChar(d[k]) && screen[at + 173 - 2 * k] == 0x46
    ensures Shown(screen, at, Value(d))
  {
    var s := Cells(screen, at);
    forall i | 0 <= i < 8 ensures s[i] == HexChar(d[7 - i]) && screen[at + 159 + 2 * i] == 0x46 {
      DigitCells(screen, at, d, i);
    }
    ReadValue(s, d);
  }

  lemma AllPrinted(screen: seq<byte>, before: seq<byte>, at: nat, d: seq<Digit>)
    requires Printed(screen, before, at, d, 8)
    ensures Shows(screen, before, at, Value(d))
  {
    DigitsShown(screen, at, d);
  }

  // ------------------------------------------- printing the size with interrupts on

  // The size is printed with EDI at 20, so in cells 178 to 193. A timer interrupt prints in
  // cells 160 to 175 and leaves EDI at 158.

  const SIZE_AT: nat := 20
  const FIRST: nat := 178
  const LAST: nat := 192

  /** Nothing happened to cells that neither the size nor the count nor a digit gone astray can be in. */
  ghost predicate Framed(screen: seq<byte>, before: seq<byte>) {
    && |screen| == |before| == 4000
    && forall j :: 0 <= j < |screen| && !(142 <= j < FIRST + 16) && !(316 <= j < 332) ==> screen[j] == before[j]
  }

  /** Of the size, the `good` lowest digits are on the screen and the other cells are as before. */
  ghost predicate Placed(screen: seq<byte>, before: seq<byte>, d: seq<Digit>, good: nat) {
    && good <= 8 == |d| && Framed(screen, before)
    && (forall i :: 0 <= i < good ==> screen[LAST - 2 * i] == HexChar(d[i]) && screen[LAST + 1 - 2 * i] == 0x46)
    && (forall j :: FIRST <= j < LAST + 2 - 2 * good ==> screen[j] == before[j])
  }

  /** Where a digit that has lost its way may go after `k` of them. */
  predicate Astray(edi: int, k: nat) {
    158 - 2 * k <= edi <= 158 || edi == 330 - 2 * k
  }

  /** Cells that a timer interrupt may write are the only ones that may have changed. */
  ghost predicate Ticked(screen: seq<byte>, before: seq<byte>) {
    |screen| == |before| == 4000 && forall j :: 0 <= j < |screen| && !(160 <= j < 176) ==> screen[j] == before[j]
  }

  /** A digit was stored at `at`, and otherwise only timer interrupts printed. */
  ghost predicate DigitAt(screen: seq<byte>, before: seq<byte>, at: nat, x: Digit) {
    && |screen| == |before| == 4000 && at + 1 < 4000
    && screen[at] == HexChar(x) && screen[at + 1] == 0x46
    && forall j :: 0 <= j < |screen| && !(160 <= j < 176) && j != at && j != at + 1 ==> screen[j] == before[j]
  }

  lemma PlacedNext(screen: seq<byte>, middle: seq<byte>, before: seq<byte>, d: seq<Digit>, k: nat)
    requires Placed(middle, before, d, k) && k < 8 && DigitAt(screen, middle, LAST - 2 * k, d[k])
    ensures Placed(screen, before, d, k + 1)
  {
  }

  lemma PlacedAstray(screen: seq<byte>, middle: seq<byte>, before: seq<byte>,
                     d: seq<Digit>, good: nat, at: nat, x: Digit)
    requires Placed(middle, before, d, good) && DigitAt(screen, middle, at, x)
    requires 142 <= at <= 158 || 316 <= at <= 330
    ensures Placed(screen, before, d, good)
  {
  }

  lemma PlacedTicked(screen: seq<byte>, middle: seq<byte>, before: seq<byte>, d: seq<Digit>, good: nat)
    requires Placed(middle, before, d, good) && Ticked(screen, middle)
    ensures Placed(screen, before, d, good)
  {
  }

  lemma FramedTicked(screen: seq<byte>, middle: seq<byte>, before: seq<byte>)
    requires Ticked(middle, before) && Framed(screen, middle)
    ensures Framed(screen, before) && middle[FIRST] == before[FIRST]
  {
  }

  /** The size can be read from the screen when all its digits are there, and, unless the
      leftmost cell held a hexadecimal digit already, only then. */
  lemma PlacedShows(screen: seq<byte>, before: seq<byte>, d: seq<Digit>, good: nat)
    requires Placed(screen, before, d, good)
    ensures good == 8 ==> Shown(screen, SIZE_AT, Value(d))
    ensures good < 8 && !IsHex(before[FIRST]) ==> !Shown(screen, SIZE_AT, Value(d))
  {
    if good == 8 {
      DigitsShown(screen, SIZE_AT, d);
    } else if !IsHex(before[FIRST]) {
      assert Cells(screen, SIZE_AT)[0] == before[FIRST];
    }
  }

  /** No timer interrupt arrives at the instructions `from` to `to`. */
  ghost predicate Quiet(irq: nat -> nat, from: nat, to: nat) {
    forall c :: from <= c < to ==> irq(c) == 0
  }

  lemma QuietNext(irq: nat -> nat, from: nat, to: nat)
    requires from <= to
    ensures Quiet(irq, from, to + 1) <==> Quiet(irq, from, to) && irq(to) == 0
  {
  }

  lemma QuietJoin(irq: nat -> nat, a: nat, b: nat, c: nat)
    requires a <= b <= c
    ensures Quiet(irq, a, c) <==> Quiet(irq, a, b) && Quiet(irq, b, c)
  {
  }

  // The clock of the printer, counted from `mov edi,20`.

  /** `create_number` takes an instruction more for a letter. */
  function Extra(x: Digit): nat { if x < 10 then 0 else 1 }

  /** When `k` digits are done: `push ecx` to `add edi,172`, and 10 or 11 instructions a digit. */
  function Elapsed(d: seq<Digit>, k: nat): nat
    requires k <= |d|
  {
    if k == 0 then 4 else Elapsed(d, k - 1) + 10 + Extra(d[k - 1])
  }

  /** When digit `i` is stored. */
  function StoreTime(d: seq<Digit>, i: nat): nat
    requires i < |d|
  {
    Elapsed(d, i) + 7 + Extra(d[i])
  }

  /** After `k` digits: those stored before the first timer interrupt since `from` are right, and
      the next goes to its place if none has come up to now. */
  ghost predicate InStep(irq: nat -> nat, from: nat, clock: nat, edi: int, d: seq<Digit>, good: nat, k: nat) {
    && good <= k <= |d| == 8 && clock == from + Elapsed(d, k)
    && (forall i :: 0 <= i < k ==> (i < good <==> Quiet(irq, from, from + StoreTime(d, i))))
    && if Quiet(irq, from, clock) then edi == LAST - 2 * k else Astray(edi, k)
  }

  /** What one more digit does to that. */
  lemma InStepNext(irq: nat -> nat, from: nat, clock: nat, edi: int, d: seq<Digit>, good: nat, k: nat, edi': int)
    requires InStep(irq, from, clock, edi, d, good, k) && k < 8
    requires if Quiet(irq, clock, from + Elapsed(d, k + 1)) then edi' == edi - 2 else edi' == 156 || edi' == 158
    ensures var stored := from + StoreTime(d, k);
            && InStep(irq, from, from + Elapsed(d, k + 1), edi', d,
                      if Quiet(irq, from, stored) then good + 1 else good, k + 1)
            && (Quiet(irq, from, stored) ==> good == k && edi == LAST - 2 * k && Quiet(irq, clock, stored))
            && (!Quiet(irq, from, stored) && Quiet(irq, clock, stored) ==> Astray(edi, k))
  {
    var stored, after := from + StoreTime(d, k), from + Elapsed(d, k + 1);
    QuietJoin(irq, from, clock, stored);
    QuietJoin(irq, from, stored, after);
    QuietJoin(irq, clock, stored, after);
    if k > 0 { QuietJoin(irq, from, from + StoreTime(d, k - 1), stored); }
  }

  // The clock of `compute_memory`, counted from its call.

  /** When the sizing loop ends: 7 instructions for a byte that is there, 4 for one that is not. */
  function SizedAt(m: nat): nat {
    6 + 7 * (StopsAt(m) - 0x10_0001) + if m < 0xFFFF_FFFF then 4 else 0
  }

  /** EDI is live from `mov edi,20` to the store of the last digit. */
  function LiveFrom(m: nat): nat { SizedAt(m) + 7 }

  function LiveTo(m: nat): nat { LiveFrom(m) + StoreTime(DigitsOf(StopsAt(m) / MEGABYTE), 7) }

  /** How many timer interrupts arrive from clock `from` to `to`. */
  function Arrived(irq: nat -> nat, from: nat, to: nat): nat
    decreases to
  {
    if to <= from then 0 else Arrived(irq, from, to - 1) + irq(to - 1)
  }

  lemma ArrivedNext(irq: nat -> nat, from: nat, to: nat, start: nat)
    requires from <= to
    ensures Count32(Count32(start, Arrived(irq, from, to)), irq(to)) == Count32(start, Arrived(irq, from, to + 1))
  {
    Count32Join(start, Arrived(irq, from, to), irq(to));
  }

  lemma CountTicked(screen: seq<byte>, middle: seq<byte>, before: seq<byte>, start: nat, k: nat)
    requires Ticked(middle, before) && CountShown(screen, middle, start, k)
    ensures Ticked(screen, before)
  {
  }

  lemma LowDigit(x: dword)
    ensures x % 0x100 % 16 == x % 16
  {
  }

  lemma LowWord(x: nat)
    ensures x / 0x100 % 0x100 * 0x100 + x % 0x100 == x % 0x1_0000
  {
  }

  // ------------------------------------------------------------------ the machine

  /** Registers, installed memory and the video buffer. `clock` counts the instruction
      boundaries passed with interrupts on, and `irq` tells how many timer interrupts
      arrive at each. */
  class Machine {
    const memory: array<byte>
    const floating: byte  // what an absent byte reads as
    const video: array<byte>
    const irq: nat -> nat
    var clock: nat
    var eax: dword
    var ebx: dword
    var ecx: dword
    var edi: dword
    var dl: byte
    var dh: byte
    var time08: dword
    ghost var sinceClock: nat  // a moment since which `time08` is accounted for
    ghost var sinceTime: dword

    ghost predicate Valid() {
      && memory.Length <= 0x1_0000_0000 && (floating == 0 || floating == 0xFF)
      && video.Length == 4000 && memory != video
    }

    constructor (memory: array<byte>, floating: byte, video: array<byte>, irq: nat -> nat)
      requires memory.Length <= 0x1_0000_0000 && (floating == 0 || floating == 0xFF)
      requires video.Length == 4000 && memory != video
      ensures Valid() && time08 == 0
      ensures this.memory == memory && this.floating == floating && this.video == video && this.irq == irq
    {
      this.memory, this.floating, this.video, this.irq := memory, floating, video, irq;
      clock := 0;
      eax, ebx, ecx, edi, dl, dh, time08 := 0, 0, 0, 0, 0, 0, 0;
      sinceClock, sinceTime := 0, 0;
    }

    function Load(a: dword): byte
      reads memory
    {
      if a < memory.Length then memory[a] else floating
    }

    method Store(a: dword, b: byte)
      modifies memory
      ensures memory[..] == if a < memory.Length then old(memory[..])[a := b] else old(memory[..])
    {
      if a < memory.Length { memory[a] := b; }
    }

    /** `create_number` */
    method CreateNumber()
      requires dl < 16
      modifies `dl, `dh
      ensures dl == HexChar(old(dl)) && dh == 0x46
    {
      if dl >= 10 { dl := dl + (65 - 48 - 10); }
      dl := dl + 48;
      dh := 0x46;
    }

    /** The body of the loop `prcyc1`: one digit, and on to the next. */
    method PrintDigit()
      requires Valid() && 2 <= edi < video.Length - 1
      modifies `eax, `edi, `dl, `dh, video
      ensures Valid() && eax == Ror4(old(eax)) && edi == old(edi) - 2
      ensures video[..] == old(video[..])[old(edi) := HexChar(old(eax) % 16)][old(edi) + 1 := 0x46]
    {
      dl := eax % 16;
      CreateNumber();
      video[edi] := dl;
      video[edi + 1] := dh;
      eax := Ror4(eax);
      edi := edi - 2;
    }

    method PrintNext(ghost before: seq<byte>, ghost at: nat, ghost d: seq<Digit>, ghost k: nat)
      requires Valid() && Printed(video[..], before, at, d, k) && k < 8
      requires edi == at + 172 - 2 * k && eax == Value(Rotated(d, k))
      modifies `eax, `edi, `dl, `dh, video
      ensures Valid() && Printed(video[..], before, at, d, k + 1)
      ensures edi == at + 172 - 2 * (k + 1) && eax == Value(Rotated(d, k + 1))
    {
      RotatedStep(d, k);
      PrintedStep(video[..], before, at, d, k);
      PrintDigit();
    }

    /** The loop `prcyc1`: eight digits, after which EAX is as before. */
    method PrintDigits()
      requires Valid() && 172 <= edi < video.Length - 1
      modifies `eax, `ecx, `edi, `dl, `dh, video
      ensures Valid() && edi == old(edi) - 16 && eax == old(eax)
      ensures Shows(video[..], old(video[..]), old(edi) - 172, eax)
    {
      ghost var d := DigitsOf(eax);
      RotatedBack(d);
      ghost var before, at, k := video[..], edi - 172, 0;
      ecx := 8;
      while ecx != 0
        invariant Valid() && 0 <= k <= 8 && ecx == 8 - k && edi == at + 172 - 2 * k
        invariant eax == Value(Rotated(d, k)) && Printed(video[..], before, at, d, k)
        decreases ecx
      {
        PrintNext(before, at, d, k);
        k := k + 1;
        ecx := ecx - 1;
      }
      assert k == 8;
      AllPrinted(video[..], before, at, d);
    }

    /** `my_print_eax` with interrupts off: eight hexadecimal digits that read back to EAX,
        and EAX as before. */
    method PrintEax()
      requires Valid() && edi + 173 < video.Length
      modifies `eax, `ecx, `edi, `dl, `dh, video
      ensures Valid() && eax == old(eax) && ecx == old(ecx) && dl == old(dl) && dh == old(dh)
      ensures edi == old(edi) + 156
      ensures Shows(video[..], old(video[..]), old(edi), eax)
    {
      var ecx0, dl0, dh0 := ecx, dl, dh;  // push ecx, push dx
      edi := edi + 172;
      PrintDigits();
      ecx, dl, dh := ecx0, dl0, dh0;  // pop dx, pop ecx
    }

    /** `new_int08`, entered with interrupts off: show the count, then add one. The saved
        registers come back, EDI does not. */
    method TimerTick()
      requires Valid()
      modifies `eax, `ecx, `edi, `dl, `dh, `time08, video
      ensures Valid() && time08 == if old(time08) == 0xFFFF_FFFF then 0 else old(time08) + 1
      ensures eax == old(eax) && ecx == old(ecx) && dl == old(dl) && dh == old(dh) && edi == 158
      ensures Shows(video[..], old(video[..]), 2, old(time08))
    {
      var saved := eax;
      eax := time08;
      edi := 2;
      PrintEax();
      eax := (eax + 1) % 0x1_0000_0000;
      time08 := eax;
      eax := saved;
    }

    /** After k timer interrupts the count has gone up by k modulo 2^32, and the screen shows
        the count before the last of them. */
    method Ticks(k: nat)
      requires Valid()
      modifies `eax, `ecx, `edi, `dl, `dh, `time08, video
      ensures Valid() && time08 == Count32(old(time08), k)
      ensures (old(time08) + k - time08) % 0x1_0000_0000 == 0
      ensures eax == old(eax) && ecx == old(ecx) && dl == old(dl) && dh == old(dh)
      ensures edi == if k == 0 then old(edi) else 158
      ensures CountShown(video[..], old(video[..]), old(time08), k)
    {
      for i := 0 to k
        invariant Valid() && time08 == Count32(old(time08), i)
        invariant eax == old(eax) && ecx == old(ecx) && dl == old(dl) && dh == old(dh)
        invariant edi == if i == 0 then old(edi) else 158
        invariant CountShown(video[..], old(video[..]), old(time08), i)
      {
        ghost var middle := video[..];
        TimerTick();
        CountOne(Count32(old(time08), i));
        Count32Join(old(time08), i, 1);
        CountShownNext(video[..], middle, old(video[..]), old(time08), i);
      }
      Count32Is(old(time08), k);
    }

    /** `time08` has gone up by the timer interrupts that have arrived. */
    ghost predicate OnTime()
      reads this`clock, this`time08, this`sinceClock, this`sinceTime
    {
      && sinceClock <= clock
      && time08 == Count32(sinceTime, Arrived(irq, sinceClock, clock))
    }

    /** Since the clock stood at `c0`: EDI is still `e0` if no timer interrupt came, and
        nothing but timer interrupts has printed. */
    ghost predicate Passed(c0: nat, e0: dword, v0: seq<byte>)
      reads this`clock, this`edi, video
    {
      c0 <= clock && edi == (if Quiet(irq, c0, clock) then e0 else 158) && Ticked(video[..], v0)
    }

    /** An instruction boundary with interrupts on. */
    method Boundary(ghost c0: nat, ghost e0: dword, ghost v0: seq<byte>)
      requires Valid() && OnTime() && Passed(c0, e0, v0)
      modifies `clock, `eax, `ecx, `edi, `dl, `dh, `time08, video
      ensures Valid() && OnTime() && clock == old(clock) + 1 && Passed(c0, e0, v0)
      ensures eax == old(eax) && ecx == old(ecx) && dl == old(dl) && dh == old(dh)
    {
      ghost var middle := video[..];
      Ticks(irq(clock));
      CountTicked(video[..], middle, v0, old(time08), irq(clock));
      QuietNext(irq, c0, clock);
      ArrivedNext(irq, sinceClock, clock, sinceTime);
      clock := clock + 1;
    }

    /** `mov dl,al` and `and dl,0Fh`: DL becomes the lowest digit. */
    method LiveDigitOf(ghost c0: nat, ghost e0: dword, ghost v0: seq<byte>)
      requires Valid() && OnTime() && Passed(c0, e0, v0)
      modifies `clock, `eax, `ecx, `edi, `dl, `dh, `time08, video
      ensures Valid() && OnTime() && Passed(c0, e0, v0) && eax == old(eax) && ecx == old(ecx)
      ensures clock == old(clock) + 2 && dl == old(eax) % 16
    {
      Boundary(c0, e0, v0);
      dl := eax % 0x100;
      Boundary(c0, e0, v0);
      LowDigit(eax);
      dl := dl % 16;
    }

    method LiveColour(ghost c0: nat, ghost e0: dword, ghost v0: seq<byte>)
      requires Valid() && OnTime() && Passed(c0, e0, v0) && dl < 0x100 - 48
      modifies `clock, `eax, `ecx, `edi, `dl, `dh, `time08, video
      ensures Valid() && OnTime() && Passed(c0, e0, v0) && eax == old(eax) && ecx == old(ecx)
      ensures clock == old(clock) + 2 && dl == old(dl) + 48 && dh == 0x46
    {
      Boundary(c0, e0, v0);
      dl := dl + 48;
      Boundary(c0, e0, v0);
      dh := 0x46;
    }

    /** `create_number` up to `mov dh,46h`, with interrupts on. */
    method LiveNumber(ghost c0: nat, ghost e0: dword, ghost v0: seq<byte>)
      requires Valid() && OnTime() && Passed(c0, e0, v0) && dl < 16
      modifies `clock, `eax, `ecx, `edi, `dl, `dh, `time08, video
      ensures Valid() && OnTime() && Passed(c0, e0, v0) && eax == old(eax) && ecx == old(ecx)
      ensures clock == old(clock) + 4 + Extra(old(dl)) && dl == HexChar(old(dl)) && dh == 0x46
    {
      Boundary(c0, e0, v0);  // cmp dl,10
      Boundary(c0, e0, v0);  // jl number1
      if dl >= 10 {
        Boundary(c0, e0, v0);
        dl := dl + (65 - 48 - 10);
      }
      LiveColour(c0, e0, v0);
    }

    /** `ror eax,4`, `sub edi,2` and the boundary before `loop prcyc1`. */
    method LiveAdvance()
      requires Valid() && OnTime() && edi >= 2
      modifies `clock, `eax, `ecx, `edi, `dl, `dh, `time08, video
      ensures Valid() && OnTime() && clock == old(clock) + 3 && eax == Ror4(old(eax)) && ecx == old(ecx)
      ensures if Quiet(irq, old(clock), clock) then edi == old(edi) - 2 else edi == 156 || edi == 158
      ensures Ticked(video[..], old(video[..]))
    {
      ghost var c0, v0 := clock, video[..];
      Boundary(c0, edi, v0);
      eax := Ror4(eax);
      Boundary(c0, old(edi), v0);
      ghost var c1 := clock;
      edi := edi - 2;
      Boundary(c1, edi, video[..]);
    }

    /** The body of `prcyc1` with interrupts on. */
    method LiveDigit()
      requires Valid() && OnTime() && 2 <= edi < 3998 && !(158 < edi < 176)
      modifies `clock, `eax, `ecx, `edi, `dl, `dh, `time08, video
      ensures Valid() && OnTime() && eax == Ror4(old(eax)) && ecx == old(ecx)
      ensures clock == old(clock) + 10 + Extra(old(eax) % 16)
      ensures DigitAt(video[..], old(video[..]),
                      if Quiet(irq, old(clock), old(clock) + 7 + Extra(old(eax) % 16)) then old(edi) else 158,
                      old(eax) % 16)
      ensures if Quiet(irq, old(clock), clock) then edi == old(edi) - 2 else edi == 156 || edi == 158
    {
      ghost var c0, e0, v0 := clock, edi, video[..];
      LiveDigitOf(c0, e0, v0);
      LiveNumber(c0, e0, v0);
      Boundary(c0, e0, v0);
      video[edi] := dl;
      video[edi + 1] := dh;
      LiveAdvance();
    }

    /** One round of `prcyc1` with interrupts on. */
    method LiveNext(ghost before: seq<byte>, ghost d: seq<Digit>, ghost from: nat, ghost good: nat, ghost k: nat)
      returns (ghost good': nat)
      requires Valid() && OnTime() && Placed(video[..], before, d, good) && k < 8 && eax == Value(Rotated(d, k))
      requires InStep(irq, from, clock, edi, d, good, k)
      modifies `clock, `eax, `ecx, `edi, `dl, `dh, `time08, video
      ensures Valid() && OnTime() && ecx == old(ecx)
      ensures Placed(video[..], before, d, good') && eax == Value(Rotated(d, k + 1))
      ensures InStep(irq, from, clock, edi, d, good', k + 1)
    {
      ghost var middle, c0, e0, stored := video[..], clock, edi, from + StoreTime(d, k);
      RotatedStep(d, k);
      LiveDigit();
      InStepNext(irq, from, c0, e0, d, good, k, edi);
      good' := if Quiet(irq, from, stored) then good + 1 else good;
      if Quiet(irq, from, stored) {
        PlacedNext(video[..], middle, before, d, k);
      } else {
        PlacedAstray(video[..], middle, before, d, good, if Quiet(irq, c0, stored) then e0 else 158, d[k]);
      }
    }

    /** The loop `prcyc1` with interrupts on. */
    method LiveDigits(ghost before: seq<byte>, ghost d: seq<Digit>, ghost from: nat) returns (ghost good: nat)
      requires Valid() && OnTime() && Placed(video[..], before, d, 0) && eax == Value(d)
      requires InStep(irq, from, clock, edi, d, 0, 0)
      modifies `clock, `eax, `ecx, `edi, `dl, `dh, `time08, video
      ensures Valid() && OnTime() && Placed(video[..], before, d, good) && eax == old(eax)
      ensures InStep(irq, from, clock, edi, d, good, 8)
    {
      ghost var k := 0;
      RotatedBack(d);
      good := 0;
      ecx := 8;
      while ecx != 0
        invariant Valid() && OnTime() && 0 <= k <= 8 && ecx == 8 - k
        invariant Placed(video[..], before, d, good) && eax == Value(Rotated(d, k))
        invariant InStep(irq, from, clock, edi, d, good, k)
        decreases ecx
      {
        good := LiveNext(before, d, from, good, k);
        k := k + 1;
        ecx := ecx - 1;
      }
      assert k == 8;
    }

    /** `push ecx` to `add edi,172`. */
    method LiveStart(ghost d: seq<Digit>)
      requires Valid() && OnTime() && edi == SIZE_AT && |d| == 8
      modifies `clock, `eax, `ecx, `edi, `dl, `dh, `time08, video
      ensures Valid() && OnTime() && Placed(video[..], old(video[..]), d, 0)
      ensures eax == old(eax) && ecx == old(ecx) && dl == old(dl) && dh == old(dh)
      ensures InStep(irq, old(clock), clock, edi, d, 0, 0)
    {
      ghost var from, before := clock, video[..];
      Boundary(from, SIZE_AT, before);  // push ecx
      Boundary(from, SIZE_AT, before);  // push dx
      Boundary(from, SIZE_AT, before);  // mov ecx,8
      Boundary(from, SIZE_AT, before);
      edi := edi + 172;
    }

    method LiveEnd(ghost before: seq<byte>, ghost d: seq<Digit>, ghost good: nat)
      requires Valid() && OnTime() && Placed(video[..], before, d, good)
      modifies `clock, `eax, `ecx, `edi, `dl, `dh, `time08, video
      ensures Valid() && OnTime() && Placed(video[..], before, d, good) && eax == old(eax) && clock == old(clock) + 2
    {
      ghost var middle, c1, e1 := video[..], clock, edi;
      Boundary(c1, e1, middle);  // pop dx
      Boundary(c1, e1, middle);  // pop ecx
      PlacedTicked(video[..], middle, before, d, good);
    }

    /** `my_print_eax` with interrupts on, EDI being 20: exactly the digits stored before the
        first timer interrupt are in their places. */
    method LivePrint(ghost d: seq<Digit>) returns (ghost good: nat)
      requires Valid() && OnTime() && edi == SIZE_AT && |d| == 8 && eax == Value(d)
      modifies `clock, `eax, `ecx, `edi, `dl, `dh, `time08, video
      ensures Valid() && OnTime() && Placed(video[..], old(video[..]), d, good)
      ensures forall i :: 0 <= i < 8 ==> (i < good <==> Quiet(irq, old(clock), old(clock) + StoreTime(d, i)))
      ensures good == 8 <==> Quiet(irq, old(clock), old(clock) + StoreTime(d, 7))
      ensures clock == old(clock) + Elapsed(d, 8) + 2
      ensures eax == old(eax) && ecx == old(ecx) && dl == old(dl) && dh == old(dh)
    {
      ghost var from, before := clock, video[..];
      var ecx0, dl0, dh0 := ecx, dl, dh;  // what the pushes in LiveStart save
      LiveStart(d);
      good := LiveDigits(before, d, from);
      LiveEnd(before, d, good);
      ecx, dl, dh := ecx0, dl0, dh0;  // pop dx, pop ecx
    }

    /** One round of `check`: whether the byte at EBX is present. Memory is as before. */
    method LiveProbe(ghost c0: nat, ghost e0: dword, ghost v0: seq<byte>) returns (present: bool)
      requires Valid() && OnTime() && Passed(c0, e0, v0) && dl == 0xAA && ecx > 0
      modifies `clock, `eax, `ecx, `edi, `dl, `dh, `time08, memory, video
      ensures Valid() && OnTime() && Passed(c0, e0, v0) && dl == 0xAA && ecx == old(ecx)
      ensures memory[..] == old(memory[..]) && (present <==> ebx < memory.Length)
      ensures clock == old(clock) + if present then 5 else 4
    {
      Boundary(c0, e0, v0);
      dh := Load(ebx);
      Boundary(c0, e0, v0);
      Store(ebx, dl);
      Boundary(c0, e0, v0);
      present := Load(ebx) == dl;
      Boundary(c0, e0, v0);  // jnz end_of_memory
      if present {
        Boundary(c0, e0, v0);
        Store(ebx, dh);
      }
    }

    /** `push ds` to `mov ds,ax`. */
    method LiveSegment(ghost c0: nat, ghost e0: dword, ghost v0: seq<byte>)
      requires Valid() && OnTime() && Passed(c0, e0, v0)
      modifies `clock, `eax, `ecx, `edi, `dl, `dh, `time08, video
      ensures Valid() && OnTime() && Passed(c0, e0, v0) && clock == old(clock) + 3
      ensures eax % 0x1_0000 == SEL_FLAT_DS && eax / 0x1_0000 == old(eax) / 0x1_0000
    {
      Boundary(c0, e0, v0);  // push ds
      Boundary(c0, e0, v0);
      eax := WithLow(eax, SEL_FLAT_DS);
      Boundary(c0, e0, v0);  // mov ds,ax
    }

    /** `mov ebx,100001h` to `mov ecx,0FFEFFFFEh`. */
    method LiveSetUp(ghost c0: nat, ghost e0: dword, ghost v0: seq<byte>)
      requires Valid() && OnTime() && Passed(c0, e0, v0)
      modifies `clock, `eax, `ebx, `ecx, `edi, `dl, `dh, `time08, video
      ensures Valid() && OnTime() && Passed(c0, e0, v0) && clock == old(clock) + 3
      ensures ebx == 0x10_0001 && dl == 0xAA && ecx == 0xFFEF_FFFE
    {
      Boundary(c0, e0, v0);
      ebx := 0x10_0001;
      Boundary(c0, e0, v0);
      dl := 0xAA;
      Boundary(c0, e0, v0);
      ecx := 0xFFEF_FFFE;
    }

    /** `inc ebx` and `loop check`. */
    method LiveNextByte(ghost c0: nat, ghost e0: dword, ghost v0: seq<byte>)
      requires Valid() && OnTime() && Passed(c0, e0, v0) && ebx + ecx == 0xFFFF_FFFF && ecx > 0
      modifies `clock, `eax, `ebx, `ecx, `edi, `dl, `dh, `time08, video
      ensures Valid() && OnTime() && Passed(c0, e0, v0) && clock == old(clock) + 2
      ensures ebx == old(ebx) + 1 && ecx == old(ecx) - 1 && dl == old(dl)
    {
      Boundary(c0, e0, v0);
      ebx := ebx + 1;
      Boundary(c0, e0, v0);
      ecx := ecx - 1;
    }

    /** `compute_memory` up to the end of the loop `check`. */
    method LiveSize(ghost c0: nat, ghost e0: dword, ghost v0: seq<byte>)
      requires Valid() && OnTime() && Passed(c0, e0, v0)
      modifies `clock, `eax, `ebx, `ecx, `edi, `dl, `dh, `time08, memory, video
      ensures Valid() && OnTime() && Passed(c0, e0, v0)
      ensures memory[..] == old(memory[..]) && ebx == StopsAt(memory.Length)
      ensures clock == old(clock) + SizedAt(memory.Length)
    {
      LiveSegment(c0, e0, v0);
      LiveSetUp(c0, e0, v0);
      while ecx != 0
        invariant Valid() && OnTime() && Passed(c0, e0, v0) && memory[..] == old(memory[..])
        invariant ebx + ecx == 0xFFFF_FFFF && dl == 0xAA && ebx >= 0x10_0001
        invariant ebx == 0x10_0001 || ebx <= memory.Length
        invariant clock == old(clock) + 6 + 7 * (ebx - 0x10_0001)
        decreases ecx
      {
        var present := LiveProbe(c0, e0, v0);
        if !present { break; }
        LiveNextByte(c0, e0, v0);
      }
    }

    /** `pop ds` to `mov ebx,100000h`. */
    method LiveOperands(ghost c0: nat, ghost e0: dword, ghost v0: seq<byte>)
      requires Valid() && OnTime() && Passed(c0, e0, v0)
      modifies `clock, `eax, `ebx, `ecx, `edi, `dl, `dh, `time08, video
      ensures Valid() && OnTime() && Passed(c0, e0, v0)
      ensures eax == old(ebx) && ebx == MEGABYTE && clock == old(clock) + 4
    {
      Boundary(c0, e0, v0);  // pop ds
      Boundary(c0, e0, v0);
      dl, dh := 0, 0;  // xor edx,edx
      Boundary(c0, e0, v0);
      eax := ebx;
      Boundary(c0, e0, v0);
      ebx := MEGABYTE;
    }

    /** `div ebx` to `mov edi,20`. */
    method LiveDivide(ghost c0: nat, ghost e0: dword, ghost v0: seq<byte>)
      requires Valid() && OnTime() && Passed(c0, e0, v0) && ebx == MEGABYTE
      modifies `clock, `eax, `ecx, `edi, `dl, `dh, `time08, video
      ensures Valid() && OnTime() && Ticked(video[..], v0)
      ensures eax == old(eax) / MEGABYTE && edi == SIZE_AT && clock == old(clock) + 3
      ensures dh * 0x100 + dl == old(eax) % MEGABYTE % 0x1_0000
    {
      Boundary(c0, e0, v0);
      LowWord(eax % ebx);
      dl, dh := eax % ebx % 0x100, eax % ebx / 0x100 % 0x100;  // the remainder goes to EDX
      eax := eax / ebx;
      Boundary(c0, e0, v0);  // xor edi,edi, which `mov edi,20` makes up for
      Boundary(c0, e0, v0);
      edi := SIZE_AT;
    }

    /** `my_print_eax` with EDI just set: when the number can be read from the screen. */
    method LiveShow()
      requires Valid() && OnTime() && edi == SIZE_AT
      modifies `clock, `eax, `ecx, `edi, `dl, `dh, `time08, video
      ensures Valid() && OnTime() && eax == old(eax) && clock > old(clock)
      ensures Framed(video[..], old(video[..]))
      ensures Quiet(irq, old(clock), old(clock) + StoreTime(DigitsOf(eax), 7)) ==> Shown(video[..], SIZE_AT, eax)
      ensures !IsHex(old(video[FIRST])) && Shown(video[..], SIZE_AT, eax) ==>
                Quiet(irq, old(clock), old(clock) + StoreTime(DigitsOf(eax), 7))
    {
      ghost var before, good, d := video[..], 0, DigitsOf(eax);
      good := LivePrint(d);
      PlacedShows(video[..], before, d, good);
    }

    /** `compute_memory` while `time08` is accounted for. */
    method LiveCompute()
      requires Valid() && OnTime()
      modifies `clock, `eax, `ebx, `ecx, `edi, `dl, `dh, `time08, memory, video
      ensures Valid() && OnTime() && memory[..] == old(memory[..]) && clock > old(clock)
      ensures eax == StopsAt(memory.Length) / MEGABYTE
      ensures Quiet(irq, old(clock) + LiveFrom(memory.Length), old(clock) + LiveTo(memory.Length)) ==>
                Shown(video[..], SIZE_AT, eax)
      ensures !IsHex(old(video[FIRST])) && Shown(video[..], SIZE_AT, eax) ==>
                Quiet(irq, old(clock) + LiveFrom(memory.Length), old(clock) + LiveTo(memory.Length))
      ensures Framed(video[..], old(video[..]))
    {
      ghost var c0, e0, v0 := clock, edi, video[..];
      LiveSize(c0, e0, v0);
      LiveOperands(c0, e0, v0);
      LiveDivide(c0, e0, v0);
      ghost var middle := video[..];
      LiveShow();
      FramedTicked(video[..], middle, v0);
    }

    /** `compute_memory`, called with interrupts on. Memory is as it was, and EAX and the count
        are right, whatever interrupts come. The size can be read from the screen if no timer
        interrupt comes while EDI is live, and, unless the leftmost cell held a hexadecimal
        digit before, only then. */
    method ComputeMemory()
      requires Valid()
      modifies this, memory, video
      ensures Valid() && memory[..] == old(memory[..])
      ensures eax == StopsAt(memory.Length) / MEGABYTE
      ensures Quiet(irq, old(clock) + LiveFrom(memory.Length), old(clock) + LiveTo(memory.Length)) ==>
                Shown(video[..], SIZE_AT, eax)
      ensures !IsHex(old(video[FIRST])) && Shown(video[..], SIZE_AT, eax) ==>
                Quiet(irq, old(clock) + LiveFrom(memory.Length), old(clock) + LiveTo(memory.Length))
      ensures Framed(video[..], old(video[..]))
      ensures clock > old(clock)
      ensures time08 == Count32(old(time08), Arrived(irq, old(clock), clock))
      ensures (old(time08) + Arrived(irq, old(clock), clock) - time08) % 0x1_0000_0000 == 0
    {
      sinceClock, sinceTime := clock, time08;
      LiveCompute();
      Count32Is(sinceTime, Arrived(irq, sinceClock, clock));
    }

    /** For one: with a timer interrupt at every instruction, and a screen without a digit in
        the leftmost cell, the size cannot be read. */
    method ComputeUnderFire()
      requires Valid() && !IsHex(video[FIRST]) && forall c :: irq(c) > 0
      modifies this, memory, video
      ensures memory[..] == old(memory[..]) && eax == StopsAt(memory.Length) / MEGABYTE
      ensures !Shown(video[..], SIZE_AT, eax)
    {
      ComputeMemory();
      assert irq(old(clock) + LiveFrom(memory.Length)) > 0;
    }
  }
}
