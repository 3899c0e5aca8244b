/** Two buffered streams over one file descriptor, read in turns
    (6-semestr/lab5/1.c). Each refill takes the next bytes at the offset the
    streams share. */
module SharedOffset {
  import opened Options

  // ------------------------------------------------------- what the file comes out as

  function Min(a: nat, b: nat): nat { if a < b then a else b }

  /** Where the t-th byte comes from when bytes i..j and k..m are taken in turns, and what is
      left of i..j follows. */
  function ZipFrom(i: nat, j: nat, k: nat, m: nat, t: nat): (p: nat)
    requires k <= m && m - k <= j - i && t < j - i + m - k
    ensures i <= p < j || k <= p < m
  {
    if t >= 2 * (m - k) then i + t - (m - k) else if t % 2 == 0 then i + t / 2 else k + t / 2
  }

  function Zip(file: string, i: nat, j: nat, k: nat, m: nat): (z: string)
    requires i <= j <= |file| && k <= m <= |file| && m - k <= j - i
    ensures |z| == j - i + m - k
  {
    seq(j - i + m - k, t requires 0 <= t < j - i + m - k => file[ZipFrom(i, j, k, m, t)])
  }

  lemma ZipBoth(file: string, i: nat, j: nat, k: nat, m: nat)
    requires i < j <= |file| && k < m <= |file| && m - k <= j - i
    ensures Zip(file, i, j, k, m) == [file[i], file[k]] + Zip(file, i + 1, j, k + 1, m)
  {
    forall t | 2 <= t < j - i + m - k
      ensures ZipFrom(i, j, k, m, t) == ZipFrom(i + 1, j, k + 1, m, t - 2)
    {
    }
  }

  lemma ZipOne(file: string, i: nat, j: nat, k: nat, m: nat)
    requires i < j <= |file| && k <= |file| && m <= |file|
    ensures Zip(file, i, j, k, k) == [file[i]] + Zip(file, i + 1, j, m, m)
  {
  }

  /** Where the first and the second buffer of the block that starts at `s` end. */
  function FirstEnd(n: nat, b: nat, s: nat): nat { Min(s + b, n) }
  function SecondEnd(n: nat, b: nat, s: nat): nat { Min(s + 2 * b, n) }

  /** Where the t-th byte of the output block that starts at `s` comes from. */
  function BlockFrom(n: nat, b: nat, s: nat, t: nat): (p: nat)
    requires s < n && t < SecondEnd(n, b, s) - s
    ensures s <= p < SecondEnd(n, b, s)
  {
    ZipFrom(s, FirstEnd(n, b, s), FirstEnd(n, b, s), SecondEnd(n, b, s), t)
  }

  /** Where output byte `p` comes from, with blocks of two buffers from `s` on. */
  function Source(n: nat, b: nat, s: nat, p: nat): (q: nat)
    requires b >= 1 && s <= p < n
    ensures q < n
    decreases p - s
  {
    if p < s + 2 * b then BlockFrom(n, b, s, p - s) else Source(n, b, s + 2 * b, p)
  }

  /** The file from `s` on, in blocks of two buffers, each interleaved. */
  function ShuffleFrom(file: string, b: nat, s: nat): (out: string)
    requires b >= 1 && s <= |file|
    ensures |out| == |file| - s
  {
    seq(|file| - s, t requires 0 <= t < |file| - s => file[Source(|file|, b, s, s + t)])
  }

  function Shuffle(file: string, b: nat): string
    requires b >= 1
  {
    ShuffleFrom(file, b, 0)
  }

  lemma ShuffleBlock(file: string, b: nat, s: nat)
    requires b >= 1 && s < |file|
    ensures var k, e := FirstEnd(|file|, b, s), SecondEnd(|file|, b, s);
            ShuffleFrom(file, b, s) == Zip(file, s, k, k, e) + ShuffleFrom(file, b, e)
  {
    var k, e := FirstEnd(|file|, b, s), SecondEnd(|file|, b, s);
    var zip, rest := Zip(file, s, k, k, e), ShuffleFrom(file, b, e);
    forall t | 0 <= t < |file| - s ensures ShuffleFrom(file, b, s)[t] == (zip + rest)[t] {
      assert ShuffleFrom(file, b, s)[t] == file[Source(|file|, b, s, s + t)];
      if t < e - s {
        assert zip[t] == file[BlockFrom(|file|, b, s, t)];
      } else {
        assert e == s + 2 * b;
        var u := t - (e - s);
        assert rest[u] == file[Source(|file|, b, e, e + u)] && e + u == s + t;
      }
    }
  }

  /** Where block `q` starts: 2b bytes a block. */
  function Start(q: nat, b: nat): nat {
    if q == 0 then 0 else 2 * b + Start(q - 1, b)
  }

  lemma {:induction false} StartIs(q: nat, b: nat)
    ensures Start(q, b) == 2 * b * q
    decreases q
  {
    if q > 0 {
      StartIs(q - 1, b);
      assert 2 * b * q == 2 * b * (q - 1) + 2 * b;
    }
  }

  lemma {:induction false} SourceAt(n: nat, b: nat, s: nat, q: nat, t: nat)
    requires b >= 1 && s + Start(q, b) < n && t < SecondEnd(n, b, s + Start(q, b)) - s - Start(q, b)
    ensures Source(n, b, s, s + Start(q, b) + t) == BlockFrom(n, b, s + Start(q, b), t)
    decreases q
  {
    if q > 0 {
      SourceAt(n, b, s + 2 * b, q - 1, t);
    }
  }

  /** Where every byte of the output comes from: block `q` of the output is block `q` of the
      file, shuffled; the last block may be ragged. */
  lemma ShuffleAt(file: string, b: nat, q: nat, t: nat)
    requires b >= 1 && 2 * b * q < |file| && t < SecondEnd(|file|, b, 2 * b * q) - 2 * b * q
    ensures Shuffle(file, b)[2 * b * q + t] == file[BlockFrom(|file|, b, 2 * b * q, t)]
  {
    StartIs(q, b);
    SourceAt(|file|, b, 0, q, t);
  }

  lemma FullBlockFrom(n: nat, b: nat, s: nat, r: nat)
    requires s + 2 * b <= n && r < b
    ensures BlockFrom(n, b, s, 2 * r) == s + r && BlockFrom(n, b, s, 2 * r + 1) == s + b + r
  {
  }

  /** In a full block, outputs 2r and 2r + 1 are bytes r and b + r. */
  lemma FullBlock(file: string, b: nat, q: nat, r: nat)
    requires b >= 1 && 2 * b * q + 2 * b <= |file| && r < b
    ensures var s := 2 * b * q;
            Shuffle(file, b)[s + 2 * r] == file[s + r] && Shuffle(file, b)[s + 2 * r + 1] == file[s + b + r]
  {
    var s := 2 * b * q;
    FullBlockFrom(|file|, b, s, r);
    ShuffleAt(file, b, q, 2 * r);
    ShuffleAt(file, b, q, 2 * r + 1);
  }

  /** How often `c` occurs among bytes i..j of the file. */
  function Count(file: string, i: nat, j: nat, c: char): nat
    requires i <= j <= |file|
    decreases j - i
  {
    if i == j then 0 else (if file[i] == c then 1 else 0) + Count(file, i + 1, j, c)
  }

  lemma {:induction false} CountAll(file: string, i: nat, c: char)
    requires i <= |file|
    ensures Count(file, i, |file|, c) == multiset(file[i..])[c]
    decreases |file| - i
  {
    if i < |file| {
      CountAll(file, i + 1, c);
      assert file[i..] == [file[i]] + file[i + 1..];
    }
  }

  lemma {:induction false} CountSplit(file: string, i: nat, j: nat, k: nat, c: char)
    requires i <= j <= k <= |file|
    ensures Count(file, i, k, c) == Count(file, i, j, c) + Count(file, j, k, c)
    decreases j - i
  {
    if i < j { CountSplit(file, i + 1, j, k, c); }
  }

  lemma PrependCounts(x: string, z: string, c: char)
    requires 1 <= |x| <= 2
    ensures multiset(x + z)[c] ==
            (if x[0] == c then 1 else 0) + (if |x| == 2 && x[1] == c then 1 else 0) + multiset(z)[c]
  {
    assert x == if |x| == 2 then [x[0], x[1]] else [x[0]];
    assert multiset(x + z)[c] == multiset(x)[c] + multiset(z)[c];
  }

  lemma {:induction false} ZipCounts(file: string, i: nat, j: nat, k: nat, m: nat, c: char)
    requires i <= j <= |file| && k <= m <= |file| && m - k <= j - i
    ensures multiset(Zip(file, i, j, k, m))[c] == Count(file, i, j, c) + Count(file, k, m, c)
    decreases j - i
  {
    if k < m {
      ZipBoth(file, i, j, k, m);
      ZipCounts(file, i + 1, j, k + 1, m, c);
      PrependCounts([file[i], file[k]], Zip(file, i + 1, j, k + 1, m), c);
    } else if i < j {
      ZipOne(file, i, j, k, k);
      ZipCounts(file, i + 1, j, k, k, c);
      PrependCounts([file[i]], Zip(file, i + 1, j, k, k), c);
    }
  }

  lemma {:induction false} ShuffleCounts(file: string, b: nat, s: nat, c: char)
    requires b >= 1 && s <= |file|
    ensures multiset(ShuffleFrom(file, b, s))[c] == Count(file, s, |file|, c)
    decreases |file| - s
  {
    if s < |file| {
      var k, e := FirstEnd(|file|, b, s), SecondEnd(|file|, b, s);
      ShuffleBlock(file, b, s);
      ZipCounts(file, s, k, k, e, c);
      ShuffleCounts(file, b, e, c);
      CountSplit(file, s, k, e, c);
      CountSplit(file, s, e, |file|, c);
    }
  }

  /** The shuffle of a file is a permutation of it. */
  lemma ShufflePermutes(file: string, b: nat)
    requires b >= 1
    ensures multiset(Shuffle(file, b)) == multiset(file)
  {
    assert file[0..] == file;
    forall c ensures multiset(Shuffle(file, b))[c] == multiset(file)[c] {
      ShuffleCounts(file, b, 0, c);
      CountAll(file, 0, c);
    }
  }

  // ---------------------------------------------------------------- the program

  /** An open file description: the file and the offset all its users share. */
  class Description {
    const file: string
    var offset: nat

    constructor (file: string)
      ensures this.file == file && offset == 0
    {
      this.file, offset := file, 0;
    }

    /** `read` */
    method Read(n: nat) returns (bytes: string)
      requires offset <= |file|
      modifies this
      ensures offset == Min(old(offset) + n, |file|) && bytes == file[old(offset)..offset]
    {
      var start := offset;
      offset := Min(offset + n, |file|);
      bytes := file[start..offset];
    }
  }

  /** The unread part lo..hi of a buffer, as file positions, and the shared offset. */
  datatype Window = Window(lo: nat, hi: nat, offset: nat)

  /** The window a scan reads from: refilled if it was used up. */
  function Refilled(n: nat, size: nat, w: Window): Window
    requires w.lo <= w.hi <= n && w.offset <= n
  {
    if w.lo < w.hi then w else Window(w.offset, Min(w.offset + size, n), Min(w.offset + size, n))
  }

  function Shown(c: Option<char>): string { if c.Some? then [c.value] else [] }

  /** The byte a scan yields, if any, and the window it leaves. */
  function Scanned(file: string, size: nat, w: Window): (string, Window)
    requires w.lo <= w.hi <= |file| && w.offset <= |file|
  {
    var r := Refilled(|file|, size, w);
    if r.lo < r.hi then ([file[r.lo]], r.(lo := r.lo + 1)) else ([], r)
  }

  /** A fully buffered stream: `setvbuf(fs, buff, _IOFBF, size)`. */
  class Stream {
    const fd: Description
    const size: nat
    var buffer: string
    var next: nat
    ghost var filledAt: nat  // the offset at the last refill

    ghost predicate Valid()
      reads this, fd
    {
      && fd.offset <= |fd.file| && next <= |buffer|
      && filledAt + |buffer| <= |fd.file| && buffer == fd.file[filledAt..filledAt + |buffer|]
    }

    ghost function Unread(): Window
      requires Valid()
      reads this, fd
    {
      Window(filledAt + next, filledAt + |buffer|, fd.offset)
    }

    constructor (fd: Description, size: nat)
      requires fd.offset <= |fd.file|
      ensures this.fd == fd && this.size == size && Valid() && Unread() == Window(0, 0, fd.offset)
    {
      this.fd, this.size := fd, size;
      buffer, next, filledAt := [], 0, 0;
    }

    /** `fscanf(fs, "%c", &c)`, with None for EOF. */
    method Scan() returns (c: Option<char>)
      requires Valid()
      modifies this, fd
      ensures Valid()
      ensures (Shown(c), Unread()) == Scanned(fd.file, size, old(Unread()))
    {
      if next == |buffer| {
        filledAt := fd.offset;
        buffer := fd.Read(size);
        next := 0;
      }
      if next == |buffer| { return None; }
      c, next := Some(buffer[next]), next + 1;
    }
  }

  /** How often `c` occurs in what a stream and the file still hold. */
  function Held(file: string, w: Window, c: char): nat
    requires w.lo <= w.hi <= |file| && w.offset <= |file|
  {
    Count(file, w.lo, w.hi, c) + Count(file, w.offset, |file|, c)
  }

  function Size(n: nat, w: Window): int { w.hi - w.lo + n - w.offset }

  lemma ScanShape(file: string, size: nat, w: Window)
    requires size >= 1 && w.lo <= w.hi <= |file| && w.offset <= |file|
    ensures var (x, v) := Scanned(file, size, w);
            && v.lo <= v.hi <= |file| && w.offset <= v.offset <= |file|
            && |x| + Size(|file|, v) == Size(|file|, w)
            && (x == [] <==> w.lo == w.hi && w.offset == |file|)
            && (x == [] ==> v.lo == v.hi)
  {
  }

  /** A scan moves bytes but loses none. */
  lemma ScanKeeps(file: string, size: nat, w: Window, c: char)
    requires size >= 1 && w.lo <= w.hi <= |file| && w.offset <= |file|
    ensures var (x, v) := Scanned(file, size, w);
            && v.lo <= v.hi <= |file| && v.offset <= |file|
            && multiset(x)[c] + Held(file, v, c) == Held(file, w, c)
  {
    if w.lo == w.hi { CountSplit(file, w.offset, Refilled(|file|, size, w).hi, |file|, c); }
  }

  // A round of the loop: one scan of each stream.

  /** What a round prints from each stream, and the windows it leaves. */
  datatype Turned = Turned(x1: string, x2: string, v1: Window, v2: Window)

  predicate InFile(n: nat, w1: Window, w2: Window) {
    w1.lo <= w1.hi <= n && w2.lo <= w2.hi <= n && w1.offset == w2.offset <= n
  }

  function TurnOf(file: string, size1: nat, size2: nat, w1: Window, w2: Window): (r: Turned)
    requires InFile(|file|, w1, w2)
    ensures InFile(|file|, r.v1, r.v2)
  {
    var (x1, v1) := Scanned(file, size1, w1);
    var (x2, v2) := Scanned(file, size2, w2.(offset := v1.offset));
    Turned(x1, x2, v1.(offset := v2.offset), v2)
  }

  function Left(n: nat, w1: Window, w2: Window): int { w1.hi - w1.lo + Size(n, w2) }

  lemma TurnShape(file: string, size1: nat, size2: nat, w1: Window, w2: Window)
    requires size1 >= 1 && size2 >= 1 && InFile(|file|, w1, w2)
    ensures var t := TurnOf(file, size1, size2, w1, w2);
            && Left(|file|, t.v1, t.v2) + |t.x1| + |t.x2| == Left(|file|, w1, w2)
            && (t.x1 == [] ==> t.v1.lo == t.v1.hi && t.v1.offset == |file|)
            && (t.x1 == [] && w2.lo == w2.hi ==> t.x2 == [])
            && (t.x2 == [] ==> t.v2.lo == t.v2.hi)
  {
    ScanShape(file, size1, w1);
    ScanShape(file, size2, w2.(offset := Scanned(file, size1, w1).1.offset));
  }

  /** How often `c` occurs in what the two streams and the file still hold. */
  function All(file: string, w1: Window, w2: Window, c: char): nat
    requires InFile(|file|, w1, w2)
  {
    Count(file, w1.lo, w1.hi, c) + Held(file, w2, c)
  }

  /** Two scans move bytes but lose none. */
  lemma TurnKeeps(file: string, size1: nat, size2: nat, w1: Window, w2: Window, c: char)
    requires size1 >= 1 && size2 >= 1 && InFile(|file|, w1, w2)
    ensures var t := TurnOf(file, size1, size2, w1, w2);
            multiset(t.x1 + t.x2)[c] + All(file, t.v1, t.v2, c) == All(file, w1, w2, c)
  {
    ScanKeeps(file, size1, w1, c);
    ScanKeeps(file, size2, w2.(offset := Scanned(file, size1, w1).1.offset), c);
  }

  /** What has been printed and what is still held make up the file. */
  ghost predicate Kept(file: string, out: string, w1: Window, w2: Window)
    requires InFile(|file|, w1, w2)
  {
    forall c :: multiset(out)[c] + All(file, w1, w2, c) == multiset(file)[c]
  }

  lemma KeptMoves(file: string, size1: nat, size2: nat, w1: Window, w2: Window, out: string)
    requires size1 >= 1 && size2 >= 1 && InFile(|file|, w1, w2) && Kept(file, out, w1, w2)
    ensures var t := TurnOf(file, size1, size2, w1, w2);
            Kept(file, out + (t.x1 + t.x2), t.v1, t.v2)
  {
    var t := TurnOf(file, size1, size2, w1, w2);
    forall c ensures multiset(out + (t.x1 + t.x2))[c] + All(file, t.v1, t.v2, c) == multiset(file)[c] {
      TurnKeeps(file, size1, size2, w1, w2, c);
      assert multiset(out + (t.x1 + t.x2))[c] == multiset(out)[c] + multiset(t.x1 + t.x2)[c];
    }
  }

  lemma KeptAtStart(file: string)
    ensures Kept(file, [], Window(0, 0, 0), Window(0, 0, 0))
  {
    assert file[0..] == file;
    forall c ensures All(file, Window(0, 0, 0), Window(0, 0, 0), c) == multiset(file)[c] { CountAll(file, 0, c); }
  }

  lemma KeptAtEnd(file: string, out: string, w1: Window, w2: Window)
    requires InFile(|file|, w1, w2) && w1.lo == w1.hi && w2.lo == w2.hi && w2.offset == |file|
    requires Kept(file, out, w1, w2)
    ensures multiset(out) == multiset(file)
  {
    assert forall c :: All(file, w1, w2, c) == 0;
  }

  /** The second stream never has more left than the first, and less only at the end of the file. */
  predicate Balanced(n: nat, w1: Window, w2: Window) {
    && InFile(n, w1, w2)
    && w2.hi - w2.lo <= w1.hi - w1.lo && (w2.hi - w2.lo < w1.hi - w1.lo ==> w1.offset == n)
  }

  /** With equal buffers, what two unread stretches and the unread file come out as. */
  function Plan(file: string, b: nat, w1: Window, w2: Window): string
    requires b >= 1 && Balanced(|file|, w1, w2)
  {
    Zip(file, w1.lo, w1.hi, w2.lo, w2.hi) + ShuffleFrom(file, b, w1.offset)
  }

  lemma RefillPlan(file: string, b: nat, s: nat)
    requires b >= 1 && s < |file|
    ensures var k, e := FirstEnd(|file|, b, s), SecondEnd(|file|, b, s);
            if k < e then
              ShuffleFrom(file, b, s) == [file[s], file[k]] + (Zip(file, s + 1, k, k + 1, e) + ShuffleFrom(file, b, e))
            else
              ShuffleFrom(file, b, s) == [file[s]] + (Zip(file, s + 1, k, k, k) + ShuffleFrom(file, b, e))
  {
    var k, e := FirstEnd(|file|, b, s), SecondEnd(|file|, b, s);
    ShuffleBlock(file, b, s);
    if k < e { ZipBoth(file, s, k, k, e); } else { ZipOne(file, s, k, k, k); }
  }

  // The three kinds of round: two bytes, one byte at the end of the file, or a refill.

  lemma JoinTwo(x: char, y: char, z: string, r: string)
    ensures [x, y] + z + r == [x] + [y] + (z + r)
  {
  }

  lemma PlanFull(file: string, b: nat, w1: Window, w2: Window)
    requires b >= 1 && Balanced(|file|, w1, w2) && w1.lo < w1.hi && w2.lo < w2.hi
    ensures var v1, v2 := w1.(lo := w1.lo + 1), w2.(lo := w2.lo + 1);
            && Balanced(|file|, v1, v2)
            && Plan(file, b, w1, w2) == [file[w1.lo]] + [file[w2.lo]] + Plan(file, b, v1, v2)
  {
    ZipBoth(file, w1.lo, w1.hi, w2.lo, w2.hi);
    JoinTwo(file[w1.lo], file[w2.lo], Zip(file, w1.lo + 1, w1.hi, w2.lo + 1, w2.hi), ShuffleFrom(file, b, w1.offset));
  }

  lemma TurnFull(file: string, b: nat, w1: Window, w2: Window)
    requires Balanced(|file|, w1, w2) && w1.lo < w1.hi && w2.lo < w2.hi
    ensures TurnOf(file, b, b, w1, w2) ==
            Turned([file[w1.lo]], [file[w2.lo]], w1.(lo := w1.lo + 1), w2.(lo := w2.lo + 1))
  {
  }

  lemma PlanLast(file: string, b: nat, w1: Window, w2: Window)
    requires b >= 1 && Balanced(|file|, w1, w2) && w1.lo < w1.hi && w2.lo == w2.hi
    ensures var t := TurnOf(file, b, b, w1, w2);
            Balanced(|file|, t.v1, t.v2) && Plan(file, b, w1, w2) == t.x1 + t.x2 + Plan(file, b, t.v1, t.v2)
  {
    ZipOne(file, w1.lo, w1.hi, w2.lo, |file|);
  }

  /** A refill takes the next block: one buffer for the first stream, what then comes for the second. */
  lemma TurnRefill(file: string, b: nat, w1: Window, w2: Window)
    requires b >= 1 && Balanced(|file|, w1, w2) && w1.lo == w1.hi
    ensures var s, k, e := w1.offset, FirstEnd(|file|, b, w1.offset), SecondEnd(|file|, b, w1.offset);
            TurnOf(file, b, b, w1, w2) ==
            if s == |file| then Turned([], [], Window(s, s, s), Window(s, s, s))
            else if k == e then Turned([file[s]], [], Window(s + 1, k, k), Window(k, k, k))
            else Turned([file[s]], [file[k]], Window(s + 1, k, e), Window(k + 1, e, e))
  {
  }

  lemma PlanRefill(file: string, b: nat, w1: Window, w2: Window)
    requires b >= 1 && Balanced(|file|, w1, w2) && w1.lo == w1.hi
    ensures var t := TurnOf(file, b, b, w1, w2);
            Balanced(|file|, t.v1, t.v2) && Plan(file, b, w1, w2) == t.x1 + t.x2 + Plan(file, b, t.v1, t.v2)
  {
    var s, k, e := w1.offset, FirstEnd(|file|, b, w1.offset), SecondEnd(|file|, b, w1.offset);
    TurnRefill(file, b, w1, w2);
    assert Plan(file, b, w1, w2) == ShuffleFrom(file, b, s);
    if s < |file| {
      RefillPlan(file, b, s);
      if k < e {
        assert [file[s], file[k]] == [file[s]] + [file[k]];
        assert Plan(file, b, Window(s + 1, k, e), Window(k + 1, e, e)) ==
               Zip(file, s + 1, k, k + 1, e) + ShuffleFrom(file, b, e);
      } else {
        assert [file[s]] == [file[s]] + [];
      }
    }
  }

  /** With equal buffers, a round shows the front of the plan and leaves the rest of it. */
  lemma PlanMoves(file: string, b: nat, w1: Window, w2: Window)
    requires b >= 1 && Balanced(|file|, w1, w2)
    ensures var t := TurnOf(file, b, b, w1, w2);
            Balanced(|file|, t.v1, t.v2) && Plan(file, b, w1, w2) == t.x1 + t.x2 + Plan(file, b, t.v1, t.v2)
  {
    if w1.lo == w1.hi {
      PlanRefill(file, b, w1, w2);
    } else if w2.lo < w2.hi {
      PlanFull(file, b, w1, w2);
      TurnFull(file, b, w1, w2);
    } else {
      PlanLast(file, b, w1, w2);
    }
  }

  /** A round of the loop: scan and print from each stream. */
  method Turn(fs1: Stream, fs2: Stream) returns (flag1: int, flag2: int, printed: string)
    requires fs1 != fs2 && fs1.fd == fs2.fd && fs1.Valid() && fs2.Valid()
    modifies fs1, fs2, fs1.fd
    ensures fs1.Valid() && fs2.Valid()
    ensures var t := TurnOf(fs1.fd.file, fs1.size, fs2.size, old(fs1.Unread()), old(fs2.Unread()));
            && printed == t.x1 + t.x2
            && fs1.Unread() == t.v1 && fs2.Unread() == t.v2
            && flag1 == (if t.x1 == [] then -1 else 1) && flag2 == (if t.x2 == [] then -1 else 1)
  {
    ghost var w1, w2 := fs1.Unread(), fs2.Unread();
    var c := fs1.Scan();
    flag1 := if c.Some? then 1 else -1;
    printed := Shown(c);
    ghost var v1 := fs1.Unread();
    assert fs2.Unread() == w2.(offset := v1.offset);
    c := fs2.Scan();
    flag2 := if c.Some? then 1 else -1;
    printed := printed + Shown(c);
    assert fs1.Unread() == v1.(offset := fs2.Unread().offset);
  }

  /** What the loop keeps, in one place. */
  ghost predicate LoopInv(file: string, size1: nat, size2: nat, w1: Window, w2: Window,
                          flag1: int, flag2: int, out: string)
    requires size1 >= 1 && size2 >= 1
  {
    && InFile(|file|, w1, w2) && Kept(file, out, w1, w2)
    && (flag1 != 1 ==> w1.lo == w1.hi && w1.offset == |file| && (flag2 != 1 ==> w2.lo == w2.hi))
    && (size1 == size2 ==> Balanced(|file|, w1, w2) && out + Plan(file, size1, w1, w2) == Shuffle(file, size1))
  }

  lemma LoopStep(file: string, size1: nat, size2: nat, w1: Window, w2: Window,
                 flag1: int, flag2: int, out: string)
    requires size1 >= 1 && size2 >= 1 && LoopInv(file, size1, size2, w1, w2, flag1, flag2, out)
    ensures var t := TurnOf(file, size1, size2, w1, w2);
            var f1, f2 := if t.x1 == [] then -1 else 1, if t.x2 == [] then -1 else 1;
            && LoopInv(file, size1, size2, t.v1, t.v2, f1, f2, out + (t.x1 + t.x2))
            && 0 <= Left(|file|, t.v1, t.v2) == Left(|file|, w1, w2) - |t.x1 + t.x2|
  {
    TurnShape(file, size1, size2, w1, w2);
    KeptMoves(file, size1, size2, w1, w2, out);
    if size1 == size2 {
      PlanMoves(file, size1, w1, w2);
      var t := TurnOf(file, size1, size2, w1, w2);
      var rest := Plan(file, size1, t.v1, t.v2);
      assert out + (t.x1 + t.x2) + rest == out + (t.x1 + t.x2 + rest);
    }
  }

  /** `main`: scan and print in turns until both streams are at their end. The output is a
      permutation of the file for any two buffers, and for equal buffers it is the shuffle. */
  method Alternate(file: string, size1: nat, size2: nat) returns (out: string)
    requires size1 >= 1 && size2 >= 1
    ensures multiset(out) == multiset(file)
    ensures size1 == size2 ==> out == Shuffle(file, size1)
  {
    var fd := new Description(file);
    var fs1 := new Stream(fd, size1);
    var fs2 := new Stream(fd, size2);
    out := [];
    var flag1, flag2 := 1, 2;
    KeptAtStart(file);
    while flag1 == 1 || flag2 == 1
      invariant fs1.Valid() && fs2.Valid()
      invariant LoopInv(file, size1, size2, fs1.Unread(), fs2.Unread(), flag1, flag2, out)
      decreases Left(|file|, fs1.Unread(), fs2.Unread()), if flag1 == 1 || flag2 == 1 then 1 else 0
    {
      LoopStep(file, size1, size2, fs1.Unread(), fs2.Unread(), flag1, flag2, out);
      var printed;
      flag1, flag2, printed := Turn(fs1, fs2);
      out := out + printed;
    }
    KeptAtEnd(file, out, fs1.Unread(), fs2.Unread());
  }
}
