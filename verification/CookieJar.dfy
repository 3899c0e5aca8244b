/** The cookie pot as a plain list of cookies (6-semestr/lab4/part2/fortune.c:36-58). */
module CookieJar {
  import opened Bytes
  import opened Fortune

  // ---------------------------------------------------- cookies and their bytes

  predicate NulFree(c: seq<byte>) { 0 !in c }

  function Join(cookies: seq<seq<byte>>): seq<byte> {
    if cookies == [] then [] else cookies[0] + [0] + Join(cookies[1..])
  }

  predicate Terminated(b: seq<byte>) { b == [] || b[|b| - 1] == 0 }

  /** Cut at every NUL. */
  function Split(b: seq<byte>): seq<seq<byte>>
    requires Terminated(b)
    decreases |b|
  {
    if b == [] then []
    else
      var n := StrLen(b, 0);
      assert b[|b| - 1] == 0;
      assert n < |b|;
      [b[..n]] + Split(b[n + 1..])
  }

  lemma JoinCons(c: seq<byte>, cookies: seq<seq<byte>>)
    ensures Join([c] + cookies) == c + [0] + Join(cookies)
  {
    assert ([c] + cookies)[1..] == cookies;
  }

  lemma CutAtNul(b: seq<byte>, n: nat)
    requires n < |b| && b[n] == 0
    ensures b == b[..n] + [0] + b[n + 1..]
  {
  }

  lemma {:induction false} JoinSplit(b: seq<byte>)
    requires Terminated(b)
    ensures Join(Split(b)) == b
    decreases |b|
  {
    if b != [] {
      var n := StrLen(b, 0);
      assert b[|b| - 1] == 0;
      var rest := b[n + 1..];
      JoinSplit(rest);
      CutAtNul(b, n);
      JoinCons(b[..n], Split(rest));
    }
  }

  lemma {:induction false} SplitNulFree(b: seq<byte>)
    requires Terminated(b)
    ensures forall c :: c in Split(b) ==> NulFree(c)
    decreases |b|
  {
    if b != [] { SplitNulFree(b[StrLen(b, 0) + 1..]); }
  }

  lemma StrLenIs(b: seq<byte>, c: seq<byte>)
    requires |c| < |b| && b[|c|] == 0 && b[..|c|] == c && NulFree(c)
    ensures StrLen(b, 0) == |c|
  {
    forall i | 0 <= i < |c| ensures b[i] != 0 {
      assert b[i] == c[i] && c[i] in c;
    }
  }

  lemma SplitCons(c: seq<byte>, rest: seq<byte>)
    requires NulFree(c) && Terminated(rest)
    ensures Terminated(c + [0] + rest)
    ensures Split(c + [0] + rest) == [c] + Split(rest)
  {
    var b := c + [0] + rest;
    assert b[..|c|] == c && b[|c| + 1..] == rest;
    StrLenIs(b, c);
  }

  lemma {:induction false} SplitJoin(cookies: seq<seq<byte>>)
    requires forall c :: c in cookies ==> NulFree(c)
    ensures Terminated(Join(cookies)) && Split(Join(cookies)) == cookies
    decreases |cookies|
  {
    if cookies != [] {
      var rest := cookies[1..];
      SplitJoin(rest);
      SplitCons(cookies[0], Join(rest));
      assert cookies == [cookies[0]] + rest;
    }
  }

  lemma {:induction false} JoinAppend(a: seq<seq<byte>>, b: seq<seq<byte>>)
    ensures Join(a + b) == Join(a) + Join(b)
    decreases |a|
  {
    if a == [] {
      assert a + b == b;
    } else {
      assert (a + b)[1..] == a[1..] + b;
      JoinAppend(a[1..], b);
    }
  }

  /** A plain list of cookies, a cursor, and how much of the cookie there has been read. */
  datatype Jar = Jar(cookies: seq<seq<byte>>, cursor: nat, offset: nat) {
    predicate Valid() {
      && (forall c :: c in cookies ==> NulFree(c))
      && cursor <= |cookies| && offset <= if cursor < |cookies| then |cookies[cursor]| else 0
    }

    function Add(more: seq<seq<byte>>): Jar { this.(cookies := cookies + more) }

    /** Which cookie a read takes from: the one at the cursor, or the first after the last. */
    function Index(): nat { if cursor >= |cookies| then 0 else cursor }

    /** What is left of that cookie, and its NUL. */
    function Rest(): (r: seq<byte>)
      requires Valid() && cookies != []
      ensures |r| == |cookies[Index()]| + 1 - offset
    {
      cookies[Index()][offset..] + [0]
    }

    /** A read takes the rest, or as much of it as it has room for. */
    function Taken(len: nat): seq<byte>
      requires Valid() && cookies != []
    {
      if len < |Rest()| then Rest()[..len] else Rest()
    }

    function Take(len: nat): Jar
      requires Valid() && cookies != []
    {
      if len < |Rest()| then Jar(cookies, Index(), offset + len) else Jar(cookies, Index() + 1, 0)
    }
  }

  /** The pot holds the jar's cookies and stands where the jar does. */
  predicate Holds(p: Pot, j: Jar) {
    && p.Good() && j.Valid()
    && p.Contents() == Join(j.cookies)
    && p.next == |Join(j.cookies[..j.cursor])| + j.offset
  }

  lemma JoinOne(c: seq<byte>)
    ensures Join([c]) == c + [0]
  {
    assert [c][1..] == [];
  }

  lemma JoinUpTo(cookies: seq<seq<byte>>, k: nat)
    requires k < |cookies|
    ensures Join(cookies[..k + 1]) == Join(cookies[..k]) + (cookies[k] + [0])
  {
    JoinOne(cookies[k]);
    JoinAppend(cookies[..k], [cookies[k]]);
    assert cookies[..k + 1] == cookies[..k] + [cookies[k]];
  }

  lemma JoinCut(cookies: seq<seq<byte>>, k: nat)
    requires k <= |cookies|
    ensures Join(cookies) == Join(cookies[..k]) + Join(cookies[k..])
  {
    var a, b := cookies[..k], cookies[k..];
    assert cookies == a + b;
    JoinAppend(a, b);
  }

  lemma JoinLength(cookies: seq<seq<byte>>, k: nat)
    requires k <= |cookies|
    ensures |Join(cookies[..k])| <= |Join(cookies)|
    ensures |Join(cookies[..k])| == |Join(cookies)| <==> k == |cookies|
  {
    JoinCut(cookies, k);
    assert k == |cookies| ==> cookies[k..] == [];
  }

  lemma AddHolds(p: Pot, j: Jar, b: seq<byte>, more: seq<seq<byte>>)
    requires Holds(p, j) && b != [] && b[|b| - 1] == 0 && p.index + |b| <= |p.mem|
    requires Join(more) == b && forall c :: c in more ==> NulFree(c)
    ensures Holds(Pot(Overlay(p.mem, p.index, b), p.index + |b|, p.next), j.Add(more))
  {
    JoinAppend(j.cookies, more);
    var q := Pot(Overlay(p.mem, p.index, b), p.index + |b|, p.next);
    assert q.Contents() == p.Contents() + b;
    assert j.Add(more).cookies[..j.cursor] == j.cookies[..j.cursor];
  }

  /** A write adds to the jar the pieces between its NULs; without interior NUL that is one
      cookie, the bytes written but the last. */
  lemma WriteRefines(p: Pot, j: Jar, buf: seq<byte>)
    requires Holds(p, j) && 1 <= |buf| <= Space(p)
    ensures Terminated(buf[..|buf| - 1] + [0])
    ensures Holds(Written(p, buf), j.Add(Split(buf[..|buf| - 1] + [0])))
    ensures NulFree(buf[..|buf| - 1]) ==> Split(buf[..|buf| - 1] + [0]) == [buf[..|buf| - 1]]
  {
    var b := buf[..|buf| - 1] + [0];
    JoinSplit(b);
    SplitNulFree(b);
    AddHolds(p, j, b, Split(b));
    if NulFree(buf[..|buf| - 1]) {
      JoinOne(buf[..|buf| - 1]);
      SplitJoin([buf[..|buf| - 1]]);
    }
  }

  lemma CutOut(a: seq<byte>, b: seq<byte>, c: seq<byte>)
    ensures (a + b + c)[|a|..|a| + |b|] == b
  {
  }

  /** Cookie `k` lies after the first `k`. */
  lemma CookieAt(cookies: seq<seq<byte>>, k: nat, at: nat)
    requires k < |cookies| && at == |Join(cookies[..k])|
    ensures at + |cookies[k]| + 1 == |Join(cookies[..k + 1])| <= |Join(cookies)|
    ensures Join(cookies)[at..at + |cookies[k]| + 1] == cookies[k] + [0]
  {
    JoinUpTo(cookies, k);
    JoinCut(cookies, k + 1);
    CutOut(Join(cookies[..k]), cookies[k] + [0], Join(cookies[k + 1..]));
  }

  lemma CutOfCut(mem: seq<byte>, n: nat, a: nat, b: nat)
    requires a <= b <= n <= |mem|
    ensures mem[..n][a..b] == mem[a..b]
  {
  }

  /** Where a read starts: in the cookie the jar takes from. */
  lemma StartOfRest(p: Pot, j: Jar)
    requires Holds(p, j) && j.cookies != []
    ensures p.index > 0 && Start(p) == |Join(j.cookies[..j.Index()])| + j.offset
  {
    JoinLength(j.cookies, j.cursor);
    if j.cursor < |j.cookies| {
      CookieAt(j.cookies, j.cursor, |Join(j.cookies[..j.cursor])|);
    } else {
      assert j.cookies[..0] == [];
      JoinLength(j.cookies, 0);
    }
  }

  lemma CutInside(mem: seq<byte>, a: nat, c: seq<byte>, o: nat)
    requires a + |c| < |mem| && mem[a..a + |c| + 1] == c + [0] && o <= |c|
    ensures mem[a + o..a + |c| + 1] == c[o..] + [0]
  {
    assert mem[a + o..a + |c| + 1] == mem[a..a + |c| + 1][o..];
  }

  lemma CutCookie(mem: seq<byte>, n: nat, a: nat, c: seq<byte>, o: nat)
    requires a + |c| + 1 <= n <= |mem| && mem[..n][a..a + |c| + 1] == c + [0] && o <= |c|
    ensures mem[a + o..a + |c| + 1] == c[o..] + [0]
  {
    CutOfCut(mem, n, a, a + |c| + 1);
    CutInside(mem, a, c, o);
  }

  /** Where the bytes a read takes lie in the pot. */
  lemma RestInPot(p: Pot, j: Jar)
    requires Holds(p, j) && j.cookies != []
    ensures p.index > 0
    ensures Start(p) + |j.Rest()| <= p.index
    ensures Start(p) + |j.Rest()| == |Join(j.cookies[..j.Index() + 1])|
    ensures p.mem[Start(p)..Start(p) + |j.Rest()|] == j.Rest()
  {
    StartOfRest(p, j);
    var i, at := j.Index(), Start(p) - j.offset;
    CookieAt(j.cookies, i, at);
    CutCookie(p.mem, p.index, at, j.cookies[i], j.offset);
  }

  lemma StrLenAt(mem: seq<byte>, at: nat, c: seq<byte>)
    requires at + |c| < |mem| && mem[at..at + |c| + 1] == c + [0] && NulFree(c)
    ensures StrLen(mem, at) == |c|
  {
    var s := mem[at..at + |c| + 1];
    assert mem[at + |c|] == s[|c|] == 0;
    forall i | at <= i < at + |c| ensures mem[i] != 0 {
      assert mem[i] == s[i - at] == c[i - at] && c[i - at] in c;
    }
  }

  lemma StrLenOfRest(p: Pot, j: Jar)
    requires Holds(p, j) && j.cookies != []
    ensures Readable(p) && StrLen(p.mem, Start(p)) == |j.Rest()| - 1
  {
    RestInPot(p, j);
    assert NulFree(j.cookies[j.Index()]);
    StrLenAt(p.mem, Start(p), j.cookies[j.Index()][j.offset..]);
  }

  lemma CutFront(mem: seq<byte>, a: nat, n: nat, k: nat)
    requires a + n <= |mem| && k <= n
    ensures mem[a..a + n][..k] == mem[a..a + k]
  {
  }

  lemma FetchFrom(p: Pot, r: seq<byte>, len: nat)
    requires Readable(p) && r != [] && StrLen(p.mem, Start(p)) == |r| - 1
    requires p.mem[Start(p)..Start(p) + |r|] == r
    ensures var out := if len < |r| then r[..len] else r;
            Fetch(p, len, true) == (p.(next := Start(p) + |out|), out)
  {
    if len < |r| { CutFront(p.mem, Start(p), |r|, len); }
  }

  lemma FetchTaken(p: Pot, j: Jar, len: nat)
    requires Holds(p, j) && j.cookies != []
    ensures Readable(p)
    ensures Fetch(p, len, true) == (p.(next := Start(p) + |j.Taken(len)|), j.Taken(len))
  {
    StrLenOfRest(p, j);
    RestInPot(p, j);
    FetchFrom(p, j.Rest(), len);
  }

  lemma HoldsAt(p: Pot, j: Jar, next: nat, cursor: nat, offset: nat)
    requires Holds(p, j) && Jar(j.cookies, cursor, offset).Valid()
    requires next == |Join(j.cookies[..cursor])| + offset
    ensures Holds(p.(next := next), Jar(j.cookies, cursor, offset))
  {
  }

  lemma TakeHolds(p: Pot, j: Jar, len: nat)
    requires Holds(p, j) && j.cookies != []
    ensures Holds(p.(next := Start(p) + |j.Taken(len)|), j.Take(len))
  {
    if len < |j.Rest()| {
      StartOfRest(p, j);
      HoldsAt(p, j, Start(p) + len, j.Index(), j.offset + len);
    } else {
      RestInPot(p, j);
      HoldsAt(p, j, Start(p) + |j.Rest()|, j.Index() + 1, 0);
    }
  }

  lemma EmptyJar(p: Pot, j: Jar)
    requires Holds(p, j)
    ensures j.cookies == [] <==> p.index == 0
  {
    if j.cookies != [] { StartOfRest(p, j); }
  }

  /** A read of a pot that is not empty takes from the jar: the rest of a cookie with its
      NUL, or the front of that rest if there is no room for more. A read of an empty pot
      leaves pot and jar in step exactly when it copies nothing. */
  lemma ReadRefines(p: Pot, j: Jar, len: nat)
    requires Holds(p, j)
    ensures Readable(p)
    ensures j.cookies != [] ==>
              Fetch(p, len, true).1 == j.Taken(len) && Holds(Fetch(p, len, true).0, j.Take(len))
    ensures j.cookies == [] ==> (Holds(Fetch(p, len, true).0, j) <==> len == 0)
    ensures j.cookies == [] && len == 0 ==> Fetch(p, len, true).1 == []
  {
    GoodIsReadable(p);
    EmptyJar(p, j);
    if j.cookies != [] {
      FetchTaken(p, j, len);
      TakeHolds(p, j, len);
    }
  }

  // ------------------------------------------------------------- runs on the jar

  /** What a call does to the jar, in a pot of `size` bytes. */
  function JarExec(j: Jar, size: nat, op: Op): (k: Jar)
    requires j.Valid()
    ensures k.Valid()
  {
    match op
    case Write(buf, arrived) =>
      if buf == [] || |Join(j.cookies)| + |buf| > size || arrived < |buf| then j
      else
        var b := buf[..|buf| - 1] + [0];
        assert b[|b| - 1] == 0;
        SplitNulFree(b);
        j.Add(Split(b))
    case Read(len, ok) => if j.cookies == [] then j else j.Take(if ok then len else 0)
  }

  function JarCopied(j: Jar, op: Op): seq<byte>
    requires j.Valid()
  {
    if op.Write? || j.cookies == [] then [] else j.Taken(if op.ok then op.len else 0)
  }

  /** A copy that faults comes to a copy of no bytes. */
  lemma FaultIsShort(p: Pot, len: nat)
    requires Readable(p)
    ensures Fetch(p, len, false) == Fetch(p, 0, true)
  {
  }

  lemma WriteExecRefines(p: Pot, j: Jar, buf: seq<byte>, arrived: nat)
    requires Holds(p, j)
    ensures Holds(Exec(p, Write(buf, arrived)), JarExec(j, |p.mem|, Write(buf, arrived)))
  {
    if 1 <= |buf| <= Space(p) && arrived >= |buf| { WriteRefines(p, j, buf); }
  }

  /** Every call does to the pot what it does to the jar, and copies the same bytes, but
      for reads of an empty pot that copy something. */
  lemma ExecRefines(p: Pot, j: Jar, op: Op)
    requires Holds(p, j)
    ensures Holds(Exec(p, op), JarExec(j, |p.mem|, op)) <==> Allowed(p, op)
    ensures Allowed(p, op) ==> Copied(p, op) == JarCopied(j, op)
  {
    match op
    case Write(buf, arrived) => WriteExecRefines(p, j, buf, arrived);
    case Read(len, ok) =>
      EmptyJar(p, j);
      ReadRefines(p, j, if ok then len else 0);
      FaultIsShort(p, len);
  }

  function CopiedAll(p: Pot, ops: seq<Op>): seq<seq<byte>>
    requires p.Good()
    decreases |ops|
  {
    if ops == [] then [] else [Copied(p, ops[0])] + CopiedAll(Exec(p, ops[0]), ops[1..])
  }

  function JarCopiedAll(j: Jar, size: nat, ops: seq<Op>): seq<seq<byte>>
    requires j.Valid()
    decreases |ops|
  {
    if ops == [] then [] else [JarCopied(j, ops[0])] + JarCopiedAll(JarExec(j, size, ops[0]), size, ops[1..])
  }

  /** The pot and the jar are in step now and after every call. */
  predicate AlwaysHolds(p: Pot, j: Jar, ops: seq<Op>)
    requires p.Good() && j.Valid()
    decreases |ops|
  {
    Holds(p, j) && (ops == [] || AlwaysHolds(Exec(p, ops[0]), JarExec(j, |p.mem|, ops[0]), ops[1..]))
  }

  /** Over any run of writes, short reads and faults without an effective read of an empty
      pot, and over no other, the pot stays in step with a list of cookies and a cursor; and
      then the bytes copied call by call are those the list gives. */
  lemma {:induction false} RunRefines(p: Pot, j: Jar, ops: seq<Op>)
    requires Holds(p, j)
    ensures AlwaysHolds(p, j, ops) <==> AllAllowed(p, ops)
    ensures AllAllowed(p, ops) ==> CopiedAll(p, ops) == JarCopiedAll(j, |p.mem|, ops)
    decreases |ops|
  {
    if ops != [] {
      ExecRefines(p, j, ops[0]);
      if Allowed(p, ops[0]) { RunRefines(Exec(p, ops[0]), JarExec(j, |p.mem|, ops[0]), ops[1..]); }
    }
  }

  // ---------------------------------------------------------- round and round

  /** The pot after reads of the given lengths. */
  function ReadAll(p: Pot, lens: seq<nat>): (q: Pot)
    requires p.Good()
    ensures q.Good()
    decreases |lens|
  {
    if lens == [] then p
    else
      var q := ReadAll(p, lens[..|lens| - 1]);
      GoodIsReadable(q);
      Fetch(q, lens[|lens| - 1], true).0
  }

  lemma MulFar(d: int, n: nat)
    ensures d >= 1 ==> d * n >= n
    ensures d <= -1 ==> d * n <= 0 - n
  {
    if d >= 1 { assert d * n == n + (d - 1) * n; }
  }

  lemma ModIs(k: nat, q: nat, n: nat, r: nat)
    requires n > 0 && r < n && k == q * n + r
    ensures k % n == r
  {
    var d := k / n - q;
    assert d * n == r - k % n;
    MulFar(d, n);
  }

  lemma ModNext(k: nat, n: nat)
    requires n > 0
    ensures (k + 1) % n == if k % n + 1 == n then 0 else k % n + 1
  {
    ModIs(k + 1, if k % n + 1 == n then k / n + 1 else k / n, n, if k % n + 1 == n then 0 else k % n + 1);
  }

  predicate LongEnough(cookies: seq<seq<byte>>, len: nat) {
    forall c :: c in cookies ==> |c| < len
  }

  /** The cursor after `k` whole-cookie reads from 0. */
  function CursorAfter(k: nat, n: nat): nat
    requires n > 0
  {
    if k == 0 then 0 else (k - 1) % n + 1
  }

  lemma WholeCookie(j: Jar, len: nat)
    requires j.Valid() && j.cookies != [] && j.offset == 0 && len > |j.cookies[j.Index()]|
    ensures j.Taken(len) == j.cookies[j.Index()] + [0] && j.Take(len) == Jar(j.cookies, j.Index() + 1, 0)
  {
    assert j.cookies[j.Index()][0..] == j.cookies[j.Index()];
  }

  /** The cursor after `k` reads stands for cookie k mod n. */
  lemma CursorIs(cookies: seq<seq<byte>>, k: nat)
    requires cookies != []
    ensures Jar(cookies, CursorAfter(k, |cookies|), 0).Index() == k % |cookies|
    ensures CursorAfter(k + 1, |cookies|) == k % |cookies| + 1
  {
    if k > 0 { ModNext(k - 1, |cookies|); }
  }

  lemma ReadNth(q: Pot, cookies: seq<seq<byte>>, k: nat, len: nat)
    requires cookies != [] && LongEnough(cookies, len)
    requires Holds(q, Jar(cookies, CursorAfter(k, |cookies|), 0))
    ensures Readable(q) && Fetch(q, len, true).1 == cookies[k % |cookies|] + [0]
    ensures Holds(Fetch(q, len, true).0, Jar(cookies, CursorAfter(k + 1, |cookies|), 0))
  {
    var j := Jar(cookies, CursorAfter(k, |cookies|), 0);
    CursorIs(cookies, k);
    assert cookies[k % |cookies|] in cookies;
    WholeCookie(j, len);
    ReadRefines(q, j, len);
  }

  lemma {:induction false} ReadAllRefines(p: Pot, cookies: seq<seq<byte>>, lens: seq<nat>)
    requires Holds(p, Jar(cookies, 0, 0)) && cookies != []
    requires forall i :: 0 <= i < |lens| ==> LongEnough(cookies, lens[i])
    ensures Holds(ReadAll(p, lens), Jar(cookies, CursorAfter(|lens|, |cookies|), 0))
    decreases |lens|
  {
    if lens != [] {
      var k := |lens| - 1;
      ReadAllRefines(p, cookies, lens[..k]);
      ReadNth(ReadAll(p, lens[..k]), cookies, k, lens[k]);
    }
  }

  /** From index 0, long enough reads give cookie 0, 1, ..., n - 1, 0, 1, ... for ever. */
  lemma Cyclic(p: Pot, cookies: seq<seq<byte>>, lens: seq<nat>, len: nat)
    requires Holds(p, Jar(cookies, 0, 0)) && cookies != []
    requires forall i :: 0 <= i < |lens| ==> LongEnough(cookies, lens[i])
    requires LongEnough(cookies, len)
    ensures Readable(ReadAll(p, lens))
    ensures Fetch(ReadAll(p, lens), len, true).1 == cookies[|lens| % |cookies|] + [0]
  {
    ReadAllRefines(p, cookies, lens);
    ReadNth(ReadAll(p, lens), cookies, |lens|, len);
  }
}
