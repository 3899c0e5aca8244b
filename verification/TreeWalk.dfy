/** A recursive directory walk with a handler and global counters
    (6-semestr/lab2/main.c). Names are looked up relative to the working
    directory, which the walk itself keeps changing. */
module TreeWalk {
  import opened Options
  import opened Paths
  import opened Tally

  // ------------------------------------------------------------ calls and handlers

  /** One call of the handler: a file, a directory, a directory that cannot be read,
      or a name that cannot be examined. */
  datatype Call = F(name: string, kind: Kind) | D(name: string) | DNR(name: string) | NS(name: string)

  /** The calls a full walk makes: a node before its children, in directory order;
      an unreadable directory is reported once as a directory and once more. */
  function PreOrder(n: Node): seq<Call>
    decreases n
  {
    match n
    case Dots(_) => []
    case Unstat(name) => [NS(name)]
    case File(name, kind) => [F(name, kind)]
    case Link(name, _) => [F(name, Lnk)]
    case Dir(name, readable, entries) =>
      [D(name)] + if readable then PreOrders(entries) else [DNR(name)]
  }

  function PreOrders(entries: seq<Node>): seq<Call>
    decreases entries
  {
    if entries == [] then [] else PreOrder(entries[0]) + PreOrders(entries[1..])
  }

  /** The calls of entries in a row are those of the first ones and then those of the others. */
  lemma {:induction false} EntriesInOrder(a: seq<Node>, b: seq<Node>)
    ensures PreOrders(a + b) == PreOrders(a) + PreOrders(b)
    decreases |a|
  {
    if a == [] {
      assert a + b == b;
    } else {
      assert (a + b)[1..] == a[1..] + b;
      EntriesInOrder(a[1..], b);
    }
  }

  /** A directory comes before its entries, and an entry after the ones before it in the directory. */
  lemma DirectoryFirst(n: Node, i: nat)
    requires n.Dir? && n.readable && i < |n.entries|
    ensures PreOrder(n) ==
            [D(n.name)] + PreOrders(n.entries[..i]) + PreOrder(n.entries[i]) + PreOrders(n.entries[i + 1..])
  {
    var one := [n.entries[i]];
    assert one[1..] == [] && PreOrders(one) == PreOrder(n.entries[i]) + [];
    assert n.entries == n.entries[..i] + (one + n.entries[i + 1..]);
    EntriesInOrder(n.entries[..i], one + n.entries[i + 1..]);
    EntriesInOrder(one, n.entries[i + 1..]);
  }

  /** Every report of an unreadable directory comes right after its call as a directory. */
  predicate ReportsFollow(calls: seq<Call>) {
    forall i :: 0 <= i < |calls| && calls[i].DNR? ==> i > 0 && calls[i - 1] == D(calls[i].name)
  }

  lemma ReportsConcat(a: seq<Call>, b: seq<Call>)
    requires ReportsFollow(a) && ReportsFollow(b)
    ensures ReportsFollow(a + b)
  {
    forall i | 0 <= i < |a + b| && (a + b)[i].DNR? ensures i > 0 && (a + b)[i - 1] == D((a + b)[i].name) {
      if i < |a| { assert (a + b)[i] == a[i]; } else { assert (a + b)[i] == b[i - |a|]; }
    }
  }

  lemma {:induction false} UnreadableReported(n: Node)
    ensures ReportsFollow(PreOrder(n))
    ensures n.Dir? && !n.readable ==> PreOrder(n) == [D(n.name), DNR(n.name)]
    decreases n
  {
    if n.Dir? && n.readable {
      UnreadablesReported(n.entries);
      ReportsConcat([D(n.name)], PreOrders(n.entries));
    }
  }

  lemma {:induction false} UnreadablesReported(entries: seq<Node>)
    ensures ReportsFollow(PreOrders(entries))
    decreases entries
  {
    if entries != [] {
      UnreadableReported(entries[0]);
      UnreadablesReported(entries[1..]);
      ReportsConcat(PreOrder(entries[0]), PreOrders(entries[1..]));
    }
  }

  /** A handler: `counter`, or any other, which may answer by what it has seen so far. */
  datatype Handler = Counter | Other(answer: (seq<Call>, Call) -> int)

  function CounterAnswer(c: Call): int {
    match c
    case F(_, kind) => if kind == Directory then -1 else 0
    case D(_) => 0
    case DNR(_) => -1
    case NS(_) => -1
  }

  function Answer(h: Handler, seen: seq<Call>, c: Call): int {
    if h.Counter? then CounterAnswer(c) else h.answer(seen, c)
  }

  /** Offer calls to the handler one by one, up to its first non-zero answer. */
  function Offer(h: Handler, seen: seq<Call>, todo: seq<Call>): (seq<Call>, int)
    decreases |todo|
  {
    if todo == [] then (seen, 0)
    else
      var r := Answer(h, seen, todo[0]);
      if r != 0 then (seen + [todo[0]], r) else Offer(h, seen + [todo[0]], todo[1..])
  }

  /** What that comes to: some number of calls from the front, all answered 0 but the
      last when the walk was stopped, and all of them when it was not. */
  lemma {:induction false} OfferCuts(h: Handler, seen: seq<Call>, todo: seq<Call>) returns (k: nat)
    ensures var (calls, r) := Offer(h, seen, todo);
            && k <= |todo| && calls == seen + todo[..k]
            && (r == 0 ==> k == |todo|)
            && (r != 0 ==> k > 0 && r == Answer(h, seen + todo[..k - 1], todo[k - 1]))
            && forall i :: 0 <= i < (if r == 0 then k else k - 1) ==> Answer(h, seen + todo[..i], todo[i]) == 0
    decreases |todo|
  {
    if todo == [] {
      k := 0;
    } else if Answer(h, seen, todo[0]) != 0 {
      k := 1;
      assert seen + todo[..0] == seen;
    } else {
      var k' := OfferCuts(h, seen + [todo[0]], todo[1..]);
      k := k' + 1;
      assert seen + todo[..0] == seen;
      forall i | 0 < i <= |todo| ensures seen + todo[..i] == (seen + [todo[0]]) + todo[1..][..i - 1] {
        assert todo[..i] == [todo[0]] + todo[1..][..i - 1];
      }
    }
  }

  lemma {:induction false} OfferConcat(h: Handler, seen: seq<Call>, a: seq<Call>, b: seq<Call>)
    ensures Offer(h, seen, a + b) ==
            var (calls, r) := Offer(h, seen, a);
            if r != 0 then (calls, r) else Offer(h, calls, b)
    decreases |a|
  {
    if a == [] {
      assert a + b == b;
    } else {
      assert (a + b)[1..] == a[1..] + b;
      OfferConcat(h, seen + [a[0]], a[1..], b);
    }
  }

  /** One entry, and then the others unless the walk is stopped. */
  lemma OfferEntry(h: Handler, seen: seq<Call>, entries: seq<Node>, i: nat)
    requires i < |entries|
    ensures Offer(h, seen, PreOrders(entries[i..])) ==
            var (calls, r) := Offer(h, seen, PreOrder(entries[i]));
            if r != 0 then (calls, r) else Offer(h, calls, PreOrders(entries[i + 1..]))
  {
    assert entries[i..][1..] == entries[i + 1..];
    OfferConcat(h, seen, PreOrder(entries[i]), PreOrders(entries[i + 1..]));
  }

  // ------------------------------------------------------------------- counting

  /** Whether a call adds to the counter of a kind. */
  function Hit(k: Kind): Call -> int {
    (c: Call) => if (c.F? && c.kind == k && k != Directory) || (c.D? && k == Directory) then 1 else 0
  }

  /** Nodes of a kind that a full walk reaches. */
  function KindCount(n: Node, k: Kind): nat
    decreases n
  {
    match n
    case Dots(_) => 0
    case Unstat(_) => 0
    case File(_, kind) => if kind == k then 1 else 0
    case Link(_, _) => if k == Lnk then 1 else 0
    case Dir(_, readable, entries) =>
      (if k == Directory then 1 else 0) + if readable then KindCounts(entries, k) else 0
  }

  function KindCounts(entries: seq<Node>, k: Kind): nat
    decreases entries
  {
    if entries == [] then 0 else KindCount(entries[0], k) + KindCounts(entries[1..], k)
  }

  /** Nodes that a full walk reaches. */
  function Size(n: Node): nat
    decreases n
  {
    if n.Dots? then 0 else 1 + if n.Dir? && n.readable then Sizes(n.entries) else 0
  }

  function Sizes(entries: seq<Node>): nat
    decreases entries
  {
    if entries == [] then 0 else Size(entries[0]) + Sizes(entries[1..])
  }

  /** Every node can be examined and every directory read. */
  predicate Accessible(n: Node)
    decreases n
  {
    match n
    case Dots(_) => true
    case Unstat(_) => false
    case File(_, _) => true
    case Link(_, _) => true
    case Dir(_, readable, entries) => readable && Accessibles(entries)
  }

  predicate Accessibles(entries: seq<Node>)
    decreases entries
  {
    entries == [] || (Accessible(entries[0]) && Accessibles(entries[1..]))
  }

  lemma {:induction false} HitsInTree(n: Node, k: Kind)
    requires WellFormed(n)
    ensures Sum(PreOrder(n), Hit(k)) == KindCount(n, k)
    decreases n
  {
    if n.Dir? {
      if n.readable { HitsInTrees(n.entries, k); }
      SumConcat([D(n.name)], if n.readable then PreOrders(n.entries) else [DNR(n.name)], Hit(k));
    }
  }

  lemma {:induction false} HitsInTrees(entries: seq<Node>, k: Kind)
    requires forall i :: 0 <= i < |entries| ==> WellFormed(entries[i])
    ensures Sum(PreOrders(entries), Hit(k)) == KindCounts(entries, k)
    decreases entries
  {
    if entries != [] {
      HitsInTree(entries[0], k);
      HitsInTrees(entries[1..], k);
      SumConcat(PreOrder(entries[0]), PreOrders(entries[1..]), Hit(k));
    }
  }

  predicate Counts(calls: seq<Call>) {
    forall i :: 0 <= i < |calls| ==> CounterAnswer(calls[i]) == 0
  }

  lemma CountsConcat(a: seq<Call>, b: seq<Call>)
    ensures Counts(a + b) <==> Counts(a) && Counts(b)
  {
    assert forall i :: 0 <= i < |a| ==> (a + b)[i] == a[i];
    assert forall i :: 0 <= i < |b| ==> (a + b)[|a| + i] == b[i];
  }

  /** `counter` answers 0 to every call of a walk exactly when the tree is accessible. */
  lemma {:induction false} AnswersInTree(n: Node)
    requires WellFormed(n)
    ensures Counts(PreOrder(n)) <==> Accessible(n)
    decreases n
  {
    if n.Dir? {
      if n.readable { AnswersInTrees(n.entries); } else { assert [DNR(n.name)][0] == DNR(n.name); }
      CountsConcat([D(n.name)], if n.readable then PreOrders(n.entries) else [DNR(n.name)]);
    } else if n.Unstat? {
      assert PreOrder(n)[0] == NS(n.name);
    }
  }

  lemma {:induction false} AnswersInTrees(entries: seq<Node>)
    requires forall i :: 0 <= i < |entries| ==> WellFormed(entries[i])
    ensures Counts(PreOrders(entries)) <==> Accessibles(entries)
    decreases entries
  {
    if entries != [] {
      AnswersInTree(entries[0]);
      AnswersInTrees(entries[1..]);
      CountsConcat(PreOrder(entries[0]), PreOrders(entries[1..]));
    }
  }

  function Total(calls: seq<Call>): int {
    Sum(calls, Hit(Reg)) + Sum(calls, Hit(Directory)) + Sum(calls, Hit(Blk)) + Sum(calls, Hit(Chr))
    + Sum(calls, Hit(Fifo)) + Sum(calls, Hit(Lnk)) + Sum(calls, Hit(Sock))
  }

  /** The calls answered 0 are the calls counted, each by one counter. */
  lemma {:induction false} TotalIsLength(calls: seq<Call>)
    requires Counts(calls)
    ensures Total(calls) == |calls|
    decreases |calls|
  {
    if calls != [] {
      assert Counts(calls[1..]);
      TotalIsLength(calls[1..]);
      assert CounterAnswer(calls[0]) == 0;
    }
  }

  /** An accessible tree takes one call for each of its nodes. */
  lemma {:induction false} CallsAreNodes(n: Node)
    requires Accessible(n)
    ensures |PreOrder(n)| == Size(n)
    decreases n
  {
    if n.Dir? { CallsAreNodesOf(n.entries); }
  }

  lemma {:induction false} CallsAreNodesOf(entries: seq<Node>)
    requires Accessibles(entries)
    ensures |PreOrders(entries)| == Sizes(entries)
    decreases entries
  {
    if entries != [] {
      CallsAreNodes(entries[0]);
      CallsAreNodesOf(entries[1..]);
    }
  }

  // -------------------------------------------------------------------- the walk

  /** Whether a walk goes into the directory: it can, and the handler lets it. */
  predicate Enters(h: Handler, seen: seq<Call>, n: Node) {
    n.Dir? && n.readable && Answer(h, seen, D(n.name)) == 0
  }

  /** The working directory a walk of `path` ends in. */
  function Leaves(root: Node, cwd: seq<string>, path: string, h: Handler, seen: seq<Call>): seq<string> {
    if Enters(h, seen, Target(root, cwd, path)) then Parent(Locate(root, cwd, path).value) else cwd
  }

  /** The way out is always to the directory above. So a walk gives the working directory back
      exactly when it does not go in, or into something right below, or from the root to itself. */
  lemma Restored(root: Node, cwd: seq<string>, path: string, h: Handler, seen: seq<Call>)
    ensures Leaves(root, cwd, path, h, seen) == cwd <==>
            || !Enters(h, seen, Target(root, cwd, path))
            || Locate(root, cwd, path) == Some([]) == Some(cwd)
            || exists name :: Locate(root, cwd, path) == Some(cwd + [name])
  {
    if Enters(h, seen, Target(root, cwd, path)) {
      var at := Locate(root, cwd, path).value;
      if at != [] && Parent(at) == cwd {
        assert at == cwd + [at[|at| - 1]];
      }
      forall name | at == cwd + [name] ensures Parent(at) == cwd {
        assert Parent(cwd + [name]) == cwd;
      }
    }
  }

  /** With a single name: exactly when that is not "." or "..", or the working directory is the
      root, or the walk does not go in. */
  lemma RestoredByName(root: Node, cwd: seq<string>, name: string, h: Handler, seen: seq<Call>)
    requires OneName(name) && InDirectory(root, cwd)
    ensures Leaves(root, cwd, name, h, seen) == cwd <==>
            !IsDots(name) || cwd == [] || !Enters(h, seen, Target(root, cwd, name))
  {
    LocateName(root, cwd, name);
    if !IsDots(name) {
      assert Parent(cwd + [name]) == cwd;
    } else if cwd != [] {
      assert |Parent(Locate(root, cwd, name).value)| < |cwd|;
    }
  }

  lemma TargetShape(root: Node, cwd: seq<string>, path: string)
    requires WellFormed(root) && root.Dir?
    ensures var n := Target(root, cwd, path); WellFormed(n) && n.name == path && !n.Dots?
    ensures Target(root, cwd, path).Dir? ==>
              && Locate(root, cwd, path).Some? && Resolve(root, Locate(root, cwd, path).value).Some?
              && Resolve(root, Locate(root, cwd, path).value).value.(name := path) == Target(root, cwd, path)
  {
    var at := Locate(root, cwd, path);
    if at.Some? && Resolve(root, at.value).Some? { ResolveWellFormed(root, at.value); }
  }

  /** In a directory, the name of an entry stands for that entry. */
  lemma ChildTarget(root: Node, cwd: seq<string>, i: nat)
    requires Resolve(root, cwd).Some?
    requires var n := Resolve(root, cwd).value;
             WellFormed(n) && n.Dir? && i < |n.entries| && !n.entries[i].Dots?
    ensures Target(root, cwd, Resolve(root, cwd).value.entries[i].name) == Resolve(root, cwd).value.entries[i]
  {
    var n := Resolve(root, cwd).value;
    var name := n.entries[i].name;
    FindChild(n.entries, i);
    ResolveStep(root, cwd, name);
    LocateName(root, cwd, name);
  }

  /** A walk of an entry visits that entry and gives the working directory back. */
  lemma EntryWalk(root: Node, cwd: seq<string>, i: nat, h: Handler, seen: seq<Call>)
    requires Resolve(root, cwd).Some?
    requires var n := Resolve(root, cwd).value;
             WellFormed(n) && n.Dir? && i < |n.entries| && !n.entries[i].Dots?
    ensures var d := Resolve(root, cwd).value.entries[i];
            Target(root, cwd, d.name) == d && Leaves(root, cwd, d.name, h, seen) == cwd
  {
    ChildTarget(root, cwd, i);
    RestoredByName(root, cwd, Resolve(root, cwd).value.entries[i].name, h, seen);
  }

  /** The calls are a beginning of the full walk, and `counter` failed at the last only. */
  predicate StoppedAt(full: seq<Call>, calls: seq<Call>) {
    && 0 < |calls| <= |full| && calls == full[..|calls|]
    && Counts(calls[..|calls| - 1]) && CounterAnswer(calls[|calls| - 1]) == -1
  }

  /** `counter` lets a walk run to its end exactly when it answers 0 to every call. */
  lemma CounterCuts(todo: seq<Call>)
    ensures var (calls, r) := Offer(Counter, [], todo);
            if Counts(todo) then r == 0 && calls == todo else r == -1 && StoppedAt(todo, calls)
  {
    var m := OfferCuts(Counter, [], todo);
    assert forall i :: 0 <= i <= |todo| ==> [] + todo[..i] == todo[..i];
  }

  lemma LastAddsNothing(calls: seq<Call>)
    requires calls != [] && CounterAnswer(calls[|calls| - 1]) != 0
    ensures Total(calls) == Total(calls[..|calls| - 1])
  {
    var init, last := calls[..|calls| - 1], calls[|calls| - 1];
    assert calls == init + [last];
    forall k ensures Sum(calls, Hit(k)) == Sum(init, Hit(k)) { SumAppend(init, Hit(k), last); }
  }

  /** How a walk with `counter` ends. */
  lemma WalkEnds(n: Node, calls: seq<Call>, ret: int)
    requires WellFormed(n) && !n.Dots? && (calls, ret) == Offer(Counter, [], PreOrder(n))
    ensures ret == 0 || ret == -1
    ensures ret == 0 <==> Accessible(n)
    ensures ret == 0 ==> Total(calls) == Size(n) > 0
    ensures ret == 0 ==> forall k :: Sum(calls, Hit(k)) == KindCount(n, k)
    ensures ret != 0 ==> StoppedAt(PreOrder(n), calls) && Total(calls) == |calls| - 1
  {
    var todo := PreOrder(n);
    CounterCuts(todo);
    AnswersInTree(n);
    if ret == 0 {
      TotalIsLength(todo);
      CallsAreNodes(n);
      forall k ensures Sum(todo, Hit(k)) == KindCount(n, k) { HitsInTree(n, k); }
    } else {
      TotalIsLength(calls[..|calls| - 1]);
      LastAddsNothing(calls);
    }
  }

  class Walker {
    const root: Node
    var cwd: seq<string>
    var calls: seq<Call>
    var nreg: int
    var ndir: int
    var nblk: int
    var nchr: int
    var nfifo: int
    var nslink: int
    var nsock: int

    constructor (root: Node, cwd: seq<string>)
      ensures this.root == root && this.cwd == cwd && calls == [] && Tallied()
    {
      this.root, this.cwd, calls := root, cwd, [];
      nreg, ndir, nblk, nchr, nfifo, nslink, nsock := 0, 0, 0, 0, 0, 0, 0;
    }

    /** The counter of a kind. */
    function CountOf(k: Kind): int
      reads this
    {
      match k
      case Reg => nreg
      case Directory => ndir
      case Blk => nblk
      case Chr => nchr
      case Fifo => nfifo
      case Lnk => nslink
      case Sock => nsock
    }

    /** The counters count the calls so far. */
    ghost predicate Tallied()
      reads this
    {
      forall k :: CountOf(k) == Sum(calls, Hit(k))
    }

    /** `counter` */
    method Count(c: Call) returns (ret: int)
      modifies `nreg, `ndir, `nblk, `nchr, `nfifo, `nslink, `nsock
      ensures ret == CounterAnswer(c)
      ensures forall k :: CountOf(k) == old(CountOf(k)) + Hit(k)(c)
    {
      match c {
        case F(_, kind) =>
          match kind {
            case Reg => nreg := nreg + 1;
            case Blk => nblk := nblk + 1;
            case Chr => nchr := nchr + 1;
            case Fifo => nfifo := nfifo + 1;
            case Lnk => nslink := nslink + 1;
            case Sock => nsock := nsock + 1;
            case Directory => return -1;
          }
        case D(_) => ndir := ndir + 1;
        case DNR(_) => return -1;
        case NS(_) => return -1;
      }
      return 0;
    }

    /** `func(...)`, recorded in `calls`. */
    method Invoke(h: Handler, c: Call) returns (ret: int)
      modifies this`calls, `nreg, `ndir, `nblk, `nchr, `nfifo, `nslink, `nsock
      ensures calls == old(calls) + [c] && ret == Answer(h, old(calls), c)
      ensures h.Counter? && old(Tallied()) ==> Tallied()
    {
      if h.Counter? { ret := Count(c); } else { ret := h.answer(calls, c); }
      forall k ensures Sum(calls + [c], Hit(k)) == Sum(calls, Hit(k)) + Hit(k)(c) {
        SumAppend(calls, Hit(k), c);
      }
      calls := calls + [c];
    }

    /** The loop of `dopath` over the entries of directory `n`, which is the working directory. */
    method DoEntries(n: Node, h: Handler) returns (ret: int)
      requires WellFormed(root) && root.Dir? && n.Dir?
      requires Resolve(root, cwd).Some? && Resolve(root, cwd).value.(name := n.name) == n
      modifies this
      decreases n, 0
      ensures cwd == old(cwd)
      ensures (calls, ret) == Offer(h, old(calls), PreOrders(n.entries))
      ensures h.Counter? && old(Tallied()) ==> Tallied()
    {
      ret := 0;
      ResolveWellFormed(root, cwd);
      assert n.entries[0..] == n.entries;
      var next := 0;  // where readdir stands
      while next < |n.entries| && ret == 0
        invariant 0 <= next <= |n.entries| && cwd == old(cwd)
        invariant Offer(h, old(calls), PreOrders(n.entries)) ==
                  if ret != 0 then (calls, ret) else Offer(h, calls, PreOrders(n.entries[next..]))
        invariant h.Counter? && old(Tallied()) ==> Tallied()
      {
        var d := n.entries[next];
        OfferEntry(h, calls, n.entries, next);
        if d.name != "." && d.name != ".." {
          EntryWalk(root, cwd, next, h, calls);
          ret := DoPath(d.name, h);
        }
        next := next + 1;
      }
    }

    /** `dopath`. The walk visits the node `path` stands for in the working directory. With
        the name of an entry it leaves the working directory as it found it, even when it stops early. */
    method DoPath(path: string, h: Handler) returns (ret: int)
      requires WellFormed(root) && root.Dir? && InDirectory(root, cwd)
      modifies this
      decreases Target(root, cwd, path), 1
      ensures cwd == Leaves(root, old(cwd), path, h, old(calls))
      ensures (calls, ret) == Offer(h, old(calls), PreOrder(Target(root, old(cwd), path)))
      ensures h.Counter? && old(Tallied()) ==> Tallied()
    {
      var n := Target(root, cwd, path);  // lstat(filename)
      TargetShape(root, cwd, path);
      if n.Unstat? {
        ret := Invoke(h, NS(path));
        return;
      }
      if !n.Dir? {
        ret := Invoke(h, F(path, if n.Link? then Lnk else n.kind));
        return;
      }
      OfferConcat(h, calls, [D(path)], if n.readable then PreOrders(n.entries) else [DNR(path)]);
      ret := Invoke(h, D(path));
      if ret != 0 { return; }
      if !n.readable {  // opendir(filename) == NULL
        ret := Invoke(h, DNR(path));
        return;
      }
      cwd := Locate(root, cwd, path).value;  // chdir(filename)
      ret := DoEntries(n, h);
      cwd := Parent(cwd);  // chdir("..")
    }

    /** `main`: walk with `counter` and add up. */
    method Run(path: string) returns (ret: int, nTotal: int)
      requires WellFormed(root) && root.Dir? && InDirectory(root, cwd) && calls == [] && Tallied()
      modifies this
      ensures Tallied() && cwd == Leaves(root, old(cwd), path, Counter, [])
      ensures ret == 0 || ret == -1
      ensures ret == 0 <==> Accessible(Target(root, old(cwd), path))
      ensures ret == 0 ==> (forall k :: CountOf(k) == KindCount(Target(root, old(cwd), path), k))
      ensures ret == 0 ==> nTotal == Size(Target(root, old(cwd), path))
      ensures ret != 0 ==> StoppedAt(PreOrder(Target(root, old(cwd), path)), calls)
      ensures ret != 0 ==> nTotal == if |calls| == 1 then 1 else |calls| - 1
    {
      ghost var n := Target(root, cwd, path);
      TargetShape(root, cwd, path);
      ret := DoPath(path, Counter);
      nTotal := nreg + ndir + nblk + nchr + nfifo + nslink + nsock;
      assert nTotal == Total(calls);
      WalkEnds(n, calls, ret);
      if nTotal == 0 { nTotal := 1; }
    }
  }
}
