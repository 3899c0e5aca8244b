/** File trees, and where a path leads from a working directory: what `lstat`, `opendir` and
    `chdir` make of the names the directory walk gives them (6-semestr/lab2/main.c:62-77). */
module Paths {
  import opened Options

  // ---------------------------------------------------------------- file trees

  /** `st_mode & S_IFMT`. */
  datatype Kind = Reg | Blk | Chr | Fifo | Lnk | Sock | Directory

  /** What `readdir` gives: "." and "..", something `lstat` fails on, a file, a symbolic link,
      or a directory. */
  datatype Node =
    | Dots(name: string)
    | Unstat(name: string)
    | File(name: string, kind: Kind)
    | Link(name: string, target: string)
    | Dir(name: string, readable: bool, entries: seq<Node>)

  predicate IsDots(name: string) { name == "." || name == ".." }

  predicate OneName(name: string) { name != "" && '/' !in name }

  /** Names in a directory are unique, not empty and without "/"; directories and links have
      nodes of their own. */
  ghost predicate WellFormed(n: Node) {
    && (n.File? ==> n.kind != Directory && n.kind != Lnk)
    && (n.Dir? ==>
          && (forall i, j :: 0 <= i < j < |n.entries| ==> n.entries[i].name != n.entries[j].name)
          && (forall i :: 0 <= i < |n.entries| ==>
                && WellFormed(n.entries[i]) && OneName(n.entries[i].name)
                && (n.entries[i].Dots? <==> IsDots(n.entries[i].name))))
  }

  function Find(entries: seq<Node>, name: string): Option<Node> {
    if entries == [] then None
    else if !entries[0].Dots? && entries[0].name == name then Some(entries[0])
    else Find(entries[1..], name)
  }

  /** Follow a path of simple names down from a node. */
  function Resolve(n: Node, path: seq<string>): Option<Node>
    decreases |path|
  {
    if path == [] then Some(n)
    else if !n.Dir? then None
    else
      match Find(n.entries, path[0])
      case None => None
      case Some(c) => Resolve(c, path[1..])
  }

  lemma {:induction false} FindChild(entries: seq<Node>, i: nat)
    requires i < |entries| && !entries[i].Dots?
    requires forall j :: 0 <= j < i ==> entries[j].name != entries[i].name
    ensures Find(entries, entries[i].name) == Some(entries[i])
    decreases i
  {
    if i > 0 {
      assert entries[0].name != entries[i].name;
      FindChild(entries[1..], i - 1);
    }
  }

  lemma {:induction false} FindIsChild(entries: seq<Node>, name: string)
    requires Find(entries, name).Some?
    ensures exists i :: 0 <= i < |entries| && entries[i] == Find(entries, name).value
    ensures Find(entries, name).value.name == name && !Find(entries, name).value.Dots?
  {
    if !entries[0].Dots? && entries[0].name == name {
    } else {
      FindIsChild(entries[1..], name);
      var i :| 0 <= i < |entries[1..]| && entries[1..][i] == Find(entries[1..], name).value;
      assert entries[i + 1] == Find(entries, name).value;
    }
  }

  /** Going down one more name. */
  lemma {:induction false} ResolveStep(n: Node, path: seq<string>, name: string)
    requires Resolve(n, path).Some? && Resolve(n, path).value.Dir?
    ensures Resolve(n, path + [name]) == Find(Resolve(n, path).value.entries, name)
    decreases |path|
  {
    if path == [] {
      assert [name][1..] == [];
    } else {
      assert (path + [name])[1..] == path[1..] + [name];
      ResolveStep(Find(n.entries, path[0]).value, path[1..], name);
    }
  }

  lemma {:induction false} ResolveWellFormed(n: Node, path: seq<string>)
    requires WellFormed(n) && Resolve(n, path).Some?
    ensures WellFormed(Resolve(n, path).value)
    ensures !n.Dots? ==> !Resolve(n, path).value.Dots?
    decreases |path|
  {
    if path != [] {
      FindIsChild(n.entries, path[0]);
      ResolveWellFormed(Find(n.entries, path[0]).value, path[1..]);
    }
  }

  // ---------------------------------------------------------------------- paths

  /** The directory above; the root is above itself. */
  function Parent(path: seq<string>): seq<string> {
    if path == [] then [] else path[..|path| - 1]
  }

  /** How far the first component of a path reaches. */
  function FirstLength(path: string): (n: nat)
    ensures n <= |path| && (n < |path| ==> path[n] == '/')
    ensures path != "" && path[0] != '/' ==> n > 0
  {
    if path == "" || path[0] == '/' then 0 else 1 + FirstLength(path[1..])
  }

  /** The components of a path. */
  function Components(path: string): seq<string>
    decreases |path|
  {
    if path == "" then []
    else if path[0] == '/' then Components(path[1..])
    else [path[..FirstLength(path)]] + Components(path[FirstLength(path)..])
  }

  lemma OneComponent(name: string)
    requires OneName(name)
    ensures Components(name) == [name]
  {
    assert FirstLength(name) == |name|;
    assert name[..|name|] == name && name[|name|..] == "";
  }

  function Down(at: seq<string>, name: string): seq<string> {
    if name == "." then at else if name == ".." then Parent(at) else at + [name]
  }

  /** The components to follow; a "/" at the end asks for a directory, like "/.". */
  function Names(path: string): seq<string> {
    Components(path) + if path != "" && path[|path| - 1] == '/' then ["."] else []
  }

  /** Where a path starts. */
  function From(path: string, at: seq<string>): seq<string> {
    if path != "" && path[0] == '/' then [] else at
  }

  predicate InDirectory(root: Node, at: seq<string>) {
    Resolve(root, at).Some? && Resolve(root, at).value.Dir?
  }

  const MAX_LINKS: nat := 40

  /** Follow names one by one. All but the last must lead to directories, or to symbolic links,
      of which no more than `links` are followed. */
  function Follow(root: Node, at: seq<string>, names: seq<string>, links: nat): Option<seq<string>>
    decreases links, |names|
  {
    if names == [] then Some(at)
    else
      match Resolve(root, at)
      case Some(Dir(_, _, _)) => Follow(root, Down(at, names[0]), names[1..], links)
      case Some(Link(_, target)) =>
        if links == 0 || target == "" then None
        else Follow(root, From(target, Parent(at)), Names(target) + names, links - 1)
      case _ => None
  }

  function LocateIn(root: Node, cwd: seq<string>, path: string, links: nat): Option<seq<string>> {
    if path == "" then None else Follow(root, From(path, cwd), Names(path), links)
  }

  /** Where a path leads, from the root or from a working directory. A link at its end is not followed. */
  function Locate(root: Node, cwd: seq<string>, path: string): Option<seq<string>> {
    LocateIn(root, cwd, path, MAX_LINKS)
  }

  /** A single name leads one step on from the working directory. */
  lemma LocateName(root: Node, cwd: seq<string>, name: string)
    requires OneName(name) && InDirectory(root, cwd)
    ensures Locate(root, cwd, name) == Some(Down(cwd, name))
  {
    OneComponent(name);
    assert name[0] in name && name[|name| - 1] in name;
    assert Names(name) == [name] && [name][1..] == [];
    assert Follow(root, Down(cwd, name), [], MAX_LINKS) == Some(Down(cwd, name));
  }

  /** The node a path stands for, seen from a working directory and known by that path;
      `lstat` fails on a path that leads nowhere. */
  function Target(root: Node, cwd: seq<string>, path: string): Node {
    match Locate(root, cwd, path)
    case None => Unstat(path)
    case Some(at) =>
      (match Resolve(root, at)
       case None => Unstat(path)
       case Some(n) => n.(name := path))
  }

  // ----------------------------------------------------------- the laws of paths

  lemma FirstLengthJoin(p: string, r: string)
    requires r != "" && r[0] == '/'
    ensures FirstLength(p + r) == FirstLength(p)
  {
    if p != "" && p[0] != '/' {
      assert (p + r)[1..] == p[1..] + r;
      FirstLengthJoin(p[1..], r);
    }
  }

  lemma CutJoin(p: string, q: string, n: nat)
    requires n <= |p| && p != ""
    ensures (p + "/" + q)[..n] == p[..n] && (p + "/" + q)[n..] == p[n..] + "/" + q
    ensures (p + "/" + q)[0] == p[0]
  {
  }

  /** The components of two paths joined by "/" are those of the one and then those of the other. */
  lemma {:induction false} ComponentsJoin(p: string, q: string)
    ensures Components(p + "/" + q) == Components(p) + Components(q)
    decreases |p|
  {
    var r := "/" + q;
    assert p + "/" + q == p + r;
    if p == "" {
      assert r[1..] == q;
    } else if p[0] == '/' {
      assert (p + r)[1..] == p[1..] + "/" + q;
      ComponentsJoin(p[1..], q);
    } else {
      var n := FirstLength(p);
      FirstLengthJoin(p, r);
      CutJoin(p, q, n);
      ComponentsJoin(p[n..], q);
    }
  }

  /** The names of a path that goes on with a single name. */
  lemma NamesJoin(p: string, name: string)
    requires p != "" && OneName(name)
    ensures Names(p + "/" + name) == Components(p) + [name]
    ensures From(p + "/" + name, []) == From(p, []) && forall at :: From(p + "/" + name, at) == From(p, at)
  {
    ComponentsJoin(p, name);
    OneComponent(name);
    assert name[|name| - 1] in name;
    assert (p + "/" + name)[|p| + |name|] == name[|name| - 1];
  }

  lemma Regroup(a: seq<string>, b: seq<string>, c: seq<string>)
    ensures a + (b + c) == (a + b) + c
  {
  }

  /** One name more, from a directory. */
  lemma {:induction false} FollowMore(root: Node, a: seq<string>, names: seq<string>, links: nat, n: string)
    requires Follow(root, a, names, links).Some? && InDirectory(root, Follow(root, a, names, links).value)
    ensures Follow(root, a, names + [n], links) == Some(Down(Follow(root, a, names, links).value, n))
    decreases links, |names|
  {
    if names == [] {
      assert [n][1..] == [] && names + [n] == [n];
    } else {
      assert (names + [n])[1..] == names[1..] + [n];
      match Resolve(root, a)
      case Some(Dir(_, _, _)) => FollowMore(root, Down(a, names[0]), names[1..], links, n);
      case Some(Link(_, target)) =>
        Regroup(Names(target), names, [n]);
        FollowMore(root, From(target, Parent(a)), Names(target) + names, links - 1, n);
    }
  }

  /** What is neither a directory nor a link leads nowhere further. */
  lemma {:induction false} FollowStops(root: Node, a: seq<string>, names: seq<string>, links: nat, n: string)
    requires Follow(root, a, names, links).Some?
    requires var end := Resolve(root, Follow(root, a, names, links).value);
             end.None? || !(end.value.Dir? || end.value.Link?)
    ensures Follow(root, a, names + [n], links) == None
    decreases links, |names|
  {
    if names == [] {
      assert names + [n] == [n];
    } else {
      assert (names + [n])[1..] == names[1..] + [n];
      match Resolve(root, a)
      case Some(Dir(_, _, _)) => FollowStops(root, Down(a, names[0]), names[1..], links, n);
      case Some(Link(_, target)) =>
        Regroup(Names(target), names, [n]);
        FollowStops(root, From(target, Parent(a)), Names(target) + names, links - 1, n);
    }
  }

  /** A "." at the end leads to a directory; another name in its place leads on from there. */
  lemma {:induction false} FollowDot(root: Node, a: seq<string>, names: seq<string>, links: nat, n: string)
    requires Follow(root, a, names + ["."], links).Some?
    ensures InDirectory(root, Follow(root, a, names + ["."], links).value)
    ensures Follow(root, a, names + [n], links) == Some(Down(Follow(root, a, names + ["."], links).value, n))
    decreases links, |names|
  {
    assert (names + ["."])[1..] == if names == [] then [] else names[1..] + ["."];
    assert (names + [n])[1..] == if names == [] then [] else names[1..] + [n];
    match Resolve(root, a)
    case Some(Dir(_, _, _)) =>
      if names != [] { FollowDot(root, Down(a, names[0]), names[1..], links, n); }
    case Some(Link(_, target)) =>
      Regroup(Names(target), names, ["."]);
      Regroup(Names(target), names, [n]);
      FollowDot(root, From(target, Parent(a)), Names(target) + names, links - 1, n);
  }

  lemma DotStays(root: Node, a: seq<string>, links: nat, n: string)
    requires InDirectory(root, a)
    ensures Follow(root, a, [".", n], links) == Follow(root, a, [n], links)
  {
    assert [".", n][1..] == [n];
  }

  /** A "." before a name makes no difference. */
  lemma {:induction false} FollowDotName(root: Node, a: seq<string>, names: seq<string>, links: nat, n: string)
    ensures Follow(root, a, names + [".", n], links) == Follow(root, a, names + [n], links)
    decreases links, |names|
  {
    match Resolve(root, a)
    case Some(Dir(_, _, _)) =>
      if names != [] {
        assert (names + [".", n])[1..] == names[1..] + [".", n] && (names + [n])[1..] == names[1..] + [n];
        FollowDotName(root, Down(a, names[0]), names[1..], links, n);
      } else {
        assert names + [".", n] == [".", n] && names + [n] == [n];
        DotStays(root, a, links, n);
      }
    case Some(Link(_, target)) =>
      Regroup(Names(target), names, [".", n]);
      Regroup(Names(target), names, [n]);
      if links > 0 && target != "" {
        FollowDotName(root, From(target, Parent(a)), Names(target) + names, links - 1, n);
      }
    case _ =>
  }

  /** A path that starts with "/" does not depend on the working directory. */
  lemma LocateAbsolute(root: Node, a: seq<string>, b: seq<string>, path: string)
    requires path != "" && path[0] == '/'
    ensures Locate(root, a, path) == Locate(root, b, path)
    ensures path == "/" && root.Dir? ==> Locate(root, a, path) == Some([])
  {
    if path == "/" {
      assert path[1..] == "" && Components(path) == Components(path[1..]);
      assert Names(path) == ["."] && ["."][1..] == [];
    }
  }

  lemma LocateRootName(root: Node, cwd: seq<string>, name: string)
    requires root.Dir? && OneName(name) && !IsDots(name)
    ensures Locate(root, cwd, "/" + name) == Some([name])
  {
    OneComponent(name);
    assert ("/" + name)[1..] == name && name[|name| - 1] in name;
    assert Names("/" + name) == [name] && [name][1..] == [];
    var top: seq<string> := [];
    assert Follow(root, top, [name], MAX_LINKS) == Follow(root, Down(top, name), [name][1..], MAX_LINKS);
    assert Down(top, name) == [name];
  }

  /** A path to a directory, "/" and a name: the directory itself for ".", the one above for
      "..", and otherwise the entry of that name. */
  lemma LocateMore(root: Node, cwd: seq<string>, path: string, name: string)
    requires Locate(root, cwd, path).Some? && InDirectory(root, Locate(root, cwd, path).value) && OneName(name)
    ensures var at := Locate(root, cwd, path).value;
            Locate(root, cwd, path + "/" + name) ==
            Some(if name == "." then at else if name == ".." then Parent(at) else at + [name])
  {
    NamesJoin(path, name);
    if path[|path| - 1] == '/' {
      FollowDot(root, From(path, cwd), Components(path), MAX_LINKS, name);
    } else {
      assert Names(path) == Components(path);
      FollowMore(root, From(path, cwd), Components(path), MAX_LINKS, name);
    }
  }

  /** The empty path leads nowhere, and no path leads on from a file or from a name that is not there. */
  lemma LocateNothing(root: Node, cwd: seq<string>, path: string, name: string)
    requires Locate(root, cwd, path).Some? && path[|path| - 1] != '/' && OneName(name)
    requires var end := Resolve(root, Locate(root, cwd, path).value);
             end.None? || !(end.value.Dir? || end.value.Link?)
    ensures Locate(root, cwd, path + "/" + name) == None
    ensures Locate(root, cwd, "") == None && Target(root, cwd, "") == Unstat("")
  {
    NamesJoin(path, name);
    assert Names(path) == Components(path);
    FollowStops(root, From(path, cwd), Components(path), MAX_LINKS, name);
  }

  /** Down into a directory and up again leads back. */
  lemma DownAndUp(root: Node, cwd: seq<string>, path: string, name: string)
    requires Locate(root, cwd, path).Some? && InDirectory(root, Locate(root, cwd, path).value)
    requires OneName(name) && !IsDots(name) && InDirectory(root, Locate(root, cwd, path).value + [name])
    ensures Locate(root, cwd, path + "/" + name + "/" + "..") == Locate(root, cwd, path)
  {
    LocateMore(root, cwd, path, name);
    LocateMore(root, cwd, path + "/" + name, "..");
  }

  /** A "/" at the end of a path asks for a directory. */
  lemma LocateSlash(root: Node, cwd: seq<string>, path: string)
    requires path != "" && path[|path| - 1] != '/' && Locate(root, cwd, path).Some?
    ensures var at := Locate(root, cwd, path).value;
            && (InDirectory(root, at) ==> Locate(root, cwd, path + "/") == Some(at))
            && (Locate(root, cwd, path + "/").Some? ==> InDirectory(root, Locate(root, cwd, path + "/").value))
  {
    ComponentsJoin(path, "");
    assert path + "/" + "" == path + "/";
    assert Names(path + "/") == Components(path) + ["."] && Names(path) == Components(path);
    if InDirectory(root, Locate(root, cwd, path).value) {
      FollowMore(root, From(path, cwd), Components(path), MAX_LINKS, ".");
    }
    if Locate(root, cwd, path + "/").Some? {
      FollowDot(root, From(path, cwd), Components(path), MAX_LINKS, ".");
    }
  }

  /** The "." of a "/" at the end of a link's target makes no difference. */
  lemma TargetNames(root: Node, cwd: seq<string>, target: string, name: string, links: nat)
    requires target != "" && OneName(name)
    ensures Follow(root, From(target, cwd), Names(target) + [name], links) ==
            Follow(root, From(target, cwd), Components(target) + [name], links)
  {
    if target[|target| - 1] == '/' {
      assert Names(target) + [name] == Components(target) + [".", name];
      FollowDotName(root, From(target, cwd), Components(target), links, name);
    } else {
      assert Names(target) == Components(target);
    }
  }

  lemma ToLink(root: Node, cwd: seq<string>, link: string, name: string, links: nat)
    requires InDirectory(root, cwd) && OneName(link) && !IsDots(link) && OneName(name)
    ensures LocateIn(root, cwd, link + "/" + name, links) == Follow(root, cwd + [link], [name], links)
  {
    NamesJoin(link, name);
    OneComponent(link);
    assert link[0] in link;
    var two := [link, name];
    assert Names(link + "/" + name) == two && two[1..] == [name];
    assert Follow(root, cwd, two, links) == Follow(root, Down(cwd, link), two[1..], links);
  }

  lemma FromTarget(root: Node, cwd: seq<string>, target: string, name: string, links: nat)
    requires target != "" && OneName(name)
    ensures LocateIn(root, cwd, target + "/" + name, links) ==
            Follow(root, From(target, cwd), Names(target) + [name], links)
  {
    NamesJoin(target, name);
    TargetNames(root, cwd, target, name, links);
  }

  /** A symbolic link inside a path stands for its target, seen from the directory it is in. */
  lemma ThroughLink(root: Node, cwd: seq<string>, link: string, name: string, links: nat)
    requires InDirectory(root, cwd) && OneName(link) && !IsDots(link) && OneName(name)
    requires Resolve(root, cwd + [link]).Some? && Resolve(root, cwd + [link]).value.Link?
    requires Resolve(root, cwd + [link]).value.target != ""
    ensures var target := Resolve(root, cwd + [link]).value.target;
            LocateIn(root, cwd, link + "/" + name, links) ==
            if links == 0 then None else LocateIn(root, cwd, target + "/" + name, links - 1)
  {
    var target, at := Resolve(root, cwd + [link]).value.target, cwd + [link];
    ToLink(root, cwd, link, name, links);
    assert Parent(at) == cwd;
    if links > 0 { FromTarget(root, cwd, target, name, links - 1); }
  }

  /** A link to itself leads nowhere, however many links may be followed. */
  lemma {:induction false} LinkLoop(root: Node, cwd: seq<string>, link: string, name: string, links: nat)
    requires InDirectory(root, cwd) && OneName(link) && !IsDots(link) && OneName(name)
    requires Resolve(root, cwd + [link]).Some? && Resolve(root, cwd + [link]).value.Link?
    requires Resolve(root, cwd + [link]).value.target == link
    ensures LocateIn(root, cwd, link + "/" + name, links) == None
    decreases links
  {
    ThroughLink(root, cwd, link, name, links);
    if links > 0 { LinkLoop(root, cwd, link, name, links - 1); }
  }
}
