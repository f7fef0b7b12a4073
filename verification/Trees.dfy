/** Directory trees, their entries and their differences (worktree/change.go). */
module Trees {

  import opened Options
  import opened Ballots

  type Name = seq<Byte>
  type Path = seq<Name>

  datatype FileType = Reg | Dir | Link | Fifo | Sock | Chr | Blk

  /** mode is the permission bits; meta stands for owner, group and xattrs. */
  datatype Entry = Entry(ftype: FileType, content: nat, mode: nat, meta: nat, mtime: nat)

  /** A directory entry with what is below it. */
  datatype Node = Node(name: Name, e: Entry, kids: seq<Node>)

  datatype Kind = Added | Deleted | Modified | TypeChanged | ModeChanged | MetaChanged

  datatype Change = Change(path: Path, kind: Kind, before: Option<Entry>, after: Option<Entry>)

  predicate HasContent(t: FileType) { t == Reg || t == Link || t == Chr || t == Blk }

  /** The permission bits every symbolic link has. */
  const LINK_MODE := 0x1FF

  /** Types without content of their own carry none, and a link has no bits of its own. */
  predicate Canonical(e: Entry)
  {
    (HasContent(e.ftype) || e.content == 0) && (e.ftype == Link ==> e.mode == LINK_MODE)
  }

  predicate SameContent(a: Entry, b: Entry)
  {
    HasContent(a.ftype) ==> a.content == b.content
  }

  /** The same edit made twice: type, content and permission bits agree. */
  predicate Equivalent(a: Entry, b: Entry)
  {
    a.ftype == b.ftype && SameContent(a, b) && a.mode == b.mode
  }

  function Compare(a: Entry, b: Entry): (k: Option<Kind>)
  {
    if a.ftype != b.ftype then Some(TypeChanged)
    else if !SameContent(a, b) then Some(Modified)
    else if a.mode != b.mode then Some(ModeChanged)
    else if a.meta != b.meta || a.mtime != b.mtime then Some(MetaChanged)
    else None
  }

  /** Entries compare equal exactly when they are. */
  lemma CompareNoneIffEqual(a: Entry, b: Entry)
    requires Canonical(a) && Canonical(b)
    ensures Compare(a, b) == None <==> a == b
  {
  }

  /** The kinds on the fields, the first difference in the order type, content, bits, the rest. */
  lemma CompareMeans(a: Entry, b: Entry)
    requires Canonical(a) && Canonical(b)
    ensures Compare(a, b) == Some(TypeChanged) <==> a.ftype != b.ftype
    ensures Compare(a, b) == Some(Modified) <==> a.ftype == b.ftype && a.content != b.content
    ensures Compare(a, b) == Some(ModeChanged) <==> a.ftype == b.ftype && a.content == b.content && a.mode != b.mode
    ensures Compare(a, b) == Some(MetaChanged) <==>
      a.ftype == b.ftype && a.content == b.content && a.mode == b.mode && (a.meta != b.meta || a.mtime != b.mtime)
    ensures Compare(a, b) != Some(Added) && Compare(a, b) != Some(Deleted)
  {
  }

  /** The kind a change from before to after has. */
  predicate KindFits(k: Kind, before: Option<Entry>, after: Option<Entry>)
  {
    match (before, after)
    case (None, None) => false
    case (None, Some(_)) => k == Added
    case (Some(_), None) => k == Deleted
    case (Some(x), Some(y)) => Compare(x, y) == Some(k)
  }

  // ---- trees ----

  predicate Less(a: Name, b: Name) { LexCompare(a, b) < 0 }

  predicate ValidNode(n: Node)
    decreases n
  {
    Canonical(n.e) && (n.e.ftype != Dir ==> n.kids == []) && ValidDir(n.kids)
  }

  /** Entries in strict name order. */
  predicate ValidDir(d: seq<Node>)
    decreases d
  {
    (forall i, j :: 0 <= i < j < |d| ==> Less(d[i].name, d[j].name)) && forall i :: 0 <= i < |d| ==> ValidNode(d[i])
  }

  function Find(d: seq<Node>, name: Name): (r: Option<Node>)
    ensures r.Some? ==> r.value in d && r.value.name == name
    ensures r.None? ==> forall n :: n in d ==> n.name != name
  {
    if d == [] then None else if d[0].name == name then Some(d[0]) else Find(d[1..], name)
  }

  /** The entry at a path below a directory. */
  function Look(d: seq<Node>, p: Path): (r: Option<Entry>)
    decreases |p|
  {
    if p == [] then None
    else
      match Find(d, p[0])
      case None => None
      case Some(n) => if |p| == 1 then Some(n.e) else Look(n.kids, p[1..])
  }

  // ---- the difference ----

  function Expand(prefix: Path, n: Node, added: bool): (out: seq<Change>)
    decreases n
  {
    var p := prefix + [n.name];
    [if added then Change(p, Added, None, Some(n.e)) else Change(p, Deleted, Some(n.e), None)] + ExpandAll(p, n.kids, added)
  }

  function ExpandAll(prefix: Path, d: seq<Node>, added: bool): (out: seq<Change>)
    decreases d
  {
    if d == [] then [] else Expand(prefix, d[0], added) + ExpandAll(prefix, d[1..], added)
  }

  /** The changes at one name both sides have. */
  function DiffNode(prefix: Path, x: Node, y: Node): (out: seq<Change>)
    decreases x, y, 0
  {
    var p := prefix + [x.name];
    var here :=
      match Compare(x.e, y.e)
      case None => []
      case Some(k) =>
        [Change(p, k, Some(x.e), Some(y.e))] +
        (if k == TypeChanged then ExpandAll(p, x.kids, false) + ExpandAll(p, y.kids, true) else []);
    here + (if x.e.ftype == Dir && y.e.ftype == Dir && x.kids != y.kids then DiffDirs(p, x.kids, y.kids) else [])
  }

  /** The merge of two sorted directories. */
  function DiffDirs(prefix: Path, a: seq<Node>, b: seq<Node>): (out: seq<Change>)
    decreases a, b, 1
  {
    if a == [] && b == [] then []
    else if b == [] || (a != [] && Less(a[0].name, b[0].name)) then
      Expand(prefix, a[0], false) + DiffDirs(prefix, a[1..], b)
    else if a == [] || Less(b[0].name, a[0].name) then
      Expand(prefix, b[0], true) + DiffDirs(prefix, a, b[1..])
    else
      DiffNode(prefix, a[0], b[0]) + DiffDirs(prefix, a[1..], b[1..])
  }

  function DiffTrees(a: seq<Node>, b: seq<Node>): (out: seq<Change>)
  {
    if a == b then [] else DiffDirs([], a, b)
  }

  // ---- what the difference is, path by path ----

  predicate Above(p: Path, q: Path) { |p| < |q| && p == q[..|p|] }

  ghost predicate HasChange(out: seq<Change>, p: Path)
  {
    exists i :: 0 <= i < |out| && out[i].path == p
  }

  ghost predicate NoTwice(out: seq<Change>)
  {
    forall i, j :: 0 <= i < j < |out| ==> out[i].path != out[j].path
  }

  /** c says how the entry at its path differs between a and b. */
  ghost predicate Tells(c: Change, prefix: Path, a: seq<Node>, b: seq<Node>)
  {
    && Above(prefix, c.path)
    && c.before == Look(a, c.path[|prefix|..]) && c.after == Look(b, c.path[|prefix|..])
    && KindFits(c.kind, c.before, c.after)
  }

  ghost predicate Differs(a: seq<Node>, b: seq<Node>, q: Path)
  {
    q != [] && Look(a, q) != Look(b, q)
  }

  /** out has one change for each path where a and b differ, and no other. */
  ghost predicate Describes(out: seq<Change>, prefix: Path, a: seq<Node>, b: seq<Node>)
  {
    && (forall i :: 0 <= i < |out| ==> Tells(out[i], prefix, a, b))
    && (forall q :: Differs(a, b, q) ==> HasChange(out, prefix + q))
    && NoTwice(out)
  }

  ghost predicate Named(d: seq<Node>, n: Name) { forall i :: 0 <= i < |d| ==> d[i].name == n }

  ghost predicate NotNamed(d: seq<Node>, n: Name) { forall i :: 0 <= i < |d| ==> d[i].name != n }

  lemma {:induction false} FindInRest(xs: seq<Node>, rest: seq<Node>, n: Name, name: Name)
    requires |xs| <= 1 && Named(xs, n) && NotNamed(rest, n)
    ensures Find(xs + rest, name) == if name == n then Find(xs, name) else Find(rest, name)
  {
    if xs == [] {
      assert xs + rest == rest;
    } else {
      assert (xs + rest)[1..] == rest;
      if name == n { assert xs[0].name == name; }
    }
  }

  lemma LookInRest(xs: seq<Node>, rest: seq<Node>, n: Name, q: Path)
    requires |xs| <= 1 && Named(xs, n) && NotNamed(rest, n) && q != []
    ensures Look(xs + rest, q) == if q[0] == n then Look(xs, q) else Look(rest, q)
    ensures q[0] == n ==> Look(rest, q) == None
    ensures q[0] != n ==> Look(xs, q) == None
  {
    FindInRest(xs, rest, n, q[0]);
  }

  lemma TailOfPath(prefix: Path, p: Path)
    requires Above(prefix, p)
    ensures p[|prefix|..] != [] && prefix + p[|prefix|..] == p
  {
  }

  /** A change told below one part of the names is told below the whole. */
  lemma TellsWider(c: Change, prefix: Path, xs: seq<Node>, ys: seq<Node>, a: seq<Node>, b: seq<Node>, n: Name)
    requires |xs| <= 1 && |ys| <= 1 && Named(xs, n) && Named(ys, n) && NotNamed(a, n) && NotNamed(b, n)
    requires Tells(c, prefix, xs, ys) || Tells(c, prefix, a, b)
    ensures Tells(c, prefix, xs + a, ys + b)
    ensures Tells(c, prefix, xs, ys) <==> c.path[|prefix|] == n
  {
    hide Look;
    TailOfPath(prefix, c.path);
    var q := c.path[|prefix|..];
    LookInRest(xs, a, n, q);
    LookInRest(ys, b, n, q);
  }

  lemma HasChangeIn(x: seq<Change>, y: seq<Change>, p: Path)
    requires HasChange(x, p) || HasChange(y, p)
    ensures HasChange(x + y, p)
  {
    var z := x + y;
    if HasChange(x, p) {
      var i :| 0 <= i < |x| && x[i].path == p;
      assert z[i].path == p;
    } else {
      var i :| 0 <= i < |y| && y[i].path == p;
      assert z[|x| + i].path == p;
    }
  }

  lemma Combine(x: seq<Change>, y: seq<Change>, prefix: Path, xs: seq<Node>, ys: seq<Node>, a: seq<Node>, b: seq<Node>, n: Name)
    requires |xs| <= 1 && |ys| <= 1 && Named(xs, n) && Named(ys, n) && NotNamed(a, n) && NotNamed(b, n)
    requires Describes(x, prefix, xs, ys) && Describes(y, prefix, a, b)
    ensures Describes(x + y, prefix, xs + a, ys + b)
  {
    hide Look, HasChange, Tells;
    var z := x + y;
    forall i | 0 <= i < |z|
      ensures Tells(z[i], prefix, xs + a, ys + b)
    {
      TellsWider(z[i], prefix, xs, ys, a, b, n);
    }
    forall q | Differs(xs + a, ys + b, q)
      ensures HasChange(z, prefix + q)
    {
      LookInRest(xs, a, n, q);
      LookInRest(ys, b, n, q);
      assert Differs(xs, ys, q) || Differs(a, b, q);
      HasChangeIn(x, y, prefix + q);
    }
    forall i, j | 0 <= i < j < |z|
      ensures z[i].path != z[j].path
    {
      if i < |x| <= j {
        TellsWider(z[i], prefix, xs, ys, a, b, n);
        TellsWider(z[j], prefix, xs, ys, a, b, n);
        NotBoth(z[j], prefix, xs, ys, a, b, n);
      }
    }
  }

  lemma NotBoth(c: Change, prefix: Path, xs: seq<Node>, ys: seq<Node>, a: seq<Node>, b: seq<Node>, n: Name)
    requires |xs| <= 1 && |ys| <= 1 && Named(xs, n) && Named(ys, n) && NotNamed(a, n) && NotNamed(b, n)
    requires Tells(c, prefix, a, b)
    ensures c.path[|prefix|] != n
  {
    hide Look;
    TailOfPath(prefix, c.path);
    var q := c.path[|prefix|..];
    LookInRest(xs, a, n, q);
    LookInRest(ys, b, n, q);
  }

  function KidsOf(xs: seq<Node>): (d: seq<Node>) { if xs == [] then [] else xs[0].kids }

  function EntryOf(xs: seq<Node>): (e: Option<Entry>) { if xs == [] then None else Some(xs[0].e) }

  lemma {:induction false} LookInNothing(q: Path)
    ensures Look([], q) == None
  {
  }

  lemma LookOne(xs: seq<Node>, n: Name, q: Path)
    requires |xs| <= 1 && Named(xs, n) && q != [] && q[0] == n
    ensures Look(xs, q) == if |q| == 1 then EntryOf(xs) else Look(KidsOf(xs), q[1..])
  {
    if xs == [] {
      LookInNothing(q[1..]);
    } else {
      assert xs[0].name == n;
    }
  }

  lemma LookOther(xs: seq<Node>, n: Name, q: Path)
    requires |xs| <= 1 && Named(xs, n) && q != [] && q[0] != n
    ensures Look(xs, q) == None
  {
    LookInRest(xs, [], n, q);
    LookInNothing(q);
  }

  /** The change at one name itself: none when the entries agree. */
  ghost predicate Heads(head: seq<Change>, p: Path, x: Option<Entry>, y: Option<Entry>)
  {
    if x == y then head == []
    else |head| == 1 && head[0].path == p && head[0].before == x && head[0].after == y && KindFits(head[0].kind, x, y)
  }

  lemma TellsDown(c: Change, prefix: Path, n: Name, xs: seq<Node>, ys: seq<Node>)
    requires |xs| <= 1 && |ys| <= 1 && Named(xs, n) && Named(ys, n)
    requires Tells(c, prefix + [n], KidsOf(xs), KidsOf(ys))
    ensures Tells(c, prefix, xs, ys) && |c.path| > |prefix| + 1
  {
    hide Look;
    var q := c.path[|prefix|..];
    assert prefix == c.path[..|prefix|] by { assert (prefix + [n])[..|prefix|] == prefix; }
    assert c.path[|prefix|] == (prefix + [n])[|prefix|] == n;
    assert q[1..] == c.path[|prefix + [n]|..];
    LookOne(xs, n, q);
    LookOne(ys, n, q);
  }

  lemma TellsHead(c: Change, prefix: Path, n: Name, xs: seq<Node>, ys: seq<Node>)
    requires |xs| <= 1 && |ys| <= 1 && Named(xs, n) && Named(ys, n)
    requires Heads([c], prefix + [n], EntryOf(xs), EntryOf(ys))
    ensures Tells(c, prefix, xs, ys) && |c.path| == |prefix| + 1
  {
    hide Look;
    var q := c.path[|prefix|..];
    assert q == [n] && prefix == c.path[..|prefix|];
    LookOne(xs, n, q);
    LookOne(ys, n, q);
  }

  lemma Lift(head: seq<Change>, out: seq<Change>, prefix: Path, n: Name, xs: seq<Node>, ys: seq<Node>)
    requires |xs| <= 1 && |ys| <= 1 && Named(xs, n) && Named(ys, n)
    requires Heads(head, prefix + [n], EntryOf(xs), EntryOf(ys))
    requires Describes(out, prefix + [n], KidsOf(xs), KidsOf(ys))
    ensures Describes(head + out, prefix, xs, ys)
  {
    hide Look, HasChange, Tells;
    var z := head + out;
    forall i | 0 <= i < |z|
      ensures Tells(z[i], prefix, xs, ys) && (|z[i].path| == |prefix| + 1 <==> i < |head|)
    {
      if i < |head| {
        assert [z[i]] == head;
        TellsHead(z[i], prefix, n, xs, ys);
      } else {
        TellsDown(z[i], prefix, n, xs, ys);
      }
    }
    forall q | Differs(xs, ys, q)
      ensures HasChange(z, prefix + q)
    {
      FoundBelow(head, out, prefix, n, xs, ys, q);
    }
  }

  lemma FoundBelow(head: seq<Change>, out: seq<Change>, prefix: Path, n: Name, xs: seq<Node>, ys: seq<Node>, q: Path)
    requires |xs| <= 1 && |ys| <= 1 && Named(xs, n) && Named(ys, n)
    requires Heads(head, prefix + [n], EntryOf(xs), EntryOf(ys))
    requires Describes(out, prefix + [n], KidsOf(xs), KidsOf(ys)) && Differs(xs, ys, q)
    ensures HasChange(head + out, prefix + q)
  {
    hide Look, Tells;
    if q[0] != n {
      LookOther(xs, n, q);
      LookOther(ys, n, q);
    } else {
      LookOne(xs, n, q);
      LookOne(ys, n, q);
      if |q| == 1 {
        assert prefix + q == prefix + [n];
        assert head[0].path == prefix + q;
      } else {
        assert Differs(KidsOf(xs), KidsOf(ys), q[1..]);
        assert prefix + [n] + q[1..] == prefix + q;
      }
      HasChangeIn(head, out, prefix + q);
    }
  }

  lemma SameDescribes(prefix: Path, d: seq<Node>)
    ensures Describes([], prefix, d, d)
  {
  }

  lemma {:induction false} ExpandDescribes(prefix: Path, n: Node, added: bool)
    requires ValidNode(n)
    ensures !added ==> Describes(Expand(prefix, n, false), prefix, [n], [])
    ensures added ==> Describes(Expand(prefix, n, true), prefix, [], [n])
    decreases n
  {
    hide Describes;
    var p := prefix + [n.name];
    ExpandAllDescribes(p, n.kids, added);
    if added {
      Lift([Change(p, Added, None, Some(n.e))], ExpandAll(p, n.kids, true), prefix, n.name, [], [n]);
    } else {
      Lift([Change(p, Deleted, Some(n.e), None)], ExpandAll(p, n.kids, false), prefix, n.name, [n], []);
    }
  }

  lemma FirstIsOnly(d: seq<Node>)
    requires d != [] && ValidDir(d)
    ensures ValidDir(d[1..]) && ValidNode(d[0]) && NotNamed(d[1..], d[0].name) && Named([d[0]], d[0].name) && [d[0]] + d[1..] == d
  {
    forall i | 0 <= i < |d[1..]|
      ensures d[1..][i].name != d[0].name
    {
      assert Less(d[0].name, d[i + 1].name);
      LexZeroIsEqual(d[0].name, d[i + 1].name);
    }
  }

  lemma {:induction false} ExpandAllDescribes(prefix: Path, d: seq<Node>, added: bool)
    requires ValidDir(d)
    ensures !added ==> Describes(ExpandAll(prefix, d, false), prefix, d, [])
    ensures added ==> Describes(ExpandAll(prefix, d, true), prefix, [], d)
    decreases d
  {
    if d == [] {
      SameDescribes(prefix, []);
    } else {
      hide Describes;
      FirstIsOnly(d);
      ExpandDescribes(prefix, d[0], added);
      ExpandAllDescribes(prefix, d[1..], added);
      var n := d[0].name;
      var none: seq<Node> := [];
      assert none + none == none;
      if added {
        Combine(Expand(prefix, d[0], true), ExpandAll(prefix, d[1..], true), prefix, [], [d[0]], [], d[1..], n);
      } else {
        Combine(Expand(prefix, d[0], false), ExpandAll(prefix, d[1..], false), prefix, [d[0]], [], d[1..], [], n);
      }
    }
  }

  lemma {:induction false} DiffNodeDescribes(prefix: Path, x: Node, y: Node)
    requires ValidNode(x) && ValidNode(y) && x.name == y.name
    ensures Describes(DiffNode(prefix, x, y), prefix, [x], [y])
    decreases x, y, 0
  {
    hide Describes;
    var p := prefix + [x.name];
    CompareNoneIffEqual(x.e, y.e);
    var below := DiffKids(p, x, y);
    DiffKidsDescribes(p, x, y);
    match Compare(x.e, y.e) {
      case None =>
        Lift([], below, prefix, x.name, [x], [y]);
        assert [] + below == below;
      case Some(k) =>
        var head := [Change(p, k, Some(x.e), Some(y.e))];
        Lift(head, below, prefix, x.name, [x], [y]);
        assert DiffNode(prefix, x, y) == head + below;
    }
  }

  /** The part of a node's changes that lies below it. */
  function DiffKids(p: Path, x: Node, y: Node): (out: seq<Change>)
  {
    (if x.e.ftype != y.e.ftype then ExpandAll(p, x.kids, false) + ExpandAll(p, y.kids, true) else []) +
    (if x.e.ftype == Dir && y.e.ftype == Dir && x.kids != y.kids then DiffDirs(p, x.kids, y.kids) else [])
  }

  lemma {:induction false} DiffKidsDescribes(p: Path, x: Node, y: Node)
    requires ValidNode(x) && ValidNode(y)
    ensures Describes(DiffKids(p, x, y), p, x.kids, y.kids)
    decreases x.kids, y.kids, 2
  {
    hide Describes;
    if x.e.ftype != y.e.ftype {
      ExpandAllDescribes(p, x.kids, false);
      ExpandAllDescribes(p, y.kids, true);
      var gone, come := ExpandAll(p, x.kids, false), ExpandAll(p, y.kids, true);
      assert gone + come + [] == gone + come;
      if x.kids == [] {
        assert gone + come == come;
      } else {
        assert gone + come == gone;
      }
    } else if x.e.ftype == Dir && x.kids != y.kids {
      DiffDirsDescribes(p, x.kids, y.kids);
      assert [] + DiffDirs(p, x.kids, y.kids) == DiffDirs(p, x.kids, y.kids);
    } else {
      assert x.kids == y.kids;
      SameDescribes(p, x.kids);
      assert DiffKids(p, x, y) == [];
    }
  }

  lemma NotNamedBelow(d: seq<Node>, n: Name)
    requires ValidDir(d) && (d == [] || Less(n, d[0].name))
    ensures NotNamed(d, n)
  {
    forall i | 0 <= i < |d|
      ensures d[i].name != n
    {
      if i > 0 {
        assert Less(d[0].name, d[i].name);
        LexTransitive(n, d[0].name, d[i].name);
      }
      LexZeroIsEqual(n, d[i].name);
    }
  }

  lemma {:induction false} DiffDirsDescribes(prefix: Path, a: seq<Node>, b: seq<Node>)
    requires ValidDir(a) && ValidDir(b)
    ensures Describes(DiffDirs(prefix, a, b), prefix, a, b)
    decreases a, b, 1
  {
    if a == [] && b == [] {
      SameDescribes(prefix, []);
    } else {
      hide Describes, Less;
      if a != [] { FirstIsOnly(a); }
      if b != [] { FirstIsOnly(b); }
      if b == [] || (a != [] && Less(a[0].name, b[0].name)) {
        NotNamedBelow(b, a[0].name);
        ExpandDescribes(prefix, a[0], false);
        DiffDirsDescribes(prefix, a[1..], b);
        Combine(Expand(prefix, a[0], false), DiffDirs(prefix, a[1..], b), prefix, [a[0]], [], a[1..], b, a[0].name);
        assert [] + b == b;
      } else if a == [] || Less(b[0].name, a[0].name) {
        NotNamedBelow(a, b[0].name);
        ExpandDescribes(prefix, b[0], true);
        DiffDirsDescribes(prefix, a, b[1..]);
        Combine(Expand(prefix, b[0], true), DiffDirs(prefix, a, b[1..]), prefix, [], [b[0]], a, b[1..], b[0].name);
        assert [] + a == a;
      } else {
        NameEqual(a[0].name, b[0].name);
        DiffNodeDescribes(prefix, a[0], b[0]);
        DiffDirsDescribes(prefix, a[1..], b[1..]);
        Combine(DiffNode(prefix, a[0], b[0]), DiffDirs(prefix, a[1..], b[1..]), prefix, [a[0]], [b[0]], a[1..], b[1..], a[0].name);
      }
    }
  }

  lemma NameEqual(a: Name, b: Name)
    requires !Less(a, b) && !Less(b, a)
    ensures a == b
  {
    LexFlip(a, b);
    LexZeroIsEqual(a, b);
  }

  /** The difference of two trees: one change for each path whose entry differs, with its kind and
      both entries, and nothing else. */
  lemma DiffIsPointwise(a: seq<Node>, b: seq<Node>)
    requires ValidDir(a) && ValidDir(b)
    ensures Describes(DiffTrees(a, b), [], a, b)
  {
    if a == b {
      SameDescribes([], a);
    } else {
      DiffDirsDescribes([], a, b);
    }
  }

  // ---- the code: loops that append to one list ----

  method ExpandInto(prefix: Path, n: Node, added: bool, out0: seq<Change>) returns (out: seq<Change>)
    ensures out == out0 + Expand(prefix, n, added)
    decreases n, 1
  {
    var p := prefix + [n.name];
    out := out0 + [if added then Change(p, Added, None, Some(n.e)) else Change(p, Deleted, Some(n.e), None)];
    out := ExpandChildren(p, n, added, out);
  }

  method ExpandChildren(p: Path, n: Node, added: bool, out0: seq<Change>) returns (out: seq<Change>)
    ensures out == out0 + ExpandAll(p, n.kids, added)
    decreases n, 0
  {
    out := out0;
    var d := n.kids;
    var i := 0;
    assert d[0..] == d;
    while i < |d|
      invariant i <= |d| && out + ExpandAll(p, d[i..], added) == out0 + ExpandAll(p, d, added)
    {
      assert d[i..][0] == d[i] && d[i..][1..] == d[i + 1..];
      out := ExpandInto(p, d[i], added, out);
      i := i + 1;
    }
  }

  method NodeInto(prefix: Path, x: Node, y: Node, out0: seq<Change>) returns (out: seq<Change>)
    requires ValidNode(x) && ValidNode(y)
    ensures out == out0 + DiffNode(prefix, x, y)
    decreases x, y, 0
  {
    out := out0;
    var p := prefix + [x.name];
    var k := Compare(x.e, y.e);
    if k.Some? {
      out := out + [Change(p, k.value, Some(x.e), Some(y.e))];
      if k.value == TypeChanged {
        out := ExpandChildren(p, x, false, out);
        out := ExpandChildren(p, y, true, out);
      }
    }
    if x.e.ftype == Dir && y.e.ftype == Dir && x.kids != y.kids {
      out := DirsInto(p, x.kids, y.kids, out);
    }
  }

  lemma DirsStep(prefix: Path, a: seq<Node>, b: seq<Node>, i: nat, j: nat)
    requires i <= |a| && j <= |b|
    ensures DiffDirs(prefix, a[i..], b[j..]) ==
            if i == |a| && j == |b| then []
            else if j == |b| || (i < |a| && Less(a[i].name, b[j].name)) then
              Expand(prefix, a[i], false) + DiffDirs(prefix, a[i + 1..], b[j..])
            else if i == |a| || Less(b[j].name, a[i].name) then
              Expand(prefix, b[j], true) + DiffDirs(prefix, a[i..], b[j + 1..])
            else DiffNode(prefix, a[i], b[j]) + DiffDirs(prefix, a[i + 1..], b[j + 1..])
  {
    hide Less, Expand, DiffNode;
    if i < |a| { assert a[i..][0] == a[i] && a[i..][1..] == a[i + 1..]; }
    if j < |b| { assert b[j..][0] == b[j] && b[j..][1..] == b[j + 1..]; }
  }

  lemma Regroup(out: seq<Change>, x: seq<Change>, y: seq<Change>)
    ensures out + (x + y) == (out + x) + y
  {
  }

  /** diffDirs: two sorted lists walked together. */
  method DirsInto(prefix: Path, a: seq<Node>, b: seq<Node>, out0: seq<Change>) returns (out: seq<Change>)
    requires ValidDir(a) && ValidDir(b)
    ensures out == out0 + DiffDirs(prefix, a, b)
    decreases a, b, 1
  {
    out := out0;
    var i, j := 0, 0;
    assert a[0..] == a && b[0..] == b;
    ghost var whole := out0 + DiffDirs(prefix, a, b);
    assert forall n :: n in a || n in b ==> ValidNode(n);
    hide Less, Expand, DiffNode, DiffDirs, ValidDir, ValidNode;
    while i < |a| || j < |b|
      invariant i <= |a| && j <= |b|
      invariant out + DiffDirs(prefix, a[i..], b[j..]) == whole
      decreases |a| - i + |b| - j
    {
      DirsStep(prefix, a, b, i, j);
      assert i < |a| ==> a[i] in a;
      assert j < |b| ==> b[j] in b;
      if j == |b| || (i < |a| && Less(a[i].name, b[j].name)) {
        Regroup(out, Expand(prefix, a[i], false), DiffDirs(prefix, a[i + 1..], b[j..]));
        out := ExpandInto(prefix, a[i], false, out);
        i := i + 1;
      } else if i == |a| || Less(b[j].name, a[i].name) {
        Regroup(out, Expand(prefix, b[j], true), DiffDirs(prefix, a[i..], b[j + 1..]));
        out := ExpandInto(prefix, b[j], true, out);
        j := j + 1;
      } else {
        Regroup(out, DiffNode(prefix, a[i], b[j]), DiffDirs(prefix, a[i + 1..], b[j + 1..]));
        out := NodeInto(prefix, a[i], b[j], out);
        i, j := i + 1, j + 1;
      }
    }
    DirsStep(prefix, a, b, i, j);
  }

  method Diff(a: seq<Node>, b: seq<Node>) returns (out: seq<Change>)
    requires ValidDir(a) && ValidDir(b)
    ensures out == DiffTrees(a, b) && Describes(out, [], a, b)
  {
    out := [];
    if a != b {
      out := DirsInto([], a, b, out);
    }
    DiffIsPointwise(a, b);
  }
}
