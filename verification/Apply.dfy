/** Applying changes to a working directory (worktree/apply.go), over a map from paths to entries.
    Symbolic links dangle; directories are writable by their owner.  Whoever adds or removes a
    name moves the modification time of the directory it is in, so the functions here work on
    files whose directories have no times; the class has them, and moves them. */
module Apply {

  import opened Options
  import opened Ballots
  import opened Trees

  type Files = map<Path, Entry>

  /** The entry without its time, if it is a directory. */
  function Timeless(e: Entry): (t: Entry) { if e.ftype == Dir then e.(mtime := 0) else e }

  /** The files without the directories' times. */
  function Still(f: Files): (g: Files) { map p | p in f :: Timeless(f[p]) }

  /** q is a directory above p, the root excluded. */
  predicate Over(q: Path, p: Path) { q != [] && Trees.Above(q, p) }

  ghost predicate ValidFiles(f: Files)
  {
    forall p :: p in f ==> p != [] && Canonical(f[p]) && DirsAbove(f, p)
  }

  ghost predicate DirsAbove(f: Files, p: Path)
  {
    forall k :: 0 < k < |p| ==> p[..k] in f && f[p[..k]].ftype == Dir
  }

  // ---- the file system's operations ----

  datatype Stat = Absent | NotADirectory | Is(e: Entry)

  /** A component of p below the root is there and is not a directory. */
  predicate UnderNonDir(f: Files, p: Path, link: bool)
  {
    exists k :: 0 < k < |p| && p[..k] in f && f[p[..k]].ftype != Dir && (f[p[..k]].ftype == Link <==> link)
  }

  function Lstat(f: Files, p: Path): (r: Stat)
  {
    if UnderNonDir(f, p, false) then NotADirectory
    else if UnderNonDir(f, p, true) || p !in f then Absent
    else Is(f[p])
  }

  datatype Checked = Fine | OverNonDir | Refused

  /** rejectSymlinkComponents: the components of p from the k-th upwards. */
  function Check(f: Files, p: Path, k: nat): (r: Checked)
    requires k <= |p|
    decreases k
  {
    if k == 0 then Fine
    else
      match Lstat(f, p[..k])
      case Absent => Check(f, p, k - 1)
      case NotADirectory => Refused
      case Is(e) => if e.ftype == Link then Refused else if e.ftype != Dir then OverNonDir else Check(f, p, k - 1)
  }

  function Target(f: Files, p: Path): (r: Checked)
  {
    if p == [] then Fine else Check(f, p, |p| - 1)
  }

  /** os.Remove: a directory goes only when it is empty. */
  function Remove(f: Files, p: Path): (r: Files)
  {
    if exists q :: q in f && Over(p, q) then f else f - {p}
  }

  function RemoveAll(f: Files, p: Path): (r: Files)
  {
    map q | q in f && q != p && !Over(p, q) :: f[q]
  }

  /** A directory as it is made before its own metadata is set. */
  function MadeDir(mode: nat): (e: Entry) { Entry(Dir, 0, mode, 0, 0) }

  const PARENT_MODE := 0x1ED
  const OWN_MODE := 0x1C0

  /** os.MkdirAll on the first k components of p. */
  function MkdirAll(f: Files, p: Path, k: nat): (r: Files)
    requires k <= |p|
  {
    if k == 0 then f
    else
      var g := MkdirAll(f, p, k - 1);
      if p[..k] in g then g else g[p[..k] := MadeDir(PARENT_MODE)]
  }

  // ---- applying ----

  datatype Outcome = Outcome(ok: bool, files: Files)

  /** One deletion: below something that is no directory there is nothing to delete. */
  function Delete(f: Files, p: Path): (r: Outcome)
  {
    match Target(f, p)
    case OverNonDir => Outcome(true, f)
    case Refused => Outcome(false, f)
    case Fine => Outcome(true, Remove(f, p))
  }

  function RunDels(f: Files, d: seq<Change>): (r: Outcome)
  {
    if d == [] then Outcome(true, f)
    else
      var before := RunDels(f, d[..|d| - 1]);
      if before.ok then Delete(before.files, d[|d| - 1].path) else before
  }

  predicate ChangesContent(k: Kind) { k != ModeChanged && k != MetaChanged }

  /** Writing an entry whose target is clear or of the right type; directories get theirs later. */
  function Write(f: Files, p: Path, k: Kind, e: Entry): (r: Outcome)
  {
    if e.ftype == Dir then Outcome(true, if p in f then f else f[p := MadeDir(OWN_MODE)])
    else if e.ftype == Sock then Outcome(true, f)
    else if ChangesContent(k) then Outcome(true, f[p := if e.ftype == Link then e.(mode := LINK_MODE) else e])
    else if p in f then Outcome(true, f[p := e.(content := f[p].content, mode := if e.ftype == Link then f[p].mode else e.mode)])
    else Outcome(false, f)
  }

  /** A change of bits or metadata leaves the content that is there, and needs something to be
      there; every other change brings its own. */
  lemma WriteMeans(f: Files, p: Path, k: Kind, e: Entry)
    requires e.ftype != Dir && e.ftype != Sock
    ensures k == ModeChanged || k == MetaChanged ==>
      (Write(f, p, k, e).ok <==> p in f) && (p in f ==> Write(f, p, k, e).files[p].content == f[p].content)
    ensures k == Added || k == Modified || k == TypeChanged ==>
      Write(f, p, k, e).ok && p in Write(f, p, k, e).files && Write(f, p, k, e).files[p].content == e.content
    ensures p in Write(f, p, k, e).files && Write(f, p, k, e).ok && e.ftype != Link ==>
      Write(f, p, k, e).files[p] == e.(content := Write(f, p, k, e).files[p].content)
    ensures forall q :: q != p ==> (q in Write(f, p, k, e).files <==> q in f) && (q in f ==> Write(f, p, k, e).files[q] == f[q])
  {
  }

  function Clear(f: Files, p: Path, e: Entry): (r: Files)
  {
    if p in f && f[p].ftype != e.ftype then RemoveAll(f, p) else f
  }

  function Put(f: Files, c: Change): (r: Outcome)
    requires c.after.Some? && c.path != []
  {
    if Target(f, c.path) != Fine then Outcome(false, f)
    else Write(Clear(MkdirAll(f, c.path, |c.path| - 1), c.path, c.after.value), c.path, c.kind, c.after.value)
  }

  predicate Puts(r: seq<Change>)
  {
    forall i :: 0 <= i < |r| ==> r[i].after.Some? && r[i].path != []
  }

  function RunRest(f: Files, r: seq<Change>): (o: Outcome)
    requires Puts(r)
  {
    if r == [] then Outcome(true, f)
    else
      var before := RunRest(f, r[..|r| - 1]);
      if before.ok then Put(before.files, r[|r| - 1]) else before
  }

  /** The metadata of the directories, last. */
  function SetDirs(f: Files, r: seq<Change>): (g: Files)
    requires Puts(r)
  {
    if r == [] then f
    else
      var n := |r| - 1;
      var g := SetDirs(f, r[..n]);
      if r[n].after.value.ftype == Dir then g[r[n].path := Timeless(r[n].after.value)] else g
  }

  function Run(f: Files, d: seq<Change>, r: seq<Change>): (o: Outcome)
    requires Puts(r)
  {
    var gone := RunDels(f, d);
    if !gone.ok then gone
    else
      var put := RunRest(gone.files, r);
      if put.ok then Outcome(true, SetDirs(put.files, r)) else put
  }

  // ---- the deletions ----

  ghost predicate DeepFirst(d: seq<Change>)
  {
    forall i, j :: 0 <= i < j < |d| ==> !Over(d[i].path, d[j].path)
  }

  ghost predicate ShallowFirst(r: seq<Change>)
  {
    forall i, j :: 0 <= i < j < |r| ==> !Over(r[j].path, r[i].path)
  }

  function Paths(d: seq<Change>): (s: set<Path>)
  {
    set i | 0 <= i < |d| :: d[i].path
  }

  /** Something below p is not among the deleted. */
  ghost predicate Kept(w: Files, dels: set<Path>, p: Path)
  {
    exists c :: c in w && Over(p, c) && c !in dels
  }

  /** What is left when the paths in done are handled: a deleted directory stays while
      something below it does. */
  ghost function Stage(w: Files, dels: set<Path>, done: set<Path>): (f: Files)
  {
    map p | p in w && (p !in done || Kept(w, dels, p)) :: w[p]
  }

  lemma OverThen(p: Path, q: Path, r: Path)
    requires Over(p, q) && Over(q, r)
    ensures Over(p, r)
  {
    assert r[..|q|][..|p|] == r[..|p|];
  }

  /** Where every component that is there is a directory, the target is fine. */
  lemma {:induction false} CheckFine(f: Files, p: Path, k: nat)
    requires k <= |p| && forall j :: 0 < j <= k && p[..j] in f ==> f[p[..j]].ftype == Dir
    ensures Check(f, p, k) == Fine
  {
    if k > 0 {
      var q := p[..k];
      forall j | 0 < j < |q| && q[..j] in f
        ensures f[q[..j]].ftype == Dir
      {
        assert q[..j] == p[..j];
      }
      CheckFine(f, p, k - 1);
    }
  }

  lemma DeleteStage(w: Files, dels: set<Path>, done: set<Path>, p: Path)
    requires ValidFiles(w) && p in w && p in dels && p !in done && done <= dels
    requires forall c :: c in dels && Over(p, c) ==> c in done
    ensures Delete(Stage(w, dels, done), p) == Outcome(true, Stage(w, dels, done + {p}))
  {
    var f := Stage(w, dels, done);
    assert DirsAbove(w, p);
    CheckFine(f, p, |p| - 1);
    if Kept(w, dels, p) {
      var c :| c in w && Over(p, c) && c !in dels;
      StageKeeps(w, dels, done, c);
      assert Stage(w, dels, done + {p}) == f;
    } else {
      forall q | q in f && Over(p, q)
        ensures false
      {
        if Kept(w, dels, q) {
          var c :| c in w && Over(q, c) && c !in dels;
          OverThen(p, q, c);
        }
      }
      assert Stage(w, dels, done + {p}) == f - {p};
    }
  }

  lemma StageKeeps(w: Files, dels: set<Path>, done: set<Path>, c: Path)
    requires c in w && c !in done
    ensures c in Stage(w, dels, done)
  {
  }

  lemma LastPath(d: seq<Change>)
    requires d != []
    ensures Paths(d) == Paths(d[..|d| - 1]) + {d[|d| - 1].path}
  {
    var n := |d| - 1;
    assert forall i :: 0 <= i < n ==> d[..n][i] == d[i];
  }

  /** When a deletion's turn comes, the deletions below it are done. */
  lemma BelowDone(d: seq<Change>, i: nat, c: Path)
    requires i < |d| && DeepFirst(d) && c in Paths(d) && Over(d[i].path, c)
    ensures c in Paths(d[..i])
  {
    var k :| 0 <= k < |d| && d[k].path == c;
    assert k < i;
    assert d[..i][k].path == c;
  }

  lemma {:induction false} DelsStage(w: Files, d: seq<Change>, i: nat)
    requires ValidFiles(w) && Paths(d) <= w.Keys && NoTwice(d) && DeepFirst(d) && i <= |d|
    ensures RunDels(w, d[..i]) == Outcome(true, Stage(w, Paths(d), Paths(d[..i])))
  {
    hide Delete, Stage, Over, ValidFiles;
    if i == 0 {
      assert d[..0] == [] && Paths([]) == {};
      StageNone(w, Paths(d));
    } else {
      var e, p := d[..i], d[i - 1].path;
      assert e[..i - 1] == d[..i - 1];
      DelsStage(w, d, i - 1);
      LastPath(e);
      PrefixPaths(d, i);
      NotYet(d, i - 1);
      hide NoTwice;
      forall c | c in Paths(d) && Over(p, c)
        ensures c in Paths(d[..i - 1])
      {
        BelowDone(d, i - 1, c);
      }
      DeleteStage(w, Paths(d), Paths(d[..i - 1]), p);
    }
  }

  lemma StageNone(w: Files, dels: set<Path>)
    ensures Stage(w, dels, {}) == w
  {
  }

  lemma PrefixPaths(d: seq<Change>, i: nat)
    requires 0 < i <= |d|
    ensures d[i - 1].path in Paths(d) && Paths(d[..i - 1]) <= Paths(d)
  {
    forall p | p in Paths(d[..i - 1])
      ensures p in Paths(d)
    {
      var k :| 0 <= k < i - 1 && d[..i - 1][k].path == p;
      assert d[k].path == p;
    }
  }

  /** Deletions of what is there, deepest first: exactly the deleted paths go, except directories
      with something left below. */
  lemma DelsRun(w: Files, d: seq<Change>)
    requires ValidFiles(w) && Paths(d) <= w.Keys && NoTwice(d) && DeepFirst(d)
    ensures RunDels(w, d) == Outcome(true, Stage(w, Paths(d), Paths(d)))
  {
    DelsStage(w, d, |d|);
    assert d[..|d|] == d;
  }

  // ---- the rest ----

  /** The entry the list r gives path p. */
  ghost predicate Gives(r: seq<Change>, p: Path, e: Entry)
  {
    exists i :: 0 <= i < |r| && r[i].path == p && r[i].after == Some(e)
  }

  /** A change can go over f, given what the others put above it. */
  ghost predicate CanPut(f: Files, r: seq<Change>, c: Change)
    requires c.after.Some?
  {
    && c.path != [] && Canonical(c.after.value) && c.after.value.ftype != Sock
    && (forall k :: 0 < k < |c.path| ==>
          if c.path[..k] in Paths(r) then exists e :: Gives(r, c.path[..k], e) && e.ftype == Dir
          else c.path[..k] in f && f[c.path[..k]].ftype == Dir)
    && (c.path in f && f[c.path].ftype != c.after.value.ftype ==> forall q :: q in f ==> !Over(c.path, q))
    && (!ChangesContent(c.kind) ==>
          c.path in f && f[c.path].ftype == c.after.value.ftype && f[c.path].content == c.after.value.content && Canonical(f[c.path]))
  }

  /** g is f with what r puts; directories may still lack their metadata. */
  ghost predicate PutOver(f: Files, r: seq<Change>, g: Files)
    requires Puts(r)
  {
    && (forall i :: 0 <= i < |r| ==>
          && r[i].path in g && g[r[i].path].ftype == r[i].after.value.ftype
          && (r[i].after.value.ftype != Dir ==> g[r[i].path] == r[i].after.value))
    && (forall p :: p !in Paths(r) ==> (p in g <==> p in f) && (p in f ==> g[p] == f[p]))
  }

  lemma {:induction false} MkdirNothing(g: Files, p: Path, k: nat)
    requires k <= |p| && forall j :: 0 < j <= k ==> p[..j] in g
    ensures MkdirAll(g, p, k) == g
  {
    if k > 0 { MkdirNothing(g, p, k - 1); }
  }

  /** Below the change being put, the directories are all there by now. */
  lemma DirsReady(f: Files, r: seq<Change>, i: nat, g: Files, k: nat)
    requires Puts(r) && i < |r| && NoTwice(r) && ShallowFirst(r) && CanPut(f, r, r[i]) && PutOver(f, r[..i], g)
    requires 0 < k < |r[i].path|
    ensures r[i].path[..k] in g && g[r[i].path[..k]].ftype == Dir
  {
    var p := r[i].path;
    var q := p[..k];
    if q in Paths(r) {
      var e :| Gives(r, q, e) && e.ftype == Dir;
      var j :| 0 <= j < |r| && r[j].path == q && r[j].after == Some(e);
      assert Over(q, p);
      assert r[..i][j] == r[j];
    } else {
      assert q !in Paths(r[..i]) by { PrefixPaths(r, i + 1); }
    }
  }

  lemma NothingBelow(f: Files, r: seq<Change>, i: nat, g: Files, q: Path)
    requires Puts(r) && i < |r| && NoTwice(r) && ShallowFirst(r) && PutOver(f, r[..i], g)
    requires (forall x :: x in f ==> !Over(r[i].path, x)) && q in g
    ensures !Over(r[i].path, q)
  {
    if q in Paths(r[..i]) {
      var j :| 0 <= j < i && r[..i][j].path == q;
      assert r[j].path == q;
    }
  }

  lemma NotYet(r: seq<Change>, i: nat)
    requires i < |r| && NoTwice(r)
    ensures r[i].path !in Paths(r[..i])
  {
  }

  lemma PutAgain(f: Files, r: seq<Change>, i: nat, g: Files, h: Files)
    requires Puts(r) && i < |r| && NoTwice(r) && PutOver(f, r[..i], g)
    requires r[i].path in h && h[r[i].path].ftype == r[i].after.value.ftype
    requires r[i].after.value.ftype != Dir ==> h[r[i].path] == r[i].after.value
    requires SameBut(g, h, r[i].path)
    ensures PutOver(f, r[..i + 1], h)
  {
    var s := r[..i + 1];
    assert s[..i] == r[..i];
    LastPath(s);
    forall j | 0 <= j < |s|
      ensures s[j].path in h && h[s[j].path].ftype == s[j].after.value.ftype
      ensures s[j].after.value.ftype != Dir ==> h[s[j].path] == s[j].after.value
    {
      if j < i { assert r[..i][j] == s[j]; }
    }
  }

  ghost predicate SameBut(g: Files, h: Files, p: Path)
  {
    forall q :: q != p ==> (q in h <==> q in g) && (q in g ==> h[q] == g[q])
  }

  /** Clearing the target takes nothing else. */
  lemma ClearsOnly(f: Files, r: seq<Change>, i: nat, g: Files)
    requires Puts(r) && i < |r| && NoTwice(r) && ShallowFirst(r) && CanPut(f, r, r[i]) && PutOver(f, r[..i], g)
    ensures SameBut(g, Clear(g, r[i].path, r[i].after.value), r[i].path)
  {
    var p, e := r[i].path, r[i].after.value;
    NotYet(r, i);
    if p in g && g[p].ftype != e.ftype {
      forall q | q in g
        ensures !Over(p, q)
      {
        NothingBelow(f, r, i, g, q);
      }
    }
  }

  lemma TargetReady(f: Files, r: seq<Change>, i: nat, g: Files)
    requires Puts(r) && i < |r| && NoTwice(r) && ShallowFirst(r) && CanPut(f, r, r[i]) && PutOver(f, r[..i], g)
    ensures Target(g, r[i].path) == Fine && MkdirAll(g, r[i].path, |r[i].path| - 1) == g
  {
    hide CanPut, PutOver, NoTwice, ShallowFirst, Puts, MkdirAll, Target, AllDirs;
    DirsAreReady(f, r, i, g);
    DirsSuffice(g, r[i].path);
  }

  ghost predicate AllDirs(g: Files, p: Path)
  {
    p != [] && forall k :: 0 < k < |p| ==> p[..k] in g && g[p[..k]].ftype == Dir
  }

  lemma DirsAreReady(f: Files, r: seq<Change>, i: nat, g: Files)
    requires Puts(r) && i < |r| && NoTwice(r) && ShallowFirst(r) && CanPut(f, r, r[i]) && PutOver(f, r[..i], g)
    ensures AllDirs(g, r[i].path)
  {
    forall k | 0 < k < |r[i].path|
      ensures r[i].path[..k] in g && g[r[i].path[..k]].ftype == Dir
    {
      DirsReady(f, r, i, g, k);
    }
    hide CanPut, PutOver, NoTwice, ShallowFirst;
  }

  lemma DirsSuffice(g: Files, p: Path)
    requires AllDirs(g, p)
    ensures Target(g, p) == Fine && MkdirAll(g, p, |p| - 1) == g
  {
    hide Check, MkdirAll;
    CheckFine(g, p, |p| - 1);
    MkdirNothing(g, p, |p| - 1);
  }

  /** Where the target is ready, a put is a write over what was cleared. */
  lemma PutIsWrite(g: Files, c: Change)
    requires c.after.Some? && c.path != [] && Target(g, c.path) == Fine && MkdirAll(g, c.path, |c.path| - 1) == g
    ensures Put(g, c) == Write(Clear(g, c.path, c.after.value), c.path, c.kind, c.after.value)
  {
    hide Write, Clear, Target, MkdirAll;
  }

  /** Writing puts the entry, up to a directory's metadata, and touches nothing else. */
  lemma WritePuts(h: Files, p: Path, k: Kind, e: Entry)
    requires Canonical(e) && e.ftype != Sock && (p in h ==> h[p].ftype == e.ftype)
    requires !ChangesContent(k) ==> p in h && h[p].content == e.content && Canonical(h[p])
    ensures Write(h, p, k, e).ok && SameBut(h, Write(h, p, k, e).files, p)
    ensures p in Write(h, p, k, e).files && Write(h, p, k, e).files[p].ftype == e.ftype
    ensures e.ftype != Dir ==> Write(h, p, k, e).files[p] == e
  {
  }

  lemma SameButTwice(f: Files, g: Files, h: Files, p: Path)
    requires SameBut(f, g, p) && SameBut(g, h, p)
    ensures SameBut(f, h, p)
  {
  }

  lemma PutStep(f: Files, r: seq<Change>, i: nat, g: Files)
    requires Puts(r) && i < |r| && NoTwice(r) && ShallowFirst(r) && CanPut(f, r, r[i]) && PutOver(f, r[..i], g)
    ensures Put(g, r[i]).ok && PutOver(f, r[..i + 1], Put(g, r[i]).files)
  {
    hide CanPut, PutOver, NoTwice, ShallowFirst, Put, Write, Clear, Target, MkdirAll, SameBut, Canonical;
    var c := r[i];
    var p, e := c.path, c.after.value;
    var h := Clear(g, p, e);
    TargetReady(f, r, i, g);
    PutIsWrite(g, c);
    ClearsOnly(f, r, i, g);
    ContentKept(f, r, i, g);
    ClearedType(g, p, e);
    CanPutEntry(f, r, c);
    WritePuts(h, p, c.kind, e);
    SameButTwice(g, h, Write(h, p, c.kind, e).files, p);
    PutAgain(f, r, i, g, Write(h, p, c.kind, e).files);
  }

  lemma CanPutEntry(f: Files, r: seq<Change>, c: Change)
    requires c.after.Some? && CanPut(f, r, c)
    ensures Canonical(c.after.value) && c.after.value.ftype != Sock
  {
  }

  lemma ClearedType(g: Files, p: Path, e: Entry)
    ensures p in Clear(g, p, e) ==> Clear(g, p, e)[p].ftype == e.ftype
  {
  }

  lemma ContentKept(f: Files, r: seq<Change>, i: nat, g: Files)
    requires Puts(r) && i < |r| && NoTwice(r) && CanPut(f, r, r[i]) && PutOver(f, r[..i], g)
    ensures !ChangesContent(r[i].kind) ==>
              var p, e := r[i].path, r[i].after.value;
              var h := Clear(g, p, e);
              p in h && h[p].content == e.content && Canonical(h[p]) && h[p].ftype == e.ftype
  {
    NotYet(r, i);
  }

  lemma NothingRun(f: Files, r: seq<Change>)
    ensures RunRest(f, r[..0]).ok && PutOver(f, r[..0], RunRest(f, r[..0]).files)
  {
    assert r[..0] == [];
  }

  lemma {:induction false} RestStage(f: Files, r: seq<Change>, i: nat)
    requires Puts(r) && NoTwice(r) && ShallowFirst(r) && i <= |r|
    requires forall j :: 0 <= j < i ==> CanPut(f, r, r[j])
    ensures RunRest(f, r[..i]).ok && PutOver(f, r[..i], RunRest(f, r[..i]).files)
  {
    hide Put, PutOver, CanPut, NoTwice, ShallowFirst, RunRest;
    if i == 0 {
      NothingRun(f, r);
    } else {
      RunRestMore(f, r, i - 1);
      RestStage(f, r, i - 1);
      PutStep(f, r, i - 1, RunRest(f, r[..i - 1]).files);
    }
  }

  /** f with the entries r gives. */
  ghost predicate Updated(f: Files, r: seq<Change>, g: Files)
    requires Puts(r)
  {
    && (forall i :: 0 <= i < |r| ==> r[i].path in g && g[r[i].path] == Timeless(r[i].after.value))
    && (forall p :: p !in Paths(r) ==> (p in g <==> p in f) && (p in f ==> g[p] == f[p]))
  }

  /** What g becomes at the path of the change c. */
  function Meta(g: Files, c: Change): (e: Entry)
    requires c.after.Some? && c.path in g
  {
    if c.after.value.ftype == Dir then Timeless(c.after.value) else g[c.path]
  }

  lemma SetDirsMore(g: Files, r: seq<Change>, i: nat)
    requires Puts(r) && i < |r|
    ensures SetDirs(g, r[..i + 1]) ==
            if r[i].after.value.ftype == Dir then SetDirs(g, r[..i])[r[i].path := Timeless(r[i].after.value)] else SetDirs(g, r[..i])
  {
    assert r[..i + 1][..i] == r[..i];
  }

  lemma {:induction false} DirsSet(g: Files, r: seq<Change>, i: nat)
    requires Puts(r) && NoTwice(r) && i <= |r| && forall j :: 0 <= j < |r| ==> r[j].path in g
    ensures SetDirs(g, r[..i]).Keys == g.Keys
    ensures forall p :: p in g && p !in Paths(r[..i]) ==> SetDirs(g, r[..i])[p] == g[p]
    ensures forall j :: 0 <= j < i ==> SetDirs(g, r[..i])[r[j].path] == Meta(g, r[j])
  {
    if i == 0 {
      assert r[..0] == [];
    } else {
      DirsSet(g, r, i - 1);
      SetDirsMore(g, r, i - 1);
      assert r[..i][..i - 1] == r[..i - 1];
      LastPath(r[..i]);
      NotYet(r, i - 1);
      hide SetDirs, Timeless;
    }
  }

  lemma RestRuns(f: Files, r: seq<Change>)
    requires Puts(r) && NoTwice(r) && ShallowFirst(r) && forall j :: 0 <= j < |r| ==> CanPut(f, r, r[j])
    ensures RunRest(f, r).ok && Updated(f, r, SetDirs(RunRest(f, r).files, r))
  {
    RestStage(f, r, |r|);
    assert r[..|r|] == r;
    var g := RunRest(f, r).files;
    DirsSet(g, r, |r|);
    var h := SetDirs(g, r);
    forall p | p !in Paths(r)
      ensures (p in h <==> p in f) && (p in f ==> h[p] == f[p])
    {
    }
  }

  // ---- the order of work ----

  const SLASH: Byte := 47

  /** A path as the string it is sorted by. */
  function Join(p: Path): (s: seq<Byte>)
  {
    if p == [] then [] else if |p| == 1 then p[0] else p[0] + [SLASH] + Join(p[1..])
  }

  lemma {:induction false} JoinSplit(p: Path, k: nat)
    requires 0 < k < |p|
    ensures Join(p) == Join(p[..k]) + ([SLASH] + Join(p[k..]))
  {
    if k == 1 {
      assert Join(p) == p[0] + [SLASH] + Join(p[1..]);
      assert p[0] + [SLASH] + Join(p[1..]) == p[0] + ([SLASH] + Join(p[1..]));
    } else {
      JoinSplit(p[1..], k - 1);
      assert p[1..][..k - 1] == p[..k][1..] && p[1..][k - 1..] == p[k..];
      var h, m, t := p[0] + [SLASH], Join(p[..k][1..]), [SLASH] + Join(p[k..]);
      assert Join(p[..k]) == h + m;
      assert h + (m + t) == (h + m) + t;
    }
  }

  /** A directory sorts before everything below it. */
  lemma OverSortsFirst(q: Path, p: Path)
    requires Over(q, p)
    ensures LexCompare(Join(q), Join(p)) < 0
  {
    JoinSplit(p, |q|);
    var t := [SLASH] + Join(p[|q|..]);
    LexPrefix(Join(q), [], t);
    assert Join(q) + [] == Join(q);
  }

  /** a may come before b: path order, or the reverse for deletions. */
  predicate MayPrecede(a: Change, b: Change, down: bool)
  {
    if down then LexCompare(Join(a.path), Join(b.path)) >= 0 else LexCompare(Join(a.path), Join(b.path)) <= 0
  }

  lemma PrecedeTotal(a: Change, b: Change, c: Change, down: bool)
    ensures MayPrecede(a, b, down) || MayPrecede(b, a, down)
    ensures MayPrecede(a, b, down) && MayPrecede(b, c, down) ==> MayPrecede(a, c, down)
  {
    var x, y, z := Join(a.path), Join(b.path), Join(c.path);
    LexFlip(x, y);
    LexFlip(y, z);
    LexFlip(x, z);
    hide LexCompare, Join;
    if LexCompare(x, y) <= 0 && LexCompare(y, z) <= 0 { LexTransitive(x, y, z); }
    if LexCompare(z, y) <= 0 && LexCompare(y, x) <= 0 { LexTransitive(z, y, x); }
  }

  ghost predicate Sorted(cs: seq<Change>, down: bool)
  {
    forall i, j :: 0 <= i < j < |cs| ==> MayPrecede(cs[i], cs[j], down)
  }

  method SortChanges(cs: seq<Change>, down: bool) returns (out: seq<Change>)
    ensures Sorted(out, down) && multiset(out) == multiset(cs)
  {
    out := [];
    var n := 0;
    while n < |cs|
      invariant n <= |cs| && Sorted(out, down) && multiset(out) == multiset(cs[..n])
    {
      assert cs[..n + 1] == cs[..n] + [cs[n]];
      out := InsertChange(out, cs[n], down);
      n := n + 1;
    }
    assert cs[..n] == cs;
  }

  /** Where c goes: after the last change that may come before it. */
  method FindSlot(s: seq<Change>, c: Change, down: bool) returns (i: nat)
    ensures i <= |s| && (i > 0 ==> MayPrecede(s[i - 1], c, down)) && forall k :: i <= k < |s| ==> MayPrecede(c, s[k], down)
  {
    hide MayPrecede;
    i := |s|;
    while i > 0 && !MayPrecede(s[i - 1], c, down)
      invariant 0 <= i <= |s| && forall k :: i <= k < |s| ==> MayPrecede(c, s[k], down)
    {
      PrecedeTotal(s[i - 1], c, c, down);
      i := i - 1;
    }
  }

  lemma AllPrecede(s: seq<Change>, c: Change, i: nat, j: nat, down: bool)
    requires Sorted(s, down) && j < i <= |s| && MayPrecede(s[i - 1], c, down)
    ensures MayPrecede(s[j], c, down)
  {
    hide MayPrecede;
    if j < i - 1 { PrecedeTotal(s[j], s[i - 1], c, down); }
  }

  lemma InsertedSorted(s: seq<Change>, c: Change, i: nat, down: bool)
    requires Sorted(s, down) && i <= |s| && (i > 0 ==> MayPrecede(s[i - 1], c, down))
    requires forall k :: i <= k < |s| ==> MayPrecede(c, s[k], down)
    ensures Sorted(s[..i] + [c] + s[i..], down)
  {
    hide MayPrecede;
    var t := s[..i] + [c] + s[i..];
    forall j, k | 0 <= j < k < |t|
      ensures MayPrecede(t[j], t[k], down)
    {
      if j < i && k == i {
        AllPrecede(s, c, i, j, down);
      }
    }
  }

  method InsertChange(s: seq<Change>, c: Change, down: bool) returns (t: seq<Change>)
    requires Sorted(s, down)
    ensures Sorted(t, down) && multiset(t) == multiset(s) + multiset{c}
  {
    hide MayPrecede, Sorted;
    var i := FindSlot(s, c, down);
    t := s[..i] + [c] + s[i..];
    assert s == s[..i] + s[i..];
    InsertedSorted(s, c, i, down);
  }

  lemma SortedDeepFirst(d: seq<Change>)
    requires Sorted(d, true)
    ensures DeepFirst(d)
  {
    forall i, j | 0 <= i < j < |d|
      ensures !Over(d[i].path, d[j].path)
    {
      assert MayPrecede(d[i], d[j], true);
      if Over(d[i].path, d[j].path) { OverSortsFirst(d[i].path, d[j].path); }
    }
  }

  lemma SortedShallowFirst(r: seq<Change>)
    requires Sorted(r, false)
    ensures ShallowFirst(r)
  {
    forall i, j | 0 <= i < j < |r|
      ensures !Over(r[j].path, r[i].path)
    {
      assert MayPrecede(r[i], r[j], false);
      if Over(r[j].path, r[i].path) {
        OverSortsFirst(r[j].path, r[i].path);
        LexFlip(Join(r[i].path), Join(r[j].path));
      }
    }
  }

  const DOT: Byte := 46

  predicate SafeName(n: Name) { n != [] && n != [DOT] && n != [DOT, DOT] }

  /** checkPath */
  predicate SafePath(p: Path) { p != [] && forall i :: 0 <= i < |p| ==> SafeName(p[i]) }

  /** What is refused: an empty path, and a path with an empty part or one that stays or goes up. */
  lemma UnsafeIff(p: Path)
    ensures !SafePath(p) <==> p == [] || exists i :: 0 <= i < |p| && (|p[i]| == 0 || p[i] == [46] || p[i] == [46, 46])
  {
  }

  // ---- the code ----

  lemma {:induction false} RunDelsMore(f: Files, d: seq<Change>, i: nat)
    requires i < |d|
    ensures RunDels(f, d[..i + 1]) ==
            if RunDels(f, d[..i]).ok then Delete(RunDels(f, d[..i]).files, d[i].path) else RunDels(f, d[..i])
  {
    assert d[..i + 1][..i] == d[..i];
  }

  lemma {:induction false} RunDelsFails(f: Files, d: seq<Change>, i: nat)
    requires i <= |d| && !RunDels(f, d[..i]).ok
    ensures RunDels(f, d) == RunDels(f, d[..i])
    decreases |d| - i
  {
    if i == |d| {
      assert d[..i] == d;
    } else {
      RunDelsMore(f, d, i);
      RunDelsFails(f, d, i + 1);
    }
  }

  lemma {:induction false} RunRestMore(f: Files, r: seq<Change>, i: nat)
    requires Puts(r) && i < |r|
    ensures RunRest(f, r[..i + 1]) ==
            if RunRest(f, r[..i]).ok then Put(RunRest(f, r[..i]).files, r[i]) else RunRest(f, r[..i])
  {
    assert r[..i + 1][..i] == r[..i];
  }

  lemma {:induction false} RunRestFails(f: Files, r: seq<Change>, i: nat)
    requires Puts(r) && i <= |r| && !RunRest(f, r[..i]).ok
    ensures RunRest(f, r) == RunRest(f, r[..i])
    decreases |r| - i
  {
    if i == |r| {
      assert r[..i] == r;
    } else {
      RunRestMore(f, r, i);
      RunRestFails(f, r, i + 1);
    }
  }

  // ---- directory times ----

  /** The directory that p is in gets the time now. */
  function Touch(f: Files, p: Path, now: nat): (g: Files)
  {
    if |p| < 2 then f
    else
      var q := p[..|p| - 1];
      if q in f && f[q].ftype == Dir then f[q := f[q].(mtime := now)] else f
  }

  lemma TouchIsStill(f: Files, p: Path, now: nat)
    ensures Still(Touch(f, p, now)) == Still(f)
  {
  }

  /** A name is put into or taken out of its directory. */
  function PutName(f: Files, p: Path, e: Entry, now: nat): (g: Files) { Touch(f[p := e], p, now) }

  function DropName(f: Files, p: Path, now: nat): (g: Files)
  {
    if p in f && !exists q :: q in f && Over(p, q) then Touch(f - {p}, p, now) else f
  }

  function DropAll(f: Files, p: Path, now: nat): (g: Files) { Touch(RemoveAll(f, p), p, now) }

  function MakeDirs(f: Files, p: Path, k: nat, now: nat): (g: Files)
    requires k <= |p|
  {
    if k == 0 then f
    else
      var g := MakeDirs(f, p, k - 1, now);
      if p[..k] in g then g else PutName(g, p[..k], MadeDir(PARENT_MODE).(mtime := now), now)
  }

  lemma PutNameIsStill(f: Files, p: Path, e: Entry, now: nat)
    ensures Still(PutName(f, p, e, now)) == Still(f)[p := Timeless(e)]
  {
    TouchIsStill(f[p := e], p, now);
    assert Still(f[p := e]) == Still(f)[p := Timeless(e)];
  }

  lemma DropNameIsStill(f: Files, p: Path, now: nat)
    ensures Still(DropName(f, p, now)) == Remove(Still(f), p)
  {
    TouchIsStill(f - {p}, p, now);
    assert Still(f - {p}) == Still(f) - {p};
    assert (exists q :: q in f && Over(p, q)) <==> exists q :: q in Still(f) && Over(p, q);
    if p !in f { assert Still(f) - {p} == Still(f); }
  }

  lemma DropAllIsStill(f: Files, p: Path, now: nat)
    ensures Still(DropAll(f, p, now)) == RemoveAll(Still(f), p)
  {
    TouchIsStill(RemoveAll(f, p), p, now);
    assert Still(RemoveAll(f, p)) == RemoveAll(Still(f), p);
  }

  lemma {:induction false} MakeDirsIsStill(f: Files, p: Path, k: nat, now: nat)
    requires k <= |p|
    ensures Still(MakeDirs(f, p, k, now)) == MkdirAll(Still(f), p, k)
  {
    if k > 0 {
      MakeDirsIsStill(f, p, k - 1, now);
      PutNameIsStill(MakeDirs(f, p, k - 1, now), p[..k], MadeDir(PARENT_MODE).(mtime := now), now);
    }
  }

  /** What is above a path does not depend on times. */
  lemma {:induction false} CheckIsStill(f: Files, p: Path, k: nat)
    requires k <= |p|
    ensures Check(Still(f), p, k) == Check(f, p, k)
  {
    if k > 0 {
      CheckIsStill(f, p, k - 1);
      var q := p[..k];
      assert forall link :: UnderNonDir(Still(f), q, link) == UnderNonDir(f, q, link);
    }
  }

  class WorkDir {
    var files: Files

    constructor (files: Files)
      ensures this.files == files
    {
      this.files := files;
    }

    /** rejectSymlinkComponents: from the parent up to the root. */
    method RejectComponents(p: Path) returns (r: Checked)
      ensures r == Target(Still(files), p)
    {
      if p == [] {
        return Fine;
      }
      CheckIsStill(files, p, |p| - 1);
      var k := |p| - 1;
      while k > 0
        invariant 0 <= k < |p| && Check(files, p, |p| - 1) == Check(files, p, k)
      {
        match Lstat(files, p[..k]) {
          case Absent =>
          case NotADirectory => return Refused;
          case Is(e) =>
            if e.ftype == Link {
              return Refused;
            }
            if e.ftype != Dir {
              return OverNonDir;
            }
        }
        k := k - 1;
      }
      return Fine;
    }

    method DeleteAll(d: seq<Change>) returns (ok: bool)
      modifies this
      ensures Outcome(ok, Still(files)) == RunDels(Still(old(files)), d)
    {
      ghost var f := Still(files);
      var i := 0;
      while i < |d|
        invariant i <= |d| && Outcome(true, Still(files)) == RunDels(f, d[..i])
      {
        RunDelsMore(f, d, i);
        var t := RejectComponents(d[i].path);
        if t == Refused {
          RunDelsFails(f, d, i + 1);
          return false;
        }
        if t == Fine {
          var now: nat := *;
          DropNameIsStill(files, d[i].path, now);
          files := DropName(files, d[i].path, now);
        }
        i := i + 1;
      }
      assert d[..i] == d;
      return true;
    }

    /** clearTarget and the write of one entry. */
    method WriteOne(p: Path, k: Kind, e: Entry) returns (ok: bool)
      modifies this
      ensures Outcome(ok, Still(files)) == Write(Clear(Still(old(files)), p, e), p, k, e)
    {
      var now: nat := *;
      if p in files && files[p].ftype != e.ftype {
        DropAllIsStill(files, p, now);
        files := DropAll(files, p, now);
      }
      if e.ftype == Dir {
        if p !in files {
          PutNameIsStill(files, p, MadeDir(OWN_MODE).(mtime := now), now);
          files := PutName(files, p, MadeDir(OWN_MODE).(mtime := now), now);
        }
      } else if e.ftype == Sock {
      } else if ChangesContent(k) {
        var x := if e.ftype == Link then e.(mode := LINK_MODE) else e;
        PutNameIsStill(files, p, x, now);
        files := PutName(files, p, x, now);
      } else if p in files {
        var x := e.(content := files[p].content, mode := if e.ftype == Link then files[p].mode else e.mode);
        assert Still(files[p := x]) == Still(files)[p := x];
        files := files[p := x];
      } else {
        return false;
      }
      return true;
    }

    method PutOne(c: Change) returns (ok: bool)
      requires c.after.Some? && c.path != []
      modifies this
      ensures Outcome(ok, Still(files)) == Put(Still(old(files)), c)
    {
      var t := RejectComponents(c.path);
      if t != Fine {
        return false;
      }
      var now: nat := *;
      MakeDirsIsStill(files, c.path, |c.path| - 1, now);
      files := MakeDirs(files, c.path, |c.path| - 1, now);
      ok := WriteOne(c.path, c.kind, c.after.value);
    }

    method PutAll(r: seq<Change>) returns (ok: bool)
      requires Puts(r)
      modifies this
      ensures Outcome(ok, Still(files)) == RunRest(Still(old(files)), r)
    {
      ghost var f := Still(files);
      var i := 0;
      while i < |r|
        invariant i <= |r| && Outcome(true, Still(files)) == RunRest(f, r[..i])
      {
        RunRestMore(f, r, i);
        ok := PutOne(r[i]);
        if !ok {
          RunRestFails(f, r, i + 1);
          return false;
        }
        i := i + 1;
      }
      assert r[..i] == r;
      return true;
    }

    /** The directories that changed get their metadata, time included. */
    method SetDirMeta(r: seq<Change>)
      requires Puts(r)
      modifies this
      ensures Still(files) == SetDirs(Still(old(files)), r)
      ensures NoTwice(r) ==> forall c :: c in r && c.after.value.ftype == Dir ==> c.path in files && files[c.path] == c.after.value
    {
      ghost var f := Still(files);
      var i := 0;
      while i < |r|
        invariant i <= |r| && Still(files) == SetDirs(f, r[..i])
        invariant NoTwice(r) ==> forall k :: 0 <= k < i && r[k].after.value.ftype == Dir ==>
                                   r[k].path in files && files[r[k].path] == r[k].after.value
      {
        ghost var more := r[..i + 1];
        assert more[..i] == r[..i] && more[i] == r[i];
        if r[i].after.value.ftype == Dir {
          var x := r[i].after.value;
          assert Still(files[r[i].path := x]) == Still(files)[r[i].path := Timeless(x)];
          files := files[r[i].path := x];
        }
        i := i + 1;
      }
      assert r[..i] == r;
    }

    /** Apply: an unsafe path refuses the whole list; else deletions deepest first, the rest in
        path order, directory metadata last. */
    method Apply(changes: seq<Change>) returns (ok: bool, ghost d: seq<Change>, ghost r: seq<Change>)
      requires forall c :: c in changes ==> KindFits(c.kind, c.before, c.after)
      modifies this
      ensures (exists c :: c in changes && !SafePath(c.path)) ==> !ok && files == old(files)
      ensures (forall c :: c in changes ==> SafePath(c.path)) ==>
                && multiset(d) + multiset(r) == multiset(changes) && DeepFirst(d) && ShallowFirst(r) && Puts(r)
                && (forall c :: c in d ==> c.kind == Deleted) && (forall c :: c in r ==> c.kind != Deleted)
                && Outcome(ok, Still(files)) == Run(Still(old(files)), d, r)
                && (ok && NoTwice(r) ==> forall c :: c in r && c.after.value.ftype == Dir ==> c.path in files && files[c.path] == c.after.value)
    {
      d, r := [], [];
      var i := 0;
      while i < |changes|
        invariant i <= |changes| && forall k :: 0 <= k < i ==> SafePath(changes[k].path)
      {
        if !SafePath(changes[i].path) {
          return false, d, r;
        }
        i := i + 1;
      }
      var dels, rest := SplitDeleted(changes);
      dels := SortChanges(dels, true);
      rest := SortChanges(rest, false);
      SortedDeepFirst(dels);
      SortedShallowFirst(rest);
      d, r := dels, rest;
      forall k | 0 <= k < |rest|
        ensures rest[k].after.Some? && rest[k].path != []
      {
        assert rest[k] in multiset(rest);
      }
      assert forall c :: c in dels ==> c in multiset(dels);
      assert forall c :: c in rest ==> c in multiset(rest);
      hide RunDels, RunRest, SetDirs;
      ok := DeleteAll(dels);
      if !ok {
        return false, d, r;
      }
      ok := PutAll(rest);
      if !ok {
        return false, d, r;
      }
      SetDirMeta(rest);
    }
  }

  method SplitDeleted(changes: seq<Change>) returns (dels: seq<Change>, rest: seq<Change>)
    ensures multiset(dels) + multiset(rest) == multiset(changes)
    ensures forall c :: c in multiset(dels) ==> c in changes && c.kind == Deleted
    ensures forall c :: c in multiset(rest) ==> c in changes && c.kind != Deleted
  {
    dels, rest := [], [];
    var i := 0;
    while i < |changes|
      invariant i <= |changes| && multiset(dels) + multiset(rest) == multiset(changes[..i])
      invariant forall c :: c in multiset(dels) ==> c in changes && c.kind == Deleted
      invariant forall c :: c in multiset(rest) ==> c in changes && c.kind != Deleted
    {
      assert changes[..i + 1] == changes[..i] + [changes[i]];
      if changes[i].kind == Deleted {
        dels := dels + [changes[i]];
      } else {
        rest := rest + [changes[i]];
      }
      i := i + 1;
    }
    assert changes[..i] == changes;
  }
}
