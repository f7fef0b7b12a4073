/** The three-way merge of two differences from one base (worktree/merge.go), and what applying
    its result does. */
module Merge {

  import opened Ballots
  import opened Options
  import opened Trees
  import opened Apply

  function Get(f: Files, p: Path): (e: Option<Entry>) { if p in f then Some(f[p]) else None }

  /** The entry up to a directory's time. */
  function Plain(e: Option<Entry>): (t: Option<Entry>) { if e.Some? then Some(Timeless(e.value)) else None }

  /** One change for each path whose entry differs between f and g, and no other. */
  ghost predicate Between(out: seq<Change>, f: Files, g: Files)
  {
    && (forall i :: 0 <= i < |out| ==>
          && out[i].before == Get(f, out[i].path) && out[i].after == Get(g, out[i].path)
          && KindFits(out[i].kind, out[i].before, out[i].after))
    && (forall p :: Get(f, p) != Get(g, p) ==> HasChange(out, p))
    && NoTwice(out)
  }

  // ---- the rules ----

  datatype Verdict = Take | Drop | Clash

  predicate IsDir(e: Option<Entry>) { e.Some? && e.value.ftype == Dir }

  predicate Fits(c: Change) { KindFits(c.kind, c.before, c.after) }

  predicate Gone(c: Change) { c.kind == Deleted || (c.kind == TypeChanged && IsDir(c.before)) }

  /** A local change deleted or retyped a directory above p. */
  predicate GoneAbove(m: map<Path, Change>, p: Path)
  {
    exists k :: 0 < k < |p| && p[..k] in m && Gone(m[p[..k]])
  }

  /** A local change lies strictly below p. */
  predicate AnyBelow(m: map<Path, Change>, p: Path)
  {
    exists q :: q in m && Trees.Above(p, q)
  }

  function Decide(m: map<Path, Change>, c: Change): (v: Verdict)
  {
    if c.path in m then
      var l := m[c.path];
      if l.kind == MetaChanged then Take
      else if l.kind == Deleted && c.kind == Deleted then Drop
      else if l.kind == Deleted || c.kind == Deleted then Clash
      else if l.after.Some? && c.after.Some? && Equivalent(l.after.value, c.after.value) then Take
      else Clash
    else if GoneAbove(m, c.path) then if c.kind != Deleted then Clash else Drop
    else if c.kind == TypeChanged && IsDir(c.before) && AnyBelow(m, c.path) then Clash
    else Take
  }

  function ByPath(local: seq<Change>): (m: map<Path, Change>)
    ensures forall p :: p in m <==> p in Paths(local)
    ensures forall p :: p in m ==> m[p] in local && m[p].path == p
  {
    if local == [] then map[]
    else
      var n := |local| - 1;
      LastPath(local);
      assert local == local[..n] + [local[n]];
      ByPath(local[..n])[local[n].path := local[n]]
  }

  // ---- what local says ----

  /** Where there is no local change the working entry is the base's, else the change has both. */
  lemma LocalAt(local: seq<Change>, b: Files, w: Files, p: Path)
    requires Between(local, b, w)
    ensures p !in ByPath(local) ==> Get(w, p) == Get(b, p)
    ensures p in ByPath(local) ==>
              var l := ByPath(local)[p];
              l.path == p && l.before == Get(b, p) && l.after == Get(w, p) && KindFits(l.kind, l.before, l.after)
  {
    if p in ByPath(local) {
      var l := ByPath(local)[p];
      var i :| 0 <= i < |local| && local[i] == l;
    }
  }

  lemma ValidAbove(f: Files, q: Path, p: Path)
    requires ValidFiles(f) && p in f && Over(q, p)
    ensures q in f && f[q].ftype == Dir
  {
    assert DirsAbove(f, p);
    assert q == p[..|q|];
  }

  lemma StillIsValid(f: Files)
    requires ValidFiles(f)
    ensures ValidFiles(Still(f))
  {
    forall p | p in f
      ensures DirsAbove(Still(f), p)
    {
      assert DirsAbove(f, p);
    }
  }

  ghost predicate DirAt(f: Files, p: Path) { p in f && f[p].ftype == Dir }

  /** A directory that is there was neither deleted nor retyped. */
  lemma DirNotGone(local: seq<Change>, b: Files, w: Files, q: Path)
    requires Between(local, b, w) && DirAt(w, q)
    ensures q in ByPath(local) ==> !Gone(ByPath(local)[q])
  {
    LocalAt(local, b, w, q);
    hide Between, ByPath;
  }

  /** Above a path that is there nothing is gone. */
  lemma PresentNotGone(local: seq<Change>, b: Files, w: Files, p: Path)
    requires Between(local, b, w) && ValidFiles(w) && p in w
    ensures !GoneAbove(ByPath(local), p)
  {
    assert DirsAbove(w, p);
    hide Between, ByPath, ValidFiles, Gone;
    forall k | 0 < k < |p| && p[..k] in ByPath(local)
      ensures !Gone(ByPath(local)[p[..k]])
    {
      DirNotGone(local, b, w, p[..k]);
    }
  }

  // ---- the merge's outcome ----

  /** Everything merging starts from: base, remote and working directory, and the differences. */
  datatype Case = Case(base: Files, remote: Files, work: Files, local: seq<Change>, incoming: seq<Change>)

  ghost predicate GoodCase(s: Case)
  {
    && ValidFiles(s.base) && ValidFiles(s.remote) && ValidFiles(s.work)
    && Between(s.local, s.base, s.work) && Between(s.incoming, s.base, s.remote)
    && forall p :: p in s.remote ==> s.remote[p].ftype != Sock
  }

  ghost predicate NoConflict(s: Case)
  {
    forall i :: 0 <= i < |s.incoming| ==> Decide(ByPath(s.local), s.incoming[i]) != Clash
  }

  /** Only owner, attributes or time differ. */
  ghost predicate OnlyMeta(b: Option<Entry>, w: Option<Entry>)
  {
    b.Some? && w.Some? && b.value.ftype == w.value.ftype && b.value.content == w.value.content && b.value.mode == w.value.mode
  }

  /** A directory above p was deleted or retyped locally. */
  ghost predicate LostAbove(s: Case, p: Path)
  {
    exists k :: 0 < k < |p| && p[..k] in s.base
      && (p[..k] !in s.work || (s.base[p[..k]].ftype == Dir && s.work[p[..k]].ftype != Dir))
  }

  /** Something below p was changed locally. */
  ghost predicate ChangedBelow(s: Case, p: Path)
  {
    exists q :: Trees.Above(p, q) && Get(s.base, q) != Get(s.work, q)
  }

  lemma ChangedIff(s: Case, p: Path)
    requires GoodCase(s)
    ensures p in ByPath(s.local) <==> Get(s.base, p) != Get(s.work, p)
  {
    LocalAt(s.local, s.base, s.work, p);
    if p in ByPath(s.local) && p in s.base && p in s.work { CompareNoneIffEqual(s.base[p], s.work[p]); }
  }

  lemma LostIff(s: Case, p: Path)
    requires GoodCase(s)
    ensures GoneAbove(ByPath(s.local), p) <==> LostAbove(s, p)
  {
    forall k | 0 < k < |p|
      ensures p[..k] in ByPath(s.local) && Gone(ByPath(s.local)[p[..k]]) <==>
        p[..k] in s.base && (p[..k] !in s.work || (s.base[p[..k]].ftype == Dir && s.work[p[..k]].ftype != Dir))
    {
      LostIffAt(s, p[..k]);
    }
  }

  lemma LostIffAt(s: Case, q: Path)
    requires GoodCase(s)
    ensures q in ByPath(s.local) && Gone(ByPath(s.local)[q]) <==>
      q in s.base && (q !in s.work || (s.base[q].ftype == Dir && s.work[q].ftype != Dir))
  {
    ChangedIff(s, q);
    LocalAt(s.local, s.base, s.work, q);
    if q in s.base && q in s.work { CompareMeans(s.base[q], s.work[q]); }
  }

  lemma BelowIff(s: Case, p: Path)
    requires GoodCase(s)
    ensures AnyBelow(ByPath(s.local), p) <==> ChangedBelow(s, p)
  {
    hide GoodCase, ByPath;
    forall q ensures q in ByPath(s.local) <==> Get(s.base, q) != Get(s.work, q) {
      ChangedIff(s, q);
    }
  }

  ghost predicate CanonicalOr(e: Option<Entry>) { e.Some? ==> Canonical(e.value) }

  lemma IncomingIs(s: Case, c: Change)
    requires GoodCase(s) && c in s.incoming
    ensures c.before == Get(s.base, c.path) && c.after == Get(s.remote, c.path) && Fits(c)
    ensures CanonicalOr(Get(s.base, c.path)) && CanonicalOr(Get(s.work, c.path)) && CanonicalOr(Get(s.remote, c.path))
  {
    var i :| 0 <= i < |s.incoming| && s.incoming[i] == c;
  }

  lemma DecideHere(m: map<Path, Change>, c: Change, b: Option<Entry>, w: Option<Entry>, r: Option<Entry>)
    requires c.path in m && m[c.path].after == w && KindFits(m[c.path].kind, b, w) && c.after == r && KindFits(c.kind, b, r)
    requires CanonicalOr(b) && CanonicalOr(w) && CanonicalOr(r)
    ensures Decide(m, c) == Clash <==> !OnlyMeta(b, w) && !OnlyMeta(w, r) && !(w.None? && r.None?)
    ensures Decide(m, c) == Drop <==> w.None? && r.None?
  {
    if b.Some? && w.Some? { CompareMeans(b.value, w.value); }
    if b.Some? && r.Some? { CompareMeans(b.value, r.value); }
    if w.Some? && r.Some? { EquivalentMeans(w.value, r.value); }
    hide Equivalent, Compare, Canonical, GoneAbove, AnyBelow;
  }

  lemma DecideThere(m: map<Path, Change>, c: Change, b: Option<Entry>, r: Option<Entry>)
    requires c.path !in m && c.before == b && c.after == r && KindFits(c.kind, b, r) && CanonicalOr(b) && CanonicalOr(r)
    ensures Decide(m, c) == Clash <==>
      || (r.Some? && GoneAbove(m, c.path))
      || (r.Some? && b.Some? && b.value.ftype == Dir && r.value.ftype != Dir && AnyBelow(m, c.path))
    ensures Decide(m, c) == Drop <==> r.None? && GoneAbove(m, c.path)
  {
    if b.Some? && r.Some? { CompareMeans(b.value, r.value); }
    hide Equivalent, Compare, Canonical, GoneAbove, AnyBelow;
  }

  /** When an incoming change conflicts, told from the three trees alone.  Where the path changed on
      both sides: neither the same deletion, nor only metadata here, nor the same edit.  Where it
      changed there only: what it brings lies below a directory lost here, or it replaces a
      directory with something changed below. */
  lemma ConflictIff(s: Case, c: Change)
    requires GoodCase(s) && c in s.incoming
    ensures var b, w, r := Get(s.base, c.path), Get(s.work, c.path), Get(s.remote, c.path);
      Decide(ByPath(s.local), c) == Clash <==>
        if w != b then !OnlyMeta(b, w) && !OnlyMeta(w, r) && !(w.None? && r.None?)
        else || (r.Some? && LostAbove(s, c.path))
             || (r.Some? && b.Some? && b.value.ftype == Dir && r.value.ftype != Dir && ChangedBelow(s, c.path))
    ensures var b, w, r := Get(s.base, c.path), Get(s.work, c.path), Get(s.remote, c.path);
      Decide(ByPath(s.local), c) == Drop <==> r.None? && if w != b then w.None? else LostAbove(s, c.path)
  {
    var p := c.path;
    IncomingIs(s, c);
    ChangedIff(s, p);
    LostIff(s, p);
    BelowIff(s, p);
    var b, w, r := Get(s.base, p), Get(s.work, p), Get(s.remote, p);
    if w != b {
      LocalAt(s.local, s.base, s.work, p);
      DecideHere(ByPath(s.local), c, b, w, r);
    } else {
      DecideThere(ByPath(s.local), c, b, r);
    }
    hide GoodCase, ByPath, GoneAbove, AnyBelow, LostAbove, ChangedBelow, Decide, OnlyMeta;
  }

  lemma EquivalentMeans(a: Entry, b: Entry)
    requires Canonical(a) && Canonical(b)
    ensures Equivalent(a, b) <==> OnlyMeta(Some(a), Some(b))
  {
  }

  /** x was added locally below p. */
  ghost predicate AddedBelow(s: Case, p: Path, x: Path)
  {
    x in s.work && x !in s.base && Over(p, x)
  }

  /** The incoming change c retypes a directory whose only local change is to its metadata, and
      x was added locally below it. */
  ghost predicate Endangers(s: Case, c: Change, x: Path)
  {
    && c.kind == TypeChanged && IsDir(c.before)
    && c.path in ByPath(s.local) && ByPath(s.local)[c.path].kind == MetaChanged
    && AddedBelow(s, c.path, x)
  }

  ghost predicate Harmless(s: Case, c: Change) { forall x :: !Endangers(s, c, x) }

  ghost predicate NothingEndangered(s: Case)
  {
    forall c :: c in s.incoming ==> Harmless(s, c)
  }

  /** The remote's entry where the remote changed the path, the working entry elsewhere; a
      directory the remote deleted stays while something added locally is below it. */
  ghost function Expected(s: Case, p: Path): (e: Option<Entry>)
  {
    if Get(s.base, p) == Get(s.remote, p) then Get(s.work, p)
    else if p in s.remote then Some(s.remote[p])
    else if exists x :: AddedBelow(s, p, x) then Get(s.work, p)
    else None
  }

  /** d and r are the taken changes, deletions and the rest, each in the applier's order. */
  ghost predicate Taken(s: Case, d: seq<Change>, r: seq<Change>)
  {
    && (forall c :: c in d <==> c in s.incoming && Decide(ByPath(s.local), c) == Take && c.kind == Deleted)
    && (forall c :: c in r <==> c in s.incoming && Decide(ByPath(s.local), c) == Take && c.kind != Deleted)
    && NoTwice(d) && NoTwice(r) && DeepFirst(d) && ShallowFirst(r)
  }

  lemma IncomingAt(s: Case, p: Path) returns (i: nat)
    requires GoodCase(s) && Get(s.base, p) != Get(s.remote, p)
    ensures i < |s.incoming| && s.incoming[i].path == p
    ensures s.incoming[i].before == Get(s.base, p) && s.incoming[i].after == Get(s.remote, p) && Fits(s.incoming[i])
  {
    assert HasChange(s.incoming, p);
    i :| 0 <= i < |s.incoming| && s.incoming[i].path == p;
  }

  lemma InList(d: seq<Change>, c: Change)
    requires c in d
    ensures c.path in Paths(d)
  {
    var i :| 0 <= i < |d| && d[i] == c;
    assert d[i].path in Paths(d);
  }

  /** The taken changes tell what the remote did. */
  lemma TakenIsIncoming(s: Case, c: Change)
    requires GoodCase(s) && c in s.incoming
    ensures c.before == Get(s.base, c.path) && c.after == Get(s.remote, c.path) && Fits(c)
    ensures c.before != c.after
  {
    var i :| 0 <= i < |s.incoming| && s.incoming[i] == c;
  }

  /** A remote deletion of a path that is there is taken. */
  lemma DeletionTaken(s: Case, d: seq<Change>, r: seq<Change>, x: Path)
    requires GoodCase(s) && NoConflict(s) && Taken(s, d, r)
    requires x in s.work && x in s.base && x !in s.remote
    ensures x in Paths(d)
  {
    var i := IncomingAt(s, x);
    var c := s.incoming[i];
    assert c in s.incoming && c.kind == Deleted;
    LocalAt(s.local, s.base, s.work, x);
    PresentNotGone(s.local, s.base, s.work, x);
    assert Decide(ByPath(s.local), c) == Take;
    InList(d, c);
  }

  /** A deletion that is taken finds its path in the working directory. */
  lemma DeletedIsThere(s: Case, d: seq<Change>, r: seq<Change>, p: Path)
    requires GoodCase(s) && NoConflict(s) && Taken(s, d, r) && p in Paths(d)
    ensures p in s.work && p in s.base && p !in s.remote
  {
    var i :| 0 <= i < |d| && d[i].path == p;
    assert d[i] in d;
    TakenIsIncoming(s, d[i]);
    LocalAt(s.local, s.base, s.work, p);
  }

  lemma DeletedPaths(s: Case, d: seq<Change>, r: seq<Change>, p: Path)
    requires GoodCase(s) && NoConflict(s) && Taken(s, d, r)
    ensures p in Paths(d) <==> p in s.work && p in s.base && p !in s.remote
  {
    hide GoodCase, NoConflict, Taken;
    if p in Paths(d) {
      DeletedIsThere(s, d, r, p);
    }
    if p in s.work && p in s.base && p !in s.remote {
      DeletionTaken(s, d, r, p);
    }
  }

  lemma PutPaths(s: Case, d: seq<Change>, r: seq<Change>, p: Path)
    requires GoodCase(s) && NoConflict(s) && Taken(s, d, r)
    ensures p in Paths(r) <==> p in s.remote && Get(s.base, p) != Get(s.remote, p)
  {
    if p in Paths(r) {
      var i :| 0 <= i < |r| && r[i].path == p;
      assert r[i] in r;
      TakenIsIncoming(s, r[i]);
    }
    if p in s.remote && Get(s.base, p) != Get(s.remote, p) {
      var i := IncomingAt(s, p);
      var c := s.incoming[i];
      assert c in s.incoming && Decide(ByPath(s.local), c) == Take;
      InList(r, c);
    }
  }

  // ---- after the deletions ----

  /** What is left below a remotely deleted path was added locally. */
  lemma KeptIsAdded(s: Case, d: seq<Change>, r: seq<Change>, p: Path)
    requires GoodCase(s) && NoConflict(s) && Taken(s, d, r) && p !in s.remote
    ensures Kept(Still(s.work), Paths(d), p) <==> exists x :: AddedBelow(s, p, x)
  {
    hide GoodCase, NoConflict, Taken;
    if Kept(Still(s.work), Paths(d), p) {
      var x :| x in s.work && Over(p, x) && x !in Paths(d);
      DeletedPaths(s, d, r, x);
      NotBelowAbsent(s, p, x);
      assert AddedBelow(s, p, x);
    }
    if x :| AddedBelow(s, p, x) {
      DeletedPaths(s, d, r, x);
    }
  }

  lemma NotBelowAbsent(s: Case, p: Path, x: Path)
    requires GoodCase(s) && p !in s.remote && Over(p, x)
    ensures x !in s.remote
  {
    if x in s.remote { ValidAbove(s.remote, p, x); }
  }

  ghost function AfterDels(s: Case, d: seq<Change>): (f: Files) { Stage(Still(s.work), Paths(d), Paths(d)) }

  lemma AfterDelsAt(s: Case, d: seq<Change>, r: seq<Change>, p: Path)
    requires GoodCase(s) && NoConflict(s) && Taken(s, d, r)
    ensures Get(AfterDels(s, d), p) ==
            if p in s.base && p !in s.remote && !(exists x :: AddedBelow(s, p, x)) then None else Plain(Get(s.work, p))
  {
    hide GoodCase, NoConflict, Taken, Kept, AddedBelow;
    DeletedPaths(s, d, r, p);
    if p !in s.remote { KeptIsAdded(s, d, r, p); }
  }

  // ---- every taken change can go over what is left ----

  lemma LocalKeepsType(s: Case, c: Change)
    requires GoodCase(s) && c in s.incoming && Decide(ByPath(s.local), c) == Take && c.kind != Deleted
    ensures c.path in s.work || (c.path !in s.base && c.path !in ByPath(s.local) && !GoneAbove(ByPath(s.local), c.path))
  {
    TakenIsIncoming(s, c);
    LocalAt(s.local, s.base, s.work, c.path);
  }

  lemma DirsThere(s: Case, d: seq<Change>, r: seq<Change>, c: Change, q: Path)
    requires GoodCase(s) && NoConflict(s) && Taken(s, d, r) && c in r && Over(q, c.path) && q !in Paths(r)
    ensures q in AfterDels(s, d) && AfterDels(s, d)[q].ftype == Dir
  {
    TakenIsIncoming(s, c);
    assert c.path in s.remote;
    ValidAbove(s.remote, q, c.path);
    PutPaths(s, d, r, q);
    AfterDelsAt(s, d, r, q);
    LocalKeepsType(s, c);
    if c.path in s.work {
      ValidAbove(s.work, q, c.path);
    } else {
      LocalAt(s.local, s.base, s.work, q);
      assert q == c.path[..|q|];
    }
  }

  lemma DirsPut(s: Case, d: seq<Change>, r: seq<Change>, c: Change, q: Path)
    requires GoodCase(s) && NoConflict(s) && Taken(s, d, r) && c in r && Over(q, c.path) && q in Paths(r)
    ensures exists e :: Gives(r, q, e) && e.ftype == Dir
  {
    TakenIsIncoming(s, c);
    ValidAbove(s.remote, q, c.path);
    var j :| 0 <= j < |r| && r[j].path == q;
    assert r[j] in r;
    TakenIsIncoming(s, r[j]);
    assert Gives(r, q, s.remote[q]);
  }

  lemma FromDirIsRetype(c: Change)
    requires Fits(c) && c.before.Some? && c.after.Some? && c.after.value.ftype != Dir && c.before.value.ftype == Dir
    ensures c.kind == TypeChanged
  {
  }

  /** A local change at a directory that is not equivalent to the incoming one is of metadata. */
  lemma LocalIsMeta(l: Change, c: Change)
    requires Fits(l) && IsDir(l.after) && c.after.Some? && c.after.value.ftype != Dir && c.kind != Deleted
    requires l.kind == MetaChanged || !(l.kind == Deleted || c.kind == Deleted)
    requires l.kind == MetaChanged || (l.after.Some? && Equivalent(l.after.value, c.after.value))
    ensures l.kind == MetaChanged && IsDir(l.before)
  {
  }

  /** A taken change that puts something else where the working directory has a directory retypes
      a directory, with no local change at it or one of metadata only. */
  lemma GivesWay(s: Case, c: Change)
    requires GoodCase(s) && c in s.incoming && Decide(ByPath(s.local), c) == Take && c.kind != Deleted
    requires DirAt(s.work, c.path) && c.after.Some? && c.after.value.ftype != Dir
    ensures c.kind == TypeChanged && IsDir(c.before)
    ensures c.path in ByPath(s.local) ==> ByPath(s.local)[c.path].kind == MetaChanged
    ensures c.path !in ByPath(s.local) ==> !AnyBelow(ByPath(s.local), c.path)
  {
    TakenIsIncoming(s, c);
    LocalAt(s.local, s.base, s.work, c.path);
    hide GoodCase, ByPath, AnyBelow, GoneAbove, Fits, KindFits, Equivalent;
    if c.path in ByPath(s.local) {
      var l := ByPath(s.local)[c.path];
      assert Fits(l) by { SameFits(l); }
      LocalIsMeta(l, c);
    }
    FromDirIsRetype(c);
  }

  lemma SameFits(l: Change)
    ensures KindFits(l.kind, l.before, l.after) <==> Fits(l)
  {
  }

  lemma NothingAdded(s: Case, c: Change, x: Path)
    requires GoodCase(s) && Harmless(s, c) && c in s.incoming && Decide(ByPath(s.local), c) == Take && c.kind != Deleted
    requires c.path in s.work && s.work[c.path].ftype == Dir && c.after.Some? && c.after.value.ftype != Dir
    ensures !AddedBelow(s, c.path, x)
  {
    assert !Endangers(s, c, x);
    GivesWay(s, c);
    LocalAt(s.local, s.base, s.work, x);
    hide GoodCase, ByPath, Decide;
  }

  /** Where a directory gives way, nothing is left below it. */
  lemma NothingLeft(s: Case, d: seq<Change>, r: seq<Change>, c: Change, x: Path)
    requires GoodCase(s) && NoConflict(s) && Harmless(s, c) && Taken(s, d, r) && c in r
    requires c.path in s.work && c.after.Some? && s.work[c.path].ftype != c.after.value.ftype && Over(c.path, x)
    ensures x !in AfterDels(s, d)
  {
    assert c in s.incoming && Decide(ByPath(s.local), c) == Take && c.kind != Deleted;
    TakenIsIncoming(s, c);
    AfterDelsAt(s, d, r, x);
    if x in s.work {
      ValidAbove(s.work, c.path, x);
      assert x !in s.remote by { if x in s.remote { ValidAbove(s.remote, c.path, x); } }
      hide GoodCase, NoConflict, Harmless, Taken, Decide, ByPath, AfterDels;
      NothingAdded(s, c, x);
      forall y
        ensures !AddedBelow(s, x, y)
      {
        NothingAdded(s, c, y);
        if Over(x, y) { OverThen(c.path, x, y); }
      }
    }
  }

  lemma ContentSame(s: Case, d: seq<Change>, r: seq<Change>, c: Change)
    requires GoodCase(s) && NoConflict(s) && Taken(s, d, r) && c in r && !ChangesContent(c.kind)
    ensures c.after.Some? && c.path in AfterDels(s, d)
    ensures var e := AfterDels(s, d)[c.path];
            e.ftype == c.after.value.ftype && e.content == c.after.value.content && Canonical(e)
  {
    TakenIsIncoming(s, c);
    LocalAt(s.local, s.base, s.work, c.path);
    AfterDelsAt(s, d, r, c.path);
    assert c.path in s.base && c.path in s.remote && c.path in s.work;
    assert Canonical(s.base[c.path]) && Canonical(s.remote[c.path]) && Canonical(s.work[c.path]);
  }

  lemma TakenCanPut(s: Case, d: seq<Change>, r: seq<Change>, c: Change)
    requires GoodCase(s) && NoConflict(s) && Harmless(s, c) && Taken(s, d, r) && c in r
    ensures c.after.Some? && CanPut(AfterDels(s, d), r, c)
  {
    var f := AfterDels(s, d);
    TakenIsIncoming(s, c);
    assert c.path in s.remote && c.path != [] && Canonical(s.remote[c.path]) && s.remote[c.path].ftype != Sock;
    if !ChangesContent(c.kind) { ContentSame(s, d, r, c); }
    AfterDelsAt(s, d, r, c.path);
    hide GoodCase, NoConflict, Harmless, Taken, Gives, Fits, KindFits, AddedBelow, AfterDels;
    forall k | 0 < k < |c.path|
      ensures if c.path[..k] in Paths(r) then exists e :: Gives(r, c.path[..k], e) && e.ftype == Dir
              else c.path[..k] in f && f[c.path[..k]].ftype == Dir
    {
      assert Over(c.path[..k], c.path);
      if c.path[..k] in Paths(r) { DirsPut(s, d, r, c, c.path[..k]); } else { DirsThere(s, d, r, c, c.path[..k]); }
    }
    if c.path in f && f[c.path].ftype != c.after.value.ftype {
      forall q | q in f
        ensures !Over(c.path, q)
      {
        if Over(c.path, q) { NothingLeft(s, d, r, c, q); }
      }
    }
  }

  /** The list is one the applier can work on. */
  lemma TakenPuts(s: Case, d: seq<Change>, r: seq<Change>)
    requires GoodCase(s) && Taken(s, d, r)
    ensures Puts(r)
  {
    forall i | 0 <= i < |r|
      ensures r[i].after.Some? && r[i].path != []
    {
      assert r[i] in r;
      TakenIsIncoming(s, r[i]);
      assert r[i].path in s.remote;
    }
  }

  /** Merge loses nothing: without conflicts and with nothing endangered, applying what Merge
      takes succeeds and leaves at every path what is expected. */
  lemma MergeLosesNothing(s: Case, d: seq<Change>, r: seq<Change>)
    requires GoodCase(s) && NoConflict(s) && NothingEndangered(s) && Taken(s, d, r)
    ensures Puts(r) && Run(Still(s.work), d, r).ok
    ensures forall p :: Get(Run(Still(s.work), d, r).files, p) == Plain(Expected(s, p))
  {
    TakenPuts(s, d, r);
    DelsOfTaken(s, d, r);
    var f := AfterDels(s, d);
    forall j | 0 <= j < |r|
      ensures CanPut(f, r, r[j])
    {
      assert r[j] in r && r[j] in s.incoming;
      TakenCanPut(s, d, r, r[j]);
    }
    RestRuns(f, r);
    forall p
      ensures Get(Run(Still(s.work), d, r).files, p) == Plain(Expected(s, p))
    {
      ResultAt(s, d, r, Run(Still(s.work), d, r).files, p);
    }
  }

  lemma ResultAt(s: Case, d: seq<Change>, r: seq<Change>, g: Files, p: Path)
    requires GoodCase(s) && NoConflict(s) && Taken(s, d, r) && Puts(r) && Updated(AfterDels(s, d), r, g)
    ensures Get(g, p) == Plain(Expected(s, p))
  {
    PutPaths(s, d, r, p);
    AfterDelsAt(s, d, r, p);
    if p in Paths(r) {
      var j :| 0 <= j < |r| && r[j].path == p;
      assert r[j] in r;
      TakenIsIncoming(s, r[j]);
    }
  }

  // ---- the exception ----

  lemma {:induction false} MkdirAdds(f: Files, p: Path, k: nat, x: Path)
    requires k <= |p| && x in MkdirAll(f, p, k)
    ensures x in f || exists j :: 0 < j <= k && x == p[..j]
  {
    if k > 0 && x != p[..k] { MkdirAdds(f, p, k - 1, x); }
  }

  /** Putting a change brings in only its path and directories above it. */
  lemma PutAdds(f: Files, c: Change, x: Path)
    requires c.after.Some? && c.path != [] && x in Put(f, c).files
    ensures x in f || x == c.path || Over(x, c.path)
  {
    if Target(f, c.path) == Fine {
      var g := MkdirAll(f, c.path, |c.path| - 1);
      if x != c.path {
        assert x in g;
        MkdirAdds(f, c.path, |c.path| - 1, x);
      }
    }
  }

  lemma {:induction false} GoneStaysGone(f: Files, r: seq<Change>, i: nat, j: nat, x: Path)
    requires Puts(r) && i < j <= |r| && RunRest(f, r[..j]).ok && Over(r[i].path, x)
    requires x !in RunRest(f, r[..i + 1]).files
    requires forall k :: 0 <= k < |r| ==> r[k].path != x && !Over(x, r[k].path)
    ensures x !in RunRest(f, r[..j]).files
  {
    if j > i + 1 {
      var e := r[..j];
      assert e[..j - 1] == r[..j - 1];
      GoneStaysGone(f, r, i, j - 1, x);
      if x in RunRest(f, e).files { PutAdds(RunRest(f, r[..j - 1]).files, r[j - 1], x); }
    }
  }

  lemma {:induction false} PrefixOk(f: Files, r: seq<Change>, i: nat)
    requires Puts(r) && i <= |r| && RunRest(f, r).ok
    ensures RunRest(f, r[..i]).ok
    decreases |r|
  {
    if i == |r| {
      assert r[..i] == r;
    } else {
      assert r[..|r| - 1][..i] == r[..i];
      PrefixOk(f, r[..|r| - 1], i);
    }
  }

  /** Retyping a directory clears what is below it. */
  lemma RetypeClears(f: Files, c: Change, x: Path)
    requires c.after.Some? && c.path != [] && Put(f, c).ok && Over(c.path, x)
    requires c.after.value.ftype != Dir && c.path in f && f[c.path].ftype == Dir
    ensures x !in Put(f, c).files
  {
    var g := MkdirAll(f, c.path, |c.path| - 1);
    MkdirKeeps(f, c.path, |c.path| - 1, c.path);
  }

  lemma {:induction false} MkdirKeeps(f: Files, p: Path, k: nat, x: Path)
    requires k <= |p| && x in f
    ensures x in MkdirAll(f, p, k) && MkdirAll(f, p, k)[x] == f[x]
  {
    if k > 0 { MkdirKeeps(f, p, k - 1, x); }
  }

  /** The first change in r that is not harmless. */
  lemma {:induction false} FirstHarmful(s: Case, r: seq<Change>, n: nat) returns (k: nat)
    requires n <= |r| && exists j :: 0 <= j < n && !Harmless(s, r[j])
    ensures k < n && !Harmless(s, r[k]) && forall j :: 0 <= j < k ==> Harmless(s, r[j])
  {
    hide Harmless;
    if exists j :: 0 <= j < n - 1 && !Harmless(s, r[j]) {
      k := FirstHarmful(s, r, n - 1);
    } else {
      k := n - 1;
    }
  }

  lemma EndangeredPath(s: Case, d: seq<Change>, r: seq<Change>, c: Change, x: Path)
    requires GoodCase(s) && Taken(s, d, r) && Puts(r) && c in s.incoming && Endangers(s, c, x)
    ensures c.after.Some? && c.after.value.ftype != Dir && c.path in s.work && s.work[c.path].ftype == Dir && c.path in s.remote
    ensures Expected(s, x) == Get(s.work, x) != None
    ensures forall k :: 0 <= k < |r| ==> r[k].path != x && !Over(x, r[k].path)
  {
    TakenIsIncoming(s, c);
    LocalAt(s.local, s.base, s.work, c.path);
    assert x !in s.remote by { if x in s.remote { ValidAbove(s.remote, c.path, x); } }
    forall k | 0 <= k < |r|
      ensures r[k].path != x && !Over(x, r[k].path)
    {
      assert r[k] in r;
      TakenIsIncoming(s, r[k]);
      if Over(x, r[k].path) { ValidAbove(s.remote, x, r[k].path); }
    }
  }

  /** Up to the first harmful change everything goes well, so its directory is still there. */
  lemma StillThere(s: Case, d: seq<Change>, r: seq<Change>, k: nat)
    requires k < |r| && Puts(r) && Puts(r[..k])
    requires GoodCase(s) && NoConflict(s) && Taken(s, d, r) && DirAt(s.work, r[k].path) && r[k].path in s.remote
    requires forall j :: 0 <= j < k ==> Harmless(s, r[j])
    ensures DirAt(RunRest(AfterDels(s, d), r[..k]).files, r[k].path)
  {
    var f, p := AfterDels(s, d), r[k].path;
    assert NoTwice(r) && ShallowFirst(r);
    AfterDelsAt(s, d, r, p);
    NotYet(r, k);
    hide GoodCase, NoConflict, Taken, AfterDels, CanPut, Harmless, AddedBelow;
    assert p in f && f[p].ftype == Dir;
    forall j | 0 <= j < k
      ensures CanPut(f, r, r[j])
    {
      assert r[j] in r;
      TakenCanPut(s, d, r, r[j]);
    }
    RestStage(f, r, k);
  }

  /** A change that retypes a directory removes x below it for good, if nothing puts x back. */
  lemma ClearedForGood(f: Files, r: seq<Change>, k: nat, x: Path)
    requires Puts(r) && k < |r| && Over(r[k].path, x) && r[k].after.value.ftype != Dir
    requires RunRest(f, r).ok && DirAt(RunRest(f, r[..k]).files, r[k].path)
    requires forall j :: 0 <= j < |r| ==> r[j].path != x && !Over(x, r[j].path)
    ensures x !in SetDirs(RunRest(f, r).files, r)
  {
    hide Put, Over;
    PrefixOk(f, r, k);
    PrefixOk(f, r, k + 1);
    assert r[..k + 1][..k] == r[..k];
    RetypeClears(RunRest(f, r[..k]).files, r[k], x);
    assert r[..|r|] == r;
    GoneStaysGone(f, r, k, |r|, x);
    DirsAddNothing(RunRest(f, r).files, r, x);
  }

  lemma TakenInIncoming(s: Case, d: seq<Change>, r: seq<Change>, k: nat)
    requires Taken(s, d, r) && k < |r|
    ensures r[k] in s.incoming
  {
    assert r[k] in r;
  }

  lemma EndangersBelow(s: Case, c: Change, x: Path)
    requires Endangers(s, c, x)
    ensures Over(c.path, x)
  {
  }

  /** What an incoming retype clears away although it was added locally. */
  lemma EndangeredIsLost(s: Case, d: seq<Change>, r: seq<Change>, k: nat, x: Path)
    requires GoodCase(s) && NoConflict(s) && Taken(s, d, r) && Puts(r) && k < |r| && Endangers(s, r[k], x)
    requires forall j :: 0 <= j < k ==> Harmless(s, r[j])
    requires RunRest(AfterDels(s, d), r).ok
    ensures x !in SetDirs(RunRest(AfterDels(s, d), r).files, r)
  {
    hide GoodCase, NoConflict, Taken, AfterDels, RunRest, Endangers, Harmless, Expected, Over, SetDirs;
    TakenInIncoming(s, d, r, k);
    EndangersBelow(s, r[k], x);
    EndangeredPath(s, d, r, r[k], x);
    assert Puts(r[..k]);
    StillThere(s, d, r, k);
    ClearedForGood(AfterDels(s, d), r, k, x);
  }

  lemma {:induction false} DirsAddNothing(g: Files, r: seq<Change>, x: Path)
    requires Puts(r) && x !in g && forall k :: 0 <= k < |r| ==> r[k].path != x
    ensures x !in SetDirs(g, r)
  {
    if r != [] { DirsAddNothing(g, r[..|r| - 1], x); }
  }

  /** With no conflict, applying the merge leaves what is expected everywhere exactly when nothing
      is endangered. */
  lemma MergeExact(s: Case, d: seq<Change>, r: seq<Change>)
    requires GoodCase(s) && NoConflict(s) && Taken(s, d, r)
    ensures Puts(r)
    ensures NothingEndangered(s) <==>
            Run(Still(s.work), d, r).ok && forall p :: Get(Run(Still(s.work), d, r).files, p) == Plain(Expected(s, p))
  {
    TakenPuts(s, d, r);
    if NothingEndangered(s) {
      MergeLosesNothing(s, d, r);
    } else if Run(Still(s.work), d, r).ok {
      var c :| c in s.incoming && !Harmless(s, c);
      var y :| Endangers(s, c, y);
      assert c in r;
      var j :| 0 <= j < |r| && r[j] == c;
      var k := FirstHarmful(s, r, |r|);
      var x :| Endangers(s, r[k], x);
      assert r[k] in r && r[k] in s.incoming;
      DelsOfTaken(s, d, r);
      EndangeredIsLost(s, d, r, k, x);
      EndangeredPath(s, d, r, r[k], x);
      assert Get(Run(Still(s.work), d, r).files, x) != Plain(Expected(s, x));
    }
  }

  lemma DelsOfTaken(s: Case, d: seq<Change>, r: seq<Change>)
    requires GoodCase(s) && NoConflict(s) && Taken(s, d, r)
    ensures RunDels(Still(s.work), d) == Outcome(true, AfterDels(s, d))
  {
    forall p | p in Paths(d)
      ensures p in s.work
    {
      DeletedPaths(s, d, r, p);
    }
    StillIsValid(s.work);
    DelsRun(Still(s.work), d);
  }

  const WAS := Entry(Dir, 0, 0, 0, 0)
  const MINE := Entry(Dir, 0, 0, 0, 1)
  const THEIRS := Entry(Reg, 6, 0, 0, 0)
  const EXTRA := Entry(Reg, 5, 0, 0, 0)

  lemma TwoFiles(p: Path, q: Path, e: Entry, x: Entry)
    requires |p| == 1 && |q| == 2 && q[..1] == p && Canonical(e) && Canonical(x)
    ensures ValidFiles(map[p := e])
    ensures e.ftype == Dir ==> ValidFiles(map[p := e, q := x])
  {
  }

  lemma LocalTwo(p: Path, q: Path)
    requires p != q
    ensures Between([Change(p, MetaChanged, Some(WAS), Some(MINE)), Change(q, Added, None, Some(EXTRA))],
                    map[p := WAS], map[p := MINE, q := EXTRA])
  {
    var local := [Change(p, MetaChanged, Some(WAS), Some(MINE)), Change(q, Added, None, Some(EXTRA))];
    assert local[0].path == p && local[1].path == q;
    assert HasChange(local, p) && HasChange(local, q);
  }

  lemma IncomingOne(p: Path)
    ensures Between([Change(p, TypeChanged, Some(WAS), Some(THEIRS))], map[p := WAS], map[p := THEIRS])
  {
    var incoming := [Change(p, TypeChanged, Some(WAS), Some(THEIRS))];
    assert incoming[0].path == p;
    assert HasChange(incoming, p);
  }

  lemma ByPathTwo(a: Change, b: Change)
    requires a.path != b.path
    ensures ByPath([a, b]) == map[a.path := a, b.path := b]
  {
    assert [a, b][..1] == [a];
    assert [a][..0] == [];
  }

  ghost predicate Directly(p: Path, x: Path) { |x| == |p| + 1 && x[..|p|] == p }

  /** A name was added to the directory p, or removed from it. */
  ghost predicate NamesChanged(s: Case, p: Path)
  {
    exists x :: Directly(p, x) && (x in s.work <==> x !in s.base)
  }

  /** What a file system does to the time of a directory whose names change. */
  ghost predicate TimesMove(s: Case)
  {
    forall p :: DirAt(s.base, p) && DirAt(s.work, p) && NamesChanged(s, p) ==> s.base[p].mtime != s.work[p].mtime
  }

  /** The incoming change retypes a directory that is still one locally. */
  ghost predicate Retypes(s: Case, c: Change)
  {
    c in s.incoming && c.kind == TypeChanged && IsDir(c.before) && DirAt(s.work, c.path)
  }

  /** A retype of a directory conflicts exactly when its permission bits changed locally, or its
      own entry, time included, did not change at all and something below it did.  So once a name
      was added or removed in the directory itself, and nothing was done to its bits, the retype
      is taken without a conflict and everything added below is lost. */
  lemma RetypeVerdict(s: Case, c: Change)
    requires GoodCase(s) && TimesMove(s) && Retypes(s, c)
    ensures c.path in s.base
    ensures Decide(ByPath(s.local), c) == Clash <==>
              || s.work[c.path].mode != s.base[c.path].mode
              || (s.work[c.path] == s.base[c.path] && AnyBelow(ByPath(s.local), c.path))
    ensures NamesChanged(s, c.path) && s.work[c.path].mode == s.base[c.path].mode ==>
              && Decide(ByPath(s.local), c) == Take
              && forall x :: AddedBelow(s, c.path, x) ==> Endangers(s, c, x)
  {
    TakenIsIncoming(s, c);
    LocalAt(s.local, s.base, s.work, c.path);
    PresentNotGone(s.local, s.base, s.work, c.path);
    assert Canonical(s.base[c.path]) && Canonical(s.work[c.path]);
    hide GoodCase, ByPath, AnyBelow, GoneAbove, AddedBelow;
  }

  lemma OnlyTimeMoved(s: Case, p: Path, q: Path)
    requires p != q && s.base == map[p := WAS] && s.work == map[p := MINE, q := EXTRA]
    ensures TimesMove(s) && Still(s.base) + map[q := EXTRA] == Still(s.work)
  {
    assert Timeless(WAS) == Timeless(MINE);
  }

  /** The exception is an everyday one: a file is added to a directory, which moves the
      directory's time and nothing else, and the remote turned the directory into a file. */
  lemma RetypeOverMetadata() returns (s: Case, x: Path)
    ensures GoodCase(s) && NoConflict(s) && |s.incoming| == 1 && Endangers(s, s.incoming[0], x)
    ensures TimesMove(s) && Still(s.base) + map[x := s.work[x]] == Still(s.work)
  {
    var p: Path, q: Path := [[1]], [[1], [2]];
    assert q[..1] == p;
    var a, b := Change(p, MetaChanged, Some(WAS), Some(MINE)), Change(q, Added, None, Some(EXTRA));
    var c := Change(p, TypeChanged, Some(WAS), Some(THEIRS));
    s, x := Case(map[p := WAS], map[p := THEIRS], map[p := MINE, q := EXTRA], [a, b], [c]), q;
    OnlyTimeMoved(s, p, q);
    TwoFiles(p, q, WAS, EXTRA);
    TwoFiles(p, q, MINE, EXTRA);
    TwoFiles(p, q, THEIRS, EXTRA);
    LocalTwo(p, q);
    IncomingOne(p);
    ByPathTwo(a, b);
    hide ValidFiles, Between, ByPath, TimesMove, Still;
  }

  // ---- the code ----

  datatype Conflict = Conflict(path: Path, local: Change, incoming: Change)

  function Filtered(m: map<Path, Change>, cs: seq<Change>, v: Verdict): (r: seq<Change>)
  {
    if cs == [] then []
    else
      var n := |cs| - 1;
      Filtered(m, cs[..n], v) + if Decide(m, cs[n]) == v then [cs[n]] else []
  }

  method LocalByPath(local: seq<Change>) returns (m: map<Path, Change>)
    ensures m == ByPath(local)
  {
    m := map[];
    var i := 0;
    while i < |local|
      invariant i <= |local| && m == ByPath(local[..i])
    {
      ghost var more := local[..i + 1];
      assert more[..i] == local[..i] && more[i] == local[i];
      m := m[local[i].path := local[i]];
      i := i + 1;
    }
    assert local[..i] == local;
  }

  ghost predicate NearestGone(m: map<Path, Change>, p: Path, l: Change)
  {
    exists k :: 0 < k < |p| && p[..k] in m && l == m[p[..k]] && Gone(l)
      && forall j :: k < j < |p| ==> !(p[..j] in m && Gone(m[p[..j]]))
  }

  /** The first of the local changes below p, by the order of their written paths. */
  ghost predicate FirstBelow(m: map<Path, Change>, p: Path, l: Change)
  {
    exists q :: q in m && l == m[q] && Trees.Above(p, q)
      && forall r :: r in m && Trees.Above(p, r) ==> LexCompare(Join(q), Join(r)) <= 0
  }

  /** The local change a conflict over c names. */
  ghost predicate Blames(m: map<Path, Change>, c: Change, l: Change)
  {
    if c.path in m then l == m[c.path]
    else if GoneAbove(m, c.path) then NearestGone(m, c.path, l)
    else FirstBelow(m, c.path, l)
  }

  /** goneAbove: the nearest directory above p that is gone. */
  method FindGone(m: map<Path, Change>, p: Path) returns (r: Option<Change>)
    ensures r.Some? <==> GoneAbove(m, p)
    ensures r.Some? ==> NearestGone(m, p, r.value)
  {
    var k := |p| - 1;
    while k > 0
      invariant k < |p| && forall j :: 0 < j && k < j < |p| ==> !(p[..j] in m && Gone(m[p[..j]]))
    {
      if p[..k] in m && Gone(m[p[..k]]) {
        return Some(m[p[..k]]);
      }
      k := k - 1;
    }
    return None;
  }

  /** firstBelow, as one pass over the paths. */
  method FindBelow(m: map<Path, Change>, p: Path) returns (r: Option<Change>)
    ensures r.Some? <==> AnyBelow(m, p)
    ensures r.Some? ==> FirstBelow(m, p, r.value)
  {
    hide LexCompare, Join;
    var todo, best: Option<Path> := m.Keys, None;
    while todo != {}
      invariant todo <= m.Keys
      invariant best.None? ==> forall q :: q in m && q !in todo ==> !Trees.Above(p, q)
      invariant best.Some? ==> best.value in m && Trees.Above(p, best.value)
      invariant best.Some? ==>
        forall q :: q in m && q !in todo && Trees.Above(p, q) ==> LexCompare(Join(best.value), Join(q)) <= 0
      decreases |todo|
    {
      var q :| q in todo;
      if Trees.Above(p, q) {
        LexZeroIsEqual(Join(q), Join(q));
        if best.None? {
          best := Some(q);
        } else {
          LexFlip(Join(q), Join(best.value));
          if LexCompare(Join(q), Join(best.value)) < 0 {
            Earlier(m, p, todo, q, best.value);
            best := Some(q);
          }
        }
      }
      todo := todo - {q};
    }
    return if best.Some? then Some(m[best.value]) else None;
  }

  lemma Earlier(m: map<Path, Change>, p: Path, todo: set<Path>, a: Path, b: Path)
    requires LexCompare(Join(a), Join(b)) < 0
    requires forall q :: q in m && q !in todo && Trees.Above(p, q) ==> LexCompare(Join(b), Join(q)) <= 0
    ensures forall q :: q in m && q !in todo && Trees.Above(p, q) ==> LexCompare(Join(a), Join(q)) <= 0
  {
    hide LexCompare, Join;
    forall q | q in m && q !in todo && Trees.Above(p, q) ensures LexCompare(Join(a), Join(q)) <= 0 {
      LexTransitive(Join(a), Join(b), Join(q));
    }
  }

  /** One incoming change: what to do with it, and the local change a conflict names. */
  method Judge(m: map<Path, Change>, c: Change) returns (v: Verdict, l: Change)
    requires Fits(c) && forall p :: p in m ==> Fits(m[p])
    ensures v == Decide(m, c) && (v == Clash ==> Blames(m, c, l))
  {
    hide NearestGone, FirstBelow;
    l := c;
    if c.path in m {
      l := m[c.path];
      assert Fits(l);
      if l.kind == MetaChanged {
        v := Take;
      } else if l.kind == Deleted && c.kind == Deleted {
        v := Drop;
      } else if l.kind == Deleted || c.kind == Deleted {
        v := Clash;
      } else {
        v := if Equivalent(l.after.value, c.after.value) then Take else Clash;
      }
      return;
    }
    var gone := FindGone(m, c.path);
    if gone.Some? {
      return if c.kind != Deleted then Clash else Drop, gone.value;
    }
    if c.kind == TypeChanged && IsDir(c.before) {
      var below := FindBelow(m, c.path);
      if below.Some? {
        return Clash, below.value;
      }
    }
    v := Take;
  }

  /** The conflicts name the clashing changes, in order, each with the local change it meets. */
  ghost predicate Names(conflicts: seq<Conflict>, clashing: seq<Change>, m: map<Path, Change>)
  {
    && |conflicts| == |clashing|
    && forall i :: 0 <= i < |conflicts| ==>
         conflicts[i].incoming == clashing[i] && conflicts[i].path == clashing[i].path && Blames(m, clashing[i], conflicts[i].local)
  }

  lemma NamesOne(conflicts: seq<Conflict>, clashing: seq<Change>, m: map<Path, Change>, c: Change, l: Change)
    requires Names(conflicts, clashing, m) && Blames(m, c, l)
    ensures Names(conflicts + [Conflict(c.path, l, c)], clashing + [c], m)
  {
    hide Blames;
  }

  /** Merge: the changes to apply and the conflicts, in the order of the incoming changes. */
  method MergeChanges(local: seq<Change>, incoming: seq<Change>) returns (apply: seq<Change>, conflicts: seq<Conflict>)
    requires forall c :: c in local || c in incoming ==> Fits(c)
    ensures apply == Filtered(ByPath(local), incoming, Take)
    ensures Names(conflicts, Filtered(ByPath(local), incoming, Clash), ByPath(local))
  {
    var m := LocalByPath(local);
    assert forall p :: p in m ==> Fits(m[p]);
    FilteredNone(m);
    hide Decide, ByPath, Filtered, Fits, Blames, Names;
    apply, conflicts := [], [];
    assert Names([], [], m) by { NamesNone(m); }
    var i := 0;
    while i < |incoming|
      invariant i <= |incoming|
      invariant apply == Filtered(m, incoming[..i], Take)
      invariant Names(conflicts, Filtered(m, incoming[..i], Clash), m)
    {
      FilteredMore(m, incoming, i, Take);
      FilteredMore(m, incoming, i, Clash);
      var v, l := Judge(m, incoming[i]);
      match v {
        case Take => apply := apply + [incoming[i]];
        case Drop =>
        case Clash =>
          NamesOne(conflicts, Filtered(m, incoming[..i], Clash), m, incoming[i], l);
          conflicts := conflicts + [Conflict(incoming[i].path, l, incoming[i])];
      }
      i := i + 1;
    }
    assert incoming[..i] == incoming;
  }

  lemma NamesNone(m: map<Path, Change>)
    ensures Names([], [], m)
  {
  }

  lemma FilteredNone(m: map<Path, Change>)
    ensures Filtered(m, [], Take) == [] && Filtered(m, [], Clash) == []
  {
  }

  lemma FilteredMore(m: map<Path, Change>, cs: seq<Change>, i: nat, v: Verdict)
    requires i < |cs|
    ensures Filtered(m, cs[..i + 1], v) == if Decide(m, cs[i]) == v then Filtered(m, cs[..i], v) + [cs[i]] else Filtered(m, cs[..i], v)
  {
    hide Decide;
    var more := cs[..i + 1];
    assert more[..i] == cs[..i] && more[i] == cs[i];
  }
}
