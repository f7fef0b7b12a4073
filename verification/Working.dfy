/** Diff, merge and apply together (worktree/): applying the difference of two trees turns one into
    the other, and what a second application does. */
module Working {

  import opened Options
  import opened Trees
  import opened Apply
  import opened Merge

  // ---- trees as files ----

  /** Every entry of a tree under its path. */
  function Flatten(prefix: Path, d: seq<Node>): (f: Files)
    decreases d
  {
    if d == [] then map[]
    else
      var p := prefix + [d[0].name];
      (Flatten(prefix, d[1..]) + Flatten(p, d[0].kids))[p := d[0].e]
  }

  ghost predicate Shows(f: Files, prefix: Path, d: seq<Node>, p: Path)
  {
    Get(f, p) == if Trees.Above(prefix, p) then Look(d, p[|prefix|..]) else None
  }

  lemma {:induction false} FlattenShows(prefix: Path, d: seq<Node>, p: Path)
    requires ValidDir(d)
    ensures Shows(Flatten(prefix, d), prefix, d, p)
    decreases d
  {
    if d == [] {
    } else {
      FirstIsOnly(d);
      var n, q := d[0], prefix + [d[0].name];
      FlattenShows(prefix, d[1..], p);
      FlattenShows(q, n.kids, p);
      if Trees.Above(prefix, p) {
        var t := p[|prefix|..];
        LookInRest([n], d[1..], n.name, t);
        if t[0] == n.name {
          LookOne([n], n.name, t);
          if |t| > 1 {
            assert p[..|q|] == q && p[|q|..] == t[1..];
          } else {
            assert p == q;
          }
        } else {
          assert !Trees.Above(q, p) && p != q by { assert q[|prefix|] == n.name; }
        }
      } else {
        assert q[..|prefix|] == prefix;
        assert |q| <= |p| ==> p[..|q|][..|prefix|] == p[..|prefix|];
      }
    }
  }

  /** Above an entry there are directories. */
  lemma {:induction false} LookAbove(d: seq<Node>, p: Path, k: nat)
    requires ValidDir(d) && Look(d, p).Some? && 0 < k < |p|
    ensures Look(d, p[..k]).Some? && Look(d, p[..k]).value.ftype == Dir
    decreases |p|
  {
    var n := Find(d, p[0]).value;
    assert ValidNode(n);
    if k == 1 {
      LookInNothing(p[1..]);
    } else {
      LookAbove(n.kids, p[1..], k - 1);
      assert p[..k][1..] == p[1..][..k - 1];
    }
  }

  lemma {:induction false} LookCanonical(d: seq<Node>, p: Path)
    requires ValidDir(d) && Look(d, p).Some?
    ensures p != [] && Canonical(Look(d, p).value)
    decreases |p|
  {
    var n := Find(d, p[0]).value;
    assert ValidNode(n);
    if |p| > 1 { LookCanonical(n.kids, p[1..]); }
  }

  lemma FlattenAt(d: seq<Node>, p: Path)
    requires ValidDir(d)
    ensures p == [] ==> p !in Flatten([], d)
    ensures p != [] ==> Get(Flatten([], d), p) == Look(d, p)
  {
    FlattenShows([], d, p);
    if p != [] { assert p[0..] == p; }
  }

  lemma FlattenValid(d: seq<Node>)
    requires ValidDir(d)
    ensures ValidFiles(Flatten([], d))
  {
    var f := Flatten([], d);
    forall p | p in f
      ensures p != [] && Canonical(f[p]) && DirsAbove(f, p)
    {
      FlattenAt(d, p);
      LookCanonical(d, p);
      forall k | 0 < k < |p|
        ensures p[..k] in f && f[p[..k]].ftype == Dir
      {
        LookAbove(d, p, k);
        FlattenAt(d, p[..k]);
      }
    }
  }

  lemma DiffBetween(a: seq<Node>, b: seq<Node>)
    requires ValidDir(a) && ValidDir(b)
    ensures Between(DiffTrees(a, b), Flatten([], a), Flatten([], b))
  {
    DiffIsPointwise(a, b);
    var out, f, g := DiffTrees(a, b), Flatten([], a), Flatten([], b);
    hide Flatten, Look, DiffTrees;
    forall i | 0 <= i < |out|
      ensures out[i].before == Get(f, out[i].path) && out[i].after == Get(g, out[i].path)
    {
      assert Tells(out[i], [], a, b);
      assert out[i].path[0..] == out[i].path;
      FlattenAt(a, out[i].path);
      FlattenAt(b, out[i].path);
    }
    forall p | Get(f, p) != Get(g, p)
      ensures HasChange(out, p)
    {
      FlattenAt(a, p);
      FlattenAt(b, p);
      assert Differs(a, b, p);
      assert [] + p == p;
    }
  }

  // ---- diff, then apply ----

  ghost predicate NoSockets(f: Files) { forall p :: p in f ==> f[p].ftype != Sock }

  /** d and r are a difference's deletions and its other changes in the applier's order. */
  ghost predicate InOrder(out: seq<Change>, d: seq<Change>, r: seq<Change>)
  {
    && (forall c :: c in d <==> c in out && c.kind == Deleted)
    && (forall c :: c in r <==> c in out && c.kind != Deleted)
    && NoTwice(d) && NoTwice(r) && DeepFirst(d) && ShallowFirst(r)
  }

  lemma UntouchedCase(f: Files, g: Files, out: seq<Change>, d: seq<Change>, r: seq<Change>)
    requires ValidFiles(f) && ValidFiles(g) && NoSockets(g) && Between(out, f, g) && InOrder(out, d, r)
    ensures var s := Case(f, g, f, [], out); GoodCase(s) && NoConflict(s) && NothingEndangered(s) && Taken(s, d, r)
    ensures forall p :: Expected(Case(f, g, f, [], out), p) == Get(g, p)
  {
    var s := Case(f, g, f, [], out);
    assert ByPath(s.local) == map[];
    assert forall c :: Decide(map[], c) == Take;
  }

  /** Applying the difference of two trees to the first gives the second, up to the times of
      directories. */
  lemma DiffThenApply(a: seq<Node>, b: seq<Node>, d: seq<Change>, r: seq<Change>)
    requires ValidDir(a) && ValidDir(b) && NoSockets(Flatten([], b)) && InOrder(DiffTrees(a, b), d, r)
    ensures Puts(r) && Run(Still(Flatten([], a)), d, r) == Outcome(true, Still(Flatten([], b)))
  {
    var f, g, out := Flatten([], a), Flatten([], b), DiffTrees(a, b);
    FlattenValid(a);
    FlattenValid(b);
    DiffBetween(a, b);
    UntouchedCase(f, g, out, d, r);
    MergeLosesNothing(Case(f, g, f, [], out), d, r);
    hide Flatten, DiffTrees, Run, InOrder, Between;
    var h := Run(Still(f), d, r).files;
    forall p
      ensures Get(h, p) == Get(Still(g), p)
    {
      assert Get(h, p) == Plain(Expected(Case(f, g, f, [], out), p));
    }
    SameFiles(h, Still(g));
  }

  lemma SameFiles(h: Files, g: Files)
    requires forall p :: Get(h, p) == Get(g, p)
    ensures h == g
  {
    forall p
      ensures p in h <==> p in g
      ensures p in h ==> h[p] == g[p]
    {
      assert Get(h, p) == Get(g, p);
    }
  }

  // ---- applying again ----

  /** A component of p is now something other than a directory, and either a link or further up
      than p's parent: the applier refuses rather than skips. */
  ghost predicate Blocks(f: Files, p: Path)
  {
    exists k :: 0 < k < |p| && p[..k] in f && f[p[..k]].ftype != Dir && (f[p[..k]].ftype == Link || k < |p| - 1)
  }

  /** In valid files nothing is below a component that is no directory. */
  lemma BelowNonDir(f: Files, p: Path, j: nat, k: nat)
    requires ValidFiles(f) && 0 < j < k <= |p| && p[..j] in f && f[p[..j]].ftype != Dir
    ensures p[..k] !in f
  {
    assert p[..k][..j] == p[..j];
  }

  /** The check, with the one component j of p that is there and no directory. */
  lemma {:induction false} CheckNonDir(f: Files, p: Path, j: nat, k: nat)
    requires ValidFiles(f) && 0 < j <= k <= |p| && p[..j] in f && f[p[..j]].ftype != Dir
    ensures Check(f, p, k) == if f[p[..j]].ftype == Link || j < k then Refused else OverNonDir
    decreases k
  {
    var q := p[..k];
    if j < k {
      BelowNonDir(f, p, j, k);
      assert q[..j] == p[..j];
      assert UnderNonDir(f, q, f[p[..j]].ftype == Link);
      if f[p[..j]].ftype == Link {
        forall i | 0 < i < |q| && q[..i] in f
          ensures f[q[..i]].ftype == Dir || f[q[..i]].ftype == Link
        {
          assert q[..i] == p[..i];
          if i > j { BelowNonDir(f, p, j, i); }
          if i < j { assert DirsAbove(f, p[..j]); assert p[..j][..i] == p[..i]; }
        }
        CheckNonDir(f, p, j, k - 1);
      }
    } else {
      forall i | 0 < i < |q| && q[..i] in f
        ensures f[q[..i]].ftype == Dir
      {
        assert DirsAbove(f, q);
      }
    }
  }

  lemma RefusedIff(f: Files, p: Path)
    requires ValidFiles(f) && p != []
    ensures Target(f, p) == Refused <==> Blocks(f, p)
  {
    if j :| 0 < j < |p| && p[..j] in f && f[p[..j]].ftype != Dir {
      CheckNonDir(f, p, j, |p| - 1);
      forall i | 0 < i < |p| && p[..i] in f && f[p[..i]].ftype != Dir
        ensures i == j
      {
        if i < j { BelowNonDir(f, p, i, j); }
        if j < i { BelowNonDir(f, p, j, i); }
      }
    } else {
      CheckFine(f, p, |p| - 1);
    }
  }

  lemma {:induction false} DelsAgain(f: Files, d: seq<Change>)
    requires ValidFiles(f) && forall i :: 0 <= i < |d| ==> d[i].path != [] && d[i].path !in f
    ensures RunDels(f, d).files == f
    ensures RunDels(f, d).ok <==> forall i :: 0 <= i < |d| ==> !Blocks(f, d[i].path)
  {
    hide Blocks, Target;
    if d != [] {
      var n := |d| - 1;
      DelsAgain(f, d[..n]);
      RefusedIff(f, d[n].path);
      assert f - {d[n].path} == f;
      assert forall i :: 0 <= i < n ==> d[..n][i] == d[i];
    }
  }

  lemma AgainCanPut(f: Files, g: Files, out: seq<Change>, d: seq<Change>, r: seq<Change>, j: nat)
    requires ValidFiles(f) && ValidFiles(g) && NoSockets(g) && Between(out, f, g) && InOrder(out, d, r) && j < |r|
    ensures r[j].after.Some? && CanPut(Still(g), r, r[j])
  {
    var c := r[j];
    assert c in r && c in out;
    assert c.path in g && c.after == Some(g[c.path]) && Canonical(g[c.path]);
    assert DirsAbove(g, c.path);
    forall k | 0 < k < |c.path| && c.path[..k] in Paths(r)
      ensures exists e :: Gives(r, c.path[..k], e) && e.ftype == Dir
    {
      var q := c.path[..k];
      var i :| 0 <= i < |r| && r[i].path == q;
      assert r[i] in r && r[i] in out;
      assert Gives(r, q, g[q]);
    }
  }

  lemma RestAgain(f: Files, g: Files, out: seq<Change>, d: seq<Change>, r: seq<Change>)
    requires ValidFiles(f) && ValidFiles(g) && NoSockets(g) && Between(out, f, g) && InOrder(out, d, r)
    ensures Puts(r) && RunRest(Still(g), r).ok && SetDirs(RunRest(Still(g), r).files, r) == Still(g)
  {
    forall j | 0 <= j < |r|
      ensures r[j].after.Some? && CanPut(Still(g), r, r[j]) && r[j].path in g && r[j].after == Some(g[r[j].path])
    {
      AgainCanPut(f, g, out, d, r, j);
      assert r[j] in r && r[j] in out;
    }
    assert Puts(r);
    hide CanPut, Between;
    RestRuns(Still(g), r);
    var h := SetDirs(RunRest(Still(g), r).files, r);
    forall p
      ensures Get(h, p) == Get(Still(g), p)
    {
      if p in Paths(r) {
        var j :| 0 <= j < |r| && r[j].path == p;
      }
    }
    SameFiles(h, Still(g));
  }

  /** Applying a difference again changes nothing but times of directories.  It reports success exactly when no deleted path
      lies below a link, or two or more levels below anything else that replaced a directory. */
  lemma ApplyingAgain(a: seq<Node>, b: seq<Node>, d: seq<Change>, r: seq<Change>)
    requires ValidDir(a) && ValidDir(b) && NoSockets(Flatten([], b)) && InOrder(DiffTrees(a, b), d, r)
    ensures Puts(r) && Run(Still(Flatten([], b)), d, r).files == Still(Flatten([], b))
    ensures Run(Still(Flatten([], b)), d, r).ok <==> forall i :: 0 <= i < |d| ==> !Blocks(Flatten([], b), d[i].path)
  {
    var f, g, out := Flatten([], a), Flatten([], b), DiffTrees(a, b);
    FlattenValid(a);
    FlattenValid(b);
    DiffBetween(a, b);
    hide Flatten, DiffTrees, Blocks;
    forall i | 0 <= i < |d|
      ensures d[i].path != [] && d[i].path !in g
    {
      assert d[i] in d && d[i] in out;
      assert d[i].path in f;
    }
    StillIsValid(g);
    assert forall p :: Blocks(Still(g), p) <==> Blocks(g, p) by { StillBlocks(g); }
    DelsAgain(Still(g), d);
    RestAgain(f, g, out, d, r);
  }

  lemma StillBlocks(g: Files)
    ensures forall p :: Blocks(Still(g), p) <==> Blocks(g, p)
  {
  }

  // ---- the methods together ----

  lemma {:induction false} OnceInMultiset(cs: seq<Change>, c: Change)
    requires NoTwice(cs)
    ensures multiset(cs)[c] <= 1
  {
    if cs != [] {
      var n := |cs| - 1;
      assert cs == cs[..n] + [cs[n]];
      OnceInMultiset(cs[..n], c);
      if c == cs[n] { assert c !in cs[..n]; }
    }
  }

  lemma TwiceInMultiset(d: seq<Change>, i: nat, j: nat)
    requires i < j < |d| && d[i] == d[j]
    ensures multiset(d)[d[i]] >= 2
  {
    assert d == d[..j] + [d[j]] + d[j + 1..];
    assert d[i] in d[..j];
  }

  /** Part of a list with one change per path has one change per path. */
  lemma PartNoTwice(cs: seq<Change>, d: seq<Change>)
    requires NoTwice(cs) && multiset(d) <= multiset(cs)
    ensures NoTwice(d)
  {
    forall i, j | 0 <= i < j < |d|
      ensures d[i].path != d[j].path
    {
      if d[i].path == d[j].path {
        assert d[i] in multiset(d) && d[j] in multiset(d);
        assert d[i] in cs && d[j] in cs;
        assert d[i] == d[j];
        TwiceInMultiset(d, i, j);
        OnceInMultiset(cs, d[i]);
      }
    }
  }

  lemma {:induction false} FilteredMembers(m: map<Path, Change>, cs: seq<Change>, v: Verdict)
    ensures forall c :: c in Filtered(m, cs, v) <==> c in cs && Decide(m, c) == v
  {
    hide Decide;
    if cs != [] {
      var n := |cs| - 1;
      FilteredMembers(m, cs[..n], v);
      assert cs == cs[..n] + [cs[n]];
    }
  }

  lemma {:induction false} FilteredPart(m: map<Path, Change>, cs: seq<Change>, v: Verdict)
    ensures multiset(Filtered(m, cs, v)) <= multiset(cs)
    ensures forall c :: c in Filtered(m, cs, v) <==> c in cs && Decide(m, c) == v
  {
    hide Decide;
    FilteredMembers(m, cs, v);
    if cs != [] {
      var n := |cs| - 1;
      FilteredPart(m, cs[..n], v);
      assert cs == cs[..n] + [cs[n]];
      assert multiset(cs) == multiset(cs[..n]) + multiset{cs[n]};
      assert multiset([cs[n]]) == multiset{cs[n]};
    }
  }

  lemma PartsOf(cs: seq<Change>, d: seq<Change>, r: seq<Change>)
    requires multiset(d) + multiset(r) == multiset(cs)
    requires (forall c :: c in d ==> c.kind == Deleted) && (forall c :: c in r ==> c.kind != Deleted)
    ensures forall c :: c in d <==> c in cs && c.kind == Deleted
    ensures forall c :: c in r <==> c in cs && c.kind != Deleted
  {
    forall c
      ensures c in cs <==> c in d || c in r
    {
      assert c in cs <==> c in multiset(cs);
      assert c in d <==> c in multiset(d);
      assert c in r <==> c in multiset(r);
    }
  }

  /** What the applier makes of the merge's list. */
  lemma AppliedIsTaken(s: Case, d: seq<Change>, r: seq<Change>)
    requires GoodCase(s)
    requires multiset(d) + multiset(r) == multiset(Filtered(ByPath(s.local), s.incoming, Take))
    requires (forall c :: c in d ==> c.kind == Deleted) && (forall c :: c in r ==> c.kind != Deleted)
    requires DeepFirst(d) && ShallowFirst(r)
    ensures Taken(s, d, r)
  {
    var cs := Filtered(ByPath(s.local), s.incoming, Take);
    FilteredPart(ByPath(s.local), s.incoming, Take);
    PartsOf(cs, d, r);
    assert NoTwice(s.incoming);
    assert multiset(d) <= multiset(s.incoming) && multiset(r) <= multiset(s.incoming);
    PartNoTwice(s.incoming, d);
    PartNoTwice(s.incoming, r);
  }

  lemma {:induction false} NoClashNoConflict(m: map<Path, Change>, cs: seq<Change>)
    ensures Filtered(m, cs, Clash) == [] <==> forall i :: 0 <= i < |cs| ==> Decide(m, cs[i]) != Clash
  {
    FilteredPart(m, cs, Clash);
    var f := Filtered(m, cs, Clash);
    if f != [] { assert f[0] in f; }
    if i :| 0 <= i < |cs| && Decide(m, cs[i]) == Clash { assert cs[i] in f; }
  }

  ghost predicate SafeFiles(f: Files) { forall p :: p in f ==> SafePath(p) }

  /** Merging and applying: without conflicts the working directory ends up as expected, up to
      directory times, exactly when nothing is endangered. */
  method MergeInto(dir: WorkDir, local: seq<Change>, incoming: seq<Change>, ghost base: Files, ghost remote: Files)
    returns (conflicts: seq<Conflict>, ok: bool)
    requires GoodCase(Case(base, remote, dir.files, local, incoming)) && SafeFiles(base) && SafeFiles(remote)
    modifies dir
    ensures var s := Case(base, remote, old(dir.files), local, incoming);
            && (conflicts == [] <==> NoConflict(s))
            && (conflicts != [] ==> dir.files == old(dir.files))
            && (conflicts == [] ==>
                  (NothingEndangered(s) <==> ok && forall p :: Get(Still(dir.files), p) == Plain(Expected(s, p))))
  {
    ghost var s := Case(base, remote, dir.files, local, incoming);
    assert forall c :: c in local || c in incoming ==> Fits(c);
    var apply;
    apply, conflicts := MergeChanges(local, incoming);
    NoClashNoConflict(ByPath(local), incoming);
    assert conflicts == [] <==> NoConflict(s);
    if conflicts != [] {
      return conflicts, false;
    }
    FilteredPart(ByPath(local), incoming, Take);
    forall c | c in apply
      ensures SafePath(c.path) && KindFits(c.kind, c.before, c.after)
    {
      TakenIsIncoming(s, c);
      assert c.path in base || c.path in remote;
    }
    hide GoodCase, NoConflict, NothingEndangered, Expected, Filtered, ByPath, Run, KindFits, SafePath;
    ghost var d, r;
    ok, d, r := dir.Apply(apply);
    AppliedIsTaken(s, d, r);
    MergeExact(s, d, r);
  }
}
