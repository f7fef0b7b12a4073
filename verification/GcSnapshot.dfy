/** Why what is committed after the snapshot was proposed after it began (catalog/catalog.go
    RefsSnapshot, node/gc.go): the fence that the collection relies on, from the registers'
    own runs. */
module GcSnapshot {
  import opened Options
  import opened Slots
  import opened Quorums
  import opened Caspaxos
  import opened Agreement
  import opened Snapshot
  import Cat = Catalog
  import G = GcSafety

  /** The catalog purges tombstones only. */
  ghost predicate PurgesTombstones(s: State)
  {
    forall d :: d in s.purged ==> d in s.proposals && s.proposals[d].value.Some? && s.proposals[d].value.value.IsTombstone()
  }

  /** The register holds what was written at b: chosen, above all else that is, and not purged. */
  ghost predicate Holds(voters: set<NodeId>, s: State, b: Ballot)
  {
    && Chosen(voters, s, b) && b in s.proposals && Cat.Present(s.proposals[b].value)
    && (forall e: Ballot :: Chosen(voters, s, e) ==> e <= b)
    && (forall d :: d in s.purged ==> d < b)
  }

  ghost function VersionAt(s: State, b: Ballot): Ballot
    requires b in s.proposals && s.proposals[b].value.Some?
  {
    s.proposals[b].value.value.version
  }

  /** Above a chosen ballot c a proposal repeats the value of c or one written above c. */
  lemma {:induction false} WrittenAbove(voters: set<NodeId>, s: State, c: Ballot, b: Ballot)
    requires Inv(voters, s) && Cat.ByCatalog(s) && Chosen(voters, s, c) && c in s.proposals && b in s.proposals && c <= b
    requires s.proposals[b].value.Some?
    ensures s.proposals[b].value == s.proposals[c].value || (VersionAt(s, b) > c && VersionAt(s, b) in s.proposals)
    decreases b
  {
    hide Inv, Chosen;
    if c < b && !Cat.Writes(s, b) {
      LaterProposalsStartAbove(voters, s, c, b);
      BaseIsProposal(voters, s, b);
      WrittenAbove(voters, s, c, s.proposals[b].base);
    }
  }

  lemma PurgedIsChosen(voters: set<NodeId>, s: State, d: Ballot, b: Ballot)
    requires Inv(voters, s) && d in s.purged && Chosen(voters, s, b)
    ensures Chosen(voters, s, d)
  {
    hide Inv;
    var q :| IsQuorum(q, voters) && AckedBy(s, b, q);
    SubsetSize(q, voters);
    forall n | n in voters ensures Acked(s, n, d) && d > 0 {
      PurgeFact(voters, s, d, n);
    }
    var n :| n in voters;
    assert AckedBy(s, d, voters) && IsQuorum(voters, voters);
  }

  /** What a register holds in any later state is what the snapshot listed, or was written by a
      proposal made after the snapshot began. */
  lemma HeldIsListedOrNew(voters: set<NodeId>, start: nat, w: Watched, more: seq<State>, b: Ballot)
    requires SawRegister(voters, start, w) && IsRun(voters, w.run + more)
    requires Holds(voters, (w.run + more)[|w.run + more| - 1], b)
    requires Cat.ByCatalog((w.run + more)[|w.run + more| - 1]) && PurgesTombstones((w.run + more)[|w.run + more| - 1])
    ensures var s := (w.run + more)[|w.run + more| - 1];
      || s.proposals[b].value == Listed(w)
      || (VersionAt(s, b) in s.proposals && VersionAt(s, b) !in w.run[start].proposals)
  {
    var all := w.run + more;
    var z := |all| - 1;
    var s := all[z];
    RegisterIsDecided(voters, start, w);
    assert start < |w.run|;
    hide SawRegister, IsRun, Cat.ByCatalog, PurgesTombstones, Descends, Holds, Chosen, PurgedAbove;
    assert all[|w.run| - 1] == Last(w) && all[start] == w.run[start];
    if !w.seen.Unlisted? {
      ListedOrNew(voters, all, |w.run| - 1, start, w.seen.c, b);
      HeldIsPresent(voters, s, b);
      PresentIsListed(w, s.proposals[b].value);
      hide Listed;
    } else {
      UnlistedIsNew(voters, all, |w.run| - 1, start, b);
    }
  }

  lemma HeldIsPresent(voters: set<NodeId>, s: State, b: Ballot)
    requires Holds(voters, s, b)
    ensures b in s.proposals && Cat.Present(s.proposals[b].value)
  {
  }

  lemma PresentIsListed(w: Watched, v: Option<Value>)
    requires |w.run| > 0 && !w.seen.Unlisted? && w.seen.c in Last(w).proposals && Cat.Present(v)
    ensures v == Last(w).proposals[w.seen.c].value ==> v == Listed(w)
  {
  }

  lemma ListedOrNew(voters: set<NodeId>, all: seq<State>, mid: nat, start: nat, c: Ballot, b: Ballot)
    requires IsRun(voters, all) && start <= mid < |all| && Chosen(voters, all[mid], c) && c in all[mid].proposals
    requires Holds(voters, all[|all| - 1], b) && Cat.ByCatalog(all[|all| - 1])
    requires forall e :: e in all[start].proposals ==> e <= c
    ensures var s := all[|all| - 1];
      || s.proposals[b].value == all[mid].proposals[c].value
      || (VersionAt(s, b) in s.proposals && VersionAt(s, b) !in all[start].proposals)
  {
    hide IsRun, Inv;
    var z := |all| - 1;
    RunInv(voters, all, z);
    RunGrows(voters, all, mid, z);
    ChosenStays(voters, all, mid, z, c);
    hide Chosen;
    WrittenAbove(voters, all[z], c, b);
  }

  lemma UnlistedIsNew(voters: set<NodeId>, all: seq<State>, mid: nat, start: nat, b: Ballot)
    requires IsRun(voters, all) && start <= mid < |all|
    requires Holds(voters, all[|all| - 1], b) && Cat.ByCatalog(all[|all| - 1]) && PurgesTombstones(all[|all| - 1])
    requires forall e :: e in all[start].proposals ==> PurgedAbove(all[mid], e)
    ensures var s := all[|all| - 1]; VersionAt(s, b) in s.proposals && VersionAt(s, b) !in all[start].proposals
  {
    hide IsRun, Inv;
    var z := |all| - 1;
    var s := all[z];
    RunInv(voters, all, z);
    RunGrows(voters, all, mid, z);
    WrittenSomewhere(voters, s, b);
    var v := VersionAt(s, b);
    if v in all[start].proposals {
      var d :| d in all[mid].purged && v <= d;
      assert d in s.purged;
      PurgedIsChosen(voters, s, d, b);
      hide Chosen;
      WrittenAbove(voters, s, d, b);
    }
  }

  lemma {:induction false} WrittenSomewhere(voters: set<NodeId>, s: State, b: Ballot)
    requires Inv(voters, s) && Cat.ByCatalog(s) && b in s.proposals && s.proposals[b].value.Some?
    ensures VersionAt(s, b) in s.proposals
    decreases b
  {
    hide Inv;
    if !Cat.Writes(s, b) {
      BaseIsProposal(voters, s, b);
      WrittenSomewhere(voters, s, s.proposals[b].base);
    }
  }

  // ---- in the collection's time ----

  ghost predicate Rising(clock: nat -> nat, n: nat) { forall i, j :: 0 <= i < j < n ==> clock(i) < clock(j) }

  /** The proposal at b was made at time t of the run. */
  ghost predicate MadeAt(run: seq<State>, clock: nat -> nat, b: Ballot, t: nat)
  {
    exists i :: 0 <= i < |run| && b in run[i].proposals && (i > 0 ==> b !in run[i - 1].proposals) && clock(i) == t
  }

  lemma MadeLater(voters: set<NodeId>, run: seq<State>, clock: nat -> nat, start: nat, b: Ballot, t: nat)
    requires IsRun(voters, run) && start < |run| && Rising(clock, |run|) && MadeAt(run, clock, b, t) && b !in run[start].proposals
    ensures t > clock(start)
  {
    hide IsRun;
    var i :| 0 <= i < |run| && b in run[i].proposals && (i > 0 ==> b !in run[i - 1].proposals) && clock(i) == t;
    if i <= start { RunGrows(voters, run, i, start); }
  }

  /** The collection has snapshotted, and did not begin to after the register's scan began. */
  ghost predicate BeganBefore(s: G.State, t: nat)
  {
    s.ep.phase.Snapshotting? || G.AfterSnapshot(s.ep.phase) ==> s.ep.phase.began <= t
  }

  /** The fence is a fact about the registers: a value that a register comes to hold after the
      snapshot is the one listed, or its commit is one the collection allows.  Its proposal is
      then newer than the snapshot, also where the register was not listed. */
  lemma CommitsAreFenced(voters: set<NodeId>, start: nat, w: Watched, more: seq<State>, clock: nat -> nat, b: Ballot,
                         s: G.State, name: G.Name, p: G.Ref)
    requires SawRegister(voters, start, w) && IsRun(voters, w.run + more)
    requires var last := (w.run + more)[|w.run + more| - 1];
      && Holds(voters, last, b) && Cat.ByCatalog(last) && PurgesTombstones(last)
      && Rising(clock, |w.run + more|) && MadeAt(w.run + more, clock, VersionAt(last, b), p.proposed)
      && last.proposals[b].value != Listed(w)
    requires BeganBefore(s, clock(start))
    ensures G.MayCommit(s, name, p)
    ensures s.ep.phase.Snapshotting? || G.AfterSnapshot(s.ep.phase) ==> p.proposed > s.ep.phase.began
  {
    var all := w.run + more;
    HeldIsListedOrNew(voters, start, w, more, b);
    assert all[start] == w.run[start] && start < |w.run|;
    hide IsRun, SawRegister, Holds, MadeAt, Rising, Cat.ByCatalog, PurgesTombstones;
    MadeLater(voters, all, clock, start, VersionAt(all[|all| - 1], b), p.proposed);
  }
}
