/** What a CASPaxos register promises over whole runs: agreement as a chain, purges that
    resurrect nothing, and reads and scans that only return decided values. */
module Agreement {
  import opened Options
  import opened Slots
  import opened Quorums
  import opened Caspaxos

  ghost predicate IsRun(voters: set<NodeId>, run: seq<State>)
  {
    && |run| > 0
    && Init(voters, run[0])
    && forall i :: 0 < i < |run| ==> Next(voters, run[i - 1], run[i])
  }

  lemma RunStep(voters: set<NodeId>, run: seq<State>, j: nat)
    requires IsRun(voters, run) && 0 < j < |run|
    ensures Next(voters, run[j - 1], run[j])
  {
  }

  lemma {:induction false} RunInv(voters: set<NodeId>, run: seq<State>, i: nat)
    requires IsRun(voters, run) && i < |run|
    ensures Inv(voters, run[i])
  {
    if i > 0 {
      RunInv(voters, run, i - 1);
      StepKeeps(voters, run[i - 1], run[i]);
    }
  }

  lemma {:induction false} RunGrows(voters: set<NodeId>, run: seq<State>, i: nat, j: nat)
    requires IsRun(voters, run) && i <= j < |run|
    ensures Grows(run[i], run[j])
    decreases j
  {
    hide Inv, IsRun, Next;
    if i < j {
      RunGrows(voters, run, i, j - 1);
      RunInv(voters, run, j - 1);
      RunStep(voters, run, j);
      StepKeeps(voters, run[j - 1], run[j]);
    }
  }

  // Single facts of the invariant.

  lemma AckFact(voters: set<NodeId>, s: State, n: NodeId, b: Ballot)
    requires Inv(voters, s) && Acked(s, n, b)
    ensures n in s.slots && b in s.proposals && 0 < b <= s.slots[n].Promised()
    ensures Remembered(s, b, s.slots[n].Accepted(), s.slots[n].Promised() + 1)
  {
    hide PromisesOk, PromisesRemember, SlotsOk, ProposalsOk, PurgesOk, StubsOk;
  }

  lemma MemoryFact(voters: set<NodeId>, s: State, n: NodeId, b: Ballot, m: PromiseMsg)
    requires Inv(voters, s) && Acked(s, n, b) && m in s.promises && m.from == n && b < m.ballot
    ensures Remembered(s, b, m.accepted, m.ballot)
  {
    hide PromisesOk, AcksOk, SlotsOk, ProposalsOk, PurgesOk, StubsOk;
  }

  lemma PromiseFact(voters: set<NodeId>, s: State, m: PromiseMsg)
    requires Inv(voters, s) && m in s.promises
    ensures m.from in s.slots && m.accepted < m.ballot <= s.slots[m.from].Promised()
    ensures RowOk(s, m.from, m.accepted, m.value)
    ensures s.slots[m.from].row.None? ==> exists d :: d in s.purged && m.ballot <= d
  {
    hide PromisesRemember, AcksOk, SlotsOk, ProposalsOk, PurgesOk;
  }

  lemma SlotFact(voters: set<NodeId>, s: State, n: NodeId)
    requires Inv(voters, s) && n in voters
    ensures n in s.slots && s.slots[n].Valid() && RowOk(s, n, s.slots[n].Accepted(), s.slots[n].Value())
  {
    hide PromisesRemember, AcksOk, PromisesOk, ProposalsOk, PurgesOk, StubsOk;
  }

  lemma PurgeFact(voters: set<NodeId>, s: State, d: Ballot, n: NodeId)
    requires Inv(voters, s) && d in s.purged && n in voters
    ensures Acked(s, n, d) && d > 0
  {
    hide PromisesRemember, AcksOk, PromisesOk, ProposalsOk, SlotsOk, StubsOk;
  }

  lemma ProposalFact(voters: set<NodeId>, s: State, b: Ballot) returns (q: set<NodeId>)
    requires Inv(voters, s) && b in s.proposals
    ensures FromQuorum(voters, s, b, q, s.proposals[b]) && b > 0
  {
    hide PromisesRemember, AcksOk, PromisesOk, PurgesOk, SlotsOk, StubsOk;
    assert Backed(voters, s, b);
    q :| FromQuorum(voters, s, b, q, s.proposals[b]);
  }

  ghost predicate AckedBy(s: State, b: Ballot, q: set<NodeId>)
  {
    forall n :: n in q ==> Acked(s, n, b)
  }

  /** A majority accepted the proposal at b. */
  ghost predicate Chosen(voters: set<NodeId>, s: State, b: Ballot)
  {
    b > 0 && exists q :: IsQuorum(q, voters) && AckedBy(s, b, q)
  }

  ghost predicate PurgedBetween(s: State, lo: Ballot, hi: Ballot)
  {
    exists d :: d in s.purged && lo <= d < hi
  }

  ghost predicate PurgedAbove(s: State, lo: Ballot)
  {
    exists d :: d in s.purged && lo <= d
  }

  // ---- agreement ----

  /** Every proposal above a chosen ballot b was computed from a row accepted at or above
      b, or from an absent row that a purge at or above b left behind. */
  lemma LaterProposalsStartAbove(voters: set<NodeId>, s: State, b: Ballot, c: Ballot)
    requires Inv(voters, s) && Chosen(voters, s, b) && c in s.proposals && b < c
    ensures s.proposals[c].base >= b || (s.proposals[c].base == 0 && PurgedBetween(s, b, c))
  {
    hide Inv;
    var p := s.proposals[c];
    var q :| IsQuorum(q, voters) && AckedBy(s, b, q);
    var q' := ProposalFact(voters, s, c);
    var n := QuorumsMeet(q, q', voters);
    var m :| Promised(s, n, c, m) && m.accepted <= p.base;
    MemoryFact(voters, s, n, b, m);
    if p.base < b {
      var d :| d in s.purged && b <= d < c;
      PurgeHidesBelow(voters, s, c, d);
    }
  }

  /** p is where the proposal at b came from: the row it was computed from, or the purged
      tombstone that had emptied the register. */
  ghost predicate Parent(s: State, p: Ballot, b: Ballot)
  {
    && b in s.proposals && 0 < p < b
    && (s.proposals[b].base == p || (s.proposals[b].base == 0 && p in s.purged))
  }

  ghost predicate Descends(s: State, b: Ballot, anc: Ballot)
    decreases b
  {
    b == anc || exists p: nat :: p < b && Parent(s, p, b) && Descends(s, p, anc)
  }

  /** Agreement: a chosen proposal is an ancestor of every later proposal, chosen or not. */
  lemma {:induction false} ChosenIsAncestor(voters: set<NodeId>, s: State, b: Ballot, c: Ballot)
    requires Inv(voters, s) && Chosen(voters, s, b) && c in s.proposals && b <= c
    ensures Descends(s, c, b)
    decreases c
  {
    hide Inv;
    if b < c {
      LaterProposalsStartAbove(voters, s, b, c);
      var p := s.proposals[c].base;
      BaseIsProposal(voters, s, c);
      if p < b {
        p :| p in s.purged && b <= p < c;
        PurgedIsProposal(voters, s, p);
      }
      ChosenIsAncestor(voters, s, b, p);
      assert Parent(s, p, c);
    }
  }

  lemma BaseIsProposal(voters: set<NodeId>, s: State, c: Ballot)
    requires Inv(voters, s) && c in s.proposals
    ensures s.proposals[c].base < c
    ensures s.proposals[c].base > 0 ==>
      s.proposals[c].base in s.proposals && s.proposals[c].cur == s.proposals[s.proposals[c].base].value
    ensures s.proposals[c].base == 0 ==> s.proposals[c].cur == None
  {
    hide Inv;
    var p := s.proposals[c];
    var q := ProposalFact(voters, s, c);
    var n, m :| n in q && Promised(s, n, c, m) && m.accepted == p.base && m.value == p.cur;
    PromiseFact(voters, s, m);
  }

  lemma PurgedIsProposal(voters: set<NodeId>, s: State, d: Ballot)
    requires Inv(voters, s) && d in s.purged
    ensures d in s.proposals || voters == {}
  {
    hide Inv;
    if n :| n in voters {
      PurgeFact(voters, s, d, n);
      AckFact(voters, s, n, d);
    }
  }

  /** Of any two proposals chosen anywhere in a run, the lower is an ancestor of the higher. */
  lemma ChosenFormAChain(voters: set<NodeId>, run: seq<State>, i: nat, j: nat, b: Ballot, c: Ballot)
    requires IsRun(voters, run) && i < |run| && j < |run|
    requires Chosen(voters, run[i], b) && Chosen(voters, run[j], c)
    ensures var last := run[|run| - 1];
      if b <= c then Descends(last, c, b) else Descends(last, b, c)
  {
    hide Inv, IsRun;
    var z := |run| - 1;
    RunInv(voters, run, z);
    ChosenStays(voters, run, i, z, b);
    ChosenStays(voters, run, j, z, c);
    ChosenIsProposal(voters, run[z], b);
    ChosenIsProposal(voters, run[z], c);
    if b <= c {
      ChosenIsAncestor(voters, run[z], b, c);
    } else {
      ChosenIsAncestor(voters, run[z], c, b);
    }
  }

  lemma ChosenIsProposal(voters: set<NodeId>, s: State, b: Ballot)
    requires Inv(voters, s) && Chosen(voters, s, b)
    ensures b in s.proposals
  {
    hide Inv;
    var q :| IsQuorum(q, voters) && AckedBy(s, b, q);
    var n := QuorumsMeet(q, q, voters);
    AckFact(voters, s, n, b);
  }

  lemma ChosenStays(voters: set<NodeId>, run: seq<State>, i: nat, j: nat, b: Ballot)
    requires IsRun(voters, run) && i <= j < |run| && Chosen(voters, run[i], b)
    ensures Chosen(voters, run[j], b)
  {
    hide IsRun;
    RunGrows(voters, run, i, j);
    var q :| IsQuorum(q, voters) && AckedBy(run[i], b, q);
    assert AckedBy(run[j], b, q);
  }

  // ---- purges ----

  /** Once a purge at d was sent, no acceptor holds or takes a row below d, no proposal
      above d starts from a row below d, and what was not accepted below d never is. */
  lemma PurgeNeverResurrects(voters: set<NodeId>, run: seq<State>, i: nat, j: nat, d: Ballot)
    requires IsRun(voters, run) && i <= j < |run| && d in run[i].purged
    ensures forall n :: n in voters ==>
      n in run[j].slots && (run[j].slots[n].Accepted() == 0 || run[j].slots[n].Accepted() >= d) && run[j].slots[n].Promised() >= d
    ensures forall c :: c in run[j].proposals && c > d ==>
      run[j].proposals[c].base == 0 || run[j].proposals[c].base >= d
    ensures NoNewAcksBelow(run[i], run[j], d)
    ensures forall c :: 0 < c < d && Chosen(voters, run[j], c) ==> Chosen(voters, run[i], c)
  {
    hide Inv, IsRun;
    RunInv(voters, run, j);
    RunGrows(voters, run, i, j);
    var s := run[j];
    forall n | n in voters
      ensures n in s.slots && (s.slots[n].Accepted() == 0 || s.slots[n].Accepted() >= d) && s.slots[n].Promised() >= d
    {
      PurgeFact(voters, s, d, n);
      AckFact(voters, s, n, d);
    }
    forall c | c in s.proposals && c > d ensures s.proposals[c].base == 0 || s.proposals[c].base >= d {
      PurgeHidesBelow(voters, s, c, d);
    }
    AcksBelowPurgeAreFrozen(voters, run, i, j, d);
    forall c | 0 < c < d && Chosen(voters, s, c) ensures Chosen(voters, run[i], c) {
      var q :| IsQuorum(q, voters) && AckedBy(s, c, q);
      assert AckedBy(run[i], c, q);
    }
  }

  lemma PurgeHidesBelow(voters: set<NodeId>, s: State, c: Ballot, d: Ballot)
    requires Inv(voters, s) && c in s.proposals && d in s.purged && c > d
    ensures s.proposals[c].base == 0 || s.proposals[c].base >= d
  {
    hide Inv;
    var p := s.proposals[c];
    var q := ProposalFact(voters, s, c);
    var n, m :| n in q && Promised(s, n, c, m) && m.accepted == p.base && m.value == p.cur;
    PurgeFact(voters, s, d, n);
    MemoryFact(voters, s, n, d, m);
  }

  ghost predicate NoNewAcksBelow(s: State, t: State, d: Ballot)
  {
    forall n: NodeId, b: Ballot :: b < d && Acked(t, n, b) ==> Acked(s, n, b)
  }

  lemma {:induction false} AcksBelowPurgeAreFrozen(voters: set<NodeId>, run: seq<State>, i: nat, j: nat, d: Ballot)
    requires IsRun(voters, run) && i <= j < |run| && d in run[i].purged
    ensures d in run[j].purged && NoNewAcksBelow(run[i], run[j], d)
    decreases j
  {
    hide Inv, IsRun, Next;
    if i < j {
      RunStep(voters, run, j);
      AcksBelowPurgeAreFrozen(voters, run, i, j - 1, d);
      RunInv(voters, run, j - 1);
      NewAcksAreAbovePurge(voters, run[j - 1], run[j], d);
    }
  }

  lemma NewAcksAreAbovePurge(voters: set<NodeId>, s: State, t: State, d: Ballot)
    requires Inv(voters, s) && Next(voters, s, t) && d in s.purged
    ensures d in t.purged && NoNewAcksBelow(s, t, d)
  {
    var e :| Enabled(voters, s, e) && t == Apply(s, e);
    hide Inv;
    StepPurged(voters, s, e, t);
    hide Enabled, Apply, Next;
    forall n: NodeId, b: Ballot | b < d && Acked(t, n, b) ensures Acked(s, n, b) {
      if !Acked(s, n, b) {
        NewAckAbove(voters, s, e, t, n, b);
        PurgeFact(voters, s, d, n);
        AckFact(voters, s, n, d);
      }
    }
  }

  lemma StepPurged(voters: set<NodeId>, s: State, e: Event, t: State)
    requires Enabled(voters, s, e) && t == Apply(s, e)
    ensures s.purged <= t.purged
  {
  }

  lemma NewAckAbove(voters: set<NodeId>, s: State, e: Event, t: State, n: NodeId, b: Ballot)
    requires Inv(voters, s) && Enabled(voters, s, e) && t == Apply(s, e) && Acked(t, n, b) && !Acked(s, n, b)
    ensures n in voters && n in s.slots && b >= s.slots[n].Promised()
  {
    assert s.slots.Keys == voters;
    hide Inv;
  }

  // ---- reads and scans ----

  /** The acceptor n answered with its row some time between start and the end of the run. */
  ghost predicate Asked(voters: set<NodeId>, run: seq<State>, start: nat, at: map<NodeId, nat>)
  {
    && IsRun(voters, run) && start < |run|
    && at.Keys <= voters
    && forall n :: n in at ==> start <= at[n] < |run| && n in run[at[n]].slots
  }

  ghost function SlotSeen(run: seq<State>, at: map<NodeId, nat>, n: NodeId): Slot
    requires n in at && at[n] < |run| && n in run[at[n]].slots
  {
    run[at[n]].slots[n]
  }

  ghost predicate AllAccepted(voters: set<NodeId>, run: seq<State>, start: nat, at: map<NodeId, nat>, c: Ballot)
    requires Asked(voters, run, start, at)
  {
    forall n :: n in at ==> SlotSeen(run, at, n).Accepted() == c
  }

  lemma SeenBallotIsAcked(voters: set<NodeId>, run: seq<State>, start: nat, at: map<NodeId, nat>, n: NodeId)
    requires Asked(voters, run, start, at) && n in at
    ensures var c := SlotSeen(run, at, n).Accepted();
      var last := run[|run| - 1];
      c > 0 ==> Acked(last, n, c) && c in last.proposals && SlotSeen(run, at, n).Value() == last.proposals[c].value
  {
    hide Inv, IsRun;
    RunInv(voters, run, at[n]);
    RunGrows(voters, run, at[n], |run| - 1);
    SlotFact(voters, run[at[n]], n);
  }

  /** What the reading of one acceptor says about an earlier accept there. */
  lemma SeenRemembers(voters: set<NodeId>, run: seq<State>, start: nat, at: map<NodeId, nat>, n: NodeId, b: Ballot)
    requires Asked(voters, run, start, at) && n in at && Acked(run[start], n, b)
    ensures var c := SlotSeen(run, at, n).Accepted();
      c >= b || (c == 0 && PurgedAbove(run[|run| - 1], b))
  {
    hide Inv, IsRun;
    RunInv(voters, run, at[n]);
    RunGrows(voters, run, start, at[n]);
    RunGrows(voters, run, at[n], |run| - 1);
    var s := run[at[n]];
    AckFact(voters, s, n, b);
    if s.slots[n].Accepted() < b {
      var d :| d in s.purged && b <= d < s.slots[n].Promised() + 1;
      assert d in run[|run| - 1].purged;
    }
  }

  /** A fast read that finds one accepted ballot on a quorum returns a chosen value that
      is no older than anything chosen before the read began; finding no row on a quorum
      means that whatever was chosen before has been purged. */
  lemma FastReadIsDecided(voters: set<NodeId>, run: seq<State>, start: nat, at: map<NodeId, nat>, c: Ballot)
    requires Asked(voters, run, start, at) && IsQuorum(at.Keys, voters)
    requires AllAccepted(voters, run, start, at, c)
    ensures var last := run[|run| - 1];
      && (c > 0 ==> Chosen(voters, last, c) && c in last.proposals)
      && (c > 0 ==> forall n :: n in at ==> SlotSeen(run, at, n).Value() == last.proposals[c].value)
      && (forall b: Ballot :: Chosen(voters, run[start], b) ==>
           b <= c || (c == 0 && PurgedAbove(last, b)))
  {
    hide Inv, IsRun;
    var last := run[|run| - 1];
    if c > 0 {
      forall n | n in at
        ensures Acked(last, n, c) && c in last.proposals && SlotSeen(run, at, n).Value() == last.proposals[c].value
      {
        SeenBallotIsAcked(voters, run, start, at, n);
      }
      assert AckedBy(last, c, at.Keys);
      var n := QuorumsMeet(at.Keys, at.Keys, voters);
    }
    forall b: Ballot | Chosen(voters, run[start], b)
      ensures b <= c || (c == 0 && PurgedAbove(last, b))
    {
      var q :| IsQuorum(q, voters) && AckedBy(run[start], b, q);
      var n := QuorumsMeet(q, at.Keys, voters);
      SeenRemembers(voters, run, start, at, n, b);
    }
  }

  /** c is decided, and everything proposed before the run reached start is at or below c
      and, if it is ever chosen, an ancestor of c. */
  ghost predicate DecidedRoot(voters: set<NodeId>, run: seq<State>, start: nat, c: Ballot)
    requires start < |run|
  {
    var last := run[|run| - 1];
    && Chosen(voters, last, c)
    && (forall b :: b in run[start].proposals ==> b <= c)
    && (forall b :: b in run[start].proposals && Chosen(voters, last, b) ==> Descends(last, c, b))
  }

  lemma BoundedProposalsAreAncestors(voters: set<NodeId>, run: seq<State>, start: nat, c: Ballot)
    requires IsRun(voters, run) && start < |run| && Chosen(voters, run[|run| - 1], c)
    requires forall b :: b in run[start].proposals ==> b <= c
    ensures DecidedRoot(voters, run, start, c)
  {
    hide Inv, IsRun;
    var z := |run| - 1;
    RunInv(voters, run, z);
    RunGrows(voters, run, start, z);
    ChosenIsProposal(voters, run[z], c);
    forall b | b in run[start].proposals && Chosen(voters, run[z], b) ensures Descends(run[z], c, b) {
      ChosenIsAncestor(voters, run[z], b, c);
    }
  }

  /** A prepare that finished before start left a promise at one of the acceptors asked. */
  lemma EarlierProposalSeen(voters: set<NodeId>, run: seq<State>, start: nat, at: map<NodeId, nat>, b: Ballot)
    returns (n: NodeId, m: PromiseMsg)
    requires Asked(voters, run, start, at) && IsQuorum(at.Keys, voters) && b in run[start].proposals
    ensures n in at && Promised(run[at[n]], n, b, m)
    ensures SlotSeen(run, at, n).Promised() >= b
  {
    hide Inv, IsRun;
    RunInv(voters, run, start);
    var q := ProposalFact(voters, run[start], b);
    n := QuorumsMeet(q, at.Keys, voters);
    m :| Promised(run[start], n, b, m);
    RunGrows(voters, run, start, at[n]);
    RunInv(voters, run, at[n]);
    PromiseFact(voters, run[at[n]], m);
  }

  /** A register that a scan does not flag (every reply has the row, all at one accepted
      ballot c, no promise above it) is decided at c, and no proposal made before the scan
      can displace it. */
  lemma UnflaggedScanRowIsDecided(voters: set<NodeId>, run: seq<State>, start: nat, at: map<NodeId, nat>, c: Ballot)
    requires Asked(voters, run, start, at) && IsQuorum(at.Keys, voters)
    requires c > 0 && AllAccepted(voters, run, start, at, c)
    requires forall n :: n in at ==> SlotSeen(run, at, n).Promised() <= c
    ensures DecidedRoot(voters, run, start, c)
  {
    hide Inv, IsRun;
    FastReadIsDecided(voters, run, start, at, c);
    forall b | b in run[start].proposals ensures b <= c {
      var n, m := EarlierProposalSeen(voters, run, start, at, b);
    }
    BoundedProposalsAreAncestors(voters, run, start, c);
  }

  /** A proposal prepared after start that is chosen decides the register and fences every
      proposal made before it.  An identity transition decides the value of the row that its
      prepare found. */
  lemma SettleDecides(voters: set<NodeId>, run: seq<State>, start: nat, e: Ballot)
    requires IsRun(voters, run) && start < |run|
    requires forall m :: m in run[start].promises ==> m.ballot != e
    requires Chosen(voters, run[|run| - 1], e)
    ensures DecidedRoot(voters, run, start, e) && e in run[|run| - 1].proposals
    ensures Identity(run[|run| - 1], e) ==> KeepsFound(run[|run| - 1], e)
  {
    hide Inv, IsRun;
    var z := |run| - 1;
    RunInv(voters, run, z);
    RunInv(voters, run, start);
    RunGrows(voters, run, start, z);
    ChosenIsProposal(voters, run[z], e);
    BaseIsProposal(voters, run[z], e);
    var q := ProposalFact(voters, run[z], e);
    forall b | b in run[start].proposals ensures b <= e {
      var q' := ProposalFact(voters, run[start], b);
      var n := QuorumsMeet(q, q', voters);
      var m' :| Promised(run[start], n, b, m');
      var m :| Promised(run[z], n, e, m);
      PromiseFact(voters, run[start], m');
      NewPromisesAreAbove(voters, run, start, z, m);
    }
    BoundedProposalsAreAncestors(voters, run, start, e);
  }

  /** The proposal at e re-accepts what its prepare found. */
  ghost predicate Identity(s: State, e: Ballot)
  {
    e in s.proposals && s.proposals[e].value == s.proposals[e].cur
  }

  /** e has the value of the proposal it started from, or none if it started from nothing. */
  ghost predicate KeepsFound(s: State, e: Ballot)
  {
    e in s.proposals &&
    if s.proposals[e].base == 0 then s.proposals[e].value == None
    else s.proposals[e].base in s.proposals && s.proposals[e].value == s.proposals[s.proposals[e].base].value
  }

  lemma {:induction false} NewPromisesAreAbove(voters: set<NodeId>, run: seq<State>, i: nat, j: nat, m: PromiseMsg)
    requires IsRun(voters, run) && i <= j < |run| && m in run[j].promises && m !in run[i].promises
    ensures m.from in run[i].slots && m.ballot > run[i].slots[m.from].Promised()
    decreases j
  {
    hide Inv, IsRun;
    if m in run[j - 1].promises {
      NewPromisesAreAbove(voters, run, i, j - 1, m);
    } else {
      RunStep(voters, run, j);
      RunGrows(voters, run, i, j - 1);
    }
  }

  /** A register that no reply of a quorum has a row for: everything proposed before the
      scan is at or below a purged tombstone. */
  lemma AbsentScanRowIsPurged(voters: set<NodeId>, run: seq<State>, start: nat, at: map<NodeId, nat>)
    requires Asked(voters, run, start, at) && IsQuorum(at.Keys, voters)
    requires forall n :: n in at ==> SlotSeen(run, at, n).row.None?
    ensures forall b :: b in run[start].proposals ==> PurgedAbove(run[|run| - 1], b)
  {
    hide Inv, IsRun;
    forall b | b in run[start].proposals ensures PurgedAbove(run[|run| - 1], b) {
      var n, m := EarlierProposalSeen(voters, run, start, at, b);
      RunInv(voters, run, at[n]);
      RunGrows(voters, run, at[n], |run| - 1);
      PromiseFact(voters, run[at[n]], m);
      var d :| d in run[at[n]].purged && m.ballot <= d;
      assert d in run[|run| - 1].purged;
    }
  }
}
