/** The snapshot of all references (catalog/catalog.go RefsSnapshot): a majority scan over every
    register, with each flagged register settled before it is listed. */
module Snapshot {
  import opened Options
  import opened Slots
  import opened Quorums
  import opened Caspaxos
  import opened Agreement

  type Reg = seq<nat>

  /** What the snapshot did with a register: took the row of the scan, settled it, or did not
      see it at all. */
  datatype Seen = Unflagged(c: Ballot) | Settled(c: Ballot) | Unlisted

  /** One register during the snapshot: its own run, and when each acceptor answered the page
      that covers it. */
  datatype Watched = Watched(run: seq<State>, at: map<NodeId, nat>, seen: Seen)

  /** The answers are those that make the scan leave the row unflagged, that make the settling
      succeed, or that have no row of it. */
  ghost predicate SawRegister(voters: set<NodeId>, start: nat, w: Watched)
  {
    && IsRun(voters, w.run) && start < |w.run|
    && match w.seen
       case Unflagged(c) =>
         && Asked(voters, w.run, start, w.at) && IsQuorum(w.at.Keys, voters) && c > 0
         && AllAccepted(voters, w.run, start, w.at, c)
         && (forall n :: n in w.at ==> SlotSeen(w.run, w.at, n).Promised() <= c)
       case Settled(c) =>
         && (forall m :: m in w.run[start].promises ==> m.ballot != c)
         && Chosen(voters, Last(w), c) && Identity(Last(w), c)
       case Unlisted =>
         && Asked(voters, w.run, start, w.at) && IsQuorum(w.at.Keys, voters)
         && (forall n :: n in w.at ==> SlotSeen(w.run, w.at, n).row.None?)
  }

  ghost function Last(w: Watched): State
    requires |w.run| > 0
  {
    w.run[|w.run| - 1]
  }

  /** The value the snapshot lists for the register: none for an absent row or a tombstone. */
  ghost function Listed(w: Watched): Option<Value>
    requires |w.run| > 0
  {
    if w.seen.Unlisted? || w.seen.c !in Last(w).proposals then None
    else
      var v := Last(w).proposals[w.seen.c].value;
      if v.Some? && !v.value.IsTombstone() then v else None
  }

  /** The register is decided at c, or all that was proposed for it before start was purged. */
  ghost predicate Decided(voters: set<NodeId>, start: nat, w: Watched)
    requires start < |w.run|
  {
    if w.seen.Unlisted? then forall b :: b in w.run[start].proposals ==> PurgedAbove(Last(w), b)
    else DecidedRoot(voters, w.run, start, w.seen.c) && w.seen.c in Last(w).proposals
  }

  lemma RegisterIsDecided(voters: set<NodeId>, start: nat, w: Watched)
    requires SawRegister(voters, start, w)
    ensures Decided(voters, start, w)
  {
    hide IsRun;
    match w.seen
    case Unflagged(c) =>
      UnflaggedScanRowIsDecided(voters, w.run, start, w.at, c);
      FastReadIsDecided(voters, w.run, start, w.at, c);
    case Settled(c) => SettleDecides(voters, w.run, start, c);
    case Unlisted => AbsentScanRowIsPurged(voters, w.run, start, w.at);
  }

  /** The whole snapshot: every register it lists is decided at the listed value, with every
      proposal made before the snapshot an ancestor or never chosen, and a register it does not
      list held nothing then but what was purged. */
  lemma SnapshotIsDecided(voters: set<NodeId>, start: nat, regs: map<Reg, Watched>)
    requires forall r :: r in regs ==> SawRegister(voters, start, regs[r])
    ensures forall r :: r in regs ==> start < |regs[r].run| && Decided(voters, start, regs[r])
    ensures forall r :: r in regs && Listed(regs[r]).Some? ==>
      && DecidedRoot(voters, regs[r].run, start, regs[r].seen.c)
      && Last(regs[r]).proposals[regs[r].seen.c].value == Listed(regs[r])
    ensures forall r :: r in regs && !regs[r].seen.Unlisted? ==>
      && regs[r].seen.c in Last(regs[r]).proposals
      && var v := Last(regs[r]).proposals[regs[r].seen.c].value;
         Listed(regs[r]) == if v.Some? && v.value.record.Some? then v else None
  {
    forall r | r in regs ensures start < |regs[r].run| && Decided(voters, start, regs[r]) {
      RegisterIsDecided(voters, start, regs[r]);
    }
    hide SawRegister, DecidedRoot;
  }

  /** What the snapshot fences stays fenced: in any longer run, whatever is chosen above the
      listed ballot was proposed after the snapshot began. */
  lemma LaterValuesAreNewer(voters: set<NodeId>, start: nat, w: Watched, more: seq<State>, b: Ballot)
    requires SawRegister(voters, start, w) && !w.seen.Unlisted?
    requires IsRun(voters, w.run + more) && Chosen(voters, (w.run + more)[|w.run + more| - 1], b)
    ensures b > w.seen.c ==> b !in w.run[start].proposals
    ensures b <= w.seen.c ==> Descends((w.run + more)[|w.run + more| - 1], w.seen.c, b)
  {
    var all := w.run + more;
    var z := |all| - 1;
    RegisterIsDecided(voters, start, w);
    hide IsRun, SawRegister, Descends;
    if b <= w.seen.c {
      assert all[|w.run| - 1] == Last(w);
      ChosenStays(voters, all, |w.run| - 1, z, w.seen.c);
      ChosenFormAChain(voters, all, z, z, b, w.seen.c);
    }
  }
}
