/** References as register values (catalog/catalog.go): conditional puts and deletes as
    change functions, and what versions mean over a register's history. */
module Catalog {
  import opened Options
  import opened Slots
  import opened Quorums
  import opened Caspaxos
  import opened Agreement

  /** A reference precondition; an expectation of None means the name must not exist. */
  datatype Cond = Cond(
    force: bool,
    versioned: bool, expectedVersion: Option<Ballot>,
    keyed: bool, expectedOld: Option<Bytes>)

  datatype Verdict = Commit(value: Value) | AlreadyDone | Mismatch

  predicate Present(cur: Option<Value>)
  {
    cur.Some? && !cur.value.IsTombstone()
  }

  predicate Check(cond: Cond, cur: Option<Value>, keyOf: Bytes -> Bytes)
  {
    if cond.force then true
    else if cond.versioned then
      if cond.expectedVersion.None? then !Present(cur)
      else Present(cur) && cur.value.version == cond.expectedVersion.value
    else if cond.keyed then
      if cond.expectedOld.None? then !Present(cur)
      else Present(cur) && keyOf(cur.value.record.value) == cond.expectedOld.value
    else true
  }

  /** RefPut's change: write the record under the ballot, or refuse; a retry that finds its
      own record is already done. */
  function PutChange(record: Bytes, cond: Cond, keyOf: Bytes -> Bytes, cur: Option<Value>, b: Ballot): (v: Verdict)
  {
    if !Check(cond, cur, keyOf) then
      if Present(cur) && cur.value.record.value == record then AlreadyDone else Mismatch
    else Commit(Value(Some(record), b))
  }

  /** RefDelete's change: a tombstone over a present name only. */
  function DeleteChange(cond: Cond, keyOf: Bytes -> Bytes, cur: Option<Value>, b: Ballot): (v: Verdict)
  {
    if !Present(cur) && (cond.force || (cond.versioned && cond.expectedVersion.Some?) || (cond.keyed && cond.expectedOld.Some?))
    then AlreadyDone
    else if !Check(cond, cur, keyOf) then Mismatch
    else if !Present(cur) then AlreadyDone
    else Commit(Value(None, b))
  }

  /** A register only ever written by puts, deletes and settles: each proposal repeats the
      value it found or writes one stamped with its own ballot. */
  ghost predicate ByCatalog(s: State)
  {
    forall c :: c in s.proposals ==>
      || s.proposals[c].value == s.proposals[c].cur
      || (s.proposals[c].value.Some? && s.proposals[c].value.value.version == c)
  }

  ghost predicate Writes(s: State, c: Ballot)
  {
    c in s.proposals && s.proposals[c].value.Some? && s.proposals[c].value.value.version == c
  }

  /** The put at c replaced a present value of version e. */
  ghost predicate Replaces(s: State, c: Ballot, e: Ballot)
  {
    Writes(s, c) && Present(s.proposals[c].cur) && s.proposals[c].cur.value.version == e
  }

  /** Every commit of a put or delete stamps its ballot; a put or delete that names a
      version commits only over a present value of that version. */
  lemma ChangesAreStamped(record: Bytes, cond: Cond, keyOf: Bytes -> Bytes, cur: Option<Value>, b: Ballot)
    ensures var p := PutChange(record, cond, keyOf, cur, b);
      p.Commit? ==> p.value.version == b && p.value.record == Some(record)
    ensures var d := DeleteChange(cond, keyOf, cur, b);
      d.Commit? ==> d.value.version == b && d.value.IsTombstone() && Present(cur)
    ensures !cond.force && cond.versioned && cond.expectedVersion.Some? ==>
      forall v :: v in {PutChange(record, cond, keyOf, cur, b), DeleteChange(cond, keyOf, cur, b)} && v.Commit? ==>
        Present(cur) && cur.value.version == cond.expectedVersion.value
  {
  }

  /** Exactly when a put commits, and what it answers otherwise.  Force comes before versions, and
      versions before keys; an expectation of None is met by an absent or deleted name only. */
  lemma PutExactly(record: Bytes, cond: Cond, keyOf: Bytes -> Bytes, cur: Option<Value>, b: Ballot)
    ensures var v := PutChange(record, cond, keyOf, cur, b);
      var gone := cur.None? || cur.value.record.None?;
      && (v.Commit? <==>
           || cond.force
           || (!cond.versioned && !cond.keyed)
           || (cond.versioned && cond.expectedVersion == None && gone)
           || (cond.versioned && !gone && cond.expectedVersion == Some(cur.value.version))
           || (!cond.versioned && cond.keyed && cond.expectedOld == None && gone)
           || (!cond.versioned && cond.keyed && !gone && cond.expectedOld == Some(keyOf(cur.value.record.value))))
      && (v.Commit? ==> v.value == Value(Some(record), b))
      && (v.AlreadyDone? <==> !v.Commit? && !gone && cur.value.record.value == record)
  {
  }

  /** The same for a delete: over an absent name there is never anything to do. */
  lemma DeleteExactly(cond: Cond, keyOf: Bytes -> Bytes, cur: Option<Value>, b: Ballot)
    ensures var v := DeleteChange(cond, keyOf, cur, b);
      var gone := cur.None? || cur.value.record.None?;
      && (v.AlreadyDone? <==> gone)
      && (v.Commit? <==>
           && !gone
           && (|| cond.force
               || (!cond.versioned && !cond.keyed)
               || (cond.versioned && cond.expectedVersion == Some(cur.value.version))
               || (!cond.versioned && cond.keyed && cond.expectedOld == Some(keyOf(cur.value.record.value)))))
      && (v.Commit? ==> v.value == Value(None, b))
  {
  }

  /** A value's version is never above the ballot it was proposed at. */
  lemma {:induction false} VersionBound(voters: set<NodeId>, s: State, c: Ballot)
    requires Inv(voters, s) && ByCatalog(s) && c in s.proposals && s.proposals[c].value.Some?
    ensures s.proposals[c].value.value.version <= c
    decreases c
  {
    hide Inv;
    BaseIsProposal(voters, s, c);
    if !Writes(s, c) {
      VersionBound(voters, s, s.proposals[c].base);
    }
  }

  /** Above a chosen value, versions never fall, and an equal version is the same value.  A
      write is strictly newer.  An absent value means the chosen one was purged. */
  lemma {:induction false} VersionsNeverFall(voters: set<NodeId>, s: State, b: Ballot, c: Ballot)
    requires Inv(voters, s) && ByCatalog(s) && Chosen(voters, s, b)
    requires c in s.proposals && b in s.proposals && b <= c && s.proposals[b].value.Some?
    ensures var v := s.proposals[b].value.value;
      match s.proposals[c].value
      case None => PurgedBetween(s, b, c)
      case Some(w) =>
        && v.version <= w.version
        && (v.version == w.version ==> v == w)
        && (b < c && Writes(s, c) ==> v.version < w.version)
    decreases c
  {
    hide Inv;
    VersionBound(voters, s, b);
    if b < c {
      LaterProposalsStartAbove(voters, s, b, c);
      BaseIsProposal(voters, s, c);
      var p := s.proposals[c].base;
      if !Writes(s, c) && p >= b {
        VersionsNeverFall(voters, s, b, p);
        if s.proposals[p].value.None? {
          assert PurgedBetween(s, b, c) by {
            var d :| d in s.purged && b <= d < p;
          }
        }
      }
    }
  }

  /** The compare-and-swap promise: of all puts and deletes that replaced version e, at most
      one is ever chosen, and nothing newer than e had been chosen below it. */
  lemma NoLostUpdate(voters: set<NodeId>, s: State, b: Ballot, c: Ballot, e: Ballot)
    requires Inv(voters, s) && ByCatalog(s) && b < c
    requires Chosen(voters, s, b) && b in s.proposals && s.proposals[b].value.Some?
    requires Replaces(s, c, e)
    ensures s.proposals[b].value.value.version <= e
    ensures !Replaces(s, b, e)
  {
    hide Inv;
    LaterProposalsStartAbove(voters, s, b, c);
    BaseIsProposal(voters, s, c);
    VersionsNeverFall(voters, s, b, s.proposals[c].base);
    if Replaces(s, b, e) {
      BaseIsProposal(voters, s, b);
      VersionBound(voters, s, s.proposals[b].base);
    }
  }

  /** The same promise for writes conditioned on a key: the put or delete at c committed over a
      present value with key old.  Whatever was chosen below c is no newer than that value, and
      if it is as new, it is that value: its key was old. */
  lemma NoLostKeyedUpdate(voters: set<NodeId>, s: State, keyOf: Bytes -> Bytes, b: Ballot, c: Ballot, key: Bytes)
    requires Inv(voters, s) && ByCatalog(s) && b < c
    requires Chosen(voters, s, b) && b in s.proposals && s.proposals[b].value.Some?
    requires Writes(s, c) && s.proposals[c].cur.Some? && s.proposals[c].cur.value.record.Some?
    requires keyOf(s.proposals[c].cur.value.record.value) == key
    ensures var v, found := s.proposals[b].value.value, s.proposals[c].cur.value;
      v.version <= found.version && (v.version == found.version ==> v.record.Some? && keyOf(v.record.value) == key)
  {
    hide Inv;
    LaterProposalsStartAbove(voters, s, b, c);
    BaseIsProposal(voters, s, c);
    VersionsNeverFall(voters, s, b, s.proposals[c].base);
  }

  datatype Holding = Holding(from: NodeId, accepted: Ballot)

  ghost predicate AllHold(asked: set<NodeId>, rows: seq<Holding>, b: Ballot)
  {
    forall n :: n in asked ==> Holding(n, b) in rows
  }

  ghost predicate OneAnswerEach(asked: set<NodeId>, rows: seq<Holding>)
  {
    && (forall i, j :: 0 <= i < j < |rows| ==> rows[i].from != rows[j].from)
    && (forall i :: 0 <= i < |rows| ==> rows[i].from in asked)
  }

  lemma AllHoldIff(asked: set<NodeId>, rows: seq<Holding>, b: Ballot)
    requires OneAnswerEach(asked, rows)
    ensures |rows| <= |asked|
    ensures AllHold(asked, rows, b) <==> |rows| == |asked| && forall i :: 0 <= i < |rows| ==> rows[i].accepted == b
  {
    var ids := Answerers(asked, rows);
    SubsetSize(ids, asked);
    if AllHold(asked, rows, b) {
      SubsetSize(asked, ids);
      forall i | 0 <= i < |rows| ensures rows[i].accepted == b {
        assert Holding(rows[i].from, b) in rows;
      }
    }
    if |rows| == |asked| {
      assert asked == ids + (asked - ids);
      assert ids == asked;
    }
  }

  /** TryPurge: the answers come from the voters asked, but their number is compared with
      the voters of the view in force afterwards.  With as many voters in both, the purge is
      sent exactly when every voter answered with the tombstone's ballot. */
  method TryPurge(asked: set<NodeId>, current: set<NodeId>, rows: seq<Holding>, b: Ballot) returns (sent: bool)
    requires OneAnswerEach(asked, rows)
    ensures |asked| < |current| ==> !sent
    ensures |asked| == |current| ==> (sent <==> AllHold(asked, rows, b))
    ensures sent <==> |current| <= |rows| && forall i :: 0 <= i < |rows| ==> rows[i].accepted == b
    ensures sent ==> (AllHold(asked, rows, b) <==> |rows| == |asked|)
  {
    AllHoldIff(asked, rows, b);
    hide AllHold, OneAnswerEach;
    if |rows| < |current| {
      return false;
    }
    for i := 0 to |rows|
      invariant forall j :: 0 <= j < i ==> rows[j].accepted == b
    {
      if rows[i].accepted != b {
        return false;
      }
    }
    return true;
  }

  /** Answers from three of four voters are enough once one of the three was removed: the
      purge is sent although a voter that stays may still hold something older. */
  lemma ShrunkViewPurgesEarly(asked: set<NodeId>, current: set<NodeId>, gone: NodeId, silent: NodeId, b: Ballot)
    returns (rows: seq<Holding>)
    requires gone in asked && current == asked - {gone} && silent in current
    ensures OneAnswerEach(asked, rows) && |current| <= |rows| && forall i :: 0 <= i < |rows| ==> rows[i].accepted == b
    ensures forall x :: Holding(silent, x) !in rows
  {
    rows := AnswersOf(asked - {silent}, b);
    assert |current| == |asked| - 1 == |asked - {silent}|;
  }

  lemma {:induction false} AnswersOf(ns: set<NodeId>, b: Ballot) returns (rows: seq<Holding>)
    ensures OneAnswerEach(ns, rows) && |rows| == |ns| && forall i :: 0 <= i < |rows| ==> rows[i].accepted == b
    decreases |ns|
  {
    if ns == {} {
      rows := [];
    } else {
      var n :| n in ns;
      rows := AnswersOf(ns - {n}, b);
      rows := rows + [Holding(n, b)];
    }
  }

  /** The distinct voters that answered, as many as there are answers. */
  lemma Answerers(voters: set<NodeId>, rows: seq<Holding>) returns (ids: set<NodeId>)
    requires forall i, j :: 0 <= i < j < |rows| ==> rows[i].from != rows[j].from
    requires forall i :: 0 <= i < |rows| ==> rows[i].from in voters
    ensures ids <= voters && |ids| == |rows|
    ensures forall n :: n in ids <==> exists i :: 0 <= i < |rows| && rows[i].from == n
    ensures forall n, b :: Holding(n, b) in rows ==> n in ids
  {
    ids := {};
    for k := 0 to |rows|
      invariant ids <= voters && |ids| == k
      invariant forall i :: 0 <= i < |rows| ==> (rows[i].from in ids <==> i < k)
      invariant forall n :: n in ids ==> exists i :: 0 <= i < |rows| && rows[i].from == n
    {
      ids := ids + {rows[k].from};
    }
  }

  /** Answers gathered at different times still let the register machine send the purge. */
  lemma PurgeMayBeSent(voters: set<NodeId>, run: seq<State>, start: nat, at: map<NodeId, nat>, d: Ballot)
    requires Asked(voters, run, start, at) && at.Keys == voters && d > 0
    requires AllAccepted(voters, run, start, at, d)
    ensures Enabled(voters, run[|run| - 1], SendPurge(d))
  {
    hide IsRun;
    forall n | n in voters ensures Acked(run[|run| - 1], n, d) {
      SeenBallotIsAcked(voters, run, start, at, n);
    }
  }
}
