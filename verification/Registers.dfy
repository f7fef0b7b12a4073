/** One register at one acceptor (paxos/acceptor.go), as values: what prepare, accept,
    read and purge do to the stored row and what they answer.  Ballots are the numeric
    codes of module Ballots, 0 being "none". */
module Slots {

  import opened Options

  type Ballot = nat
  type NodeId = nat

  type Bytes = seq<nat>

  /** A register's value: a reference record, or none for a tombstone, under the ballot
      of the write that put it there (catalog/catalog.go RefValue). */
  datatype Value = Value(record: Option<Bytes>, version: Ballot)
  {
    predicate IsTombstone() { record == None }
  }

  datatype Row = Row(promised: Ballot, accepted: Ballot, value: Option<Value>)

  /** A register's row, if there is one, and the acceptor-wide purge floor. */
  datatype Slot = Slot(row: Option<Row>, floor: Ballot)
  {
    /** The ballot below which nothing is taken: a missing row inherits the floor. */
    function Promised(): Ballot {
      if row.Some? then row.value.promised else floor
    }
    function Accepted(): Ballot {
      if row.Some? then row.value.accepted else 0
    }
    function Value(): Option<Value> {
      if row.Some? then row.value.value else None
    }
    ghost predicate Valid() {
      && Accepted() <= Promised()
      && (Accepted() == 0 ==> Value() == None)
    }
  }

  datatype Reply =
    | Promise(accepted: Ballot, value: Option<Value>)
    | AcceptedAck
    | Conflict(ballot: Ballot)

  function Prepare(s: Slot, b: Ballot): (r: (Slot, Reply))
  {
    if b <= s.Promised() then (s, Conflict(s.Promised()))
    else (Slot(Some(Row(b, s.Accepted(), s.Value())), s.floor), Promise(s.Accepted(), s.Value()))
  }

  function Accept(s: Slot, b: Ballot, v: Option<Value>): (r: (Slot, Reply))
  {
    if b < s.Promised() then (s, Conflict(s.Promised()))
    else if b < s.Accepted() then (s, Conflict(s.Accepted()))
    else (Slot(Some(Row(b, b, v)), s.floor), AcceptedAck)
  }

  /** A purge drops the row whose accepted ballot is exactly d.  A row promised above d
      leaves its promise behind as a stub; otherwise the floor keeps the promise. */
  function Purge(s: Slot, d: Ballot): (r: Slot)
  {
    if s.row.None? || s.row.value.accepted != d then s
    else if s.row.value.promised == d then Slot(None, if d > s.floor then d else s.floor)
    else s.(row := Some(Row(s.row.value.promised, 0, None)))
  }

  /** What every handler keeps: the promise never falls, the accepted ballot falls only when
      it is purged, to nothing, and a conflict names a ballot above the one refused and
      changes nothing. */
  lemma HandlersKeep(s: Slot, b: Ballot, v: Option<Value>, d: Ballot)
    requires s.Valid() && b > 0 && d > 0
    ensures Prepare(s, b).0.Valid() && Prepare(s, b).0.Promised() >= s.Promised()
    ensures Prepare(s, b).0.Accepted() == s.Accepted() && Prepare(s, b).0.Value() == s.Value()
    ensures Prepare(s, b).1.Promise? <==> b > s.Promised()
    ensures Prepare(s, b).1 == if b > s.Promised() then Promise(s.Accepted(), s.Value()) else Conflict(s.Promised())
    ensures Prepare(s, b).0.Promised() == if b > s.Promised() then b else s.Promised()
    ensures Accept(s, b, v).0.Valid() && Accept(s, b, v).0.Promised() >= s.Promised()
    ensures Accept(s, b, v).0.Accepted() >= s.Accepted()
    ensures Accept(s, b, v).1.AcceptedAck? <==> b >= s.Promised()
    ensures b >= s.Promised() ==> Accept(s, b, v).0.Promised() == Accept(s, b, v).0.Accepted() == b && Accept(s, b, v).0.Value() == v
    ensures b < s.Promised() ==> Accept(s, b, v) == (s, Conflict(s.Promised()))
    ensures Purge(s, d).Valid() && Purge(s, d).Promised() >= s.Promised()
    ensures Purge(s, d).Accepted() == if s.Accepted() == d then 0 else s.Accepted()
    ensures Prepare(s, b).0.floor == Accept(s, b, v).0.floor == s.floor
    ensures Purge(s, d).floor == if s.Accepted() == s.Promised() == d && d > s.floor then d else s.floor
    ensures s.Accepted() == d ==> Purge(s, d).Value() == None && (s.Promised() > d ==> Purge(s, d).Promised() == s.Promised())
    ensures s.Accepted() != d ==> Purge(s, d) == s
    ensures Purge(s, d).row.None? <==> s.row.None? || s.Accepted() == s.Promised() == d
  {
  }
}

/** Majorities of a finite voter set meet (view/view.go Quorum). */
module Quorums {
  import opened Slots

  /** floor(|voters|/2) + 1 */
  function QuorumSize(voters: set<NodeId>): (q: nat)
  {
    |voters| / 2 + 1
  }

  ghost predicate IsQuorum(q: set<NodeId>, voters: set<NodeId>)
  {
    q <= voters && |q| >= QuorumSize(voters)
  }

  lemma SubsetSize(a: set<NodeId>, b: set<NodeId>)
    requires a <= b
    ensures |a| <= |b|
  {
    assert b == a + (b - a);
  }

  /** Two subsets of u whose sizes add up to more than |u| share an element. */
  lemma Overlap(a: set<NodeId>, b: set<NodeId>, u: set<NodeId>) returns (n: NodeId)
    requires a <= u && b <= u && |a| + |b| > |u|
    ensures n in a && n in b
  {
    SubsetSize(a + b, u);
    assert |a + b| == |a| + |b| - |a * b|;
    n :| n in a * b;
  }

  lemma QuorumsMeet(a: set<NodeId>, b: set<NodeId>, voters: set<NodeId>) returns (n: NodeId)
    requires IsQuorum(a, voters) && IsQuorum(b, voters)
    ensures n in a && n in b && n in voters
  {
    n := Overlap(a, b, voters);
  }

  /** One voter added or removed: v and w differ in at most one element. */
  ghost predicate OneApart(v: set<NodeId>, w: set<NodeId>)
  {
    |v - w| + |w - v| <= 1
  }

  /** Every majority of the old voters meets every majority of the new ones. */
  lemma AdjacentQuorumsMeet(a: set<NodeId>, b: set<NodeId>, v: set<NodeId>, w: set<NodeId>) returns (n: NodeId)
    requires OneApart(v, w) && IsQuorum(a, v) && IsQuorum(b, w)
    ensures n in a && n in b && n in v && n in w
  {
    var u := v + w;
    assert v == (v * w) + (v - w) && w == (v * w) + (w - v);
    assert u == (v * w) + (v - w) + (w - v);
    assert |v| == |v * w| + |v - w|;
    assert |w| == |v * w| + |w - v|;
    assert |u| == |v * w| + |v - w| + |w - v|;
    n := Overlap(a, b, u);
  }
}
