/** One CASPaxos register at one view: the acceptors of the view, any number of
    proposers, and a network that loses, repeats and reorders.

    A message once sent stays in the state for ever; a step may use it any number of
    times or never, which is what loss, duplication and reordering amount to.  Ballots
    are never reused (node/node.go NextBallot, see module BallotCounter), so a ballot
    carries at most one accept value.  Purges of other registers reach this one only
    through the acceptor-wide floor. */
module Caspaxos {
  import opened Options
  import opened Slots
  import opened Quorums

  datatype PromiseMsg = PromiseMsg(from: NodeId, ballot: Ballot, accepted: Ballot, value: Option<Value>)

  /** What a proposer decided to write at its ballot, and the row it computed it from. */
  datatype Proposal = Proposal(base: Ballot, cur: Option<Value>, value: Option<Value>)

  datatype Ack = Ack(from: NodeId, ballot: Ballot)

  datatype State = State(
    slots: map<NodeId, Slot>,
    promises: set<PromiseMsg>,
    proposals: map<Ballot, Proposal>,
    acks: set<Ack>,
    purged: set<Ballot>)

  ghost predicate Init(voters: set<NodeId>, s: State)
  {
    && s.slots.Keys == voters
    && (forall n :: n in voters ==> s.slots[n] == Slot(None, 0))
    && s.promises == {} && s.proposals == map[] && s.acks == {} && s.purged == {}
  }

  datatype Event =
    | PrepareAt(n: NodeId, b: Ballot)
    | Propose(b: Ballot, q: set<NodeId>, p: Proposal)
    | AcceptAt(n: NodeId, b: Ballot)
    | SendPurge(d: Ballot)
    | PurgeAt(n: NodeId, d: Ballot)
    | RaiseFloor(n: NodeId, d: Ballot)

  ghost predicate Acked(s: State, n: NodeId, b: Ballot)
  {
    Ack(n, b) in s.acks
  }

  ghost predicate Promised(s: State, n: NodeId, b: Ballot, m: PromiseMsg)
  {
    m in s.promises && m.from == n && m.ballot == b
  }

  /** The prepare phase of b ended with quorum q, and p starts from the highest accepted
      row the quorum reported. */
  ghost predicate FromQuorum(voters: set<NodeId>, s: State, b: Ballot, q: set<NodeId>, p: Proposal)
  {
    && IsQuorum(q, voters)
    && (forall n :: n in q ==> exists m :: Promised(s, n, b, m) && m.accepted <= p.base)
    && (exists n, m :: n in q && Promised(s, n, b, m) && m.accepted == p.base && m.value == p.cur)
  }

  function AnswerPrepare(s: State, n: NodeId, b: Ballot): State
    requires n in s.slots
  {
    var r := Prepare(s.slots[n], b);
    s.(slots := s.slots[n := r.0],
       promises := if r.1.Promise? then s.promises + {PromiseMsg(n, b, r.1.accepted, r.1.value)} else s.promises)
  }

  function AnswerAccept(s: State, n: NodeId, b: Ballot): State
    requires n in s.slots && b in s.proposals
  {
    var r := Accept(s.slots[n], b, s.proposals[b].value);
    s.(slots := s.slots[n := r.0],
       acks := if r.1.AcceptedAck? then s.acks + {Ack(n, b)} else s.acks)
  }

  ghost predicate Enabled(voters: set<NodeId>, s: State, e: Event)
  {
    match e
    case PrepareAt(n, b) => n in s.slots && b > 0
    case Propose(b, q, p) => b > 0 && b !in s.proposals && FromQuorum(voters, s, b, q, p)
    case AcceptAt(n, b) => n in s.slots && b in s.proposals
    case SendPurge(d) => d > 0 && forall n :: n in voters ==> Acked(s, n, d)
    case PurgeAt(n, d) => n in s.slots && d in s.purged
    case RaiseFloor(n, d) => n in s.slots && d > s.slots[n].floor
  }

  function Apply(s: State, e: Event): State
    requires e.PrepareAt? || e.AcceptAt? || e.PurgeAt? || e.RaiseFloor? ==> e.n in s.slots
    requires e.AcceptAt? ==> e.b in s.proposals
  {
    match e
    case PrepareAt(n, b) => AnswerPrepare(s, n, b)
    case Propose(b, q, p) => s.(proposals := s.proposals[b := p])
    case AcceptAt(n, b) => AnswerAccept(s, n, b)
    case SendPurge(d) => s.(purged := s.purged + {d})
    case PurgeAt(n, d) => s.(slots := s.slots[n := Purge(s.slots[n], d)])
    case RaiseFloor(n, d) => s.(slots := s.slots[n := s.slots[n].(floor := d)])
  }

  ghost predicate Next(voters: set<NodeId>, s: State, t: State)
  {
    exists e :: Enabled(voters, s, e) && t == Apply(s, e)
  }

  // ---- what every step keeps ----

  /** Ballot b is still visible in an accepted ballot a, or a purge at or above b and
      below the bound wiped it. */
  ghost predicate Remembered(s: State, b: Ballot, a: Ballot, bound: nat)
  {
    a >= b || (a == 0 && exists d :: d in s.purged && b <= d < bound)
  }

  ghost predicate RowOk(s: State, n: NodeId, a: Ballot, v: Option<Value>)
  {
    if a == 0 then v == None
    else a in s.proposals && v == s.proposals[a].value && Acked(s, n, a)
  }

  ghost predicate SlotsOk(voters: set<NodeId>, s: State)
  {
    && s.slots.Keys == voters
    && forall n :: n in voters ==> s.slots[n].Valid() && RowOk(s, n, s.slots[n].Accepted(), s.slots[n].Value())
  }

  ghost predicate PromisesOk(s: State)
  {
    forall m :: m in s.promises ==>
      && m.from in s.slots
      && m.accepted < m.ballot <= s.slots[m.from].Promised()
      && RowOk(s, m.from, m.accepted, m.value)
  }

  ghost predicate AcksOk(s: State)
  {
    forall n: NodeId, b: Ballot :: Acked(s, n, b) ==>
      && n in s.slots && b in s.proposals && 0 < b <= s.slots[n].Promised()
      && Remembered(s, b, s.slots[n].Accepted(), s.slots[n].Promised() + 1)
  }

  ghost predicate PromisesRemember(s: State)
  {
    forall m, b: Ballot :: m in s.promises && Acked(s, m.from, b) && b < m.ballot ==>
      Remembered(s, b, m.accepted, m.ballot)
  }

  ghost predicate PurgesOk(voters: set<NodeId>, s: State)
  {
    forall d, n :: d in s.purged && n in voters ==> Acked(s, n, d)
  }

  ghost predicate Backed(voters: set<NodeId>, s: State, b: Ballot)
    requires b in s.proposals
  {
    exists q :: FromQuorum(voters, s, b, q, s.proposals[b])
  }

  ghost predicate ProposalsOk(voters: set<NodeId>, s: State)
  {
    forall b :: b in s.proposals ==> Backed(voters, s, b)
  }

  /** A promise keeps its row, as a stub if need be, until a purge at or above it. */
  ghost predicate StubsOk(s: State)
  {
    forall m :: m in s.promises && m.from in s.slots && s.slots[m.from].row.None? ==>
      exists d :: d in s.purged && m.ballot <= d
  }

  ghost predicate Positive(s: State)
  {
    && (forall b :: b in s.proposals ==> b > 0)
    && (forall d :: d in s.purged ==> d > 0)
  }

  ghost predicate Inv(voters: set<NodeId>, s: State)
  {
    && SlotsOk(voters, s) && PromisesOk(s) && AcksOk(s) && PromisesRemember(s)
    && PurgesOk(voters, s) && ProposalsOk(voters, s) && Positive(s) && StubsOk(s)
  }

  /** What no step takes back. */
  ghost predicate Grows(s: State, t: State)
  {
    && s.slots.Keys == t.slots.Keys
    && s.promises <= t.promises && s.acks <= t.acks && s.purged <= t.purged
    && (forall b :: b in s.proposals ==> b in t.proposals && t.proposals[b] == s.proposals[b])
    && (forall n :: n in s.slots ==> s.slots[n].Promised() <= t.slots[n].Promised())
  }

  /** What a step may do to one acceptor's slot. */
  ghost predicate SlotStep(s: State, x: Slot, e: Event, y: Slot)
  {
    match e
    case PrepareAt(_, b) => y == Prepare(x, b).0
    case AcceptAt(_, b) => b in s.proposals && y == Accept(x, b, s.proposals[b].value).0
    case PurgeAt(_, d) => d in s.purged && y == Purge(x, d)
    case RaiseFloor(_, d) => d > x.floor && y == x.(floor := d)
    case _ => false
  }

  lemma OneSlotMoves(voters: set<NodeId>, s: State, e: Event, n: NodeId)
    requires Enabled(voters, s, e) && n in s.slots
    ensures n in Apply(s, e).slots
    ensures Apply(s, e).slots[n] == s.slots[n] || SlotStep(s, s.slots[n], e, Apply(s, e).slots[n])
  {
  }

  lemma SlotStepRaises(s: State, x: Slot, e: Event, y: Slot)
    requires x.Valid() && Positive(s) && SlotStep(s, x, e, y)
    ensures y.Valid() && x.Promised() <= y.Promised()
    ensures
      || (y.Accepted() == x.Accepted() && y.Value() == x.Value())
      || y.Accepted() == 0
      || (e.AcceptAt? && e.b in s.proposals && y.Accepted() == e.b && y.Value() == s.proposals[e.b].value)
  {
  }

  lemma StepGrows(voters: set<NodeId>, s: State, e: Event)
    requires SlotsOk(voters, s) && Enabled(voters, s, e)
    requires Positive(s)
    ensures Grows(s, Apply(s, e))
  {
    var t := Apply(s, e);
    forall n | n in s.slots ensures n in t.slots && s.slots[n].Promised() <= t.slots[n].Promised() {
      OneSlotMoves(voters, s, e, n);
      if t.slots[n] != s.slots[n] {
        SlotStepRaises(s, s.slots[n], e, t.slots[n]);
      }
    }
  }

  /** Proposals stay backed by the quorum they came from. */
  lemma BackedGrows(voters: set<NodeId>, s: State, t: State, b: Ballot)
    requires b in s.proposals && Backed(voters, s, b) && Grows(s, t)
    ensures Backed(voters, t, b)
  {
    var q :| FromQuorum(voters, s, b, q, s.proposals[b]);
    FromQuorumGrows(voters, s, t, b, q, s.proposals[b]);
  }

  lemma FromQuorumGrows(voters: set<NodeId>, s: State, t: State, b: Ballot, q: set<NodeId>, p: Proposal)
    requires FromQuorum(voters, s, b, q, p) && s.promises <= t.promises
    ensures FromQuorum(voters, t, b, q, p)
  {
    forall n | n in q ensures exists m :: Promised(t, n, b, m) && m.accepted <= p.base {
      var m :| Promised(s, n, b, m) && m.accepted <= p.base;
      assert Promised(t, n, b, m);
    }
    var n, m :| n in q && Promised(s, n, b, m) && m.accepted == p.base && m.value == p.cur;
    assert Promised(t, n, b, m);
  }

  lemma ProposalsKept(voters: set<NodeId>, s: State, e: Event, t: State)
    requires ProposalsOk(voters, s) && Enabled(voters, s, e) && t == Apply(s, e) && Grows(s, t)
    ensures ProposalsOk(voters, t)
  {
    forall b | b in t.proposals ensures Backed(voters, t, b) {
      if e.Propose? && b == e.b {
        FromQuorumGrows(voters, s, t, e.b, e.q, e.p);
      } else {
        BackedGrows(voters, s, t, b);
      }
    }
  }

  lemma RowGrows(s: State, t: State, n: NodeId, a: Ballot, v: Option<Value>)
    requires RowOk(s, n, a, v) && Grows(s, t)
    ensures RowOk(t, n, a, v)
  {
  }

  lemma RememberedGrows(s: State, t: State, b: Ballot, a: Ballot, bound: nat, bound': nat)
    requires Remembered(s, b, a, bound) && s.purged <= t.purged && bound <= bound'
    ensures Remembered(t, b, a, bound')
  {
  }

  lemma SlotsKept(voters: set<NodeId>, s: State, e: Event, t: State)
    requires SlotsOk(voters, s) && Positive(s) && Enabled(voters, s, e) && t == Apply(s, e) && Grows(s, t)
    ensures SlotsOk(voters, t)
  {
    forall n | n in voters
      ensures t.slots[n].Valid() && RowOk(t, n, t.slots[n].Accepted(), t.slots[n].Value())
    {
      RowGrows(s, t, n, s.slots[n].Accepted(), s.slots[n].Value());
      OneSlotMoves(voters, s, e, n);
      if t.slots[n] != s.slots[n] {
        SlotStepRaises(s, s.slots[n], e, t.slots[n]);
        hide SlotStep;
      }
    }
  }

  lemma PromisesKept(voters: set<NodeId>, s: State, e: Event, t: State)
    requires SlotsOk(voters, s) && PromisesOk(s) && Enabled(voters, s, e) && t == Apply(s, e) && Grows(s, t)
    ensures PromisesOk(t)
  {
    forall m | m in t.promises
      ensures m.from in t.slots && m.accepted < m.ballot <= t.slots[m.from].Promised()
      ensures RowOk(t, m.from, m.accepted, m.value)
    {
      if m in s.promises {
        RowGrows(s, t, m.from, m.accepted, m.value);
      } else {
        assert s.slots[e.n].Valid();
        RowGrows(s, t, e.n, s.slots[e.n].Accepted(), s.slots[e.n].Value());
      }
    }
  }

  lemma AckKept(voters: set<NodeId>, s: State, e: Event, t: State, n: NodeId, b: Ballot)
    requires SlotsOk(voters, s) && AcksOk(s) && Positive(s)
    requires Enabled(voters, s, e) && t == Apply(s, e) && Grows(s, t) && Acked(t, n, b)
    ensures n in t.slots && b in t.proposals && 0 < b <= t.slots[n].Promised()
    ensures Remembered(t, b, t.slots[n].Accepted(), t.slots[n].Promised() + 1)
  {
    if Acked(s, n, b) {
      AckAtSlot(s, e, t, n, b);
    }
  }

  /** An earlier ack stays remembered at its acceptor. */
  lemma AckAtSlot(s: State, e: Event, t: State, n: NodeId, b: Ballot)
    requires n in s.slots && n in t.slots && s.slots[n].Valid() && Positive(s) && s.purged <= t.purged && b > 0
    requires Remembered(s, b, s.slots[n].Accepted(), s.slots[n].Promised() + 1)
    requires match e
      case PrepareAt(k, c) => t.slots[n] == if n == k then Prepare(s.slots[n], c).0 else s.slots[n]
      case AcceptAt(k, c) => c in s.proposals
        && t.slots[n] == if n == k then Accept(s.slots[n], c, s.proposals[c].value).0 else s.slots[n]
      case PurgeAt(k, d) => d in s.purged && t.slots[n] == if n == k then Purge(s.slots[n], d) else s.slots[n]
      case RaiseFloor(k, d) => if n == k then d > s.slots[n].floor && t.slots[n] == s.slots[n].(floor := d) else t.slots[n] == s.slots[n]
      case _ => t.slots[n] == s.slots[n]
    ensures Remembered(t, b, t.slots[n].Accepted(), t.slots[n].Promised() + 1)
  {
    var x, y := s.slots[n], t.slots[n];
    RememberedGrows(s, t, b, x.Accepted(), x.Promised() + 1, y.Promised() + 1);
    if e.PurgeAt? && e.n == n && x.Accepted() == e.d {
      assert e.d in t.purged;
    }
  }

  lemma AcksKept(voters: set<NodeId>, s: State, e: Event, t: State)
    requires SlotsOk(voters, s) && AcksOk(s) && Positive(s) && Enabled(voters, s, e) && t == Apply(s, e) && Grows(s, t)
    ensures AcksOk(t)
  {
    forall n: NodeId, b: Ballot | Acked(t, n, b)
      ensures n in t.slots && b in t.proposals && 0 < b <= t.slots[n].Promised()
      ensures Remembered(t, b, t.slots[n].Accepted(), t.slots[n].Promised() + 1)
    {
      AckKept(voters, s, e, t, n, b);
    }
  }

  lemma MemoryKept(voters: set<NodeId>, s: State, e: Event, t: State)
    requires SlotsOk(voters, s) && PromisesOk(s) && AcksOk(s) && PromisesRemember(s)
    requires Enabled(voters, s, e) && t == Apply(s, e) && Grows(s, t)
    ensures PromisesRemember(t)
  {
    forall m, b: Ballot | m in t.promises && Acked(t, m.from, b) && b < m.ballot
      ensures Remembered(t, b, m.accepted, m.ballot)
    {
      if m !in s.promises {
        assert e.PrepareAt? && Acked(s, m.from, b);
        var x := s.slots[m.from];
        RememberedGrows(s, t, b, x.Accepted(), x.Promised() + 1, m.ballot);
      } else if Acked(s, m.from, b) {
        RememberedGrows(s, t, b, m.accepted, m.ballot, m.ballot);
      }
    }
  }

  lemma PurgesKept(voters: set<NodeId>, s: State, e: Event, t: State)
    requires PurgesOk(voters, s) && Positive(s) && Enabled(voters, s, e) && t == Apply(s, e) && Grows(s, t)
    ensures PurgesOk(voters, t) && Positive(t)
  {
  }

  lemma StubsKept(voters: set<NodeId>, s: State, e: Event, t: State)
    requires SlotsOk(voters, s) && PromisesOk(s) && StubsOk(s)
    requires Enabled(voters, s, e) && t == Apply(s, e) && Grows(s, t)
    ensures StubsOk(t)
  {
    forall m | m in t.promises && m.from in t.slots && t.slots[m.from].row.None?
      ensures exists d :: d in t.purged && m.ballot <= d
    {
      if s.slots[m.from].row.None? {
        var d :| d in s.purged && m.ballot <= d;
        assert d in t.purged;
      } else {
        assert e.d in t.purged;
      }
    }
  }

  lemma KeptTogether(voters: set<NodeId>, s: State, e: Event, t: State)
    requires Inv(voters, s) && Enabled(voters, s, e) && t == Apply(s, e) && Grows(s, t)
    ensures Inv(voters, t)
  {
    ProposalsKept(voters, s, e, t);
    PurgesKept(voters, s, e, t);
    SlotsKept(voters, s, e, t);
    PromisesKept(voters, s, e, t);
    AcksKept(voters, s, e, t);
    MemoryKept(voters, s, e, t);
    StubsKept(voters, s, e, t);
  }

  lemma StepKeeps(voters: set<NodeId>, s: State, t: State)
    requires Inv(voters, s) && Next(voters, s, t)
    ensures Inv(voters, t) && Grows(s, t)
  {
    var e :| Enabled(voters, s, e) && t == Apply(s, e);
    StepGrows(voters, s, e);
    KeptTogether(voters, s, e, t);
  }
}
