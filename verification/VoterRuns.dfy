/** Why a purged register needs clean voter changes (see CleanStep in VoterChange): for each
    of its four conditions a run of the program that breaks only that one and loses or
    revives a value.  The runs are put together from rounds, each of which finds exactly the
    highest row of its quorum. */
module VoterRuns {
  import opened Options
  import opened Slots
  import opened Quorums
  import opened VoterChange

  /** The one condition that a run does not meet. */
  datatype Lapse = OldRow | LateLanding | LowBallot | EarlyPurge

  ghost predicate MeetsOthers(conf: Conf, lapse: Lapse, s: State, e: Event)
  {
    && (lapse.OldRow? || ComesBackEmpty(conf, s, e))
    && (lapse.LateLanding? || LandsInTime(conf, s, e))
    && (lapse.LowBallot? || ClimbsOverPurges(s, e))
    && (lapse.EarlyPurge? || HeardAll(conf, e))
  }

  ghost predicate Stepping(conf: Conf, lapse: Lapse, s: State, t: State)
  {
    exists e :: Enabled(conf, s, e) && MeetsOthers(conf, lapse, s, e) && t == Apply(s, e)
  }

  ghost predicate RunBut(conf: Conf, nodes: set<NodeId>, lapse: Lapse, run: seq<State>)
  {
    IsRun(conf, nodes, run) && forall i :: 0 < i < |run| ==> Stepping(conf, lapse, run[i - 1], run[i])
  }

  /** s is reached by a run that breaks no condition but the given one. */
  ghost predicate Reached(conf: Conf, nodes: set<NodeId>, lapse: Lapse, s: State)
  {
    exists run :: |run| > 0 && RunBut(conf, nodes, lapse, run) && run[|run| - 1] == s
  }

  lemma Start(conf: Conf, nodes: set<NodeId>, lapse: Lapse, s: State)
    requires GoodConf(conf) && Init(nodes, s)
    ensures Reached(conf, nodes, lapse, s)
  {
    assert RunBut(conf, nodes, lapse, [s]);
  }

  lemma Step(conf: Conf, nodes: set<NodeId>, lapse: Lapse, s: State, e: Event)
    requires Reached(conf, nodes, lapse, s) && Enabled(conf, s, e) && MeetsOthers(conf, lapse, s, e)
    ensures Reached(conf, nodes, lapse, Apply(s, e))
  {
    EnabledNamesSlot(conf, s, e);
    hide Enabled, Apply, MeetsOthers, RunBut;
    var run :| |run| > 0 && RunBut(conf, nodes, lapse, run) && run[|run| - 1] == s;
    var t := Apply(s, e);
    assert Next(conf, s, t) && Stepping(conf, lapse, s, t);
    Extend(conf, nodes, lapse, run, t);
  }

  lemma Extend(conf: Conf, nodes: set<NodeId>, lapse: Lapse, run: seq<State>, t: State)
    requires |run| > 0 && RunBut(conf, nodes, lapse, run)
    requires Next(conf, run[|run| - 1], t) && Stepping(conf, lapse, run[|run| - 1], t)
    ensures Reached(conf, nodes, lapse, t)
  {
    hide Next, Stepping, Init, GoodConf;
    var more := run + [t];
    forall i | 0 < i < |more| ensures Next(conf, more[i - 1], more[i]) && Stepping(conf, lapse, more[i - 1], more[i]) {
      if i < |run| {
        assert more[i - 1] == run[i - 1] && more[i] == run[i];
      }
    }
    assert more[|more| - 1] == t;
    assert RunBut(conf, nodes, lapse, more);
  }

  // ---- many acceptors doing the same ----

  ghost function OnAll(s: State, q: set<NodeId>, f: Slot -> Slot): map<NodeId, Slot>
  {
    map n | n in s.slots :: if n in q then f(s.slots[n]) else s.slots[n]
  }

  ghost predicate AllServe(conf: Conf, s: State, q: set<NodeId>, g: nat)
  {
    forall n :: n in q ==> Serves(conf, s, n) && s.inst[n] == g
  }

  ghost function PromiseOf(s: State, g: nat, b: Ballot, n: NodeId): PromiseMsg
    requires n in s.slots
  {
    PromiseMsg(g, n, b, s.slots[n].Accepted(), s.slots[n].Value(), s.purges)
  }

  /** Every acceptor of q has promised b. */
  ghost function Prepared(s: State, g: nat, b: Ballot, q: set<NodeId>): State
  {
    s.(slots := OnAll(s, q, (x: Slot) => Slot(Some(Row(b, x.Accepted(), x.Value())), x.floor)),
       promises := s.promises + set n | n in q && n in s.slots :: PromiseOf(s, g, b, n))
  }

  lemma {:induction false} PrepareAll(conf: Conf, nodes: set<NodeId>, lapse: Lapse, s: State, g: nat, b: Ballot, q: set<NodeId>)
    requires Reached(conf, nodes, lapse, s) && AllServe(conf, s, q, g) && b > 0
    requires forall n :: n in q ==> s.slots[n].Promised() < b
    ensures Reached(conf, nodes, lapse, Prepared(s, g, b, q))
    decreases |q|
  {
    hide Reached;
    if q == {} {
      assert Prepared(s, g, b, q) == s;
    } else {
      var n :| n in q;
      var t := Prepared(s, g, b, q - {n});
      PrepareAll(conf, nodes, lapse, s, g, b, q - {n});
      Step(conf, nodes, lapse, t, PrepareAt(n, g, b));
      PreparedOneMore(s, g, b, q, n);
    }
  }

  lemma PreparedOneMore(s: State, g: nat, b: Ballot, q: set<NodeId>, n: NodeId)
    requires n in q && n in s.slots && s.slots[n].Promised() < b
    ensures n in Prepared(s, g, b, q - {n}).slots
    ensures Apply(Prepared(s, g, b, q - {n}), PrepareAt(n, g, b)) == Prepared(s, g, b, q)
  {
    var t, u := Prepared(s, g, b, q - {n}), Prepared(s, g, b, q);
    assert t.slots[n] == s.slots[n];
    var v := Apply(t, PrepareAt(n, g, b));
    assert v.slots == u.slots;
    assert v.promises == u.promises;
  }

  /** Every acceptor of q has accepted b. */
  ghost function AcceptedBy(s: State, b: Ballot, q: set<NodeId>): State
    requires b in s.proposals
  {
    s.(slots := OnAll(s, q, (x: Slot) => Slot(Some(Row(b, b, s.proposals[b].value)), x.floor)),
       acks := s.acks + set n | n in q :: Ack(n, b))
  }

  lemma {:induction false} AcceptAll(conf: Conf, nodes: set<NodeId>, lapse: Lapse, s: State, b: Ballot, q: set<NodeId>)
    requires Reached(conf, nodes, lapse, s) && b in s.proposals && AllServe(conf, s, q, s.proposals[b].gen)
    requires forall n :: n in q ==> s.slots[n].Valid() && s.slots[n].Promised() <= b
    ensures Reached(conf, nodes, lapse, AcceptedBy(s, b, q))
    decreases |q|
  {
    hide Reached;
    if q == {} {
      assert AcceptedBy(s, b, q) == s;
    } else {
      var n :| n in q;
      AcceptAll(conf, nodes, lapse, s, b, q - {n});
      Step(conf, nodes, lapse, AcceptedBy(s, b, q - {n}), AcceptAt(n, b));
      AcceptedOneMore(s, b, q, n);
    }
  }

  lemma AcceptedOneMore(s: State, b: Ballot, q: set<NodeId>, n: NodeId)
    requires b in s.proposals && n in q && n in s.slots && s.slots[n].Valid() && s.slots[n].Promised() <= b
    ensures n in AcceptedBy(s, b, q - {n}).slots
    ensures Apply(AcceptedBy(s, b, q - {n}), AcceptAt(n, b)) == AcceptedBy(s, b, q)
  {
    var t, u := AcceptedBy(s, b, q - {n}), AcceptedBy(s, b, q);
    assert t.slots[n] == s.slots[n];
    var v := Apply(t, AcceptAt(n, b));
    assert v.slots == u.slots;
    assert v.acks == u.acks;
  }

  /** Every acceptor of q has installed g, none of them wiping its rows. */
  ghost function Installed(s: State, g: nat, q: set<NodeId>): State
  {
    s.(inst := map n | n in s.inst :: if n in q then g else s.inst[n])
  }

  lemma {:induction false} InstallAll(conf: Conf, nodes: set<NodeId>, lapse: Lapse, s: State, g: nat, q: set<NodeId>)
    requires Reached(conf, nodes, lapse, s) && g <= s.current && g < |conf|
    requires forall n :: n in q ==> n in s.inst && n in s.slots && s.inst[n] < g
    requires forall n :: n in q && n in conf[g] && !Stays(conf, n, s.inst[n], g) ==> lapse.OldRow? || s.slots[n].Accepted() == 0
    ensures Reached(conf, nodes, lapse, Installed(s, g, q))
    decreases |q|
  {
    hide Reached, Stays;
    if q == {} {
      assert Installed(s, g, q) == s;
    } else {
      var n :| n in q;
      InstallAll(conf, nodes, lapse, s, g, q - {n});
      var t := Installed(s, g, q - {n});
      Step(conf, nodes, lapse, t, InstallAt(n, g, false));
      var v := Apply(t, InstallAt(n, g, false));
      assert v.slots == s.slots;
      assert v.inst == Installed(s, g, q).inst;
    }
  }

  /** The next voter change is made and the acceptors of q install it. */
  lemma MoveOn(conf: Conf, nodes: set<NodeId>, lapse: Lapse, s: State, q: set<NodeId>) returns (t: State)
    requires Reached(conf, nodes, lapse, s) && Enabled(conf, s, Advance)
    requires forall n :: n in q ==> n in s.inst && n in s.slots && s.inst[n] <= s.current
    requires forall n :: n in q && n in conf[s.current + 1] && !Stays(conf, n, s.inst[n], s.current + 1) ==>
      lapse.OldRow? || s.slots[n].Accepted() == 0
    ensures Reached(conf, nodes, lapse, t) && t == Installed(s.(current := s.current + 1), s.current + 1, q)
  {
    hide Reached, Stays, Synced;
    Step(conf, nodes, lapse, s, Advance);
    InstallAll(conf, nodes, lapse, Apply(s, Advance), s.current + 1, q);
    t := Installed(Apply(s, Advance), s.current + 1, q);
  }

  /** Every acceptor of q has answered a read. */
  ghost function ReadBy(s: State, q: set<NodeId>): State
  {
    s.(holds := s.holds + set n | n in q && n in s.inst && n in s.slots :: Hold(s.inst[n], n, s.slots[n].Accepted()))
  }

  lemma {:induction false} ReadAll(conf: Conf, nodes: set<NodeId>, lapse: Lapse, s: State, g: nat, q: set<NodeId>)
    requires Reached(conf, nodes, lapse, s) && AllServe(conf, s, q, g)
    requires forall n :: n in q ==> s.slots[n].Accepted() > 0
    ensures Reached(conf, nodes, lapse, ReadBy(s, q))
    decreases |q|
  {
    hide Reached;
    if q == {} {
      assert ReadBy(s, q) == s;
    } else {
      var n :| n in q;
      ReadAll(conf, nodes, lapse, s, g, q - {n});
      var t := ReadBy(s, q - {n});
      Step(conf, nodes, lapse, t, ReadAt(n));
      assert Apply(t, ReadAt(n)).holds == ReadBy(s, q).holds;
    }
  }

  /** The purge of d has reached every acceptor of q. */
  ghost function PurgedAt(s: State, d: Ballot, q: set<NodeId>): State
  {
    s.(slots := OnAll(s, q, (x: Slot) => Purge(x, d)))
  }

  lemma {:induction false} PurgeAll(conf: Conf, nodes: set<NodeId>, lapse: Lapse, s: State, g: nat, d: Ballot, q: set<NodeId>)
    requires Reached(conf, nodes, lapse, s) && Purged(s, g, d) && q <= s.slots.Keys
    ensures Reached(conf, nodes, lapse, PurgedAt(s, d, q))
    decreases |q|
  {
    hide Reached;
    if q == {} {
      assert PurgedAt(s, d, q).slots == s.slots;
    } else {
      var n :| n in q;
      PurgeAll(conf, nodes, lapse, s, g, d, q - {n});
      var t := PurgedAt(s, d, q - {n});
      Step(conf, nodes, lapse, t, PurgeAt(n, g, d));
      assert t.slots[n] == s.slots[n];
      assert Apply(t, PurgeAt(n, g, d)).slots == PurgedAt(s, d, q).slots;
    }
  }

  /** Every acceptor of q has answered the sync scan without a row. */
  ghost function ScannedBy(s: State, q: set<NodeId>): State
  {
    s.(blanks := s.blanks + set n | n in q :: Blank(s.current, n))
  }

  lemma {:induction false} ScanAll(conf: Conf, nodes: set<NodeId>, lapse: Lapse, s: State, q: set<NodeId>)
    requires Reached(conf, nodes, lapse, s) && AllServe(conf, s, q, s.current)
    requires forall n :: n in q ==> s.slots[n].row.None?
    ensures Reached(conf, nodes, lapse, ScannedBy(s, q))
    decreases |q|
  {
    hide Reached;
    if q == {} {
      assert ScannedBy(s, q) == s;
    } else {
      var n :| n in q;
      ScanAll(conf, nodes, lapse, s, q - {n});
      var t := ScannedBy(s, q - {n});
      Step(conf, nodes, lapse, t, ScanAt(n));
      assert Apply(t, ScanAt(n)).blanks == ScannedBy(s, q).blanks;
    }
  }

  // ---- rounds ----

  /** From s to t every acceptor of q promised and accepted p at b, and nothing else moved. */
  ghost predicate AfterRound(s: State, t: State, b: Ballot, q: set<NodeId>, p: Proposal)
  {
    && t.current == s.current && t.inst == s.inst && t.slots.Keys == s.slots.Keys
    && (forall n :: n in s.slots ==>
         t.slots[n] == if n in q then Slot(Some(Row(b, b, p.value)), s.slots[n].floor) else s.slots[n])
    && t.proposals == s.proposals[b := p] && s.acks <= t.acks && AckedBy(t, b, q)
    && t.admits == s.admits && t.holds == s.holds && t.purges == s.purges && t.blanks == s.blanks
  }

  ghost predicate CanRound(conf: Conf, lapse: Lapse, s: State, g: nat, b: Ballot, q: set<NodeId>)
  {
    && g <= s.current && g < |conf| && IsQuorum(q, conf[g]) && AllServe(conf, s, q, g) && b > 0 && b !in s.proposals
    && (forall n :: n in q ==> s.slots[n].Valid() && s.slots[n].Promised() < b)
    && (lapse.LowBallot? || forall m :: m in s.purges && m.gen < g ==> m.ballot < b)
  }

  /** A quorum that has promised nothing at or above b lets b be chosen, and what b starts
      from is exactly the highest row that one of the quorum holds. */
  lemma RoundFinds(conf: Conf, nodes: set<NodeId>, lapse: Lapse, s: State, g: nat, b: Ballot, q: set<NodeId>, x: NodeId, v: Option<Value>)
    returns (t: State, p: Proposal)
    requires Reached(conf, nodes, lapse, s) && CanRound(conf, lapse, s, g, b, q)
    requires x in q && x in s.slots && forall n :: n in q ==> s.slots[n].Accepted() <= s.slots[x].Accepted()
    ensures p == Proposal(g, s.slots[x].Accepted(), s.slots[x].Value(), v)
    ensures Reached(conf, nodes, lapse, t) && AfterRound(s, t, b, q, p) && ChosenAt(conf, t, g, b)
  {
    hide Reached;
    p := Proposal(g, s.slots[x].Accepted(), s.slots[x].Value(), v);
    var u := RoundProposes(conf, nodes, lapse, s, g, b, q, x, p);
    AcceptAll(conf, nodes, lapse, u, b, q);
    t := AcceptedBy(u, b, q);
    assert AckedBy(t, b, q);
  }

  /** The prepare phase of the round and what it lets be proposed. */
  lemma RoundProposes(conf: Conf, nodes: set<NodeId>, lapse: Lapse, s: State, g: nat, b: Ballot, q: set<NodeId>, x: NodeId, p: Proposal)
    returns (u: State)
    requires Reached(conf, nodes, lapse, s) && CanRound(conf, lapse, s, g, b, q)
    requires x in q && x in s.slots && forall n :: n in q ==> s.slots[n].Accepted() <= s.slots[x].Accepted()
    requires p.gen == g && p.base == s.slots[x].Accepted() && p.cur == s.slots[x].Value()
    ensures Reached(conf, nodes, lapse, u)
    ensures u == Prepared(s, g, b, q).(proposals := s.proposals[b := p], made := u.made)
  {
    hide Reached, FromQuorum;
    PrepareAll(conf, nodes, lapse, s, g, b, q);
    PreparedIsQuorum(conf, s, g, b, q, x, p);
    Step(conf, nodes, lapse, Prepared(s, g, b, q), Propose(b, q, p));
    u := Apply(Prepared(s, g, b, q), Propose(b, q, p));
  }

  lemma PreparedIsQuorum(conf: Conf, s: State, g: nat, b: Ballot, q: set<NodeId>, x: NodeId, p: Proposal)
    requires g < |conf| && IsQuorum(q, conf[g]) && AllServe(conf, s, q, g)
    requires x in q && x in s.slots && forall n :: n in q ==> s.slots[n].Accepted() <= s.slots[x].Accepted()
    requires p.gen == g && p.base == s.slots[x].Accepted() && p.cur == s.slots[x].Value()
    ensures FromQuorum(conf, Prepared(s, g, b, q), b, q, p, s.purges)
  {
    var t := Prepared(s, g, b, q);
    forall n | n in q ensures exists m :: Promised(t, g, n, b, m) && m.accepted <= p.base && m.seen <= s.purges {
      assert Promised(t, g, n, b, PromiseOf(s, g, b, n));
    }
    assert Promised(t, g, x, b, PromiseOf(s, g, b, x));
  }

  /** What was deleted is back: under voters later than the purge of d a proposal that
      started from a row below d is chosen with that row's value. */
  ghost predicate Revived(conf: Conf, s: State, d: PurgeMsg, c: Ballot)
  {
    && d in s.purges && ChosenAt(conf, s, s.current, c) && d.gen < s.current && d.ballot < c
    && 0 < s.proposals[c].base < d.ballot && s.proposals[c].value == s.proposals[c].cur
  }

  /** Where the purge has emptied the rest of a quorum, settling the register revives what
      was deleted exactly when the remaining acceptor holds a row below the purged ballot. */
  lemma SettlingRevivesIff(conf: Conf, nodes: set<NodeId>, lapse: Lapse, s: State, b: Ballot, q: set<NodeId>, x: NodeId, d: PurgeMsg)
    returns (t: State, p: Proposal)
    requires Reached(conf, nodes, lapse, s) && CanRound(conf, lapse, s, s.current, b, q) && x in q
    requires d in s.purges && d.gen < s.current && d.ballot < b
    requires forall n :: n in q && n != x ==> s.slots[n].Accepted() == 0
    ensures Reached(conf, nodes, lapse, t) && AfterRound(s, t, b, q, p) && ChosenAt(conf, t, s.current, b)
    ensures Revived(conf, t, d, b) <==> 0 < s.slots[x].Accepted() < d.ballot
  {
    hide Reached, ChosenAt;
    t, p := RoundFinds(conf, nodes, lapse, s, s.current, b, q, x, s.slots[x].Value());
  }

  // ---- a voter that comes back with what was deleted ----

  /** Four voters, one of which is removed and added again. */
  function Readding(): Conf { [{0, 1, 2, 3}, {0, 1, 2}, {0, 1, 2, 3}] }

  const FOUR: set<NodeId> := {0, 1, 2, 3}
  const THREE: set<NodeId> := {0, 1, 2}

  function Written(): Option<Value> { Some(Value(Some([]), 5)) }

  function Deleted(): Option<Value> { Some(Value(None, 9)) }

  lemma ReaddingIsGood()
    ensures GoodConf(Readding())
  {
    var c := Readding();
    assert c[0] - c[1] == {3} && c[1] - c[0] == {} && c[1] - c[2] == {} && c[2] - c[1] == {3};
  }

  function Fresh(nodes: set<NodeId>): State
  {
    State(0, map n | n in nodes :: 0, map n | n in nodes :: Slot(None, 0), {}, map[], map[], {}, {}, {}, {}, {})
  }

  /** 0, 1 and 2 have installed g and 3 has installed h. */
  ghost predicate AtGenerations(s: State, g: nat, h: nat)
  {
    s.inst.Keys == FOUR && s.inst[0] == s.inst[1] == s.inst[2] == g && s.inst[3] == h
  }

  /** The value written at 5 sits at three voters; 3 has it too, or an accept of it that
      passed the gate but has not landed. */
  ghost predicate ValueWritten(s: State, landed: bool)
  {
    && s.current == 0 && AtGenerations(s, 0, 0)
    && s.slots.Keys == FOUR && (forall n :: n in THREE ==> s.slots[n] == Slot(Some(Row(5, 5, Written())), 0))
    && s.slots[3] == (if landed then Slot(Some(Row(5, 5, Written())), 0) else Slot(None, 0))
    && s.proposals == map[5 := Proposal(0, 0, None, Written())]
    && (!landed ==> Ack(3, 5) in s.admits)
    && s.holds == {} && s.purges == {} && s.blanks == {}
  }

  lemma ThreeOfFour()
    ensures IsQuorum(THREE, FOUR) && IsQuorum(THREE, THREE) && IsQuorum({0, 1, 3}, FOUR)
  {
    assert |FOUR| == 4 && |THREE| == 3 && |{0, 1, 3}| == 3;
  }

  lemma WriteAtThree(lapse: Lapse) returns (s: State)
    ensures Reached(Readding(), FOUR, lapse, s)
    ensures AfterRound(Fresh(FOUR), s, 5, THREE, Proposal(0, 0, None, Written()))
  {
    hide Reached, Enabled, Apply, ChosenAt, AfterRound;
    ReaddingIsGood();
    ThreeOfFour();
    hide GoodConf, IsQuorum;
    var s0 := Fresh(FOUR);
    Start(Readding(), FOUR, lapse, s0);
    var p: Proposal;
    s, p := RoundFinds(Readding(), FOUR, lapse, s0, 0, 5, THREE, 0, Written());
  }

  lemma WriteValue(lapse: Lapse, landed: bool) returns (s: State)
    ensures Reached(Readding(), FOUR, lapse, s) && ValueWritten(s, landed)
  {
    hide Reached;
    var s1 := WriteAtThree(lapse);
    var e := if landed then AcceptAt(3, 5) else AdmitAt(3, 5);
    Step(Readding(), FOUR, lapse, s1, e);
    s := Apply(s1, e);
  }

  /** 3 is gone from the voters; it was down, or it installed the view that drops it. */
  ghost predicate Dropped(s: State, landed: bool)
  {
    && s.current == 1 && AtGenerations(s, 1, if landed then 0 else 1)
    && s.slots.Keys == FOUR && (forall n :: n in THREE ==> s.slots[n] == Slot(Some(Row(5, 5, Written())), 0))
    && s.slots[3] == (if landed then Slot(Some(Row(5, 5, Written())), 0) else Slot(None, 0))
    && s.proposals == map[5 := Proposal(0, 0, None, Written())]
    && (!landed ==> Ack(3, 5) in s.admits)
    && s.holds == {} && s.purges == {} && s.blanks == {}
  }

  lemma Drop(lapse: Lapse, landed: bool) returns (s: State)
    ensures Reached(Readding(), FOUR, lapse, s) && Dropped(s, landed)
  {
    hide Reached;
    var s0 := WriteValue(lapse, landed);
    var s1 := MoveOn(Readding(), FOUR, lapse, s0, THREE);
    hide Enabled, Stays, Synced;
    if landed {
      s := s1;
    } else {
      s := HearOfIt(lapse, s0, s1);
    }
  }

  /** 3 installs the view that drops it and wipes its rows. */
  lemma HearOfIt(lapse: Lapse, s0: State, s: State) returns (t: State)
    requires ValueWritten(s0, false) && s == Installed(s0.(current := 1), 1, THREE) && Reached(Readding(), FOUR, lapse, s)
    ensures Reached(Readding(), FOUR, lapse, t) && Dropped(t, false)
  {
    hide Reached;
    Step(Readding(), FOUR, lapse, s, InstallAt(3, 1, true));
    t := Apply(s, InstallAt(3, 1, true));
  }

  /** The tombstone at 9 was chosen by the three voters and read back from all of them. */
  ghost predicate TombstoneHeld(s: State, landed: bool)
  {
    && s.current == 1 && AtGenerations(s, 1, if landed then 0 else 1)
    && s.slots.Keys == FOUR && (forall n :: n in THREE ==> s.slots[n] == Slot(Some(Row(9, 9, Deleted())), 0))
    && s.slots[3] == (if landed then Slot(Some(Row(5, 5, Written())), 0) else Slot(None, 0))
    && s.proposals == map[5 := Proposal(0, 0, None, Written()), 9 := Proposal(1, 5, Written(), Deleted())]
    && (!landed ==> Ack(3, 5) in s.admits) && AckedBy(s, 9, THREE)
    && s.purges == {} && s.blanks == {}
  }

  lemma Delete(lapse: Lapse, landed: bool) returns (s: State)
    ensures Reached(Readding(), FOUR, lapse, s) && TombstoneHeld(s, landed)
  {
    hide Reached, ChosenAt;
    var s0 := Drop(lapse, landed);
    ThreeOfFour();
    hide IsQuorum;
    var p: Proposal;
    s, p := RoundFinds(Readding(), FOUR, lapse, s0, 1, 9, THREE, 0, Deleted());
  }

  /** The tombstone was purged at every voter. */
  ghost predicate Emptied(s: State, landed: bool)
  {
    && s.current == 1 && AtGenerations(s, 1, if landed then 0 else 1)
    && s.slots.Keys == FOUR && (forall n :: n in THREE ==> s.slots[n] == Slot(None, 9))
    && s.slots[3] == (if landed then Slot(Some(Row(5, 5, Written())), 0) else Slot(None, 0))
    && s.proposals == map[5 := Proposal(0, 0, None, Written()), 9 := Proposal(1, 5, Written(), Deleted())]
    && (!landed ==> Ack(3, 5) in s.admits) && AckedBy(s, 9, THREE)
    && s.purges == {PurgeMsg(1, 9)} && s.blanks == {}
  }

  lemma SendIt(lapse: Lapse, landed: bool) returns (s: State)
    ensures Reached(Readding(), FOUR, lapse, s)
    ensures TombstoneHeld(s.(purges := {}), landed) && s.purges == {PurgeMsg(1, 9)}
  {
    hide Reached;
    var s0 := Delete(lapse, landed);
    ReadAll(Readding(), FOUR, lapse, s0, 1, THREE);
    var s1 := ReadBy(s0, THREE);
    forall n | n in THREE ensures HeldAt(s1, 1, n, 9) {
    }
    Step(Readding(), FOUR, lapse, s1, SendPurge(1, 9, THREE, 1));
    s := Apply(s1, SendPurge(1, 9, THREE, 1));
  }

  lemma PurgeTombstone(lapse: Lapse, landed: bool) returns (s: State)
    ensures Reached(Readding(), FOUR, lapse, s) && Emptied(s, landed)
  {
    hide Reached;
    var s0 := SendIt(lapse, landed);
    assert Purged(s0, 1, 9);
    PurgeAll(Readding(), FOUR, lapse, s0, 1, 9, THREE);
    s := PurgedAt(s0, 9, THREE);
  }

  /** 3 is a voter again and the sync under the new voters is done; 3 holds the old value. */
  ghost predicate BackWithValue(s: State)
  {
    && s.current == 2 && AtGenerations(s, 2, 2)
    && s.slots.Keys == FOUR && (forall n :: n in THREE ==> s.slots[n] == Slot(None, 9))
    && s.slots[3] == Slot(Some(Row(5, 5, Written())), 0)
    && s.proposals == map[5 := Proposal(0, 0, None, Written()), 9 := Proposal(1, 5, Written(), Deleted())]
    && s.purges == {PurgeMsg(1, 9)} && BlankBy(s, 2, THREE)
  }

  lemma EmptiedIsSynced(s: State, landed: bool)
    requires Emptied(s, landed)
    ensures Synced(Readding(), s, 1)
  {
    ThreeOfFour();
    assert ChosenAt(Readding(), s, 1, 9);
  }

  ghost predicate UnderFour(s: State, landed: bool)
  {
    && s.current == 2 && AtGenerations(s, 2, if landed then 0 else 1)
    && s.slots.Keys == FOUR && (forall n :: n in THREE ==> s.slots[n] == Slot(None, 9))
    && s.slots[3] == (if landed then Slot(Some(Row(5, 5, Written())), 0) else Slot(None, 0))
    && s.proposals == map[5 := Proposal(0, 0, None, Written()), 9 := Proposal(1, 5, Written(), Deleted())]
    && (!landed ==> Ack(3, 5) in s.admits) && s.purges == {PurgeMsg(1, 9)}
  }

  lemma AddBack(lapse: Lapse, landed: bool) returns (s: State)
    ensures Reached(Readding(), FOUR, lapse, s) && UnderFour(s, landed)
  {
    hide Reached;
    var s0 := PurgeTombstone(lapse, landed);
    EmptiedIsSynced(s0, landed);
    hide Synced, IsQuorum, Stays;
    s := MoveOn(Readding(), FOUR, lapse, s0, THREE);
    hide Enabled;
    AddedBack(s0, s, landed);
  }

  lemma AddedBack(s: State, t: State, landed: bool)
    requires Emptied(s, landed) && t == Installed(s.(current := 2), 2, THREE)
    ensures UnderFour(t, landed)
  {
  }

  lemma SyncEmpty(lapse: Lapse, landed: bool) returns (s: State)
    ensures Reached(Readding(), FOUR, lapse, s) && UnderFour(s, landed) && BlankBy(s, 2, THREE)
  {
    hide Reached;
    s := AddBack(lapse, landed);
    ScanAll(Readding(), FOUR, lapse, s, THREE);
    s := ScannedBy(s, THREE);
  }

  /** 3 was down while it was dropped: it comes back with its old row. */
  lemma ComeBackWithRow() returns (s: State)
    ensures Reached(Readding(), FOUR, OldRow, s) && BackWithValue(s)
  {
    hide Reached;
    var s0 := SyncEmpty(OldRow, true);
    Step(Readding(), FOUR, OldRow, s0, InstallAt(3, 2, false));
    s := Apply(s0, InstallAt(3, 2, false));
  }

  /** 3 was wiped when it was dropped, but an accept from before lands once it is back. */
  lemma ComeBackAndLand() returns (s: State)
    ensures Reached(Readding(), FOUR, LateLanding, s) && BackWithValue(s)
  {
    hide Reached;
    var s0 := SyncEmpty(LateLanding, false);
    Step(Readding(), FOUR, LateLanding, s0, InstallAt(3, 2, false));
    var s1 := Apply(s0, InstallAt(3, 2, false));
    Step(Readding(), FOUR, LateLanding, s1, RacedAccept(3, 5));
    s := Apply(s1, RacedAccept(3, 5));
  }

  lemma ReviveFrom(lapse: Lapse, s: State) returns (t: State)
    requires Reached(Readding(), FOUR, lapse, s) && BackWithValue(s)
    ensures Reached(Readding(), FOUR, lapse, t) && Synced(Readding(), t, 2) && Revived(Readding(), t, PurgeMsg(1, 9), 12)
  {
    hide Reached;
    ThreeOfFour();
    var p: Proposal;
    t, p := RoundFinds(Readding(), FOUR, lapse, s, 2, 12, {0, 1, 3}, 3, Written());
    assert BlankBy(t, 2, THREE);
  }

  /** With every other condition met, an acceptor that comes back with a row revives a
      deleted value. */
  lemma OldRowRevives() returns (t: State)
    ensures Reached(Readding(), FOUR, OldRow, t) && Synced(Readding(), t, 2) && Revived(Readding(), t, PurgeMsg(1, 9), 12)
  {
    hide Reached;
    var s := ComeBackWithRow();
    t := ReviveFrom(OldRow, s);
  }

  /** With every other condition met, an accept that lands late revives a deleted value. */
  lemma LateLandingRevives() returns (t: State)
    ensures Reached(Readding(), FOUR, LateLanding, t) && Synced(Readding(), t, 2) && Revived(Readding(), t, PurgeMsg(1, 9), 12)
  {
    hide Reached;
    var s := ComeBackAndLand();
    t := ReviveFrom(LateLanding, s);
  }

  // ---- a purge that was lost, and voters that never heard of its ballot ----

  /** Of the four voters that held the tombstone only 2 and 3 are left in the end. */
  function Replacing(): Conf
  {
    [{0, 1, 2, 3}, {0, 1, 2, 3, 4}, {1, 2, 3, 4}, {1, 2, 3, 4, 5}, {2, 3, 4, 5}, {2, 3, 4, 5, 6}]
  }

  const SEVEN: set<NodeId> := {0, 1, 2, 3, 4, 5, 6}

  lemma ReplacingIsGood()
    ensures GoodConf(Replacing())
  {
    var c := Replacing();
    assert c[0] - c[1] == {} && c[1] - c[0] == {4};
    assert c[1] - c[2] == {0} && c[2] - c[1] == {};
    assert c[2] - c[3] == {} && c[3] - c[2] == {5};
    assert c[3] - c[4] == {1} && c[4] - c[3] == {};
    assert c[4] - c[5] == {} && c[5] - c[4] == {6};
  }

  lemma ReplacingQuorums()
    ensures IsQuorum(FOUR, Replacing()[0]) && IsQuorum({0, 1, 2}, Replacing()[1]) && IsQuorum({1, 2, 4}, Replacing()[2])
    ensures IsQuorum({1, 2, 4}, Replacing()[3]) && IsQuorum({2, 4, 5}, Replacing()[4]) && IsQuorum({2, 4, 5}, Replacing()[5])
    ensures IsQuorum({4, 5, 6}, Replacing()[5]) && IsQuorum({3, 4, 5}, Replacing()[5])
  {
    assert |Replacing()[0]| == 4 && |Replacing()[1]| == 5 && |Replacing()[2]| == 4;
    assert |Replacing()[3]| == 5 && |Replacing()[4]| == 4 && |Replacing()[5]| == 5;
    assert |{0, 1, 2}| == 3 && |{1, 2, 4}| == 3 && |{2, 4, 5}| == 3 && |{4, 5, 6}| == 3 && |{3, 4, 5}| == 3;
  }

  ghost function History(): map<Ballot, Proposal>
  {
    map[5 := Proposal(0, 0, None, Written()), 9 := Proposal(0, 5, Written(), Deleted())]
  }

  /** The tombstone was purged, but the message to 3 was lost. */
  ghost predicate LostAtThree(s: State)
  {
    && s.slots.Keys == SEVEN && s.inst.Keys == SEVEN
    && (forall n :: n in THREE ==> s.slots[n] == Slot(None, 9))
    && s.slots[3] == Slot(Some(Row(9, 9, Deleted())), 0)
    && s.slots[4] == s.slots[5] == s.slots[6] == Slot(None, 0)
    && s.purges == {PurgeMsg(0, 9)} && s.proposals == History()
  }

  ghost predicate HeldAtFour(s: State)
  {
    && s.slots.Keys == SEVEN && s.inst.Keys == SEVEN && s.current == 0 && (forall n :: n in SEVEN ==> s.inst[n] == 0)
    && (forall n :: n in FOUR ==> s.slots[n] == Slot(Some(Row(9, 9, Deleted())), 0))
    && s.slots[4] == s.slots[5] == s.slots[6] == Slot(None, 0)
    && s.purges == {} && s.proposals == History()
  }

  lemma WriteFirst() returns (s: State)
    ensures Reached(Replacing(), SEVEN, LowBallot, s)
    ensures AfterRound(Fresh(SEVEN), s, 5, FOUR, Proposal(0, 0, None, Written()))
  {
    hide Reached, ChosenAt, Enabled, Apply, AfterRound;
    ReplacingIsGood();
    ReplacingQuorums();
    hide IsQuorum, GoodConf;
    Start(Replacing(), SEVEN, LowBallot, Fresh(SEVEN));
    var p: Proposal;
    s, p := RoundFinds(Replacing(), SEVEN, LowBallot, Fresh(SEVEN), 0, 5, FOUR, 0, Written());
  }

  lemma WriteAndDelete() returns (s: State)
    ensures Reached(Replacing(), SEVEN, LowBallot, s) && HeldAtFour(s)
  {
    hide Reached, ChosenAt;
    var s0 := WriteFirst();
    ReplacingQuorums();
    hide IsQuorum;
    var p: Proposal;
    s, p := RoundFinds(Replacing(), SEVEN, LowBallot, s0, 0, 9, FOUR, 0, Deleted());
  }

  lemma PurgeAllButThree() returns (s: State)
    ensures Reached(Replacing(), SEVEN, LowBallot, s) && LostAtThree(s) && s.current == 0 && forall n :: n in SEVEN ==> s.inst[n] == 0
  {
    hide Reached;
    var s0 := WriteAndDelete();
    ReadAll(Replacing(), SEVEN, LowBallot, s0, 0, FOUR);
    var s1 := ReadBy(s0, FOUR);
    forall n | n in FOUR ensures HeldAt(s1, 0, n, 9) {
    }
    Step(Replacing(), SEVEN, LowBallot, s1, SendPurge(0, 9, FOUR, 0));
    var s2 := Apply(s1, SendPurge(0, 9, FOUR, 0));
    assert Purged(s2, 0, 9);
    PurgeAll(Replacing(), SEVEN, LowBallot, s2, 0, 9, THREE);
    s := PurgedAt(s2, 9, THREE);
  }

  /** A voter change whose sync does not see the row left at 3. */
  lemma NextVoters(s: State, q: set<NodeId>, r: set<NodeId>) returns (t: State)
    requires Reached(Replacing(), SEVEN, LowBallot, s) && LostAtThree(s) && s.current + 1 < |Replacing()|
    requires s.current == 0 || Synced(Replacing(), s, s.current)
    requires q <= SEVEN && forall n :: n in q ==> s.inst[n] <= s.current
    requires 3 in q ==> Stays(Replacing(), 3, s.inst[3], s.current + 1)
    requires r <= q && 3 !in r && r <= Replacing()[s.current + 1] && IsQuorum(r, Replacing()[s.current + 1])
    ensures Reached(Replacing(), SEVEN, LowBallot, t) && LostAtThree(t) && t.current == s.current + 1
    ensures t.inst == map n | n in s.inst :: if n in q then t.current else s.inst[n]
    ensures Synced(Replacing(), t, t.current)
  {
    hide Reached, Stays, IsQuorum;
    var u := MoveOn(Replacing(), SEVEN, LowBallot, s, q);
    ScanAll(Replacing(), SEVEN, LowBallot, u, r);
    t := ScannedBy(u, r);
    assert BlankBy(t, t.current, r);
    assert ScannedBlank(Replacing(), t, t.current);
  }

  lemma ReplaceOne() returns (s: State)
    ensures Reached(Replacing(), SEVEN, LowBallot, s) && LostAtThree(s) && s.current == 2 && Synced(Replacing(), s, 2)
    ensures s.inst.Keys == SEVEN && s.inst[1] == s.inst[2] == s.inst[4] == 2 && s.inst[3] == s.inst[5] == s.inst[6] == 0
  {
    hide Reached, LostAtThree, Synced;
    ReplacingQuorums();
    hide IsQuorum, Stays;
    s := PurgeAllButThree();
    InstalledKeys(s);
    s := NextVoters(s, {0, 1, 2}, {0, 1, 2});
    InstalledKeys(s);
    s := NextVoters(s, {1, 2, 4}, {1, 2, 4});
    InstalledKeys(s);
  }

  /** Five voter changes later 4, 5 and 6, none of which ever held the register, are a
      majority with 3. */
  lemma ReplaceVoters() returns (s: State)
    ensures Reached(Replacing(), SEVEN, LowBallot, s) && LostAtThree(s) && s.current == 5 && Synced(Replacing(), s, 5)
    ensures forall n :: n in {3, 4, 5, 6} ==> s.inst[n] == 5
  {
    hide Reached, LostAtThree, Synced;
    ReplacingQuorums();
    hide IsQuorum;
    assert Stays(Replacing(), 3, 0, 5);
    hide Stays;
    s := ReplaceOne();
    s := NextVoters(s, {1, 2, 4}, {1, 2, 4});
    InstalledKeys(s);
    s := NextVoters(s, {2, 4, 5}, {2, 4, 5});
    InstalledKeys(s);
    s := NextVoters(s, {2, 3, 4, 5, 6}, {2, 4, 5});
    InstalledKeys(s);
  }

  lemma InstalledKeys(s: State)
    requires LostAtThree(s)
    ensures s.inst.Keys == SEVEN
  {
  }

  /** 4, 5 and 6 have no floor: they let a write be chosen at 3. */
  ghost predicate SlippedUnder(s: State)
  {
    && s.current == 5 && s.slots.Keys == s.inst.Keys == SEVEN && (forall n :: n in {3, 4, 5, 6} ==> s.inst[n] == 5)
    && s.slots[3] == Slot(Some(Row(9, 9, Deleted())), 0)
    && s.slots[4] == s.slots[5] == s.slots[6] == Slot(Some(Row(3, 3, Written())), 0)
    && s.purges == {PurgeMsg(0, 9)} && s.proposals == History()[3 := Proposal(5, 0, None, Written())]
  }

  lemma SlipUnder() returns (t: State)
    ensures Reached(Replacing(), SEVEN, LowBallot, t) && Synced(Replacing(), t, 5)
    ensures ChosenAt(Replacing(), t, 5, 3) && SlippedUnder(t)
  {
    hide Reached, ChosenAt, Synced;
    var s := ReplaceVoters();
    ReplacingQuorums();
    hide IsQuorum;
    var p: Proposal;
    t, p := RoundFinds(Replacing(), SEVEN, LowBallot, s, 5, 3, {4, 5, 6}, 4, Written());
    SyncedAfterRound(s, t, 3, {4, 5, 6}, p);
  }

  /** With every other condition met, a write chosen at a ballot below the purged one is
      overwritten by a proposal that never saw it: agreement fails. */
  lemma LowBallotLoses() returns (t: State)
    ensures Reached(Replacing(), SEVEN, LowBallot, t) && Synced(Replacing(), t, 5)
    ensures ChosenAt(Replacing(), t, 5, 3) && ChosenAt(Replacing(), t, 5, 20) && !Descends(t, 20, 3)
  {
    hide Reached, ChosenAt, Synced, Descends;
    var s := SlipUnder();
    ReplacingQuorums();
    hide IsQuorum;
    var p: Proposal;
    t, p := RoundFinds(Replacing(), SEVEN, LowBallot, s, 5, 20, {3, 4, 5}, 3, Written());
    ChosenAfterRound(s, t, 20, {3, 4, 5}, p, 3);
    SyncedAfterRound(s, t, 20, {3, 4, 5}, p);
    NotDescended(t);
  }

  lemma ChosenAfterRound(s: State, t: State, b: Ballot, q: set<NodeId>, p: Proposal, c: Ballot)
    requires AfterRound(s, t, b, q, p) && b !in s.proposals && ChosenAt(Replacing(), s, 5, c)
    ensures ChosenAt(Replacing(), t, 5, c)
  {
    var r :| IsQuorum(r, Replacing()[5]) && AckedBy(s, c, r);
    assert AckedBy(t, c, r);
  }

  lemma SyncedAfterRound(s: State, t: State, b: Ballot, q: set<NodeId>, p: Proposal)
    requires AfterRound(s, t, b, q, p) && b !in s.proposals && Synced(Replacing(), s, 5)
    ensures Synced(Replacing(), t, 5)
  {
    if c: Ballot :| ChosenAt(Replacing(), s, 5, c) {
      ChosenAfterRound(s, t, b, q, p, c);
    } else {
      var r :| IsQuorum(r, Replacing()[5]) && BlankBy(s, 5, r);
      assert BlankBy(t, 5, r);
    }
  }

  lemma NotDescended(t: State)
    requires {5, 9, 20} <= t.proposals.Keys && t.purges == {PurgeMsg(0, 9)}
    requires t.proposals[20].base == 9 && t.proposals[9].base == 5 && t.proposals[5].base == 0
    ensures !Descends(t, 20, 3)
  {
    assert !Descends(t, 5, 3);
    assert !Descends(t, 9, 3);
  }

  // ---- a purge that does not wait for every voter asked ----

  /** Four voters, one of which is removed. */
  function Shrinking(): Conf { [{0, 1, 2, 3}, {1, 2, 3}] }

  lemma ShrinkingIsGood()
    ensures GoodConf(Shrinking())
    ensures IsQuorum(FOUR, FOUR) && IsQuorum(THREE, FOUR) && IsQuorum({1, 3}, {1, 2, 3}) && |THREE| >= |{1, 2, 3}|
  {
    var c := Shrinking();
    assert c[0] - c[1] == {0} && c[1] - c[0] == {};
    assert |FOUR| == 4 && |THREE| == 3 && |{1, 2, 3}| == 3 && |{1, 3}| == 2;
  }

  /** The tombstone at 9 sits at 0, 1 and 2; 3 still holds the value at 5. */
  ghost predicate MissedByThree(s: State)
  {
    && s.current == 0 && s.inst == Fresh(FOUR).inst && s.slots.Keys == FOUR
    && (forall n :: n in THREE ==> s.slots[n] == Slot(Some(Row(9, 9, Deleted())), 0))
    && s.slots[3] == Slot(Some(Row(5, 5, Written())), 0)
    && s.proposals == History() && s.purges == {} && s.blanks == {}
  }

  lemma DeleteAtThree() returns (s: State)
    ensures Reached(Shrinking(), FOUR, EarlyPurge, s) && MissedByThree(s)
  {
    hide Reached, ChosenAt;
    ShrinkingIsGood();
    hide IsQuorum, GoodConf;
    Start(Shrinking(), FOUR, EarlyPurge, Fresh(FOUR));
    var s0, p := RoundFinds(Shrinking(), FOUR, EarlyPurge, Fresh(FOUR), 0, 5, FOUR, 0, Written());
    s, p := RoundFinds(Shrinking(), FOUR, EarlyPurge, s0, 0, 9, THREE, 0, Deleted());
  }

  /** 0, 1 and 2 have answered a read with it. */
  lemma ReadAtThree() returns (s: State)
    ensures Reached(Shrinking(), FOUR, EarlyPurge, s) && MissedByThree(s) && forall n :: n in THREE ==> HeldAt(s, 0, n, 9)
  {
    hide Reached;
    var s0 := DeleteAtThree();
    ReadAll(Shrinking(), FOUR, EarlyPurge, s0, 0, THREE);
    s := ReadBy(s0, THREE);
  }

  /** 0 is removed, and the others have installed that. */
  ghost predicate Shrunk(s: State, ps: set<PurgeMsg>)
  {
    && s.current == 1 && s.inst.Keys == s.slots.Keys == FOUR && s.inst[1] == s.inst[2] == s.inst[3] == 1
    && s.slots[1] == s.slots[2] == Slot(Some(Row(9, 9, Deleted())), 0)
    && s.slots[3] == Slot(Some(Row(5, 5, Written())), 0)
    && s.proposals == History() && s.purges == ps
  }

  lemma Shrink() returns (s: State)
    ensures Reached(Shrinking(), FOUR, EarlyPurge, s) && Shrunk(s, {}) && forall n :: n in THREE ==> HeldAt(s, 0, n, 9)
  {
    hide Reached;
    var s0 := ReadAtThree();
    assert forall n :: n in {1, 2, 3} ==> Stays(Shrinking(), n, 0, 1);
    hide Stays, Synced;
    s := MoveOn(Shrinking(), FOUR, EarlyPurge, s0, {1, 2, 3});
  }

  /** Three answers meet three voters, and the purge goes out. */
  lemma SendEarly() returns (s: State)
    ensures Reached(Shrinking(), FOUR, EarlyPurge, s) && Shrunk(s, {PurgeMsg(0, 9)})
  {
    var s0 := Shrink();
    ShrinkingIsGood();
    hide Reached, IsQuorum, GoodConf;
    Step(Shrinking(), FOUR, EarlyPurge, s0, SendPurge(0, 9, THREE, 1));
    s := Apply(s0, SendPurge(0, 9, THREE, 1));
  }

  /** With every other condition met, a purge sent on the answers of three of four voters, once
      one of the three was removed, revives the deleted value: nobody came back, nothing landed
      late and the ballot is above the purged one. */
  lemma EarlyPurgeRevives() returns (t: State)
    ensures Reached(Shrinking(), FOUR, EarlyPurge, t) && Synced(Shrinking(), t, 1)
    ensures Revived(Shrinking(), t, PurgeMsg(0, 9), 12)
  {
    hide Reached, ChosenAt;
    var s0 := SendEarly();
    assert Purged(s0, 0, 9);
    PurgeAll(Shrinking(), FOUR, EarlyPurge, s0, 0, 9, {1, 2});
    var s1 := PurgedAt(s0, 9, {1, 2});
    ShrinkingIsGood();
    hide IsQuorum;
    var p: Proposal;
    t, p := SettlingRevivesIff(Shrinking(), FOUR, EarlyPurge, s1, 12, {1, 3}, 3, PurgeMsg(0, 9));
  }
}
