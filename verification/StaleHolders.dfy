/** What happens when a write of a holder that was overtaken lands on a later voter change
    (node/maintenance.go): a change is declared done with registers not settled under it, and
    the next change does not wait. */
module StaleHolders {

  import opened Options
  import opened Slots
  import opened Quorums
  import opened VoterViews
  import V = VoterChange

  /** s is reached from a fresh cluster of three voters, two registers and two holders. */
  ghost predicate Reached(s: State)
  {
    exists states, writes :: IsRun(NODES, states, writes) && states[|writes|] == s
  }

  const NODES: set<NodeId> := {0, 1, 2, 3, 4, 5}
  const A: HolderId := 0
  const B: HolderId := 1

  lemma Step(s: State, w: Write)
    requires Reached(s) && Enabled(s, w)
    ensures Reached(After(s, w))
  {
    hide Enabled, After, IsStart;
    var states, writes :| IsRun(NODES, states, writes) && states[|writes|] == s;
    var t := After(s, w);
    var states', writes' := states + [t], writes + [w];
    forall i | 0 <= i < |writes'| ensures Enabled(states'[i], writes'[i]) && states'[i + 1] == After(states'[i], writes'[i]) {
      if i < |writes| {
        assert states'[i] == states[i] && states'[i + 1] == states[i + 1] && writes'[i] == writes[i];
      } else {
        assert states'[i] == s && writes'[i] == w;
      }
    }
    assert states'[0] == states[0];
    assert IsRun(NODES, states', writes');
    assert states'[|writes'|] == t;
  }

  function FreshReg(): V.State
  {
    V.State(0, map n | n in NODES :: 0, map n | n in NODES :: Slot(None, 0), {}, map[], map[], {}, {}, {}, {}, {})
  }

  /** No acceptor has a row of the register, and 0, 1 and 2 have not installed g yet. */
  ghost predicate Rowless(x: V.State, g: nat)
  {
    && x.current == g && x.inst.Keys == x.slots.Keys == NODES && (forall n :: n in NODES ==> x.slots[n] == Slot(None, 0))
    && (forall n :: n in {0, 1, 2} ==> x.inst[n] < g) && x.proposals == map[]
    && (forall m :: m in x.blanks ==> m.gen < g)
  }

  /** The register after 0, 1 and 2 installed g and told its sync that they have no row. */
  ghost function Scanned(x: V.State, g: nat): V.State
  {
    x.(inst := map n | n in x.inst :: if n < 3 then g else x.inst[n],
       blanks := x.blanks + {V.Blank(g, 0), V.Blank(g, 1), V.Blank(g, 2)})
  }

  function FirstView(): View { View(0, [Voter(0, 0), Voter(1, 0), Voter(2, 0)], SyncDone) }

  function Start(): State
  {
    State(FirstView(), 0, [{0, 1, 2}], [FreshReg(), FreshReg()], map[A := Idle, B := Idle])
  }

  lemma StartReached()
    ensures Reached(Start())
  {
    var s := Start();
    assert Ids(FirstView().voters) == {0, 1, 2} by {
      var vs := FirstView().voters;
      assert vs[0].id == 0 && vs[1].id == 1 && vs[2].id == 2;
    }
    assert IsRun(NODES, [s], []);
  }

  ghost predicate HasOld(s: State, r: nat, g: nat)
  {
    r < |s.regs| && |s.sets| == g + 1 && {0, 1, 2} <= s.sets[g] && Rowless(s.regs[r], g)
  }

  ghost function WithReg(s: State, r: nat, x: V.State): State
    requires r < |s.regs|
  {
    s.(regs := s.regs[r := x])
  }

  lemma Install(s: State, r: nat, x: V.State, n: NodeId, g: nat)
    requires r < |s.regs| && Reached(WithReg(s, r, x)) && |s.sets| == g + 1 && x.current == g
    requires n in x.inst && n in x.slots && x.inst[n] < g
    ensures Reached(WithReg(s, r, x.(inst := x.inst[n := g])))
  {
    hide Reached;
    var e := V.InstallAt(n, g, false);
    Step(WithReg(s, r, x), RegStep(r, e));
    assert x.slots[n := x.slots[n]] == x.slots;
    assert V.Apply(x, e) == x.(inst := x.inst[n := g]);
    assert s.regs[r := x][r := V.Apply(x, e)] == s.regs[r := V.Apply(x, e)];
  }

  lemma Scan(s: State, r: nat, x: V.State, n: NodeId, g: nat)
    requires r < |s.regs| && Reached(WithReg(s, r, x)) && |s.sets| == g + 1 && x.current == g && n in s.sets[g]
    requires n in x.inst && n in x.slots && x.inst[n] == g && x.slots[n].row.None?
    ensures Reached(WithReg(s, r, x.(blanks := x.blanks + {V.Blank(g, n)})))
  {
    hide Reached;
    var e := V.ScanAt(n);
    Step(WithReg(s, r, x), RegStep(r, e));
    assert s.regs[r := x][r := V.Apply(x, e)] == s.regs[r := V.Apply(x, e)];
  }

  /** The sync scan of g finds no row of register r. */
  lemma ScanBlank(s: State, r: nat, g: nat)
    requires Reached(s) && HasOld(s, r, g)
    ensures Reached(WithReg(s, r, Scanned(s.regs[r], g)))
  {
    hide Reached;
    var x := s.regs[r];
    assert WithReg(s, r, x) == s;
    Install(s, r, x, 0, g);
    var x1 := x.(inst := x.inst[0 := g]);
    Install(s, r, x1, 1, g);
    var x2 := x1.(inst := x1.inst[1 := g]);
    Install(s, r, x2, 2, g);
    var x3 := x2.(inst := x2.inst[2 := g]);
    assert x3.inst == Scanned(x, g).inst;
    Scan(s, r, x3, 0, g);
    var x4 := x3.(blanks := x3.blanks + {V.Blank(g, 0)});
    Scan(s, r, x4, 1, g);
    var x5 := x4.(blanks := x4.blanks + {V.Blank(g, 1)});
    Scan(s, r, x5, 2, g);
    assert x5.blanks + {V.Blank(g, 2)} == Scanned(x, g).blanks;
  }

  lemma ScannedIsSynced(sets: V.Conf, x: V.State, g: nat)
    requires g < |sets| && IsQuorum({0, 1, 2}, sets[g])
    ensures V.Synced(sets, Scanned(x, g), g)
  {
    assert V.BlankBy(Scanned(x, g), g, {0, 1, 2});
    assert V.ScannedBlank(sets, Scanned(x, g), g);
  }

  /** Nothing was done for the register under the voters of g. */
  lemma RowlessIsNotSynced(sets: V.Conf, x: V.State, g: nat)
    requires g < |sets| && x.proposals == map[] && forall m :: m in x.blanks ==> m.gen < g
    ensures !V.Synced(sets, x, g)
  {
    if V.ScannedBlank(sets, x, g) {
      var q :| IsQuorum(q, sets[g]) && V.BlankBy(x, g, q);
      var n := QuorumsMeet(q, q, sets[g]);
    }
  }

  // ---- the views ----

  function SecondView(): View { AddVoter(FirstView(), 3).view }

  function ThirdView(): View { AddVoter(FinishSync(SecondView()), 4).view }

  lemma FirstIds()
    ensures Ids(FirstView().voters) == {0, 1, 2} && AddVoter(FirstView(), 3).Written? && Ids(SecondView().voters) == {0, 1, 2, 3}
    ensures SecondView().sync == SyncPending(3, true)
  {
    var vs := FirstView().voters;
    assert vs[0].id == 0 && vs[1].id == 1 && vs[2].id == 2;
    assert Ids(vs) == {0, 1, 2};
    ChangesByOne(FirstView(), 3);
  }

  lemma NotAVoter(v: View, id: NodeId)
    requires id !in Ids(v.voters) && v.sync == SyncDone
    ensures AddVoter(v, id).Written? && AddVoter(v, id).view.sync == SyncPending(id, true)
    ensures Ids(AddVoter(v, id).view.voters) == Ids(v.voters) + {id}
  {
    ChangesByOne(v, id);
    assert !IsVoter(v, id);
  }

  lemma SecondIds()
    ensures AddVoter(FinishSync(SecondView()), 4).Written?
    ensures Ids(ThirdView().voters) == {0, 1, 2, 3, 4} && ThirdView().sync == SyncPending(4, true)
    ensures AddVoter(FinishSync(ThirdView()), 5).Written? && AddVoter(FinishSync(ThirdView()), 5).view.sync.SyncPending?
  {
    FirstIds();
    hide AddVoter, Ids;
    NotAVoter(FinishSync(SecondView()), 4);
    NotAVoter(FinishSync(ThirdView()), 5);
  }

  lemma ThreeAreEnough()
    ensures IsQuorum({0, 1, 2}, {0, 1, 2, 3}) && IsQuorum({0, 1, 2}, {0, 1, 2, 3, 4})
    ensures |{0, 1, 2}| == 3 && |{0, 1, 2, 3}| == 4 && |{0, 1, 2, 3, 4}| == 5
  {
    assert |{0, 1, 2}| == 3 && |{0, 1, 2, 3}| == 4 && |{0, 1, 2, 3, 4}| == 5;
  }

  // ---- the first change, synced by both holders ----

  ghost function Two(a: Holder, b: Holder): map<HolderId, Holder> { map[A := a, B := b] }

  /** A write that moves only the holders. */
  lemma Turn(s: State, w: Write, a: Holder, b: Holder)
    requires Reached(s) && Enabled(s, w) && After(s, w) == s.(holders := After(s, w).holders)
    requires After(s, w).holders.Keys == {A, B} && After(s, w).holders[A] == a && After(s, w).holders[B] == b
    ensures Reached(s.(holders := Two(a, b)))
  {
    hide Reached, Enabled, After;
    Step(s, w);
    assert After(s, w).holders == Two(a, b);
  }

  /** The first change is pending under holder A, and both registers are settled under it. */
  ghost predicate OnePending(s: State)
  {
    && s.view == SecondView() && s.cursor == 0 && s.sets == [{0, 1, 2}, {0, 1, 2, 3}] && |s.regs| == 2
    && (forall r :: 0 <= r < 2 ==> s.regs[r] == Scanned(FreshReg().(current := 1), 1))
  }

  lemma MakeFirst() returns (s: State)
    ensures Reached(s) && s.view == SecondView() && s.cursor == 0 && s.sets == [{0, 1, 2}, {0, 1, 2, 3}] && |s.regs| == 2
    ensures (forall r :: 0 <= r < 2 ==> s.regs[r] == FreshReg().(current := 1)) && s.holders == Two(Working(1, 0), Idle)
  {
    hide Reached;
    StartReached();
    FirstIds();
    ThreeAreEnough();
    hide AddVoter, Ids;
    Step(Start(), Add(A, 3));
    s := After(Start(), Add(A, 3));
  }

  lemma FirstChange() returns (s: State)
    ensures Reached(s) && OnePending(s) && s.holders == Two(Working(1, 0), Idle)
  {
    hide Reached, SecondView;
    var s1 := MakeFirst();
    ScanBlank(s1, 0, 1);
    var s2 := WithReg(s1, 0, Scanned(s1.regs[0], 1));
    ScanBlank(s2, 1, 1);
    s := WithReg(s2, 1, Scanned(s2.regs[1], 1));
  }

  lemma OneSynced(s: State)
    requires OnePending(s)
    ensures V.Synced(s.sets, s.regs[0], 1) && V.Synced(s.sets, s.regs[1], 1) && s.view.sync.SyncPending?
  {
    ThreeAreEnough();
    FirstIds();
    ScannedIsSynced(s.sets, FreshReg().(current := 1), 1);
  }

  /** A settles the first register, or both, and stalls. */
  lemma ASyncs(k: nat) returns (s: State)
    requires k == 1 || k == 2
    ensures Reached(s) && OnePending(s) && s.holders == Two(Working(1, k), Idle)
  {
    hide Reached;
    s := FirstChange();
    OneSynced(s);
    hide V.Synced, SecondView;
    Turn(s, SettleNext(A, 1), Working(1, 1), Idle);
    s := s.(holders := Two(Working(1, 1), Idle));
    if k == 2 {
      Turn(s, SettleNext(A, 1), Working(1, 2), Idle);
      s := s.(holders := Two(Working(1, 2), Idle));
    }
  }

  lemma SamePending(s: State, a: Holder, b: Holder)
    requires OnePending(s)
    ensures OnePending(s.(holders := Two(a, b)))
  {
  }

  lemma SettleTurn(s: State, k: nat, at: nat)
    requires Reached(s) && OnePending(s) && s.holders == Two(Working(1, k), Working(1, at)) && at < 2
    ensures Reached(s.(holders := Two(Working(1, k), Working(1, at + 1))))
      && OnePending(s.(holders := Two(Working(1, k), Working(1, at + 1))))
  {
    OneSynced(s);
    SamePending(s, Working(1, k), Working(1, at + 1));
    hide Reached, V.Synced, SecondView, Scanned, FreshReg;
    Turn(s, SettleNext(B, 1), Working(1, k), Working(1, at + 1));
  }

  lemma ResumeTurn(s: State, k: nat)
    requires Reached(s) && OnePending(s) && s.holders == Two(Working(1, k), Idle)
    ensures Reached(s.(holders := Two(Working(1, k), Working(1, 0))))
      && OnePending(s.(holders := Two(Working(1, k), Working(1, 0))))
  {
    OneSynced(s);
    SamePending(s, Working(1, k), Working(1, 0));
    hide Reached, V.Synced, SecondView, Scanned, FreshReg;
    Turn(s, Resume(B), Working(1, k), Working(1, 0));
  }

  /** B takes over and settles both. */
  lemma BothSync(k: nat) returns (s: State)
    requires k == 1 || k == 2
    ensures Reached(s) && OnePending(s) && s.holders == Two(Working(1, k), Working(1, 2))
  {
    hide Reached, OnePending, Two;
    s := ASyncs(k);
    ResumeTurn(s, k);
    s := s.(holders := Two(Working(1, k), Working(1, 0)));
    SettleTurn(s, k, 0);
    s := s.(holders := Two(Working(1, k), Working(1, 1)));
    SettleTurn(s, k, 1);
    s := s.(holders := Two(Working(1, k), Working(1, 2)));
  }

  // ---- the second change ----

  /** A has dealt with the first k registers and stalls; B has synced the change as well,
      declared it done, and made the next one. */
  ghost predicate TwoPending(s: State, k: nat)
  {
    && s.view == ThirdView() && s.cursor == 0
    && s.sets == [{0, 1, 2}, {0, 1, 2, 3}, {0, 1, 2, 3, 4}] && |s.regs| == 2
    && (forall r :: 0 <= r < 2 ==> Rowless(s.regs[r], 2))
    && s.holders == Two(Working(1, k), Working(2, 0))
  }

  lemma FirstDone(k: nat) returns (s: State)
    requires k == 1 || k == 2
    ensures Reached(s) && OnePending(s.(view := SecondView())) && s.view == FinishSync(SecondView())
    ensures s.holders == Two(Working(1, k), Idle)
  {
    hide Reached, SecondView;
    var s0 := BothSync(k);
    Step(s0, Finish(B));
    s := After(s0, Finish(B));
    assert s.holders == Two(Working(1, k), Idle);
  }

  lemma MakeSecond(s: State, k: nat)
    requires OnePending(s.(view := SecondView())) && s.view == FinishSync(SecondView()) && s.holders == Two(Working(1, k), Idle)
    ensures Enabled(s, Add(B, 4))
    ensures After(s, Add(B, 4)) == Changed(s, B, ThirdView())
  {
    FirstIds();
    SecondIds();
    ThreeAreEnough();
    hide AddVoter, Ids, SecondView, Changed;
  }

  lemma SecondChange(k: nat) returns (s: State)
    requires k == 1 || k == 2
    ensures Reached(s) && TwoPending(s, k)
  {
    hide Reached;
    var s0 := FirstDone(k);
    MakeSecond(s0, k);
    Step(s0, Add(B, 4));
    SecondIds();
    hide AddVoter, Ids, SecondView, After, Enabled;
    s := After(s0, Add(B, 4));
    assert s.holders == Two(Working(1, k), Working(2, 0));
    assert s.sets == s0.sets + [{0, 1, 2, 3, 4}];
    forall r | 0 <= r < 2 ensures Rowless(s.regs[r], 2) {
      AdvancedIsRowless(s0.regs[r]);
    }
  }

  lemma AdvancedIsRowless(x: V.State)
    requires x == Scanned(FreshReg().(current := 1), 1)
    ensures Rowless(x.(current := 2), 2)
  {
  }

  /** A change was declared done although register 0 was not settled under it, and the next
      change has been made. */
  ghost predicate DidNotWait(s: State)
  {
    && |s.sets| == 4 && s.view.sync.SyncPending? && |s.regs| == 2
    && !V.Synced(s.sets[..3], s.regs[0], 2)
  }

  /** The second change is declared done with register 0 untouched under it. */
  ghost predicate DoneTooEarly(s: State, h: HolderId)
  {
    && s.view == FinishSync(ThirdView()) && |s.sets| == 3 && |s.regs| == 2
    && Rowless(s.regs[0], 2) && h in s.holders && s.holders[h] == Idle
  }

  lemma NextDoesNotWait(s: State, h: HolderId) returns (t: State)
    requires Reached(s) && DoneTooEarly(s, h)
    ensures Reached(t) && DidNotWait(t)
  {
    hide Reached, V.Synced;
    SecondIds();
    ThreeAreEnough();
    hide AddVoter, Ids, SecondView, ThirdView;
    Step(s, Add(h, 5));
    t := After(s, Add(h, 5));
    assert t.sets[..3] == s.sets;
    RowlessIsNotSynced(s.sets, t.regs[0], 2);
  }

  /** The last write of a holder that was overtaken ends a sync it never did. */
  lemma StaleFinish() returns (s: State)
    ensures Reached(s) && DidNotWait(s)
  {
    hide Reached, DidNotWait;
    var s0 := SecondChange(2);
    hide AddVoter, SecondView;
    Step(s0, Finish(A));
    s := NextDoesNotWait(After(s0, Finish(A)), A);
  }

  /** The other register is settled under the second change, and A writes its cursor there. */
  lemma CursorSlips() returns (s: State)
    ensures Reached(s) && s.view == ThirdView() && s.cursor == 1
    ensures |s.sets| == 3 && |s.regs| == 2 && Rowless(s.regs[0], 2) && V.Synced(s.sets, s.regs[1], 2)
    ensures s.holders == Two(Working(1, 1), Working(2, 0))
  {
    hide Reached, V.Synced;
    var s0 := SecondChange(1);
    SecondIds();
    hide AddVoter, SecondView;
    ScanBlank(s0, 1, 2);
    var s1 := WithReg(s0, 1, Scanned(s0.regs[1], 2));
    ThreeAreEnough();
    ScannedIsSynced(s1.sets, s0.regs[1], 2);
    Step(s1, WriteCursor(A));
    s := After(s1, WriteCursor(A));
  }

  /** The cursor of a holder that was overtaken makes the next holder skip a register. */
  lemma StaleCursor() returns (s: State)
    ensures Reached(s) && DidNotWait(s)
  {
    hide Reached, DidNotWait, V.Synced;
    var s2 := CursorSlips();
    SecondIds();
    hide AddVoter, SecondView, ThirdView, Rowless;
    Turn(s2, StepDown(B), Working(1, 1), Idle);
    var s3 := s2.(holders := Two(Working(1, 1), Idle));
    Turn(s3, Resume(B), Working(1, 1), Working(2, 1));
    var s4 := s3.(holders := Two(Working(1, 1), Working(2, 1)));
    Turn(s4, SettleNext(B, 2), Working(1, 1), Working(2, 2));
    var s5 := s4.(holders := Two(Working(1, 1), Working(2, 2)));
    s := SkippedDone(s5);
  }

  lemma SkippedDone(s: State) returns (t: State)
    requires Reached(s) && |s.regs| == 2 && s.holders == Two(Working(1, 1), Working(2, 2))
    requires s.view == ThirdView() && |s.sets| == 3 && Rowless(s.regs[0], 2)
    ensures Reached(t) && DidNotWait(t)
  {
    hide Reached, DidNotWait, AddVoter, SecondView;
    Step(s, Finish(B));
    t := NextDoesNotWait(After(s, Finish(B)), B);
  }
}
