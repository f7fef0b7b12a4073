/** Changing the voters in the view (node/maintenance.go): the compare-and-set callbacks that add and
    remove one voter at a time, and the sync between two changes. */
module VoterViews {

  import opened Slots
  import opened Quorums
  import V = VoterChange

  datatype Voter = Voter(id: NodeId, since: nat)

  datatype Sync = SyncDone | SyncPending(target: NodeId, add: bool)

  datatype View = View(epoch: nat, voters: seq<Voter>, sync: Sync)

  function Ids(vs: seq<Voter>): (s: set<NodeId>)
  {
    set i | 0 <= i < |vs| :: vs[i].id
  }

  predicate IsVoter(v: View, id: NodeId)
  {
    exists i :: 0 <= i < |v.voters| && v.voters[i].id == id
  }

  /** The voters other than id, in order. */
  function Others(vs: seq<Voter>, id: NodeId): (r: seq<Voter>)
  {
    if vs == [] then [] else Others(vs[..|vs| - 1], id) + if vs[|vs| - 1].id == id then [] else [vs[|vs| - 1]]
  }

  lemma {:induction false} OthersIds(vs: seq<Voter>, id: NodeId)
    ensures Ids(Others(vs, id)) == Ids(vs) - {id}
  {
    if vs != [] {
      var n := |vs| - 1;
      OthersIds(vs[..n], id);
      IdsMore(vs[..n], vs[n]);
      assert vs == vs[..n] + [vs[n]];
      IdsMore(Others(vs[..n], id), vs[n]);
      assert Others(vs[..n], id) + [] == Others(vs[..n], id);
    }
  }

  lemma IdsMore(vs: seq<Voter>, x: Voter)
    ensures Ids(vs + [x]) == Ids(vs) + {x.id}
  {
    var all := vs + [x];
    assert all[|vs|] == x;
    forall n | n in Ids(vs)
      ensures n in Ids(all)
    {
      var i :| 0 <= i < |vs| && vs[i].id == n;
      assert all[i] == vs[i];
    }
  }

  datatype Result = Written(view: View) | Refused

  /** The callback of addVoter. */
  function AddVoter(v: View, id: NodeId): (r: Result)
  {
    if v.sync.SyncPending? || IsVoter(v, id) then Refused
    else Written(View(v.epoch + 1, v.voters + [Voter(id, v.epoch + 1)], SyncPending(id, true)))
  }

  /** The callback of removeVoter. */
  function RemoveVoter(v: View, id: NodeId): (r: Result)
  {
    if v.sync.SyncPending? || !IsVoter(v, id) then Refused
    else Written(View(v.epoch + 1, Others(v.voters, id), SyncPending(id, false)))
  }

  /** The callback that ends the sync; it does not change the epoch. */
  function FinishSync(v: View): (r: View) { v.(sync := SyncDone) }

  /** The voters before a pending change, as a holder that resumes the sync works them out. */
  function ResumedOld(v: View): (r: set<NodeId>)
    requires v.sync.SyncPending?
  {
    if v.sync.add then Ids(v.voters) - {v.sync.target} else Ids(v.voters) + {v.sync.target}
  }

  /** w follows v by one voter change. */
  ghost predicate OneChange(v: View, w: View, ids: set<NodeId>)
  {
    && Ids(w.voters) == ids && OneApart(Ids(v.voters), Ids(w.voters)) && w.epoch == v.epoch + 1
    && v.sync == SyncDone && w.sync.SyncPending? && ResumedOld(w) == Ids(v.voters)
  }

  lemma VoterIsId(v: View, id: NodeId)
    ensures IsVoter(v, id) <==> id in Ids(v.voters)
  {
  }

  lemma OneMore(s: set<NodeId>, id: NodeId)
    ensures id in s ==> OneApart(s, s - {id}) && (s - {id}) + {id} == s
    ensures id !in s ==> OneApart(s, s + {id}) && (s + {id}) - {id} == s
  {
    if id in s {
      assert s - (s - {id}) == {id} && (s - {id}) - s == {};
    } else {
      assert s - (s + {id}) == {} && (s + {id}) - s == {id};
    }
  }

  lemma AddsOne(v: View, id: NodeId)
    requires AddVoter(v, id).Written?
    ensures OneChange(v, AddVoter(v, id).view, Ids(v.voters) + {id}) && id !in Ids(v.voters)
  {
    IdsMore(v.voters, Voter(id, v.epoch + 1));
    VoterIsId(v, id);
    OneMore(Ids(v.voters), id);
    hide Ids, IsVoter, OneApart;
  }

  lemma RemovesOne(v: View, id: NodeId)
    requires RemoveVoter(v, id).Written?
    ensures OneChange(v, RemoveVoter(v, id).view, Ids(v.voters) - {id}) && id in Ids(v.voters)
  {
    OthersIds(v.voters, id);
    VoterIsId(v, id);
    OneMore(Ids(v.voters), id);
    hide Ids, IsVoter, Others, OneApart;
  }

  /** A change moves the voters by one, starts a new epoch and only follows a finished sync; a
      holder that takes over can tell what the voters were. */
  lemma ChangesByOne(v: View, id: NodeId)
    ensures AddVoter(v, id).Written? ==> OneChange(v, AddVoter(v, id).view, Ids(v.voters) + {id}) && id !in Ids(v.voters)
    ensures RemoveVoter(v, id).Written? ==> OneChange(v, RemoveVoter(v, id).view, Ids(v.voters) - {id}) && id in Ids(v.voters)
  {
    hide AddVoter, RemoveVoter, OneChange, Ids;
    if AddVoter(v, id).Written? { AddsOne(v, id); }
    if RemoveVoter(v, id).Written? { RemovesOne(v, id); }
  }

  // ---- holders, their syncs and their writes ----

  type HolderId = nat

  /** What a lease holder is doing: nothing, or the sync of a change, with every register below
      at dealt with.  Losing the lease does not stop it. */
  datatype Holder = Idle | Working(change: nat, at: nat)

  /** The view and its sync cursor, the voter sets so far, the registers, and the holders. */
  datatype State = State(
    view: View,
    cursor: nat,
    sets: seq<set<NodeId>>,
    regs: seq<V.State>,
    holders: map<HolderId, Holder>)

  datatype Write =
    | Add(h: HolderId, id: NodeId)
    | Remove(h: HolderId, id: NodeId)
    | Resume(h: HolderId)
    | SettleNext(h: HolderId, g: nat)
    | WriteCursor(h: HolderId)
    | Finish(h: HolderId)
    | StepDown(h: HolderId)
    | RegStep(r: nat, e: V.Event)

  /** The generation of the latest voter change. */
  function Current(s: State): nat
    requires |s.sets| > 0
  {
    |s.sets| - 1
  }

  ghost predicate WorksAt(s: State, h: HolderId)
  {
    h in s.holders && s.holders[h].Working?
  }

  ghost predicate IdleAt(s: State, h: HolderId) { h in s.holders && s.holders[h].Idle? }

  /** The callers keep at least one voter, and a single voter is left by another way.  A holder
      settles at the generation its proposer has by then.  The cursor is written while any
      change is pending, and the last write of a sync asks nothing of the view. */
  ghost predicate Enabled(s: State, w: Write)
  {
    && |s.sets| > 0
    && match w
       case Add(h, id) => IdleAt(s, h) && AddVoter(s.view, id).Written? && |Ids(s.view.voters)| > 1
       case Remove(h, id) => IdleAt(s, h) && RemoveVoter(s.view, id).Written? && |Ids(s.view.voters)| > 1
       case Resume(h) => IdleAt(s, h) && s.view.sync.SyncPending?
       case SettleNext(h, g) =>
         && WorksAt(s, h) && s.holders[h].at < |s.regs| && s.holders[h].change <= g <= Current(s)
         && V.Synced(s.sets, s.regs[s.holders[h].at], g)
       case WriteCursor(h) => WorksAt(s, h) && s.view.sync.SyncPending?
       case Finish(h) => WorksAt(s, h) && s.holders[h].at == |s.regs|
       case StepDown(h) => h in s.holders
       case RegStep(r, e) => r < |s.regs| && !e.Advance? && V.Enabled(s.sets, s.regs[r], e) && V.NamesSlot(s.regs[r], e)
  }

  /** A voter change reaches every register. */
  ghost function Advanced(regs: seq<V.State>): (r: seq<V.State>)
    ensures |r| == |regs| && forall i :: 0 <= i < |r| ==> r[i] == regs[i].(current := regs[i].current + 1)
  {
    seq(|regs|, i requires 0 <= i < |regs| => regs[i].(current := regs[i].current + 1))
  }

  ghost function Changed(s: State, h: HolderId, v: View): (t: State)
    requires |s.sets| > 0
  {
    State(v, 0, s.sets + [Ids(v.voters)], Advanced(s.regs), s.holders[h := Working(|s.sets|, 0)])
  }

  ghost function After(s: State, w: Write): (t: State)
    requires Enabled(s, w)
  {
    match w
    case Add(h, id) => Changed(s, h, AddVoter(s.view, id).view)
    case Remove(h, id) => Changed(s, h, RemoveVoter(s.view, id).view)
    case Resume(h) => s.(holders := s.holders[h := Working(Current(s), s.cursor)])
    case SettleNext(h, g) => s.(holders := s.holders[h := s.holders[h].(at := s.holders[h].at + 1)])
    case WriteCursor(h) => s.(cursor := s.holders[h].at)
    case Finish(h) => s.(view := FinishSync(s.view), cursor := 0, holders := s.holders[h := Idle])
    case StepDown(h) => s.(holders := s.holders[h := Idle])
    case RegStep(r, e) => s.(regs := s.regs[r := V.Apply(s.regs[r], e)])
  }

  /** A cursor or a last write of a pending sync comes from a holder that synced this very change. */
  ghost predicate Lands(s: State, w: Write)
  {
    (w.WriteCursor? || w.Finish?) && s.view.sync.SyncPending? && WorksAt(s, w.h) && |s.sets| > 0 ==>
      s.holders[w.h].change == Current(s)
  }

  ghost predicate IsStart(s: State, nodes: set<NodeId>)
  {
    && s.view.sync == SyncDone && s.sets == [Ids(s.view.voters)] && Ids(s.view.voters) != {}
    && (forall r :: 0 <= r < |s.regs| ==> V.Init(nodes, s.regs[r]))
    && (forall h :: h in s.holders ==> s.holders[h].Idle?)
  }

  ghost predicate IsRun(nodes: set<NodeId>, states: seq<State>, writes: seq<Write>)
  {
    && |states| == |writes| + 1 && IsStart(states[0], nodes)
    && forall i :: 0 <= i < |writes| ==> Enabled(states[i], writes[i]) && states[i + 1] == After(states[i], writes[i])
  }

  ghost predicate AllLand(states: seq<State>, writes: seq<Write>)
    requires |states| == |writes| + 1
  {
    forall i :: 0 <= i < |writes| ==> Lands(states[i], writes[i])
  }

  // ---- changes wait for the sync ----

  /** Every register was settled under the voters of the latest change. */
  ghost predicate AllSynced(s: State)
  {
    |s.sets| > 0 && forall r :: 0 <= r < |s.regs| ==> V.Synced(s.sets, s.regs[r], Current(s))
  }

  ghost predicate HolderOk(s: State, h: HolderId)
    requires h in s.holders && |s.sets| > 0
  {
    s.holders[h].Working? ==>
      && s.holders[h].change <= Current(s) && s.holders[h].at <= |s.regs|
      && (s.holders[h].change == Current(s) ==>
           forall r :: 0 <= r < s.holders[h].at ==> V.Synced(s.sets, s.regs[r], Current(s)))
  }

  ghost predicate Inv(s: State)
  {
    && V.GoodConf(s.sets) && s.sets[|s.sets| - 1] == Ids(s.view.voters)
    && (forall r :: 0 <= r < |s.regs| ==> s.regs[r].current == Current(s))
    && (forall h :: h in s.holders ==> HolderOk(s, h))
    && (s.view.sync.SyncPending? ==> s.cursor <= |s.regs| && forall r :: 0 <= r < s.cursor ==> V.Synced(s.sets, s.regs[r], Current(s)))
    && (s.view.sync == SyncDone && |s.sets| > 1 ==> AllSynced(s))
  }

  lemma Chained(s: State, v: View, id: NodeId)
    requires Inv(s) && (AddVoter(s.view, id) == Written(v) || RemoveVoter(s.view, id) == Written(v)) && |Ids(s.view.voters)| > 1
    ensures V.GoodConf(s.sets + [Ids(v.voters)])
  {
    ChangesByOne(s.view, id);
    var c := s.sets + [Ids(v.voters)];
    SomeVoterLeft(Ids(s.view.voters), id);
    hide AddVoter, RemoveVoter, Ids, OneApart;
    forall g | 0 <= g < |c| - 1
      ensures OneApart(c[g], c[g + 1])
    {
      if g < |s.sets| - 1 { assert OneApart(s.sets[g], s.sets[g + 1]); }
    }
  }

  lemma SomeVoterLeft(a: set<NodeId>, id: NodeId)
    requires |a| > 1
    ensures a - {id} != {} && a + {id} != {}
  {
    if a - {id} == {} { SubsetSize(a, {id}); }
  }

  lemma ChangeKeeps(s: State, h: HolderId, v: View, id: NodeId)
    requires Inv(s) && (AddVoter(s.view, id) == Written(v) || RemoveVoter(s.view, id) == Written(v)) && |Ids(s.view.voters)| > 1
    ensures Inv(Changed(s, h, v))
  {
    Chained(s, v, id);
    var t := Changed(s, h, v);
    hide V.GoodConf, V.Synced;
    forall k | k in t.holders ensures HolderOk(t, k) {
      if k != h { assert HolderOk(s, k); }
    }
  }

  lemma RegStepKeeps(s: State, r: nat, e: V.Event)
    requires Inv(s) && Enabled(s, RegStep(r, e))
    ensures Inv(After(s, RegStep(r, e)))
  {
    var t := After(s, RegStep(r, e));
    V.StepGrows(s.sets, s.regs[r], e, t.regs[r]);
    assert t.regs[r].current == s.regs[r].current;
    forall k | 0 <= k < |s.regs| && V.Synced(s.sets, s.regs[k], Current(s)) ensures V.Synced(t.sets, t.regs[k], Current(t)) {
      if k == r { V.SyncedGrows(s.sets, s.regs[r], t.regs[r], Current(s)); }
    }
    hide V.GoodConf, V.Synced, V.Enabled, V.Apply;
    forall h | h in t.holders ensures HolderOk(t, h) {
      assert HolderOk(s, h);
    }
  }

  lemma HolderKeeps(s: State, w: Write)
    requires Inv(s) && Enabled(s, w) && Lands(s, w) && !w.Add? && !w.Remove? && !w.RegStep?
    ensures Inv(After(s, w))
  {
    hide V.GoodConf, V.Synced;
    var t := After(s, w);
    assert HolderOk(s, w.h);
    forall h | h in t.holders ensures HolderOk(t, h) {
      if h != w.h { assert HolderOk(s, h); }
    }
  }

  lemma StepKeeps(s: State, w: Write)
    requires Inv(s) && Enabled(s, w) && Lands(s, w)
    ensures Inv(After(s, w))
  {
    hide Inv;
    match w
    case Add(h, id) => ChangeKeeps(s, h, AddVoter(s.view, id).view, id);
    case Remove(h, id) => ChangeKeeps(s, h, RemoveVoter(s.view, id).view, id);
    case RegStep(r, e) => RegStepKeeps(s, r, e);
    case _ => HolderKeeps(s, w);
  }

  lemma {:induction false} RunInv(nodes: set<NodeId>, states: seq<State>, writes: seq<Write>, i: nat)
    requires IsRun(nodes, states, writes) && AllLand(states, writes) && i < |states|
    ensures Inv(states[i])
  {
    if i > 0 {
      hide Inv, Enabled, After, Lands, IsStart;
      RunInv(nodes, states, writes, i - 1);
      StepKeeps(states[i - 1], writes[i - 1]);
    }
  }

  /** Where every cursor and every last write lands on the change its holder synced, the voter
      sets change by one at a time, and each change but the first is made only after every
      register was settled under the voters it changes. */
  lemma ChangesWaitForSync(nodes: set<NodeId>, states: seq<State>, writes: seq<Write>, i: nat)
    requires IsRun(nodes, states, writes) && AllLand(states, writes) && i < |writes|
    ensures V.GoodConf(states[i + 1].sets)
    ensures writes[i].Add? || writes[i].Remove? ==> |states[i].sets| == 1 || AllSynced(states[i])
  {
    RunInv(nodes, states, writes, i);
    RunInv(nodes, states, writes, i + 1);
    hide V.GoodConf, AllSynced;
    if writes[i].Add? || writes[i].Remove? { ChangesByOne(states[i].view, writes[i].id); }
  }

  /** The last write of a sync leaves only settled registers behind exactly when they were all
      settled under the latest change; for a holder that synced that change they were. */
  lemma FinishIsSoundIff(s: State, h: HolderId)
    requires Inv(s) && Enabled(s, Finish(h)) && s.view.sync.SyncPending? && |s.sets| > 1
    ensures Inv(After(s, Finish(h))) <==> AllSynced(s)
    ensures s.holders[h].change == Current(s) ==> AllSynced(s)
  {
    assert HolderOk(s, h);
    var t := After(s, Finish(h));
    hide V.GoodConf, V.Synced;
    assert AllSynced(t) <==> AllSynced(s);
    forall k | k in t.holders ensures HolderOk(t, k) {
      if k != h { assert HolderOk(s, k); }
    }
  }

  /** The same for a cursor: it may be kept exactly when every register below it was settled
      under the latest change; for a holder that syncs that change they were. */
  lemma CursorIsSoundIff(s: State, h: HolderId)
    requires Inv(s) && Enabled(s, WriteCursor(h))
    ensures Inv(After(s, WriteCursor(h))) <==>
      forall r :: 0 <= r < s.holders[h].at ==> V.Synced(s.sets, s.regs[r], Current(s))
    ensures s.holders[h].change == Current(s) ==> Inv(After(s, WriteCursor(h)))
  {
    assert HolderOk(s, h);
    var t := After(s, WriteCursor(h));
    hide V.GoodConf, V.Synced;
    forall k | k in t.holders ensures HolderOk(t, k) {
      assert HolderOk(s, k);
    }
  }

  /** The last write of a sync opens the next change at once, whether it lands or not.  So a
      change can be made too early exactly when a register is unsettled by then, which cannot be
      when the write lands. */
  lemma FinishOpensChange(s: State, h: HolderId, id: NodeId)
    requires Inv(s) && Enabled(s, Finish(h)) && s.view.sync.SyncPending? && |s.sets| > 1
    requires id !in Ids(s.view.voters) && |Ids(s.view.voters)| > 1
    ensures Enabled(After(s, Finish(h)), Add(h, id)) && (AllSynced(After(s, Finish(h))) <==> AllSynced(s))
    ensures Lands(s, Finish(h)) ==> AllSynced(s)
  {
    FinishIsSoundIff(s, h);
    hide V.Synced, Inv;
  }

  /** Whoever resumes the sync after a cursor was written leaves out every register below it.  Its
      last write lands, and is right about them exactly when they were settled before. */
  lemma CursorIsResumed(s: State, h: HolderId, k: HolderId)
    requires Inv(s) && Enabled(s, WriteCursor(h)) && IdleAt(s, k)
    ensures var t := After(s, WriteCursor(h));
      && Enabled(t, Resume(k)) && Lands(After(t, Resume(k)), Finish(k))
      && After(t, Resume(k)).holders[k] == Working(Current(s), s.holders[h].at)
      && (HolderOk(After(t, Resume(k)), k) <==> Inv(t))
    ensures Lands(s, WriteCursor(h)) ==> Inv(After(s, WriteCursor(h)))
  {
    CursorIsSoundIff(s, h);
    assert HolderOk(s, h);
    hide V.Synced;
  }

  // ---- what this means for the registers ----

  ghost predicate Extends(a: V.Conf, b: V.Conf) { |a| <= |b| && a == b[..|a|] }

  lemma ExtendsAt(a: V.Conf, b: V.Conf, g: nat)
    requires Extends(a, b) && g < |a|
    ensures b[g] == a[g]
  {
  }

  /** Later voter sets do not matter to what is done under earlier ones. */
  lemma EnabledLater(a: V.Conf, b: V.Conf, s: V.State, e: V.Event)
    requires Extends(a, b) && V.Enabled(a, s, e) && !e.Advance?
    ensures V.Enabled(b, s, e)
  {
    if e.Propose? {
      ExtendsAt(a, b, e.p.gen);
    }
    if e.SendPurge? {
      ExtendsAt(a, b, e.g);
      ExtendsAt(a, b, e.h);
    }
  }

  lemma CleanLater(a: V.Conf, b: V.Conf, s: V.State, e: V.Event)
    requires Extends(a, b) && V.Enabled(a, s, e) && V.CleanStep(a, s, e) && s.current < |a|
    requires forall n :: n in s.inst ==> s.inst[n] <= s.current
    ensures V.CleanStep(b, s, e)
  {
  }

  lemma SyncedLater(a: V.Conf, b: V.Conf, s: V.State, g: nat)
    requires Extends(a, b) && V.Synced(a, s, g) && g < |a|
    ensures V.Synced(b, s, g)
  {
    ExtendsAt(a, b, g);
    if c: Ballot :| V.ChosenAt(a, s, g, c) {
      assert V.ChosenAt(b, s, g, c);
    } else {
      assert V.ScannedBlank(b, s, g);
    }
  }

  /** What the steps of register r have to be like: it is never purged, or they are clean. */
  ghost predicate Tidy(states: seq<State>, writes: seq<Write>, r: nat, clean: bool)
    requires |states| == |writes| + 1
  {
    forall i :: 0 <= i < |writes| && writes[i].RegStep? && writes[i].r == r && r < |states[i].regs| ==>
      if clean then V.CleanStep(states[i].sets, states[i].regs[r], writes[i].e) else !writes[i].e.SendPurge?
  }

  lemma {:induction false} SetsExtend(nodes: set<NodeId>, states: seq<State>, writes: seq<Write>, i: nat, j: nat)
    requires IsRun(nodes, states, writes) && i <= j < |states|
    ensures Extends(states[i].sets, states[j].sets) && |states[j].regs| == |states[i].regs|
    decreases j
  {
    if i < j {
      SetsExtend(nodes, states, writes, i, j - 1);
      var s, t := states[j - 1], states[j];
      assert Enabled(s, writes[j - 1]) && t == After(s, writes[j - 1]);
      OneWriteExtends(s, writes[j - 1]);
      assert t.sets[..|s.sets|][..|states[i].sets|] == t.sets[..|states[i].sets|];
    }
  }

  lemma OneWriteExtends(s: State, w: Write)
    requires Enabled(s, w)
    ensures Extends(s.sets, After(s, w).sets) && |After(s, w).regs| == |s.regs|
  {
  }

  lemma AdvanceIsStep(conf: V.Conf, x: V.State, clean: bool)
    requires V.GoodConf(conf) && V.Inv(conf, clean, x) && x.current + 1 < |conf|
    requires x.current == 0 || V.Synced(conf, x, x.current)
    ensures V.Inv(conf, clean, x.(current := x.current + 1))
  {
    hide V.Inv, V.GoodConf, V.Synced;
    assert V.Allowed(conf, clean, x, V.Advance);
    assert V.Apply(x, V.Advance) == x.(current := x.current + 1);
    V.StepKeeps(conf, clean, x, x.(current := x.current + 1));
  }

  lemma ChangeIsStep(s: State, w: Write, conf: V.Conf, r: nat, clean: bool)
    requires Inv(s) && Enabled(s, w) && r < |s.regs| && Extends(After(s, w).sets, conf) && V.GoodConf(conf)
    requires V.Inv(conf, clean, s.regs[r]) && (w.Add? || w.Remove?)
    ensures V.Inv(conf, clean, After(s, w).regs[r])
  {
    hide V.Inv, V.GoodConf, V.Synced;
    var t, x := After(s, w), s.regs[r];
    ChangesByOne(s.view, w.id);
    assert conf[..|t.sets|][..|s.sets|] == conf[..|s.sets|] == s.sets;
    if |s.sets| > 1 {
      assert V.Synced(s.sets, x, Current(s));
      SyncedLater(s.sets, conf, x, Current(s));
    }
    AdvanceIsStep(conf, x, clean);
  }

  /** One write is a step of register r, or leaves it alone. */
  lemma WriteIsStep(s: State, w: Write, conf: V.Conf, r: nat, clean: bool)
    requires Inv(s) && Enabled(s, w) && r < |s.regs| && Extends(After(s, w).sets, conf) && V.GoodConf(conf)
    requires V.Inv(conf, clean, s.regs[r])
    requires w.RegStep? && w.r == r ==> if clean then V.CleanStep(s.sets, s.regs[r], w.e) else !w.e.SendPurge?
    ensures r < |After(s, w).regs| && V.Inv(conf, clean, After(s, w).regs[r])
  {
    hide V.Inv, V.GoodConf, Inv, V.CleanStep, V.Enabled, V.Synced, V.NamesSlot;
    OneWriteExtends(s, w);
    if w.Add? || w.Remove? {
      ChangeIsStep(s, w, conf, r, clean);
    } else if w.RegStep? && w.r == r {
      RegStepIsStep(s, w.e, conf, r, clean);
    } else {
      assert After(s, w).regs[r] == s.regs[r];
    }
  }

  lemma RegStepIsStep(s: State, e: V.Event, conf: V.Conf, r: nat, clean: bool)
    requires Inv(s) && Enabled(s, RegStep(r, e)) && Extends(s.sets, conf) && V.GoodConf(conf)
    requires V.Inv(conf, clean, s.regs[r])
    requires if clean then V.CleanStep(s.sets, s.regs[r], e) else !e.SendPurge?
    ensures V.Inv(conf, clean, V.Apply(s.regs[r], e))
  {
    var x := s.regs[r];
    hide V.Inv;
    EnabledLater(s.sets, conf, x, e);
    if clean {
      forall n | n in x.inst ensures x.inst[n] <= x.current {
        SlotsBound(conf, clean, x, n);
      }
      CleanLater(s.sets, conf, x, e);
    }
    hide V.Enabled, V.CleanStep, V.Apply;
    assert V.Allowed(conf, clean, x, e);
    assert V.AllowedNext(conf, clean, x, V.Apply(x, e));
    V.StepKeeps(conf, clean, x, V.Apply(x, e));
  }

  lemma SlotsBound(conf: V.Conf, clean: bool, x: V.State, n: NodeId)
    requires V.Inv(conf, clean, x) && n in x.inst
    ensures x.inst[n] <= x.current
  {
    assert n in x.slots by { assert x.inst.Keys == x.slots.Keys; }
    V.SlotFact(conf, clean, x, n);
  }

  lemma {:induction false} RegisterInv(nodes: set<NodeId>, states: seq<State>, writes: seq<Write>, conf: V.Conf, r: nat, clean: bool, i: nat)
    requires IsRun(nodes, states, writes) && AllLand(states, writes) && Tidy(states, writes, r, clean)
    requires i < |states| && r < |states[0].regs| && V.GoodConf(conf) && Extends(states[i].sets, conf)
    ensures r < |states[i].regs| && V.Inv(conf, clean, states[i].regs[r])
    decreases i
  {
    hide V.Inv, Inv, Enabled, After, Lands, V.GoodConf;
    if i == 0 {
      V.InitInv(conf, clean, nodes, states[0].regs[r]);
    } else {
      SetsExtend(nodes, states, writes, i - 1, i);
      assert conf[..|states[i].sets|][..|states[i - 1].sets|] == conf[..|states[i - 1].sets|];
      RegisterInv(nodes, states, writes, conf, r, clean, i - 1);
      RunInv(nodes, states, writes, i - 1);
      WriteIsStep(states[i - 1], writes[i - 1], conf, r, clean);
    }
  }

  /** So every register agrees across the whole run: of any two proposals chosen in it, under
      whatever voters, the lower is an ancestor of the higher. */
  lemma RegistersAgree(nodes: set<NodeId>, states: seq<State>, writes: seq<Write>, r: nat, clean: bool, b: Ballot, c: Ballot)
    requires IsRun(nodes, states, writes) && AllLand(states, writes) && Tidy(states, writes, r, clean) && r < |states[0].regs|
    requires r < |states[|writes|].regs|
    requires V.Chosen(states[|writes|].sets, states[|writes|].regs[r], b)
    requires V.Chosen(states[|writes|].sets, states[|writes|].regs[r], c) && b <= c
    ensures V.Descends(states[|writes|].regs[r], c, b)
  {
    var z := |writes|;
    RunInv(nodes, states, writes, z);
    hide V.Inv, V.Descends, V.TooLate;
    RegisterInv(nodes, states, writes, states[z].sets, r, clean, z);
    V.ChosenInTime(states[z].sets, clean, states[z].regs[r], c);
    V.ChosenIsAncestor(states[z].sets, clean, states[z].regs[r], b, c);
  }

  // ---- settling every register ----

  type Reg = nat

  const VIEW_REG: Reg := 0
  const ATTEMPTS := 22

  /** Some attempt at settling r succeeds. */
  predicate Settles(settle: (Reg, nat) -> bool, r: Reg)
  {
    exists a :: 0 <= a < ATTEMPTS && settle(r, a)
  }

  method SettleOne(settle: (Reg, nat) -> bool, r: Reg) returns (ok: bool)
    ensures ok == Settles(settle, r)
  {
    var a := 0;
    while a < ATTEMPTS
      invariant a <= ATTEMPTS && forall b :: 0 <= b < a ==> !settle(r, b)
    {
      if settle(r, a) {
        return true;
      }
      a := a + 1;
    }
    return false;
  }

  ghost predicate AllSettle(settle: (Reg, nat) -> bool, rows: seq<Reg>)
  {
    forall i :: 0 <= i < |rows| ==> rows[i] == VIEW_REG || Settles(settle, rows[i])
  }

  /** syncRegisters: every listed register but the view's is settled, page by page; the first that
      cannot be settled ends the sync with an error. */
  method SyncRegisters(settle: (Reg, nat) -> bool, pages: seq<seq<Reg>>) returns (ok: bool, cursor: nat)
    ensures ok <==> forall p :: 0 <= p < |pages| ==> AllSettle(settle, pages[p])
    ensures cursor <= |pages| && forall p :: 0 <= p < cursor ==> AllSettle(settle, pages[p])
    ensures !ok ==> cursor < |pages| && !AllSettle(settle, pages[cursor])
  {
    cursor := 0;
    while cursor < |pages|
      invariant cursor <= |pages| && forall p :: 0 <= p < cursor ==> AllSettle(settle, pages[p])
    {
      var rows := pages[cursor];
      var i := 0;
      while i < |rows|
        invariant i <= |rows| && forall j :: 0 <= j < i ==> rows[j] == VIEW_REG || Settles(settle, rows[j])
      {
        if rows[i] != VIEW_REG {
          var done := SettleOne(settle, rows[i]);
          if !done {
            return false, cursor;
          }
        }
        i := i + 1;
      }
      cursor := cursor + 1;
    }
    return true, cursor;
  }
}
