/** The acceptor's handlers are steps of the protocol machines: what one acceptor does to one
    register, seen from VoterChange and from Amnesia. */
module AcceptorSteps {
  import opened Options
  import opened Slots
  import opened AcceptorNode
  import V = VoterChange
  import C = Caspaxos
  import A = Amnesia
  import P = Proposer

  /** Which voter set an epoch belongs to. */
  type Generations = (nat, nat) -> nat

  ghost predicate Later(inc: nat, epoch: nat, inc': nat, epoch': nat) { inc < inc' || (inc == inc' && epoch <= epoch') }

  ghost predicate InOrder(gen: Generations)
  {
    forall inc, epoch, inc', epoch' :: Later(inc, epoch, inc', epoch') ==> gen(inc, epoch) <= gen(inc', epoch')
  }

  /** s has what the acceptor holds of reg, at the generation of its installed view. */
  ghost predicate Mirrors(a: Acceptor, conf: V.Conf, gen: Generations, reg: Reg, s: V.State)
    reads a
  {
    && a.Valid() && a.self in s.inst && a.self in s.slots && s.slots[a.self] == a.SlotOf(reg) && a.installed.Some?
    && s.inst[a.self] == gen(a.installed.value.incarnation, a.installed.value.epoch) < |conf|
    && a.installed.value.voters.Keys == conf[s.inst[a.self]]
    && (a.self !in a.installed.value.voters ==> a.retired || a.marker.None?)
  }

  /** Request and view are of one epoch only when they are of one generation. */
  ghost predicate SameEpoch(a: Acceptor, inc: nat, epoch: nat)
    reads a
  {
    a.installed.Some? && a.installed.value.incarnation == inc && a.installed.value.epoch == epoch
  }

  /** A prepare sent to a voter: the answer counts exactly when it is a step of the machine. */
  method PrepareStep(a: Acceptor, inc: nat, epoch: nat, reg: Reg, b: Ballot, ghost conf: V.Conf, ghost gen: Generations, ghost s: V.State)
    returns (ans: Answer, ghost t: V.State)
    requires Mirrors(a, conf, gen, reg, s) && gen(inc, epoch) < |conf| && a.self in conf[gen(inc, epoch)]
    modifies a`rows
    ensures Mirrors(a, conf, gen, reg, t)
    ensures ans.Voted? ==>
      var e := V.PrepareAt(a.self, gen(inc, epoch), b);
      && V.Enabled(conf, s, e) && t == V.Apply(s, e)
      && (ans.reply.Promise? ==>
           V.PromiseMsg(gen(inc, epoch), a.self, b, ans.reply.accepted, ans.reply.value, s.purges) in t.promises)
    ensures !ans.Voted? ==> t == s
    ensures SameEpoch(a, inc, epoch) && a.marker == Some(a.installed.value.voters[a.self]) && !a.retired && b > 0 ==> ans.Voted?
  {
    ans := a.HandlePrepare(inc, epoch, reg, b);
    t := if ans.Voted? then V.Apply(s, V.PrepareAt(a.self, gen(inc, epoch), b)) else s;
  }

  /** An accept sent to a voter. */
  method AcceptStep(a: Acceptor, inc: nat, epoch: nat, reg: Reg, b: Ballot, v: Option<Value>, notAfter: nat, now: nat,
                    ghost conf: V.Conf, ghost gen: Generations, ghost s: V.State)
    returns (ans: Answer, ghost t: V.State)
    requires Mirrors(a, conf, gen, reg, s) && gen(inc, epoch) < |conf| && a.self in conf[gen(inc, epoch)]
    requires b in s.proposals && s.proposals[b].value == v && s.proposals[b].gen == gen(inc, epoch)
    modifies a`rows
    ensures Mirrors(a, conf, gen, reg, t)
    ensures ans.Voted? ==>
      var e := V.AcceptAt(a.self, b);
      && V.Enabled(conf, s, e) && t == V.Apply(s, e) && (ans.reply.AcceptedAck? ==> V.Acked(t, a.self, b))
    ensures !ans.Voted? ==> t == s
  {
    ans := a.HandleAccept(inc, epoch, reg, b, v, notAfter, now);
    t := if ans.Voted? then V.Apply(s, V.AcceptAt(a.self, b)) else s;
  }

  /** A read of a row at a voter. */
  method ReadStep(a: Acceptor, inc: nat, epoch: nat, reg: Reg, ghost conf: V.Conf, ghost gen: Generations, ghost s: V.State)
    returns (ans: Answer, ghost t: V.State)
    requires Mirrors(a, conf, gen, reg, s) && gen(inc, epoch) < |conf| && a.self in conf[gen(inc, epoch)]
    ensures Mirrors(a, conf, gen, reg, t)
    ensures ans.ReadReply? && ans.accepted > 0 ==>
      && V.Enabled(conf, s, V.ReadAt(a.self)) && t == V.Apply(s, V.ReadAt(a.self))
      && V.HeldAt(t, gen(inc, epoch), a.self, ans.accepted)
    ensures !(ans.ReadReply? && ans.accepted > 0) ==> t == s
  {
    ans := a.HandleRead(inc, epoch, reg);
    t := if ans.ReadReply? && ans.accepted > 0 then V.Apply(s, V.ReadAt(a.self)) else s;
  }

  /** A purge, at whatever epoch; another register o of the same acceptor sees at most the floor rise. */
  method PurgeStep(a: Acceptor, reg: Reg, g: nat, d: Ballot, ghost conf: V.Conf, ghost gen: Generations, ghost s: V.State,
                   ghost o: Reg, ghost u: V.State)
    returns (ans: Answer, ghost t: V.State)
    requires Mirrors(a, conf, gen, reg, s) && Mirrors(a, conf, gen, o, u) && o != reg && V.Purged(s, g, d) && d > 0
    modifies a`rows, a`floor
    ensures V.Enabled(conf, s, V.PurgeAt(a.self, g, d)) && t == V.Apply(s, V.PurgeAt(a.self, g, d)) && Mirrors(a, conf, gen, reg, t)
    ensures a.floor == old(a.floor) ==> Mirrors(a, conf, gen, o, u)
    ensures a.floor != old(a.floor) ==>
      V.Enabled(conf, u, V.RaiseFloor(a.self, a.floor)) && Mirrors(a, conf, gen, o, V.Apply(u, V.RaiseFloor(a.self, a.floor)))
  {
    ans := a.HandlePurge(reg, d);
    t := V.Apply(s, V.PurgeAt(a.self, g, d));
  }

  /** A view of some generation up to the current one. */
  method InstallStep(a: Acceptor, v: View, reg: Reg, ghost conf: V.Conf, ghost gen: Generations, ghost s: V.State)
    returns (ghost t: V.State)
    requires Mirrors(a, conf, gen, reg, s) && InOrder(gen)
    requires gen(v.incarnation, v.epoch) <= s.current && gen(v.incarnation, v.epoch) < |conf|
    requires v.voters.Keys == conf[gen(v.incarnation, v.epoch)]
    modifies a`installed, a`retired, a`rows, a`floor
    ensures Mirrors(a, conf, gen, reg, t)
    ensures t == s || exists wipe :: var e := V.InstallAt(a.self, gen(v.incarnation, v.epoch), wipe);
      V.Enabled(conf, s, e) && t == V.Apply(s, e)
    ensures old(Newer(v, a.installed.value)) && gen(v.incarnation, v.epoch) > s.inst[a.self] ==> t != s
  {
    var was := a.installed.value;
    ghost var g, h := gen(v.incarnation, v.epoch), s.inst[a.self];
    a.Install(v);
    t := s;
    if a.installed == Some(v) && v != was {
      assert Later(was.incarnation, was.epoch, v.incarnation, v.epoch);
      if h < g {
        ghost var wipe := a.SlotOf(reg) != s.slots[a.self];
        t := V.Apply(s, V.InstallAt(a.self, g, wipe));
        assert V.Enabled(conf, s, V.InstallAt(a.self, g, wipe));
      }
    }
  }

  // ---- what the proposer makes of a refusal ----

  /** The view an acceptor sends with a refusal is the one the proposer goes on with, and an older
      one never is: the two sides order views alike. */
  lemma StaleViewIsAdopted(v: View, r: P.Round)
    ensures var w := P.Round(v.voters.Keys, v.incarnation, v.epoch);
      && (v.incarnation > r.inc || (v.incarnation == r.inc && v.epoch > r.epoch) ==> P.Newest(r, w) == w && P.Older(r, w))
      && (v.incarnation < r.inc || (v.incarnation == r.inc && v.epoch <= r.epoch) ==> P.Newest(r, w) == r && !P.Older(r, w))
  {
  }

  // ---- a lost disk ----

  /** The acceptor is one of the voters of its view, and its marker tells whether it lost its disk. */
  ghost predicate Remembers(a: Acceptor, reg: Reg, w: A.State)
    reads a
  {
    && a.Valid() && a.self in w.s.slots && w.s.slots[a.self] == a.SlotOf(reg) && a.installed.Some? && !a.retired
    && a.self in a.installed.value.voters && (a.self in w.wiped <==> a.marker != Some(a.installed.value.voters[a.self]))
  }

  /** A wiped acceptor refuses prepares, and one that is not does not. */
  method PrepareOrRefuse(a: Acceptor, reg: Reg, b: Ballot, ghost voters: set<NodeId>, ghost w: A.State)
    returns (ans: Answer, ghost x: A.State)
    requires Remembers(a, reg, w) && b > 0
    modifies a`rows
    ensures Remembers(a, reg, x)
    ensures a.self in w.wiped <==> ans.IsAmnesiac?
    ensures ans.Voted? ==>
      var e := A.Normal(C.PrepareAt(a.self, b));
      A.Enabled(voters, w, e) && x == A.Apply(voters, w, e)
    ensures !ans.Voted? ==> x == w
  {
    ans := a.HandlePrepare(a.installed.value.incarnation, a.installed.value.epoch, reg, b);
    x := if ans.Voted? then A.Apply(voters, w, A.Normal(C.PrepareAt(a.self, b))) else w;
  }

  /** It takes accepts either way. */
  method AcceptEitherWay(a: Acceptor, reg: Reg, b: Ballot, v: Option<Value>, ghost voters: set<NodeId>, ghost w: A.State)
    returns (ans: Answer, ghost x: A.State)
    requires Remembers(a, reg, w) && b > 0 && b in w.s.proposals && w.s.proposals[b].value == v
    modifies a`rows
    ensures Remembers(a, reg, x) && ans.Voted?
    ensures A.Enabled(voters, w, A.Normal(C.AcceptAt(a.self, b))) && x == A.Apply(voters, w, A.Normal(C.AcceptAt(a.self, b)))
  {
    ans := a.HandleAccept(a.installed.value.incarnation, a.installed.value.epoch, reg, b, v, 0, 0);
    x := A.Apply(voters, w, A.Normal(C.AcceptAt(a.self, b)));
  }
}
